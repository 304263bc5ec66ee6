// What the Base64 codec promises: decoding undoes encoding, the lengths are those of
// section 4 of RFC 4648, and re-encoding restores exactly the canonical texts.

module Base64Laws {
  import opened Prelude
  import opened Base64

  // ---------------------------------------------------------------- symbols and bits

  lemma SextetRange(v: Sextet)
    ensures 0 <= v as int < 64 && (v as int) as Sextet == v
  {
  }

  lemma CodeIsLetter(i: nat, c: char)
    requires i < 64 && c as int == Code(i)
    ensures Val(c) == Some(i as Sextet)
  {
    if i < 26 {
    } else if i < 52 {
    } else if i < 62 {
    } else {
      assert c == '+' || c == '/';
    }
  }

  lemma SymbolIsLetter(v: Sextet)
    ensures Val(Symbol(v)) == Some(v)
  {
    SextetRange(v);
    CodeIsLetter(v as int, Symbol(v));
  }

  lemma LetterIndex(c: char) returns (i: nat)
    requires Val(c).Some?
    ensures i < 64 && Val(c) == Some(i as Sextet) && c as int == Code(i)
  {
    i := if 'A' <= c <= 'Z' then c as int - 'A' as int
    else if 'a' <= c <= 'z' then c as int - 'a' as int + 26
    else if '0' <= c <= '9' then c as int - '0' as int + 52
    else if c == '+' then 62 else 63;
  }

  lemma SextetIndex(i: nat)
    requires i < 64
    ensures (i as Sextet) as int == i
  {
  }

  lemma LetterIsSymbol(c: char)
    requires Val(c).Some?
    ensures Symbol(Val(c).value) == c
  {
    var i := LetterIndex(c);
    SextetIndex(i);
  }

  /** Splitting bytes into sextets and joining them again gives the bytes back. */
  lemma JoinOfSplit(b0: Byte, b1: Byte, b2: Byte)
    ensures High(First(b0), Second(b0, b1)) == b0
    ensures Middle(Second(b0, b1), Third(b1, b2)) == b1
    ensures Low(Third(b1, b2), Fourth(b2)) == b2
  {
  }

  /** Joining sextets and splitting them again loses at most the bits a short group cannot hold. */
  lemma SplitOfJoin(v0: Sextet, v1: Sextet, v2: Sextet, v3: Sextet)
    ensures First(High(v0, v1)) == v0
    ensures Second(High(v0, v1), Middle(v1, v2)) == v1
    ensures Third(Middle(v1, v2), Low(v2, v3)) == v2
    ensures Fourth(Low(v2, v3)) == v3
    ensures Second(High(v0, v1), 0) == v1 <==> v1 & 0xF == 0
    ensures Third(Middle(v1, v2), 0) == v2 <==> v2 & 0x3 == 0
  {
  }

  lemma SpareBits(b: Byte, c: Byte)
    ensures Second(b, 0) & 0xF == 0 && Third(c, 0) & 0x3 == 0
  {
  }

  // ---------------------------------------------------------------- digits and padding

  function QuadDigits(x: seq<Byte>): seq<Sextet>
    requires 1 <= |x| <= 3
  {
    if |x| == 1 then [First(x[0]), Second(x[0], 0)]
    else if |x| == 2 then [First(x[0]), Second(x[0], x[1]), Third(x[1], 0)]
    else [First(x[0]), Second(x[0], x[1]), Third(x[1], x[2]), Fourth(x[2])]
  }

  function Digits(x: seq<Byte>): seq<Sextet> {
    if x == [] then [] else if |x| <= 3 then QuadDigits(x) else QuadDigits(x[..3]) + Digits(x[3..])
  }

  function Symbols(v: seq<Sextet>): (t: string)
    ensures |t| == |v| && forall i :: 0 <= i < |v| ==> t[i] == Symbol(v[i])
  {
    seq(|v|, i requires 0 <= i < |v| => Symbol(v[i]))
  }

  function Padding(n: nat): (p: string)
    ensures |p| == n && forall i :: 0 <= i < n ==> p[i] == '='
  {
    if n == 0 then "" else "=" + Padding(n - 1)
  }

  /** How many '=' complete a text of `n` symbols. */
  function Missing(n: nat): nat {
    (4 - n % 4) % 4
  }

  lemma QuadParts(x: seq<Byte>)
    requires 1 <= |x| <= 3
    ensures Quad(x) == Symbols(QuadDigits(x)) + Padding(Missing(|QuadDigits(x)|))
  {
  }

  lemma FullQuad(x: seq<Byte>)
    requires |x| == 3
    ensures Quad(x) == Symbols(QuadDigits(x))
  {
  }

  lemma SymbolsAppend(v: seq<Sextet>, w: seq<Sextet>)
    ensures Symbols(v + w) == Symbols(v) + Symbols(w)
  {
  }

  /** Putting a full quad in front keeps the shape. */
  lemma QuadInFront(x: seq<Byte>, rest: seq<Byte>)
    requires |x| == 3
    ensures var (q, v) := (QuadDigits(x), Digits(rest));
      Quad(x) + (Symbols(v) + Padding(Missing(|v|))) == Symbols(q + v) + Padding(Missing(|q + v|))
  {
    var q, v := QuadDigits(x), Digits(rest);
    FullQuad(x);
    SymbolsAppend(q, v);
    Regroup(Symbols(q), Symbols(v), Padding(Missing(|v|)));
    assert Missing(4 + |v|) == Missing(|v|);
  }

  lemma {:induction false} EncodedParts(x: seq<Byte>)
    ensures Encoded(x) == Symbols(Digits(x)) + Padding(Missing(|Digits(x)|))
    ensures |Digits(x)| % 4 != 1
  {
    if 0 < |x| <= 3 {
      QuadParts(x);
    } else if |x| > 3 {
      EncodedParts(x[3..]);
      QuadInFront(x[..3], x[3..]);
    }
  }

  lemma {:induction false} TrimsPadding(t: string, n: nat)
    requires t != "" ==> t[|t| - 1] != '='
    ensures TrimPadding(t + Padding(n)) == t
  {
    if n == 0 {
      assert t + Padding(0) == t;
    } else {
      TrimsPadding(t, n - 1);
      assert (t + Padding(n))[..|t| + n - 1] == t + Padding(n - 1);
    }
  }

  lemma SymbolsDecode(v: seq<Sextet>)
    ensures InAlphabet(Symbols(v)) && Sextets(Symbols(v)) == v
    ensures forall i :: 0 <= i < |v| ==> Symbols(v)[i] != '='
  {
    forall i | 0 <= i < |v| ensures Val(Symbols(v)[i]) == Some(v[i]) && Symbols(v)[i] != '=' {
      SymbolIsLetter(v[i]);
    }
  }

  lemma TextIsSymbols(t: string)
    requires InAlphabet(t)
    ensures Symbols(Sextets(t)) == t
  {
    forall i | 0 <= i < |t| ensures Symbols(Sextets(t))[i] == t[i] {
      LetterIsSymbol(t[i]);
    }
  }

  lemma {:induction false} UnpackedDigits(x: seq<Byte>)
    ensures Unpacked(Digits(x)) == x
  {
    if 0 < |x| {
      var n := if |x| < 3 then |x| else 3;
      var q := QuadDigits(x[..n]);
      assert x == x[..n] + x[n..];
      JoinOfSplit(x[0], if n > 1 then x[1] else 0, if n > 2 then x[2] else 0);
      assert ChunkBytes(q) == x[..n];
      if |x| <= 3 {
        assert x[..n] == x;
      } else {
        UnpackedDigits(x[3..]);
        UnpackedSplits(Digits(x), 4);
        assert Digits(x)[..4] == q && Digits(x)[4..] == Digits(x[3..]);
      }
    }
  }

  // ---------------------------------------------------------------- main results

  /** Main result: decoding undoes encoding, for every byte string. */
  lemma RoundTrip(x: seq<Byte>)
    ensures Decoded(Encoded(x)) == Some(x)
  {
    EncodedParts(x);
    SymbolsDecode(Digits(x));
    TrimsPadding(Symbols(Digits(x)), Missing(|Digits(x)|));
    UnpackedDigits(x);
  }

  /** Every three bytes, or fewer at the end, cost four characters. */
  lemma {:induction false} EncodedLength(x: seq<Byte>)
    ensures |Encoded(x)| == 4 * ((|x| + 2) / 3)
  {
    if |x| > 3 {
      EncodedLength(x[3..]);
    }
  }

  lemma {:induction false} UnpackedLength(v: seq<Sextet>)
    ensures |Unpacked(v)| == 3 * |v| / 4
  {
    if |v| > 4 {
      UnpackedLength(v[4..]);
    }
  }

  /** Main result: a text decodes exactly if what is left after dropping trailing '=' is in the
      alphabet, and then every four symbols give three bytes, rounded down. */
  lemma DecodedLength(s: string)
    ensures Decoded(s).Some? <==> InAlphabet(TrimPadding(s))
    ensures Decoded(s).Some? ==> |Decoded(s).value| == 3 * |TrimPadding(s)| / 4
  {
    if InAlphabet(TrimPadding(s)) {
      UnpackedLength(Sextets(TrimPadding(s)));
    }
  }

  /** Bits of the last symbol that no byte takes are zero. */
  predicate SpareZero(v: seq<Sextet>) {
    && |v| % 4 != 1
    && (|v| % 4 == 2 ==> v[|v| - 1] & 0xF == 0)
    && (|v| % 4 == 3 ==> v[|v| - 1] & 0x3 == 0)
  }

  /** The one spelling that section 4 of RFC 4648 gives a byte string. */
  predicate Canonical(s: string) {
    var t := TrimPadding(s);
    InAlphabet(t) && s == t + Padding(Missing(|t|)) && SpareZero(Sextets(t))
  }

  lemma {:induction false} DigitsSpareZero(x: seq<Byte>)
    ensures SpareZero(Digits(x))
  {
    if 0 < |x| {
      SpareBits(x[0], if |x| > 1 then x[1] else 0);
    }
    if |x| > 3 {
      DigitsSpareZero(x[3..]);
      assert |Digits(x)| == 4 + |Digits(x[3..])|;
    }
  }

  lemma {:induction false} DigitsOfUnpacked(v: seq<Sextet>)
    requires SpareZero(v)
    ensures Digits(Unpacked(v)) == v
  {
    if v != [] {
      var n := if |v| < 4 then |v| else 4;
      SplitOfJoin(v[0], v[1], if n > 2 then v[2] else 0, if n > 3 then v[3] else 0);
      assert QuadDigits(ChunkBytes(v[..n])) == v[..n];
      if |v| <= 4 {
        assert v[..n] == v;
      } else {
        DigitsOfUnpacked(v[4..]);
        UnpackedLength(v[4..]);
        var x := Unpacked(v);
        assert x[..3] == ChunkBytes(v[..4]) && x[3..] == Unpacked(v[4..]);
      }
    }
  }

  /** Main result: re-encoding what was decoded restores the text exactly if the text was canonical,
      although the decoder accepts others. */
  lemma ReencodesIffCanonical(s: string)
    requires Decoded(s).Some?
    ensures Encoded(Decoded(s).value) == s <==> Canonical(s)
  {
    var t := TrimPadding(s);
    var x := Decoded(s).value;
    EncodedParts(x);
    if Canonical(s) {
      DigitsOfUnpacked(Sextets(t));
      TextIsSymbols(t);
    }
    var d := Digits(x);
    SymbolsDecode(d);
    TrimsPadding(Symbols(d), Missing(|d|));
    DigitsSpareZero(x);
  }

  lemma TwoSymbols(t: string, v0: Sextet, v1: Sextet)
    requires |t| == 2 && Val(t[0]) == Some(v0) && Val(t[1]) == Some(v1)
    ensures Decoded(t) == Some([High(v0, v1)])
  {
    assert TrimPadding(t) == t;
    assert Sextets(t) == [v0, v1];
  }

  /** Trailing padding changes nothing. */
  lemma {:induction false} PaddingIsDropped(s: string, n: nat)
    ensures Decoded(s + Padding(n)) == Decoded(s)
  {
    if n == 0 {
      assert s + Padding(0) == s;
    } else {
      var t := s + Padding(n);
      assert t[..|t| - 1] == s + Padding(n - 1) && t[|t| - 1] == '=';
      PaddingIsDropped(s, n - 1);
    }
  }

  /** Three spellings of one byte: canonical, without padding, and with a spare bit set. */
  lemma SpellingsOfOneByte()
    ensures Decoded("QQ==") == Some([0x41]) && Encoded([0x41]) == "QQ=="
    ensures Decoded("QQ") == Some([0x41]) && !Canonical("QQ")
    ensures Decoded("QR==") == Some([0x41]) && !Canonical("QR==")
  {
    assert High(0x10, 0x10) == 0x41 && High(0x10, 0x11) == 0x41 && First(0x41) == 0x10 && Second(0x41, 0) == 0x10;
    TwoSymbols("QQ", 0x10, 0x10);
    TwoSymbols("QR", 0x10, 0x11);
    PaddingIsDropped("QQ", 2);
    PaddingIsDropped("QR", 2);
    assert "QQ" + Padding(2) == "QQ==" && "QR" + Padding(2) == "QR==";
    assert Encoded([0x41]) == "QQ==";
    assert "QR=="[1] == 'R';
    ReencodesIffCanonical("QQ");
    ReencodesIffCanonical("QR==");
  }
}
