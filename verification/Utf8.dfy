// UTF-8 text and cutting it at a byte, which fails in the middle of a character.

module Utf8 {
  import opened Prelude

  type Byte = x: nat | x < 256

  /** The bytes of one character, as RFC 3629 section 3 lays them out. */
  function Encode(c: char): (r: seq<Byte>)
    ensures 1 <= |r| <= 4 && !Continues(r[0])
    ensures forall i :: 1 <= i < |r| ==> Continues(r[i])
    ensures c as int < 128 <==> |r| == 1
  {
    var v := c as int;
    if v < 0x80 then [v]
    else if v < 0x800 then [0xC0 + v / 0x40, 0x80 + v % 0x40]
    else if v < 0x1_0000 then [0xE0 + v / 0x1000, 0x80 + v / 0x40 % 0x40, 0x80 + v % 0x40]
    else [0xF0 + v / 0x4_0000, 0x80 + v / 0x1000 % 0x40, 0x80 + v / 0x40 % 0x40, 0x80 + v % 0x40]
  }

  /** A continuation byte starts with the bits 10. */
  predicate Continues(b: Byte) {
    0x80 <= b < 0xC0
  }

  function Bytes(s: string): seq<Byte> {
    if s == "" then [] else Encode(s[0]) + Bytes(s[1..])
  }

  /** Whether a character starts at byte `n`, or the text ends there. */
  predicate IsBoundary(b: seq<Byte>, n: nat) {
    n == 0 || n == |b| || (n < |b| && !Continues(b[n]))
  }

  /** Text cut to at most `n` bytes; None where cutting fails. */
  function Cut(s: string, n: nat): Option<string> {
    if |Bytes(s)| <= n then Some(s)
    else if n == 0 then Some("")
    else if |Encode(s[0])| > n then None
    else
      match Cut(s[1..], n - |Encode(s[0])|)
      case None => None
      case Some(rest) => Some([s[0]] + rest)
  }

  /** A character lies across byte `n`. */
  ghost predicate Straddles(s: string, n: nat) {
    exists k :: 0 <= k < |s| && |Bytes(s[..k])| < n < |Bytes(s[..k + 1])|
  }

  lemma {:induction false} BytesOfPrefix(s: string, k: nat)
    requires 1 <= k <= |s|
    ensures Bytes(s[..k]) == Encode(s[0]) + Bytes(s[1..][..k - 1])
  {
    assert s[..k][1..] == s[1..][..k - 1];
  }

  lemma LaterStraddles(s: string, n: nat)
    requires s != "" && |Encode(s[0])| <= n && Straddles(s[1..], n - |Encode(s[0])|)
    ensures Straddles(s, n)
  {
    var first, rest := |Encode(s[0])|, s[1..];
    var k :| 0 <= k < |rest| && |Bytes(rest[..k])| < n - first < |Bytes(rest[..k + 1])|;
    BytesOfPrefix(s, k + 1);
    BytesOfPrefix(s, k + 2);
    assert |Bytes(s[..k + 1])| < n < |Bytes(s[..k + 1 + 1])|;
  }

  lemma EarlierStraddles(s: string, n: nat)
    requires s != "" && |Encode(s[0])| <= n && Straddles(s, n)
    ensures Straddles(s[1..], n - |Encode(s[0])|)
  {
    var first, rest := |Encode(s[0])|, s[1..];
    var k :| 0 <= k < |s| && |Bytes(s[..k])| < n < |Bytes(s[..k + 1])|;
    BytesOfPrefix(s, 1);
    assert k > 0;
    BytesOfPrefix(s, k);
    BytesOfPrefix(s, k + 1);
    assert |Bytes(rest[..k - 1])| < n - first < |Bytes(rest[..k - 1 + 1])|;
  }

  lemma StraddlesNext(s: string, n: nat)
    requires s != "" && |Encode(s[0])| <= n
    ensures Straddles(s, n) <==> Straddles(s[1..], n - |Encode(s[0])|)
  {
    if Straddles(s, n) {
      EarlierStraddles(s, n);
    }
    if Straddles(s[1..], n - |Encode(s[0])|) {
      LaterStraddles(s, n);
    }
  }

  lemma BoundaryNext(s: string, n: nat)
    requires s != "" && |Encode(s[0])| <= n <= |Bytes(s)|
    ensures IsBoundary(Bytes(s), n) <==> IsBoundary(Bytes(s[1..]), n - |Encode(s[0])|)
  {
    if s[1..] != "" {
      assert Bytes(s[1..])[0] == Encode(s[1])[0];
    }
  }

  /** Cutting fails exactly when the byte is inside the text and no character starts there, that is
      when a character of several bytes lies across it. */
  lemma {:induction false} CutFailsIff(s: string, n: nat)
    ensures Cut(s, n).None? <==> |Bytes(s)| > n && !IsBoundary(Bytes(s), n)
    ensures Cut(s, n).None? <==> Straddles(s, n)
    decreases |s|
  {
    if s == "" {
    } else if |Bytes(s)| <= n {
      if k :| 0 <= k < |s| && |Bytes(s[..k])| < n < |Bytes(s[..k + 1])| {
        PrefixShorter(s, k + 1);
      }
    } else if n < |Encode(s[0])| {
      BytesOfPrefix(s, 1);
      assert n > 0 ==> Continues(Encode(s[0])[n]);
      if n > 0 {
        assert |Bytes(s[..0])| < n < |Bytes(s[..0 + 1])|;
      }
    } else {
      CutFailsIff(s[1..], n - |Encode(s[0])|);
      BoundaryNext(s, n);
      StraddlesNext(s, n);
    }
  }

  lemma {:induction false} PrefixShorter(s: string, k: nat)
    requires k <= |s|
    ensures |Bytes(s[..k])| <= |Bytes(s)|
  {
    if k > 0 {
      BytesOfPrefix(s, k);
      PrefixShorter(s[1..], k - 1);
    }
  }

  /** Otherwise what is left is the text's beginning, and its bytes are the first `n`. */
  lemma {:induction false} CutIsPrefix(s: string, n: nat)
    requires Cut(s, n).Some?
    ensures var r := Cut(s, n).value;
      r <= s && Bytes(r) == if |Bytes(s)| <= n then Bytes(s) else Bytes(s)[..n]
    decreases |s|
  {
    if |Bytes(s)| > n > 0 {
      var first := Encode(s[0]);
      CutIsPrefix(s[1..], n - |first|);
      var rest := Cut(s[1..], n - |first|).value;
      assert ([s[0]] + rest)[1..] == rest;
      assert Bytes(s)[..n] == first + Bytes(s[1..])[..n - |first|];
    }
  }

  predicate Ascii(s: string) {
    forall i :: 0 <= i < |s| ==> s[i] as int < 128
  }

  lemma AsciiTogether(a: string, b: string)
    requires Ascii(a) && Ascii(b)
    ensures Ascii(a + b)
  {
  }

  lemma {:induction false} AsciiLength(s: string)
    requires Ascii(s)
    ensures |Bytes(s)| == |s|
  {
    if s != "" {
      AsciiLength(s[1..]);
    }
  }

  /** ASCII text is cut at the character of that number. */
  lemma {:induction false} AsciiCut(s: string, n: nat)
    requires Ascii(s)
    ensures Cut(s, n) == Some(if |s| > n then s[..n] else s)
    decreases |s|
  {
    AsciiLength(s);
    if |s| > n > 0 {
      AsciiCut(s[1..], n - 1);
      assert s[..n] == [s[0]] + s[1..][..n - 1];
    }
  }

  /** Behind ASCII text the cut falls so many characters further on. */
  lemma {:induction false} CutBehindAscii(a: string, b: string, n: nat)
    requires Ascii(a) && |a| <= n
    ensures Cut(a + b, n).None? <==> Cut(b, n - |a|).None?
    decreases |a|
  {
    if a == "" {
      assert a + b == b;
    } else {
      assert (a + b)[1..] == a[1..] + b;
      CutBehindAscii(a[1..], b, n - 1);
      if |Bytes(a + b)| <= n {
        assert |Bytes((a + b)[1..])| <= n - 1;
      }
    }
  }

  function Fill(c: char, k: nat): (s: string)
    ensures |s| == k && forall i :: 0 <= i < k ==> s[i] == c
  {
    if k == 0 then "" else [c] + Fill(c, k - 1)
  }

  lemma {:induction false} FillBytes(c: char, k: nat)
    requires |Encode(c)| == 2
    ensures |Bytes(Fill(c, k))| == 2 * k
  {
    if k > 0 {
      assert Fill(c, k)[1..] == Fill(c, k - 1);
      FillBytes(c, k - 1);
    }
  }

  /** Characters of two bytes each cannot be cut at an odd byte. */
  lemma {:induction false} OddCutFails(c: char, k: nat, n: nat)
    requires |Encode(c)| == 2 && n % 2 == 1 && n < 2 * k
    ensures Cut(Fill(c, k), n).None?
    decreases k
  {
    assert Fill(c, k)[1..] == Fill(c, k - 1);
    FillBytes(c, k);
    if n > 1 {
      OddCutFails(c, k - 1, n - 2);
    }
  }

  lemma OddBehindAscii(a: string, c: char, k: nat, n: nat)
    requires Ascii(a) && |a| <= n && |Encode(c)| == 2 && (n - |a|) % 2 == 1 && n - |a| < 2 * k
    ensures Cut(a + Fill(c, k), n).None?
  {
    CutBehindAscii(a, Fill(c, k), n);
    OddCutFails(c, k, n - |a|);
  }
}
