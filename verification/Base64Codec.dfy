// The hand-written Base64 codec: its loops pack three bytes or four symbols into a
// 32-bit word. They are proved to compute the specification.

module Base64Codec {
  import opened Prelude
  import opened Base64

  lemma PacksTriple(b0: Byte, b1: Byte, b2: Byte)
    ensures var triple := ((b0 as bv32) << 16) | ((b1 as bv32) << 8) | (b2 as bv32);
      && ((triple >> 18) & 0x3F) as Sextet == First(b0)
      && ((triple >> 12) & 0x3F) as Sextet == Second(b0, b1)
      && ((triple >> 6) & 0x3F) as Sextet == Third(b1, b2)
      && (triple & 0x3F) as Sextet == Fourth(b2)
  {
  }

  lemma EncodedSplits(x: seq<Byte>, n: nat)
    requires 1 <= n <= |x| && (n == 3 || n == |x| < 3)
    ensures Encoded(x) == Quad(x[..n]) + Encoded(x[n..])
  {
    if |x| <= 3 {
      assert x[..n] == x;
    }
  }

  /** The body of the encoding loop. */
  method EncodeChunk(chunk: seq<Byte>) returns (quad: string)
    requires 1 <= |chunk| <= 3
    ensures quad == Quad(chunk)
  {
    var b0: bv32 := chunk[0] as bv32;
    var b1: bv32 := if |chunk| > 1 then chunk[1] as bv32 else 0;
    var b2: bv32 := if |chunk| > 2 then chunk[2] as bv32 else 0;
    var triple := (b0 << 16) | (b1 << 8) | b2;
    PacksTriple(chunk[0], if |chunk| > 1 then chunk[1] else 0, if |chunk| > 2 then chunk[2] else 0);
    quad := [Symbol(((triple >> 18) & 0x3F) as Sextet)];
    quad := quad + [Symbol(((triple >> 12) & 0x3F) as Sextet)];
    quad := quad + [if |chunk| > 1 then Symbol(((triple >> 6) & 0x3F) as Sextet) else '='];
    quad := quad + [if |chunk| > 2 then Symbol((triple & 0x3F) as Sextet) else '='];
  }

  lemma EncodesNext(input: seq<Byte>, at: nat, end: nat)
    requires at < end <= |input| && (end == at + 3 || end == |input| < at + 3)
    ensures Encoded(input[at..]) == Quad(input[at..end]) + Encoded(input[end..])
  {
    EncodedSplits(input[at..], end - at);
    assert input[at..][..end - at] == input[at..end] && input[at..][end - at..] == input[end..];
  }

  method Encode(input: seq<Byte>) returns (out: string)
    ensures out == Encoded(input)
  {
    out := "";
    var at := 0;
    while at < |input|
      invariant at <= |input|
      invariant Encoded(input) == out + Encoded(input[at..])
    {
      var end := if at + 3 <= |input| then at + 3 else |input|;
      var chunk := input[at..end];
      var quad := EncodeChunk(chunk);
      EncodesNext(input, at, end);
      Regroup(out, quad, Encoded(input[end..]));
      out := out + quad;
      at := end;
    }
  }

  function Packed(v: seq<Sextet>): bv32 {
    if v == [] then 0 else (Packed(v[..|v| - 1]) << 6) | (v[|v| - 1] as bv32)
  }

  lemma PacksNext(chunk: string, k: nat)
    requires k < |chunk| && InAlphabet(chunk[..k]) && Val(chunk[k]).Some?
    ensures InAlphabet(chunk[..k + 1])
    ensures Packed(Sextets(chunk[..k + 1])) == (Packed(Sextets(chunk[..k])) << 6) | (Val(chunk[k]).value as bv32)
  {
    assert chunk[..k + 1] == chunk[..k] + [chunk[k]];
    assert Sextets(chunk[..k + 1])[..k] == Sextets(chunk[..k]);
  }

  /** The inner loop of the decoder. */
  method PackChunk(chunk: string) returns (buf: Option<bv32>)
    ensures buf == if InAlphabet(chunk) then Some(Packed(Sextets(chunk))) else None
  {
    var word: bv32 := 0;
    var count := 0;
    while count < |chunk|
      invariant count <= |chunk| && InAlphabet(chunk[..count])
      invariant word == Packed(Sextets(chunk[..count]))
    {
      var v := Val(chunk[count]);
      if v.None? {
        return None;
      }
      PacksNext(chunk, count);
      word := (word << 6) | (v.value as bv32);
      count := count + 1;
    }
    assert chunk[..count] == chunk;
    buf := Some(word);
  }

  /** The body of the decoding loop. */
  method DecodeChunk(chunk: string) returns (r: Option<seq<Byte>>)
    requires 1 <= |chunk| <= 4
    ensures r == if InAlphabet(chunk) then Some(ChunkBytes(Sextets(chunk))) else None
  {
    var word := PackChunk(chunk);
    if word.None? {
      return None;
    }
    UnpacksWord(Sextets(chunk));
    var count := |chunk|;
    var buf := Aligned(word.value, count);
    var out: seq<Byte> := [];
    if count >= 2 {
      out := out + [((buf >> 16) & 0xFF) as Byte];
    }
    if count >= 3 {
      out := out + [((buf >> 8) & 0xFF) as Byte];
    }
    if count >= 4 {
      out := out + [(buf & 0xFF) as Byte];
    }
    assert out == ChunkBytes(Sextets(chunk));
    r := Some(out);
  }

  /** Decoding group by group, giving up at the first group with a foreign character. */
  function Grouped(t: string): Option<seq<Byte>> {
    if t == "" then Some([])
    else
      var n := if |t| < 4 then |t| else 4;
      if InAlphabet(t[..n]) then Prepend(ChunkBytes(Sextets(t[..n])), Grouped(t[n..])) else None
  }

  function Prepend(x: seq<Byte>, r: Option<seq<Byte>>): Option<seq<Byte>> {
    if r.Some? then Some(x + r.value) else None
  }

  lemma AlphabetSplits(t: string, n: nat)
    requires n <= |t|
    ensures InAlphabet(t) <==> InAlphabet(t[..n]) && InAlphabet(t[n..])
    ensures InAlphabet(t) ==> Sextets(t[..n]) == Sextets(t)[..n] && Sextets(t[n..]) == Sextets(t)[n..]
  {
    assert t == t[..n] + t[n..];
    if InAlphabet(t) {
      forall i | 0 <= i < |t| - n ensures Val(t[n..][i]).Some? {
        assert t[n..][i] == t[n + i];
      }
    }
  }

  /** Going group by group neither changes the bytes nor what is refused. */
  lemma {:induction false} GroupedDecodes(t: string)
    ensures Grouped(t) == if InAlphabet(t) then Some(Unpacked(Sextets(t))) else None
  {
    if t != "" {
      var n := if |t| < 4 then |t| else 4;
      AlphabetSplits(t, n);
      GroupedDecodes(t[n..]);
      if InAlphabet(t) {
        UnpackedSplits(Sextets(t), n);
      }
    }
  }

  lemma GroupedNext(text: string, at: nat, end: nat)
    requires at < end <= |text| && (end == at + 4 || end == |text| < at + 4)
    ensures Grouped(text[at..]) ==
            if InAlphabet(text[at..end]) then Prepend(ChunkBytes(Sextets(text[at..end])), Grouped(text[end..]))
            else None
  {
    var t := text[at..];
    assert t[..end - at] == text[at..end] && t[end - at..] == text[end..];
  }

  lemma PrependTwice(x: seq<Byte>, y: seq<Byte>, r: Option<seq<Byte>>)
    ensures Prepend(x, Prepend(y, r)) == Prepend(x + y, r)
  {
    if r.Some? {
      Regroup(x, y, r.value);
    }
  }

  lemma PrependEnds(x: seq<Byte>, r: Option<seq<Byte>>)
    ensures Prepend([], r) == r && Prepend(x, Some([])) == Some(x)
  {
    assert x + [] == x;
    if r.Some? {
      assert [] + r.value == r.value;
    }
  }

  /** The outer loop of the decoder. */
  method DecodeGroups(text: string) returns (r: Option<seq<Byte>>)
    ensures r == Grouped(text)
  {
    var out: seq<Byte> := [];
    var at := 0;
    assert text[0..] == text;
    PrependEnds([], Grouped(text));
    while at < |text|
      invariant at <= |text|
      invariant Grouped(text) == Prepend(out, Grouped(text[at..]))
    {
      var end := if at + 4 <= |text| then at + 4 else |text|;
      GroupedNext(text, at, end);
      var bytes := DecodeChunk(text[at..end]);
      if bytes.None? {
        return None;
      }
      PrependTwice(out, bytes.value, Grouped(text[end..]));
      out := out + bytes.value;
      at := end;
    }
    PrependEnds(out, Some([]));
    r := Some(out);
  }

  method Decode(input: string) returns (r: Option<seq<Byte>>)
    ensures r == Decoded(input)
  {
    var text := TrimPadding(input);
    GroupedDecodes(text);
    r := DecodeGroups(text);
  }

  /** Pad the bits that a short chunk leaves free. */
  function Aligned(buf: bv32, count: nat): bv32
    requires 1 <= count <= 4
  {
    if count == 1 then buf << 18 else if count == 2 then buf << 12 else if count == 3 then buf << 6 else buf << 0
  }

  lemma {:induction false} PackedIs(v: seq<Sextet>)
    requires 1 <= |v| <= 4
    ensures |v| == 1 ==> Packed(v) == v[0] as bv32
    ensures |v| == 2 ==> Packed(v) == Word2(v[0], v[1])
    ensures |v| == 3 ==> Packed(v) == Word3(v[0], v[1], v[2])
    ensures |v| == 4 ==> Packed(v) == Word4(v[0], v[1], v[2], v[3])
  {
    var rest := v[..|v| - 1];
    if |v| == 1 {
      assert Packed(rest) == 0;
    } else {
      PackedIs(rest);
    }
  }

  function Word2(v0: Sextet, v1: Sextet): bv32 { ((v0 as bv32) << 6) | (v1 as bv32) }
  function Word3(v0: Sextet, v1: Sextet, v2: Sextet): bv32 { (Word2(v0, v1) << 6) | (v2 as bv32) }
  function Word4(v0: Sextet, v1: Sextet, v2: Sextet, v3: Sextet): bv32 { (Word3(v0, v1, v2) << 6) | (v3 as bv32) }

  lemma Word2Bytes(v0: Sextet, v1: Sextet)
    ensures (((Word2(v0, v1) << 12) >> 16) & 0xFF) as Byte == High(v0, v1)
  {
  }

  lemma Word3Bytes(v0: Sextet, v1: Sextet, v2: Sextet)
    ensures var buf := Word3(v0, v1, v2) << 6;
      ((buf >> 16) & 0xFF) as Byte == High(v0, v1) && ((buf >> 8) & 0xFF) as Byte == Middle(v1, v2)
  {
  }

  lemma Word4Bytes(v0: Sextet, v1: Sextet, v2: Sextet, v3: Sextet)
    ensures var buf := Word4(v0, v1, v2, v3);
      && ((buf >> 16) & 0xFF) as Byte == High(v0, v1)
      && ((buf >> 8) & 0xFF) as Byte == Middle(v1, v2)
      && (buf & 0xFF) as Byte == Low(v2, v3)
  {
  }

  lemma UnpacksWord(v: seq<Sextet>)
    requires 1 <= |v| <= 4
    ensures var buf := Aligned(Packed(v), |v|);
      && (|v| >= 2 ==> ((buf >> 16) & 0xFF) as Byte == High(v[0], v[1]))
      && (|v| >= 3 ==> ((buf >> 8) & 0xFF) as Byte == Middle(v[1], v[2]))
      && (|v| >= 4 ==> (buf & 0xFF) as Byte == Low(v[2], v[3]))
  {
    PackedIs(v);
    if |v| == 2 {
      Word2Bytes(v[0], v[1]);
    } else if |v| == 3 {
      Word3Bytes(v[0], v[1], v[2]);
    } else if |v| == 4 {
      Word4Bytes(v[0], v[1], v[2], v[3]);
    }
  }
}
