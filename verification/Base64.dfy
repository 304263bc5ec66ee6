// Base64 as section 4 of RFC 4648 specifies it: how bytes split into sextets and
// sextets join into bytes, bit by bit. Text is ASCII wherever a decoder accepts it, so
// characters stand for bytes.

module Base64 {
  import opened Prelude

  type Byte = bv8
  type Sextet = bv6

  /** The character code at index `i` of the alphabet. */
  function Code(i: nat): int
    requires i < 64
  {
    if i < 26 then 'A' as int + i
    else if i < 52 then 'a' as int + i - 26
    else if i < 62 then '0' as int + i - 52
    else if i == 62 then '+' as int else '/' as int
  }

  /** The 64 letters of the alphabet, spelled out in TableSpelled. */
  function Table(): (t: string)
    ensures |t| == 64 && forall i :: 0 <= i < 64 ==> t[i] as int == Code(i)
  {
    seq(64, i requires 0 <= i < 64 => Code(i) as char)
  }

  lemma TableSpelled()
    ensures Table() == "ABCDEFGHIJKLMNOP" + "QRSTUVWXYZabcdef" + "ghijklmnopqrstuv" + "wxyz0123456789+/"
  {
    var t := Table();
    assert t[..16] == "ABCDEFGHIJKLMNOP";
    assert t[16..32] == "QRSTUVWXYZabcdef";
    assert t[32..48] == "ghijklmnopqrstuv";
    assert t[48..] == "wxyz0123456789+/";
    assert t == t[..16] + t[16..32] + t[32..48] + t[48..];
  }

  function Symbol(v: Sextet): char {
    Table()[v as int]
  }

  function Val(c: char): Option<Sextet> {
    if 'A' <= c <= 'Z' then Some((c as int - 'A' as int) as Sextet)
    else if 'a' <= c <= 'z' then Some((c as int - 'a' as int + 26) as Sextet)
    else if '0' <= c <= '9' then Some((c as int - '0' as int + 52) as Sextet)
    else if c == '+' then Some(62)
    else if c == '/' then Some(63)
    else None
  }

  predicate InAlphabet(s: string) {
    forall i :: 0 <= i < |s| ==> Val(s[i]).Some?
  }

  // ---------------------------------------------------------------- specification

  /** The four sextets of three bytes, most significant bits first. */
  function First(b0: Byte): Sextet { (b0 >> 2) as Sextet }
  function Second(b0: Byte, b1: Byte): Sextet { (((b0 & 0x3) << 4) | (b1 >> 4)) as Sextet }
  function Third(b1: Byte, b2: Byte): Sextet { (((b1 & 0xF) << 2) | (b2 >> 6)) as Sextet }
  function Fourth(b2: Byte): Sextet { (b2 & 0x3F) as Sextet }

  /** The three bytes of four sextets. */
  function High(v0: Sextet, v1: Sextet): Byte { ((v0 as Byte) << 2) | ((v1 as Byte) >> 4) }
  function Middle(v1: Sextet, v2: Sextet): Byte { ((v1 as Byte) << 4) | ((v2 as Byte) >> 2) }
  function Low(v2: Sextet, v3: Sextet): Byte { ((v2 as Byte) << 6) | (v3 as Byte) }

  /** One group of one to three bytes as four characters. */
  function Quad(x: seq<Byte>): (q: string)
    requires 1 <= |x| <= 3
    ensures |q| == 4
  {
    if |x| == 1 then [Symbol(First(x[0])), Symbol(Second(x[0], 0)), '=', '=']
    else if |x| == 2 then [Symbol(First(x[0])), Symbol(Second(x[0], x[1])), Symbol(Third(x[1], 0)), '=']
    else [Symbol(First(x[0])), Symbol(Second(x[0], x[1])), Symbol(Third(x[1], x[2])), Symbol(Fourth(x[2]))]
  }

  function Encoded(x: seq<Byte>): string {
    if x == [] then "" else if |x| <= 3 then Quad(x) else Quad(x[..3]) + Encoded(x[3..])
  }

  function TrimPadding(s: string): (t: string)
    ensures t <= s && (t != "" ==> t[|t| - 1] != '=')
  {
    if s != "" && s[|s| - 1] == '=' then TrimPadding(s[..|s| - 1]) else s
  }

  function ChunkBytes(v: seq<Sextet>): seq<Byte>
    requires |v| <= 4
  {
    if |v| < 2 then []
    else if |v| == 2 then [High(v[0], v[1])]
    else if |v| == 3 then [High(v[0], v[1]), Middle(v[1], v[2])]
    else [High(v[0], v[1]), Middle(v[1], v[2]), Low(v[2], v[3])]
  }

  function Sextets(t: string): (v: seq<Sextet>)
    requires InAlphabet(t)
    ensures |v| == |t| && forall i :: 0 <= i < |t| ==> v[i] == Val(t[i]).value
  {
    seq(|t|, i requires 0 <= i < |t| => Val(t[i]).value)
  }

  /** The bytes of a text without padding. */
  function Unpacked(v: seq<Sextet>): seq<Byte> {
    if |v| <= 4 then ChunkBytes(v) else ChunkBytes(v[..4]) + Unpacked(v[4..])
  }

  function Decoded(s: string): Option<seq<Byte>> {
    var t := TrimPadding(s);
    if InAlphabet(t) then Some(Unpacked(Sextets(t))) else None
  }

  lemma UnpackedSplits(v: seq<Sextet>, n: nat)
    requires 1 <= n <= |v| && (n == 4 || n == |v| < 4)
    ensures Unpacked(v) == ChunkBytes(v[..n]) + Unpacked(v[n..])
  {
    if |v| <= 4 {
      assert v[..n] == v;
    }
  }
}
