// Shared vocabulary: optional values and the text helpers that the gateway,
// the transcript memory and the artifact store all use.

module Prelude {

  datatype Option<+T> = None | Some(value: T)

  datatype Result<+T, +E> = Success(value: T) | Failure(error: E)

  /** Concatenation is associative. */
  lemma Regroup<T>(a: seq<T>, b: seq<T>, c: seq<T>)
    ensures a + (b + c) == a + b + c
  {
  }

  /** The Unicode White_Space code points, which is what the source's trim removes. */
  predicate IsSpace(c: char) {
    || '\U{9}' <= c <= '\U{D}' || c == ' ' || c == '\U{85}' || c == '\U{A0}' || c == '\U{1680}'
    || '\U{2000}' <= c <= '\U{200A}' || c == '\U{2028}' || c == '\U{2029}' || c == '\U{202F}'
    || c == '\U{205F}' || c == '\U{3000}'
  }

  /** The 25 code points, as the Unicode Character Database lists them. */
  lemma WhiteSpaceSpelled(c: char)
    ensures IsSpace(c) <==> c as int in {
      0x9, 0xA, 0xB, 0xC, 0xD, 0x20, 0x85, 0xA0, 0x1680, 0x2000, 0x2001, 0x2002, 0x2003, 0x2004, 0x2005, 0x2006,
      0x2007, 0x2008, 0x2009, 0x200A, 0x2028, 0x2029, 0x202F, 0x205F, 0x3000}
  {
  }

  function TrimStart(s: string): (r: string)
    ensures r != "" ==> !IsSpace(r[0])
    ensures |r| <= |s|
  {
    if s != "" && IsSpace(s[0]) then TrimStart(s[1..]) else s
  }

  function TrimEnd(s: string): (r: string)
    ensures r != "" ==> !IsSpace(r[|r| - 1])
    ensures |r| <= |s| && (r != "" ==> r[0] == s[0])
  {
    if s != "" && IsSpace(s[|s| - 1]) then TrimEnd(s[..|s| - 1]) else s
  }

  /** A trimmed text neither starts nor ends with white space. */
  predicate Trimmed(s: string) {
    s != "" ==> !IsSpace(s[0]) && !IsSpace(s[|s| - 1])
  }

  function Trim(s: string): (r: string)
    ensures Trimmed(r)
    ensures Trimmed(s) ==> r == s
  {
    TrimEnd(TrimStart(s))
  }

  function AsciiLower(s: string): (r: string)
    ensures |r| == |s|
  {
    if s == "" then ""
    else [if 'A' <= s[0] <= 'Z' then s[0] - 'A' + 'a' else s[0]] + AsciiLower(s[1..])
  }

  /** The same text with its ASCII capitals made small. */
  predicate Lowers(text: string, word: string) {
    && |word| == |text|
    && forall i :: 0 <= i < |text| ==>
      word[i] as int == text[i] as int + if 'A' <= text[i] <= 'Z' then 32 else 0
  }

  lemma {:induction false} LowerLowers(s: string)
    ensures Lowers(s, AsciiLower(s))
  {
    if s != "" {
      LowerLowers(s[1..]);
      forall i | 0 < i < |s|
        ensures AsciiLower(s)[i] as int == s[i] as int + if 'A' <= s[i] <= 'Z' then 32 else 0
      {
        assert AsciiLower(s)[i] == AsciiLower(s[1..])[i - 1] && s[1..][i - 1] == s[i];
      }
    }
  }

  /** Lower-casing adds 32 to the ASCII capitals and changes nothing else. */
  lemma {:induction false} LowerIs(s: string, word: string)
    ensures AsciiLower(s) == word <==> Lowers(s, word)
  {
    LowerLowers(s);
  }

  lemma {:induction false} LowerIsPointwise(s: string)
    ensures Trimmed(s) ==> Trimmed(AsciiLower(s))
    ensures AsciiLower(AsciiLower(s)) == AsciiLower(s)
    ensures forall i :: 0 <= i < |s| && IsSpace(AsciiLower(s)[i]) ==> IsSpace(s[i])
  {
    if s != "" {
      LowerIsPointwise(s[1..]);
      forall i | 0 <= i < |s| && IsSpace(AsciiLower(s)[i]) ensures IsSpace(s[i]) {
        assert i > 0 ==> AsciiLower(s)[i] == AsciiLower(s[1..])[i - 1];
      }
    }
  }

  lemma {:induction false} TrimStartCuts(s: string)
    ensures var i := |s| - |TrimStart(s)|; s[i..] == TrimStart(s) && forall k :: 0 <= k < i ==> IsSpace(s[k])
  {
    if s != "" && IsSpace(s[0]) {
      TrimStartCuts(s[1..]);
      var i := |s| - |TrimStart(s)|;
      assert s[i..] == s[1..][i - 1..];
      forall k | 0 <= k < i ensures IsSpace(s[k]) {
        assert k > 0 ==> s[k] == s[1..][k - 1];
      }
    }
  }

  lemma {:induction false} TrimEndCuts(s: string)
    ensures var j := |TrimEnd(s)|; s[..j] == TrimEnd(s) && forall k :: j <= k < |s| ==> IsSpace(s[k])
  {
    if s != "" && IsSpace(s[|s| - 1]) {
      TrimEndCuts(s[..|s| - 1]);
      assert s[..|TrimEnd(s)|] == s[..|s| - 1][..|TrimEnd(s)|];
    }
  }

  /** Trimming cuts white space off the two ends and nothing else. */
  lemma TrimCuts(s: string) returns (i: nat, j: nat)
    ensures i <= j <= |s| && Trim(s) == s[i..j]
    ensures forall k :: 0 <= k < i || j <= k < |s| ==> IsSpace(s[k])
  {
    var front := TrimStart(s);
    TrimStartCuts(s);
    TrimEndCuts(front);
    i := |s| - |front|;
    j := i + |Trim(s)|;
    assert s[i..j] == front[..|Trim(s)|];
    forall k | j <= k < |s| ensures IsSpace(s[k]) {
      assert s[k] == front[k - i];
    }
  }

  /** `core` with nothing but white space around it. */
  ghost predicate Padded(s: string, core: string) {
    exists i, j :: 0 <= i <= j <= |s| && s[i..j] == core && Blank(s[..i]) && Blank(s[j..])
  }

  predicate Blank(s: string) {
    forall k :: 0 <= k < |s| ==> IsSpace(s[k])
  }

  /** Two ways to cut white space off a text, each down to something trimmed, are the same. */
  lemma CutsAgree(s: string, i: nat, j: nat, i': nat, j': nat)
    requires i <= j <= |s| && Blank(s[..i]) && Blank(s[j..]) && Trimmed(s[i..j])
    requires i' <= j' <= |s| && Blank(s[..i']) && Blank(s[j'..]) && Trimmed(s[i'..j'])
    ensures s[i..j] == s[i'..j']
  {
    forall k | 0 <= k < i || j <= k < |s| ensures IsSpace(s[k]) {
      assert k < i ==> IsSpace(s[..i][k]);
      assert k >= j ==> IsSpace(s[j..][k - j]);
    }
    forall k | 0 <= k < i' || j' <= k < |s| ensures IsSpace(s[k]) {
      assert k < i' ==> IsSpace(s[..i'][k]);
      assert k >= j' ==> IsSpace(s[j'..][k - j']);
    }
    assert i < j ==> !IsSpace(s[i]) && !IsSpace(s[j - 1]);
    assert i' < j' ==> !IsSpace(s[i']) && !IsSpace(s[j' - 1]);
  }

  /** What trimming makes of a text: the one trimmed part of it with only white space around. */
  lemma TrimIff(s: string, core: string)
    ensures Trim(s) == core <==> Trimmed(core) && Padded(s, core)
  {
    var i, j := TrimCuts(s);
    forall k | 0 <= k < |s[j..]| ensures IsSpace(s[j..][k]) {
      assert s[j..][k] == s[j + k];
    }
    assert Blank(s[..i]) && Blank(s[j..]);
    if Trimmed(core) && Padded(s, core) {
      var i', j' :| 0 <= i' <= j' <= |s| && s[i'..j'] == core && Blank(s[..i']) && Blank(s[j'..]);
      CutsAgree(s, i, j, i', j');
    }
  }

  lemma PaddedEmpty(s: string)
    ensures Padded(s, "") <==> Blank(s)
  {
    if i, j :| 0 <= i <= j <= |s| && s[i..j] == "" && Blank(s[..i]) && Blank(s[j..]) {
      forall k | 0 <= k < |s| ensures IsSpace(s[k]) {
        assert k < i ==> IsSpace(s[..i][k]);
        assert k >= i ==> IsSpace(s[j..][k - j]);
      }
    }
    assert s[0..0] == "" && Blank(s[..0]) && s[0..] == s;
  }
}
