/** The parts of Go's `strings` package that the modelled code calls, on sequences of characters. */
module GoStrings {

  /** Position of the first `c` in `s`, or -1. */
  function IndexChar(s: string, c: char): (i: int)
    ensures -1 <= i < |s|
    ensures i < 0 <==> c !in s
    ensures i >= 0 ==> s[i] == c && c !in s[..i]
  {
    if s == [] then -1
    else if s[0] == c then 0
    else
      var r := IndexChar(s[1..], c);
      if r < 0 then -1 else
        assert s[..r + 1] == [s[0]] + s[1..][..r];
        r + 1
  }

  /** Position of the last `c` in `s`, or -1. */
  function LastIndexChar(s: string, c: char): (i: int)
    ensures -1 <= i < |s|
    ensures i < 0 <==> c !in s
    ensures i >= 0 ==> s[i] == c && c !in s[i + 1..]
  {
    if s == [] then -1
    else if s[|s| - 1] == c then |s| - 1
    else
      var r := LastIndexChar(s[..|s| - 1], c);
      assert s == s[..|s| - 1] + [s[|s| - 1]];
      if r < 0 then -1 else
        assert s[r + 1..] == s[..|s| - 1][r + 1..] + [s[|s| - 1]];
        r
  }

  /** Drops the longest prefix whose characters all satisfy `cut`. */
  function TrimLeft(s: string, cut: char -> bool): string {
    if s != [] && cut(s[0]) then TrimLeft(s[1..], cut) else s
  }

  /** Drops the longest suffix whose characters all satisfy `cut`. */
  function TrimRight(s: string, cut: char -> bool): string {
    if s != [] && cut(s[|s| - 1]) then TrimRight(s[..|s| - 1], cut) else s
  }

  function Trim(s: string, cut: char -> bool): string {
    TrimRight(TrimLeft(s, cut), cut)
  }

  /** Neither end of `s` satisfies `cut`. */
  predicate Trimmed(s: string, cut: char -> bool) {
    s == [] || (!cut(s[0]) && !cut(s[|s| - 1]))
  }

  /** The characters that `unicode.IsSpace` accepts. */
  predicate IsSpace(c: char) {
    || '\t' <= c <= '\r' || c == ' ' || c == '\U{0085}' || c == '\U{00A0}' || c == '\U{1680}'
    || '\U{2000}' <= c <= '\U{200A}' || c == '\U{2028}' || c == '\U{2029}' || c == '\U{202F}'
    || c == '\U{205F}' || c == '\U{3000}'
  }

  function TrimSpace(s: string): string {
    Trim(s, IsSpace)
  }

  /** `strings.ReplaceAll` with a one-character pattern and a one-character replacement. */
  function ReplaceChar(s: string, pattern: char, replacement: char): (r: string)
    ensures |r| == |s|
    ensures forall i :: 0 <= i < |s| ==> r[i] == if s[i] == pattern then replacement else s[i]
  {
    seq(|s|, i requires 0 <= i < |s| => if s[i] == pattern then replacement else s[i])
  }

  /** `strings.ReplaceAll` with a one-character pattern and any replacement. */
  function ReplaceCharWith(s: string, pattern: char, replacement: string): string {
    if s == [] then []
    else (if s[0] == pattern then replacement else [s[0]]) + ReplaceCharWith(s[1..], pattern, replacement)
  }

  /** Length of the leading run of characters that are not white space. */
  function WordLength(s: string): (n: nat)
    ensures n <= |s|
    ensures forall i :: 0 <= i < n ==> !IsSpace(s[i])
    ensures n < |s| ==> IsSpace(s[n])
  {
    if s == [] || IsSpace(s[0]) then 0 else 1 + WordLength(s[1..])
  }

  /** `strings.Fields`: the maximal runs of non-space characters. */
  function Fields(s: string): seq<string>
    decreases |s|
  {
    TrimLeftShrinks(s, IsSpace);
    var t := TrimLeft(s, IsSpace);
    if t == [] then [] else [t[..WordLength(t)]] + Fields(t[WordLength(t)..])
  }

  function Join(parts: seq<string>, sep: string): string {
    if |parts| == 0 then ""
    else if |parts| == 1 then parts[0]
    else parts[0] + sep + Join(parts[1..], sep)
  }

  predicate HasPrefix(s: string, prefix: string) {
    prefix <= s
  }

  lemma TrimLeftShrinks(s: string, cut: char -> bool)
    ensures |TrimLeft(s, cut)| <= |s|
    ensures TrimLeft(s, cut) == s[|s| - |TrimLeft(s, cut)|..]
    ensures TrimLeft(s, cut) == [] || !cut(TrimLeft(s, cut)[0])
  {
  }

  lemma TrimRightShrinks(s: string, cut: char -> bool)
    ensures |TrimRight(s, cut)| <= |s|
    ensures TrimRight(s, cut) == s[..|TrimRight(s, cut)|]
    ensures TrimRight(s, cut) == [] || !cut(TrimRight(s, cut)[|TrimRight(s, cut)| - 1])
  {
    if s != [] && cut(s[|s| - 1]) {
      TrimRightShrinks(s[..|s| - 1], cut);
    }
  }

  /** Trimming always reaches a trimmed string, is the identity exactly on trimmed strings, and
      the kept characters are a contiguous piece of the input. */
  lemma TrimIsTrimmed(s: string, cut: char -> bool)
    ensures Trimmed(Trim(s, cut), cut)
    ensures Trim(s, cut) == s <==> Trimmed(s, cut)
    ensures |Trim(s, cut)| <= |s|
  {
    var l := TrimLeft(s, cut);
    TrimLeftShrinks(s, cut);
    TrimRightShrinks(l, cut);
  }

  lemma TrimKeepsCharacters(s: string, cut: char -> bool)
    ensures forall c :: c in Trim(s, cut) ==> c in s
  {
    TrimLeftShrinks(s, cut);
    TrimRightShrinks(TrimLeft(s, cut), cut);
  }

  /** The first `c` of a text whose prefix is free of `c`. */
  lemma {:induction false} IndexAfterPrefix(prefix: string, c: char, tail: string)
    requires c !in prefix
    ensures IndexChar(prefix + [c] + tail, c) == |prefix|
  {
    if prefix == "" {
      assert prefix + [c] + tail == [c] + tail;
    } else {
      IndexAfterPrefix(prefix[1..], c, tail);
      assert (prefix + [c] + tail)[1..] == prefix[1..] + [c] + tail;
    }
  }

  lemma JoinCons(parts: seq<string>, sep: string)
    requires |parts| > 1
    ensures Join(parts, sep) == parts[0] + (sep + Join(parts[1..], sep))
  {
    var rest := Join(parts[1..], sep);
    assert parts[0] + sep + rest == parts[0] + (sep + rest);
  }

  predicate AllCut(s: string, cut: char -> bool) {
    forall i :: 0 <= i < |s| ==> cut(s[i])
  }

  lemma {:induction false} TrimLeftAppend(a: string, b: string, cut: char -> bool)
    ensures TrimLeft(a + b, cut) == if TrimLeft(a, cut) == "" then TrimLeft(b, cut) else TrimLeft(a, cut) + b
  {
    if a == "" {
      assert a + b == b;
    } else {
      assert (a + b)[1..] == a[1..] + b;
      TrimLeftAppend(a[1..], b, cut);
    }
  }

  lemma {:induction false} TrimLeftAll(s: string, cut: char -> bool)
    requires AllCut(s, cut)
    ensures TrimLeft(s, cut) == ""
  {
    if s != "" {
      TrimLeftAll(s[1..], cut);
    }
  }

  lemma {:induction false} TrimRightAppend(a: string, b: string, cut: char -> bool)
    requires AllCut(b, cut)
    ensures TrimRight(a + b, cut) == TrimRight(a, cut)
  {
    if b == "" {
      assert a + b == a;
    } else {
      assert (a + b)[..|a + b| - 1] == a + b[..|b| - 1];
      TrimRightAppend(a, b[..|b| - 1], cut);
    }
  }

  /** What is cut at the ends makes no difference. */
  lemma TrimIgnoresEnds(x: string, s: string, y: string, cut: char -> bool)
    requires AllCut(x, cut) && AllCut(y, cut)
    ensures Trim(x + (s + y), cut) == Trim(s, cut)
  {
    TrimLeftAll(x, cut);
    TrimLeftAll(y, cut);
    TrimLeftAppend(x, s + y, cut);
    TrimLeftAppend(s, y, cut);
    if TrimLeft(s, cut) != "" {
      TrimRightAppend(TrimLeft(s, cut), y, cut);
    }
  }
}
