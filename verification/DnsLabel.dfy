/** Resource names of exported objects: any text becomes a DNS label. */
module DnsLabel {
  import opened GoStrings
  import opened Sequences

  const MAX_LENGTH := 63

  predicate IsAlnum(c: char) {
    'a' <= c <= 'z' || '0' <= c <= '9'
  }

  predicate IsHyphen(c: char) { c == '-' }

  predicate IsLabelChar(c: char) {
    IsAlnum(c) || c == '-'
  }

  /** A label of section 2.1 of RFC 1123, with the 63-octet limit of section 2.3.4 of RFC 1035, in
      lower case. */
  predicate IsLabel(s: string) {
    && 1 <= |s| <= MAX_LENGTH
    && (forall i :: 0 <= i < |s| ==> IsLabelChar(s[i]))
    && IsAlnum(s[0]) && IsAlnum(s[|s| - 1])
  }

  predicate NoDoubleHyphen(s: string) {
    forall i :: 0 <= i < |s| - 1 ==> s[i] != '-' || s[i + 1] != '-'
  }

  // ---------------------------------------------------------------- the pipeline

  /** Lower case as far as it can reach a label: besides A-Z, the Kelvin sign and the dotted capital I
      have ASCII lower-case forms; all other characters that change stay outside the label alphabet. */
  function ToLowerChar(c: char): char {
    if 'A' <= c <= 'Z' then (c as int - 'A' as int + 'a' as int) as char
    else if c == '\U{212A}' then 'k'
    else if c == '\U{0130}' then 'i'
    else c
  }

  function Separator(c: char): char {
    if c == ' ' || c == '_' || c == '.' || c == '/' then '-' else c
  }

  function MapChars(s: string, f: char -> char): (r: string)
    ensures |r| == |s|
    ensures forall i :: 0 <= i < |s| ==> r[i] == f(s[i])
  {
    seq(|s|, i requires 0 <= i < |s| => f(s[i]))
  }

  /** Drops everything outside a-z, 0-9 and hyphen. */
  function KeepLabelChars(s: string): string {
    if s == [] then [] else (if IsLabelChar(s[0]) then [s[0]] else []) + KeepLabelChars(s[1..])
  }

  /** Every run of hyphens becomes one hyphen. */
  function CollapseHyphens(s: string): string {
    if |s| < 2 then s
    else if s[0] == '-' && s[1] == '-' then CollapseHyphens(s[1..])
    else [s[0]] + CollapseHyphens(s[1..])
  }

  function Truncated(s: string): string {
    if |s| > MAX_LENGTH then TrimRight(s[..MAX_LENGTH], IsHyphen) else s
  }

  /** Trimmed, lower-cased, separators replaced. */
  function Hyphened(s: string): string {
    MapChars(MapChars(TrimSpace(s), ToLowerChar), Separator)
  }

  function Untruncated(s: string): string {
    Trim(CollapseHyphens(KeepLabelChars(s)), IsHyphen)
  }

  function ToDNSLabel(s: string): string {
    var name := Truncated(Untruncated(Hyphened(s)));
    if name == "" then "unnamed" else name
  }

  // ---------------------------------------------------------------- each stage

  predicate AllLabelChars(s: string) {
    forall i :: 0 <= i < |s| ==> IsLabelChar(s[i])
  }

  lemma {:induction false} KeepLabelCharsWorks(s: string)
    ensures AllLabelChars(KeepLabelChars(s))
    ensures AllLabelChars(s) ==> KeepLabelChars(s) == s
  {
    if s != [] {
      KeepLabelCharsWorks(s[1..]);
    }
  }

  lemma {:induction false} CollapseWorks(s: string)
    ensures NoDoubleHyphen(CollapseHyphens(s))
    ensures s != [] ==> CollapseHyphens(s) != [] && CollapseHyphens(s)[0] == s[0]
    ensures AllLabelChars(s) ==> AllLabelChars(CollapseHyphens(s))
    ensures NoDoubleHyphen(s) ==> CollapseHyphens(s) == s
  {
    if |s| >= 2 {
      CollapseWorks(s[1..]);
      if NoDoubleHyphen(s) {
        assert NoDoubleHyphen(s[1..]);
      }
    }
  }

  lemma SliceKeeps(s: string, lo: nat, hi: nat)
    requires lo <= hi <= |s| && AllLabelChars(s) && NoDoubleHyphen(s)
    ensures AllLabelChars(s[lo..hi]) && NoDoubleHyphen(s[lo..hi])
  {
  }

  lemma TrimWorks(s: string)
    requires AllLabelChars(s) && NoDoubleHyphen(s)
    ensures AllLabelChars(Trim(s, IsHyphen)) && NoDoubleHyphen(Trim(s, IsHyphen))
    ensures Trimmed(Trim(s, IsHyphen), IsHyphen)
  {
    var l := TrimLeft(s, IsHyphen);
    TrimLeftShrinks(s, IsHyphen);
    TrimRightShrinks(l, IsHyphen);
    TrimIsTrimmed(s, IsHyphen);
    SliceKeeps(s, |s| - |l|, |s|);
    SliceKeeps(l, 0, |TrimRight(l, IsHyphen)|);
  }

  lemma TruncatedWorks(s: string)
    requires AllLabelChars(s) && NoDoubleHyphen(s) && Trimmed(s, IsHyphen)
    ensures var r := Truncated(s);
            && AllLabelChars(r) && NoDoubleHyphen(r) && Trimmed(r, IsHyphen) && |r| <= MAX_LENGTH
            && (s != [] ==> r != [])
  {
    if |s| > MAX_LENGTH {
      var t := s[..MAX_LENGTH];
      TrimRightShrinks(t, IsHyphen);
      KeepsFirst(t);
      SliceKeeps(s, 0, MAX_LENGTH);
      SliceKeeps(t, 0, |TrimRight(t, IsHyphen)|);
    }
  }

  lemma {:induction false} KeepsFirst(s: string)
    requires s != [] && !IsHyphen(s[0])
    ensures TrimRight(s, IsHyphen) != [] && TrimRight(s, IsHyphen)[0] == s[0]
  {
    if IsHyphen(s[|s| - 1]) {
      KeepsFirst(s[..|s| - 1]);
    }
  }

  lemma LabelHyphensUnchanged(s: string)
    requires s != [] && AllLabelChars(s)
    ensures Hyphened(s) == s
  {
    assert !IsSpace(s[0]) && !IsSpace(s[|s| - 1]);
    TrimIsTrimmed(s, IsSpace);
    forall i | 0 <= i < |s| ensures ToLowerChar(s[i]) == s[i] && Separator(s[i]) == s[i] {
      assert IsLabelChar(s[i]);
    }
    MapIdentity(s, ToLowerChar);
    MapIdentity(s, Separator);
  }

  lemma MapIdentity(s: string, f: char -> char)
    requires forall i :: 0 <= i < |s| ==> f(s[i]) == s[i]
    ensures MapChars(s, f) == s
  {
  }

  lemma LabelPassesUnchanged(s: string)
    requires IsLabel(s) && NoDoubleHyphen(s)
    ensures ToDNSLabel(s) == s
  {
    LabelHyphensUnchanged(s);
    KeepLabelCharsWorks(s);
    CollapseWorks(s);
    TrimIsTrimmed(s, IsHyphen);
  }

  lemma UntruncatedWorks(s: string)
    ensures var r := Untruncated(s);
            AllLabelChars(r) && NoDoubleHyphen(r) && Trimmed(r, IsHyphen)
  {
    KeepLabelCharsWorks(s);
    CollapseWorks(KeepLabelChars(s));
    TrimWorks(CollapseHyphens(KeepLabelChars(s)));
  }

  // ---------------------------------------------------------------- normal form

  /** Every text becomes a valid label without doubled hyphens. */
  lemma AlwaysALabel(s: string)
    ensures IsLabel(ToDNSLabel(s)) && NoDoubleHyphen(ToDNSLabel(s))
  {
    UntruncatedWorks(Hyphened(s));
    TruncatedWorks(Untruncated(Hyphened(s)));
  }

  /** The fixed points are exactly the labels without doubled hyphens. */
  lemma FixedPoints(s: string)
    ensures ToDNSLabel(s) == s <==> IsLabel(s) && NoDoubleHyphen(s)
  {
    AlwaysALabel(s);
    if IsLabel(s) && NoDoubleHyphen(s) {
      LabelPassesUnchanged(s);
    }
  }

  lemma Idempotent(s: string)
    ensures ToDNSLabel(ToDNSLabel(s)) == ToDNSLabel(s)
  {
    AlwaysALabel(s);
    FixedPoints(ToDNSLabel(s));
  }

  // ---------------------------------------------------------------- content

  function Same(c: char): char { c }

  /** The letters and digits among the images of the characters, in order. */
  function Extract(s: string, f: char -> char): string {
    if s == [] then [] else (if IsAlnum(f(s[0])) then [f(s[0])] else []) + Extract(s[1..], f)
  }

  lemma {:induction false} ExtractAppend(a: string, b: string, f: char -> char)
    ensures Extract(a + b, f) == Extract(a, f) + Extract(b, f)
  {
    if a == [] {
      assert a + b == b;
    } else {
      ExtractAppend(a[1..], b, f);
      assert (a + b)[1..] == a[1..] + b;
      Regroup(if IsAlnum(f(a[0])) then [f(a[0])] else [], Extract(a[1..], f), Extract(b, f));
    }
  }

  lemma {:induction false} ExtractTrimRight(s: string, cut: char -> bool, f: char -> char)
    requires forall c :: cut(c) ==> !IsAlnum(f(c))
    ensures Extract(TrimRight(s, cut), f) == Extract(s, f)
  {
    if s != [] && cut(s[|s| - 1]) {
      var init := s[..|s| - 1];
      ExtractTrimRight(init, cut, f);
      ExtractAppend(init, [s[|s| - 1]], f);
      assert s == init + [s[|s| - 1]];
      assert Extract([s[|s| - 1]], f) == [];
    }
  }

  lemma {:induction false} ExtractTrimLeft(s: string, cut: char -> bool, f: char -> char)
    requires forall c :: cut(c) ==> !IsAlnum(f(c))
    ensures Extract(TrimLeft(s, cut), f) == Extract(s, f)
  {
    if s != [] && cut(s[0]) {
      ExtractTrimLeft(s[1..], cut, f);
    }
  }

  lemma {:induction false} ExtractMapped(s: string, f: char -> char)
    ensures Extract(MapChars(s, f), Same) == Extract(s, f)
  {
    if s != [] {
      ExtractMapped(s[1..], f);
      assert MapChars(s, f)[1..] == MapChars(s[1..], f);
    }
  }

  lemma {:induction false} ExtractSeparated(s: string)
    ensures Extract(s, Separator) == Extract(s, Same)
  {
    if s != [] {
      ExtractSeparated(s[1..]);
    }
  }

  lemma {:induction false} ExtractKept(s: string)
    ensures Extract(KeepLabelChars(s), Same) == Extract(s, Same)
  {
    if s != [] {
      ExtractKept(s[1..]);
      ExtractAppend(if IsLabelChar(s[0]) then [s[0]] else [], KeepLabelChars(s[1..]), Same);
      assert Extract([s[0]], Same) == if IsAlnum(s[0]) then [s[0]] else [];
    }
  }

  lemma {:induction false} ExtractCollapsed(s: string)
    ensures Extract(CollapseHyphens(s), Same) == Extract(s, Same)
  {
    if |s| >= 2 {
      ExtractCollapsed(s[1..]);
    }
  }

  /** The letters and digits of the lower-cased text, in order, are what the label is made of: all of
      them if the text is short enough, a front part otherwise; and "unnamed" stands for none. */
  lemma KeepsLettersAndDigits(s: string)
    ensures var content := Extract(s, ToLowerChar);
            && (content == [] ==> ToDNSLabel(s) == "unnamed")
            && (content != [] ==> Extract(ToDNSLabel(s), Same) <= content)
            && (content != [] && |s| <= MAX_LENGTH ==> Extract(ToDNSLabel(s), Same) == content)
  {
    var name := Untruncated(Hyphened(s));
    ExtractHyphened(s);
    ExtractUntruncated(Hyphened(s));
    UntruncatedWorks(Hyphened(s));
    TruncatedWorks(name);
    ExtractTruncated(name);
    PipelineShrinks(s);
    if Extract(name, Same) == [] {
      NoAlnumIsEmpty(name);
    }
  }

  lemma ExtractHyphened(s: string)
    ensures Extract(Hyphened(s), Same) == Extract(s, ToLowerChar)
  {
    var trimmed := TrimSpace(s);
    ExtractTrimLeft(s, IsSpace, ToLowerChar);
    ExtractTrimRight(TrimLeft(s, IsSpace), IsSpace, ToLowerChar);
    ExtractMapped(trimmed, ToLowerChar);
    ExtractMapped(MapChars(trimmed, ToLowerChar), Separator);
    ExtractSeparated(MapChars(trimmed, ToLowerChar));
  }

  lemma ExtractUntruncated(s: string)
    ensures Extract(Untruncated(s), Same) == Extract(s, Same)
  {
    var collapsed := CollapseHyphens(KeepLabelChars(s));
    ExtractKept(s);
    ExtractCollapsed(KeepLabelChars(s));
    ExtractTrimLeft(collapsed, IsHyphen, Same);
    ExtractTrimRight(TrimLeft(collapsed, IsHyphen), IsHyphen, Same);
  }

  lemma ExtractTruncated(s: string)
    ensures Extract(Truncated(s), Same) <= Extract(s, Same)
    ensures |s| <= MAX_LENGTH ==> Truncated(s) == s
  {
    if |s| > MAX_LENGTH {
      ExtractTrimRight(s[..MAX_LENGTH], IsHyphen, Same);
      ExtractAppend(s[..MAX_LENGTH], s[MAX_LENGTH..], Same);
      assert s == s[..MAX_LENGTH] + s[MAX_LENGTH..];
    }
  }

  /** A trimmed text of label characters without letters and digits is empty. */
  lemma NoAlnumIsEmpty(s: string)
    requires AllLabelChars(s) && Trimmed(s, IsHyphen) && Extract(s, Same) == []
    ensures s == []
  {
  }

  lemma {:induction false} KeptShrinks(s: string)
    ensures |KeepLabelChars(s)| <= |s|
  {
    if s != [] { KeptShrinks(s[1..]); }
  }

  lemma {:induction false} CollapsedShrinks(s: string)
    ensures |CollapseHyphens(s)| <= |s|
  {
    if |s| >= 2 { CollapsedShrinks(s[1..]); }
  }

  lemma PipelineShrinks(s: string)
    ensures |Untruncated(Hyphened(s))| <= |s|
  {
    TrimIsTrimmed(s, IsSpace);
    KeptShrinks(Hyphened(s));
    CollapsedShrinks(KeepLabelChars(Hyphened(s)));
    TrimIsTrimmed(CollapseHyphens(KeepLabelChars(Hyphened(s))), IsHyphen);
  }

  // ---------------------------------------------------------------- the whole label, in one pass

  /** The letter or digit of the label that a character stands for, if any. */
  function WordChar(c: char): string {
    if 'a' <= c <= 'z' || '0' <= c <= '9' then [c]
    else if 'A' <= c <= 'Z' then [(c as int + 32) as char]
    else if c == '\U{212A}' then "k"
    else if c == '\U{0130}' then "i"
    else ""
  }

  predicate IsBreak(c: char) {
    c == ' ' || c == '_' || c == '.' || c == '/' || c == '-'
  }

  /** Reads the text once: letters and digits go out in lower case, and a hyphen goes before one that
      follows a break; everything else is ignored. */
  function Slug(s: string, broken: bool, started: bool): string {
    if s == "" then ""
    else if WordChar(s[0]) != "" then
      (if broken && started then "-" else "") + (WordChar(s[0]) + Slug(s[1..], false, true))
    else Slug(s[1..], broken || IsBreak(s[0]), started)
  }

  /** Cut to the length limit, not behind a hyphen; a name for the empty label. */
  function Finished(name: string): string {
    if name == "" then "unnamed"
    else if |name| <= MAX_LENGTH then name
    else if name[MAX_LENGTH - 1] == '-' then name[..MAX_LENGTH - 1]
    else name[..MAX_LENGTH]
  }

  /** `Slug` on text that is already lower case and holds hyphens for all breaks. */
  function Dashed(t: string, broken: bool, started: bool): string {
    if t == "" then ""
    else if t[0] != '-' then (if broken && started then "-" else "") + ([t[0]] + Dashed(t[1..], false, true))
    else Dashed(t[1..], true, started)
  }

  function Mapped(s: string): string {
    MapChars(MapChars(s, ToLowerChar), Separator)
  }

  lemma MappedChar(c: char)
    ensures var d := Separator(ToLowerChar(c));
            && (WordChar(c) != "" ==> IsAlnum(d) && WordChar(c) == [d])
            && (WordChar(c) == "" ==> !IsAlnum(d) && (d == '-' <==> IsBreak(c)))
  {
  }

  lemma MappedCons(s: string)
    requires s != ""
    ensures Mapped(s) == [Separator(ToLowerChar(s[0]))] + Mapped(s[1..])
  {
  }

  lemma KeptCons(c: char, t: string)
    ensures KeepLabelChars([c] + t) == (if IsLabelChar(c) then [c] else []) + KeepLabelChars(t)
  {
    assert ([c] + t)[1..] == t;
  }

  lemma DashedCons(c: char, t: string, broken: bool, started: bool)
    ensures Dashed([c] + t, broken, started)
         == if c != '-' then (if broken && started then "-" else "") + ([c] + Dashed(t, false, true))
            else Dashed(t, true, started)
  {
    assert ([c] + t)[1..] == t;
  }

  lemma {:induction false} SlugIsDashed(s: string, broken: bool, started: bool)
    ensures Slug(s, broken, started) == Dashed(KeepLabelChars(Mapped(s)), broken, started)
  {
    if s != "" {
      var d := Separator(ToLowerChar(s[0]));
      var t := KeepLabelChars(Mapped(s[1..]));
      MappedChar(s[0]);
      MappedCons(s);
      KeptCons(d, Mapped(s[1..]));
      SlugIsDashed(s[1..], false, true);
      SlugIsDashed(s[1..], broken, started);
      SlugIsDashed(s[1..], true, started);
      if IsLabelChar(d) {
        DashedCons(d, t, broken, started);
      } else {
        assert [] + t == t;
      }
    }
  }

  lemma {:induction false} TrimRightCons(x: char, u: string)
    ensures TrimRight([x] + u, IsHyphen)
         == if TrimRight(u, IsHyphen) == "" && x == '-' then "" else [x] + TrimRight(u, IsHyphen)
  {
    if u == "" {
      assert [x] + u == [x];
      assert [x][..0] == "";
    } else if IsHyphen(u[|u| - 1]) {
      assert ([x] + u)[..|u|] == [x] + u[..|u| - 1];
      TrimRightCons(x, u[..|u| - 1]);
    }
  }

  lemma CollapseCons(x: char, t: string)
    ensures CollapseHyphens([x] + t)
         == if x == '-' && t != "" && t[0] == '-' then CollapseHyphens(t) else [x] + CollapseHyphens(t)
  {
    assert ([x] + t)[1..] == t;
  }

  lemma {:induction false} DashedIsTrimmedRight(t: string)
    ensures Dashed(t, false, true) == TrimRight(CollapseHyphens(t), IsHyphen)
    ensures Dashed(t, true, true) == TrimRight(CollapseHyphens(['-'] + t), IsHyphen)
  {
    if t == "" {
      assert ['-'] + t == ['-'];
      assert ['-'][..0] == "";
    } else {
      var x, rest := t[0], t[1..];
      assert t == [x] + rest;
      DashedIsTrimmedRight(rest);
      CollapseCons(x, rest);
      CollapseCons('-', t);
      if x != '-' {
        TrimRightCons(x, CollapseHyphens(rest));
        TrimRightCons('-', CollapseHyphens(t));
      }
    }
  }

  lemma TrimLeftCons(x: char, u: string)
    ensures TrimLeft([x] + u, IsHyphen) == if x == '-' then TrimLeft(u, IsHyphen) else [x] + u
  {
    assert ([x] + u)[1..] == u;
  }

  lemma {:induction false} DashedIsUntruncated(t: string, broken: bool)
    ensures Dashed(t, broken, false) == Trim(CollapseHyphens(t), IsHyphen)
  {
    if t != "" {
      var x, rest := t[0], t[1..];
      assert t == [x] + rest;
      CollapseCons(x, rest);
      TrimLeftCons(x, CollapseHyphens(rest));
      if x == '-' {
        DashedIsUntruncated(rest, true);
      } else {
        DashedIsTrimmedRight(rest);
        TrimRightCons(x, CollapseHyphens(rest));
      }
    }
  }

  lemma SpaceIsNoWord(c: char)
    requires IsSpace(c)
    ensures WordChar(c) == ""
  {
  }

  lemma {:induction false} BlanksInFront(s: string, broken: bool)
    ensures Slug(TrimLeft(s, IsSpace), false, false) == Slug(s, broken, false)
  {
    if s != "" {
      if IsSpace(s[0]) {
        SpaceIsNoWord(s[0]);
        BlanksInFront(s[1..], broken || IsBreak(s[0]));
      } else {
        BeforeTheFirst(s, broken);
      }
    }
  }

  /** As long as nothing has gone out, breaks do not matter. */
  lemma {:induction false} BeforeTheFirst(s: string, broken: bool)
    ensures Slug(s, broken, false) == Slug(s, false, false)
  {
    if s != "" && WordChar(s[0]) == "" {
      BeforeTheFirst(s[1..], broken || IsBreak(s[0]));
      BeforeTheFirst(s[1..], IsBreak(s[0]));
    }
  }

  lemma {:induction false} BlankBehind(s: string, c: char, broken: bool, started: bool)
    requires IsSpace(c)
    ensures Slug(s + [c], broken, started) == Slug(s, broken, started)
  {
    if s == "" {
      SpaceIsNoWord(c);
      assert s + [c] == [c];
      assert [c][1..] == "";
    } else {
      assert (s + [c])[1..] == s[1..] + [c];
      BlankBehind(s[1..], c, false, true);
      BlankBehind(s[1..], c, broken || IsBreak(s[0]), started);
    }
  }

  lemma {:induction false} BlanksBehind(s: string)
    ensures Slug(TrimRight(s, IsSpace), false, false) == Slug(s, false, false)
  {
    if s != "" && IsSpace(s[|s| - 1]) {
      BlanksBehind(s[..|s| - 1]);
      BlankBehind(s[..|s| - 1], s[|s| - 1], false, false);
      assert s == s[..|s| - 1] + [s[|s| - 1]];
    }
  }

  lemma FinishedIsTruncated(name: string)
    requires NoDoubleHyphen(name) && Trimmed(name, IsHyphen)
    ensures Finished(name) == if Truncated(name) == "" then "unnamed" else Truncated(name)
  {
    if |name| > MAX_LENGTH {
      var t := name[..MAX_LENGTH];
      if t[MAX_LENGTH - 1] == '-' {
        assert name[MAX_LENGTH - 2] != '-';
        assert t[..MAX_LENGTH - 1] == name[..MAX_LENGTH - 1];
        assert TrimRight(t, IsHyphen) == TrimRight(name[..MAX_LENGTH - 1], IsHyphen);
      }
    }
  }

  /** The pipeline of trimming, lowering, replacing, dropping, collapsing and cutting equals one pass:
      for every text, two letters or digits that follow one another in the label have a hyphen between
      them if and only if the text has a space, `_`, `.`, `/` or `-` between them. */
  lemma OnePass(s: string)
    ensures ToDNSLabel(s) == Finished(Slug(s, false, false))
  {
    var trimmed := TrimSpace(s);
    BlanksInFront(s, false);
    BlanksBehind(TrimLeft(s, IsSpace));
    SlugIsDashed(trimmed, false, false);
    DashedIsUntruncated(KeepLabelChars(Mapped(trimmed)), false);
    UntruncatedWorks(Hyphened(s));
    FinishedIsTruncated(Untruncated(Hyphened(s)));
  }

  predicate IsWordText(s: string) {
    forall i :: 0 <= i < |s| ==> IsAlnum(s[i])
  }

  predicate IsBreakText(s: string) {
    forall i :: 0 <= i < |s| ==> IsBreak(s[i])
  }

  lemma {:induction false} SlugOfWord(a: string, rest: string, started: bool)
    requires a != "" && IsWordText(a)
    ensures Slug(a + rest, false, started) == a + Slug(rest, false, true)
  {
    assert WordChar(a[0]) == [a[0]];
    assert (a + rest)[1..] == a[1..] + rest;
    if |a| == 1 {
      assert a[1..] + rest == rest;
    } else {
      SlugOfWord(a[1..], rest, true);
      assert a == [a[0]] + a[1..];
      Regroup([a[0]], a[1..], Slug(rest, false, true));
    }
  }

  lemma {:induction false} SlugOfBreak(breaks: string, rest: string, broken: bool)
    requires IsBreakText(breaks)
    ensures Slug(breaks + rest, broken, true) == Slug(rest, broken || breaks != "", true)
  {
    if breaks == "" {
      assert breaks + rest == rest;
    } else {
      assert IsBreak(breaks[0]);
      assert WordChar(breaks[0]) == "";
      assert (breaks + rest)[1..] == breaks[1..] + rest;
      SlugOfBreak(breaks[1..], rest, true);
    }
  }

  lemma SlugOfLastWord(b: string)
    requires b != "" && IsWordText(b)
    ensures Slug(b, true, true) == "-" + b
  {
    assert b + "" == b;
    SlugOfWord(b, "", true);
    assert WordChar(b[0]) == [b[0]];
    assert Slug(b, true, true) == "-" + Slug(b, false, true);
  }

  lemma SlugOfTwoWords(a: string, breaks: string, b: string)
    requires a != "" && b != "" && breaks != "" && IsWordText(a) && IsWordText(b) && IsBreakText(breaks)
    ensures Slug(a + (breaks + b), false, false) == a + ("-" + b)
  {
    SlugOfWord(a, breaks + b, false);
    SlugOfBreak(breaks, b, false);
    SlugOfLastWord(b);
  }

  /** Two words with any breaks between them are joined by one hyphen, as long as there is room. */
  lemma WordsAreJoined(a: string, breaks: string, b: string)
    requires a != "" && b != "" && breaks != "" && IsWordText(a) && IsWordText(b) && IsBreakText(breaks)
    requires |a| + 1 + |b| <= MAX_LENGTH
    ensures ToDNSLabel(a + breaks + b) == a + "-" + b
  {
    Regroup(a, breaks, b);
    Regroup(a, "-", b);
    OnePass(a + (breaks + b));
    SlugOfTwoWords(a, breaks, b);
  }
}
