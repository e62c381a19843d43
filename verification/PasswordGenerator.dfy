/** The credential generator: a Fisher-Yates shuffle over characters of which four are of fixed classes. */
module PasswordGenerator {
  import opened GoStrings
  import opened Options

  // ---------------------------------------------------------------- the shuffle

  function Swap<T>(s: seq<T>, i: nat, j: nat): (r: seq<T>)
    requires i < |s| && j < |s|
    ensures |r| == |s|
  {
    s[i := s[j]][j := s[i]]
  }

  /** `d[i - 1]` is the partner that position `i` draws from 0..i. */
  predicate DrawsUpTo(d: seq<nat>, n: nat) {
    |d| >= n && forall i :: 0 <= i < n ==> d[i] <= i + 1
  }

  /** Positions n down to 1 are swapped with the partners they draw. */
  function Shuffled<T>(s: seq<T>, d: seq<nat>, n: nat): (r: seq<T>)
    requires n < |s| || n == 0
    requires DrawsUpTo(d, n)
    ensures |r| == |s|
    decreases n
  {
    if n == 0 then s else Shuffled(Swap(s, n, d[n - 1]), d, n - 1)
  }

  lemma SwapPermutes<T>(s: seq<T>, i: nat, j: nat)
    requires i < |s| && j < |s|
    ensures multiset(Swap(s, i, j)) == multiset(s)
  {
  }

  /** A shuffle is a permutation, and leaves the positions above its start alone. */
  lemma {:induction false} ShuffledPermutes<T>(s: seq<T>, d: seq<nat>, n: nat)
    requires n < |s| || n == 0
    requires DrawsUpTo(d, n)
    ensures multiset(Shuffled(s, d, n)) == multiset(s)
    ensures forall k :: n < k < |s| ==> Shuffled(s, d, n)[k] == s[k]
    decreases n
  {
    if n > 0 {
      SwapPermutes(s, n, d[n - 1]);
      ShuffledPermutes(Swap(s, n, d[n - 1]), d, n - 1);
    }
  }

  ghost predicate Distinct<T>(s: seq<T>) {
    forall i, j :: 0 <= i < j < |s| ==> s[i] != s[j]
  }

  lemma SwapKeepsDistinct<T>(s: seq<T>, i: nat, j: nat)
    requires i < |s| && j < |s| && Distinct(s)
    ensures Distinct(Swap(s, i, j))
  {
  }

  /** The element at the start position tells which partner was drawn first. */
  lemma FirstDrawShows<T>(s: seq<T>, d: seq<nat>, n: nat)
    requires 0 < n < |s| && DrawsUpTo(d, n)
    ensures Shuffled(s, d, n)[n] == s[d[n - 1]]
  {
    ShuffledPermutes(Swap(s, n, d[n - 1]), d, n - 1);
  }

  /** Different draws give different arrangements of distinct elements. */
  lemma {:induction false} ShuffledInjective<T>(s: seq<T>, d: seq<nat>, e: seq<nat>, n: nat)
    requires n < |s| || n == 0
    requires DrawsUpTo(d, n) && DrawsUpTo(e, n) && Distinct(s)
    requires Shuffled(s, d, n) == Shuffled(s, e, n)
    ensures d[..n] == e[..n]
    decreases n
  {
    if n > 0 {
      FirstDrawShows(s, d, n);
      FirstDrawShows(s, e, n);
      assert d[n - 1] == e[n - 1];
      SwapKeepsDistinct(s, n, d[n - 1]);
      ShuffledInjective(Swap(s, n, d[n - 1]), d, e, n - 1);
      assert d[..n] == d[..n - 1] + [d[n - 1]];
      assert e[..n] == e[..n - 1] + [e[n - 1]];
    }
  }

  /** Some swap brings the wanted element to position n and leaves a permutation below. */
  lemma PartnerExists<T>(s: seq<T>, t: seq<T>, n: nat) returns (j: nat)
    requires |s| == |t| && n < |s|
    requires multiset(s[..n + 1]) == multiset(t[..n + 1])
    ensures j <= n && Swap(s, n, j)[n] == t[n]
    ensures multiset(Swap(s, n, j)[..n]) == multiset(t[..n])
  {
    j := SharedElement(s[..n + 1], t[..n + 1], n);
    SwapPermutes(s[..n + 1], n, j);
    SwapOfPrefix(s, n, j);
    assert t[..n + 1] == t[..n] + [t[n]];
    CancelLast(Swap(s, n, j)[..n], t[..n], t[n]);
  }

  lemma SharedElement<T>(a: seq<T>, b: seq<T>, n: nat) returns (j: nat)
    requires n < |b| && multiset(a) == multiset(b)
    ensures j < |a| && a[j] == b[n]
  {
    assert b[n] in multiset(b);
    assert b[n] in a;
    j :| 0 <= j < |a| && a[j] == b[n];
  }

  lemma SwapOfPrefix<T>(s: seq<T>, n: nat, j: nat)
    requires j <= n < |s|
    ensures Swap(s[..n + 1], n, j) == Swap(s, n, j)[..n] + [s[j]]
  {
  }

  lemma CancelLast<T>(a: seq<T>, b: seq<T>, x: T)
    requires multiset(a + [x]) == multiset(b + [x])
    ensures multiset(a) == multiset(b)
  {
    assert multiset(a + [x]) == multiset(a) + multiset{x};
    assert multiset(b + [x]) == multiset(b) + multiset{x};
    assert multiset(a) == multiset(a + [x]) - multiset{x};
    assert multiset(b) == multiset(b + [x]) - multiset{x};
  }

  /** Every arrangement is reached: the draws that lead from `s` to `t`. */
  lemma {:induction false} ShuffledOnto<T>(s: seq<T>, t: seq<T>, n: nat) returns (d: seq<nat>)
    requires |s| == |t| && n < |s|
    requires forall k :: n < k < |s| ==> s[k] == t[k]
    requires multiset(s[..n + 1]) == multiset(t[..n + 1])
    ensures |d| == n && DrawsUpTo(d, n) && Shuffled(s, d, n) == t
    decreases n
  {
    if n == 0 {
      d := [];
      assert s[..1] == [s[0]] && t[..1] == [t[0]];
      assert s[0] in multiset(t[..1]);
      assert s == t;
    } else {
      var j := PartnerExists(s, t, n);
      var rest := ShuffledOnto(Swap(s, n, j), t, n - 1);
      d := rest + [j];
      OnlyPrefixMatters(Swap(s, n, j), rest, d, n - 1);
    }
  }

  lemma {:induction false} OnlyPrefixMatters<T>(s: seq<T>, d: seq<nat>, e: seq<nat>, n: nat)
    requires n < |s| || n == 0
    requires DrawsUpTo(d, n) && DrawsUpTo(e, n) && d[..n] == e[..n]
    ensures Shuffled(s, d, n) == Shuffled(s, e, n)
    decreases n
  {
    if n > 0 {
      assert d[n - 1] == d[..n][n - 1] == e[..n][n - 1] == e[n - 1];
      assert d[..n - 1] == d[..n][..n - 1] == e[..n][..n - 1] == e[..n - 1];
      OnlyPrefixMatters(Swap(s, n, d[n - 1]), d, e, n - 1);
    }
  }

  /** A full draw vector that turns `s` into `t`. */
  ghost predicate Leads<T(!new)>(s: seq<T>, d: seq<nat>, t: seq<T>)
    requires s != []
  {
    |d| == |s| - 1 && DrawsUpTo(d, |s| - 1) && Shuffled(s, d, |s| - 1) == t
  }

  /** Draw vectors and arrangements correspond one to one: for distinct elements, every permutation
      is the shuffle of exactly one draw vector. */
  lemma ShuffleBijection<T(!new)>(s: seq<T>, t: seq<T>)
    requires s != [] && Distinct(s) && multiset(s) == multiset(t)
    ensures exists d :: Leads(s, d, t)
    ensures forall d, e :: Leads(s, d, t) && Leads(s, e, t) ==> d == e
  {
    assert |multiset(s)| == |s| && |multiset(t)| == |t|;
    assert s[..|s|] == s && t[..|t|] == t;
    var d0 := ShuffledOnto(s, t, |s| - 1);
    assert Leads(s, d0, t);
    forall d, e | Leads(s, d, t) && Leads(s, e, t) ensures d == e {
      ShuffledInjective(s, d, e, |s| - 1);
      assert d[..|s| - 1] == d && e[..|s| - 1] == e;
    }
  }

  // ---------------------------------------------------------------- the generator

  datatype Class = Lowercase | Uppercase | Digit | Special | Any

  const LOWERCASE := "abcdefghijklmnopqrstuvwxyz"
  const UPPERCASE := "ABCDEFGHIJKLMNOPQRSTUVWXYZ"
  const DIGITS := "0123456789"
  const SPECIAL := "!@#$%^&*"

  function Charset(c: Class): (s: string)
    ensures |s| > 0
  {
    match c
    case Lowercase => LOWERCASE
    case Uppercase => UPPERCASE
    case Digit => DIGITS
    case Special => SPECIAL
    case Any => LOWERCASE + UPPERCASE + DIGITS + SPECIAL
  }

  /** The class that a position is filled from before the shuffle. */
  function ClassOf(i: nat): Class {
    if i == 0 then Lowercase else if i == 1 then Uppercase else if i == 2 then Digit
    else if i == 3 then Special else Any
  }

  /** The random source: the raw number behind the k-th call, or its failure. */
  type Source = nat -> Option<nat>

  /** A call asks for a number below `bound`. */
  function Drawn(rand: Source, k: nat, bound: nat): (r: nat)
    requires bound > 0
    ensures r < bound
  {
    match rand(k)
    case None => 0
    case Some(raw) => raw % bound
  }

  function Pick(rand: Source, i: nat): char {
    Charset(ClassOf(i))[Drawn(rand, i, |Charset(ClassOf(i))|)]
  }

  function Filled(rand: Source, n: nat): seq<char> {
    seq(n, i requires 0 <= i < n => Pick(rand, i))
  }

  /** Calls n, n + 1, ... serve the positions n - 1, n - 2, ... of the shuffle. */
  function ShuffleDraws(rand: Source, n: nat): (d: seq<nat>)
    requires n > 0
    ensures |d| == n - 1 && DrawsUpTo(d, n - 1)
  {
    var d := seq<nat>(n - 1, i requires 0 <= i < n - 1 => Drawn(rand, n + (n - 2 - i), i + 2));
    assert forall i :: 0 <= i < n - 1 ==> d[i] == Drawn(rand, n + (n - 2 - i), i + 2);
    d
  }

  function PasswordLength(length: int): nat {
    if length < 8 then 8 else length
  }

  predicate NoFailure(rand: Source, calls: nat) {
    forall k :: 0 <= k < calls ==> rand(k).Some?
  }

  /** The filling loop. */
  method FillByClass(result: array<char>, rand: Source) returns (ok: bool)
    modifies result
    ensures ok <==> NoFailure(rand, result.Length)
    ensures ok ==> result[..] == Filled(rand, result.Length)
  {
    for i := 0 to result.Length
      invariant NoFailure(rand, i)
      invariant forall k :: 0 <= k < i ==> result[k] == Pick(rand, k)
    {
      var num := rand(i);
      if num.None? {
        return false;
      }
      var charset := Charset(ClassOf(i));
      result[i] := charset[num.value % |charset|];
    }
    return true;
  }

  /** The shuffling loop, which draws as it goes. */
  method ShuffleDrawing(result: array<char>, rand: Source) returns (ok: bool)
    requires result.Length > 0 && NoFailure(rand, result.Length)
    modifies result
    ensures ok <==> NoFailure(rand, 2 * result.Length - 1)
    ensures ok ==> result[..] == Shuffled(old(result[..]), ShuffleDraws(rand, result.Length), result.Length - 1)
  {
    var n := result.Length;
    ghost var d := ShuffleDraws(rand, n);
    var i := n - 1;
    while i > 0
      invariant 0 <= i < n
      invariant NoFailure(rand, n + (n - 1 - i))
      invariant Shuffled(result[..], d, i) == Shuffled(old(result[..]), d, n - 1)
    {
      var num := rand(n + (n - 1 - i));
      if num.None? {
        return false;
      }
      var j := num.value % (i + 1);
      assert j == Drawn(rand, n + (n - 1 - i), i + 1) == d[i - 1];
      ghost var before := result[..];
      result[i], result[j] := result[j], result[i];
      assert result[..] == Swap(before, i, j);
      i := i - 1;
    }
    return true;
  }

  /** Every draw vector is drawn by some run of the random source, so the loop can reach every permutation. */
  lemma EveryDrawVectorOccurs(d: seq<nat>, n: nat) returns (rand: Source)
    requires n > 0 && |d| == n - 1 && DrawsUpTo(d, n - 1)
    ensures ShuffleDraws(rand, n) == d && NoFailure(rand, 2 * n - 1)
  {
    rand := (k: nat) => if n <= k < 2 * n - 1 then Some(d[2 * n - 2 - k]) else Some(0);
    forall i | 0 <= i < n - 1 ensures ShuffleDraws(rand, n)[i] == d[i] {
      assert Drawn(rand, n + (n - 2 - i), i + 2) == d[i];
    }
  }

  lemma FailureStays(rand: Source, calls: nat, more: nat)
    requires calls <= more && !NoFailure(rand, calls)
    ensures !NoFailure(rand, more)
  {
  }

  /** The password for the given answers of the random source. */
  function Password(rand: Source, n: nat): (p: string)
    requires n > 0
    ensures |p| == n
  {
    Shuffled(Filled(rand, n), ShuffleDraws(rand, n), n - 1)
  }

  method GenerateRandomPassword(length: int, rand: Source) returns (r: Option<string>)
    ensures var n := PasswordLength(length);
            r == if NoFailure(rand, 2 * n - 1) then Some(Password(rand, n)) else None
  {
    var n := length;
    if n < 8 {
      n := 8;
    }
    var result := new char[n](_ => ' ');
    var ok := FillByClass(result, rand);
    if !ok {
      FailureStays(rand, n, 2 * n - 1);
      return None;
    }
    ok := ShuffleDrawing(result, rand);
    if !ok {
      return None;
    }
    return Some(result[..]);
  }

  ghost predicate HasClass(p: string, c: Class) {
    exists i :: 0 <= i < |p| && p[i] in Charset(c)
  }

  /** For every draw sequence the password has the required length and a character of each class,
      wherever the shuffle put it. */
  lemma PasswordIsComplex(length: int, rand: Source)
    ensures var n := PasswordLength(length);
            var p := Password(rand, n);
            && |p| == n && n >= 8 && n >= length
            && HasClass(p, Lowercase) && HasClass(p, Uppercase) && HasClass(p, Digit) && HasClass(p, Special)
  {
    var n := PasswordLength(length);
    ClassSurvives(rand, n, 0);
    ClassSurvives(rand, n, 1);
    ClassSurvives(rand, n, 2);
    ClassSurvives(rand, n, 3);
  }

  lemma ClassSurvives(rand: Source, n: nat, at: nat)
    requires at < n
    ensures HasClass(Shuffled(Filled(rand, n), ShuffleDraws(rand, n), n - 1), ClassOf(at))
  {
    var i := StaysSomewhere(Filled(rand, n), ShuffleDraws(rand, n), n - 1, at);
    assert Filled(rand, n)[at] == Pick(rand, at);
    PickIsInClass(rand, at);
  }

  lemma PickIsInClass(rand: Source, i: nat)
    ensures Pick(rand, i) in Charset(ClassOf(i))
  {
  }

  lemma StaysSomewhere<T>(s: seq<T>, d: seq<nat>, n: nat, at: nat) returns (i: nat)
    requires n < |s| && DrawsUpTo(d, n) && at < |s|
    ensures var p := Shuffled(s, d, n); i < |p| && p[i] == s[at]
  {
    var p := Shuffled(s, d, n);
    ShuffledPermutes(s, d, n);
    assert s[at] in multiset(p);
    i :| 0 <= i < |p| && p[i] == s[at];
  }

  // ---------------------------------------------------------------- exactly the possible passwords

  predicate IsLower(c: char) { 'a' <= c <= 'z' }

  predicate IsUpper(c: char) { 'A' <= c <= 'Z' }

  predicate IsDigit(c: char) { '0' <= c <= '9' }

  predicate IsSpecial(c: char) {
    c == '!' || c == '@' || c == '#' || c == '$' || c == '%' || c == '^' || c == '&' || c == '*'
  }

  predicate Fits(c: char, k: Class) {
    match k
    case Lowercase => IsLower(c)
    case Uppercase => IsUpper(c)
    case Digit => IsDigit(c)
    case Special => IsSpecial(c)
    case Any => IsLower(c) || IsUpper(c) || IsDigit(c) || IsSpecial(c)
  }

  lemma LowercaseIs(c: char)
    ensures c in LOWERCASE <==> IsLower(c)
  {
    if IsLower(c) {
      assert LOWERCASE[c as int - 'a' as int] == c;
    }
  }

  lemma UppercaseIs(c: char)
    ensures c in UPPERCASE <==> IsUpper(c)
  {
    if IsUpper(c) {
      assert UPPERCASE[c as int - 'A' as int] == c;
    }
  }

  lemma DigitsAre(c: char)
    ensures c in DIGITS <==> IsDigit(c)
  {
    if IsDigit(c) {
      assert DIGITS[c as int - '0' as int] == c;
    }
  }

  lemma SpecialIs(c: char)
    ensures c in SPECIAL <==> IsSpecial(c)
  {
  }

  lemma CharsetIs(c: char, k: Class)
    ensures c in Charset(k) <==> Fits(c, k)
  {
    LowercaseIs(c);
    UppercaseIs(c);
    DigitsAre(c);
    SpecialIs(c);
  }

  predicate GeneratedBy(p: string, n: nat, rand: Source)
    requires n > 0
  {
    NoFailure(rand, 2 * n - 1) && Password(rand, n) == p
  }

  /** Some run of the random source makes the password. */
  ghost predicate Generates(p: string, n: nat)
    requires n > 0
  {
    exists rand: Source :: GeneratedBy(p, n, rand)
  }

  ghost predicate Has(p: string, k: Class) {
    exists i :: 0 <= i < |p| && Fits(p[i], k)
  }

  ghost predicate Allowed(p: string) {
    && (forall i :: 0 <= i < |p| ==> Fits(p[i], Any))
    && Has(p, Lowercase) && Has(p, Uppercase) && Has(p, Digit) && Has(p, Special)
  }

  lemma PermutationHas(s: string, t: string, k: Class)
    requires multiset(s) == multiset(t) && Has(s, k)
    ensures Has(t, k)
  {
    var i :| 0 <= i < |s| && Fits(s[i], k);
    assert s[i] in multiset(s);
    assert s[i] in t;
  }

  lemma PermutationFits(s: string, t: string)
    requires multiset(s) == multiset(t) && forall i :: 0 <= i < |s| ==> Fits(s[i], Any)
    ensures forall i :: 0 <= i < |t| ==> Fits(t[i], Any)
  {
    forall i | 0 <= i < |t| ensures Fits(t[i], Any) {
      assert t[i] in multiset(t);
      assert t[i] in s;
    }
  }

  // From the generator to the description.

  lemma PickFits(rand: Source, i: nat)
    ensures Fits(Pick(rand, i), ClassOf(i)) && Fits(Pick(rand, i), Any)
  {
    PickIsInClass(rand, i);
    CharsetIs(Pick(rand, i), ClassOf(i));
  }

  lemma FilledIsAllowed(rand: Source, n: nat)
    requires n >= 4
    ensures Allowed(Filled(rand, n))
  {
    var s := Filled(rand, n);
    forall i | 0 <= i < n ensures s[i] == Pick(rand, i) && Fits(s[i], Any) {
      PickFits(rand, i);
    }
    PickFits(rand, 0);
    PickFits(rand, 1);
    PickFits(rand, 2);
    PickFits(rand, 3);
  }

  lemma PermutationIsAllowed(s: string, t: string)
    requires multiset(s) == multiset(t) && Allowed(s)
    ensures Allowed(t)
  {
    PermutationFits(s, t);
    PermutationHas(s, t, Lowercase);
    PermutationHas(s, t, Uppercase);
    PermutationHas(s, t, Digit);
    PermutationHas(s, t, Special);
  }

  // And back.

  /** The first `k` positions hold their classes. */
  predicate Arranged(s: string, k: nat) {
    forall i :: 0 <= i < k && i < |s| ==> Fits(s[i], ClassOf(i))
  }

  /** Brings a character of class `k` to position `k`, which the positions before cannot hold. */
  lemma ArrangeOne(s: string, k: nat) returns (t: string)
    requires k < 4 && |s| >= 4 && Arranged(s, k) && Has(s, ClassOf(k))
    ensures |t| == |s| && multiset(t) == multiset(s) && Arranged(t, k + 1)
  {
    var i :| 0 <= i < |s| && Fits(s[i], ClassOf(k));
    assert i >= k by {
      if i < k {
        assert Fits(s[i], ClassOf(i));
        ClassesAreDisjoint(s[i], i, k);
      }
    }
    t := Swap(s, k, i);
    SwapPermutes(s, k, i);
  }

  lemma ClassesAreDisjoint(c: char, i: nat, k: nat)
    requires i < k < 4 && Fits(c, ClassOf(i))
    ensures !Fits(c, ClassOf(k))
  {
  }

  lemma Arrange(p: string) returns (t: string)
    requires |p| >= 4 && Allowed(p)
    ensures |t| == |p| && multiset(t) == multiset(p) && Arranged(t, 4) && Allowed(t)
  {
    t := ArrangeOne(p, 0);
    PermutationIsAllowed(p, t);
    var t1 := ArrangeOne(t, 1);
    PermutationIsAllowed(p, t1);
    var t2 := ArrangeOne(t1, 2);
    PermutationIsAllowed(p, t2);
    t := ArrangeOne(t2, 3);
    PermutationIsAllowed(p, t);
  }

  /** The answers that make the generator fill in `t` and then draw `d`. */
  function Answer(t: string, d: seq<nat>, k: nat): Option<nat> {
    if k < |t| then
      var i := IndexChar(Charset(ClassOf(k)), t[k]);
      Some(if i >= 0 then i else 0)
    else if k < 2 * |t| - 1 && 2 * |t| - 2 - k < |d| then Some(d[2 * |t| - 2 - k])
    else Some(0)
  }

  lemma SmallRemainder(i: nat, n: nat)
    requires i < n
    ensures i % n == i
  {
  }

  lemma IndexPicksBack(cs: string, c: char)
    requires c in cs
    ensures var i := IndexChar(cs, c); i >= 0 && cs[i % |cs|] == c
  {
    SmallRemainder(IndexChar(cs, c), |cs|);
  }

  lemma PickAnswers(rand: Source, t: string, d: seq<nat>, k: nat)
    requires k < |t| && t[k] in Charset(ClassOf(k)) && rand(k) == Answer(t, d, k)
    ensures Pick(rand, k) == t[k]
  {
    IndexPicksBack(Charset(ClassOf(k)), t[k]);
  }

  lemma AnswerDraws(t: string, d: seq<nat>, i: nat)
    requires |d| == |t| - 1 && i < |d|
    ensures Answer(t, d, |t| + (|t| - 2 - i)) == Some(d[i])
  {
  }

  lemma AnswersFill(t: string, d: seq<nat>, rand: Source)
    requires forall k :: 0 <= k < |t| ==> Pick(rand, k) == t[k]
    ensures Filled(rand, |t|) == t
  {
  }

  lemma AnswersDraw(rand: Source, d: seq<nat>, n: nat)
    requires n > 0 && |d| == n - 1 && DrawsUpTo(d, n - 1)
    requires forall i :: 0 <= i < |d| ==> rand(n + (n - 2 - i)) == Some(d[i])
    ensures ShuffleDraws(rand, n) == d
  {
    forall i | 0 <= i < n - 1 ensures ShuffleDraws(rand, n)[i] == d[i] {
      assert Drawn(rand, n + (n - 2 - i), i + 2) == d[i];
    }
  }

  function Script(t: string, d: seq<nat>): Source {
    (k: nat) => Answer(t, d, k)
  }

  lemma ScriptAt(t: string, d: seq<nat>, k: nat)
    ensures Script(t, d)(k) == Answer(t, d, k) && Answer(t, d, k).Some?
  {
  }

  lemma ScriptPicks(t: string, d: seq<nat>, k: nat)
    requires k < |t| && Fits(t[k], ClassOf(k))
    ensures Pick(Script(t, d), k) == t[k]
  {
    ScriptAt(t, d, k);
    CharsetIs(t[k], ClassOf(k));
    PickAnswers(Script(t, d), t, d, k);
  }

  lemma ScriptFills(t: string, d: seq<nat>)
    requires |t| >= 4 && Arranged(t, 4) && forall i :: 0 <= i < |t| ==> Fits(t[i], Any)
    ensures Filled(Script(t, d), |t|) == t
  {
    forall k | 0 <= k < |t| ensures Pick(Script(t, d), k) == t[k] {
      ScriptPicks(t, d, k);
    }
    AnswersFill(t, d, Script(t, d));
  }

  lemma ScriptDraws(t: string, d: seq<nat>)
    requires |t| > 0 && |d| == |t| - 1 && DrawsUpTo(d, |t| - 1)
    ensures ShuffleDraws(Script(t, d), |t|) == d
  {
    forall i | 0 <= i < |d| ensures Script(t, d)(|t| + (|t| - 2 - i)) == Some(d[i]) {
      ScriptAt(t, d, |t| + (|t| - 2 - i));
      AnswerDraws(t, d, i);
    }
    AnswersDraw(Script(t, d), d, |t|);
  }

  lemma ScriptNeverFails(t: string, d: seq<nat>, calls: nat)
    ensures NoFailure(Script(t, d), calls)
  {
    forall k | 0 <= k < calls ensures Script(t, d)(k).Some? {
      ScriptAt(t, d, k);
    }
  }

  lemma ScriptGenerates(t: string, d: seq<nat>)
    requires |t| >= 4 && Arranged(t, 4) && forall i :: 0 <= i < |t| ==> Fits(t[i], Any)
    requires |d| == |t| - 1 && DrawsUpTo(d, |t| - 1)
    ensures GeneratedBy(Shuffled(t, d, |t| - 1), |t|, Script(t, d))
  {
    ScriptFills(t, d);
    ScriptDraws(t, d);
    ScriptNeverFails(t, d, 2 * |t| - 1);
  }

  lemma ReachedByShuffle<T>(t: seq<T>, p: seq<T>) returns (d: seq<nat>)
    requires |t| == |p| > 0 && multiset(t) == multiset(p)
    ensures |d| == |t| - 1 && DrawsUpTo(d, |t| - 1) && Shuffled(t, d, |t| - 1) == p
  {
    assert t[..|t|] == t && p[..|p|] == p;
    d := ShuffledOnto(t, p, |t| - 1);
  }

  lemma ArrangedIsGenerated(t: string, p: string)
    requires |t| == |p| >= 4 && multiset(t) == multiset(p)
    requires Arranged(t, 4) && forall i :: 0 <= i < |t| ==> Fits(t[i], Any)
    ensures Generates(p, |p|)
  {
    var d := ReachedByShuffle(t, p);
    ScriptGenerates(t, d);
  }

  lemma AllowedIsGenerated(p: string)
    requires |p| >= 4 && Allowed(p)
    ensures Generates(p, |p|)
  {
    var t := Arrange(p);
    ArrangedIsGenerated(t, p);
  }

  /** The possible passwords are exactly the texts of the wanted length, at least 8, over the four classes with a
      character of each: the fixed first positions and the shuffle restrict nothing else. */
  lemma PasswordsExactly(length: int, p: string)
    ensures Generates(p, PasswordLength(length)) <==> |p| == PasswordLength(length) && Allowed(p)
  {
    var n := PasswordLength(length);
    if Generates(p, n) {
      var rand: Source :| GeneratedBy(p, n, rand);
      FilledIsAllowed(rand, n);
      ShuffledPermutes(Filled(rand, n), ShuffleDraws(rand, n), n - 1);
      PermutationIsAllowed(Filled(rand, n), p);
    }
    if |p| == n && Allowed(p) {
      AllowedIsGenerated(p);
    }
  }
}
