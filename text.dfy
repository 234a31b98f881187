/**
 * The handful of Python string operations the reply engine relies on, over ASCII:
 * case mapping (`str.lower`, `str.title`, `str.isupper`), `\w` and `\b` from the `re`
 * module, whitespace splitting and stripping (`str.split()`, `str.strip()`), substring
 * search (`in`), `str.replace` and `str.split('.')[0]`.
 */
module Text {
  import opened Options

  // ---------------------------------------------------------------------------
  // Character classes
  // ---------------------------------------------------------------------------

  predicate IsUpper(c: char) { 'A' <= c <= 'Z' }
  predicate IsLower(c: char) { 'a' <= c <= 'z' }
  predicate IsLetter(c: char) { IsUpper(c) || IsLower(c) }
  predicate IsDigit(c: char) { '0' <= c <= '9' }

  /** A character of the regular-expression class `\w`. */
  predicate IsWordChar(c: char) { IsLetter(c) || IsDigit(c) || c == '_' }

  /** `str.isspace` on a single ASCII character (this includes the separators 0x1C-0x1F). */
  predicate IsSpace(c: char) {
    c == ' ' || c == '\t' || c == '\n' || c == '\r' || c == '\U{0B}' || c == '\U{0C}'
    || ('\U{1C}' <= c <= '\U{1F}')
  }

  predicate NotSpace(c: char) { !IsSpace(c) }

  function LowerChar(c: char): (r: char)
    ensures !IsUpper(r)
    ensures IsLetter(r) <==> IsLetter(c)
    ensures !IsUpper(c) ==> r == c
  {
    if IsUpper(c) then (c as int + 32) as char else c
  }

  function UpperChar(c: char): (r: char)
    ensures !IsLower(r)
    ensures IsLetter(r) <==> IsLetter(c)
    ensures !IsLower(c) ==> r == c
  {
    if IsLower(c) then (c as int - 32) as char else c
  }

  /** `str.lower`: every ASCII capital is replaced by its small letter, nothing else moves. */
  function Lower(s: string): (r: string)
    ensures |r| == |s|
    ensures forall i :: 0 <= i < |s| ==> r[i] == LowerChar(s[i])
  {
    seq(|s|, i requires 0 <= i < |s| => LowerChar(s[i]))
  }

  lemma LowerHasNoCapitals(s: string)
    ensures forall c :: c in Lower(s) ==> !IsUpper(c)
    ensures Lower(Lower(s)) == Lower(s)
  {
  }

  // ---------------------------------------------------------------------------
  // Searching
  // ---------------------------------------------------------------------------

  /** The least index in [lo, hi] at which `at` holds, if any. */
  function FirstFrom(lo: nat, hi: int, at: int -> bool): (r: Option<nat>)
    decreases hi - lo
    ensures r.Some? ==> lo <= r.value <= hi && at(r.value)
    ensures r.Some? ==> forall j :: lo <= j < r.value ==> !at(j)
    ensures r.None? ==> forall j :: lo <= j <= hi ==> !at(j)
  {
    if hi < lo then None
    else if at(lo) then Some(lo)
    else FirstFrom(lo + 1, hi, at)
  }

  /** `p` occurs in `t` starting at index `i`. */
  predicate OccursAt(t: string, p: string, i: int) {
    0 <= i && i + |p| <= |t| && t[i..i + |p|] == p
  }

  /** Python's `p in t`. */
  function Contains(t: string, p: string): (b: bool)
    ensures b <==> exists i :: OccursAt(t, p, i)
  {
    var at := i => OccursAt(t, p, i);
    assert forall i :: OccursAt(t, p, i) ==> 0 <= i <= |t| - |p| && at(i);
    FirstFrom(0, |t| - |p|, at).Some?
  }

  /** Some pattern of `ps` occurs in `t`. */
  function ContainsAny(t: string, ps: seq<string>): (b: bool)
    ensures b <==> exists k :: 0 <= k < |ps| && Contains(t, ps[k])
  {
    if ps == [] then false else Contains(t, ps[0]) || ContainsAny(t, ps[1..])
  }

  /** `t[i]` exists and is a `\w` character. */
  predicate WordCharAt(t: string, i: int) {
    0 <= i < |t| && IsWordChar(t[i])
  }

  /** The regular-expression assertion `\b` at position `i` (between `t[i-1]` and `t[i]`). */
  predicate BoundaryAt(t: string, i: int) {
    WordCharAt(t, i - 1) != WordCharAt(t, i)
  }

  /** The pattern `\bp\b` matches at `i`. */
  predicate WholeWordAt(t: string, p: string, i: int) {
    OccursAt(t, p, i) && BoundaryAt(t, i) && BoundaryAt(t, i + |p|)
  }

  /** The literal phrase `p` occurs in `t` as a whole word, delimited by `\b` on both sides. */
  function HasWholeWord(t: string, p: string): (b: bool)
    ensures b <==> exists i :: WholeWordAt(t, p, i)
  {
    var at := i => WholeWordAt(t, p, i);
    assert forall i :: WholeWordAt(t, p, i) ==> 0 <= i <= |t| - |p| && at(i);
    FirstFrom(0, |t| - |p|, at).Some?
  }

  /**
   * For a phrase that begins and ends with a `\w` character, `\bp\b` means: `p` occurs,
   * and neither the character before it nor the one after it is a `\w` character.
   */
  lemma WholeWordMeansDelimited(t: string, p: string, i: int)
    requires p != [] && IsWordChar(p[0]) && IsWordChar(p[|p| - 1])
    ensures WholeWordAt(t, p, i) <==>
      OccursAt(t, p, i)
      && (i == 0 || !IsWordChar(t[i - 1]))
      && (i + |p| == |t| || !IsWordChar(t[i + |p|]))
  {
    if OccursAt(t, p, i) {
      assert t[i] == p[0];
      assert t[i + |p| - 1] == p[|p| - 1];
    }
  }

  /** "hi" occurs in "history" but not as a whole word. */
  lemma HiIsNotInHistory()
    ensures Contains("history", "hi")
    ensures !HasWholeWord("history", "hi")
  {
    assert OccursAt("history", "hi", 0);
    assert WordCharAt("history", 2);
    forall i | OccursAt("history", "hi", i)
      ensures i == 0
    {
      var h := "history";
      assert h[i] == h[i..i + 2][0] == 'h';
      assert h[1] != 'h' && h[2] != 'h' && h[3] != 'h' && h[4] != 'h' && h[5] != 'h';
    }
  }

  // ---------------------------------------------------------------------------
  // Sequences of characters and words
  // ---------------------------------------------------------------------------

  /** The elements of `s` that `keep` accepts, in order (a list comprehension with an `if`). */
  function Filter<T(!new)>(s: seq<T>, keep: T -> bool): seq<T> {
    if s == [] then [] else (if keep(s[0]) then [s[0]] else []) + Filter(s[1..], keep)
  }

  /** Every kept element passes, and each passing element is kept as often as it occurs. */
  lemma {:induction false} FilterCounts<T(!new)>(s: seq<T>, keep: T -> bool)
    ensures forall x :: x in Filter(s, keep) ==> keep(x)
    ensures forall x :: multiset(Filter(s, keep))[x] == if keep(x) then multiset(s)[x] else 0
  {
    if s != [] {
      FilterCounts(s[1..], keep);
      assert s == [s[0]] + s[1..];
    }
  }

  /** Filtering a concatenation filters each part, keeping their order. */
  lemma {:induction false} FilterAppend<T(!new)>(a: seq<T>, b: seq<T>, keep: T -> bool)
    ensures Filter(a + b, keep) == Filter(a, keep) + Filter(b, keep)
  {
    if a != [] {
      FilterAppend(a[1..], b, keep);
      var head := if keep(a[0]) then [a[0]] else [];
      assert (a + b)[0] == a[0] && (a + b)[1..] == a[1..] + b;
      assert Filter(a + b, keep) == head + Filter(a[1..] + b, keep);
      assert Filter(a, keep) == head + Filter(a[1..], keep);
    } else {
      assert a + b == b;
    }
  }

  /** A single element is kept exactly when it passes. */
  lemma FilterSingle<T(!new)>(x: T, keep: T -> bool)
    ensures Filter([x], keep) == if keep(x) then [x] else []
  {
    assert [x][1..] == [];
  }

  /** Filtering keeps a sequence whose elements all pass unchanged. */
  lemma {:induction false} FilterKeepsAll<T(!new)>(s: seq<T>, keep: T -> bool)
    requires forall x :: x in s ==> keep(x)
    ensures Filter(s, keep) == s
  {
    if s != [] {
      assert forall x :: x in s[1..] ==> x in s;
      FilterKeepsAll(s[1..], keep);
    }
  }

  /**
   * The indices `i` in [lo, hi) at which `keep` holds, in increasing order: what a loop over
   * `enumerate(...)` that collects the accepted positions produces.
   */
  function SelectIndices(lo: nat, hi: nat, keep: int -> bool): (r: seq<nat>)
    decreases hi - lo
    ensures forall k :: 0 <= k < |r| ==> lo <= r[k] < hi && keep(r[k])
    ensures forall k, l :: 0 <= k < l < |r| ==> r[k] < r[l]
    ensures forall i :: lo <= i < hi && keep(i) ==> i in r
  {
    if hi <= lo then []
    else (if keep(lo) then [lo] else []) + SelectIndices(lo + 1, hi, keep)
  }

  /** The length of the longest prefix of `s` whose characters all satisfy `ok`. */
  function Span(s: string, ok: char -> bool): (n: nat)
    ensures n <= |s|
    ensures forall i :: 0 <= i < n ==> ok(s[i])
    ensures n < |s| ==> !ok(s[n])
  {
    if s == [] || !ok(s[0]) then 0 else 1 + Span(s[1..], ok)
  }

  /** `str.split()` with no separator: the maximal runs of non-whitespace characters. */
  function Split(s: string): (words: seq<string>)
    decreases |s|
    ensures forall w :: w in words ==> w != [] && forall c :: c in w ==> !IsSpace(c)
    ensures words == [] <==> forall c :: c in s ==> IsSpace(c)
  {
    if s == [] then []
    else if IsSpace(s[0]) then Split(s[1..])
    else
      var n := Span(s, NotSpace);
      assert s[0] in s[..n];
      [s[..n]] + Split(s[n..])
  }

  /** `s` without its trailing whitespace. */
  function TrimEnd(s: string): (r: string)
    ensures |r| <= |s| && r == s[..|r|]
    ensures r != [] ==> !IsSpace(r[|r| - 1])
    ensures forall k :: |r| <= k < |s| ==> IsSpace(s[k])
  {
    if s != [] && IsSpace(s[|s| - 1]) then TrimEnd(s[..|s| - 1]) else s
  }

  /** `str.strip()`: `s` without its leading and trailing whitespace. */
  function Strip(s: string): string {
    TrimEnd(s[Span(s, IsSpace)..])
  }

  /**
   * `Strip(s)` is the part of `s` between its leading and its trailing whitespace: it
   * starts and ends with non-whitespace, and it is empty exactly when `s` is all whitespace.
   */
  lemma StripSpec(s: string)
    ensures var r := Strip(s);
      && (r == [] <==> forall c :: c in s ==> IsSpace(c))
      && (r != [] ==> !IsSpace(r[0]) && !IsSpace(r[|r| - 1]))
      && exists i :: OccursAt(s, r, i)
           && (forall k :: 0 <= k < i ==> IsSpace(s[k]))
           && (forall k :: i + |r| <= k < |s| ==> IsSpace(s[k]))
  {
    var n := Span(s, IsSpace);
    var r := Strip(s);
    var u := s[n..];
    assert r == u[..|r|];
    assert s[n..n + |r|] == r;
    assert OccursAt(s, r, n);
    forall k | n + |r| <= k < |s|
      ensures IsSpace(s[k])
    {
      assert s[k] == u[k - n];
    }
    if r == [] {
      forall c | c in s
        ensures IsSpace(c)
      {
        var k :| 0 <= k < |s| && s[k] == c;
      }
    } else {
      assert r[0] == s[n];
      assert s[n] in s;
    }
  }

  /** Every occurrence of the character `from` replaced by `to`. */
  function ReplaceChar(s: string, from: char, to: char): (r: string)
    ensures |r| == |s|
    ensures forall i :: 0 <= i < |s| ==> r[i] == if s[i] == from then to else s[i]
  {
    seq(|s|, i requires 0 <= i < |s| => if s[i] == from then to else s[i])
  }

  /** `s` with every occurrence of the character `c` deleted. */
  function RemoveChar(s: string, c: char): (r: string)
    ensures c !in r
    ensures forall x :: x != c ==> multiset(r)[x] == multiset(s)[x]
  {
    FilterCounts(s, x => x != c);
    Filter(s, x => x != c)
  }

  /**
   * Removal keeps the other characters in their order: it works part by part on a
   * concatenation, and leaves a text without `c` as it is.
   */
  lemma RemoveCharSpec(a: string, b: string, c: char)
    ensures RemoveChar(a + b, c) == RemoveChar(a, c) + RemoveChar(b, c)
    ensures c !in a ==> RemoveChar(a, c) == a
  {
    FilterAppend(a, b, x => x != c);
    if c !in a {
      FilterKeepsAll(a, x => x != c);
    }
  }

  /** The longest prefix of `s` that does not contain `c` (the first piece when splitting at `c`). */
  function BeforeFirst(s: string, c: char): (r: string)
    ensures c !in r
    ensures |r| <= |s| && r == s[..|r|]
    ensures |r| < |s| ==> s[|r|] == c
  {
    if s == [] || s[0] == c then [] else [s[0]] + BeforeFirst(s[1..], c)
  }

  // ---------------------------------------------------------------------------
  // Title case
  // ---------------------------------------------------------------------------

  /**
   * CPython's `str.title` loop: a character is lower-cased when the character before it is
   * cased, and title-cased (upper-cased) otherwise.
   */
  function TitleFrom(s: string, previousCased: bool): (r: string)
    ensures |r| == |s|
  {
    if s == [] then []
    else [if previousCased then LowerChar(s[0]) else UpperChar(s[0])] + TitleFrom(s[1..], IsLetter(s[0]))
  }

  /** Title case: each letter upper-cased after a non-letter and lower-cased after a letter. */
  function Title(s: string): string {
    TitleFrom(s, false)
  }

  lemma {:induction false} TitleFromAt(s: string, previousCased: bool, i: nat)
    requires i < |s|
    ensures TitleFrom(s, previousCased)[i] ==
      if (i == 0 && !previousCased) || (i > 0 && !IsLetter(s[i - 1])) then UpperChar(s[i])
      else LowerChar(s[i])
  {
    if i > 0 {
      TitleFromAt(s[1..], IsLetter(s[0]), i - 1);
    }
  }

  /**
   * Each letter of `Title(s)` is a capital exactly when it starts a run of letters;
   * every other character keeps its value.
   */
  lemma TitleAt(s: string, i: nat)
    requires i < |s|
    ensures |Title(s)| == |s|
    ensures Title(s)[i] == if i == 0 || !IsLetter(s[i - 1]) then UpperChar(s[i]) else LowerChar(s[i])
  {
    TitleFromAt(s, false, i);
  }
}
