/** Name extraction (`extract_name`): the first of four self-introduction patterns that matches. */
module Names {
  import opened Options
  import opened Text

  /** The literal parts of the patterns `my name is (\w+)`, `i am (\w+)`, `i'm (\w+)`, `call me (\w+)`, in the order they are tried. */
  const NamePrefixes: seq<string> := ["my name is ", "i am ", "i'm ", "call me "]

  /** The pattern `p(\w+)` matches at `i`: `p` occurs there and is followed by a `\w` character. */
  predicate NameAt(t: string, p: string, i: int) {
    OccursAt(t, p, i) && WordCharAt(t, i + |p|)
  }

  /** The position of the leftmost match of `p(\w+)` in `t`, as `re.search` finds it. */
  function NameMatch(t: string, p: string): (r: Option<nat>)
    ensures r.Some? ==> NameAt(t, p, r.value) && forall j :: 0 <= j < r.value ==> !NameAt(t, p, j)
    ensures r.None? ==> forall i :: !NameAt(t, p, i)
  {
    var at := i => NameAt(t, p, i);
    assert forall i :: NameAt(t, p, i) ==> 0 <= i <= |t| - |p| - 1 && at(i);
    FirstFrom(0, |t| - |p| - 1, at)
  }

  /** The maximal run of `\w` characters that starts at `j` (what the greedy group `(\w+)` takes). */
  function WordRun(t: string, j: nat): (w: string)
    requires j <= |t|
    ensures j + |w| <= |t| && w == t[j..j + |w|]
    ensures forall c :: c in w ==> IsWordChar(c)
    ensures !WordCharAt(t, j + |w|)
    ensures WordCharAt(t, j) ==> w != []
  {
    var n := Span(t[j..], IsWordChar);
    assert forall k :: 0 <= k < n ==> t[j + k] == t[j..][k];
    t[j..j + n]
  }

  /** The word run captured after the leftmost match of the prefix `p`, or None when it never matches. */
  function Capture(t: string, p: string): Option<string> {
    match NameMatch(t, p)
    case None => None
    case Some(i) => Some(WordRun(t, i + |p|))
  }

  /** Try the prefixes in order; the first one that matches anywhere gives the title-cased name. */
  function ExtractNameFrom(t: string, prefixes: seq<string>): Option<string> {
    if prefixes == [] then None
    else
      match Capture(t, prefixes[0])
      case Some(w) => Some(Title(w))
      case None => ExtractNameFrom(t, prefixes[1..])
  }

  /** The name a message introduces: the first pattern that matches the lower-cased text decides. */
  function ExtractName(text: string): (r: Option<string>)
    ensures r.Some? ==> r.value != [] && forall c :: c in r.value ==> IsWordChar(c)
  {
    var r := ExtractNameFrom(Lower(text), NamePrefixes);
    if r.Some? then ExtractedNameIsWord(Lower(text), NamePrefixes); r else r
  }

  /** No name is found exactly when no prefix is followed by a `\w` character anywhere in `t`. */
  lemma {:induction false} NoNameIff(t: string, prefixes: seq<string>)
    ensures ExtractNameFrom(t, prefixes).None? <==>
      forall k, i :: 0 <= k < |prefixes| ==> !NameAt(t, prefixes[k], i)
  {
    if prefixes != [] {
      NoNameIff(t, prefixes[1..]);
      var m := NameMatch(t, prefixes[0]);
      if m.Some? {
        assert NameAt(t, prefixes[0], m.value);
      } else {
        assert forall k :: 1 <= k < |prefixes| ==> prefixes[k] == prefixes[1..][k - 1];
      }
    }
  }

  /**
   * The name comes from the first prefix, in list order, that matches anywhere in `t`, at its
   * leftmost match, whatever its position relative to the matches of later prefixes.
   */
  lemma {:induction false} FirstMatchingPrefixWins(t: string, prefixes: seq<string>, k: nat)
    requires k < |prefixes| && NameMatch(t, prefixes[k]).Some?
    requires forall l :: 0 <= l < k ==> NameMatch(t, prefixes[l]).None?
    ensures ExtractNameFrom(t, prefixes) ==
      Some(Title(WordRun(t, NameMatch(t, prefixes[k]).value + |prefixes[k]|)))
  {
    if k > 0 {
      assert NameMatch(t, prefixes[0]).None?;
      assert forall l :: 0 <= l < k - 1 ==> prefixes[1..][l] == prefixes[l + 1];
      FirstMatchingPrefixWins(t, prefixes[1..], k - 1);
    }
  }

  /** A found name is a non-empty run of `\w` characters, title-cased. */
  lemma {:induction false} ExtractedNameIsWord(t: string, prefixes: seq<string>)
    requires ExtractNameFrom(t, prefixes).Some?
    ensures var n := ExtractNameFrom(t, prefixes).value;
      n != [] && forall c :: c in n ==> IsWordChar(c)
  {
    var c := Capture(t, prefixes[0]);
    if c.Some? {
      var w := c.value;
      var n := Title(w);
      assert NameAt(t, prefixes[0], NameMatch(t, prefixes[0]).value);
      forall x | x in n
        ensures IsWordChar(x)
      {
        var k :| 0 <= k < |n| && n[k] == x;
        TitleAt(w, k);
        assert w[k] in w;
      }
    } else {
      ExtractedNameIsWord(t, prefixes[1..]);
    }
  }

  /** Pattern order beats position in the text: "i'm sam, my name is bob" gives "Bob". */
  lemma PatternOrderBeatsPosition()
    ensures ExtractName("i'm sam, my name is bob") == Some("Bob")
  {
    var t := "i'm sam, my name is bob";
    assert Lower(t) == t;
    SamMatch();
    assert Capture(t, NamePrefixes[0]) == Some(WordRun(t, 20));
    BobRun();
    BobTitle();
  }

  lemma SamMatch()
    ensures NameMatch("i'm sam, my name is bob", "my name is ") == Some(9)
  {
    var t, p := "i'm sam, my name is bob", "my name is ";
    assert NameAt(t, p, 9);
    forall j | 0 <= j < 9
      ensures !NameAt(t, p, j)
    {
      if j == 2 || j == 6 {
        MismatchAt(t, p, j, 1);
      } else {
        MismatchAt(t, p, j, 0);
      }
    }
  }

  /** A pattern does not occur where one of its characters differs from the text. */
  lemma MismatchAt(t: string, p: string, i: nat, k: nat)
    requires k < |p| && i + |p| <= |t| && t[i + k] != p[k]
    ensures !NameAt(t, p, i)
  {
    assert t[i..i + |p|][k] == t[i + k];
  }

  lemma BobRun()
    ensures WordRun("i'm sam, my name is bob", 20) == "bob"
  {
    var t := "i'm sam, my name is bob";
    assert t[20..] == "bob";
  }

  lemma BobTitle()
    ensures Title("bob") == "Bob"
  {
    TitleAt("bob", 0);
    TitleAt("bob", 1);
    TitleAt("bob", 2);
  }
}
