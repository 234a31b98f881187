/**
 * Input analysis (`analyze_input`): the knowledge-base categories the message matches,
 * its keywords, its sentiment, the capitalised words that look like names, and its intent.
 */
module Analyzer {
  import opened Options
  import opened Text
  import opened Lexicon

  /**
   * The optional NLTK backend. Its calls are foreign code, so they are parameters here:
   * `tokenize` is `word_tokenize` and `lemmatize` WordNet's lemmatizer (each None when it
   * raises), `stopWords` the English stop-word list, and `polarity` the compound VADER score of a text
   * (None when the analyzer raises). Without the backend the engine runs in basic mode.
   */
  datatype Nlp = Nlp(
    tokenize: string -> Option<seq<string>>,
    lemmatize: string -> Option<string>,
    stopWords: set<string>,
    polarity: string -> Option<real>)

  /** The intent of a message: a category name, "question", "request" or "unknown". */
  datatype Intent = Category(name: string) | Question | Request | Unknown

  /** The result of analysing one message. */
  datatype Analysis = Analysis(
    categories: seq<string>,
    keywords: seq<string>,
    sentiment: Option<real>,
    intent: Intent,
    entities: seq<string>)

  // ---------------------------------------------------------------------------
  // Categories
  // ---------------------------------------------------------------------------

  /** One of the alternatives of a `\b(...)\b` pattern occurs in `t` as a whole word. */
  predicate PatternMatches(t: string, alternatives: seq<string>) {
    exists k | 0 <= k < |alternatives| :: HasWholeWord(t, alternatives[k])
  }

  /** One of the category's patterns matches `t`. */
  predicate EntryMatches(t: string, e: Entry) {
    exists k | 0 <= k < |e.patterns| :: PatternMatches(t, e.patterns[k])
  }

  /** The knowledge-base entry at `i` is not `default` and matches the lower-cased text `t`. */
  predicate MatchedAt(kb: seq<Entry>, t: string, i: int) {
    0 <= i < |kb| && kb[i].name != DefaultName && EntryMatches(t, kb[i])
  }

  /** The positions of the matched entries, in knowledge-base order. */
  function MatchedIndices(kb: seq<Entry>, t: string): seq<nat> {
    SelectIndices(0, |kb|, i => MatchedAt(kb, t, i))
  }

  /** The categories of the analysis: the names of the matched entries, in knowledge-base order. */
  function Categories(kb: seq<Entry>, t: string): seq<string> {
    var idx := MatchedIndices(kb, t);
    seq(|idx|, k requires 0 <= k < |idx| => kb[idx[k]].name)
  }

  /**
   * The categories are exactly the names of the non-default entries that match, listed in
   * knowledge-base order: `Categories(kb, t)[k]` is the name of the `k`-th matching entry.
   * So `default` is never listed, and with distinct names no category is listed twice.
   */
  lemma CategoriesSpec(kb: seq<Entry>, t: string)
    requires DistinctNames(kb)
    ensures var r, idx := Categories(kb, t), MatchedIndices(kb, t);
      && |r| == |idx|
      && (forall k :: 0 <= k < |r| ==> idx[k] < |kb| && r[k] == kb[idx[k]].name && MatchedAt(kb, t, idx[k]))
      && (forall k, l :: 0 <= k < l < |r| ==> idx[k] < idx[l])
      && (forall i :: MatchedAt(kb, t, i) ==> i in idx)
      && DefaultName !in r
      && (forall k, l :: 0 <= k < l < |r| ==> r[k] != r[l])
  {
    var r, idx := Categories(kb, t), MatchedIndices(kb, t);
    forall k | 0 <= k < |r|
      ensures MatchedAt(kb, t, idx[k])
    {
      assert (i => MatchedAt(kb, t, i))(idx[k]);
    }
    forall i | MatchedAt(kb, t, i)
      ensures i in idx
    {
      assert (i => MatchedAt(kb, t, i))(i);
    }
  }

  /** The first listed category is the first entry of the knowledge base that matches. */
  lemma PrimaryCategoryIsFirstMatch(kb: seq<Entry>, t: string, i: nat)
    requires DistinctNames(kb)
    requires MatchedAt(kb, t, i)
    requires forall j :: 0 <= j < i ==> !MatchedAt(kb, t, j)
    ensures Categories(kb, t) != [] && Categories(kb, t)[0] == kb[i].name
  {
    CategoriesSpec(kb, t);
    var idx := MatchedIndices(kb, t);
    assert i in idx;
    assert MatchedAt(kb, t, idx[0]);
  }

  // ---------------------------------------------------------------------------
  // Keywords
  // ---------------------------------------------------------------------------

  /** The word is non-empty and made only of letters. */
  predicate IsAlpha(w: string) {
    w != [] && forall c :: c in w ==> IsLetter(c)
  }

  /** A token that survives the keyword filter: alphabetic and not a stop word. */
  predicate IsContentWord(nlp: Nlp, w: string) {
    IsAlpha(w) && w !in nlp.stopWords
  }

  /** The tokens that survive the keyword filter, in token order and with repeats. */
  function ContentWords(nlp: Nlp, tokens: seq<string>): seq<string> {
    Filter(tokens, w => IsContentWord(nlp, w))
  }

  /**
   * The content words of a token list are those of its parts, one after the other, and a
   * single token is kept exactly when it is a content word: so they are the content tokens
   * in their original order, with repeats.
   */
  lemma ContentWordsSpec(nlp: Nlp, a: seq<string>, b: seq<string>, w: string)
    ensures ContentWords(nlp, a + b) == ContentWords(nlp, a) + ContentWords(nlp, b)
    ensures ContentWords(nlp, [w]) == if IsContentWord(nlp, w) then [w] else []
  {
    FilterAppend(a, b, x => IsContentWord(nlp, x));
    FilterSingle(w, x => IsContentWord(nlp, x));
  }

  /** The lemmas of `words`, in order, or None when the lemmatizer fails on any of them. */
  function Lemmas(nlp: Nlp, words: seq<string>): (r: Option<seq<string>>)
    ensures r.Some? <==> forall k :: 0 <= k < |words| ==> nlp.lemmatize(words[k]).Some?
    ensures r.Some? ==>
      (|r.value| == |words| && forall k :: 0 <= k < |words| ==> r.value[k] == nlp.lemmatize(words[k]).value)
  {
    if words == [] then Some([])
    else
      var rest := Lemmas(nlp, words[1..]);
      assert forall k :: 1 <= k < |words| ==> words[k] == words[1..][k - 1];
      match nlp.lemmatize(words[0])
      case None => None
      case Some(l) =>
        match rest
        case None => None
        case Some(ls) => Some([l] + ls)
  }

  /**
   * The keyword list: the lemmas of the content words cut to the first ten, or None when
   * lemmatizing one of the content words raises (which aborts the whole list).
   */
  function Keywords(nlp: Nlp, tokens: seq<string>): (r: Option<seq<string>>)
    ensures r.Some? ==> |r.value| <= KeywordLimit
  {
    match Lemmas(nlp, ContentWords(nlp, tokens))
    case None => None
    case Some(lemmas) => Some(if |lemmas| <= KeywordLimit then lemmas else lemmas[..KeywordLimit])
  }

  /**
   * The keywords exist exactly when every content word can be lemmatized; they are then the
   * lemmas of the first ten content words (all of them when there are fewer), in token order
   * and with repeats, so each is the lemma of an alphabetic, non-stop-word token.
   */
  lemma KeywordsSpec(nlp: Nlp, tokens: seq<string>)
    ensures var kept, r := ContentWords(nlp, tokens), Keywords(nlp, tokens);
      && (r.Some? <==> forall k :: 0 <= k < |kept| ==> nlp.lemmatize(kept[k]).Some?)
      && (r.Some? ==>
            && |r.value| == (if |kept| <= KeywordLimit then |kept| else KeywordLimit)
            && (forall k :: 0 <= k < |r.value| ==> r.value[k] == nlp.lemmatize(kept[k]).value)
            && forall k :: 0 <= k < |r.value| ==>
                 exists w :: w in tokens && IsContentWord(nlp, w) && nlp.lemmatize(w) == Some(r.value[k]))
  {
    var kept := ContentWords(nlp, tokens);
    var r := Keywords(nlp, tokens);
    FilterCounts(tokens, x => IsContentWord(nlp, x));
    if r.Some? {
      forall k | 0 <= k < |r.value|
        ensures exists w :: w in tokens && IsContentWord(nlp, w) && nlp.lemmatize(w) == Some(r.value[k])
      {
        var w := kept[k];
        assert w in kept;
        assert multiset(kept)[w] > 0;
        assert (x => IsContentWord(nlp, x))(w);
        assert multiset(tokens)[w] > 0;
      }
    }
  }

  /**
   * The keywords and the sentiment: both need the backend; a failure of the tokenizer or of
   * the lemmatizer leaves both unset; the sentiment is computed only when mood detection is on.
   */
  function Features(text: string, nlp: Option<Nlp>, moodDetection: bool): (seq<string>, Option<real>) {
    match nlp
    case None => ([], None)
    case Some(n) =>
      match n.tokenize(Lower(text))
      case None => ([], None)
      case Some(tokens) =>
        match Keywords(n, tokens)
        case None => ([], None)
        case Some(keywords) => (keywords, if moodDetection then n.polarity(text) else None)
  }

  /**
   * Without the backend, or when the tokenizer or the lemmatizer fails, there are neither
   * keywords nor a sentiment; otherwise the keywords are those of the tokens and the sentiment
   * is the text's polarity, computed only when mood detection is on.
   */
  lemma FeaturesSpec(text: string, nlp: Option<Nlp>, moodDetection: bool)
    ensures var (keywords, sentiment) := Features(text, nlp, moodDetection);
      if nlp.None? || nlp.value.tokenize(Lower(text)).None?
        || Keywords(nlp.value, nlp.value.tokenize(Lower(text)).value).None?
      then keywords == [] && sentiment.None?
      else
        && keywords == Keywords(nlp.value, nlp.value.tokenize(Lower(text)).value).value
        && sentiment == (if moodDetection then nlp.value.polarity(text) else None)
  {
  }

  // ---------------------------------------------------------------------------
  // Entities
  // ---------------------------------------------------------------------------

  /**
   * The word at `i` counts as an entity: it is not the first word, it starts with a capital,
   * and the word before it does not end a sentence.
   */
  predicate EntityAt(words: seq<string>, i: int) {
    0 < i < |words| && words[i] != [] && IsUpper(words[i][0])
    && words[i - 1] != [] && words[i - 1][|words[i - 1]| - 1] !in ".!?"
  }

  function EntityIndices(words: seq<string>): seq<nat> {
    SelectIndices(0, |words|, i => EntityAt(words, i))
  }

  /** The entities of the analysis, from the whitespace-separated words of the message. */
  function Entities(words: seq<string>): seq<string> {
    var idx := EntityIndices(words);
    seq(|idx|, k requires 0 <= k < |idx| => words[idx[k]])
  }

  /**
   * The entities are, in order and with repetitions, exactly the words at the positions
   * where `EntityAt` holds.
   */
  lemma EntitiesSpec(words: seq<string>)
    ensures var r, idx := Entities(words), EntityIndices(words);
      && |r| == |idx|
      && (forall k :: 0 <= k < |r| ==> idx[k] < |words| && r[k] == words[idx[k]] && EntityAt(words, idx[k]))
      && (forall k, l :: 0 <= k < l < |r| ==> idx[k] < idx[l])
      && (forall i :: EntityAt(words, i) ==> i in idx)
  {
    var idx := EntityIndices(words);
    forall k | 0 <= k < |idx|
      ensures EntityAt(words, idx[k])
    {
      assert (i => EntityAt(words, i))(idx[k]);
    }
    forall i | EntityAt(words, i)
      ensures i in idx
    {
      assert (j => EntityAt(words, j))(i);
    }
  }

  // ---------------------------------------------------------------------------
  // Intent and the whole analysis
  // ---------------------------------------------------------------------------

  /** The first matched category; else a question or request cue; else unknown. */
  function ResolveIntent(categories: seq<string>, lowered: string): Intent {
    if categories != [] then Category(categories[0])
    else if ContainsAny(lowered, QuestionCues) then Question
    else if ContainsAny(lowered, RequestCues) then Request
    else Unknown
  }

  /**
   * `analyze_input(text)` over the knowledge base `kb`, with the backend and the
   * mood-detection setting as parameters.
   */
  function Analyze(kb: seq<Entry>, text: string, nlp: Option<Nlp>, moodDetection: bool): (a: Analysis)
    ensures |a.keywords| <= KeywordLimit
    ensures nlp.None? ==> a.keywords == [] && a.sentiment.None?
    ensures a.sentiment.Some? ==> nlp.Some? && moodDetection && a.sentiment == nlp.value.polarity(text)
  {
    var lowered := Lower(text);
    var categories := Categories(kb, lowered);
    var (keywords, sentiment) := Features(text, nlp, moodDetection);
    Analysis(categories, keywords, sentiment, ResolveIntent(categories, lowered), Entities(Split(text)))
  }

  /**
   * The intent is the first matched category when there is one; otherwise "question" exactly
   * when a question cue is a substring of the lower-cased text, then "request" for a request
   * cue, else "unknown". A category intent is never `default`.
   */
  lemma IntentSpec(kb: seq<Entry>, text: string, nlp: Option<Nlp>, moodDetection: bool)
    requires DistinctNames(kb)
    ensures var a := Analyze(kb, text, nlp, moodDetection); var t := Lower(text);
      && (a.intent.Category? <==> a.categories != [])
      && (a.intent.Category? ==> a.intent.name == a.categories[0] && a.intent.name != DefaultName)
      && (a.intent == Question <==>
            a.categories == [] && exists k :: 0 <= k < |QuestionCues| && Contains(t, QuestionCues[k]))
      && (a.intent == Request <==>
            a.categories == [] && (forall k :: 0 <= k < |QuestionCues| ==> !Contains(t, QuestionCues[k]))
            && exists k :: 0 <= k < |RequestCues| && Contains(t, RequestCues[k]))
  {
    var t := Lower(text);
    var a := Analyze(kb, text, nlp, moodDetection);
    assert a.categories == Categories(kb, t) && a.intent == ResolveIntent(a.categories, t);
    ResolveIntentSpec(a.categories, t);
    DefaultNeverListed(kb, t);
  }

  /** The intent rule on its own: category first, then question cues, then request cues. */
  lemma ResolveIntentSpec(categories: seq<string>, t: string)
    ensures var intent := ResolveIntent(categories, t);
      && (intent.Category? <==> categories != [])
      && (intent.Category? ==> intent.name == categories[0])
      && (intent == Question <==>
            categories == [] && exists k :: 0 <= k < |QuestionCues| && Contains(t, QuestionCues[k]))
      && (intent == Request <==>
            categories == [] && (forall k :: 0 <= k < |QuestionCues| ==> !Contains(t, QuestionCues[k]))
            && exists k :: 0 <= k < |RequestCues| && Contains(t, RequestCues[k]))
  {
  }

  /** `default` is never listed among the categories. */
  lemma DefaultNeverListed(kb: seq<Entry>, t: string)
    requires DistinctNames(kb)
    ensures DefaultName !in Categories(kb, t)
  {
    CategoriesSpec(kb, t);
  }

  /** The cues are plain substrings: "somewhat" asks a question, "history" does not greet. */
  lemma SubstringCues()
    ensures ResolveIntent([], "somewhat") == Question
    ensures !HasWholeWord("history", "hi")
  {
    assert OccursAt("somewhat", "what", 4);
    assert Contains("somewhat", QuestionCues[1]);
    HiIsNotInHistory();
  }

  /** "Hello there!" is analysed as a greeting. */
  lemma HelloIsAGreeting(nlp: Option<Nlp>, moodDetection: bool)
    ensures var a := Analyze(KnowledgeBase, "Hello there!", nlp, moodDetection);
      a.categories != [] && a.categories[0] == "greetings" && a.intent == Category("greetings")
  {
    var t := Lower("Hello there!");
    assert t == "hello there!";
    assert WholeWordAt(t, "hello", 0);
    assert HasWholeWord(t, KnowledgeBase[0].patterns[0][1]);
    assert MatchedAt(KnowledgeBase, t, 0);
    KnowledgeBaseNames();
    PrimaryCategoryIsFirstMatch(KnowledgeBase, t, 0);
  }
}
