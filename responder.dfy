/**
 * Reply selection (`generate_response`) and reply customisation (`customize_response`).
 * The random choices are injected as `Rolls`; the one state change of reply selection,
 * remembering the user's name, is returned as a value here and applied by `Session.ChatBot`.
 */
module Responder {
  import opened Options
  import opened Text
  import opened Lexicon
  import opened Analyzer
  import opened Names

  datatype Personality = Friendly | Professional | Humorous | Technical
  datatype Style = Brief | Detailed | Creative

  /** The bot's settings: personality, response style, learning mode and mood detection. */
  datatype Settings = Settings(personality: Personality, style: Style, learningMode: bool, moodDetection: bool)

  const InitialSettings: Settings := Settings(Friendly, Detailed, true, true)

  /**
   * The outcomes of the random calls made while producing one reply: the number from which
   * `random.choice` picks its template (the template at `pick` modulo the pool's size),
   * whether `random.random() < 0.3` held for the humorous personality and which joke was
   * chosen, and whether `random.random() < 0.4` held for the creative style and which
   * flourish was chosen.
   */
  datatype Rolls = Rolls(pick: nat, humour: bool, joke: nat, flourishing: bool, flourish: nat)

  predicate ValidRolls(rolls: Rolls) {
    rolls.joke < |Jokes| && rolls.flourish < |Flourishes|
  }

  // ---------------------------------------------------------------------------
  // Customisation
  // ---------------------------------------------------------------------------

  /** The mood acknowledgment: a prefix when the compound score is beyond the thresholds. */
  function WithMood(reply: string, sentiment: Option<real>, moodDetection: bool): (r: string)
  {
    if sentiment.Some? && moodDetection then
      if sentiment.value < LowMood then LowMoodPrefix + reply
      else if sentiment.value > HighMood then HighMoodPrefix + reply
      else reply
    else reply
  }

  /**
   * The reply is changed only when a sentiment is present, mood detection is on and the
   * compound score lies outside [-0.5, 0.5]; the change is to put the matching prefix in front.
   */
  lemma MoodPrefixSpec(reply: string, sentiment: Option<real>, moodDetection: bool)
    ensures var r := WithMood(reply, sentiment, moodDetection);
      && (r != reply <==> sentiment.Some? && moodDetection && (sentiment.value < LowMood || sentiment.value > HighMood))
      && (r != reply ==> r == (if sentiment.value < LowMood then LowMoodPrefix else HighMoodPrefix) + reply)
  {
    var r := WithMood(reply, sentiment, moodDetection);
    if r != reply {
      assert |r| > |reply|;
    }
  }

  /** The professional rewrite: every '!' becomes a '.', and the two glyphs are deleted. */
  function Professionalize(reply: string): string {
    RemoveChar(RemoveChar(ReplaceChar(reply, '!', '.'), SmilingFace), HuggingFace)
  }

  /** Replacing `from` by `to` moves every occurrence of `from` to the count of `to`. */
  lemma {:induction false} ReplaceCharCount(s: string, from: char, to: char, x: char)
    requires from != to
    ensures multiset(ReplaceChar(s, from, to))[x] ==
      if x == from then 0
      else if x == to then multiset(s)[to] + multiset(s)[from]
      else multiset(s)[x]
  {
    if s != [] {
      var c := if s[0] == from then to else s[0];
      var r, rest := ReplaceChar(s, from, to), ReplaceChar(s[1..], from, to);
      assert multiset(r)[x] == multiset{c}[x] + multiset(rest)[x] by {
        ReplaceCharCons(s, from, to);
      }
      assert && multiset(s)[x] == multiset{s[0]}[x] + multiset(s[1..])[x]
             && multiset(s)[from] == multiset{s[0]}[from] + multiset(s[1..])[from]
             && multiset(s)[to] == multiset{s[0]}[to] + multiset(s[1..])[to] by {
        assert s == [s[0]] + s[1..];
      }
      ReplaceCharCount(s[1..], from, to, x);
    }
  }

  lemma ReplaceCharCons(s: string, from: char, to: char)
    requires s != []
    ensures ReplaceChar(s, from, to) == [if s[0] == from then to else s[0]] + ReplaceChar(s[1..], from, to)
  {
  }

  lemma ReplaceCharCounts(s: string, from: char, to: char)
    requires from != to
    ensures var r := ReplaceChar(s, from, to);
      && multiset(r)[from] == 0
      && multiset(r)[to] == multiset(s)[to] + multiset(s)[from]
      && forall x :: x != from && x != to ==> multiset(r)[x] == multiset(s)[x]
  {
    ReplaceCharCount(s, from, to, from);
    ReplaceCharCount(s, from, to, to);
    forall x | x != from && x != to
      ensures multiset(ReplaceChar(s, from, to))[x] == multiset(s)[x]
    {
      ReplaceCharCount(s, from, to, x);
    }
  }

  /**
   * A professional reply has no '!' and neither of the two glyphs; each '!' became a '.',
   * and every other character keeps its number of occurrences.
   */
  lemma ProfessionalSpec(reply: string)
    ensures var r := Professionalize(reply);
      && '!' !in r && SmilingFace !in r && HuggingFace !in r
      && multiset(r)['.'] == multiset(reply)['.'] + multiset(reply)['!']
      && forall x :: x !in {'!', '.', SmilingFace, HuggingFace} ==> multiset(r)[x] == multiset(reply)[x]
  {
    var s1 := ReplaceChar(reply, '!', '.');
    ReplaceCharCounts(reply, '!', '.');
    var s2 := RemoveChar(s1, SmilingFace);
    assert '!' !in s1;
    assert '!' !in s2 by {
      assert multiset(s2)['!'] == multiset(s1)['!'];
    }
    var r := RemoveChar(s2, HuggingFace);
    assert multiset(r)['!'] == multiset(s2)['!'];
    assert SmilingFace !in r by {
      assert multiset(r)[SmilingFace] == multiset(s2)[SmilingFace];
    }
  }

  /** The personality rewrite. */
  function WithPersonality(reply: string, personality: Personality, rolls: Rolls): (r: string)
    requires ValidRolls(rolls)
  {
    match personality
    case Friendly => reply
    case Professional => Professionalize(reply)
    case Humorous => if rolls.humour then reply + Jokes[rolls.joke] else reply
    case Technical =>
      if ContainsAny(Lower(reply), TechnicalCues) then reply + TechnicalSuffix else reply
  }

  /** The style rewrite: brief keeps the text before the first '.' and ends it with a '.'. */
  function WithStyle(reply: string, style: Style, rolls: Rolls): (r: string)
    requires ValidRolls(rolls)
  {
    match style
    case Brief => BeforeFirst(reply, '.') + "."
    case Detailed => reply
    case Creative => if rolls.flourishing then reply + Flourishes[rolls.flourish] else reply
  }

  /** `customize_response`: mood prefix, then personality, then style. */
  function Customize(base: string, sentiment: Option<real>, settings: Settings, rolls: Rolls): string
    requires ValidRolls(rolls)
  {
    var moody := WithMood(base, sentiment, settings.moodDetection);
    WithStyle(WithPersonality(moody, settings.personality, rolls), settings.style, rolls)
  }

  /**
   * With the brief style the customised reply holds exactly one '.', its last character, and
   * what precedes it is the start of the reply as it was before the style rewrite.
   */
  lemma BriefSpec(base: string, sentiment: Option<real>, settings: Settings, rolls: Rolls)
    requires ValidRolls(rolls) && settings.style == Brief
    ensures var r := Customize(base, sentiment, settings, rolls);
      var before := WithPersonality(WithMood(base, sentiment, settings.moodDetection), settings.personality, rolls);
      && |r| > 0 && r[|r| - 1] == '.' && multiset(r)['.'] == 1
      && |r| - 1 <= |before| && r[..|r| - 1] == before[..|r| - 1]
      && (|r| - 1 == |before| || before[|r| - 1] == '.')
  {
    var before := WithPersonality(WithMood(base, sentiment, settings.moodDetection), settings.personality, rolls);
    var head := BeforeFirst(before, '.');
    var r := head + ".";
    assert r[..|r| - 1] == head;
    assert multiset(r) == multiset(head) + multiset{'.'};
  }

  /**
   * With the professional personality no '!' of the template or of the mood prefix survives:
   * the reply has no '!' at all unless a creative flourish was added, and then the flourish
   * is the only place a '!' can come from.
   */
  lemma ProfessionalCustomizeSpec(base: string, sentiment: Option<real>, settings: Settings, rolls: Rolls)
    requires ValidRolls(rolls) && settings.personality == Professional
    ensures var r := Customize(base, sentiment, settings, rolls);
      if settings.style == Creative && rolls.flourishing then
        exists k :: 0 <= k <= |r| && '!' !in r[..k] && r[k..] == Flourishes[rolls.flourish]
      else '!' !in r
  {
    var moody := WithMood(base, sentiment, settings.moodDetection);
    ProfessionalSpec(moody);
    StyleAddsNoBang(Professionalize(moody), settings.style, rolls);
  }

  /** The style rewrite brings in a '!' only through a creative flourish, at the end. */
  lemma StyleAddsNoBang(p: string, style: Style, rolls: Rolls)
    requires ValidRolls(rolls) && '!' !in p
    ensures var r := WithStyle(p, style, rolls);
      if style == Creative && rolls.flourishing then
        exists k :: 0 <= k <= |r| && '!' !in r[..k] && r[k..] == Flourishes[rolls.flourish]
      else '!' !in r
  {
    var r := WithStyle(p, style, rolls);
    match style
    case Brief =>
      var head := BeforeFirst(p, '.');
      assert p == head + p[|head|..];
      assert multiset(p) == multiset(head) + multiset(p[|head|..]);
      assert multiset(r) == multiset(head) + multiset{'.'};
    case Detailed =>
    case Creative =>
      if rolls.flourishing {
        assert r[..|p|] == p && r[|p|..] == Flourishes[rolls.flourish];
      }
  }

  /**
   * The creative style keeps the reply as a prefix and changes it exactly when its 40% roll
   * succeeded, by appending one of the flourishes; the detailed style and the friendly
   * personality leave the reply as it is.
   */
  lemma CreativeSpec(reply: string, rolls: Rolls)
    requires ValidRolls(rolls)
    ensures var r := WithStyle(reply, Creative, rolls);
      && |r| >= |reply| && r[..|reply|] == reply
      && (r != reply <==> rolls.flourishing)
      && (r != reply ==> r[|reply|..] in Flourishes)
    ensures WithStyle(reply, Detailed, rolls) == reply
    ensures WithPersonality(reply, Friendly, rolls) == reply
  {
    var r := WithStyle(reply, Creative, rolls);
    if rolls.flourishing {
      assert Flourishes[rolls.flourish] != [];
      assert r[|reply|..] == Flourishes[rolls.flourish];
    }
  }

  /** The humorous personality adds the chosen joke exactly when its 30% roll succeeded. */
  lemma HumorousSpec(reply: string, rolls: Rolls)
    requires ValidRolls(rolls)
    ensures var r := WithPersonality(reply, Humorous, rolls);
      && |r| >= |reply| && r[..|reply|] == reply
      && (r != reply <==> rolls.humour)
      && (r != reply ==> r[|reply|..] in Jokes)
  {
    var r := WithPersonality(reply, Humorous, rolls);
    if rolls.humour {
      assert Jokes[rolls.joke] != [];
      assert r[|reply|..] == Jokes[rolls.joke];
    }
  }

  /**
   * The technical personality appends its follow-up exactly when "technology", "programming"
   * or "code" occurs in the lower-cased reply, and otherwise leaves the reply alone.
   */
  lemma TechnicalSpec(reply: string, rolls: Rolls)
    requires ValidRolls(rolls)
    ensures var r := WithPersonality(reply, Technical, rolls);
      && r[..|reply|] == reply
      && (r != reply <==> exists k :: 0 <= k < |TechnicalCues| && Contains(Lower(reply), TechnicalCues[k]))
      && (r != reply ==> r[|reply|..] == TechnicalSuffix)
  {
  }

  // ---------------------------------------------------------------------------
  // Reply selection
  // ---------------------------------------------------------------------------

  /** Where a templated reply was taken from. */
  datatype Source = FromCategory(category: string) | FromTopic(topic: string) | FromQuestion | FromRequest | FromDefault

  /** What reply selection decided: a pool to pick a template from, or the name acknowledgment. */
  datatype Plan = Templates(source: Source, pool: seq<string>) | Acknowledge(name: string)

  /** The reply pool of the knowledge-base entry called `name`, when there is one. */
  function Lookup(kb: seq<Entry>, name: string): (r: Option<seq<string>>)
    ensures r.Some? <==> exists i :: 0 <= i < |kb| && kb[i].name == name
    ensures r.Some? ==> exists i :: 0 <= i < |kb| && kb[i].name == name && r.value == kb[i].responses
  {
    if kb == [] then None
    else if kb[0].name == name then Some(kb[0].responses)
    else Lookup(kb[1..], name)
  }

  lemma {:induction false} LookupFinds(kb: seq<Entry>, i: nat)
    requires i < |kb| && DistinctNames(kb)
    ensures Lookup(kb, kb[i].name) == Some(kb[i].responses)
  {
    if i > 0 {
      LookupFinds(kb[1..], i - 1);
    }
  }

  /** The first advanced topic whose name is a substring of the lower-cased text. */
  function FirstTopic(topics: seq<Topic>, lowered: string): (r: Option<Topic>)
    ensures r.Some? ==> r.value in topics && Contains(lowered, r.value.name)
    ensures r.None? <==> forall k :: 0 <= k < |topics| ==> !Contains(lowered, topics[k].name)
  {
    if topics == [] then None
    else if Contains(lowered, topics[0].name) then Some(topics[0])
    else FirstTopic(topics[1..], lowered)
  }

  /** A stored name counts only when it is set and non-empty (Python truthiness). */
  predicate Known(name: Option<string>) {
    name.Some? && name.value != ""
  }

  /** The user's name and a comma before question and request templates, once the name is known. */
  function NamePrefix(name: Option<string>): string {
    if Known(name) then name.value + ", " else ""
  }

  /**
   * Without a known name the question and request pools are the bare templates; with one,
   * every template is preceded by the name and a comma.
   */
  lemma NamePrefixSpec(name: Option<string>)
    ensures !Known(name) ==>
      QuestionPool(NamePrefix(name)) == QuestionTemplates && RequestPool(NamePrefix(name)) == RequestTemplates
    ensures Known(name) ==>
      && (forall k :: 0 <= k < |QuestionTemplates| ==>
            QuestionPool(NamePrefix(name))[k] == name.value + ", " + QuestionTemplates[k])
      && (forall k :: 0 <= k < |RequestTemplates| ==>
            RequestPool(NamePrefix(name))[k] == name.value + ", " + RequestTemplates[k])
  {
    if !Known(name) {
      NoPrefix(QuestionTemplates);
      NoPrefix(RequestTemplates);
    }
  }

  lemma NoPrefix(templates: seq<string>)
    ensures Prefixed("", templates) == templates
  {
    var r := Prefixed("", templates);
    forall k | 0 <= k < |templates|
      ensures r[k] == templates[k]
    {
      assert "" + templates[k] == templates[k];
    }
  }

  /** The name the message teaches, when no name is known yet and a self-introduction cue occurs. */
  function NameToLearn(text: string, name: Option<string>): Option<string> {
    if !Known(name) && ContainsAny(Lower(text), NameCues) then ExtractName(text) else None
  }

  /** The default pool: the replies of the entry named `default`. */
  function DefaultPool(kb: seq<Entry>): seq<string> {
    match Lookup(kb, DefaultName)
    case Some(pool) => pool
    case None => []
  }

  /**
   * The decision of `generate_response` over the bot's tables `kb` and `topics`: the primary
   * category's pool, else the first advanced topic's pool, else the name acknowledgment, else
   * the question, request or default pool.
   */
  function PlanReply(kb: seq<Entry>, topics: seq<Topic>, text: string, a: Analysis, name: Option<string>): Plan {
    var primary := if a.categories != [] then Lookup(kb, a.categories[0]) else None;
    if primary.Some? then Templates(FromCategory(a.categories[0]), primary.value)
    else
      match FirstTopic(topics, Lower(text))
      case Some(topic) => Templates(FromTopic(topic.name), topic.responses)
      case None => Fallback(kb, a.intent, NameToLearn(text, name), name)
  }

  /**
   * The last steps of reply selection: acknowledge the name just learned, else answer from the
   * question, request or default pool as the intent says.
   */
  function Fallback(kb: seq<Entry>, intent: Intent, learned: Option<string>, name: Option<string>): Plan {
    if learned.Some? && learned.value != "" then Acknowledge(learned.value)
    else if intent == Question then Templates(FromQuestion, QuestionPool(NamePrefix(name)))
    else if intent == Request then Templates(FromRequest, RequestPool(NamePrefix(name)))
    else Templates(FromDefault, DefaultPool(kb))
  }

  /** The rolls are valid and a template pool to pick from is non-empty (`random.choice` needs one). */
  predicate RollsFit(rolls: Rolls, plan: Plan) {
    ValidRolls(rolls) && (plan.Templates? ==> plan.pool != [])
  }

  /** The template the random choice takes from the pool for the roll `pick`. */
  function Picked(pool: seq<string>, pick: nat): string
    requires pool != []
  {
    pool[pick % |pool|]
  }

  /** The picked template is one of the pool, and every template of the pool is picked by some roll. */
  lemma PickedSpec(pool: seq<string>, pick: nat)
    requires pool != []
    ensures Picked(pool, pick) in pool
    ensures forall k :: 0 <= k < |pool| ==> Picked(pool, k) == pool[k]
  {
    forall k | 0 <= k < |pool|
      ensures Picked(pool, k) == pool[k]
    {
      SmallRemainder(k, |pool|);
    }
  }

  lemma SmallRemainder(k: nat, n: nat)
    requires k < n
    ensures k % n == k
  {
  }

  /** The reply: the acknowledgment as it is, or the picked template customised. */
  function Respond(plan: Plan, sentiment: Option<real>, settings: Settings, rolls: Rolls): string
    requires RollsFit(rolls, plan)
  {
    match plan
    case Acknowledge(n) => Acknowledgment(n)
    case Templates(_, pool) => Customize(Picked(pool, rolls.pick), sentiment, settings, rolls)
  }

  /** The stored name after the reply: set by the acknowledgment, unchanged otherwise. */
  function NameAfter(plan: Plan, name: Option<string>): Option<string> {
    if plan.Acknowledge? then Some(plan.name) else name
  }

  /** The default pool of the bot's knowledge base is the `default` entry's list. */
  lemma DefaultPoolIsDefaultResponses()
    ensures DefaultPool(KnowledgeBase) == DefaultResponses
  {
    KnowledgeBaseNames();
    LookupFinds(KnowledgeBase, |KnowledgeBase| - 1);
  }

  /**
   * When a category matched, the reply comes from the pool of the first knowledge-base entry
   * that matched, whatever advanced topics, name cues or question cues the text also holds.
   */
  lemma {:induction false} CategoryComesFirst(kb: seq<Entry>, topics: seq<Topic>, text: string, a: Analysis, name: Option<string>)
    requires DistinctNames(kb) && a.categories == Categories(kb, Lower(text))
    ensures a.categories != [] ==>
      exists i :: MatchedAt(kb, Lower(text), i)
        && (forall j :: 0 <= j < i ==> !MatchedAt(kb, Lower(text), j))
        && PlanReply(kb, topics, text, a, name) == Templates(FromCategory(kb[i].name), kb[i].responses)
  {
    var t := Lower(text);
    CategoriesSpec(kb, t);
    if a.categories != [] {
      var idx := MatchedIndices(kb, t);
      var i := idx[0];
      forall j | 0 <= j < i
        ensures !MatchedAt(kb, t, j)
      {
        assert MatchedAt(kb, t, j) ==> j in idx;
      }
      LookupFinds(kb, i);
    }
  }

  /**
   * Without a matched category: the first advanced topic contained in the text wins; then
   * the name acknowledgment; then the question pool, the request pool or the default pool,
   * as the intent says.
   */
  lemma {:induction false} PriorityAfterCategories(kb: seq<Entry>, topics: seq<Topic>, text: string, a: Analysis, name: Option<string>)
    requires a.categories == []
    ensures var plan, t := PlanReply(kb, topics, text, a, name), Lower(text);
      && (forall k :: (0 <= k < |topics| && Contains(t, topics[k].name)
            && forall l :: 0 <= l < k ==> !Contains(t, topics[l].name)) ==>
            plan == Templates(FromTopic(topics[k].name), topics[k].responses))
      && (FirstTopic(topics, t).None? && NameToLearn(text, name).Some? ==>
            plan == Acknowledge(NameToLearn(text, name).value))
      && (FirstTopic(topics, t).None? && NameToLearn(text, name).None? ==>
            plan == if a.intent == Question then Templates(FromQuestion, QuestionPool(NamePrefix(name)))
                    else if a.intent == Request then Templates(FromRequest, RequestPool(NamePrefix(name)))
                    else Templates(FromDefault, DefaultPool(kb)))
  {
    var t := Lower(text);
    forall k | 0 <= k < |topics| && Contains(t, topics[k].name)
        && forall l :: 0 <= l < k ==> !Contains(t, topics[l].name)
      ensures FirstTopic(topics, t) == Some(topics[k])
    {
      FirstTopicIsFirst(topics, t, k);
    }
    var learned := NameToLearn(text, name);
    if learned.Some? {
      ExtractedNameIsWord(Lower(text), NamePrefixes);
    }
  }

  lemma {:induction false} FirstTopicIsFirst(topics: seq<Topic>, t: string, k: nat)
    requires k < |topics| && Contains(t, topics[k].name)
    requires forall l :: 0 <= l < k ==> !Contains(t, topics[l].name)
    ensures FirstTopic(topics, t) == Some(topics[k])
  {
    if k > 0 {
      assert !Contains(t, topics[0].name);
      assert forall l :: 0 <= l < k - 1 ==> topics[1..][l] == topics[l + 1];
      FirstTopicIsFirst(topics[1..], t, k - 1);
    }
  }

  /**
   * The name is learned only when none is known, a self-introduction cue occurs and
   * extraction succeeds; a known name is never replaced.
   */
  lemma NameLearnedOnce(kb: seq<Entry>, topics: seq<Topic>, text: string, a: Analysis, name: Option<string>)
    ensures var plan := PlanReply(kb, topics, text, a, name);
      && (plan.Acknowledge? ==>
            !Known(name) && ContainsAny(Lower(text), NameCues) && ExtractName(text) == Some(plan.name)
            && plan.name != "")
      && (Known(name) ==> NameAfter(plan, name) == name)
  {
  }

  /**
   * A text that matches no category, holds no advanced topic, no name cue and no question or
   * request cue has intent "unknown" and is answered from the default pool.
   */
  lemma FallbackToDefault(text: string, nlp: Option<Nlp>, moodDetection: bool, name: Option<string>)
    requires Categories(KnowledgeBase, Lower(text)) == []
    requires forall k :: 0 <= k < |AdvancedTopics| ==> !Contains(Lower(text), AdvancedTopics[k].name)
    requires forall k :: 0 <= k < |NameCues| ==> !Contains(Lower(text), NameCues[k])
    requires forall k :: 0 <= k < |QuestionCues| ==> !Contains(Lower(text), QuestionCues[k])
    requires forall k :: 0 <= k < |RequestCues| ==> !Contains(Lower(text), RequestCues[k])
    ensures var a := Analyze(KnowledgeBase, text, nlp, moodDetection);
      a.intent == Unknown && PlanReply(KnowledgeBase, AdvancedTopics, text, a, name) == Templates(FromDefault, DefaultResponses)
  {
    var a := Analyze(KnowledgeBase, text, nlp, moodDetection);
    KnowledgeBaseNames();
    IntentSpec(KnowledgeBase, text, nlp, moodDetection);
    DefaultPoolIsDefaultResponses();
    FallbackPlan(KnowledgeBase, AdvancedTopics, text, a, name);
  }

  lemma FallbackPlan(kb: seq<Entry>, topics: seq<Topic>, text: string, a: Analysis, name: Option<string>)
    requires a.categories == [] && a.intent == Unknown
    requires forall k :: 0 <= k < |topics| ==> !Contains(Lower(text), topics[k].name)
    requires forall k :: 0 <= k < |NameCues| ==> !Contains(Lower(text), NameCues[k])
    ensures PlanReply(kb, topics, text, a, name) == Templates(FromDefault, DefaultPool(kb))
  {
  }

  /**
   * The acknowledgment is returned without customisation, so it keeps its '!' even for the
   * professional personality and its full length for the brief style.
   */
  lemma AcknowledgmentUncustomized(n: string, sentiment: Option<real>, settings: Settings, rolls: Rolls)
    requires ValidRolls(rolls)
    ensures Respond(Acknowledge(n), sentiment, settings, rolls) == Acknowledgment(n)
    ensures '!' in Respond(Acknowledge(n), sentiment, settings, rolls)
  {
    var head := "Nice to meet you, " + n + "!";
    assert head[|head| - 1] == '!';
  }

  /** A pattern one of whose characters does not occur in the text does not occur in it. */
  lemma AbsentChar(t: string, p: string, j: nat)
    requires j < |p| && p[j] !in t
    ensures !Contains(t, p)
  {
    forall i | 0 <= i <= |t| - |p|
      ensures !OccursAt(t, p, i)
    {
      assert t[i + j] in t;
      assert t[i..i + |p|][j] == t[i + j];
    }
  }

  /** "My name is Alex", with no name known and no category matched, is acknowledged as "Alex". */
  lemma MyNameIsAlex(kb: seq<Entry>, a: Analysis)
    requires a.categories == []
    ensures PlanReply(kb, AdvancedTopics, "My name is Alex", a, None) == Acknowledge("Alex")
  {
    AlexLower();
    NoTopicInAlex();
    AlexName();
  }

  lemma AlexLower()
    ensures Lower("My name is Alex") == "my name is alex"
  {
  }

  lemma NoTopicInAlex()
    ensures FirstTopic(AdvancedTopics, "my name is alex").None?
  {
    var t := "my name is alex";
    AbsentChar(t, AdvancedTopics[0].name, 0);
    AbsentChar(t, AdvancedTopics[1].name, 1);
    AbsentChar(t, AdvancedTopics[2].name, 0);
  }

  lemma AlexName()
    ensures NameToLearn("My name is Alex", None) == Some("Alex")
  {
    var t := "my name is alex";
    AlexLower();
    assert OccursAt(t, NameCues[0], 0);
    assert NameAt(t, NamePrefixes[0], 0);
    assert NameMatch(t, NamePrefixes[0]) == Some(0);
    assert t[11..] == "alex";
    assert WordRun(t, 11) == "alex";
    TitleAt("alex", 0);
    TitleAt("alex", 1);
    TitleAt("alex", 2);
    TitleAt("alex", 3);
    assert Title("alex") == "Alex";
  }

  lemma FallbackPoolNonEmpty(kb: seq<Entry>, intent: Intent, learned: Option<string>, name: Option<string>)
    requires DefaultPool(kb) != []
    ensures var plan := Fallback(kb, intent, learned, name);
      plan.Templates? ==> plan.pool != []
  {
    ReplyPoolSizes(NamePrefix(name));
  }

  /**
   * What reply selection needs of the tables: distinct category names, non-empty pools and a
   * non-empty `default` pool.
   */
  predicate WellFormedTables(kb: seq<Entry>, topics: seq<Topic>) {
    && DistinctNames(kb)
    && (forall e :: e in kb ==> e.responses != [])
    && (forall t :: t in topics ==> t.responses != [])
    && DefaultPool(kb) != []
  }

  /** The bot's own tables are well formed. */
  lemma BotTablesWellFormed()
    ensures WellFormedTables(KnowledgeBase, AdvancedTopics)
  {
    KnowledgeBaseNames();
    PoolsNonEmpty();
    DefaultPoolIsDefaultResponses();
  }

  /** With well-formed tables every pool reply selection can choose is non-empty. */
  lemma PoolsOfPlansNonEmpty(kb: seq<Entry>, topics: seq<Topic>, text: string, a: Analysis, name: Option<string>)
    requires WellFormedTables(kb, topics)
    ensures var plan := PlanReply(kb, topics, text, a, name);
      plan.Templates? ==> plan.pool != []
  {
    var primary := if a.categories != [] then Lookup(kb, a.categories[0]) else None;
    if primary.Some? {
      var i :| 0 <= i < |kb| && kb[i].name == a.categories[0] && primary.value == kb[i].responses;
      assert kb[i] in kb;
    } else {
      var topic := FirstTopic(topics, Lower(text));
      if topic.Some? {
        assert topic.value in topics;
      } else {
        FallbackPoolNonEmpty(kb, a.intent, NameToLearn(text, name), name);
      }
    }
  }

  /** Every templated reply is the customisation of one of the templates of the selected pool. */
  lemma TemplatedReplyFromPool(plan: Plan, sentiment: Option<real>, settings: Settings, rolls: Rolls)
    requires RollsFit(rolls, plan) && plan.Templates?
    ensures exists k :: (0 <= k < |plan.pool|
      && Respond(plan, sentiment, settings, rolls) == Customize(plan.pool[k], sentiment, settings, rolls))
  {
    var k := rolls.pick % |plan.pool|;
    assert Respond(plan, sentiment, settings, rolls) == Customize(plan.pool[k], sentiment, settings, rolls);
  }

  /**
   * Without the NLP backend there is no sentiment, so no mood prefix is added whatever the
   * mood-detection setting.
   */
  lemma NoBackendNoMoodPrefix(kb: seq<Entry>, text: string, moodDetection: bool, reply: string)
    ensures var a := Analyze(kb, text, None, moodDetection);
      a.sentiment.None? && WithMood(reply, a.sentiment, moodDetection) == reply
  {
  }

  /** "Hello there!" is answered from the greetings pool. */
  lemma HelloReply(nlp: Option<Nlp>, moodDetection: bool, name: Option<string>)
    ensures var a := Analyze(KnowledgeBase, "Hello there!", nlp, moodDetection);
      PlanReply(KnowledgeBase, AdvancedTopics, "Hello there!", a, name) ==
        Templates(FromCategory("greetings"), KnowledgeBase[0].responses)
  {
    var a := Analyze(KnowledgeBase, "Hello there!", nlp, moodDetection);
    HelloIsAGreeting(nlp, moodDetection);
    KnowledgeBaseNames();
    LookupFinds(KnowledgeBase, 0);
  }

  /** A prefix that does not occur in the text does not match there. */
  lemma AbsentPrefixNoMatch(t: string, p: string)
    requires !Contains(t, p)
    ensures NameMatch(t, p).None?
  {
  }

  /**
   * "call me" is a name pattern but not a self-introduction cue: "call me bob" yields the
   * name "Bob", yet reply selection never tries to learn it.
   */
  lemma CallMeIsNotACue()
    ensures ExtractName("call me bob") == Some("Bob")
    ensures NameToLearn("call me bob", None).None?
  {
    CallMeHasNoCue();
    CallMeExtracts();
  }

  lemma CallMeHasNoCue()
    ensures !ContainsAny(Lower("call me bob"), NameCues)
  {
    var t := "call me bob";
    assert Lower(t) == t;
    AbsentChar(t, NameCues[0], 1);
    AbsentChar(t, NameCues[1], 0);
    AbsentChar(t, NameCues[2], 0);
  }

  lemma CallMeExtracts()
    ensures ExtractName("call me bob") == Some("Bob")
  {
    var t := "call me bob";
    CallMeLower();
    CallMeNoEarlierPrefix();
    CallMeBob();
    FirstMatchingPrefixWins(t, NamePrefixes, 3);
  }

  lemma CallMeLower()
    ensures Lower("call me bob") == "call me bob"
  {
  }

  lemma CallMeNoEarlierPrefix()
    ensures forall l :: 0 <= l < 3 ==> NameMatch("call me bob", NamePrefixes[l]).None?
  {
    var t := "call me bob";
    AbsentChar(t, NamePrefixes[0], 1);
    AbsentChar(t, NamePrefixes[1], 0);
    AbsentChar(t, NamePrefixes[2], 0);
    AbsentPrefixNoMatch(t, NamePrefixes[0]);
    AbsentPrefixNoMatch(t, NamePrefixes[1]);
    AbsentPrefixNoMatch(t, NamePrefixes[2]);
  }

  lemma CallMeBob()
    ensures NameMatch("call me bob", NamePrefixes[3]) == Some(0)
    ensures WordRun("call me bob", 8) == "bob"
    ensures Title("bob") == "Bob"
  {
    var t := "call me bob";
    assert NameAt(t, NamePrefixes[3], 0);
    assert t[8..] == "bob";
    TitleAt("bob", 0);
    TitleAt("bob", 1);
    TitleAt("bob", 2);
  }
}
