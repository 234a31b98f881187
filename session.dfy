/**
 * The chat session of `AdvancedChatBot`: the settings, the user profile (name, topic counts,
 * mood history) and the conversation history, updated in place by one message at a time.
 */
module Session {
  import opened Options
  import opened Text
  import opened Lexicon
  import opened Analyzer
  import opened Names
  import opened Responder

  /** A reading of `datetime.datetime.now()`, supplied by the caller. */
  datatype Instant = Instant(ticks: int)

  /** An entry of `mood_history`: when it was recorded and the compound score. */
  datatype MoodEntry = MoodEntry(at: Instant, sentiment: real)

  /** An entry of `conversation_history`; `bot` is attached once the reply exists. */
  datatype Turn = Turn(user: string, at: Instant, mood: Option<real>, bot: Option<string>)

  // ---------------------------------------------------------------------------
  // Topic counts
  // ---------------------------------------------------------------------------

  /** How often `w` has been counted so far: 0 for a word never counted. */
  function Tally(topics: map<string, nat>, w: string): nat {
    if w in topics then topics[w] else 0
  }

  /** The counts after adding one to the count of each word of `ws`, in turn. */
  function CountAll(topics: map<string, nat>, ws: seq<string>): map<string, nat>
    decreases |ws|
  {
    if ws == [] then topics
    else
      var counted := CountAll(topics, ws[..|ws| - 1]);
      var w := ws[|ws| - 1];
      counted[w := Tally(counted, w) + 1]
  }

  /**
   * Each word's count rises by its number of occurrences in `ws`, every other count is
   * unchanged, and the counted words are the old ones plus the words of `ws`.
   */
  lemma {:induction false} CountAllSpec(topics: map<string, nat>, ws: seq<string>)
    ensures forall w :: Tally(CountAll(topics, ws), w) == Tally(topics, w) + multiset(ws)[w]
    ensures CountAll(topics, ws).Keys == topics.Keys + set w | w in ws
  {
    if ws != [] {
      var init, last := ws[..|ws| - 1], ws[|ws| - 1];
      CountAllSpec(topics, init);
      assert ws == init + [last];
      assert multiset(ws) == multiset(init) + multiset{last};
      assert (set w | w in ws) == (set w | w in init) + {last};
    }
  }

  /** Counting keeps every stored count positive. */
  lemma CountAllPositive(topics: map<string, nat>, ws: seq<string>)
    requires forall w :: w in topics ==> topics[w] > 0
    ensures forall w :: w in CountAll(topics, ws) ==> CountAll(topics, ws)[w] > 0
  {
    CountAllSpec(topics, ws);
    forall w | w in CountAll(topics, ws)
      ensures CountAll(topics, ws)[w] > 0
    {
      assert Tally(CountAll(topics, ws), w) == Tally(topics, w) + multiset(ws)[w];
      if w !in topics {
        assert w in ws;
      }
    }
  }

  // ---------------------------------------------------------------------------
  // Mood history
  // ---------------------------------------------------------------------------

  /** Append `e`, then drop the oldest entry when the history is longer than the capacity. */
  function Remember(h: seq<MoodEntry>, e: MoodEntry): seq<MoodEntry> {
    var grown := h + [e];
    if |grown| > MoodCapacity then grown[1..] else grown
  }

  /** The last `n` elements of `s`, or all of them when there are fewer. */
  function Newest<T>(s: seq<T>, n: nat): (r: seq<T>)
    ensures |r| == if |s| <= n then |s| else n
    ensures r == s[|s| - |r|..]
  {
    if |s| <= n then s else s[|s| - n..]
  }

  /**
   * Remembering into a history within capacity keeps exactly the newest entries of the
   * history followed by the new one, up to the capacity.
   */
  lemma RememberKeepsNewest(h: seq<MoodEntry>, e: MoodEntry)
    requires |h| <= MoodCapacity
    ensures Remember(h, e) == Newest(h + [e], MoodCapacity)
    ensures |Remember(h, e)| <= MoodCapacity && Remember(h, e)[|Remember(h, e)| - 1] == e
  {
  }

  /** Remember each entry of `es` in turn. */
  function RememberAll(h: seq<MoodEntry>, es: seq<MoodEntry>): seq<MoodEntry>
    decreases |es|
  {
    if es == [] then h else RememberAll(Remember(h, es[0]), es[1..])
  }

  lemma NewestOfNewest<T>(x: seq<T>, y: seq<T>, n: nat)
    ensures Newest(Newest(x, n) + y, n) == Newest(x + y, n)
  {
    if |x| > n {
      var x' := x[|x| - n..];
      assert x + y == x[..|x| - n] + (x' + y);
    }
  }

  /**
   * However many moods are recorded, the history holds the newest ones in arrival order,
   * at most `MoodCapacity` of them.
   */
  lemma {:induction false} RememberAllKeepsNewest(h: seq<MoodEntry>, es: seq<MoodEntry>)
    requires |h| <= MoodCapacity
    ensures RememberAll(h, es) == Newest(h + es, MoodCapacity)
    decreases |es|
  {
    if es != [] {
      var h', rest := Remember(h, es[0]), es[1..];
      RememberKeepsNewest(h, es[0]);
      RememberAllKeepsNewest(h', rest);
      RememberThenNewest(h, es[0], rest);
      assert [es[0]] + rest == es;
    }
  }

  /** Remembering one entry and then keeping the newest is keeping the newest of the lot. */
  lemma RememberThenNewest(h: seq<MoodEntry>, e: MoodEntry, rest: seq<MoodEntry>)
    requires |h| <= MoodCapacity
    ensures Newest(Remember(h, e) + rest, MoodCapacity) == Newest(h + ([e] + rest), MoodCapacity)
  {
    RememberKeepsNewest(h, e);
    NewestOfNewest(h + [e], rest, MoodCapacity);
    assert h + [e] + rest == h + ([e] + rest);
  }

  // ---------------------------------------------------------------------------
  // The mood stored with a turn
  // ---------------------------------------------------------------------------

  /** The turn's `mood`: `detect_mood(text)` when the backend is present and mood detection is on. */
  function TurnMood(text: string, nlp: Option<Nlp>, moodDetection: bool): Option<real> {
    if nlp.Some? && moodDetection then nlp.value.polarity(text) else None
  }

  /**
   * The mood stored with the turn is the sentiment the reply is customised with, except when
   * the tokenizer or the lemmatizer fails: then the analysis has no sentiment but the turn
   * still has its mood.
   */
  lemma TurnMoodMatchesAnalysis(kb: seq<Entry>, text: string, nlp: Option<Nlp>, moodDetection: bool)
    ensures var a := Analyze(kb, text, nlp, moodDetection);
      && (a.sentiment.Some? ==> TurnMood(text, nlp, moodDetection) == a.sentiment)
      && (nlp.Some? && nlp.value.tokenize(Lower(text)).Some?
          && Keywords(nlp.value, nlp.value.tokenize(Lower(text)).value).Some? ==>
            TurnMood(text, nlp, moodDetection) == a.sentiment)
      && (nlp.Some?
          && (nlp.value.tokenize(Lower(text)).None? || Keywords(nlp.value, nlp.value.tokenize(Lower(text)).value).None?)
          ==> a.sentiment.None?)
  {
  }

  // ---------------------------------------------------------------------------
  // The bot
  // ---------------------------------------------------------------------------

  class ChatBot {
    /** The NLP backend, or None when NLTK is not available. */
    const nlp: Option<Nlp>
    /** `knowledge_base` and `advanced_topics`, set up once by the constructor. */
    const knowledgeBase: seq<Entry>
    const advancedTopics: seq<Topic>
    var settings: Settings
    /** The user's name, once learned. */
    var name: Option<string>
    /** How often each keyword has come up. */
    var topicsDiscussed: map<string, nat>
    /** The recent mood readings, oldest first. */
    var moodHistory: seq<MoodEntry>
    /** Every turn of the conversation, oldest first. */
    var history: seq<Turn>

    /**
     * The session's invariant: the tables are well formed, a learned name is a non-empty run
     * of word characters, every counted topic has a positive count, and the mood history is
     * within capacity.
     */
    ghost predicate Valid()
      reads this
    {
      && WellFormedTables(knowledgeBase, advancedTopics)
      && (name.Some? ==> name.value != [] && forall c :: c in name.value ==> IsWordChar(c))
      && (forall w :: w in topicsDiscussed ==> topicsDiscussed[w] > 0)
      && |moodHistory| <= MoodCapacity
    }

    /**
     * A fresh session with the default settings, an empty profile and history, and the
     * tables `kb` and `topics` installed (`setup_knowledge_base` installs `KnowledgeBase` and
     * `AdvancedTopics`, which `BotTablesWellFormed` shows to be well formed).
     */
    constructor(nlp: Option<Nlp>, kb: seq<Entry>, topics: seq<Topic>)
      requires WellFormedTables(kb, topics)
      ensures this.nlp == nlp && knowledgeBase == kb && advancedTopics == topics
      ensures settings == InitialSettings
      ensures name == None && topicsDiscussed == map[] && moodHistory == [] && history == []
      ensures Valid()
    {
      this.nlp := nlp;
      knowledgeBase := kb;
      advancedTopics := topics;
      settings := InitialSettings;
      name := None;
      topicsDiscussed := map[];
      moodHistory := [];
      history := [];
    }

    method SetPersonality(p: Personality)
      modifies this`settings
      ensures settings == old(settings).(personality := p)
    {
      settings := settings.(personality := p);
    }

    method SetStyle(s: Style)
      modifies this`settings
      ensures settings == old(settings).(style := s)
    {
      settings := settings.(style := s);
    }

    method SetLearningMode(on: bool)
      modifies this`settings
      ensures settings == old(settings).(learningMode := on)
    {
      settings := settings.(learningMode := on);
    }

    method SetMoodDetection(on: bool)
      modifies this`settings
      ensures settings == old(settings).(moodDetection := on)
    {
      settings := settings.(moodDetection := on);
    }

    /**
     * `generate_response`: the reply the plan calls for, and the name remembered when the
     * plan is the acknowledgment. A name once known is never replaced.
     */
    method GenerateResponse(text: string, a: Analysis, rolls: Rolls) returns (reply: string)
      requires Valid() && ValidRolls(rolls)
      modifies this`name
      ensures var plan := PlanReply(knowledgeBase, advancedTopics, text, a, old(name));
        && (plan.Templates? ==> plan.pool != [])
        && reply == Respond(plan, a.sentiment, settings, rolls)
        && name == NameAfter(plan, old(name))
      ensures old(name).Some? ==> name == old(name)
      ensures Valid()
    {
      var plan := PlanReply(knowledgeBase, advancedTopics, text, a, name);
      PoolsOfPlansNonEmpty(knowledgeBase, advancedTopics, text, a, name);
      if plan.Acknowledge? {
        NameLearnedOnce(knowledgeBase, advancedTopics, text, a, name);
        ExtractedNameIsWord(Lower(text), NamePrefixes);
        name := Some(plan.name);
      }
      reply := Respond(plan, a.sentiment, settings, rolls);
    }

    /**
     * `update_learning`: count every keyword, and remember the sentiment when there is one,
     * dropping the oldest mood beyond the capacity.
     */
    method UpdateLearning(a: Analysis, now: Instant)
      requires Valid()
      modifies this`topicsDiscussed, this`moodHistory
      ensures topicsDiscussed == CountAll(old(topicsDiscussed), a.keywords)
      ensures moodHistory ==
        if a.sentiment.Some? then Remember(old(moodHistory), MoodEntry(now, a.sentiment.value))
        else old(moodHistory)
      ensures Valid()
    {
      var i := 0;
      while i < |a.keywords|
        invariant 0 <= i <= |a.keywords|
        invariant topicsDiscussed == CountAll(old(topicsDiscussed), a.keywords[..i])
        invariant moodHistory == old(moodHistory)
      {
        var w := a.keywords[i];
        assert a.keywords[..i + 1][..i] == a.keywords[..i];
        topicsDiscussed := topicsDiscussed[w := Tally(topicsDiscussed, w) + 1];
        i := i + 1;
      }
      assert a.keywords[..i] == a.keywords;
      CountAllPositive(old(topicsDiscussed), a.keywords);
      if a.sentiment.Some? {
        moodHistory := moodHistory + [MoodEntry(now, a.sentiment.value)];
        if |moodHistory| > MoodCapacity {
          moodHistory := moodHistory[1..];
        }
      }
    }

    /** Append a turn to the conversation history. */
    method RecordTurn(turn: Turn)
      requires Valid()
      modifies this`history
      ensures history == old(history) + [turn]
      ensures Valid()
    {
      history := history + [turn];
    }

    /** Attach the reply to the last turn of the conversation history. */
    method AttachReply(reply: string)
      requires Valid() && history != []
      modifies this`history
      ensures history == old(history[..|history| - 1]) + [old(history[|history| - 1]).(bot := Some(reply))]
      ensures Valid()
    {
      var last := |history| - 1;
      history := history[..last] + [history[last].(bot := Some(reply))];
    }

    /**
     * The steps of `process_message` after the turn is recorded and the input analysed as `a`:
     * reply, attach the reply to the last turn, and learn when learning mode is on.
     */
    method RespondAndLearn(text: string, a: Analysis, rolls: Rolls, learned: Instant) returns (reply: string)
      requires Valid() && ValidRolls(rolls) && history != []
      modifies this`name, this`topicsDiscussed, this`moodHistory, this`history
      ensures var plan := PlanReply(knowledgeBase, advancedTopics, text, a, old(name));
        && (plan.Templates? ==> plan.pool != [])
        && reply == Respond(plan, a.sentiment, settings, rolls)
        && name == NameAfter(plan, old(name))
      ensures history == old(history[..|history| - 1]) + [old(history[|history| - 1]).(bot := Some(reply))]
      ensures topicsDiscussed ==
        if settings.learningMode then CountAll(old(topicsDiscussed), a.keywords) else old(topicsDiscussed)
      ensures moodHistory ==
        if settings.learningMode && a.sentiment.Some?
        then Remember(old(moodHistory), MoodEntry(learned, a.sentiment.value))
        else old(moodHistory)
      ensures Valid()
    {
      reply := GenerateResponse(text, a, rolls);
      AttachReply(reply);
      Learn(a, learned);
    }

    /** Update the profile from the analysis, but only when learning mode is on. */
    method Learn(a: Analysis, now: Instant)
      requires Valid()
      modifies this`topicsDiscussed, this`moodHistory
      ensures topicsDiscussed ==
        if settings.learningMode then CountAll(old(topicsDiscussed), a.keywords) else old(topicsDiscussed)
      ensures moodHistory ==
        if settings.learningMode && a.sentiment.Some?
        then Remember(old(moodHistory), MoodEntry(now, a.sentiment.value))
        else old(moodHistory)
      ensures Valid()
    {
      if settings.learningMode {
        UpdateLearning(a, now);
      }
    }

    /**
     * `process_message`: record the turn, analyse, reply, attach the reply to the turn and
     * learn. `received` and `learned` are the two clock readings the source takes. The history
     * grows by exactly the one turn, which carries the reply; the name changes only as reply
     * selection decides; counts and moods change only in learning mode.
     */
    method ProcessMessage(text: string, rolls: Rolls, received: Instant, learned: Instant) returns (reply: string)
      requires Valid() && ValidRolls(rolls)
      modifies this`name, this`topicsDiscussed, this`moodHistory, this`history
      ensures var a := Analyze(knowledgeBase, text, nlp, settings.moodDetection);
        var plan := PlanReply(knowledgeBase, advancedTopics, text, a, old(name));
        && (plan.Templates? ==> plan.pool != [])
        && reply == Respond(plan, a.sentiment, settings, rolls)
        && history == old(history) + [Turn(text, received, TurnMood(text, nlp, settings.moodDetection), Some(reply))]
        && name == NameAfter(plan, old(name))
        && topicsDiscussed ==
          (if settings.learningMode then CountAll(old(topicsDiscussed), a.keywords) else old(topicsDiscussed))
        && moodHistory ==
          (if settings.learningMode && a.sentiment.Some?
           then Remember(old(moodHistory), MoodEntry(learned, a.sentiment.value))
           else old(moodHistory))
      ensures Valid()
    {
      var turn := Turn(text, received, TurnMood(text, nlp, settings.moodDetection), None);
      RecordTurn(turn);
      var a := Analyze(knowledgeBase, text, nlp, settings.moodDetection);
      reply := RespondAndLearn(text, a, rolls, learned);
    }

    /**
     * `send_message`: input that strips to nothing is ignored and changes nothing; any other
     * input is handled with its surrounding whitespace stripped.
     */
    method SendMessage(raw: string, rolls: Rolls, received: Instant, learned: Instant) returns (reply: Option<string>)
      requires Valid() && ValidRolls(rolls)
      modifies this`name, this`topicsDiscussed, this`moodHistory, this`history
      ensures Strip(raw) == [] ==> reply.None? && unchanged(this)
      ensures var text := Strip(raw);
        var a := Analyze(knowledgeBase, text, nlp, settings.moodDetection);
        var plan := PlanReply(knowledgeBase, advancedTopics, text, a, old(name));
        text != [] ==>
          && reply.Some? && (plan.Templates? ==> plan.pool != [])
          && reply.value == Respond(plan, a.sentiment, settings, rolls)
          && history == old(history) + [Turn(text, received, TurnMood(text, nlp, settings.moodDetection), reply)]
          && name == NameAfter(plan, old(name))
          && topicsDiscussed ==
            (if settings.learningMode then CountAll(old(topicsDiscussed), a.keywords) else old(topicsDiscussed))
          && moodHistory ==
            (if settings.learningMode && a.sentiment.Some?
             then Remember(old(moodHistory), MoodEntry(learned, a.sentiment.value))
             else old(moodHistory))
      ensures Valid()
    {
      var text := Strip(raw);
      if text == [] {
        return None;
      }
      var r := ProcessMessage(text, rolls, received, learned);
      reply := Some(r);
    }
  }
}
