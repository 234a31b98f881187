# The reply engine of AdvancedChatBot, modelled in Dafny

`AdvancedChatBot` (ChatBot.py) is a desktop chat bot. This project models its rule-based reply engine, which handles one message at a time.

`send_message` drops input that is blank after `strip()`. `process_message` then:

1. records the turn, with the user's mood when the NLP backend is present and mood detection is on;
2. analyses the text (`analyze_input`);
3. chooses and customises a reply (`generate_response`, `customize_response`);
4. attaches the reply to the turn;
5. in learning mode, updates the user profile (`update_learning`).

The analysis holds:

- the knowledge-base categories whose `\b(...)\b` patterns match the lower-cased text;
- at most ten lemmatised keywords;
- the compound sentiment score;
- capitalised words that are not at a sentence start;
- an intent: the first category, else "question", "request" or "unknown", found by substring cues.

Reply selection tries these in order:

1. the pool of the first matched category;
2. the pool of the first advanced topic that is a substring of the text;
3. an acknowledgment of a name the user has just given (only when no name is known yet);
4. the question, request or default pool, as the intent says.

A templated reply is customised in this order:

1. a mood prefix when the compound score is outside [-0.5, 0.5];
2. a personality rewrite:
   - professional turns each `!` into `.` and deletes two glyphs;
   - humorous may append a joke;
   - technical appends a follow-up when the reply mentions technology, programming or code;
3. a style rewrite:
   - brief keeps everything before the first `.`, then adds a `.`;
   - creative may append a flourish.

Modules:

- `Options`: the `Option` type.
- `Text`: the string operations the engine relies on, over ASCII. These are `lower`, `in`, `\b`-delimited search, `split`, `strip`, `replace`, `title` and `\w`.
- `Lexicon`: the knowledge base, the advanced topics and the fixed strings and constants.
- `Analyzer`: `analyze_input`.
- `Names`: `extract_name`.
- `Responder`: `generate_response` and `customize_response` as functions over the tables. The random outcomes are an explicit `Rolls` value. The name the reply selection learns is returned as part of a `Plan`.
- `Session`: the `ChatBot` class. It holds the settings, the user profile and the conversation history, and its methods update them in place:
  - `GenerateResponse`
  - `UpdateLearning`, which uses a loop over the keywords
  - `ProcessMessage`
  - `SendMessage`
  - the four settings setters

The NLTK backend (tokenizer, lemmatizer, stop words, VADER analyser) is foreign code. It is a parameter `Nlp` of functions, and `None` stands for basic mode. The two `datetime.now()` readings of a message are parameters of `ProcessMessage`.

Where the design intent of the program and its code differ, the model follows the code:

- A professional reply can still contain `!`. The name acknowledgment is returned without customisation (`Responder.AcknowledgmentUncustomized`), and the creative flourishes contain `!` (`Responder.ProfessionalCustomizeSpec`).
- The brief style gives exactly one `.` only for customised replies. The acknowledgment keeps its full length.
- A learned name is a `\w+` run (letters, digits, underscore), title-cased, not a purely alphabetic word.
- "call me" is an extraction pattern, but it is not one of the cues that start name learning. So "call me Bob" alone never teaches the name (`Responder.CallMeIsNotACue`).
- The mood stored with a turn comes from `detect_mood` directly. It is therefore present even when the tokenizer or the lemmatizer fails, although the analysis then has no keywords and no sentiment (`Session.TurnMoodMatchesAnalysis`).
- Category cues are whole words (`\b`), while intent, topic and name cues are plain substrings. For example, "somewhat" counts as a question and "history" is not a greeting (`Analyzer.SubstringCues`).

## Model

| member | source | states |
|---|---|---|
| Text.Lower | ChatBot.py:584 | `lower()` keeps the length and maps each character to its small letter, leaving every non-capital as it is |
| Text.Contains | ChatBot.py:623-625 | `p in t` holds exactly when `p` occurs at some position of `t` |
| Text.ContainsAny | ChatBot.py:649 | `any(p in t for p in ps)` holds exactly when some `ps[k]` occurs in `t` |
| Text.HasWholeWord | ChatBot.py:592 | a `\b(p)\b` search succeeds exactly when `p` occurs at a position with a word boundary before and after it |
| Text.WholeWordMeansDelimited | ChatBot.py:592 | for a phrase that starts and ends with word characters, a whole-word occurrence is an occurrence with no word character right before or right after it |
| Text.LowerHasNoCapitals | ChatBot.py:584 | lower-cased text has no capital letters, and lower-casing twice changes nothing |
| Text.Split | ChatBot.py:614 | `split()` gives non-empty words with no whitespace, and gives no words exactly when the text is blank |
| Text.Strip | ChatBot.py:524 | `strip()`: the text without its leading and trailing whitespace; its properties are stated by `Text.StripSpec` |
| Text.StripSpec | ChatBot.py:524-525 | `strip()` is empty exactly when the text is all whitespace; otherwise it starts and ends with a non-space and is the text with only whitespace removed from both ends |
| Text.BeforeFirst | ChatBot.py:707 | `split('.')[0]` is the longest prefix without a `.`, and the text continues with a `.` when that prefix is shorter than the text |
| Text.ReplaceChar | ChatBot.py:694 | `replace(a, b)` for single characters keeps the length, puts `b` at every position that held `a` and keeps every other character in place |
| Text.RemoveChar | ChatBot.py:694 | `replace(c, '')` leaves no `c` and keeps the count of every other character |
| Text.RemoveCharSpec | ChatBot.py:694 | `replace(c, '')` keeps the order of what remains: it distributes over concatenation, and it leaves text without `c` unchanged |
| Text.FilterAppend | ChatBot.py:600-601 | keeping the elements that pass a test distributes over concatenation, so the survivors keep their order |
| Text.FilterKeepsAll | ChatBot.py:600-601 | when every element passes the test, filtering returns the sequence unchanged |
| Text.Title | ChatBot.py:743 | `title()`: letters upper-cased at the start of a letter run and lower-cased inside one; stated by `Text.TitleAt` |
| Text.TitleAt | ChatBot.py:743 | `title()` keeps the length; a character is upper-cased at the start or after a non-letter, and lower-cased otherwise |
| Lexicon.KnowledgeBaseNames | ChatBot.py:91-202 | category names are distinct; `default` is the last entry, has no patterns and holds the five default replies; no other entry is named `default` |
| Lexicon.PoolsNonEmpty | ChatBot.py:91-221 | every reply list of the knowledge base and of the advanced topics is non-empty |
| Lexicon.ReplyPoolSizes | ChatBot.py:659-670 | the question and the request pools hold three templates each, whatever the name prefix |
| Names.NameMatch | ChatBot.py:741 | `re.search(p + r"(\w+)")` finds the leftmost position where `p` is followed by a `\w` character; it finds nothing exactly when no such position exists |
| Names.WordRun | ChatBot.py:743 | `group(1)` is the maximal run of `\w` characters after the prefix, non-empty when a `\w` character follows it |
| Names.ExtractName | ChatBot.py:731-744 | an extracted name is non-empty and made only of `\w` characters |
| Names.NoNameIff | ChatBot.py:731-744 | `extract_name` returns None exactly when no pattern prefix is followed by a `\w` character anywhere in the lower-cased text |
| Names.FirstMatchingPrefixWins | ChatBot.py:740-743 | the name comes from the first pattern, in list order, that matches anywhere, taken at its leftmost match |
| Names.ExtractedNameIsWord | ChatBot.py:733-743 | the name found by the pattern loop over any lower-cased text is non-empty and made only of `\w` characters |
| Names.PatternOrderBeatsPosition | ChatBot.py:733-743 | "i'm sam, my name is bob" gives "Bob": pattern order beats position in the text |
| Analyzer.Categories | ChatBot.py:587-594 | the names of the matching entries in knowledge-base order; stated by `Analyzer.CategoriesSpec` |
| Analyzer.CategoriesSpec | ChatBot.py:587-594 | the categories are exactly the names of the non-default entries that match, each listed once, in knowledge-base order |
| Analyzer.DefaultNeverListed | ChatBot.py:587-589 | `default` is never among the categories |
| Analyzer.PrimaryCategoryIsFirstMatch | ChatBot.py:587-594 | the first listed category is the first knowledge-base entry that matches |
| Analyzer.ContentWordsSpec | ChatBot.py:600-601 | the alphabetic non-stop-word tokens are selected in order: the selection distributes over concatenation and keeps a single token exactly when it qualifies |
| Analyzer.Lemmas | ChatBot.py:600-601 | lemmatising a word list succeeds exactly when every word lemmatises, and then gives one lemma per word, in order |
| Analyzer.Keywords | ChatBot.py:600-602 | when the lemmatizer succeeds, at most ten keywords are kept |
| Analyzer.KeywordsSpec | ChatBot.py:599-602 | the keywords exist exactly when every alphabetic non-stop-word token lemmatises; then they are the lemmas of the first `min(10, n)` such tokens, in order, each the lemma of a qualifying token |
| Analyzer.Features | ChatBot.py:596-609 | keywords and sentiment: both unset without the backend or when the tokenizer or lemmatizer fails; the sentiment only with mood detection on; stated by `Analyzer.FeaturesSpec` |
| Analyzer.FeaturesSpec | ChatBot.py:596-609 | without the backend, or when the tokenizer or the lemmatizer fails, there are no keywords and no sentiment; otherwise the keywords are `Keywords` of the tokens and the sentiment is the polarity exactly when mood detection is on |
| Analyzer.Entities | ChatBot.py:612-618 | the capitalised words not at a sentence start, in order; stated by `Analyzer.EntitiesSpec` |
| Analyzer.EntitiesSpec | ChatBot.py:612-618 | the entities are, in order, exactly the words that start with a capital, are not first, and do not follow a word ending in `.`, `!` or `?` |
| Analyzer.Analyze | ChatBot.py:574-628 | at most ten keywords; without the backend, no keywords and no sentiment; a sentiment exists only with the backend and mood detection on, and it is the text's polarity |
| Analyzer.IntentSpec | ChatBot.py:620-626 | the intent is a category exactly when one matched, and then it is the first one and never `default`; otherwise "question" exactly when a question cue occurs, then "request" exactly when a request cue occurs |
| Analyzer.ResolveIntent | ChatBot.py:620-626 | the first category, else question, request or unknown by substring cues; stated by `Analyzer.ResolveIntentSpec` |
| Analyzer.ResolveIntentSpec | ChatBot.py:620-626 | the intent rule alone: a category exactly when one is listed, the first one; otherwise "question" exactly when a question cue occurs, then "request" exactly when a request cue occurs |
| Analyzer.SubstringCues | ChatBot.py:623 | "somewhat" is a question because it contains "what"; "history" does not match `\bhi\b` |
| Analyzer.HelloIsAGreeting | ChatBot.py:587-594 | "Hello there!" has the primary category and intent "greetings" |
| Responder.WithMood | ChatBot.py:683-688 | the mood prefix step of `customize_response`; stated by `Responder.MoodPrefixSpec` |
| Responder.MoodPrefixSpec | ChatBot.py:683-688 | the reply changes exactly when a sentiment is present, mood detection is on and the score is below -0.5 or above 0.5; the change is the matching prefix in front |
| Responder.ReplaceCharCounts | ChatBot.py:694 | replacing one character by another removes every occurrence of it, adds them to the other's count, and keeps all other counts |
| Responder.Professionalize | ChatBot.py:694 | `!` to `.` and both glyphs deleted; stated by `Responder.ProfessionalSpec` |
| Responder.ProfessionalSpec | ChatBot.py:693-694 | the professional rewrite leaves no `!` and neither glyph; the count of `.` grows by the count of `!`; every other character keeps its count |
| Responder.WithPersonality | ChatBot.py:690-701 | the personality step; its cases are stated by `Responder.ProfessionalSpec`, `Responder.HumorousSpec` and `Responder.TechnicalSpec` |
| Responder.HumorousSpec | ChatBot.py:695-698 | the humorous personality keeps the reply as a prefix; it changes the reply exactly when its 30% roll succeeds, and what it adds is one of the jokes |
| Responder.TechnicalSpec | ChatBot.py:699-701 | the technical personality keeps the reply as a prefix; it appends the follow-up exactly when a technical cue occurs in the lower-cased reply |
| Responder.WithStyle | ChatBot.py:703-716 | the style step; stated by `Responder.BriefSpec`, `Responder.CreativeSpec` and `Responder.StyleAddsNoBang` |
| Responder.CreativeSpec | ChatBot.py:690-716 | the creative style keeps the reply as a prefix, changes it exactly when its 40% roll succeeds, and what it adds is one of the flourishes; the detailed style and the friendly personality leave the reply unchanged |
| Responder.Customize | ChatBot.py:678-718 | mood prefix, then personality, then style; stated by `Responder.BriefSpec` and `Responder.ProfessionalCustomizeSpec` |
| Responder.BriefSpec | ChatBot.py:705-707 | with the brief style the reply ends in its only `.`; what precedes it is the start of the reply before the style rewrite, cut either at the end of that reply or at its first `.` |
| Responder.ProfessionalCustomizeSpec | ChatBot.py:678-718 | with the professional personality a customised reply has no `!`, except in a creative flourish appended at the end |
| Responder.StyleAddsNoBang | ChatBot.py:703-716 | the style rewrite introduces a `!` only through a creative flourish, at the end |
| Responder.PlanReply | ChatBot.py:630-676 | the reply selection of `generate_response`; stated by `Responder.CategoryComesFirst`, `Responder.PriorityAfterCategories` and `Responder.TemplatedReplyFromPool` |
| Responder.Lookup | ChatBot.py:635-636 | the lookup succeeds exactly when an entry has the name, and then it yields the pool of such an entry |
| Responder.LookupFinds | ChatBot.py:635-636 | with distinct names, looking up an entry's name yields that entry's pool |
| Responder.FirstTopic | ChatBot.py:643-646 | the topic found is one whose name occurs in the text; none is found exactly when no topic name occurs |
| Responder.FirstTopicIsFirst | ChatBot.py:643-646 | the topic found is the first, in table order, whose name occurs in the text |
| Responder.CategoryComesFirst | ChatBot.py:633-640 | when a category matched, the reply comes from the pool of the first matching entry, whatever topics, name cues or intent cues the text also holds |
| Responder.PriorityAfterCategories | ChatBot.py:642-676 | without a category, the first advanced topic in the text wins; then the name acknowledgment; then the question, request or default pool, by intent |
| Responder.NameToLearn | ChatBot.py:649-650 | the name to learn: only without a known name and with a name cue; stated by `Responder.NameLearnedOnce` |
| Responder.NameLearnedOnce | ChatBot.py:648-653 | the acknowledgment happens only when no name is known, a name cue occurs and extraction gives that non-empty name; a known name is never replaced |
| Responder.Fallback | ChatBot.py:648-676 | acknowledgment, else the question, request or default pool; stated by `Responder.FallbackPlan` and `Responder.PriorityAfterCategories` |
| Responder.FallbackPlan | ChatBot.py:671-676 | with no category, no topic, no name cue and intent "unknown", the reply comes from the default pool |
| Responder.FallbackToDefault | ChatBot.py:671-673 | text that matches no category and holds no topic, name, question or request cue has intent "unknown" and is answered from the `default` replies |
| Responder.AcknowledgmentUncustomized | ChatBot.py:653 | the acknowledgment is returned without customisation and contains `!` whatever the personality and style |
| Responder.MyNameIsAlex | ChatBot.py:648-653 | with no name known and no category matched, "My name is Alex" is acknowledged as "Alex" |
| Responder.CallMeIsNotACue | ChatBot.py:649-650 | "call me bob" yields the name "Bob", yet reply selection never learns it, because "call me" is not a cue |
| Responder.NamePrefixSpec | ChatBot.py:656-670 | without a known name the question and request pools are the bare templates; with one, each entry is the name, then `, `, then the template |
| Responder.FallbackPoolNonEmpty | ChatBot.py:659-673 | with a non-empty default pool, every fallback pool is non-empty |
| Responder.BotTablesWellFormed | ChatBot.py:91-221 | the bot's tables have distinct category names, non-empty pools and a non-empty default pool |
| Responder.PoolsOfPlansNonEmpty | ChatBot.py:630-676 | with well-formed tables, `random.choice` is never given an empty pool |
| Responder.Respond | ChatBot.py:637-676 | the acknowledgment as it is, or the picked template customised; stated by `Responder.TemplatedReplyFromPool` and `Responder.AcknowledgmentUncustomized` |
| Responder.PickedSpec | ChatBot.py:675 | the picked template belongs to the pool, and every template of the pool is picked by some roll |
| Responder.TemplatedReplyFromPool | ChatBot.py:675-676 | every templated reply is the customisation of one template of the selected pool |
| Responder.NoBackendNoMoodPrefix | ChatBot.py:683 | without the backend there is no sentiment, so no mood prefix is added |
| Responder.HelloReply | ChatBot.py:633-640 | "Hello there!" is answered from the greetings pool |
| Session.CountAll | ChatBot.py:749-750 | the counts after one increment per keyword; stated by `Session.CountAllSpec` |
| Session.CountAllSpec | ChatBot.py:749-750 | each word's count rises by its number of occurrences among the keywords; the counted words are the old ones plus the keywords |
| Session.CountAllPositive | ChatBot.py:749-750 | counting keeps every stored count positive |
| Session.Remember | ChatBot.py:753-761 | append the mood, drop the oldest beyond fifty; stated by `Session.RememberKeepsNewest` |
| Session.RememberKeepsNewest | ChatBot.py:753-761 | recording a mood keeps the newest entries, at most fifty, with the new one last |
| Session.RememberAllKeepsNewest | ChatBot.py:753-761 | over any number of messages, the mood history is the newest fifty entries in arrival order |
| Session.TurnMood | ChatBot.py:547 | `detect_mood(text)` with the backend and mood detection on, else none; stated by `Session.TurnMoodMatchesAnalysis` |
| Session.TurnMoodMatchesAnalysis | ChatBot.py:547 | the turn's mood equals the analysis sentiment whenever the latter exists, or the tokenizer and the lemmatizer succeed; when either fails, the analysis has no sentiment |
| Session.ChatBot.constructor | ChatBot.py:62-77 | a new session has the default settings, no name, no counts, no moods and no history, and satisfies the session invariant |
| Session.ChatBot.SetPersonality | ChatBot.py:763-766 | only the personality setting changes |
| Session.ChatBot.SetStyle | ChatBot.py:768-771 | only the style setting changes |
| Session.ChatBot.SetLearningMode | ChatBot.py:773-777 | only the learning-mode setting changes |
| Session.ChatBot.SetMoodDetection | ChatBot.py:779-783 | only the mood-detection setting changes |
| Session.ChatBot.GenerateResponse | ChatBot.py:630-676 | the reply is the one the plan selects, from a non-empty pool; the name is set only by the acknowledgment and never replaced; the invariant is kept |
| Session.ChatBot.UpdateLearning | ChatBot.py:746-761 | the loop counts every keyword once per occurrence; a sentiment is appended and the oldest is dropped beyond fifty; counts stay positive and the history stays within capacity |
| Session.ChatBot.RecordTurn | ChatBot.py:544-548 | the history grows by exactly the given turn |
| Session.ChatBot.AttachReply | ChatBot.py:560 | only the last turn changes, and it gets the reply |
| Session.ChatBot.RespondAndLearn | ChatBot.py:554-564 | reply, attach it to the last turn, and update counts and moods only in learning mode |
| Session.ChatBot.Learn | ChatBot.py:562-564 | counts and moods are updated as `update_learning` says in learning mode and left alone otherwise |
| Session.ChatBot.ProcessMessage | ChatBot.py:540-564 | the history grows by one turn carrying the text, its mood and the selected reply; the name changes only by the acknowledgment; counts and moods change only in learning mode |
| Session.ChatBot.SendMessage | ChatBot.py:522-535 | blank input gives no reply and changes nothing; other input is stripped and handled as by `ProcessMessage` |

## Left out

- The Tk interface, the message display, the status labels, `greet_user`, `clear_chat`, the statistics and the export. These are I/O with no effect on replies.
- Threading and `root.after`. Each message is handled to completion before the next one, so the race between the worker thread and the interface is not modelled.
- The exception handler of `process_message` (ChatBot.py:569-572). No step of the model can fail: pools are non-empty, and a failure of the tokenizer or the lemmatizer is a `None` value that the analysis handles as `analyze_input`'s own handler does (no keywords, no sentiment). A failure of VADER is the `None` that `detect_mood` returns (ChatBot.py:728-729), modelled as `polarity` giving `None`.
- NLTK internals: tokenisation, lemmatisation, the stop-word list and VADER scoring are opaque parameters. Of the VADER scores only the compound score is kept, because it is the only one read.
- Randomness: `random.choice` and `random.random()` are replaced by the injected `Rolls`. The 30% and 40% probabilities are not modelled, only which branch was taken.
- Unicode case rules, `\w` and `isspace` beyond ASCII. `lower`, `title`, `isupper` and `isalpha` are modelled on ASCII letters.
- `user_profile['preferences']`, which the core never reads or writes.
- Text.Split: the contract states that the words are non-empty, contain no whitespace, and are absent only for blank input. It does not state that they are the maximal non-space runs in order, although the definition computes exactly those.
- Session.ChatBot.constructor: it takes the tables as arguments instead of building them. `Responder.BotTablesWellFormed` shows that the bot's own tables meet the constructor's precondition.
