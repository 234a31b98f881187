/**
 * The bot's fixed tables: the knowledge base of intent categories (each with its phrase
 * patterns and reply templates), the `default` pool, the advanced-topic pools, and the
 * literal pools, cue words, prefixes and suffixes that reply selection and customisation use.
 */
module Lexicon {
  /**
   * One knowledge-base category. Each pattern is a regular expression `\b(a1|a2|...)\b`,
   * kept here as its list of literal alternatives; the category matches when one of its
   * patterns matches the lower-cased input.
   */
  datatype Entry = Entry(name: string, patterns: seq<seq<string>>, responses: seq<string>)

  /** An advanced topic: triggered when its name is a substring of the lower-cased input. */
  datatype Topic = Topic(name: string, responses: seq<string>)

  /** The name of the fallback category, skipped by pattern matching. */
  const DefaultName: string := "default"

  const DefaultResponses: seq<string> := [
    "That's interesting! 🤔 Can you tell me more about that?",
    "I'm not sure I fully understand, but I'd love to learn more! 💭",
    "Hmm, that's a new one for me! 🧠 Could you elaborate?",
    "I find that topic intriguing! 🌟 What's your perspective on it?",
    "Tell me more! 📖 I'm always eager to learn from our conversations."
  ]

  /** The knowledge base, in the insertion order of the source's dictionary. */
  const KnowledgeBase: seq<Entry> := [
    Entry("greetings",
      [["hi", "hello", "hey", "greetings", "good morning", "good afternoon", "good evening"]],
      [
        "Hello! 👋 I'm your AI assistant. How can I help you today?",
        "Hi there! 😊 What would you like to chat about?",
        "Greetings! I'm here to help. What's on your mind?",
        "Hey! 🤖 Ready for an interesting conversation?"
      ]),
    Entry("farewells",
      [["bye", "goodbye", "see you", "farewell", "take care", "exit", "quit"]],
      [
        "Goodbye! 👋 It was great chatting with you!",
        "See you later! 😊 Have a wonderful day!",
        "Take care! Feel free to come back anytime.",
        "Farewell! 🤖 Hope our conversation was helpful!"
      ]),
    Entry("bot_info",
      [["who are you", "what are you", "your name", "about you", "tell me about yourself"]],
      [
        "I'm an advanced AI chatbot! 🤖 I can help with questions, have conversations, and even detect your mood!",
        "I'm your friendly AI assistant, designed to chat, help, and learn from our conversations!",
        "I'm an intelligent chatbot with personality! I can discuss various topics and adapt to your communication style."
      ]),
    Entry("how_are_you",
      [["how are you", "how do you feel", "what's up", "how's it going"]],
      [
        "I'm doing great! 😊 My circuits are buzzing with excitement to chat with you!",
        "I'm fantastic! 🌟 Every conversation energizes my algorithms!",
        "I'm wonderful! Ready to tackle any topic you throw at me! 💪"
      ]),
    Entry("technology",
      [["programming", "coding", "python", "javascript", "ai", "artificial intelligence", "machine learning", "computer", "software", "hardware", "tech"]],
      [
        "Technology is fascinating! 💻 I love discussing programming, AI, and the latest tech trends. What specific area interests you?",
        "Oh, a fellow tech enthusiast! 🚀 From Python to AI, there's so much to explore. What would you like to know?",
        "Technology is evolving so rapidly! Whether it's coding, AI, or hardware, I'm here to discuss it all! 🔧"
      ]),
    Entry("weather",
      [["weather", "rain", "sunny", "cloudy", "temperature", "forecast", "climate"]],
      [
        "I wish I could check the weather for you! 🌤️ Try asking a weather service or checking your local forecast.",
        "Weather affects our mood so much! ☀️🌧️ How's the weather treating you today?",
        "I can't access real-time weather data, but I'd love to chat about how weather impacts our daily lives! 🌈"
      ]),
    Entry("hobbies",
      [["hobby", "hobbies", "interests", "music", "movies", "books", "reading", "gaming", "sports", "art", "cooking"]],
      [
        "Hobbies make life so much richer! 🎨 I'd love to hear about your interests. What do you enjoy doing in your free time?",
        "That sounds interesting! 🎯 Hobbies are a great way to express creativity and relax. Tell me more!",
        "I find human hobbies fascinating! 🎪 From music to sports to art - there's so much diversity in what people enjoy!"
      ]),
    Entry("emotions",
      [["sad", "happy", "angry", "frustrated", "excited", "worried", "anxious", "depressed", "joyful", "stressed"]],
      [
        "I understand emotions can be complex. 💙 Would you like to talk about what's affecting your mood?",
        "Feelings are important and valid. 🤗 I'm here to listen if you want to share what's on your mind.",
        "Emotions are part of what makes us human (and interesting to an AI like me!). How are you feeling right now?"
      ]),
    Entry("help",
      [["help", "assist", "support", "confused", "don't know", "stuck", "problem"]],
      [
        "I'm here to help! 🆘 What specific problem or question can I assist you with?",
        "No worries! 🤝 Everyone needs help sometimes. Tell me what's troubling you and let's work through it together.",
        "That's what I'm here for! 💡 Describe your issue and I'll do my best to provide useful guidance."
      ]),
    Entry("learning",
      [["learn", "study", "education", "school", "university", "course", "tutorial", "knowledge", "teach"]],
      [
        "Learning is amazing! 📚 I love helping people discover new knowledge. What subject interests you?",
        "Education opens so many doors! 🎓 Whether it's formal study or self-learning, I'm here to support your journey.",
        "Knowledge is power! 💪 I can help explain concepts, suggest resources, or just discuss learning strategies."
      ]),
    Entry("default", [], DefaultResponses)
  ]

  /** The advanced topics, in the insertion order of the source's dictionary. */
  const AdvancedTopics: seq<Topic> := [
    Topic("philosophy",
      [
        "Philosophy makes me think about consciousness and existence! 🤔 What philosophical questions fascinate you?",
        "The big questions of life! 💭 From ethics to metaphysics, philosophy explores the deepest aspects of reality.",
        "I love philosophical discussions! 🧠 They challenge us to think beyond the obvious."
      ]),
    Topic("science",
      [
        "Science is the quest to understand our universe! 🔬 From quantum physics to biology, what area captivates you?",
        "The scientific method has given us incredible insights! 🌌 What scientific discoveries amaze you most?",
        "Science fiction often becomes science fact! 🚀 I'm fascinated by how human curiosity drives discovery."
      ]),
    Topic("creativity",
      [
        "Creativity is one of humanity's greatest gifts! 🎨 How do you express your creative side?",
        "Art, music, writing - creativity takes so many forms! 🌈 What inspires your imagination?",
        "I'm amazed by human creativity! 💫 Even as an AI, I try to be creative in my responses."
      ])
  ]

  /** Substrings of the lower-cased input that make its intent a question. */
  const QuestionCues: seq<string> := ["?", "what", "how", "why", "when", "where"]

  /** Substrings of the lower-cased input that make its intent a request. */
  const RequestCues: seq<string> := ["please", "can you", "could you", "help"]

  /** Substrings of the lower-cased input that trigger an attempt to learn the user's name. */
  const NameCues: seq<string> := ["my name is", "i am", "i'm"]

  /** The reply that acknowledges a newly learned name. */
  function Acknowledgment(name: string): string {
    "Nice to meet you, " + name + "!" + " 😊 I'll remember your name for our future conversations."
  }

  /** The question templates, before the name prefix. */
  const QuestionTemplates: seq<string> := [
    "That's a great question! 🤔 While I don't have specific data on that, I'd love to explore the topic with you.",
    "Interesting question! 💭 What specifically about this topic would you like to discuss?",
    "I appreciate your curiosity! 🌟 Let me think about that..."
  ]

  /** The request templates, before the name prefix. */
  const RequestTemplates: seq<string> := [
    "I'd be happy to help! 🤝 Could you provide more details about what you need?",
    "Of course! 💪 Tell me more about what assistance you're looking for.",
    "I'm here to help! 🎯 What specifically can I do for you?"
  ]

  /** Each template preceded by `prefix` (the user's name and a comma, or nothing). */
  function Prefixed(prefix: string, templates: seq<string>): (r: seq<string>)
    ensures |r| == |templates|
    ensures forall k :: 0 <= k < |r| ==> r[k] == prefix + templates[k]
  {
    seq(|templates|, k requires 0 <= k < |templates| => prefix + templates[k])
  }

  function QuestionPool(prefix: string): seq<string> {
    Prefixed(prefix, QuestionTemplates)
  }

  function RequestPool(prefix: string): seq<string> {
    Prefixed(prefix, RequestTemplates)
  }

  /** Mood thresholds on the compound sentiment score. */
  const LowMood: real := -0.5
  const HighMood: real := 0.5

  const LowMoodPrefix: string := "I sense you might be feeling down. 💙 "
  const HighMoodPrefix: string := "I can feel your positive energy! ✨ "

  /** The two glyphs the professional personality deletes. */
  const SmilingFace: char := '😊'
  const HuggingFace: char := '🤗'

  const Jokes: seq<string> := [" (I crack myself up! 😄)", " *virtual dad joke incoming*", " (That's my attempt at humor! 🤪)"]

  /** Substrings of the lower-cased reply that make the technical personality add its follow-up. */
  const TechnicalCues: seq<string> := ["technology", "programming", "code"]
  const TechnicalSuffix: string := " Would you like to dive deeper into the technical aspects?"

  const Flourishes: seq<string> := [
    " ✨ Life is full of interesting conversations!",
    " 🌈 Every chat teaches me something new!",
    " 🚀 Our conversation is taking off!"
  ]

  /** At most this many keywords are kept per message. */
  const KeywordLimit: nat := 10

  /** At most this many mood entries are kept in the profile. */
  const MoodCapacity: nat := 50

  predicate DistinctNames(kb: seq<Entry>) {
    forall i, j :: 0 <= i < j < |kb| ==> kb[i].name != kb[j].name
  }

  /** Category names are distinct, and `default` is the last category and has no patterns. */
  lemma KnowledgeBaseNames()
    ensures DistinctNames(KnowledgeBase)
    ensures |KnowledgeBase| > 0 && KnowledgeBase[|KnowledgeBase| - 1] == Entry(DefaultName, [], DefaultResponses)
    ensures forall i :: 0 <= i < |KnowledgeBase| - 1 ==> KnowledgeBase[i].name != DefaultName
  {
  }

  /** Every pool of the knowledge base and of the advanced topics is non-empty. */
  lemma PoolsNonEmpty()
    ensures forall e :: e in KnowledgeBase ==> e.responses != []
    ensures forall t :: t in AdvancedTopics ==> t.responses != []
  {
  }

  /** The question and request pools hold three templates each, whatever the prefix. */
  lemma ReplyPoolSizes(prefix: string)
    ensures |QuestionPool(prefix)| == 3 && |RequestPool(prefix)| == 3
  {
  }
}
