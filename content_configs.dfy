/**
 * The content-type registry of `config/contentConfigs.js`: fourteen content
 * types, in the order of the object literal, each with a system prompt and a
 * user-prompt template of `(keyword, tone, length)`.
 */
module ContentConfigs {
  import opened Wrappers
  import opened Strings
  import opened Templates

  datatype ContentType =
    | Shayari | Joke | Quote | Story | Riddle | PickupLine | Roast | Compliment
    | DadJoke | Haiku | RapLyrics | TweetThread | Acrostic | MotivationalSpeech

  /** The property name of each type in the registry object. */
  function Id(t: ContentType): string {
    match t
    case Shayari => "shayari"
    case Joke => "joke"
    case Quote => "quote"
    case Story => "story"
    case Riddle => "riddle"
    case PickupLine => "pickup-line"
    case Roast => "roast"
    case Compliment => "compliment"
    case DadJoke => "dad-joke"
    case Haiku => "haiku"
    case RapLyrics => "rap-lyrics"
    case TweetThread => "tweet-thread"
    case Acrostic => "acrostic"
    case MotivationalSpeech => "motivational-speech"
  }

  /** The types in the order the object literal declares them. */
  const Types: seq<ContentType> :=
    [Shayari, Joke, Quote, Story, Riddle, PickupLine, Roast, Compliment,
     DadJoke, Haiku, RapLyrics, TweetThread, Acrostic, MotivationalSpeech]

  /** `Object.keys(contentConfigs)`. */
  function Keys(): (keys: seq<string>)
    ensures keys == ["shayari", "joke", "quote", "story", "riddle", "pickup-line", "roast",
                     "compliment", "dad-joke", "haiku", "rap-lyrics", "tweet-thread", "acrostic",
                     "motivational-speech"]
    ensures forall i :: 0 <= i < |keys| ==> keys[i] == Id(Types[i])
  {
    seq(|Types|, i requires 0 <= i < |Types| => Id(Types[i]))
  }

  /** The first type among `ts` whose key is `s`. */
  function Find(s: string, ts: seq<ContentType>): (r: Option<ContentType>)
    ensures r.Some? ==> Id(r.value) == s && r.value in ts
    ensures r.None? ==> forall t :: t in ts ==> Id(t) != s
  {
    if ts == [] then None
    else if Id(ts[0]) == s then Some(ts[0])
    else Find(s, ts[1..])
  }

  /** `contentConfigs[s]`: the type whose key is `s`, if there is one. */
  function Parse(s: string): (r: Option<ContentType>)
    ensures r.Some? ==> Id(r.value) == s
    ensures r.None? ==> forall t :: Id(t) != s
  {
    AllTypesListed();
    Find(s, Types)
  }

  lemma AllTypesListed()
    ensures forall t :: t in Types
  {
    forall t: ContentType ensures t in Types {
      match t
      case Shayari => {}
      case Joke => {}
      case Quote => {}
      case Story => {}
      case Riddle => {}
      case PickupLine => {}
      case Roast => {}
      case Compliment => {}
      case DadJoke => {}
      case Haiku => {}
      case RapLyrics => {}
      case TweetThread => {}
      case Acrostic => {}
      case MotivationalSpeech => {}
    }
  }

  /** The error text for a type that is not a registry key. */
  function UnsupportedTypeMessage(contentType: string): string {
    "Content type \"" + contentType + "\" is not supported."
  }

  /** Whatever occurs in the rejected type occurs in the error text. */
  lemma UnsupportedMessageQuotes(contentType: string, sub: string)
    requires Occurs(sub, contentType)
    ensures Occurs(sub, UnsupportedTypeMessage(contentType))
  {
    var pre, post :| contentType == pre + sub + post;
    assert UnsupportedTypeMessage(contentType) == ("Content type \"" + pre) + sub + (post + "\" is not supported.");
  }

  /** The `systemPrompt` of each type. */
  function SystemPrompt(t: ContentType): string {
    match t
    case Shayari => "You are a talented Urdu/Hindi poet who creates beautiful, emotional Shayari. Use elegant language and poetic devices."
    case Joke => "You are a witty comedian who creates clever, appropriate jokes."
    case Quote => "You are an inspirational speaker who creates meaningful, memorable quotes."
    case Story => "You are a creative storyteller who weaves engaging narratives."
    case Riddle => "You are a master of riddles who creates challenging but solvable puzzles."
    case PickupLine => "You are a charming wordsmith who creates clever, respectful pickup lines."
    case Roast => "You are a comedy roaster who creates playful, good-natured roasts."
    case Compliment => "You are a sincere person who gives genuine, thoughtful compliments."
    case DadJoke => "You are a dad who tells classic pun-based dad jokes."
    case Haiku => "You are a haiku master who creates traditional 5-7-5 syllable poems."
    case RapLyrics => "You are a talented rapper who creates clever rhymes with flow."
    case TweetThread => "You are a social media expert who creates engaging tweet threads."
    case Acrostic => "You create beautiful acrostic poems where first letters spell out words."
    case MotivationalSpeech => "You are an inspiring motivational speaker who energizes and empowers people."
  }

  /** The `userPromptTemplate` of each type. Two long segments are written as `"\"" + "..."`:
      the same string, spelt so that the verifier sees its first character at once. */
  function TemplateOf(t: ContentType): Template {
    match t
    case Shayari => ShayariTemplate
    case Joke => JokeTemplate
    case Quote => QuoteTemplate
    case Story => StoryTemplate
    case Riddle => RiddleTemplate
    case PickupLine => PickupLineTemplate
    case Roast => RoastTemplate
    case Compliment => ComplimentTemplate
    case DadJoke => DadJokeTemplate
    case Haiku => HaikuTemplate
    case RapLyrics => RapLyricsTemplate
    case TweetThread => TweetThreadTemplate
    case Acrostic => AcrosticTemplate
    case MotivationalSpeech => MotivationalSpeechTemplate
  }

  const ShayariTemplate: Template :=
    [Text("Write a "), Tone, Text(" Shayari about \""), Keyword, Text("\". Length: "), Length,
       Text(". Make it heartfelt and poetic with proper verse structure.")]

  const JokeTemplate: Template :=
    [Text("Tell a "), Tone, Text(" joke about \""), Keyword, Text("\". Length: "), Length,
       Text(". Make it clever and entertaining.")]

  const QuoteTemplate: Template :=
    [Text("Create a "), Tone, Text(" inspirational quote about \""), Keyword, Text("\". Length: "), Length,
       Text(". Make it profound and impactful.")]

  const StoryTemplate: Template :=
    [Text("Write a "), Tone, Text(" short story about \""), Keyword, Text("\". Length: "), Length,
       Text(". Make it engaging with a clear beginning, middle, and end.")]

  const RiddleTemplate: Template :=
    [Text("Create a "), Tone, Text(" riddle about \""), Keyword, Text("\". Length: "), Length,
       Text(". Include the answer at the end with \"Answer:\" prefix.")]

  const PickupLineTemplate: Template :=
    [Text("Create a "), Tone, Text(" pickup line related to \""), Keyword, Text("\". Length: "), Length,
       Text(". Keep it respectful and witty.")]

  const RoastTemplate: Template :=
    [Text("Write a "), Tone, Text(" roast about \""), Keyword, Text("\". Length: "), Length,
       Text(". Keep it funny and light-hearted, not mean-spirited.")]

  const ComplimentTemplate: Template :=
    [Text("Create a "), Tone, Text(" compliment about \""), Keyword, Text("\". Length: "), Length,
       Text(". Make it genuine and heartwarming.")]

  const DadJokeTemplate: Template :=
    [Text("Tell a dad joke about \""), Keyword, Text("\". Length: "), Length,
       Text(". Use puns and wholesome humor.")]

  const HaikuTemplate: Template :=
    [Text("Write a "), Tone, Text(" haiku about \""), Keyword,
       Text("\"" + ". Follow the 5-7-5 syllable structure strictly. Create "), ByLength("1", "2", "3"),
       Text(" haiku(s).")]

  const RapLyricsTemplate: Template :=
    [Text("Write "), Tone, Text(" rap lyrics about \""), Keyword, Text("\". Length: "), Length,
       Text(". Include rhyme scheme and wordplay.")]

  const TweetThreadTemplate: Template :=
    [Text("Create a "), Tone, Text(" tweet thread about \""), Keyword, Text("\". Length: "),
       ByLength("3 tweets", "5 tweets", "8 tweets"), Text(". Number each tweet.")]

  const AcrosticTemplate: Template :=
    [Text("Write a "), Tone, Text(" acrostic poem using the word \""), Keyword,
       Text("\"" + ". Each line should start with letters from the keyword in order.")]

  const MotivationalSpeechTemplate: Template :=
    [Text("Write a "), Tone, Text(" motivational speech about \""), Keyword, Text("\". Length: "), Length,
       Text(". Make it powerful and inspiring.")]

  /** The registry object's value for each type. */
  function EntryOf(t: ContentType): Entry {
    Entry(SystemPrompt(t), TemplateOf(t))
  }

  /** `contentConfigs[Id(t)].userPromptTemplate(keyword, tone, length)`. */
  function UserPrompt(t: ContentType, keyword: string, tone: string, length: string): string {
    Render(TemplateOf(t), keyword, tone, length)
  }

  /** Every type is listed exactly once. */
  lemma TypesEnumerateAll(t: ContentType)
    ensures t in Types
    ensures forall i, j :: 0 <= i < j < |Types| ==> Types[i] != Types[j]
  {
  }

  /** Parsing a key gives back its type, and the keys are pairwise distinct. */
  lemma ParseId(t: ContentType)
    ensures Parse(Id(t)) == Some(t)
  {
    AllTypesListed();
    IdInjective(Parse(Id(t)).value, t);
  }

  /** No two types share a key. */
  lemma IdInjective(a: ContentType, b: ContentType)
    requires Id(a) == Id(b)
    ensures a == b
  {
    match a
    case Shayari => {}
    case Joke => {}
    case Quote => {}
    case Story => {}
    case Riddle => {}
    case PickupLine => {}
    case Roast => {}
    case Compliment => {}
    case DadJoke => {}
    case Haiku => {}
    case RapLyrics => {}
    case TweetThread => {}
    case Acrostic => {}
    case MotivationalSpeech => {}
  }

  /** A string names a type exactly when it is one of the registry's keys. */
  lemma ParseIffKey(s: string)
    ensures Parse(s).Some? <==> s in Keys()
  {
    if Parse(s).Some? {
      var t := Parse(s).value;
      TypesEnumerateAll(t);
      var i :| 0 <= i < |Types| && Types[i] == t;
      assert Keys()[i] == s;
    }
  }

  /** Where the `${keyword}` hole sits in each template. */
  function KeywordSlot(t: ContentType): nat {
    if t == DadJoke then 1 else 3
  }

  /** Where the `${length}` hole sits in the templates that have one. */
  function LengthSlot(t: ContentType): nat {
    if t == DadJoke then 3 else 5
  }

  /** In every template literal the keyword hole is wrapped in double quotes. */
  lemma KeywordLayout(t: ContentType)
    ensures 0 < KeywordSlot(t) < |TemplateOf(t)| - 1
    ensures TemplateOf(t)[KeywordSlot(t)] == Keyword
    ensures TemplateOf(t)[KeywordSlot(t) - 1].Text? && HasSuffix(TemplateOf(t)[KeywordSlot(t) - 1].s, "\"")
    ensures TemplateOf(t)[KeywordSlot(t) + 1].Text? && HasPrefix(TemplateOf(t)[KeywordSlot(t) + 1].s, "\"")
  {
    match t
    case Shayari => {}
    case Joke => {}
    case Quote => {}
    case Story => {}
    case Riddle => {}
    case PickupLine => {}
    case Roast => {}
    case Compliment => {}
    case DadJoke => {}
    case Haiku => {}
    case RapLyrics => {}
    case TweetThread => {}
    case Acrostic => {}
    case MotivationalSpeech => {}
  }

  /** The tone hole comes second in every template literal but dad-joke's, which has none. */
  lemma ToneLayout(t: ContentType)
    ensures t != DadJoke ==> 1 < |TemplateOf(t)| && TemplateOf(t)[1] == Tone
    ensures t == DadJoke ==> Tone !in TemplateOf(t)
  {
    match t
    case Shayari => {}
    case Joke => {}
    case Quote => {}
    case Story => {}
    case Riddle => {}
    case PickupLine => {}
    case Roast => {}
    case Compliment => {}
    case DadJoke => {}
    case Haiku => {}
    case RapLyrics => {}
    case TweetThread => {}
    case Acrostic => {}
    case MotivationalSpeech => {}
  }

  /** Eleven template literals put the length hole right after the words "Length: ". */
  lemma LengthLayout(t: ContentType)
    requires t !in {Haiku, TweetThread, Acrostic}
    ensures 0 < LengthSlot(t) < |TemplateOf(t)| && TemplateOf(t)[LengthSlot(t)] == Length
    ensures TemplateOf(t)[LengthSlot(t) - 1].Text? && HasSuffix(TemplateOf(t)[LengthSlot(t) - 1].s, "Length: ")
  {
    match t
    case Shayari => {}
    case Joke => {}
    case Quote => {}
    case Story => {}
    case Riddle => {}
    case PickupLine => {}
    case Roast => {}
    case Compliment => {}
    case DadJoke => {}
    case RapLyrics => {}
    case MotivationalSpeech => {}
  }

  /** The keyword appears in double quotes in every template's output. */
  lemma UserPromptQuotesKeyword(t: ContentType, keyword: string, tone: string, length: string)
    ensures Occurs("\"" + keyword + "\"", UserPrompt(t, keyword, tone, length))
  {
    KeywordLayout(t);
    FramedHoleOccurs(TemplateOf(t), KeywordSlot(t), "\"", "\"", keyword, tone, length);
  }

  /** Every template except dad-joke's interpolates the tone. */
  lemma UserPromptMentionsTone(t: ContentType, keyword: string, tone: string, length: string)
    requires t != DadJoke
    ensures Occurs(tone, UserPrompt(t, keyword, tone, length))
  {
    ToneLayout(t);
    PartOccurs(TemplateOf(t), 1, keyword, tone, length);
  }

  /** The output is the same for every tone exactly for the dad-joke type. */
  lemma ToneMattersExceptDadJoke(t: ContentType, keyword: string, length: string)
    ensures (forall tone1, tone2 :: UserPrompt(t, keyword, tone1, length) == UserPrompt(t, keyword, tone2, length))
            <==> t == DadJoke
  {
    var tpl := TemplateOf(t);
    ToneLayout(t);
    if t == DadJoke {
      forall tone1, tone2 ensures UserPrompt(t, keyword, tone1, length) == UserPrompt(t, keyword, tone2, length) {
        ToneFree(tpl, keyword, tone1, tone2, length);
      }
    } else {
      assert Tone in tpl;
      ToneGrows(tpl, keyword, length);
      assert UserPrompt(t, keyword, "", length) != UserPrompt(t, keyword, "x", length);
    }
  }

  /** The eleven types with a `Length: ${length}` sentence echo the length verbatim. */
  lemma UserPromptEchoesLength(t: ContentType, keyword: string, tone: string, length: string)
    requires t !in {Haiku, TweetThread, Acrostic}
    ensures Occurs("Length: " + length, UserPrompt(t, keyword, tone, length))
  {
    LengthLayout(t);
    LedHoleOccurs(TemplateOf(t), LengthSlot(t), "Length: ", keyword, tone, length);
  }

  /** The acrostic output does not depend on the length. */
  lemma AcrosticIgnoresLength(keyword: string, tone: string, length1: string, length2: string)
    ensures UserPrompt(Acrostic, keyword, tone, length1) == UserPrompt(Acrostic, keyword, tone, length2)
  {
    LengthFree(AcrosticTemplate, keyword, tone, length1, length2);
  }

  /** The closing sentence of the haiku prompt for a given count. */
  function HaikuSentence(count: string): string {
    "Create " + count + " haiku(s)."
  }

  /** The closing sentences of the tweet-thread prompt for a given thread length. */
  function TweetThreadSentence(tweets: string): string {
    "Length: " + tweets + ". Number each tweet."
  }

  /** The haiku prompt ends with the sentence that asks for the count. */
  lemma HaikuTail(keyword: string, tone: string, length: string)
    ensures HasSuffix(UserPrompt(Haiku, keyword, tone, length),
                      HaikuSentence(RenderPart(ByLength("1", "2", "3"), keyword, tone, length)))
  {
    EndsWithHole(HaikuTemplate, "Create ", keyword, tone, length);
  }

  /** The number of haikus asked for: "1" for short, "2" for medium, "3" for every other length. */
  lemma HaikuCount(keyword: string, tone: string, length: string)
    ensures HasSuffix(UserPrompt(Haiku, keyword, tone, length), HaikuSentence("1")) <==> length == "short"
    ensures HasSuffix(UserPrompt(Haiku, keyword, tone, length), HaikuSentence("2")) <==> length == "medium"
    ensures HasSuffix(UserPrompt(Haiku, keyword, tone, length), HaikuSentence("3"))
            <==> length != "short" && length != "medium"
  {
    HaikuTail(keyword, tone, length);
    ChoiceAtEnd(UserPrompt(Haiku, keyword, tone, length), "Create ", "1", "2", "3", " haiku(s).", keyword, tone, length);
  }

  /** The tweet-thread prompt ends with the sentence that asks for the thread length. */
  lemma TweetThreadTail(keyword: string, tone: string, length: string)
    ensures HasSuffix(UserPrompt(TweetThread, keyword, tone, length),
                      TweetThreadSentence(RenderPart(ByLength("3 tweets", "5 tweets", "8 tweets"), keyword, tone, length)))
  {
    EndsWithHole(TweetThreadTemplate, "Length: ", keyword, tone, length);
  }

  /** The thread length asked for: 3 tweets for short, 5 for medium, 8 for every other length. */
  lemma TweetThreadCount(keyword: string, tone: string, length: string)
    ensures HasSuffix(UserPrompt(TweetThread, keyword, tone, length), TweetThreadSentence("3 tweets"))
            <==> length == "short"
    ensures HasSuffix(UserPrompt(TweetThread, keyword, tone, length), TweetThreadSentence("5 tweets"))
            <==> length == "medium"
    ensures HasSuffix(UserPrompt(TweetThread, keyword, tone, length), TweetThreadSentence("8 tweets"))
            <==> length != "short" && length != "medium"
  {
    TweetThreadTail(keyword, tone, length);
    ChoiceAtEnd(UserPrompt(TweetThread, keyword, tone, length), "Length: ", "3 tweets", "5 tweets", "8 tweets",
                ". Number each tweet.", keyword, tone, length);
  }
}
