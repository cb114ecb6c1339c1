/** The second learning module (`src/components/modules/Module2Conversational.tsx`):
    keyword sentiment classification, a first-match reply table for three
    bot personalities, and the chat that feeds both. The one-second delay of
    the bot's reply becomes a queue of replies the environment delivers in
    order. */
module Module2Conversational {
  import opened Basics
  import StoreTypes

  const SectionCount: int := 3

  datatype Sentiment = Positive | Negative | Neutral

  const PositiveWords: seq<string> :=
    ["bueno", "excelente", "genial", "increíble", "fantástico", "me gusta", "perfecto", "maravilloso"]

  const NegativeWords: seq<string> :=
    ["malo", "terrible", "horrible", "odio", "no me gusta", "awful", "pésimo"]

  /** `words.filter(word => text.includes(word)).length`: each keyword counts
      at most once, however often it occurs. */
  function KeywordCount(words: seq<string>, text: string): (n: nat)
    ensures n <= |words|
    ensures n == 0 <==> forall k :: 0 <= k < |words| ==> !Contains(text, words[k])
  {
    if words == [] then 0
    else
      var rest := KeywordCount(words[1..], text);
      assert forall k :: 1 <= k < |words| ==> words[1..][k - 1] == words[k];
      (if Contains(text, words[0]) then 1 else 0) + rest
  }

  function PositiveCount(text: string): nat {
    KeywordCount(PositiveWords, Lower(text))
  }

  function NegativeCount(text: string): nat {
    KeywordCount(NegativeWords, Lower(text))
  }

  /** `analyzeSentiment`: positive iff more positive keywords than negative
      ones match, negative iff the reverse, neutral on a tie. */
  function AnalyzeSentiment(text: string): (r: Sentiment)
    ensures r == Positive <==> PositiveCount(text) > NegativeCount(text)
    ensures r == Negative <==> NegativeCount(text) > PositiveCount(text)
    ensures r == Neutral <==> PositiveCount(text) == NegativeCount(text)
  {
    var p, n := PositiveCount(text), NegativeCount(text);
    if p > n then Positive
    else if n > p then Negative
    else Neutral
  }

  /** A text holding the negative phrase "no me gusta" also holds the
      positive phrase "me gusta": both keyword lists match it. */
  lemma NegatedPhraseMatchesBoth(text: string)
    requires Contains(Lower(text), "no me gusta")
    ensures Contains(Lower(text), "me gusta")
    ensures PositiveCount(text) >= 1 && NegativeCount(text) >= 1
  {
    ContainsSlice(Lower(text), "no me gusta", 3, 11);
    assert "no me gusta"[3..11] == "me gusta";
    assert PositiveWords[5] == "me gusta";
    assert NegativeWords[4] == "no me gusta";
  }

  /** A keyword list matching at exactly one position counts one. */
  lemma {:induction false} KeywordCountSingle(words: seq<string>, text: string, j: int)
    requires 0 <= j < |words| && Contains(text, words[j])
    requires forall k :: 0 <= k < |words| && k != j ==> !Contains(text, words[k])
    ensures KeywordCount(words, text) == 1
  {
    if j == 0 {
      assert forall k :: 0 <= k < |words[1..]| ==> !Contains(text, words[1..][k]) by {
        forall k | 0 <= k < |words[1..]| ensures !Contains(text, words[1..][k]) {
          assert words[1..][k] == words[k + 1];
        }
      }
    } else {
      forall k | 0 <= k < |words[1..]| && k != j - 1 ensures !Contains(text, words[1..][k]) {
        assert words[1..][k] == words[k + 1];
      }
      KeywordCountSingle(words[1..], text, j - 1);
    }
  }

  /** "no me gusta" is already lower case. */
  lemma NoMeGustaLower()
    ensures Lower("no me gusta") == "no me gusta"
  {
    var t := "no me gusta";
    forall i | 0 <= i < |t| ensures LowerChar(t[i]) == t[i] {
      assert t[i] in "nomegusta ";
    }
  }

  /** Of the positive keywords, only "me gusta" occurs in "no me gusta". */
  lemma NoMeGustaPositive()
    ensures PositiveCount("no me gusta") == 1
  {
    var t := "no me gusta";
    NoMeGustaLower();
    assert OccursAt(t, "me gusta", 3);
    AbsentCharNotContained(t, "bueno", 0);
    AbsentCharNotContained(t, "excelente", 1);
    AbsentCharNotContained(t, "genial", 3);
    AbsentCharNotContained(t, "increíble", 0);
    AbsentCharNotContained(t, "fantástico", 0);
    AbsentCharNotContained(t, "perfecto", 0);
    AbsentCharNotContained(t, "maravilloso", 2);
    KeywordCountSingle(PositiveWords, t, 5);
  }

  /** Of the negative keywords, only "no me gusta" itself occurs. */
  lemma NoMeGustaNegative()
    ensures NegativeCount("no me gusta") == 1
  {
    var t := "no me gusta";
    NoMeGustaLower();
    assert OccursAt(t, "no me gusta", 0);
    AbsentCharNotContained(t, "malo", 2);
    AbsentCharNotContained(t, "terrible", 2);
    AbsentCharNotContained(t, "horrible", 0);
    AbsentCharNotContained(t, "odio", 1);
    AbsentCharNotContained(t, "awful", 1);
    AbsentCharNotContained(t, "pésimo", 0);
    KeywordCountSingle(NegativeWords, t, 4);
  }

  /** On its own, "no me gusta" is classified neutral: one keyword of each
      list matches and no other. */
  lemma NoMeGustaIsNeutral()
    ensures AnalyzeSentiment("no me gusta") == Sentiment.Neutral
  {
    NoMeGustaPositive();
    NoMeGustaNegative();
  }

  // ---------------------------------------------------------------------
  // Bot replies

  datatype Personality = Friendly | Professional | Creative

  function PersonalityName(p: Personality): string {
    match p
    case Friendly => "friendly"
    case Professional => "professional"
    case Creative => "creative"
  }

  /** The keys of a personality's reply table. */
  datatype Intent = Greeting | Goodbye | GlobalTopic | Technology | AiTopic | Fallback

  /** `getBotResponse`'s rule chain on the lower-cased message. */
  function DetectIntent(lower: string): Intent {
    if Contains(lower, "hola") || Contains(lower, "hi") then Greeting
    else if Contains(lower, "adiós") || Contains(lower, "bye") then Goodbye
    else if Contains(lower, "global") || Contains(lower, "mundial") || Contains(lower, "internacional") then GlobalTopic
    else if Contains(lower, "tecnología") || Contains(lower, "tech") || Contains(lower, "innovación") then Technology
    else if Contains(lower, "ia") || Contains(lower, "inteligencia artificial") then AiTopic
    else Fallback
  }

  /** The first group with a matching keyword wins, in the order greeting,
      goodbye, global, technology, AI; the default answers when none
      matches. */
  lemma DetectIntentFirstMatch(lower: string)
    ensures var i := DetectIntent(lower);
            (i == Greeting <==> Contains(lower, "hola") || Contains(lower, "hi"))
            && (i == Goodbye <==> i != Greeting && (Contains(lower, "adiós") || Contains(lower, "bye")))
            && (i == GlobalTopic <==>
                  i !in {Greeting, Goodbye}
                  && (Contains(lower, "global") || Contains(lower, "mundial")
                      || Contains(lower, "internacional")))
            && (i == Technology <==>
                  i !in {Greeting, Goodbye, GlobalTopic}
                  && (Contains(lower, "tecnología") || Contains(lower, "tech")
                      || Contains(lower, "innovación")))
            && (i == AiTopic <==>
                  i !in {Greeting, Goodbye, GlobalTopic, Technology}
                  && (Contains(lower, "ia") || Contains(lower, "inteligencia artificial")))
  {
  }

  /** The "inteligencia artificial" alternative never decides anything:
      every text containing it already contains "ia". */
  lemma ArtificialIntelligenceImpliesIa(lower: string)
    requires Contains(lower, "inteligencia artificial")
    ensures Contains(lower, "ia")
  {
    ContainsSlice(lower, "inteligencia artificial", 10, 12);
    assert "inteligencia artificial"[10..12] == "ia";
  }

  /** The reply tables of the three personalities. */
  function Reply(p: Personality, i: Intent): string {
    match p
    case Friendly =>
      (match i
       case Greeting => "¡Hola! Soy tu asistente virtual global. ¿En qué te puedo ayudar hoy? 😊"
       case Fallback => "¡Qué interesante! Cuéntame más sobre eso."
       case Goodbye => "¡Hasta luego! Que tengas un día increíble."
       case GlobalTopic => "¡La innovación tecnológica global es impresionante! ¿Has escuchado sobre Singapur Smart Nation?"
       case Technology => "La tecnología mundial está llena de magia e innovación. ¿Sabías que ciudades como Helsinki y Toronto lideran en IA?"
       case AiTopic => "La inteligencia artificial es fascinante. ¡En todo el mundo hay proyectos increíbles!")
    case Professional =>
      (match i
       case Greeting => "Buenos días. Soy un asistente especializado en IA. ¿Cómo puedo asistirle?"
       case Fallback => "Entiendo su consulta. Permítame procesar esa información."
       case Goodbye => "Gracias por usar nuestros servicios. Hasta pronto."
       case GlobalTopic => "Las ciudades inteligentes como Singapur, Helsinki y Barcelona son reconocidas internacionalmente por su transformación digital."
       case Technology => "El mundo ha experimentado un crecimiento significativo en el sector tecnológico global."
       case AiTopic => "La inteligencia artificial presenta oportunidades importantes para el desarrollo económico.")
    case Creative =>
      (match i
       case Greeting => "¡Hola, ser creativo! 🎨 Soy tu compañero digital lleno de ideas. ¿Qué vamos a crear hoy?"
       case Fallback => "¡Wow! Eso despertó mi creatividad. ¿Y si lo combinamos con algo inesperado?"
       case Goodbye => "¡Que tu creatividad florezca como la innovación global! 🌺"
       case GlobalTopic => "¡El mundo es pura inspiración! Desde el arte digital en Tokio hasta la innovación tecnológica en Silicon Valley. ¿Has explorado el arte digital internacional?"
       case Technology => "El mundo es un lienzo de culturas, colores y tecnología. ¡Somos una comunidad global de creatividad infinita!"
       case AiTopic => "La IA es como magia moderna. ¡Imagínate las obras de arte que podemos crear juntos!")
  }

  /** `getBotResponse(message)` with the personality selected at the time. */
  function GetBotResponse(p: Personality, message: string): string {
    Reply(p, DetectIntent(Lower(message)))
  }

  // ---------------------------------------------------------------------
  // The chat and the completion report

  datatype Role = User | Bot

  datatype ChatMessage = ChatMessage(role: Role, message: string, sentiment: Option<Sentiment>)

  datatype SentimentTally = SentimentTally(positive: nat, negative: nat, neutral: nat)

  /** `prev[sentiment] + 1` on the matching counter. */
  function Bump(t: SentimentTally, s: Sentiment): (r: SentimentTally)
    ensures r.positive + r.negative + r.neutral == t.positive + t.negative + t.neutral + 1
    ensures s == Positive ==> r == t.(positive := t.positive + 1)
    ensures s == Negative ==> r == t.(negative := t.negative + 1)
    ensures s == Neutral ==> r == t.(neutral := t.neutral + 1)
  {
    match s
    case Positive => t.(positive := t.positive + 1)
    case Negative => t.(negative := t.negative + 1)
    case Neutral => t.(neutral := t.neutral + 1)
  }

  /** The number of messages the user sent. */
  function UserMessages(ms: seq<ChatMessage>): (n: nat)
    ensures n <= |ms|
  {
    if ms == [] then 0
    else UserMessages(ms[..|ms| - 1]) + (if ms[|ms| - 1].role == User then 1 else 0)
  }

  /** The creation handed over when the module has none of its own. The
      fields the literal leaves out are zero, empty or the creation date. */
  function DefaultChatbot(id: string, p: Personality, userName: string, messagesCount: int,
                          now: StoreTypes.Time): StoreTypes.Creation
  {
    StoreTypes.Creation(id, "chatbot", "Chatbot " + PersonalityName(p) + " - " + userName,
             "Chatbot conversacional con personalidad " + PersonalityName(p),
             StoreTypes.ChatbotData(PersonalityName(p), messagesCount), "💬", 0, 0,
             ["nlp", "chatbot", PersonalityName(p)], true, [], now, now)
  }

  /** What the last section hands to `onComplete`: the module's creations or
      else exactly one default chatbot; the module's achievements followed
      by `conversational-expert` iff at least five messages (the user's and
      the bot's) exist and `positive-communicator` iff more positive than
      negative messages were sent; no decisions. */
  function FinalReport(score: int, achievements: seq<string>, creations: seq<StoreTypes.Creation>,
                       chatbot: StoreTypes.Creation, messages: nat, tally: SentimentTally)
    : (r: StoreTypes.CompletionReport)
    ensures r.score == score && r.decisions == []
    ensures r.creations == if creations == [] then [chatbot] else creations
    ensures |achievements| <= |r.achievements| <= |achievements| + 2
    ensures r.achievements[..|achievements|] == achievements
    ensures r.achievements == achievements + (if messages >= 5 then ["conversational-expert"] else [])
                              + (if tally.positive > tally.negative then ["positive-communicator"] else [])
    ensures Count(r.achievements, "conversational-expert")
            == Count(achievements, "conversational-expert") + (if messages >= 5 then 1 else 0)
    ensures Count(r.achievements, "positive-communicator")
            == Count(achievements, "positive-communicator") + (if tally.positive > tally.negative then 1 else 0)
  {
    var expert := PushIf(achievements, messages >= 5, "conversational-expert");
    var all := PushIf(expert, tally.positive > tally.negative, "positive-communicator");
    assert all == achievements + (if messages >= 5 then ["conversational-expert"] else [])
                  + (if tally.positive > tally.negative then ["positive-communicator"] else []);
    assert all[..|achievements|] == expert[..|expert|][..|achievements|];
    StoreTypes.CompletionReport(score, all, if creations == [] then [chatbot] else creations, [])
  }

  class Conversational {
    const userName: string
    var currentSection: int
    var score: int
    var chatMessages: seq<ChatMessage>
    var userInput: string
    var sentimentAnalysis: SentimentTally
    var botPersonality: Personality
    var creations: seq<StoreTypes.Creation>
    var achievements: seq<string>
    /** The bot replies scheduled and not yet shown, oldest first: the
        personality and the message each timeout captured. */
    var pendingReplies: seq<(Personality, string)>

    /** The section stays in range; every sent message is counted once in the
        tally and earned 10 points; the module never collects creations or
        achievements of its own. */
    ghost predicate Valid()
      reads this
    {
      0 <= currentSection < SectionCount
      && sentimentAnalysis.positive + sentimentAnalysis.negative + sentimentAnalysis.neutral
         == UserMessages(chatMessages)
      && score == 10 * UserMessages(chatMessages)
      && creations == [] && achievements == []
    }

    constructor (name: string)
      ensures Valid() && userName == name
      ensures currentSection == 0 && score == 0 && chatMessages == [] && userInput == ""
      ensures sentimentAnalysis == SentimentTally(0, 0, 0) && botPersonality == Friendly
      ensures pendingReplies == []
    {
      userName := name;
      currentSection, score := 0, 0;
      chatMessages, userInput := [], "";
      sentimentAnalysis := SentimentTally(0, 0, 0);
      botPersonality := Friendly;
      creations, achievements, pendingReplies := [], [], [];
    }

    method SetUserInput(text: string)
      requires Valid()
      modifies this
      ensures Valid() && userInput == text
      ensures unchanged(this`currentSection, this`score, this`chatMessages, this`sentimentAnalysis)
      ensures unchanged(this`botPersonality, this`pendingReplies)
    {
      userInput := text;
    }

    method SetBotPersonality(p: Personality)
      requires Valid()
      modifies this
      ensures Valid() && botPersonality == p
      ensures unchanged(this`currentSection, this`score, this`chatMessages, this`sentimentAnalysis)
      ensures unchanged(this`userInput, this`pendingReplies)
    {
      botPersonality := p;
    }

    /** `handleSendMessage`: an all-whitespace input changes nothing;
        otherwise one user message with its sentiment is appended, the reply
        chosen now is scheduled, exactly one sentiment counter goes up, 10
        points are added and the input is cleared. */
    method HandleSendMessage()
      requires Valid()
      modifies this
      ensures Valid()
      ensures !HasContent(old(userInput)) ==>
                chatMessages == old(chatMessages) && score == old(score)
                && sentimentAnalysis == old(sentimentAnalysis) && pendingReplies == old(pendingReplies)
                && userInput == old(userInput)
      ensures HasContent(old(userInput)) ==>
                var s := AnalyzeSentiment(old(userInput));
                chatMessages == old(chatMessages) + [ChatMessage(User, old(userInput), Some(s))]
                && pendingReplies == old(pendingReplies) + [(botPersonality, old(userInput))]
                && sentimentAnalysis == Bump(old(sentimentAnalysis), s)
                && score == old(score) + 10
                && userInput == ""
      ensures unchanged(this`currentSection, this`botPersonality)
    {
      if !HasContent(userInput) {
        return;
      }
      var sentiment := AnalyzeSentiment(userInput);
      var prior := chatMessages;
      chatMessages := chatMessages + [ChatMessage(User, userInput, Some(sentiment))];
      assert chatMessages[..|chatMessages| - 1] == prior;
      assert UserMessages(chatMessages) == UserMessages(prior) + 1;
      pendingReplies := pendingReplies + [(botPersonality, userInput)];
      sentimentAnalysis := Bump(sentimentAnalysis, sentiment);
      score := score + 10;
      userInput := "";
    }

    /** The oldest scheduled timeout fires: the reply to the message it
        captured, in the personality it captured, appears in the chat. */
    method DeliverReply()
      requires Valid() && pendingReplies != []
      modifies this
      ensures Valid()
      ensures var (p, text) := old(pendingReplies[0]);
              chatMessages == old(chatMessages) + [ChatMessage(Bot, GetBotResponse(p, text), None)]
      ensures pendingReplies == old(pendingReplies[1..])
      ensures unchanged(this`currentSection, this`score, this`userInput, this`sentimentAnalysis)
      ensures unchanged(this`botPersonality)
    {
      var (personality, text) := pendingReplies[0];
      var botResponse := GetBotResponse(personality, text);
      pendingReplies := pendingReplies[1..];
      PostBotMessage(botResponse);
    }

    /** Appends a bot message; the tally and the score count user messages
        only, so they stay in step. */
    method PostBotMessage(text: string)
      requires Valid()
      modifies this
      ensures Valid()
      ensures chatMessages == old(chatMessages) + [ChatMessage(Bot, text, None)]
      ensures unchanged(this`currentSection, this`score, this`userInput, this`sentimentAnalysis)
      ensures unchanged(this`botPersonality, this`pendingReplies)
    {
      var prior := chatMessages;
      chatMessages := chatMessages + [ChatMessage(Bot, text, None)];
      assert chatMessages[..|chatMessages| - 1] == prior;
      assert UserMessages(chatMessages) == UserMessages(prior);
    }

    /** `nextSection`; `newId` is the `crypto.randomUUID()` of the default
        chatbot. */
    method NextSection(newId: string, now: StoreTypes.Time)
      returns (report: Option<StoreTypes.CompletionReport>)
      requires Valid()
      modifies this
      ensures Valid()
      ensures old(currentSection) < SectionCount - 1 ==>
                report.None? && currentSection == old(currentSection) + 1
      ensures old(currentSection) == SectionCount - 1 ==>
                currentSection == old(currentSection)
                && report == Some(FinalReport(score, achievements, creations,
                                              DefaultChatbot(newId, botPersonality, userName,
                                                             |chatMessages|, now),
                                              |chatMessages|, sentimentAnalysis))
      ensures unchanged(this`score, this`chatMessages, this`userInput, this`sentimentAnalysis)
      ensures unchanged(this`botPersonality, this`pendingReplies)
    {
      if currentSection < SectionCount - 1 {
        currentSection := currentSection + 1;
        return None;
      }
      var chatbot := DefaultChatbot(newId, botPersonality, userName, |chatMessages|, now);
      return Some(FinalReport(score, achievements, creations, chatbot, |chatMessages|, sentimentAnalysis));
    }

    /** The "back" button: `Math.max(0, prev - 1)`. */
    method PrevSection()
      requires Valid()
      modifies this
      ensures Valid() && currentSection == Max(0, old(currentSection) - 1)
      ensures unchanged(this`score, this`chatMessages, this`userInput, this`sentimentAnalysis)
      ensures unchanged(this`botPersonality, this`pendingReplies)
    {
      currentSection := Max(0, currentSection - 1);
    }
  }
}
