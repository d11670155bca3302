/** The fixed texts of backend/main.py and the replies built from them: the
    `RESPONSES` templates, the smart-fallback replies, and the quoting
    default reply.  A reply is kept as the choice that produced it (which
    template, which fallback, or the generated text); `Render` gives its
    text.  Long texts are written as the concatenation of their sentences,
    as the source writes the crisis message. */
module Replies {
  import opened Text
  import opened Intents

  /** The ten labels `RESPONSES` has an entry for. */
  predicate HasTemplates(i: Intent)
  {
    i in {Greeting, Smalltalk, Stress, Anxiety, Sadness, Motivation, Goodbye, Gratitude, Unknown, Crisis}
  }

  /** The length of a label's entry: three templates each, one for `crisis`. */
  function TemplateCount(i: Intent): nat
  {
    if i == Crisis then 1 else if HasTemplates(i) then 3 else 0
  }

  /** `RESPONSES[Name(i)][n]`. */
  function TemplateText(i: Intent, n: nat): string
    requires n < TemplateCount(i)
  {
    match i
    case Greeting =>
      if n == 0 then "Hi! I'm NeuroCare. I'm really glad you reached out. What's going on in your world today?"
      else if n == 1 then "Hello! It's good to see you. I'm here to listen whenever you need to talk. How are you feeling right now?"
      else "Hey there! Thanks for opening up to me. I'm genuinely here to support you. What's on your mind?"
    case Smalltalk =>
      if n == 0 then "I appreciate you checking in with me! But I'm really here to understand what's happening with YOU. Is there something weighing on your heart today?"
      else if n == 1 then "That's kind of you to ask, but I'm mainly interested in you. Tell me\U{2014}how are you really doing? What's been on your mind lately?"
      else "I exist to listen to you. So let's focus on you for a moment\U{2014}what's something you've been wanting to talk about?"
    case Stress =>
      if n == 0 then "It sounds like there's a lot of pressure on your shoulders right now. That's a heavy load to carry. Let's break it down together\U{2014}what feels like the biggest stressor?"
      else if n == 1 then "Stress can feel so overwhelming when everything piles up. I'm here with you. What's the main thing that's been stressing you out?"
      else "You're dealing with a lot right now. That takes courage to even acknowledge. Can you tell me more about what's causing the most stress?"
    case Anxiety =>
      if n == 0 then "Anxiety can be so exhausting and paralyzing. I'm sorry you're experiencing that. What does the anxiety feel like for you? When does it hit the hardest?"
      else if n == 1 then "Anxious thoughts can spiral so quickly. You're not alone in this. Would you like to talk about what's triggering your anxiety right now?"
      else "Anxiety is tough to deal with. I'm here to listen and help you work through it. What's your anxiety telling you that worries you?"
    case Sadness =>
      if n == 0 then "I'm really sorry you're feeling this way. Sadness can feel so lonely. I want you to know I'm here. What's been making you feel down?"
      else if n == 1 then "Your sadness matters, and I'm grateful you're sharing it with me. Something clearly hurt or disappointed you. Can you tell me what happened?"
      else "Sadness is a heavy emotion to carry alone. You don't have to. I'm listening. What's at the heart of how you're feeling?"
    case Motivation =>
      if n == 0 then "It's completely normal to feel unmotivated sometimes\U{2014}you're human. Let's think about this together. What's draining your motivation right now?"
      else if n == 1 then "Losing motivation can feel like you're stuck. But reaching out is already a positive step! Tell me, what would help reignite your spark?"
      else "Motivation ebbs and flows. It's okay to not feel it right now. But let's explore together\U{2014}what's one small thing that might help you move forward?"
    case Goodbye =>
      if n == 0 then "I'm so glad we got to talk today. Remember, you're stronger than you know. Take care of yourself, and come back whenever you need to. You've got this! \U{1F49A}"
      else if n == 1 then "Thank you for opening up to me. You're doing better than you think. Be gentle with yourself, and know I'm always here. See you soon!"
      else "It was really meaningful talking with you. You matter more than you realize. Rest well, and remember\U{2014}reaching out takes courage. I'm proud of you. \U{1F49A}"
    case Gratitude =>
      if n == 0 then "You're so welcome! I'm here for you, and I genuinely care about your wellbeing. Don't hesitate to come back if you need support."
      else if n == 1 then "I'm truly honored I could help. You deserve all the support in the world. Remember, seeking help is a sign of strength, not weakness."
      else "That means so much to me. Taking care of yourself is what matters most. I'll always be here to listen and support you. \U{1F49A}"
    case Unknown =>
      if n == 0 then "I'm here and I'm listening. Can you tell me more about what you're experiencing? What's going on?"
      else if n == 1 then "That sounds important to you. I'd love to understand better\U{2014}can you share a bit more about how it's affecting you?"
      else "Help me understand what you're going through. I'm genuinely interested in supporting you. What's really on your mind?"
    case Crisis =>
      "I'm genuinely concerned about your safety right now. I'm an AI and not a professional, " +
      "but your life is incredibly important. PLEASE reach out immediately to someone who can help:\n" +
      "\U{2022} Call 988 (Suicide & Crisis Lifeline in the US) or text HOME to 741741\n" +
      "\U{2022} Call emergency services (911 in the US)\n" +
      "\U{2022} Tell a trusted friend, family member, or counselor\n" +
      "You don't have to go through this alone. Please reach out for help right now. You deserve support. \U{1F49A}"
    case _ => ""

  }

  /** The smart fallback's five keyword groups, three replies each. */
  const FallbackGroups: nat := 5
  const RepliesPerGroup: nat := 3

  /** Reply `n` of fallback group `k`, in source order, as its sentences. */
  function FallbackPieces(k: nat, n: nat): seq<string>
    requires k < FallbackGroups && n < RepliesPerGroup
  {
    if k == 0 && n == 0 then
      ["Exams can feel overwhelming, ",
       "especially when you're already tired. ",
       "Here's a quick strategy: ",
       "break your study into 25-minute ",
       "focused blocks with 5-minute breaks. ",
       "Pick just ONE topic to master ",
       "tonight instead of everything. ",
       "What subject is weighing on you the most?"]
    else if k == 0 && n == 1 then
      ["I hear you\U{2014}",
       "exam pressure is real and exhausting. ",
       "Try this: ",
       "write down the 3 most important topics, ",
       "tackle the easiest one first to build momentum, ",
       "and get at least 6 hours of sleep ",
       "(your brain consolidates memory while sleeping). ",
       "Which exam is coming up first?"]
    else if k == 0 && n == 2 then
      ["Exam stress hits hard. ",
       "Let's make it manageable: ",
       "create a mini checklist of just 3 things to review tonight. ",
       "Done is better than perfect. ",
       "Also, ",
       "a 10-minute walk can actually boost your memory retention. ",
       "What's the exam on?"]
    else if k == 1 && n == 0 then
      ["Feeling exhausted is your body telling you it needs care. ",
       "Right now: ",
       "drink a glass of water, do 10 deep breaths, ",
       "and if possible take a 20-minute power nap (set an alarm!). ",
       "What's been draining your energy lately?"]
    else if k == 1 && n == 1 then
      ["Exhaustion makes everything harder. ",
       "Here's what helps: ",
       "splash cold water on your face, ",
       "step outside for 2 minutes of fresh air, ",
       "and eat something with protein. ",
       "Are you getting enough sleep at night?"]
    else if k == 1 && n == 2 then
      ["When you're this tired, small wins matter. ",
       "Try: ",
       "stretch for 60 seconds, have a healthy snack, ",
       "and tackle just ONE small task. ",
       "Your energy will come back. ",
       "What's been keeping you up?"]
    else if k == 2 && n == 0 then
      ["Anxiety can feel overwhelming, but let's ground you. ",
       "Try this now: ",
       "name 5 things you can see, 4 you can touch, 3 you can hear. ",
       "This brings you back to the present moment. ",
       "What's triggering the anxiety right now?"]
    else if k == 2 && n == 1 then
      ["When anxiety hits, your body goes into overdrive. ",
       "Here's a quick reset: ",
       "breathe in for 4 counts, hold for 4, out for 6. ",
       "Repeat 3 times. ",
       "This activates your calm response. ",
       "What specific worry is loudest right now?"]
    else if k == 2 && n == 2 then
      ["Anxiety is tough but manageable. ",
       "Right now: ",
       "unclench your jaw, drop your shoulders, ",
       "and take 3 slow breaths. ",
       "Write down what's worrying you\U{2014}",
       "getting it out of your head helps. ",
       "What feels most urgent?"]
    else if k == 3 && n == 0 then
      ["I'm really sorry you're feeling this way. ",
       "Sadness is valid and it's okay to not be okay. ",
       "One small step: ",
       "reach out to one person today, even just a text. ",
       "You don't have to go through this alone. ",
       "What's been weighing on your heart?"]
    else if k == 3 && n == 1 then
      ["Feeling down is hard, ",
       "and I want you to know your feelings matter. ",
       "Try this: ",
       "do one tiny thing that usually brings comfort\U{2014}",
       "a warm drink, a favorite song, ",
       "or just sitting in sunlight for 5 minutes. ",
       "When did this feeling start?"]
    else if k == 3 && n == 2 then
      ["Sadness can feel isolating. ",
       "Here's something gentle: ",
       "write down 3 things that went okay today ",
       "(even tiny things count). ",
       "Your brain needs reminders of the good. ",
       "Would you like to talk about ",
       "what's making you sad?"]
    else if k == 4 && n == 0 then
      ["Stress can pile up fast. ",
       "Let's break it down: ",
       "what's the ONE thing that would make the ",
       "biggest difference if you handled it today? ",
       "Focus there first. ",
       "Everything else can wait. ",
       "What's stressing you most?"]
    else if k == 4 && n == 1 then
      ["When everything feels urgent, nothing gets done. ",
       "Try this: ",
       "write down everything stressing you, ",
       "then circle just the top 2. ",
       "Tackle those and let the rest go for now. ",
       "What's at the top of your list?"]
    else
      ["Feeling overwhelmed means you care, ",
       "and that's not a bad thing. ",
       "But let's get practical: ",
       "take 5 minutes to just breathe, ",
       "then pick ONE small task to complete. ",
       "Progress beats perfection. ",
       "What's the first thing you can check off?"]
  }

  /** Reply `n` of fallback group `k`. */
  function FallbackText(k: nat, n: nat): string
    requires k < FallbackGroups && n < RepliesPerGroup
  {
    Concat(FallbackPieces(k, n))
  }

  /** The fallback for the `greeting` label when no group is triggered. */
  function GreetingFallbackText(): string
  {
    "Hey! I'm glad you're here. " +
    "How are you really feeling today? " +
    "Don't hold back\U{2014}" +
    "I'm here to help with whatever's on your mind."
  }

  /** Characters of the message the default reply quotes. */
  const QuoteLimit: nat := 50

  /** `user_message[:50]`, followed by "..." when something was cut off. */
  function Excerpt(msg: string): (r: string)
    ensures |msg| <= QuoteLimit ==> r == msg
    ensures |msg| > QuoteLimit ==> |r| == QuoteLimit + 3 && r[..QuoteLimit] == msg[..QuoteLimit]
                                   && r[QuoteLimit..] == "..."
  {
    if |msg| > QuoteLimit then msg[..QuoteLimit] + "..." else msg
  }

  function EchoOpening(): string
  {
    "I want to give you real support, not generic advice. " +
    "You mentioned '"
  }

  function EchoClosing(): string
  {
    "'. " +
    "Can you tell me a bit more about what's happening so I can offer something actually useful? " +
    "What's the main thing you're dealing with right now?"
  }

  /** The default fallback, quoting the start of the message. */
  function EchoText(msg: string): string
  {
    EchoOpening() + Excerpt(msg) + EchoClosing()
  }

  /** A reply as the choice that produced it. */
  datatype Reply =
    | Template(intent: Intent, n: nat)    // RESPONSES[intent][n]
    | Fallback(group: nat, n: nat)        // reply n of smart-fallback group `group`
    | GreetingFallback
    | Echo(message: string)
    | Generated(text: string)             // a language model's text, stripped

  /** The reply names an existing template or fallback. */
  predicate WellFormed(r: Reply)
  {
    match r
    case Template(i, n) => n < TemplateCount(i)
    case Fallback(k, n) => k < FallbackGroups && n < RepliesPerGroup
    case _ => true
  }

  /** The text sent back to the user. */
  function Render(r: Reply): string
    requires WellFormed(r)
  {
    match r
    case Template(i, n) => TemplateText(i, n)
    case Fallback(k, n) => FallbackText(k, n)
    case GreetingFallback => GreetingFallbackText()
    case Echo(msg) => EchoText(msg)
    case Generated(text) => text
  }

  /** `RESPONSES["crisis"][0]`, the message with the hotline numbers. */
  const CrisisScript: Reply := Template(Crisis, 0)

  /** The quoting reply shows the message's first fifty characters right
      after the fixed opening. */
  lemma EchoQuotesMessage(msg: string)
    ensures var q := if |msg| <= QuoteLimit then |msg| else QuoteLimit;
            |EchoOpening()| + q <= |EchoText(msg)| &&
            EchoText(msg)[|EchoOpening()|..|EchoOpening()| + q] == msg[..q]
  {
    var q := if |msg| <= QuoteLimit then |msg| else QuoteLimit;
    var o := EchoOpening();
    var e := Excerpt(msg);
    var r := EchoText(msg);
    forall i | 0 <= i < q ensures r[|o| + i] == msg[i] {
      assert r[|o| + i] == e[i];
    }
  }

  /** Messages of at most fifty characters can be read back from the quoting
      reply: different short messages get different replies. */
  lemma EchoInjectiveOnShort(a: string, b: string)
    requires |a| <= QuoteLimit && |b| <= QuoteLimit
    requires EchoText(a) == EchoText(b)
    ensures a == b
  {
    EchoQuotesMessage(a);
    EchoQuotesMessage(b);
  }

  /** Longer messages are cut: two that agree on their first fifty
      characters get the same reply. */
  lemma EchoCutsLongMessages(a: string, b: string)
    requires |a| > QuoteLimit && |b| > QuoteLimit && a[..QuoteLimit] == b[..QuoteLimit]
    ensures EchoText(a) == EchoText(b)
  {
  }
}
