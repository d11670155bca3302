/** `chat_endpoint` of backend/main.py: one chat turn.  The intent of the
    message (kept from the last bot turn when the message itself is
    `unknown`), the crisis flag (the detector or the `crisis` intent), and
    then the reply: the crisis script, the Gemini or the OpenAI generator
    when requested and configured, or a template of the bank.  The emotion
    model is outside the model: its label is a parameter passed through. */
module ChatEndpoint {
  import opened Wrappers
  import opened Text
  import opened Intents
  import opened CrisisDetection
  import opened Replies
  import opened Responses
  import opened ChatHistory
  import opened SmartFallbacks
  import opened Providers

  /** The fields of a chat request the endpoint reads. */
  datatype ChatRequest = ChatRequest(message: string, history: seq<Turn>, mode: Option<string>)

  /** What the endpoint cannot see: which clients are configured, what each
      model would answer, and the index `random.choice` would draw. */
  datatype Environment = Environment(geminiReady: bool, openaiReady: bool,
                                     gemini: Outcome, openai: Outcome, pick: nat)

  /** The response fields; `reply` is the reply as the choice that made it. */
  datatype ChatResponse = ChatResponse(reply: Reply, emotionLabel: string, intent: string,
                                       isCrisis: bool, llmMode: string)

  /** The intent of the turn, given the classifier's verdict `detected` on
      the message: its label, except that `unknown` gives way to the
      non-empty intent of the last bot turn. */
  function TurnIntent(detected: Intent, history: seq<Turn>): (intent: string)
    ensures intent == Name(detected) || (detected == Unknown && intent != "")
    ensures intent != Name(detected) ==>
              LastBotTurn(history).Some? && LastBotTurn(history).value.intent == Some(intent)
    ensures detected == Unknown && LastBotTurn(history).Some? &&
            LastBotTurn(history).value.intent.Some? && LastBotTurn(history).value.intent.value != "" ==>
              intent == LastBotTurn(history).value.intent.value
  {
    // the label equals "unknown" exactly for the intent Unknown (NameInjective)
    match LastBotTurn(history)
    case Some(bot) =>
      if detected == Unknown && bot.intent.Some? && bot.intent.value != "" then bot.intent.value
      else Name(detected)
    case None => Name(detected)
  }

  /** `(payload.mode or "gemini").lower()`. */
  function RequestedMode(mode: Option<string>): (m: string)
    ensures mode.None? ==> m == "gemini"
    ensures NoUpper(m)
    ensures m == "gemini" <==> mode.None? || mode.value == "" || Lower(mode.value) == "gemini"
    ensures m == "openai" <==> mode.Some? && Lower(mode.value) == "openai"
  {
    match mode
    case None => "gemini"
    case Some(s) =>
      LowerIdempotent(s);
      if s == "" then "gemini" else Lower(s)
  }

  /** The three reply modes the response reports. */
  predicate IsMode(m: string)
  {
    m == "gemini" || m == "openai" || m == "template"
  }

  /** One chat turn, given the classifier's verdict `detected` on the
      message. */
  function Respond(req: ChatRequest, detected: Intent, env: Environment, emotionLabel: string): (r: ChatResponse)
    ensures WellFormed(r.reply)
    ensures IsMode(r.llmMode)
    ensures r.emotionLabel == emotionLabel
    ensures r.intent == TurnIntent(detected, req.history)
    ensures r.isCrisis <==> IsCrisis(req.message) || r.intent == "crisis"
    ensures r.isCrisis ==> r.reply == CrisisScript && r.llmMode == "template"
    ensures !r.isCrisis && RequestedMode(req.mode) == "gemini" && env.geminiReady ==>
              r.llmMode == "gemini" && r.reply == GeminiReply(req.message, r.intent, false, true, env.gemini, env.pick)
    ensures !r.isCrisis && RequestedMode(req.mode) == "openai" && env.openaiReady ==>
              r.llmMode == "openai" && r.reply == OpenAIReply(r.intent, false, true, env.openai, env.pick)
    ensures r.llmMode == "template" && !r.isCrisis ==> r.reply == ChooseResponse(r.intent, false, env.pick)
  {
    var intent := TurnIntent(detected, req.history);
    var crisis := IsCrisis(req.message) || intent == "crisis";
    var mode := RequestedMode(req.mode);
    if crisis then
      ChatResponse(CrisisScript, emotionLabel, intent, crisis, "template")
    else if mode == "gemini" && env.geminiReady then
      ChatResponse(GeminiReply(req.message, intent, crisis, true, env.gemini, env.pick),
                   emotionLabel, intent, crisis, "gemini")
    else if mode == "openai" && env.openaiReady then
      ChatResponse(OpenAIReply(intent, crisis, true, env.openai, env.pick),
                   emotionLabel, intent, crisis, "openai")
    else
      ChatResponse(ChooseResponse(intent, crisis, env.pick), emotionLabel, intent, crisis, "template")
  }

  /** `chat_endpoint`: one chat turn on the classifier's verdict. */
  function Chat(req: ChatRequest, env: Environment, emotionLabel: string): (r: ChatResponse)
    ensures WellFormed(r.reply)
    ensures IsMode(r.llmMode)
    ensures r.emotionLabel == emotionLabel
    ensures r.intent == TurnIntent(DetectIntent(req.message), req.history)
    ensures r.isCrisis <==> IsCrisis(req.message) || r.intent == "crisis"
    ensures r.isCrisis ==> r.reply == CrisisScript && r.llmMode == "template"
    ensures !r.isCrisis && RequestedMode(req.mode) == "gemini" && env.geminiReady ==>
              r.llmMode == "gemini" && r.reply == GeminiReply(req.message, r.intent, false, true, env.gemini, env.pick)
    ensures !r.isCrisis && RequestedMode(req.mode) == "openai" && env.openaiReady ==>
              r.llmMode == "openai" && r.reply == OpenAIReply(r.intent, false, true, env.openai, env.pick)
    ensures r.llmMode == "template" && !r.isCrisis ==> r.reply == ChooseResponse(r.intent, false, env.pick)
  {
    Respond(req, DetectIntent(req.message), env, emotionLabel)
  }

  /** A message the detector flags gets the crisis script, whatever the
      history, the requested mode or the configured clients. */
  lemma CrisisPreempts(req: ChatRequest, env: Environment, emotionLabel: string)
    requires IsCrisis(req.message)
    ensures Chat(req, env, emotionLabel).isCrisis
    ensures Chat(req, env, emotionLabel).reply == CrisisScript
    ensures Chat(req, env, emotionLabel).llmMode == "template"
  {
  }

  /** A message the classifier calls `crisis` is flagged as well, even when
      the detector's own list misses it. */
  lemma CrisisIntentFlags(req: ChatRequest, env: Environment, emotionLabel: string)
    requires DetectIntent(req.message) == Crisis
    ensures Chat(req, env, emotionLabel).isCrisis
    ensures Chat(req, env, emotionLabel).reply == CrisisScript
  {
    CrisisLabelKept(DetectIntent(req.message), req.history);
    CrisisTurnIntent(req, DetectIntent(req.message), env, emotionLabel);
  }

  lemma CrisisLabelKept(detected: Intent, history: seq<Turn>)
    requires detected == Crisis
    ensures TurnIntent(detected, history) == "crisis"
  {
  }

  /** A turn whose intent is `crisis` gets the crisis script. */
  lemma CrisisTurnIntent(req: ChatRequest, detected: Intent, env: Environment, emotionLabel: string)
    requires TurnIntent(detected, req.history) == "crisis"
    ensures Respond(req, detected, env, emotionLabel).isCrisis
    ensures Respond(req, detected, env, emotionLabel).reply == CrisisScript
  {
  }

  /** The reported mode names the path taken: Gemini exactly when it was
      requested and configured, OpenAI likewise, and the template bank for
      the crisis script, an unknown mode or a missing client.  A failed call
      keeps the provider's name. */
  lemma ModeReportsPath(req: ChatRequest, env: Environment, emotionLabel: string)
    ensures var r := Chat(req, env, emotionLabel);
            var m := RequestedMode(req.mode);
            && (r.llmMode == "gemini" <==> !r.isCrisis && m == "gemini" && env.geminiReady)
            && (r.llmMode == "openai" <==> !r.isCrisis && m == "openai" && env.openaiReady)
            && (r.llmMode == "template" <==> r.isCrisis || !((m == "gemini" && env.geminiReady) || (m == "openai" && env.openaiReady)))
  {
  }

  /** On the template path the reply is a template of the turn's bank entry. */
  lemma TemplatePathUsesBank(req: ChatRequest, detected: Intent, env: Environment, emotionLabel: string)
    requires Respond(req, detected, env, emotionLabel).llmMode == "template"
    requires !Respond(req, detected, env, emotionLabel).isCrisis
    ensures var r := Respond(req, detected, env, emotionLabel);
            r.reply == ChooseResponse(r.intent, false, env.pick) && r.reply.intent == BankEntry(r.intent)
  {
  }

  /** A turn that is not a crisis, in Gemini mode with the client
      configured, is answered by the Gemini generator. */
  lemma GeminiTurn(req: ChatRequest, detected: Intent, env: Environment, emotionLabel: string)
    requires !IsCrisis(req.message) && TurnIntent(detected, req.history) != "crisis"
    requires RequestedMode(req.mode) == "gemini" && env.geminiReady
    ensures var r := Respond(req, detected, env, emotionLabel);
            !r.isCrisis && r.llmMode == "gemini" &&
            r.reply == GeminiReply(req.message, r.intent, false, true, env.gemini, env.pick)
  {
  }

  /** A turn that is not a crisis, in OpenAI mode with the client
      configured, is answered by the OpenAI generator: its text unfiltered,
      or the bank when the call fails. */
  lemma OpenAITurn(req: ChatRequest, detected: Intent, env: Environment, emotionLabel: string)
    requires !IsCrisis(req.message) && TurnIntent(detected, req.history) != "crisis"
    requires RequestedMode(req.mode) == "openai" && env.openaiReady
    ensures var r := Respond(req, detected, env, emotionLabel);
            !r.isCrisis && r.llmMode == "openai" &&
            r.reply == OpenAIReply(r.intent, false, true, env.openai, env.pick)
  {
  }

  /** When the Gemini call fails, the reply is the smart fallback and the
      mode still says `gemini`. */
  lemma GeminiFailureKeepsMode(req: ChatRequest, detected: Intent, env: Environment, emotionLabel: string)
    requires RequestedMode(req.mode) == "gemini" && env.geminiReady && env.gemini == Failed
    requires !IsCrisis(req.message)
    requires !IsClosing(TurnIntent(detected, req.history)) && TurnIntent(detected, req.history) != "crisis"
    ensures var r := Respond(req, detected, env, emotionLabel);
            r.llmMode == "gemini" &&
            r.reply == SmartFallback(req.message, r.intent, env.pick)
  {
  }

  /** The mode is read case-insensitively, and an empty mode means Gemini. */
  lemma ModeSpelling(a: string, b: string)
    requires Lower(a) == Lower(b)
    ensures RequestedMode(Some(a)) == RequestedMode(Some(b))
    ensures RequestedMode(Some("")) == "gemini"
    ensures RequestedMode(Some("OpenAI")) == "openai"
  {
    assert Lower("OpenAI") == "openai";
  }

  /** A bot turn that carries `crisis` makes a following `unknown` message a
      crisis turn, although the message itself says nothing of the kind. */
  lemma PersistedCrisis(req: ChatRequest, env: Environment, emotionLabel: string, bot: Turn)
    requires DetectIntent(req.message) == Unknown
    requires LastBotTurn(req.history) == Some(bot) && bot.intent == Some("crisis")
    ensures Chat(req, env, emotionLabel).isCrisis
    ensures Chat(req, env, emotionLabel).reply == CrisisScript
  {
    CrisisTurnIntent(req, DetectIntent(req.message), env, emotionLabel);
  }

  /** The classifier's label stands whenever it is not `unknown`. */
  lemma KnownIntentStands(detected: Intent, history: seq<Turn>)
    requires detected != Unknown
    ensures TurnIntent(detected, history) == Name(detected)
  {
  }

  /** With a history of parsed request turns, which never carry an intent,
      the label is always the classifier's: the persistence never happens. */
  lemma RequestHistoryNeverPersists(detected: Intent, history: seq<Turn>)
    requires forall j :: 0 <= j < |history| ==> history[j] == FromRequest(history[j].sender, history[j].text)
    ensures TurnIntent(detected, history) == Name(detected)
  {
    RequestTurnsCarryNoIntent(history);
  }
}
