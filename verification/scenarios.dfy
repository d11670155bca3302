/** Whole chat turns traced through the endpoint: a crisis phrasing only the
    classifier knows, a flagged message in OpenAI mode, a goodbye in Gemini
    mode, and an exam message whose Gemini call fails. */
module ChatScenarios {
  import opened Wrappers
  import opened Text
  import opened Intents
  import opened IntentExamples
  import opened CrisisDetection
  import opened Replies
  import opened SmartFallbacks
  import opened Providers
  import opened ChatEndpoint

  /** "i dont want to live" is missed by the detector but classified
      `crisis`, so the turn is still a crisis turn with the script. */
  lemma CascadeCatchesWhatDetectorMisses(req: ChatRequest, env: Environment, emotionLabel: string)
    requires req.message == "i dont want to live"
    ensures !IsCrisis(req.message)
    ensures var r := Chat(req, env, emotionLabel);
            r.isCrisis && r.reply == CrisisScript && r.intent == "crisis" && r.llmMode == "template"
  {
    DetectorMissesCascadePhrases();
    DontWantToLiveIsCrisis();
    CrisisIntentFlags(req, env, emotionLabel);
    CrisisLabelKept(DetectIntent(req.message), req.history);
  }

  /** A flagged message gets the script even when OpenAI was requested and
      is configured. */
  lemma FlaggedMessageInOpenAIMode(req: ChatRequest, env: Environment, emotionLabel: string)
    requires req.message == "I want to kill myself" && req.mode == Some("openai") && env.openaiReady
    ensures var r := Chat(req, env, emotionLabel);
            r.isCrisis && r.reply == CrisisScript && r.llmMode == "template"
  {
    KillMyselfFlagged(req.message);
    CrisisPreempts(req, env, emotionLabel);
  }

  /** "thanks, bye" in Gemini mode is `gratitude` and gets a gratitude
      template without calling the model, and the mode still says `gemini`. */
  lemma ThanksByeInGeminiMode(req: ChatRequest, env: Environment, emotionLabel: string)
    requires req.message == "thanks, bye" && req.history == [] && req.mode.None? && env.geminiReady
    ensures var r := Chat(req, env, emotionLabel);
            !r.isCrisis && r.intent == "gratitude" && r.llmMode == "gemini" &&
            r.reply == Template(Gratitude, env.pick % 3)
  {
    ThanksByeIsGratitude();
    ThanksByeNotFlagged(req.message);
    GratitudeTurn(req, env, emotionLabel);
    assert Chat(req, env, emotionLabel) == Respond(req, Gratitude, env, emotionLabel);
  }

  lemma GratitudeTurn(req: ChatRequest, env: Environment, emotionLabel: string)
    requires !IsCrisis(req.message) && req.mode.None? && env.geminiReady
    ensures var r := Respond(req, Gratitude, env, emotionLabel);
            !r.isCrisis && r.intent == "gratitude" && r.llmMode == "gemini" &&
            r.reply == Template(Gratitude, env.pick % 3)
  {
    KnownIntentStands(Gratitude, req.history);
    GratitudeLabel();
    GeminiTurn(req, Gratitude, env, emotionLabel);
    GeminiClosingUsesTemplates(req.message, Gratitude, true, env.gemini, env.pick);
  }

  lemma ThanksByeNotFlagged(t: string)
    requires t == "thanks, bye"
    ensures !IsCrisis(t)
  {
    LowerOfNoUpper(t);
    AbsentPairs(t, CrisisKeywords, [0, 0, 0, 0, 0, 0, 0]);
  }

  /** "I have exams tomorrow and I'm so exhausted" is `tiredness`, yet when
      the Gemini call fails the smart fallback answers with an exam reply,
      because the exam group is tried first and "exam" is in the message. */
  lemma ExhaustedExamTurnWithGeminiDown(req: ChatRequest, env: Environment, emotionLabel: string)
    requires req.message == "I have exams tomorrow and I'm so exhausted"
    requires req.history == [] && req.mode.None? && env.geminiReady && env.gemini == Failed
    ensures var r := Chat(req, env, emotionLabel);
            !r.isCrisis && r.intent == "tiredness" && r.llmMode == "gemini" && FallbackFrom(r.reply, 0)
  {
    ExamsAndExhaustedIsTiredness();
    ExamsMessageFacts(req.message);
    TirednessTurnWithGeminiDown(req, env, emotionLabel);
    assert Chat(req, env, emotionLabel) == Respond(req, Tiredness, env, emotionLabel);
  }

  lemma TirednessTurnWithGeminiDown(req: ChatRequest, env: Environment, emotionLabel: string)
    requires !IsCrisis(req.message) && ContainsAny(Lower(req.message), ["exam", "test", "study"])
    requires req.mode.None? && env.geminiReady && env.gemini == Failed
    ensures var r := Respond(req, Tiredness, env, emotionLabel);
            !r.isCrisis && r.intent == "tiredness" && r.llmMode == "gemini" && FallbackFrom(r.reply, 0)
  {
    KnownIntentStands(Tiredness, req.history);
    TirednessLabel();
    GeminiTurn(req, Tiredness, env, emotionLabel);
    GeminiFailureFallsBack(req.message, "tiredness", true, Failed, env.pick);
    ExamWordWins(req.message, "tiredness", env.pick);
  }

  lemma GratitudeLabel()
    ensures Name(Gratitude) == "gratitude"
  {
  }

  lemma TirednessLabel()
    ensures Name(Tiredness) == "tiredness"
  {
  }

  lemma ExamsMessageFacts(t: string)
    requires t == "I have exams tomorrow and I'm so exhausted"
    ensures !IsCrisis(t)
    ensures ContainsAny(Lower(t), ["exam", "test", "study"])
  {
    ExamsAndExhaustedIsTirednessLower(t);
    ExamsMessageUnflagged(Lower(t));
    ExamsMessageNamesExam(Lower(t));
  }

  lemma ExamsMessageUnflagged(l: string)
    requires l == "i have exams tomorrow and i'm so exhausted"
    ensures !ContainsAny(l, CrisisKeywords)
  {
    AbsentPairs(l, CrisisKeywords, [0, 0, 0, 0, 0, 0, 0]);
  }

  lemma ExamsMessageNamesExam(l: string)
    requires l == "i have exams tomorrow and i'm so exhausted"
    ensures ContainsAny(l, ["exam", "test", "study"])
  {
    assert MatchesAt(l, "exam", 7);
    assert Contains(l, ["exam", "test", "study"][0]);
  }
}
