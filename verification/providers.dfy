/** The two language-model reply generators of backend/main.py,
    `generate_gemini_reply` and `generate_llm_reply`, reduced to their
    decisions.  The prompt text and the network call are outside the model:
    whether the client is configured is the parameter `ready`, and what the
    call produced is an `Outcome`, either the model's text or an exception. */
module Providers {
  import opened Text
  import opened Intents
  import opened Replies
  import opened Responses
  import opened GenericGate
  import opened SmartFallbacks

  /** What a call to a language model produced. */
  datatype Outcome = Answered(text: string) | Failed

  /** The labels the Gemini generator answers from the template bank
      without calling the model. */
  predicate IsClosing(intent: string)
  {
    intent == "goodbye" || intent == "gratitude"
  }

  /** `generate_gemini_reply`: the crisis script under the crisis flag; a
      template for goodbyes and thanks; otherwise the model's stripped text
      when it passes the generic-reply filter, and the smart fallback when
      the model is missing, fails or answers generically. */
  function GeminiReply(msg: string, intent: string, crisisFlag: bool, ready: bool, outcome: Outcome, pick: nat): (r: Reply)
    ensures WellFormed(r)
    ensures crisisFlag ==> r == CrisisScript
    ensures r.Generated? ==> outcome.Answered? && r.text == Strip(outcome.text) && !IsGenericReply(r.text)
    ensures r.Template? ==> crisisFlag || IsClosing(intent)
  {
    if crisisFlag then CrisisScript
    else if IsClosing(intent) then ChooseResponse(intent, false, pick)
    else if !ready then SmartFallback(msg, intent, pick)
    else
      match outcome
      case Failed => SmartFallback(msg, intent, pick)
      case Answered(raw) =>
        var text := Strip(raw);
        if IsGenericReply(text) then SmartFallback(msg, intent, pick) else Generated(text)
  }

  /** `generate_llm_reply`: the crisis script under the crisis flag; the
      model's stripped text when it answers; a template of the intent's bank
      entry when the client is missing or the call fails.  There is no
      generic-reply filter on this path. */
  function OpenAIReply(intent: string, crisisFlag: bool, ready: bool, outcome: Outcome, pick: nat): (r: Reply)
    ensures WellFormed(r)
    ensures crisisFlag ==> r == CrisisScript
    ensures r.Generated? <==> !crisisFlag && ready && outcome.Answered?
    ensures r.Generated? ==> r.text == Strip(outcome.text)
    ensures !r.Generated? ==> r.Template?
  {
    if crisisFlag then CrisisScript
    else if !ready then ChooseResponse(intent, crisisFlag, pick)
    else
      match outcome
      case Failed => ChooseResponse(intent, crisisFlag, pick)
      case Answered(raw) => Generated(Strip(raw))
  }

  /** With the model configured and asked, Gemini's own text is used exactly
      when it passes the filter; a rejected text gives the smart fallback. */
  lemma GeminiKeepsSpecificText(msg: string, intent: string, raw: string, pick: nat)
    requires !IsClosing(intent)
    ensures GeminiReply(msg, intent, false, true, Answered(raw), pick) ==
              (if IsGenericReply(Strip(raw)) then SmartFallback(msg, intent, pick) else Generated(Strip(raw)))
    ensures GeminiReply(msg, intent, false, true, Answered(raw), pick).Generated? <==>
              |Strip(raw)| >= MinSpecificLength && !ContainsAny(Lower(Strip(raw)), GenericPhrases)
  {
    PassesExactly(Strip(raw));
  }

  /** A missing model or a failed call gives the smart fallback, never a
      template of the bank. */
  lemma GeminiFailureFallsBack(msg: string, intent: string, ready: bool, outcome: Outcome, pick: nat)
    requires !IsClosing(intent)
    requires !ready || outcome == Failed
    ensures GeminiReply(msg, intent, false, ready, outcome, pick) == SmartFallback(msg, intent, pick)
  {
  }

  /** Goodbyes and thanks get their own templates whatever the model would
      have said. */
  lemma GeminiClosingUsesTemplates(msg: string, i: Intent, ready: bool, outcome: Outcome, pick: nat)
    requires i == Goodbye || i == Gratitude
    ensures GeminiReply(msg, Name(i), false, ready, outcome, pick) == Template(i, pick % 3)
  {
    EntryOfIntent(i);
    assert IsClosing(Name(i));
  }

  /** The OpenAI path hands over whatever the model says, generic or not:
      a bare "ok" is sent although the filter would reject it. */
  lemma OpenAIPassesGenericText(intent: string, pick: nat)
    ensures OpenAIReply(intent, false, true, Answered("ok"), pick) == Generated("ok")
    ensures IsGenericReply("ok")
  {
    NormalFormLiteral("ok");
  }

  /** The OpenAI path has no closing shortcut: thanks go to the model too. */
  lemma OpenAIAsksModelForThanks(raw: string, pick: nat)
    ensures OpenAIReply(Name(Gratitude), false, true, Answered(raw), pick) == Generated(Strip(raw))
  {
  }

  /** A failed or unconfigured OpenAI call answers from the bank entry of
      the intent. */
  lemma OpenAIFailureUsesBank(intent: string, ready: bool, outcome: Outcome, pick: nat)
    requires !ready || outcome == Failed
    ensures OpenAIReply(intent, false, ready, outcome, pick) == ChooseResponse(intent, false, pick)
  {
  }

  /** The smart fallback's exam reply "I hear you\U{2014}exam pressure is real..."
      contains the stock phrase "i hear you": the fallback that replaces a
      generic Gemini reply can itself be generic. */
  lemma ExamFallbackGeneric()
    ensures IsGenericReply(Render(Fallback(0, 1)))
  {
    ExamPieceAt();
    HearYouInPiece(FallbackPieces(0, 1)[0]);
    PieceMakesGeneric(FallbackPieces(0, 1), 0, 13);
  }

  /** Likewise the sadness reply that ends "Would you like to talk about
      what's making you sad?". */
  lemma SadnessFallbackGeneric()
    ensures IsGenericReply(Render(Fallback(3, 2)))
  {
    SadnessPieceAt();
    TalkAboutInPiece(FallbackPieces(3, 2)[5]);
    PieceMakesGeneric(FallbackPieces(3, 2), 5, 12);
  }

  /** A stock phrase inside one piece of a text written as pieces makes the
      whole text generic. */
  lemma {:induction false} PieceMakesGeneric(ps: seq<string>, j: nat, p: nat)
    requires j < |ps| && p < |GenericPhrases|
    requires Contains(Lower(ps[j]), GenericPhrases[p])
    ensures IsGenericReply(Concat(ps))
  {
    LowerConcatContains(ps, j, GenericPhrases[p]);
    StockPhraseIsGeneric(Concat(ps));
  }

  lemma ExamPieceAt()
    ensures |FallbackPieces(0, 1)| > 0 && FallbackPieces(0, 1)[0] == "I hear you\U{2014}"
  {
  }

  lemma SadnessPieceAt()
    ensures |FallbackPieces(3, 2)| > 5 && FallbackPieces(3, 2)[5] == "Would you like to talk about "
  {
  }

  lemma HearYouInPiece(a: string)
    requires a == "I hear you\U{2014}"
    ensures Contains(Lower(a), GenericPhrases[13])
  {
    assert Lower(a) == "i hear you\U{2014}";
    assert MatchesAt(Lower(a), "i hear you", 0);
  }

  lemma TalkAboutInPiece(e: string)
    requires e == "Would you like to talk about "
    ensures Contains(Lower(e), GenericPhrases[12])
  {
    assert Lower(e) == "would you like to talk about ";
    assert MatchesAt(Lower(e), "would you like to talk about", 0);
  }

  /** So Gemini can send text the filter rejects: with the model down, an
      exam question can get the "I hear you" reply. */
  lemma GeminiCanSendGenericText(msg: string)
    ensures GeminiReply(msg, "exams", false, false, Failed, 1) == Fallback(0, 1)
    ensures IsGenericReply(Render(GeminiReply(msg, "exams", false, false, Failed, 1)))
  {
    ExamsLabelGetsExamReply(msg, 1);
    assert GeminiReply(msg, "exams", false, false, Failed, 1) == Fallback(0, 1);
    ExamFallbackGeneric();
  }
}
