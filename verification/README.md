# NeuroCare chat decision layer in Dafny

This project models how the NeuroCare mental-health chatbot backend decides
what to answer. It does not model how any text is produced. The model covers:

- the rule-based intent classifier (`detect_intent`), an ordered cascade of
  keyword-substring tests over the lower-cased, stripped message;
- the crisis detector (`is_crisis`), a case-insensitive substring test
  against seven self-harm phrases;
- the template bank `RESPONSES` and its picker `choose_response`;
- the generic-reply filter `is_generic_reply`;
- the keyword-grouped smart fallback `get_smart_fallback`;
- the decision structure of the two language-model generators,
  `generate_gemini_reply` and `generate_llm_reply`: the crisis
  short-circuit, the goodbye/thanks shortcut, the missing-client and failure
  fallbacks, the filter, and the history windows of their prompts;
- `chat_endpoint`: intent persistence from the last bot turn, the crisis
  flag, mode selection and the reported `llm_mode`.

A reply is modelled as the choice that produced it (`Replies.Reply`):
template `n` of an intent, reply `n` of a fallback group, the greeting
fallback, the quoting default reply, or the stripped text of a model.
`Replies.Render` gives the exact text. The long texts are written as
concatenations of short pieces.

Python's `random.choice` is modelled as an explicit index `pick`. Reply
`pick % count` is chosen, and `Responses.ChooseResponseReaches` and
`SmartFallbacks.FallbackReaches` state that every reply can be reached. Whether a client is configured is a boolean, and what a model call
returned is an `Outcome` (its text, or `Failed` for an exception).

Modules, in dependency order:

- `Wrappers`: `Option` and the first-match search.
- `Text`: lower-casing, strip, token count and substring search.
- `Intents`, `IntentProperties`, `IntentExamples`: the classifier.
- `CrisisDetection`: the crisis detector.
- `Replies`, `Responses`: the reply texts and the template bank.
- `GenericGate`: the generic-reply filter.
- `SmartFallbacks`: the smart fallback.
- `ChatHistory`: history turns and prompt windows.
- `Providers`: the two generators.
- `ChatEndpoint`: the endpoint.
- `ChatScenarios`: whole chat turns.

## Model

| member | source | states |
|---|---|---|
| Text.Strip | backend/nlp/intent_detection.py:38 | `strip()` leaves nothing exactly when the text is whitespace only; otherwise the result starts and ends with a non-space and is no longer than the input |
| Text.StripIsInfix | backend/nlp/intent_detection.py:38 | the stripped text is the part of the input between a whitespace-only prefix and a whitespace-only suffix |
| Text.StripSurrounding | backend/nlp/intent_detection.py:38 | whitespace added around a text never changes its stripped form |
| Text.Lower | backend/nlp/intent_detection.py:38 | lower-casing keeps the length and folds each letter at its own position |
| Text.TokenCount | backend/nlp/intent_detection.py:44 | `len(t.split())`: the number of positions where a run of non-space characters begins |
| Text.Contains | backend/nlp/intent_detection.py:30 | `p in text`: the phrase occurs as a contiguous piece of the text |
| Text.ContainsAny | backend/nlp/intent_detection.py:29-30 | `_contains_any`: some phrase of the list occurs in the text |
| Text.TokenCountZero | backend/nlp/intent_detection.py:44 | `len(t.split())` is zero exactly when the text is whitespace only |
| Text.LowerIdempotent | backend/nlp/intent_detection.py:38 | lower-casing twice is lower-casing once, and the result has no upper-case letter |
| Text.LowerKeepsSpaces | backend/nlp/intent_detection.py:38 | lower-casing keeps every whitespace position and never creates or removes whitespace |
| Intents.NameRoundTrip | backend/nlp/intent_detection.py:5-26 | every one of the twenty intent labels reads back as its intent |
| Intents.NameInjective | backend/nlp/intent_detection.py:5-26 | two intents share a label only if they are the same intent |
| Intents.FirstRule | backend/nlp/intent_detection.py:44-282 | the chosen intent is that of a rule whose keyword list occurs in the text, with no earlier rule occurring; none is chosen exactly when no list occurs |
| Intents.Classify | backend/nlp/intent_detection.py:40-282 | empty text is `unknown`; any other verdict is the intent of a short-form rule or a long-form rule that fires in the text; with no long-form rule firing, and no short-form rule either when the text has at most three tokens, the verdict is `unknown` |
| Intents.DetectIntent | backend/nlp/intent_detection.py:33-41 | empty or whitespace-only input is `unknown` |
| IntentProperties.ShortRuleDecides | backend/nlp/intent_detection.py:44-54 | in a reply of at most three tokens, the first short-form list that occurs decides the intent |
| IntentProperties.LongRuleDecides | backend/nlp/intent_detection.py:57-282 | when the short-form branch does not decide, the first long-form list that occurs decides the intent |
| IntentProperties.NormalisationInvariant | backend/nlp/intent_detection.py:38 | letter case and surrounding whitespace never change the intent |
| IntentProperties.ShortAffirmationFirst | backend/nlp/intent_detection.py:44-46 | a short reply with an affirmation phrase is `affirmation`, whatever else it contains |
| IntentProperties.ShortNoMeansNegation | backend/nlp/intent_detection.py:47-48 | a short reply without an affirmation phrase that contains "no" anywhere (inside "know", "not") is `negation` |
| IntentProperties.ShortUncertaintyShadowed | backend/nlp/intent_detection.py:47-50 | a short reply containing "i dont know", "i don't know" or "not sure" is never `uncertainty` |
| IntentProperties.GreetingFirst | backend/nlp/intent_detection.py:57-58 | outside the short branch, a greeting word beats every later category |
| IntentProperties.StressBeforeExams | backend/nlp/intent_detection.py:64-76 | an utterance naming both stress and exams (with no greeting or small talk) is `stress`, not `exams` |
| IntentProperties.CrisisIntentExactly | backend/nlp/intent_detection.py:239-253 | `crisis` is returned exactly when the crisis list occurs in a text the short branch leaves open and none of the thirteen earlier lists occurs |
| IntentProperties.ShortRulesNeverCrisis | backend/nlp/intent_detection.py:44-54 | the short-form branch never produces `crisis` |
| IntentProperties.LongRuleIntentAt | backend/nlp/intent_detection.py:239-253 | when `crisis` wins the long-form cascade, the crisis list occurs and the thirteen lists before it do not |
| IntentProperties.UnknownExactlyWhenNothingFires | backend/nlp/intent_detection.py:256-282 | an utterance of more than three tokens is `unknown` exactly when no long-form list occurs in it |
| IntentProperties.NoRuleSaysUnknown | backend/nlp/intent_detection.py:282 | no rule of the cascade produces `unknown`, which is only the default |
| IntentExamples.OkThanksIsAffirmation | backend/nlp/intent_detection.py:44-46 | "ok thanks" is `affirmation`, although it also thanks |
| IntentExamples.IDontKnowIsNegation | backend/nlp/intent_detection.py:47-50 | "i don't know" is `negation`, not `uncertainty` |
| IntentExamples.NotSureIsAffirmation | backend/nlp/intent_detection.py:44-50 | "not sure" is `affirmation`, because "sure" is an affirmation phrase |
| IntentExamples.ThanksByeIsGratitude | backend/nlp/intent_detection.py:51-54 | "thanks, bye" is `gratitude`, since gratitude comes before goodbye |
| IntentExamples.ThinkIsGreeting | backend/nlp/intent_detection.py:57-58 | "i think i'm stressed" is `greeting`, because "hi" occurs inside "think" |
| IntentExamples.StressedAboutExamIsStress | backend/nlp/intent_detection.py:64-76 | "i am stressed about my exam" is `stress` |
| IntentExamples.SadAndEndMyLifeIsSadness | backend/nlp/intent_detection.py:93-107 | "i feel sad and want to end my life" is `sadness`, since sadness comes before crisis |
| IntentExamples.DontWantToLiveIsCrisis | backend/nlp/intent_detection.py:239-253 | "i dont want to live" is `crisis` |
| IntentExamples.ThankYouSoMuchIsGratitude | backend/nlp/intent_detection.py:256-266 | "thank you so much" (four tokens) is `gratitude` through the long-form list |
| IntentExamples.ExamsAndExhaustedIsTiredness | backend/nlp/intent_detection.py:109-113 | "I have exams tomorrow and I'm so exhausted" is `tiredness`, since tiredness comes before exams |
| CrisisDetection.IsCrisis | backend/nlp/crisis_detection.py:13-15 | a flagged message has at least three characters, the length of the shortest keyword |
| CrisisDetection.CaseInsensitive | backend/nlp/crisis_detection.py:14 | messages equal after lower-casing get the same verdict |
| CrisisDetection.FlagSurvivesContext | backend/nlp/crisis_detection.py:15 | a flagged message stays flagged whatever text surrounds it |
| CrisisDetection.ShortNeverFlagged | backend/nlp/crisis_detection.py:3-15 | messages shorter than three characters are never flagged |
| CrisisDetection.DieInsideWords | backend/nlp/crisis_detection.py:10 | "studied" and "diet" are flagged, because "die" is matched as a substring |
| CrisisDetection.KillMyselfFlagged | backend/nlp/crisis_detection.py:5 | "I want to kill myself" is flagged through its lower-cased form |
| CrisisDetection.DetectorMissesCascadePhrases | backend/nlp/crisis_detection.py:3-11 | "self harm" and "i dont want to live" are not flagged |
| Replies.Excerpt | backend/main.py:413 | a message of at most fifty characters is quoted whole; a longer one is cut to its first fifty, followed by "..." |
| Replies.EchoQuotesMessage | backend/main.py:413 | the quoting reply shows the first fifty characters of the message right after its fixed opening |
| Replies.EchoInjectiveOnShort | backend/main.py:413 | different messages of at most fifty characters get different quoting replies |
| Replies.EchoCutsLongMessages | backend/main.py:413 | longer messages that agree on their first fifty characters get the same quoting reply |
| Replies.TemplateText | backend/main.py:151-207 | the texts of the template bank, entry by entry |
| Replies.FallbackText | backend/main.py:364-406 | the three replies of each of the five fallback groups |
| Replies.GreetingFallbackText | backend/main.py:409-410 | the greeting fallback reply |
| Replies.EchoText | backend/main.py:413 | the quoting default reply: fixed opening, the excerpt of the message, fixed closing |
| Replies.Render | backend/main.py:151-413 | the text of each kind of reply: a bank template, a fallback reply, the greeting reply, the quoting reply, or a model's text |
| Responses.BankEntry | backend/main.py:213-215 | the entry read always has templates, and it is the key's own entry or `unknown` |
| Responses.ChooseResponse | backend/main.py:210-215 | with the crisis flag the reply is the crisis script; otherwise it is a template of the key's entry |
| Responses.ChooseResponseReaches | backend/main.py:214 | every template of the entry is the reply for some choice |
| Responses.EntryOfIntent | backend/main.py:151-207 | an intent's label reads its own entry when the bank has one and `unknown` otherwise; ten of the twenty intents have an entry |
| Responses.ForeignKeyReadsUnknown | backend/main.py:215 | a key that is no intent label reads the `unknown` entry |
| Responses.ScriptWithoutFlag | backend/main.py:197-205 | without the flag, the crisis script is chosen exactly for the key "crisis" |
| GenericGate.IsGenericReply | backend/main.py:29-51 | the gate itself: at least one stock phrase in the lower-cased reply, or fewer than eighty characters; its verdict in terms of the text alone is `GenericGate.PassesExactly` |
| GenericGate.MatchCount | backend/main.py:50 | the phrase count is at most the number of phrases, and at least one exactly when some phrase occurs |
| GenericGate.PassesExactly | backend/main.py:29-51 | a reply passes exactly when it has at least eighty characters and contains no stock phrase in lower case |
| GenericGate.StockPhraseIsGeneric | backend/main.py:48-51 | one stock phrase makes a reply generic |
| GenericGate.GateIgnoresCase | backend/main.py:48 | replies equal after lower-casing get the same verdict |
| GenericGate.PhraseAnywhereIsGeneric | backend/main.py:48-51 | a stock phrase anywhere makes a reply generic, however long the reply is |
| GenericGate.PromptBadExampleRejected | backend/main.py:321-322 | the reply the Gemini prompt gives as a bad example is longer than eighty characters but is rejected for its stock phrase |
| SmartFallbacks.Triggers | backend/main.py:364-400 | a group is triggered by its own intent label or by one of its words in the lower-cased message |
| SmartFallbacks.TriggeredGroup | backend/main.py:361-406 | the chosen group is the first, in source order, triggered by the intent label or by a group word in the lower-cased message; none exactly when no group is triggered |
| SmartFallbacks.SmartFallback | backend/main.py:359-413 | a triggered group answers with one of its replies; otherwise the greeting label gets the greeting reply and any other label the quoting reply |
| SmartFallbacks.GroupDecides | backend/main.py:364-406 | a triggered group with no earlier triggered group gives the reply |
| SmartFallbacks.FallbackReaches | backend/main.py:370 | every reply of the chosen group is reachable |
| SmartFallbacks.ExamsLabelGetsExamReply | backend/main.py:364 | the `exams` label always gets an exam reply |
| SmartFallbacks.ExamWordWins | backend/main.py:364 | an exam word in the message gets an exam reply, whatever the label |
| SmartFallbacks.LabelGetsItsGroup | backend/main.py:364-406 | a group's own label gets that group's reply unless an earlier group is triggered |
| SmartFallbacks.GreetingNeedsQuietMessage | backend/main.py:409-410 | the greeting label gets the greeting reply when no group word occurs |
| ChatHistory.FromRequest | backend/main.py:127-129 | a turn parsed from a request carries no intent |
| ChatHistory.Window | backend/main.py:258 | for a positive `n`, `h[-n:]` keeps at most `n` entries, all of them when there are fewer, and they are the last entries of `h` |
| ChatHistory.SpeakerOf | backend/main.py:259 | a turn gets the user's name exactly when the user sent it, and the other name for every other sender; OpenAI names them `user`/`assistant`, and Gemini `User`/`NeuroCare` (line 331) |
| ChatHistory.OpenAIHistory | backend/main.py:257-261 | the OpenAI history is the last eight turns in order, each with its role and text |
| ChatHistory.SpeakersAgree | backend/main.py:331 | a turn is `user` to OpenAI exactly when it is `User` in the Gemini transcript, and `assistant` exactly when `NeuroCare` |
| ChatHistory.Line | backend/main.py:331-332 | one transcript line: the speaker name, a colon, the text and a newline |
| ChatHistory.GeminiTranscript | backend/main.py:328-332 | the transcript holds the lines of the whole history while it has at most six turns, and of its last six turns otherwise |
| ChatHistory.LinesAppend | backend/main.py:329-332 | transcript lines of consecutive turns are written one after the other |
| ChatHistory.TranscriptGrows | backend/main.py:329-332 | below six turns, a new turn appends its line and changes nothing before it |
| ChatHistory.TranscriptSlides | backend/main.py:329-332 | from six turns on, a new turn pushes out the oldest line |
| ChatHistory.LastBotTurn | backend/main.py:435 | the turn found is the last one sent by the bot; none exactly when the bot sent none |
| ChatHistory.RequestTurnsCarryNoIntent | backend/main.py:127-129 | in a history of parsed request turns the last bot turn carries no intent |
| Providers.GeminiReply | backend/main.py:290-356 | the crisis flag gives the script; the model's text is used only stripped and only when it passes the filter; a template is used only for the crisis flag or a goodbye/thanks label |
| Providers.OpenAIReply | backend/main.py:221-284 | the crisis flag gives the script; the model's stripped text is used exactly when the client is configured and the call answers; otherwise a template |
| Providers.GeminiKeepsSpecificText | backend/main.py:340-352 | Gemini's text is used exactly when it passes the filter, and a rejected text gives the smart fallback |
| Providers.GeminiFailureFallsBack | backend/main.py:303-358 | a missing Gemini model (lines 303-305) or a failed call (lines 356-358) gives the smart fallback |
| Providers.GeminiClosingUsesTemplates | backend/main.py:300-301 | goodbye and gratitude get their own templates whatever the model would say |
| Providers.OpenAIPassesGenericText | backend/main.py:278-281 | the OpenAI path sends a bare "ok" although the filter would reject it |
| Providers.OpenAIAsksModelForThanks | backend/main.py:228-281 | the OpenAI path has no goodbye/thanks shortcut |
| Providers.OpenAIFailureUsesBank | backend/main.py:231-284 | a missing OpenAI client (lines 231-233) or a failed call (lines 282-284) answers from the bank entry of the intent |
| Providers.ExamFallbackGeneric | backend/main.py:367 | the exam fallback starting "I hear you" is itself rejected by the filter |
| Providers.SadnessFallbackGeneric | backend/main.py:395 | the sadness fallback asking "Would you like to talk about..." is itself rejected by the filter |
| Providers.GeminiCanSendGenericText | backend/main.py:303-305 | with the Gemini model missing, an exam turn can get a reply the filter rejects |
| ChatEndpoint.TurnIntent | backend/main.py:430-439 | the turn's intent is the classifier's label, except that an `unknown` message takes the non-empty intent of the last bot turn whenever there is one; nothing else replaces the label |
| ChatEndpoint.RequestedMode | backend/main.py:444 | the mode has no upper case; it is `gemini` exactly when absent, empty or `gemini` in any case, and `openai` exactly when the given mode lower-cases to `openai` |
| ChatEndpoint.Respond | backend/main.py:433-479 | given the classifier's verdict: the mode is one of three; the intent is the verdict's label unless history replaces an `unknown`; the flag is set exactly when the detector fires or the intent is `crisis`; a crisis turn gets the script with mode `template`; otherwise Gemini mode with the model configured gets the Gemini generator's reply, OpenAI mode with the client configured the OpenAI generator's, and the template path a bank template; the emotion label is passed through |
| ChatEndpoint.Chat | backend/main.py:419-479 | the same for the whole turn, with the intent taken from the classifier's verdict on the message itself |
| ChatEndpoint.CrisisPreempts | backend/main.py:442-448 | a message the detector flags gets the script in mode `template`, whatever the mode, clients and history |
| ChatEndpoint.CrisisIntentFlags | backend/main.py:442 | a message classified `crisis` is flagged and gets the script |
| ChatEndpoint.CrisisTurnIntent | backend/main.py:442-448 | a turn whose intent is `crisis` gets the script |
| ChatEndpoint.ModeReportsPath | backend/main.py:446-470 | the reported mode is `gemini` or `openai` exactly when that provider was requested and configured and the turn is no crisis; otherwise `template` |
| ChatEndpoint.TemplatePathUsesBank | backend/main.py:468-470 | on the template path the reply comes from the intent's bank entry |
| ChatEndpoint.GeminiTurn | backend/main.py:450-458 | a non-crisis turn in Gemini mode with the model configured is answered by the Gemini generator |
| ChatEndpoint.OpenAITurn | backend/main.py:459-467 | a non-crisis turn in OpenAI mode with the client configured is answered by the OpenAI generator, and the mode says `openai` |
| ChatEndpoint.GeminiFailureKeepsMode | backend/main.py:450-458 | when the Gemini call fails, the reply is the smart fallback and the mode still says `gemini` |
| ChatEndpoint.ModeSpelling | backend/main.py:444 | two modes equal after lower-casing select the same path; an empty mode means `gemini`, and `OpenAI` means `openai` |
| ChatEndpoint.PersistedCrisis | backend/main.py:434-442 | an `unknown` message after a bot turn that carries `crisis` is a crisis turn |
| ChatEndpoint.CrisisLabelKept | backend/main.py:438 | a `crisis` classification is never replaced by the history |
| ChatEndpoint.KnownIntentStands | backend/main.py:438 | a classification other than `unknown` is never replaced |
| ChatEndpoint.RequestHistoryNeverPersists | backend/main.py:127-129 | with a history of parsed request turns the intent is always the classifier's own |
| ChatScenarios.CascadeCatchesWhatDetectorMisses | backend/main.py:442 | "i dont want to live" is not flagged by the detector, yet the turn is a crisis turn with the script |
| ChatScenarios.FlaggedMessageInOpenAIMode | backend/main.py:446-448 | "I want to kill myself" gets the script in mode `template` although OpenAI was requested and configured |
| ChatScenarios.ThanksByeInGeminiMode | backend/main.py:300-301 | "thanks, bye" in Gemini mode gets a gratitude template, and the mode says `gemini` |
| ChatScenarios.ExhaustedExamTurnWithGeminiDown | backend/main.py:364-370 | "I have exams tomorrow and I'm so exhausted" is `tiredness`, yet after a failed Gemini call it gets an exam fallback in mode `gemini` |

## Left out

- The emotion model (`EmotionAnalyzer`) is left out. Its label is a parameter the endpoint passes through, and `emotion_score` is not modelled.
- The web layer is left out: FastAPI routes, CORS, pydantic validation, the `/` and `/health` routes, and the server start-up.
- Client set-up (environment variables, API keys, the Gemini SDK import) is reduced to the two readiness booleans.
- The prompt texts and the network calls are left out. A call's result is an `Outcome` parameter.
- Only the prompt's history windows are modelled. The OpenAI window is `ChatHistory.OpenAIHistory` and the Gemini window is `ChatHistory.GeminiTranscript`.
- `print` logging is left out.
- Randomness is modelled as the index `pick`.
- `get_smart_fallback` takes an emotion argument that it never reads, so the model drops it.
- Text.Lower: folds only ASCII letters. Python's `str.lower` also folds other Unicode letters.
- Text.TokenCount: splits only at the ASCII whitespace of `Text.IsSpace`. Python's `split()` also splits at other Unicode spaces, so a message such as "ok\u00A0no no no" is three tokens here but four in Python.
- Text.Strip: strips only the ASCII whitespace that Python's `str.strip` and `str.isspace` accept. Other Unicode spaces are not stripped.
- The OpenAI path's `content.strip()` on a missing content raises an exception in Python. The model counts that as `Failed`.
- `str(response)` for a Gemini response without `text` is not modelled separately. Whatever text comes back is the `Answered` text.
- The prompt's good example is not proved to pass the filter. Reasoning about its 284 characters is too expensive here.
- ChatEndpoint.Chat: takes history turns that may carry an intent. That is more general than the request model, which parses only `sender` and `text`.

## Notes on the code

Facts about the code that a reader might not expect:

- The emotional categories come before `exams` in the cascade. So "I have exams tomorrow and I'm so exhausted" is `tiredness` (`IntentExamples.ExamsAndExhaustedIsTiredness`), and a message naming stress and exams is `stress` (`IntentProperties.StressBeforeExams`).
- A failed provider call keeps `llm_mode` at `gemini` or `openai` (`ChatEndpoint.GeminiFailureKeepsMode`, `ChatEndpoint.ModeReportsPath`).
- Only the Gemini generator answers goodbye and gratitude from the bank without calling the model (`Providers.GeminiClosingUsesTemplates`, `Providers.OpenAIAsksModelForThanks`).
- Two smart-fallback replies contain stock phrases of the generic-reply filter (`Providers.ExamFallbackGeneric`, `Providers.SadnessFallbackGeneric`).
- `HistoryMessage` has no `intent` field, so with parsed requests the endpoint never reuses a previous intent (`ChatEndpoint.RequestHistoryNeverPersists`).
