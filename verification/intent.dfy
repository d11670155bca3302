/** The rule-based intent classifier of backend/nlp/intent_detection.py: an
    ordered cascade of keyword-substring tests over the lower-cased, stripped
    utterance, in which the first list that matches decides the intent. */
module Intents {
  import opened Wrappers
  import opened Text

  /** The twenty declared intent labels. */
  datatype Intent =
    | Greeting | Smalltalk | Stress | Anxiety | Sadness | Tiredness | Loneliness
    | SelfEsteem | WorkStudy | Relationship | Exams | Motivation | Gratitude
    | Goodbye | Affirmation | Negation | Uncertainty | CopingRequest | Crisis | Unknown

  /** The label string the rest of the system sees. */
  function Name(i: Intent): string
  {
    match i
    case Greeting => "greeting"
    case Smalltalk => "smalltalk"
    case Stress => "stress"
    case Anxiety => "anxiety"
    case Sadness => "sadness"
    case Tiredness => "tiredness"
    case Loneliness => "loneliness"
    case SelfEsteem => "self_esteem"
    case WorkStudy => "work_study"
    case Relationship => "relationship"
    case Exams => "exams"
    case Motivation => "motivation"
    case Gratitude => "gratitude"
    case Goodbye => "goodbye"
    case Affirmation => "affirmation"
    case Negation => "negation"
    case Uncertainty => "uncertainty"
    case CopingRequest => "coping_request"
    case Crisis => "crisis"
    case Unknown => "unknown"
  }

  /** Reads a label back; None for any string that is not one of the twenty. */
  function Parse(s: string): (r: Option<Intent>)
    ensures r.Some? ==> Name(r.value) == s
  {
    if s == "greeting" then Some(Greeting)
    else if s == "smalltalk" then Some(Smalltalk)
    else if s == "stress" then Some(Stress)
    else if s == "anxiety" then Some(Anxiety)
    else if s == "sadness" then Some(Sadness)
    else if s == "tiredness" then Some(Tiredness)
    else if s == "loneliness" then Some(Loneliness)
    else if s == "self_esteem" then Some(SelfEsteem)
    else if s == "work_study" then Some(WorkStudy)
    else if s == "relationship" then Some(Relationship)
    else if s == "exams" then Some(Exams)
    else if s == "motivation" then Some(Motivation)
    else if s == "gratitude" then Some(Gratitude)
    else if s == "goodbye" then Some(Goodbye)
    else if s == "affirmation" then Some(Affirmation)
    else if s == "negation" then Some(Negation)
    else if s == "uncertainty" then Some(Uncertainty)
    else if s == "coping_request" then Some(CopingRequest)
    else if s == "crisis" then Some(Crisis)
    else if s == "unknown" then Some(Unknown)
    else None
  }

  /** Every intent's label reads back as that intent, so two intents never
      share a label: comparing labels is comparing intents. */
  lemma NameRoundTrip(i: Intent)
    ensures Parse(Name(i)) == Some(i)
  {
    match i
    case Greeting =>
    case Smalltalk =>
    case Stress =>
    case Anxiety =>
    case Sadness =>
    case Tiredness =>
    case Loneliness =>
    case SelfEsteem =>
    case WorkStudy =>
    case Relationship =>
    case Exams =>
    case Motivation =>
    case Gratitude =>
    case Goodbye =>
    case Affirmation =>
    case Negation =>
    case Uncertainty =>
    case CopingRequest =>
    case Crisis =>
    case Unknown =>
  }

  lemma NameInjective(a: Intent, b: Intent)
    ensures Name(a) == Name(b) <==> a == b
  {
    NameRoundTrip(a);
    NameRoundTrip(b);
  }

  // ---------------------------------------------------------------------------
  // Keyword lists, in the order the source tests them
  // ---------------------------------------------------------------------------

  const AffirmationShort: seq<string> := ["yes", "yeah", "yep", "sure", "ok", "okay", "ofc", "of course"]
  const NegationShort: seq<string> := ["no", "nope", "nah", "never"]
  const UncertaintyShort: seq<string> := ["idk", "i dont know", "i don't know", "not sure", "maybe", "kinda"]
  const GratitudeShort: seq<string> := ["thanks", "thank you", "thx", "tysm", "ty"]
  const GoodbyeShort: seq<string> := ["bye", "goodbye", "see you", "good night", "goodnight", "gn"]

  const GreetingWords: seq<string> := ["hi", "hello", "hey", "good morning", "good afternoon", "good evening"]
  const SmalltalkWords: seq<string> := ["how are you", "what's up", "whats up", "how is it going"]
  const StressWords: seq<string> :=
    ["stressed", "stress", "pressure", "under pressure", "overwhelmed with work", "burnout", "burned out"]
  const AnxietyWords: seq<string> :=
    ["anxious", "anxiety", "panic", "panic attack", "nervous", "scared", "terrified", "overthinking"]
  const SadnessWords: seq<string> :=
    ["sad", "depressed", "depression", "lonely", "alone", "crying", "upset", "empty", "hurt emotionally"]
  const TirednessWords: seq<string> := ["tired", "exhausted", "no energy", "drained", "fatigued", "worn out"]
  const LonelinessWords: seq<string> :=
    ["no friends", "ignored", "left out", "no one cares", "no one understands", "i feel alone", "i feel lonely"]
  const SelfEsteemWords: seq<string> :=
    ["useless", "failure", "i am a failure", "i'm a failure", "not good enough", "worthless",
     "i hate myself", "hate myself", "disappointment"]
  const ExamWords: seq<string> :=
    ["exam", "exams", "test", "marks", "grades", "result", "results", "semester", "internals"]
  const WorkStudyWords: seq<string> :=
    ["assignment", "project", "deadline", "workload", "too much work", "studies", "study", "college",
     "job", "office", "placement", "interview"]
  const RelationshipWords: seq<string> :=
    ["friend", "friends", "friendship", "relationship", "breakup", "broke up", "ex", "partner",
     "girlfriend", "boyfriend", "family issues", "my parents", "mom", "dad", "siblings"]
  const MotivationWords: seq<string> :=
    ["no motivation", "lost motivation", "i'm not motivated", "i am not motivated", "feel stuck",
     "stuck in life", "dont know what to do", "don't know what to do", "direction in life"]
  const CopingWords: seq<string> :=
    ["what should i do", "how do i handle", "how to deal with", "how do i deal with", "any advice",
     "any suggestion", "how can i cope", "help me"]
  const CrisisWords: seq<string> :=
    ["suicide", "kill myself", "end my life", "self-harm", "self harm", "hurt myself",
     "dont want to live", "don't want to live", "no reason to live"]
  const GratitudeLong: seq<string> :=
    ["thank you so much", "thanks a lot", "you really helped", "this helped", "i appreciate"]
  const GoodbyeLong: seq<string> :=
    ["i have to go", "got to go", "need to sleep", "going to sleep", "talk to you later", "see you later"]

  // ---------------------------------------------------------------------------
  // The cascade as ordered rule tables
  // ---------------------------------------------------------------------------

  /** One `if _contains_any(t, keywords): return intent` step of the cascade. */
  datatype Rule = Rule(keywords: seq<string>, intent: Intent)

  /** The tests applied first to replies of at most three tokens. */
  const ShortRules: seq<Rule> := [
    Rule(AffirmationShort, Affirmation), Rule(NegationShort, Negation),
    Rule(UncertaintyShort, Uncertainty), Rule(GratitudeShort, Gratitude),
    Rule(GoodbyeShort, Goodbye)]

  /** The tests every other non-empty utterance goes through, in source order. */
  const LongRules: seq<Rule> := [
    Rule(GreetingWords, Greeting), Rule(SmalltalkWords, Smalltalk), Rule(StressWords, Stress),
    Rule(AnxietyWords, Anxiety), Rule(SadnessWords, Sadness), Rule(TirednessWords, Tiredness),
    Rule(LonelinessWords, Loneliness), Rule(SelfEsteemWords, SelfEsteem), Rule(ExamWords, Exams),
    Rule(WorkStudyWords, WorkStudy), Rule(RelationshipWords, Relationship),
    Rule(MotivationWords, Motivation), Rule(CopingWords, CopingRequest), Rule(CrisisWords, Crisis),
    Rule(GratitudeLong, Gratitude), Rule(GoodbyeLong, Goodbye)]

  predicate Fires(t: string, rule: Rule)
  {
    ContainsAny(t, rule.keywords)
  }

  /** The intent of the first rule whose keyword list occurs in `t`. */
  function FirstRule(rules: seq<Rule>, t: string): (r: Option<Intent>)
    ensures r.Some? ==> exists k :: 0 <= k < |rules| && Fires(t, rules[k]) && r.value == rules[k].intent
                                    && forall j :: 0 <= j < k ==> !Fires(t, rules[j])
    ensures r.None? <==> forall j :: 0 <= j < |rules| ==> !Fires(t, rules[j])
  {
    var p := (rule: Rule) => Fires(t, rule);
    match FirstWhere(rules, p)
    case None => None
    case Some(k) => Some(rules[k].intent)
  }

  /** Rule `k` fires and no earlier one does: rule `k` decides. */
  lemma FirstRuleAt(rules: seq<Rule>, t: string, k: nat)
    requires k < |rules| && Fires(t, rules[k])
    requires forall j :: 0 <= j < k ==> !Fires(t, rules[j])
    ensures FirstRule(rules, t) == Some(rules[k].intent)
  {
    FirstWhereUnique(rules, rule => Fires(t, rule), k);
  }

  /** `text.lower().strip()`. */
  function Normalize(text: string): string
  {
    Strip(Lower(text))
  }

  /** The cascade applied to normalised text `t`: empty text is `unknown`;
      text of at most three tokens is first tried against the short-form
      rules; everything else goes through the long-form rules, with `unknown`
      when none fires. */
  function Classify(t: string): (r: Intent)
    ensures |t| == 0 ==> r == Unknown
    ensures r != Unknown ==>
              (exists k :: 0 <= k < |ShortRules| && Fires(t, ShortRules[k]) && ShortRules[k].intent == r) ||
              (exists k :: 0 <= k < |LongRules| && Fires(t, LongRules[k]) && LongRules[k].intent == r)
    ensures var longSilent := forall k :: 0 <= k < |LongRules| ==> !Fires(t, LongRules[k]);
            var shortSilent := forall k :: 0 <= k < |ShortRules| ==> !Fires(t, ShortRules[k]);
            longSilent && (TokenCount(t) > 3 || shortSilent) ==> r == Unknown
  {
    if |t| == 0 then Unknown
    else if TokenCount(t) <= 3 && FirstRule(ShortRules, t).Some? then FirstRule(ShortRules, t).value
    else FirstRule(LongRules, t).GetOr(Unknown)
  }

  /** `detect_intent`: the cascade applied to `text.lower().strip()`. */
  function DetectIntent(text: string): (r: Intent)
    ensures AllSpace(text) ==> r == Unknown
  {
    LowerKeepsSpaces(text);
    Classify(Normalize(text))
  }
}
