/** Worked utterances of the classifier, each traced through the cascade:
    which lists miss, which list fires first, and the intent that results. */
module IntentExamples {
  import opened Text
  import opened Intents
  import opened IntentProperties

  /** "ok thanks": a short reply with an affirmation phrase is `affirmation`, although it also thanks. */
  lemma OkThanksIsAffirmation()
    ensures DetectIntent("ok thanks") == Affirmation
  {
    OkThanksIsAffirmationNormal("ok thanks");
    OkThanksIsAffirmationClassified("ok thanks");
  }

  lemma OkThanksIsAffirmationNormal(text: string)
    requires text == "ok thanks"
    ensures Normalize(text) == "ok thanks"
  {
    NormalFormLiteral("ok thanks");
  }

  lemma OkThanksIsAffirmationTokens(t: string)
    requires t == "ok thanks"
    ensures TokenCount(t) <= 3
  {
    assert WordStarts(t) == {0, 3};
  }

  lemma OkThanksIsAffirmationHits(t: string)
    requires t == "ok thanks"
    ensures Fires(t, ShortRules[0])
  {
    assert MatchesAt(t, "ok", 0);
    assert Contains(t, AffirmationShort[4]);
  }

  lemma OkThanksIsAffirmationClassified(t: string)
    requires t == "ok thanks"
    ensures Classify(t) == Affirmation
  {
    OkThanksIsAffirmationTokens(t);
    OkThanksIsAffirmationHits(t);
    ShortRuleDecides(t, 0);
  }

  /** "i don't know" is `negation`, not `uncertainty`: "know" contains "no". */
  lemma IDontKnowIsNegation()
    ensures DetectIntent("i don't know") == Negation
  {
    IDontKnowIsNegationNormal("i don't know");
    IDontKnowIsNegationClassified("i don't know");
  }

  lemma IDontKnowIsNegationNormal(text: string)
    requires text == "i don't know"
    ensures Normalize(text) == "i don't know"
  {
    NormalFormLiteral("i don't know");
  }

  lemma IDontKnowIsNegationTokens(t: string)
    requires t == "i don't know"
    ensures TokenCount(t) <= 3
  {
    assert WordStarts(t) == {0, 2, 8};
  }

  lemma IDontKnowIsNegationMisses0(t: string)
    requires t == "i don't know"
    ensures !Fires(t, ShortRules[0])
  {
    AbsentPairs(t, AffirmationShort, [0, 0, 0, 0, 0, 0, 0, 0]);
  }

  lemma IDontKnowIsNegationHits(t: string)
    requires t == "i don't know"
    ensures Fires(t, ShortRules[1])
  {
    assert MatchesAt(t, "no", 9);
    assert Contains(t, NegationShort[0]);
  }

  lemma IDontKnowIsNegationClassified(t: string)
    requires t == "i don't know"
    ensures Classify(t) == Negation
  {
    IDontKnowIsNegationTokens(t);
    IDontKnowIsNegationMisses0(t);
    IDontKnowIsNegationHits(t);
    ShortRuleDecides(t, 1);
  }

  /** "not sure" is `affirmation`: it contains "sure". */
  lemma NotSureIsAffirmation()
    ensures DetectIntent("not sure") == Affirmation
  {
    NotSureIsAffirmationNormal("not sure");
    NotSureIsAffirmationClassified("not sure");
  }

  lemma NotSureIsAffirmationNormal(text: string)
    requires text == "not sure"
    ensures Normalize(text) == "not sure"
  {
    NormalFormLiteral("not sure");
  }

  lemma NotSureIsAffirmationTokens(t: string)
    requires t == "not sure"
    ensures TokenCount(t) <= 3
  {
    assert WordStarts(t) == {0, 4};
  }

  lemma NotSureIsAffirmationHits(t: string)
    requires t == "not sure"
    ensures Fires(t, ShortRules[0])
  {
    assert MatchesAt(t, "sure", 4);
    assert Contains(t, AffirmationShort[3]);
  }

  lemma NotSureIsAffirmationClassified(t: string)
    requires t == "not sure"
    ensures Classify(t) == Affirmation
  {
    NotSureIsAffirmationTokens(t);
    NotSureIsAffirmationHits(t);
    ShortRuleDecides(t, 0);
  }

  /** "thanks, bye": gratitude comes before goodbye in the short-form branch. */
  lemma ThanksByeIsGratitude()
    ensures DetectIntent("thanks, bye") == Gratitude
  {
    ThanksByeIsGratitudeNormal("thanks, bye");
    ThanksByeIsGratitudeClassified("thanks, bye");
  }

  lemma ThanksByeIsGratitudeNormal(text: string)
    requires text == "thanks, bye"
    ensures Normalize(text) == "thanks, bye"
  {
    NormalFormLiteral("thanks, bye");
  }

  lemma ThanksByeIsGratitudeTokens(t: string)
    requires t == "thanks, bye"
    ensures TokenCount(t) <= 3
  {
    assert WordStarts(t) == {0, 8};
  }

  lemma ThanksByeIsGratitudeMisses0(t: string)
    requires t == "thanks, bye"
    ensures !Fires(t, ShortRules[0])
  {
    AbsentPairs(t, AffirmationShort, [1, 1, 1, 0, 0, 0, 0, 0]);
  }

  lemma ThanksByeIsGratitudeMisses1(t: string)
    requires t == "thanks, bye"
    ensures !Fires(t, ShortRules[1])
  {
    AbsentPairs(t, NegationShort, [0, 0, 0, 0]);
  }

  lemma ThanksByeIsGratitudeMisses2(t: string)
    requires t == "thanks, bye"
    ensures !Fires(t, ShortRules[2])
  {
    AbsentPairs(t, UncertaintyShort, [0, 0, 0, 0, 0, 0]);
  }

  lemma ThanksByeIsGratitudeHits(t: string)
    requires t == "thanks, bye"
    ensures Fires(t, ShortRules[3])
  {
    assert MatchesAt(t, "thanks", 0);
    assert Contains(t, GratitudeShort[0]);
  }

  lemma ThanksByeIsGratitudeClassified(t: string)
    requires t == "thanks, bye"
    ensures Classify(t) == Gratitude
  {
    ThanksByeIsGratitudeTokens(t);
    ThanksByeIsGratitudeMisses0(t);
    ThanksByeIsGratitudeMisses1(t);
    ThanksByeIsGratitudeMisses2(t);
    ThanksByeIsGratitudeHits(t);
    ShortRuleDecides(t, 3);
  }

  /** "i think i'm stressed" is a `greeting`: "hi" occurs inside "think". */
  lemma ThinkIsGreeting()
    ensures DetectIntent("i think i'm stressed") == Greeting
  {
    ThinkIsGreetingNormal("i think i'm stressed");
    ThinkIsGreetingClassified("i think i'm stressed");
  }

  lemma ThinkIsGreetingNormal(text: string)
    requires text == "i think i'm stressed"
    ensures Normalize(text) == "i think i'm stressed"
  {
    NormalFormLiteral("i think i'm stressed");
  }

  lemma ThinkIsGreetingTokens(t: string)
    requires t == "i think i'm stressed"
    ensures TokenCount(t) > 3
  {
    TokenCountAtLeast(t, {0, 2, 8, 12});
  }

  lemma ThinkIsGreetingHits(t: string)
    requires t == "i think i'm stressed"
    ensures Fires(t, LongRules[0])
  {
    assert MatchesAt(t, "hi", 3);
    assert Contains(t, GreetingWords[0]);
  }

  lemma ThinkIsGreetingClassified(t: string)
    requires t == "i think i'm stressed"
    ensures Classify(t) == Greeting
  {
    ThinkIsGreetingTokens(t);
    ThinkIsGreetingHits(t);
    LongRuleDecides(t, 0);
  }

  /** "i am stressed about my exam" is `stress`, not `exams`. */
  lemma StressedAboutExamIsStress()
    ensures DetectIntent("i am stressed about my exam") == Stress
  {
    StressedAboutExamIsStressNormal("i am stressed about my exam");
    StressedAboutExamIsStressClassified("i am stressed about my exam");
  }

  lemma StressedAboutExamIsStressNormal(text: string)
    requires text == "i am stressed about my exam"
    ensures Normalize(text) == "i am stressed about my exam"
  {
    NormalFormLiteral("i am stressed about my exam");
  }

  lemma StressedAboutExamIsStressTokens(t: string)
    requires t == "i am stressed about my exam"
    ensures TokenCount(t) > 3
  {
    TokenCountAtLeast(t, {0, 2, 5, 14});
  }

  lemma StressedAboutExamIsStressMisses0(t: string)
    requires t == "i am stressed about my exam"
    ensures !Fires(t, LongRules[0])
  {
    AbsentPairs(t, GreetingWords, [0, 0, 0, 0, 0, 0]);
  }

  lemma StressedAboutExamIsStressMisses1(t: string)
    requires t == "i am stressed about my exam"
    ensures !Fires(t, LongRules[1])
  {
    AbsentPairs(t, SmalltalkWords, [0, 0, 0, 0]);
  }

  lemma StressedAboutExamIsStressHits(t: string)
    requires t == "i am stressed about my exam"
    ensures Fires(t, LongRules[2])
  {
    assert MatchesAt(t, "stressed", 5);
    assert Contains(t, StressWords[0]);
  }

  lemma StressedAboutExamIsStressClassified(t: string)
    requires t == "i am stressed about my exam"
    ensures Classify(t) == Stress
  {
    StressedAboutExamIsStressTokens(t);
    StressedAboutExamIsStressMisses0(t);
    StressedAboutExamIsStressMisses1(t);
    StressedAboutExamIsStressHits(t);
    LongRuleDecides(t, 2);
  }

  /** "i feel sad and want to end my life" is `sadness`: the sadness list comes before the crisis list. */
  lemma SadAndEndMyLifeIsSadness()
    ensures DetectIntent("i feel sad and want to end my life") == Sadness
  {
    SadAndEndMyLifeIsSadnessNormal("i feel sad and want to end my life");
    SadAndEndMyLifeIsSadnessClassified("i feel sad and want to end my life");
  }

  lemma SadAndEndMyLifeIsSadnessNormal(text: string)
    requires text == "i feel sad and want to end my life"
    ensures Normalize(text) == "i feel sad and want to end my life"
  {
    NormalFormLiteral("i feel sad and want to end my life");
  }

  lemma SadAndEndMyLifeIsSadnessTokens(t: string)
    requires t == "i feel sad and want to end my life"
    ensures TokenCount(t) > 3
  {
    TokenCountAtLeast(t, {0, 2, 7, 11});
  }

  lemma SadAndEndMyLifeIsSadnessMisses0(t: string)
    requires t == "i feel sad and want to end my life"
    ensures !Fires(t, LongRules[0])
  {
    AbsentPairs(t, GreetingWords, [0, 0, 0, 0, 0, 0]);
  }

  lemma SadAndEndMyLifeIsSadnessMisses1(t: string)
    requires t == "i feel sad and want to end my life"
    ensures !Fires(t, LongRules[1])
  {
    AbsentPairs(t, SmalltalkWords, [0, 0, 0, 0]);
  }

  lemma SadAndEndMyLifeIsSadnessMisses2Part0(t: string)
    requires t == "i feel sad and want to end my life"
    ensures !Contains(t, StressWords[0]) && !Contains(t, StressWords[1]) && !Contains(t, StressWords[2])
  {
    AbsentPairs(t, StressWords[..3], [0, 0, 0]);
  }

  lemma SadAndEndMyLifeIsSadnessMisses2Part1(t: string)
    requires t == "i feel sad and want to end my life"
    ensures !Contains(t, StressWords[3]) && !Contains(t, StressWords[4]) && !Contains(t, StressWords[5])
  {
    AbsentPairs(t, StressWords[3..6], [0, 0, 0]);
  }

  lemma SadAndEndMyLifeIsSadnessMisses2Part2(t: string)
    requires t == "i feel sad and want to end my life"
    ensures !Contains(t, StressWords[6])
  {
    AbsentPair(t, StressWords[6], 0);
  }

  lemma SadAndEndMyLifeIsSadnessMisses2(t: string)
    requires t == "i feel sad and want to end my life"
    ensures !Fires(t, LongRules[2])
  {
    SadAndEndMyLifeIsSadnessMisses2Part0(t);
    SadAndEndMyLifeIsSadnessMisses2Part1(t);
    SadAndEndMyLifeIsSadnessMisses2Part2(t);
  }

  lemma SadAndEndMyLifeIsSadnessMisses3Part0(t: string)
    requires t == "i feel sad and want to end my life"
    ensures !Contains(t, AnxietyWords[0]) && !Contains(t, AnxietyWords[1]) && !Contains(t, AnxietyWords[2])
  {
    AbsentPairs(t, AnxietyWords[..3], [1, 1, 0]);
  }

  lemma SadAndEndMyLifeIsSadnessMisses3Part1(t: string)
    requires t == "i feel sad and want to end my life"
    ensures !Contains(t, AnxietyWords[3]) && !Contains(t, AnxietyWords[4]) && !Contains(t, AnxietyWords[5])
  {
    AbsentPairs(t, AnxietyWords[3..6], [0, 0, 0]);
  }

  lemma SadAndEndMyLifeIsSadnessMisses3Part2(t: string)
    requires t == "i feel sad and want to end my life"
    ensures !Contains(t, AnxietyWords[6]) && !Contains(t, AnxietyWords[7])
  {
    AbsentPair(t, AnxietyWords[6], 0);
    AbsentPair(t, AnxietyWords[7], 0);
  }

  lemma SadAndEndMyLifeIsSadnessMisses3(t: string)
    requires t == "i feel sad and want to end my life"
    ensures !Fires(t, LongRules[3])
  {
    SadAndEndMyLifeIsSadnessMisses3Part0(t);
    SadAndEndMyLifeIsSadnessMisses3Part1(t);
    SadAndEndMyLifeIsSadnessMisses3Part2(t);
  }

  lemma SadAndEndMyLifeIsSadnessHits(t: string)
    requires t == "i feel sad and want to end my life"
    ensures Fires(t, LongRules[4])
  {
    assert MatchesAt(t, "sad", 7);
    assert Contains(t, SadnessWords[0]);
  }

  lemma SadAndEndMyLifeIsSadnessClassified(t: string)
    requires t == "i feel sad and want to end my life"
    ensures Classify(t) == Sadness
  {
    SadAndEndMyLifeIsSadnessTokens(t);
    SadAndEndMyLifeIsSadnessMisses0(t);
    SadAndEndMyLifeIsSadnessMisses1(t);
    SadAndEndMyLifeIsSadnessMisses2(t);
    SadAndEndMyLifeIsSadnessMisses3(t);
    SadAndEndMyLifeIsSadnessHits(t);
    LongRuleDecides(t, 4);
  }

  /** "i dont want to live" reaches the crisis list of the cascade. */
  lemma DontWantToLiveIsCrisis()
    ensures DetectIntent("i dont want to live") == Crisis
  {
    DontWantToLiveIsCrisisNormal("i dont want to live");
    DontWantToLiveIsCrisisClassified("i dont want to live");
  }

  lemma DontWantToLiveIsCrisisNormal(text: string)
    requires text == "i dont want to live"
    ensures Normalize(text) == "i dont want to live"
  {
    NormalFormLiteral("i dont want to live");
  }

  lemma DontWantToLiveIsCrisisTokens(t: string)
    requires t == "i dont want to live"
    ensures TokenCount(t) > 3
  {
    TokenCountAtLeast(t, {0, 2, 7, 12});
  }

  lemma DontWantToLiveIsCrisisMisses0(t: string)
    requires t == "i dont want to live"
    ensures !Fires(t, LongRules[0])
  {
    AbsentPairs(t, GreetingWords, [0, 0, 0, 0, 0, 0]);
  }

  lemma DontWantToLiveIsCrisisMisses1(t: string)
    requires t == "i dont want to live"
    ensures !Fires(t, LongRules[1])
  {
    AbsentPairs(t, SmalltalkWords, [0, 0, 0, 0]);
  }

  lemma DontWantToLiveIsCrisisMisses2(t: string)
    requires t == "i dont want to live"
    ensures !Fires(t, LongRules[2])
  {
    AbsentPairs(t, StressWords, [0, 0, 0, 0, 0, 0, 0]);
  }

  lemma DontWantToLiveIsCrisisMisses3(t: string)
    requires t == "i dont want to live"
    ensures !Fires(t, LongRules[3])
  {
    AbsentPairs(t, AnxietyWords, [1, 1, 0, 0, 0, 0, 0, 0]);
  }

  lemma DontWantToLiveIsCrisisMisses4(t: string)
    requires t == "i dont want to live"
    ensures !Fires(t, LongRules[4])
  {
    AbsentPairs(t, SadnessWords, [0, 0, 0, 0, 0, 0, 0, 0, 0]);
  }

  lemma DontWantToLiveIsCrisisMisses5(t: string)
    requires t == "i dont want to live"
    ensures !Fires(t, LongRules[5])
  {
    AbsentPairs(t, TirednessWords, [0, 0, 0, 0, 0, 0]);
  }

  lemma DontWantToLiveIsCrisisMisses6(t: string)
    requires t == "i dont want to live"
    ensures !Fires(t, LongRules[6])
  {
    AbsentPairs(t, LonelinessWords, [0, 0, 0, 0, 0, 1, 1]);
  }

  lemma DontWantToLiveIsCrisisMisses7(t: string)
    requires t == "i dont want to live"
    ensures !Fires(t, LongRules[7])
  {
    AbsentPairs(t, SelfEsteemWords, [0, 0, 1, 0, 0, 0, 1, 0, 0]);
  }

  lemma DontWantToLiveIsCrisisMisses8(t: string)
    requires t == "i dont want to live"
    ensures !Fires(t, LongRules[8])
  {
    AbsentPairs(t, ExamWords, [0, 0, 0, 0, 0, 0, 0, 0, 0]);
  }

  lemma DontWantToLiveIsCrisisMisses9(t: string)
    requires t == "i dont want to live"
    ensures !Fires(t, LongRules[9])
  {
    AbsentPairs(t, WorkStudyWords, [0, 0, 0, 0, 1, 0, 0, 0, 0, 0, 0, 0]);
  }

  lemma DontWantToLiveIsCrisisMisses10(t: string)
    requires t == "i dont want to live"
    ensures !Fires(t, LongRules[10])
  {
    AbsentPairs(t, RelationshipWords, [0, 0, 0, 0, 0, 0, 0, 0, 0, 0, 0, 0, 0, 0, 0]);
  }

  lemma DontWantToLiveIsCrisisMisses11(t: string)
    requires t == "i dont want to live"
    ensures !Fires(t, LongRules[11])
  {
    AbsentPairs(t, MotivationWords, [0, 0, 0, 1, 0, 0, 4, 2, 0]);
  }

  lemma DontWantToLiveIsCrisisMisses12(t: string)
    requires t == "i dont want to live"
    ensures !Fires(t, LongRules[12])
  {
    AbsentPairs(t, CopingWords, [0, 0, 0, 0, 1, 1, 0, 0]);
  }

  lemma DontWantToLiveIsCrisisHits(t: string)
    requires t == "i dont want to live"
    ensures Fires(t, LongRules[13])
  {
    assert MatchesAt(t, "dont want to live", 2);
    assert Contains(t, CrisisWords[6]);
  }

  lemma DontWantToLiveIsCrisisClassified(t: string)
    requires t == "i dont want to live"
    ensures Classify(t) == Crisis
  {
    DontWantToLiveIsCrisisTokens(t);
    DontWantToLiveIsCrisisMisses0(t);
    DontWantToLiveIsCrisisMisses1(t);
    DontWantToLiveIsCrisisMisses2(t);
    DontWantToLiveIsCrisisMisses3(t);
    DontWantToLiveIsCrisisMisses4(t);
    DontWantToLiveIsCrisisMisses5(t);
    DontWantToLiveIsCrisisMisses6(t);
    DontWantToLiveIsCrisisMisses7(t);
    DontWantToLiveIsCrisisMisses8(t);
    DontWantToLiveIsCrisisMisses9(t);
    DontWantToLiveIsCrisisMisses10(t);
    DontWantToLiveIsCrisisMisses11(t);
    DontWantToLiveIsCrisisMisses12(t);
    DontWantToLiveIsCrisisHits(t);
    LongRuleDecides(t, 13);
  }

  /** "thank you so much" has four tokens and reaches the long-form gratitude list. */
  lemma ThankYouSoMuchIsGratitude()
    ensures DetectIntent("thank you so much") == Gratitude
  {
    ThankYouSoMuchIsGratitudeNormal("thank you so much");
    ThankYouSoMuchIsGratitudeClassified("thank you so much");
  }

  lemma ThankYouSoMuchIsGratitudeNormal(text: string)
    requires text == "thank you so much"
    ensures Normalize(text) == "thank you so much"
  {
    NormalFormLiteral("thank you so much");
  }

  lemma ThankYouSoMuchIsGratitudeTokens(t: string)
    requires t == "thank you so much"
    ensures TokenCount(t) > 3
  {
    TokenCountAtLeast(t, {0, 6, 10, 13});
  }

  lemma ThankYouSoMuchIsGratitudeMisses0(t: string)
    requires t == "thank you so much"
    ensures !Fires(t, LongRules[0])
  {
    AbsentPairs(t, GreetingWords, [0, 0, 0, 0, 0, 0]);
  }

  lemma ThankYouSoMuchIsGratitudeMisses1(t: string)
    requires t == "thank you so much"
    ensures !Fires(t, LongRules[1])
  {
    AbsentPairs(t, SmalltalkWords, [0, 0, 0, 0]);
  }

  lemma ThankYouSoMuchIsGratitudeMisses2(t: string)
    requires t == "thank you so much"
    ensures !Fires(t, LongRules[2])
  {
    AbsentPairs(t, StressWords, [0, 0, 0, 0, 0, 0, 0]);
  }

  lemma ThankYouSoMuchIsGratitudeMisses3(t: string)
    requires t == "thank you so much"
    ensures !Fires(t, LongRules[3])
  {
    AbsentPairs(t, AnxietyWords, [1, 1, 0, 0, 0, 0, 0, 0]);
  }

  lemma ThankYouSoMuchIsGratitudeMisses4(t: string)
    requires t == "thank you so much"
    ensures !Fires(t, LongRules[4])
  {
    AbsentPairs(t, SadnessWords, [0, 0, 0, 0, 0, 0, 0, 0, 0]);
  }

  lemma ThankYouSoMuchIsGratitudeMisses5(t: string)
    requires t == "thank you so much"
    ensures !Fires(t, LongRules[5])
  {
    AbsentPairs(t, TirednessWords, [0, 0, 0, 0, 0, 0]);
  }

  lemma ThankYouSoMuchIsGratitudeMisses6(t: string)
    requires t == "thank you so much"
    ensures !Fires(t, LongRules[6])
  {
    AbsentPairs(t, LonelinessWords, [0, 0, 0, 0, 0, 0, 0]);
  }

  lemma ThankYouSoMuchIsGratitudeMisses7(t: string)
    requires t == "thank you so much"
    ensures !Fires(t, LongRules[7])
  {
    AbsentPairs(t, SelfEsteemWords, [0, 0, 0, 0, 0, 0, 0, 1, 0]);
  }

  lemma ThankYouSoMuchIsGratitudeMisses8(t: string)
    requires t == "thank you so much"
    ensures !Fires(t, LongRules[8])
  {
    AbsentPairs(t, ExamWords, [0, 0, 0, 0, 0, 0, 0, 0, 0]);
  }

  lemma ThankYouSoMuchIsGratitudeMisses9(t: string)
    requires t == "thank you so much"
    ensures !Fires(t, LongRules[9])
  {
    AbsentPairs(t, WorkStudyWords, [0, 0, 0, 0, 0, 0, 0, 0, 0, 0, 0, 0]);
  }

  lemma ThankYouSoMuchIsGratitudeMisses10(t: string)
    requires t == "thank you so much"
    ensures !Fires(t, LongRules[10])
  {
    AbsentPairs(t, RelationshipWords, [0, 0, 0, 0, 0, 0, 0, 0, 0, 0, 0, 0, 0, 0, 0]);
  }

  lemma ThankYouSoMuchIsGratitudeMisses11(t: string)
    requires t == "thank you so much"
    ensures !Fires(t, LongRules[11])
  {
    AbsentPairs(t, MotivationWords, [0, 0, 0, 0, 0, 0, 0, 0, 0]);
  }

  lemma ThankYouSoMuchIsGratitudeMisses12(t: string)
    requires t == "thank you so much"
    ensures !Fires(t, LongRules[12])
  {
    AbsentPairs(t, CopingWords, [0, 0, 0, 0, 1, 1, 0, 0]);
  }

  lemma ThankYouSoMuchIsGratitudeMisses13(t: string)
    requires t == "thank you so much"
    ensures !Fires(t, LongRules[13])
  {
    AbsentPairs(t, CrisisWords, [0, 0, 0, 0, 0, 0, 0, 0, 0]);
  }

  lemma ThankYouSoMuchIsGratitudeHits(t: string)
    requires t == "thank you so much"
    ensures Fires(t, LongRules[14])
  {
    assert MatchesAt(t, "thank you so much", 0);
    assert Contains(t, GratitudeLong[0]);
  }

  lemma ThankYouSoMuchIsGratitudeQuiet(t: string)
    requires t == "thank you so much"
    ensures forall j :: 0 <= j < 14 ==> !Fires(t, LongRules[j])
  {
    ThankYouSoMuchIsGratitudeMisses0(t);
    ThankYouSoMuchIsGratitudeMisses1(t);
    ThankYouSoMuchIsGratitudeMisses2(t);
    ThankYouSoMuchIsGratitudeMisses3(t);
    ThankYouSoMuchIsGratitudeMisses4(t);
    ThankYouSoMuchIsGratitudeMisses5(t);
    ThankYouSoMuchIsGratitudeMisses6(t);
    ThankYouSoMuchIsGratitudeMisses7(t);
    ThankYouSoMuchIsGratitudeMisses8(t);
    ThankYouSoMuchIsGratitudeMisses9(t);
    ThankYouSoMuchIsGratitudeMisses10(t);
    ThankYouSoMuchIsGratitudeMisses11(t);
    ThankYouSoMuchIsGratitudeMisses12(t);
    ThankYouSoMuchIsGratitudeMisses13(t);
  }

  lemma ThankYouSoMuchIsGratitudeClassified(t: string)
    requires t == "thank you so much"
    ensures Classify(t) == Gratitude
  {
    ThankYouSoMuchIsGratitudeTokens(t);
    ThankYouSoMuchIsGratitudeQuiet(t);
    ThankYouSoMuchIsGratitudeHits(t);
    LongRuleDecides(t, 14);
  }

  /** "I have exams tomorrow and I'm so exhausted" is `tiredness`: tiredness comes before exams. */
  lemma ExamsAndExhaustedIsTiredness()
    ensures DetectIntent("I have exams tomorrow and I'm so exhausted") == Tiredness
  {
    ExamsAndExhaustedIsTirednessNormal("I have exams tomorrow and I'm so exhausted");
    ExamsAndExhaustedIsTirednessClassified("i have exams tomorrow and i'm so exhausted");
  }

  lemma ExamsAndExhaustedIsTirednessLower(text: string)
    requires text == "I have exams tomorrow and I'm so exhausted"
    ensures Lower(text) == "i have exams tomorrow and i'm so exhausted"
  {
    assert Lower(text) == "i have exams tomorrow and i'm so exhausted";
  }

  lemma ExamsAndExhaustedIsTirednessNormal(text: string)
    requires text == "I have exams tomorrow and I'm so exhausted"
    ensures Normalize(text) == "i have exams tomorrow and i'm so exhausted"
  {
    ExamsAndExhaustedIsTirednessLower(text);
    NormalFormLiteral("i have exams tomorrow and i'm so exhausted");
  }

  lemma ExamsAndExhaustedIsTirednessTokens(t: string)
    requires t == "i have exams tomorrow and i'm so exhausted"
    ensures TokenCount(t) > 3
  {
    TokenCountAtLeast(t, {0, 2, 7, 13});
  }

  lemma ExamsAndExhaustedIsTirednessMisses0(t: string)
    requires t == "i have exams tomorrow and i'm so exhausted"
    ensures !Fires(t, LongRules[0])
  {
    ExamsAndExhaustedIsTirednessNoHello(t);
    ExamsAndExhaustedIsTirednessNoGood(t);
  }

  lemma ExamsAndExhaustedIsTirednessNoHello(t: string)
    requires t == "i have exams tomorrow and i'm so exhausted"
    ensures !Contains(t, GreetingWords[0]) && !Contains(t, GreetingWords[1]) && !Contains(t, GreetingWords[2])
  {
    AbsentPairs(t, GreetingWords[..3], [0, 0, 0]);
  }

  lemma ExamsAndExhaustedIsTirednessNoGood(t: string)
    requires t == "i have exams tomorrow and i'm so exhausted"
    ensures !Contains(t, GreetingWords[3]) && !Contains(t, GreetingWords[4]) && !Contains(t, GreetingWords[5])
  {
    AbsentPairs(t, GreetingWords[3..], [0, 0, 0]);
  }

  lemma ExamsAndExhaustedIsTirednessMisses1(t: string)
    requires t == "i have exams tomorrow and i'm so exhausted"
    ensures !Fires(t, LongRules[1])
  {
    ExamsAndExhaustedIsTirednessNoHow(t);
    ExamsAndExhaustedIsTirednessNoWhat(t);
  }

  lemma ExamsAndExhaustedIsTirednessNoHow(t: string)
    requires t == "i have exams tomorrow and i'm so exhausted"
    ensures !Contains(t, SmalltalkWords[0]) && !Contains(t, SmalltalkWords[3])
  {
    AbsentPair(t, SmalltalkWords[0], 0);
    AbsentPair(t, SmalltalkWords[3], 0);
  }

  lemma ExamsAndExhaustedIsTirednessNoWhat(t: string)
    requires t == "i have exams tomorrow and i'm so exhausted"
    ensures !Contains(t, SmalltalkWords[1]) && !Contains(t, SmalltalkWords[2])
  {
    AbsentPairs(t, SmalltalkWords[1..3], [0, 0]);
  }

  lemma ExamsAndExhaustedIsTirednessMisses2Part0(t: string)
    requires t == "i have exams tomorrow and i'm so exhausted"
    ensures !Contains(t, StressWords[0]) && !Contains(t, StressWords[1]) && !Contains(t, StressWords[2])
  {
    AbsentPairs(t, StressWords[..3], [1, 1, 0]);
  }

  lemma ExamsAndExhaustedIsTirednessMisses2Part1(t: string)
    requires t == "i have exams tomorrow and i'm so exhausted"
    ensures !Contains(t, StressWords[3]) && !Contains(t, StressWords[4]) && !Contains(t, StressWords[5])
  {
    AbsentPairs(t, StressWords[3..6], [0, 0, 0]);
  }

  lemma ExamsAndExhaustedIsTirednessMisses2Part2(t: string)
    requires t == "i have exams tomorrow and i'm so exhausted"
    ensures !Contains(t, StressWords[6])
  {
    AbsentPair(t, StressWords[6], 0);
  }

  lemma ExamsAndExhaustedIsTirednessMisses2(t: string)
    requires t == "i have exams tomorrow and i'm so exhausted"
    ensures !Fires(t, LongRules[2])
  {
    ExamsAndExhaustedIsTirednessMisses2Part0(t);
    ExamsAndExhaustedIsTirednessMisses2Part1(t);
    ExamsAndExhaustedIsTirednessMisses2Part2(t);
  }

  lemma ExamsAndExhaustedIsTirednessMisses3Part0(t: string)
    requires t == "i have exams tomorrow and i'm so exhausted"
    ensures !Contains(t, AnxietyWords[0]) && !Contains(t, AnxietyWords[1]) && !Contains(t, AnxietyWords[2])
  {
    AbsentPairs(t, AnxietyWords[..3], [1, 1, 0]);
  }

  lemma ExamsAndExhaustedIsTirednessMisses3Part1(t: string)
    requires t == "i have exams tomorrow and i'm so exhausted"
    ensures !Contains(t, AnxietyWords[3]) && !Contains(t, AnxietyWords[4]) && !Contains(t, AnxietyWords[5])
  {
    AbsentPairs(t, AnxietyWords[3..6], [0, 0, 0]);
  }

  lemma ExamsAndExhaustedIsTirednessMisses3Part2(t: string)
    requires t == "i have exams tomorrow and i'm so exhausted"
    ensures !Contains(t, AnxietyWords[6]) && !Contains(t, AnxietyWords[7])
  {
    AbsentPair(t, AnxietyWords[6], 1);
    AbsentPair(t, AnxietyWords[7], 0);
  }

  lemma ExamsAndExhaustedIsTirednessMisses3(t: string)
    requires t == "i have exams tomorrow and i'm so exhausted"
    ensures !Fires(t, LongRules[3])
  {
    ExamsAndExhaustedIsTirednessMisses3Part0(t);
    ExamsAndExhaustedIsTirednessMisses3Part1(t);
    ExamsAndExhaustedIsTirednessMisses3Part2(t);
  }

  lemma ExamsAndExhaustedIsTirednessMisses4Part0(t: string)
    requires t == "i have exams tomorrow and i'm so exhausted"
    ensures !Contains(t, SadnessWords[0]) && !Contains(t, SadnessWords[1]) && !Contains(t, SadnessWords[2])
  {
    AbsentPairs(t, SadnessWords[..3], [0, 0, 0]);
  }

  lemma ExamsAndExhaustedIsTirednessMisses4Part1(t: string)
    requires t == "i have exams tomorrow and i'm so exhausted"
    ensures !Contains(t, SadnessWords[3]) && !Contains(t, SadnessWords[4]) && !Contains(t, SadnessWords[5])
  {
    AbsentPairs(t, SadnessWords[3..6], [0, 0, 0]);
  }

  lemma ExamsAndExhaustedIsTirednessMisses4Part2(t: string)
    requires t == "i have exams tomorrow and i'm so exhausted"
    ensures !Contains(t, SadnessWords[6]) && !Contains(t, SadnessWords[7]) && !Contains(t, SadnessWords[8])
  {
    AbsentPairs(t, SadnessWords[6..], [0, 0, 0]);
  }

  lemma ExamsAndExhaustedIsTirednessMisses4(t: string)
    requires t == "i have exams tomorrow and i'm so exhausted"
    ensures !Fires(t, LongRules[4])
  {
    ExamsAndExhaustedIsTirednessMisses4Part0(t);
    ExamsAndExhaustedIsTirednessMisses4Part1(t);
    ExamsAndExhaustedIsTirednessMisses4Part2(t);
  }

  lemma ExamsAndExhaustedIsTirednessHits(t: string)
    requires t == "i have exams tomorrow and i'm so exhausted"
    ensures Fires(t, LongRules[5])
  {
    assert MatchesAt(t, "exhausted", 33);
    assert Contains(t, TirednessWords[1]);
  }

  lemma ExamsAndExhaustedIsTirednessClassified(t: string)
    requires t == "i have exams tomorrow and i'm so exhausted"
    ensures Classify(t) == Tiredness
  {
    ExamsAndExhaustedIsTirednessTokens(t);
    ExamsAndExhaustedIsTirednessMisses0(t);
    ExamsAndExhaustedIsTirednessMisses1(t);
    ExamsAndExhaustedIsTirednessMisses2(t);
    ExamsAndExhaustedIsTirednessMisses3(t);
    ExamsAndExhaustedIsTirednessMisses4(t);
    ExamsAndExhaustedIsTirednessHits(t);
    LongRuleDecides(t, 5);
  }
}
