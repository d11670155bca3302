/** What the order of the intent cascade means: which list wins when
    several match, what normalisation the result depends on, and when the
    default `unknown` is returned. */
module IntentProperties {
  import opened Wrappers
  import opened Text
  import opened Intents

  /** The short-form branch decides the intent of normalised text `t`. */
  predicate ShortDecides(t: string)
  {
    TokenCount(t) <= 3 && FirstRule(ShortRules, t).Some?
  }

  /** Rule `k` of the short-form table decides a short reply when it is the
      first one that fires. */
  lemma ShortRuleDecides(t: string, k: nat)
    requires |t| > 0 && TokenCount(t) <= 3
    requires k < |ShortRules| && Fires(t, ShortRules[k])
    requires forall j :: 0 <= j < k ==> !Fires(t, ShortRules[j])
    ensures Classify(t) == ShortRules[k].intent
  {
    FirstRuleAt(ShortRules, t, k);
  }

  /** Rule `k` of the long-form table decides any utterance the short-form
      branch leaves open when it is the first one that fires. */
  lemma LongRuleDecides(t: string, k: nat)
    requires |t| > 0 && !ShortDecides(t)
    requires k < |LongRules| && Fires(t, LongRules[k])
    requires forall j :: 0 <= j < k ==> !Fires(t, LongRules[j])
    ensures Classify(t) == LongRules[k].intent
  {
    FirstRuleAt(LongRules, t, k);
  }

  /** The intent depends only on the lower-cased, stripped text: changing the
      case of letters or adding whitespace around the text changes nothing. */
  lemma NormalisationInvariant(text: string, ws1: string, ws2: string)
    requires AllSpace(ws1) && AllSpace(ws2)
    ensures DetectIntent(Lower(text)) == DetectIntent(text)
    ensures DetectIntent(ws1 + text + ws2) == DetectIntent(text)
  {
    LowerIdempotent(text);
    LowerConcat(ws1 + text, ws2);
    LowerConcat(ws1, text);
    LowerKeepsSpaces(ws1);
    LowerKeepsSpaces(ws2);
    StripSurrounding(ws1, Lower(text), ws2);
  }

  /** In a reply of at most three tokens an affirmation phrase beats every
      other category. */
  lemma ShortAffirmationFirst(t: string)
    requires |t| > 0 && TokenCount(t) <= 3
    requires ContainsAny(t, AffirmationShort)
    ensures Classify(t) == Affirmation
  {
    ShortRuleDecides(t, 0);
  }

  /** In a short reply without an affirmation phrase, any occurrence of "no"
      (inside "know", "not", "nothing", ...) gives `negation` before the
      uncertainty phrases are looked at. */
  lemma ShortNoMeansNegation(t: string)
    requires |t| > 0 && TokenCount(t) <= 3
    requires !ContainsAny(t, AffirmationShort)
    requires Contains(t, "no")
    ensures Classify(t) == Negation
  {
    assert Contains(t, NegationShort[0]);
    ShortRuleDecides(t, 1);
  }

  /** Three of the six uncertainty phrases can never produce `uncertainty` in
      a short reply, because each contains "no". */
  lemma ShortUncertaintyShadowed(t: string)
    requires |t| > 0 && TokenCount(t) <= 3
    requires ContainsAny(t, ["i dont know", "i don't know", "not sure"])
    ensures Classify(t) == Affirmation || Classify(t) == Negation
  {
    var ps := ["i dont know", "i don't know", "not sure"];
    var j :| 0 <= j < 3 && Contains(t, ps[j]);
    if j == 0 {
      assert MatchesAt(ps[j], "no", 8);
    } else if j == 1 {
      assert MatchesAt(ps[j], "no", 9);
    } else {
      assert MatchesAt(ps[j], "no", 0);
    }
    ContainsTransitive(t, ps[j], "no");
    if ContainsAny(t, AffirmationShort) {
      ShortAffirmationFirst(t);
    } else {
      ShortNoMeansNegation(t);
    }
  }

  /** The greeting test comes before every emotional category. */
  lemma GreetingFirst(t: string)
    requires |t| > 0 && !ShortDecides(t)
    requires ContainsAny(t, GreetingWords)
    ensures Classify(t) == Greeting
  {
    LongRuleDecides(t, 0);
  }

  /** Stress comes before exams: an utterance naming both is `stress`. */
  lemma StressBeforeExams(t: string)
    requires |t| > 0 && !ShortDecides(t)
    requires !ContainsAny(t, GreetingWords) && !ContainsAny(t, SmalltalkWords)
    requires ContainsAny(t, StressWords)
    ensures Classify(t) == Stress && Classify(t) != Exams
  {
    LongRuleDecides(t, 2);
  }

  /** `crisis` is returned exactly when the crisis list fires and none of the
      thirteen lists before it does. */
  lemma CrisisIntentExactly(t: string)
    ensures Classify(t) == Crisis <==>
              && |t| > 0 && !ShortDecides(t)
              && (forall j :: 0 <= j < 13 ==> !Fires(t, LongRules[j]))
              && Fires(t, CrisisRule)
  {
    assert LongRules[13] == CrisisRule;
    if |t| > 0 && !ShortDecides(t) && (forall j :: 0 <= j < 13 ==> !Fires(t, LongRules[j])) && Fires(t, CrisisRule) {
      LongRuleDecides(t, 13);
    }
    if Classify(t) == Crisis {
      ShortRulesNeverCrisis(t);
      LongRuleIntentAt(t);
    }
  }

  const CrisisRule: Rule := Rule(CrisisWords, Crisis)

  /** The short-form table has no `crisis` rule. */
  lemma ShortRulesNeverCrisis(t: string)
    ensures FirstRule(ShortRules, t) != Some(Crisis)
  {
  }

  /** The only long-form rule with intent `crisis` is the fourteenth. */
  lemma LongRuleIntentAt(t: string)
    requires FirstRule(LongRules, t) == Some(Crisis)
    ensures forall j :: 0 <= j < 13 ==> !Fires(t, LongRules[j])
    ensures Fires(t, LongRules[13])
  {
    var k :| 0 <= k < |LongRules| && Fires(t, LongRules[k]) && Crisis == LongRules[k].intent
             && forall j :: 0 <= j < k ==> !Fires(t, LongRules[j]);
    OnlyCrisisRule(k);
  }

  lemma OnlyCrisisRule(k: nat)
    requires k < |LongRules| && LongRules[k].intent == Crisis
    ensures k == 13
  {
  }

  /** An utterance of more than three tokens is `unknown` exactly when no
      list of the cascade occurs in it. */
  lemma UnknownExactlyWhenNothingFires(t: string)
    requires |t| > 0 && TokenCount(t) > 3
    ensures Classify(t) == Unknown <==> forall j :: 0 <= j < |LongRules| ==> !Fires(t, LongRules[j])
  {
    NoRuleSaysUnknown();
    var r := FirstRule(LongRules, t);
    if r.Some? {
      var k :| 0 <= k < |LongRules| && Fires(t, LongRules[k]) && r.value == LongRules[k].intent;
      assert r.value != Unknown;
    }
  }

  /** `unknown` is only ever the default, never the intent of a rule. */
  lemma NoRuleSaysUnknown()
    ensures forall j :: 0 <= j < |LongRules| ==> LongRules[j].intent != Unknown
  {
  }
}
