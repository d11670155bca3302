/** The crisis detector of backend/nlp/crisis_detection.py: a case-insensitive
    substring test against a fixed list of self-harm phrases.  It is separate
    from the `crisis` intent of the classifier and uses a different list. */
module CrisisDetection {
  import opened Text

  const CrisisKeywords: seq<string> :=
    ["suicide", "kill myself", "end my life", "self-harm", "hurt myself", "no reason to live", "die"]

  /** `is_crisis`: some keyword occurs in the lower-cased message.  The
      shortest keyword has three characters, so a flagged message has at
      least three. */
  predicate IsCrisis(text: string)
    ensures IsCrisis(text) ==> |text| >= 3
  {
    ContainsAny(Lower(text), CrisisKeywords)
  }

  /** The verdict ignores letter case: messages that agree after lower-casing
      get the same verdict. */
  lemma CaseInsensitive(a: string, b: string)
    requires Lower(a) == Lower(b)
    ensures IsCrisis(a) == IsCrisis(b)
  {
  }

  /** Once flagged, a message stays flagged whatever is written around it. */
  lemma {:induction false} FlagSurvivesContext(p: string, text: string, q: string)
    requires IsCrisis(text)
    ensures IsCrisis(p + text + q)
  {
    LowerConcat(p + text, q);
    LowerConcat(p, text);
    ContainsAnyWithin(Lower(p), Lower(text), Lower(q), CrisisKeywords);
  }

  /** The empty message and any message shorter than the shortest keyword are
      never flagged. */
  lemma ShortNeverFlagged(text: string)
    requires |text| < 3
    ensures !IsCrisis(text)
  {
  }

  /** "die" is matched as a substring, so ordinary words that contain it
      ("studied", "diet") are flagged. */
  lemma DieInsideWords()
    ensures IsCrisis("studied")
    ensures IsCrisis("diet")
  {
    StudiedFlagged("studied");
    DietFlagged("diet");
  }

  lemma StudiedFlagged(t: string)
    requires t == "studied"
    ensures IsCrisis(t)
  {
    LowerOfNoUpper(t);
    assert MatchesAt(t, "die", 3);
    assert Contains(t, CrisisKeywords[6]);
  }

  lemma DietFlagged(t: string)
    requires t == "diet"
    ensures IsCrisis(t)
  {
    LowerOfNoUpper(t);
    assert MatchesAt(t, "die", 0);
    assert Contains(t, CrisisKeywords[6]);
  }

  /** A capitalised self-harm statement is flagged through its lower-cased form. */
  lemma KillMyselfFlagged(t: string)
    requires t == "I want to kill myself"
    ensures IsCrisis(t)
  {
    var l := "i want to kill myself";
    assert Lower(t) == l;
    assert MatchesAt(l, "kill myself", 10);
    assert Contains(l, CrisisKeywords[1]);
  }

  /** Two phrasings the classifier's crisis list knows are not on the
      detector's list: "self harm" without the hyphen and "i dont want to
      live" are not flagged. */
  lemma DetectorMissesCascadePhrases()
    ensures !IsCrisis("self harm")
    ensures !IsCrisis("i dont want to live")
  {
    SelfHarmMissed("self harm");
    DontWantToLiveMissed("i dont want to live");
  }

  lemma SelfHarmMissed(t: string)
    requires t == "self harm"
    ensures !IsCrisis(t)
  {
    LowerOfNoUpper(t);
    AbsentPairs(t, CrisisKeywords, [0, 0, 0, 4, 0, 0, 0]);
  }

  lemma DontWantToLiveMissed(t: string)
    requires t == "i dont want to live"
    ensures !IsCrisis(t)
  {
    LowerOfNoUpper(t);
    AbsentPairs(t, CrisisKeywords, [0, 0, 1, 0, 0, 0, 0]);
  }
}
