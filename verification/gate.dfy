/** `is_generic_reply` of backend/main.py: the filter that rejects a
    language-model reply as generic when it contains one of fifteen stock
    phrases (compared in lower case) or is shorter than eighty characters. */
module GenericGate {
  import opened Text

  const GenericPhrases: seq<string> := [
    "help me understand",
    "tell me more about",
    "what's really on your mind",
    "i'm genuinely interested",
    "i'm here to listen",
    "i'd love to understand better",
    "share a bit more",
    "how it's affecting you",
    "that sounds important",
    "can you tell me more",
    "what's going on",
    "i'm here for you",
    "would you like to talk about",
    "i hear you",
    "that must be"]

  /** Replies shorter than this are generic whatever they say. */
  const MinSpecificLength: nat := 80

  /** The number of phrases of `phrases` that occur in `t` (the `matches`
      sum of the source): at most one per phrase, and at least one exactly
      when some phrase occurs. */
  function MatchCount(t: string, phrases: seq<string>): (n: nat)
    ensures n <= |phrases|
    ensures n >= 1 <==> ContainsAny(t, phrases)
    decreases |phrases|
  {
    if |phrases| == 0 then 0
    else
      var rest := MatchCount(t, phrases[1..]);
      assert ContainsAny(t, phrases[1..]) ==> ContainsAny(t, phrases) by {
        if ContainsAny(t, phrases[1..]) {
          var j :| 0 <= j < |phrases[1..]| && Contains(t, phrases[1..][j]);
          assert Contains(t, phrases[j + 1]);
        }
      }
      assert ContainsAny(t, phrases) && !Contains(t, phrases[0]) ==> ContainsAny(t, phrases[1..]) by {
        if ContainsAny(t, phrases) && !Contains(t, phrases[0]) {
          var j :| 0 <= j < |phrases| && Contains(t, phrases[j]);
          assert j > 0 && Contains(t, phrases[1..][j - 1]);
        }
      }
      (if Contains(t, phrases[0]) then 1 else 0) + rest
  }

  /** `is_generic_reply`: one stock phrase or a short reply suffices
      (`PassesExactly` states the verdict without the count). */
  predicate IsGenericReply(text: string)
  {
    MatchCount(Lower(text), GenericPhrases) >= 1 || |Lower(text)| < MinSpecificLength
  }

  /** A reply passes exactly when it is at least eighty characters long and
      none of the stock phrases occurs in it, ignoring case. */
  lemma PassesExactly(text: string)
    ensures !IsGenericReply(text) <==> |text| >= 80 && !ContainsAny(Lower(text), GenericPhrases)
  {
  }

  /** One stock phrase is enough, whatever the length. */
  lemma StockPhraseIsGeneric(text: string)
    requires ContainsAny(Lower(text), GenericPhrases)
    ensures IsGenericReply(text)
  {
  }

  /** The verdict ignores letter case. */
  lemma GateIgnoresCase(a: string, b: string)
    requires Lower(a) == Lower(b)
    ensures IsGenericReply(a) == IsGenericReply(b)
  {
  }

  /** A stock phrase anywhere in a reply makes it generic, however long it is. */
  lemma {:induction false} PhraseAnywhereIsGeneric(p: string, text: string, q: string)
    requires ContainsAny(Lower(text), GenericPhrases)
    ensures IsGenericReply(p + text + q)
  {
    LowerConcat(p + text, q);
    LowerConcat(p, text);
    ContainsAnyWithin(Lower(p), Lower(text), Lower(q), GenericPhrases);
  }

  /** The reply the Gemini prompt shows as what not to write is rejected for
      its stock phrase, although it is longer than eighty characters. */
  lemma PromptBadExampleRejected(t: string)
    requires t == "That sounds important" + " to you. I'd love to understand better\U{2014}can you share a bit more?"
    ensures |t| >= MinSpecificLength && ContainsAny(Lower(t), GenericPhrases)
    ensures IsGenericReply(t)
  {
    BadExampleLength(t);
    BadExamplePhrase(t);
  }

  lemma BadExampleLength(t: string)
    requires t == "That sounds important" + " to you. I'd love to understand better\U{2014}can you share a bit more?"
    ensures |t| >= MinSpecificLength
  {
  }

  lemma BadExamplePhrase(t: string)
    requires t == "That sounds important" + " to you. I'd love to understand better\U{2014}can you share a bit more?"
    ensures ContainsAny(Lower(t), GenericPhrases)
  {
    var head := "That sounds important";
    var rest := " to you. I'd love to understand better\U{2014}can you share a bit more?";
    LowerConcat(head, rest);
    assert Lower(head) == GenericPhrases[8];
    ContainsWhole(Lower(head));
    ContainsWithin([], Lower(head), Lower(rest), GenericPhrases[8]);
    assert [] + Lower(head) + Lower(rest) == Lower(t);
  }
}
