/** `get_smart_fallback` of backend/main.py: the canned reply used when
    Gemini is unavailable, fails, or returns a generic reply.  Five keyword
    groups are tried in order, each triggered by its intent label or by one
    of its words in the lower-cased message; then a fixed greeting for the
    `greeting` label; otherwise a reply that quotes the message back.  The
    choice among a group's three replies (`random.choice`) is an explicit
    index `pick`. */
module SmartFallbacks {
  import opened Wrappers
  import opened Text
  import opened Replies

  /** One `if intent == X or any(w in msg_lower for w in words)` block. */
  datatype Group = Group(intent: string, words: seq<string>)

  const Groups: seq<Group> := [
    Group("exams", ["exam", "test", "study"]),
    Group("tiredness", ["tired", "exhausted", "sleepy", "no energy"]),
    Group("anxiety", ["anxious", "worried", "nervous", "panic"]),
    Group("sadness", ["sad", "depressed", "hopeless", "lonely"]),
    Group("stress", ["stressed", "pressure", "overwhelmed"])]

  predicate Triggers(g: Group, intent: string, msgLower: string)
  {
    intent == g.intent || ContainsAny(msgLower, g.words)
  }

  /** `r` is a reply of fallback group `k`. */
  predicate FallbackFrom(r: Reply, k: nat)
  {
    r.Fallback? && r.group == k
  }

  /** The first group, in source order, that the label or the lower-cased
      message triggers. */
  function TriggeredGroup(msg: string, intent: string): (r: Option<nat>)
    ensures r.Some? ==> r.value < |Groups| && Triggers(Groups[r.value], intent, Lower(msg))
    ensures r.Some? ==> forall j :: 0 <= j < r.value ==> !Triggers(Groups[j], intent, Lower(msg))
    ensures r.None? <==> forall j :: 0 <= j < |Groups| ==> !Triggers(Groups[j], intent, Lower(msg))
  {
    FirstWhere(Groups, g => Triggers(g, intent, Lower(msg)))
  }

  /** `get_smart_fallback`: a reply of the first triggered group; failing
      that, the greeting for the `greeting` label and the quoting reply for
      any other. */
  function SmartFallback(msg: string, intent: string, pick: nat): (r: Reply)
    ensures WellFormed(r)
    ensures TriggeredGroup(msg, intent).Some? ==> r.Fallback? && r.group == TriggeredGroup(msg, intent).value
    ensures TriggeredGroup(msg, intent).None? ==> r == (if intent == "greeting" then GreetingFallback else Echo(msg))
  {
    match TriggeredGroup(msg, intent)
    case Some(k) => Fallback(k, pick % RepliesPerGroup)
    case None => if intent == "greeting" then GreetingFallback else Echo(msg)
  }

  /** Group `k` answers when it is triggered and no earlier group is. */
  lemma GroupDecides(msg: string, intent: string, pick: nat, k: nat)
    requires k < |Groups| && Triggers(Groups[k], intent, Lower(msg))
    requires forall j :: 0 <= j < k ==> !Triggers(Groups[j], intent, Lower(msg))
    ensures FallbackFrom(SmartFallback(msg, intent, pick), k)
  {
    FirstWhereUnique(Groups, g => Triggers(g, intent, Lower(msg)), k);
  }

  /** Every reply of the chosen group is reachable by some choice. */
  lemma FallbackReaches(msg: string, intent: string, n: nat)
    requires TriggeredGroup(msg, intent).Some? && n < RepliesPerGroup
    ensures SmartFallback(msg, intent, n) == Fallback(TriggeredGroup(msg, intent).value, n)
  {
    assert n % RepliesPerGroup == n;
  }

  /** The `exams` label always gets an exam reply, whatever the message says. */
  lemma ExamsLabelGetsExamReply(msg: string, pick: nat)
    ensures FallbackFrom(SmartFallback(msg, "exams", pick), 0)
  {
    GroupDecides(msg, "exams", pick, 0);
  }

  /** An exam word in the message gets an exam reply, whatever the label;
      the words are matched as substrings ("test" inside "latest"). */
  lemma ExamWordWins(msg: string, intent: string, pick: nat)
    requires ContainsAny(Lower(msg), ["exam", "test", "study"])
    ensures FallbackFrom(SmartFallback(msg, intent, pick), 0)
  {
    GroupDecides(msg, intent, pick, 0);
  }

  /** A group's own label gets that group's reply unless an earlier group
      is triggered first. */
  lemma LabelGetsItsGroup(msg: string, k: nat, pick: nat)
    requires k < |Groups|
    requires forall j :: 0 <= j < k ==> Groups[j].intent != Groups[k].intent && !ContainsAny(Lower(msg), Groups[j].words)
    ensures FallbackFrom(SmartFallback(msg, Groups[k].intent, pick), k)
  {
    GroupDecides(msg, Groups[k].intent, pick, k);
  }

  /** The `greeting` label gets the greeting reply whenever no group word
      occurs in the message. */
  lemma GreetingNeedsQuietMessage(msg: string, pick: nat)
    requires forall j :: 0 <= j < |Groups| ==> !ContainsAny(Lower(msg), Groups[j].words)
    ensures SmartFallback(msg, "greeting", pick) == GreetingFallback
  {
  }

}
