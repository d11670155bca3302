/** `choose_response` of backend/main.py: the template picker of the
    template path and of the OpenAI fallback.  Python's `random.choice` is
    modelled by an explicit index `pick`: the reply is template number
    `pick % count` of the entry, so every template can be reached and
    nothing outside the entry can. */
module Responses {
  import opened Wrappers
  import opened Intents
  import opened Replies

  /** The entry `RESPONSES.get(key, RESPONSES["unknown"])` reads: the key's
      own entry when the bank has one, the `unknown` entry for any other
      string. */
  function BankEntry(key: string): (k: Intent)
    ensures HasTemplates(k)
    ensures k == Unknown || Name(k) == key
  {
    match Parse(key)
    case Some(i) => if HasTemplates(i) then i else Unknown
    case None => Unknown
  }

  /** `choose_response`: the crisis script when the crisis flag is set,
      otherwise one of the templates of the key's entry. */
  function ChooseResponse(key: string, crisisFlag: bool, pick: nat): (r: Reply)
    ensures WellFormed(r) && r.Template?
    ensures crisisFlag ==> r == CrisisScript
    ensures !crisisFlag ==> r.intent == BankEntry(key)
  {
    if crisisFlag then CrisisScript
    else
      var k := BankEntry(key);
      Template(k, pick % TemplateCount(k))
  }

  /** Every template of the entry is the answer for some choice: the index
      model loses none of the replies `random.choice` can make. */
  lemma ChooseResponseReaches(key: string, n: nat)
    requires n < TemplateCount(BankEntry(key))
    ensures ChooseResponse(key, false, n) == Template(BankEntry(key), n)
  {
  }

  /** A classifier intent's label reads its own entry when the bank has one
      and the `unknown` entry otherwise; ten of the twenty intents have
      their own entry. */
  lemma EntryOfIntent(i: Intent)
    ensures BankEntry(Name(i)) == (if HasTemplates(i) then i else Unknown)
    ensures HasTemplates(i) <==>
              i in {Greeting, Smalltalk, Stress, Anxiety, Sadness, Motivation, Goodbye, Gratitude, Unknown, Crisis}
  {
    NameRoundTrip(i);
  }

  /** A key outside the twenty intent labels reads the `unknown` entry. */
  lemma ForeignKeyReadsUnknown(key: string)
    requires forall i :: Name(i) != key
    ensures BankEntry(key) == Unknown
  {
  }

  /** Without the crisis flag the picker gives the crisis script exactly for
      the key "crisis": that entry holds the script and nothing else. */
  lemma ScriptWithoutFlag(key: string, pick: nat)
    ensures ChooseResponse(key, false, pick) == CrisisScript <==> key == Name(Crisis)
  {
    EntryOfIntent(Crisis);
    var r := ChooseResponse(key, false, pick);
    if r == CrisisScript {
      assert BankEntry(key) == Crisis;
    }
  }
}
