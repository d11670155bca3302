/** The conversation history a chat request carries, and the two views of it
    the reply generators of backend/main.py build: the OpenAI message list
    of the last eight turns and the Gemini transcript of the last six. */
module ChatHistory {
  import opened Wrappers

  /** One history entry.  `intent` is the label the endpoint looks for on
      the last bot turn; the request model of backend/main.py declares only
      `sender` and `text`, so a turn that arrives in a request has none. */
  datatype Turn = Turn(sender: string, text: string, intent: Option<string>)

  /** A turn as the request model parses it. */
  function FromRequest(sender: string, text: string): (t: Turn)
    ensures t.intent.None?
  {
    Turn(sender, text, None)
  }

  /** Python's `h[-n:]` for a positive `n`: the last `n` entries, or all of
      them when there are fewer.  (`h[-0:]` would be the whole list; the
      source only takes windows of eight and six.) */
  function Window<T>(h: seq<T>, n: nat): (w: seq<T>)
    requires n > 0
    ensures |w| <= n && |w| <= |h|
    ensures |w| == n || w == h
    ensures w == h[|h| - |w|..]
  {
    if |h| <= n then h else h[|h| - n..]
  }

  /** Turns the OpenAI request keeps. */
  const OpenAIWindow: nat := 8

  /** Turns the Gemini transcript keeps. */
  const GeminiWindow: nat := 6

  /** One entry of the OpenAI message list. */
  datatype ChatMessage = ChatMessage(role: string, content: string)

  /** The two names a prompt gives the speakers: one for the user's turns,
      one for every other sender. */
  datatype Speakers = Speakers(user: string, other: string)

  /** `user` and `assistant` in the OpenAI message list. */
  const OpenAISpeakers := Speakers("user", "assistant")

  /** `User` and `NeuroCare` in the Gemini transcript. */
  const GeminiSpeakers := Speakers("User", "NeuroCare")

  /** The name a turn's speaker gets: the user's name exactly for turns the
      user sent, whatever the other senders are called. */
  function SpeakerOf(t: Turn, names: Speakers): (who: string)
    ensures who == names.user || who == names.other
    ensures names.user != names.other ==> (who == names.user <==> t.sender == "user")
  {
    if t.sender == "user" then names.user else names.other
  }

  /** The history part of the OpenAI message list, oldest first. */
  function OpenAIHistory(h: seq<Turn>): (m: seq<ChatMessage>)
    ensures |m| == |Window(h, OpenAIWindow)|
    ensures forall i :: 0 <= i < |m| ==>
              m[i] == ChatMessage(SpeakerOf(h[|h| - |m| + i], OpenAISpeakers), h[|h| - |m| + i].text)
  {
    var w := Window(h, OpenAIWindow);
    seq(|w|, i requires 0 <= i < |w| => ChatMessage(SpeakerOf(w[i], OpenAISpeakers), w[i].text))
  }

  /** `f"{role}: {text}\n"`. */
  function Line(t: Turn): string
  {
    SpeakerOf(t, GeminiSpeakers) + ": " + t.text + "\n"
  }

  /** The lines of `ts`, oldest first. */
  function Lines(ts: seq<Turn>): string
  {
    if |ts| == 0 then "" else Line(ts[0]) + Lines(ts[1..])
  }

  /** The `history_text` of the Gemini prompt: the lines of the whole history
      while it fits the window, of its last six turns once it does not. */
  function GeminiTranscript(h: seq<Turn>): (g: string)
    ensures |h| <= GeminiWindow ==> g == Lines(h)
    ensures |h| > GeminiWindow ==> g == Lines(h[|h| - GeminiWindow..])
  {
    Lines(Window(h, GeminiWindow))
  }

  /** Both prompts tell the user's turns from the bot's the same way: a turn
      is `user` to OpenAI exactly when it is `User` to Gemini. */
  lemma SpeakersAgree(t: Turn)
    ensures SpeakerOf(t, OpenAISpeakers) == "user" <==> SpeakerOf(t, GeminiSpeakers) == "User"
    ensures SpeakerOf(t, OpenAISpeakers) == "assistant" <==> SpeakerOf(t, GeminiSpeakers) == "NeuroCare"
  {
  }

  /** Lines of consecutive stretches of history are written one after the
      other. */
  lemma {:induction false} LinesAppend(a: seq<Turn>, b: seq<Turn>)
    ensures Lines(a + b) == Lines(a) + Lines(b)
    decreases |a|
  {
    if |a| == 0 {
      assert a + b == b;
    } else {
      assert (a + b)[1..] == a[1..] + b;
      LinesAppend(a[1..], b);
    }
  }

  /** While the history is shorter than the window, a new turn adds its line
      at the end of the transcript and changes nothing before it. */
  lemma TranscriptGrows(h: seq<Turn>, t: Turn)
    requires |h| < GeminiWindow
    ensures GeminiTranscript(h + [t]) == GeminiTranscript(h) + Line(t)
  {
    assert Window(h + [t], GeminiWindow) == h + [t];
    assert Window(h, GeminiWindow) == h;
    LinesAppend(h, [t]);
    assert Lines([t]) == Line(t) + Lines([]);
  }

  /** Once the window is full, a new turn pushes out the oldest line. */
  lemma TranscriptSlides(h: seq<Turn>, t: Turn)
    requires |h| >= GeminiWindow
    ensures GeminiTranscript(h + [t]) == Lines(Window(h, GeminiWindow - 1)) + Line(t)
  {
    var w := Window(h, GeminiWindow - 1);
    assert Window(h + [t], GeminiWindow) == w + [t];
    LinesAppend(w, [t]);
    assert Lines([t]) == Line(t) + Lines([]);
  }

  /** The last turn the bot sent, searching from the end. */
  function LastBotTurn(h: seq<Turn>): (r: Option<Turn>)
    ensures r.Some? ==> exists k :: 0 <= k < |h| && h[k] == r.value && h[k].sender == "bot" &&
                                    forall j :: k < j < |h| ==> h[j].sender != "bot"
    ensures r.None? <==> forall j :: 0 <= j < |h| ==> h[j].sender != "bot"
  {
    if |h| == 0 then None
    else if h[|h| - 1].sender == "bot" then Some(h[|h| - 1])
    else
      var r := LastBotTurn(h[..|h| - 1]);
      assert forall j :: 0 <= j < |h| - 1 ==> h[..|h| - 1][j] == h[j];
      r
  }

  /** A history of parsed request turns carries no intent on any turn, so the
      last bot turn has none either. */
  lemma RequestTurnsCarryNoIntent(h: seq<Turn>)
    requires forall j :: 0 <= j < |h| ==> h[j] == FromRequest(h[j].sender, h[j].text)
    ensures LastBotTurn(h).None? || LastBotTurn(h).value.intent.None?
  {
  }
}
