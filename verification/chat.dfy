/** Chat history kept in session state (pages/10_Day10.py; the document chat
    of 22_Day22.py follows the same pattern). The history is append-only:
    a turn appends the user's record, then the assistant's record only when
    the call produced an answer; a clear action empties it. */
module Chat {
  import opened Wrappers

  datatype Role = User | Assistant

  datatype Message = Message(role: Role, content: string)

  type History = seq<Message>

  /** One exchange: the question is recorded before the call is made, the
      answer only when the call returned one. */
  function Exchange(h: History, prompt: string, answer: Result<string>): (h': History)
    ensures |h'| == |h| + (if answer.Ok? then 2 else 1)
    ensures h'[..|h|] == h
    ensures h'[|h|] == Message(User, prompt)
    ensures answer.Ok? ==> h'[|h| + 1] == Message(Assistant, answer.value)
  {
    var asked := h + [Message(User, prompt)];
    if answer.Ok? then asked + [Message(Assistant, answer.value)] else asked
  }

  /** Every assistant record answers the user record just before it. */
  predicate AnswersFollowQuestions(h: History)
  {
    forall i :: 0 <= i < |h| && h[i].role == Assistant ==> i > 0 && h[i - 1].role == User
  }

  /** Exchanges, successful or not, keep every answer right after its question. */
  lemma ExchangeKeepsAnswersAfterQuestions(h: History, prompt: string, answer: Result<string>)
    requires AnswersFollowQuestions(h)
    ensures AnswersFollowQuestions(Exchange(h, prompt, answer))
  {
    var h' := Exchange(h, prompt, answer);
    forall i | 0 <= i < |h'| && h'[i].role == Assistant
      ensures i > 0 && h'[i - 1].role == User
    {
      if i < |h| {
        assert h'[i] == h[i] && h'[i - 1] == h[i - 1];
      }
    }
  }

  /** The completion endpoint: prompt in, answer text or the error raised. */
  type Llm = string -> Result<string>

  /** What the page shows for a turn. */
  datatype TurnView = Replied(response: string) | TurnFailed(message: string)

  datatype TurnResult = TurnResult(history: History, view: TurnView)

  /** A chat turn of pages/10_Day10.py: the model is sent the latest prompt
      alone; a raised call is caught and shown, never propagated. */
  function Turn(h: History, prompt: string, llm: Llm): (r: TurnResult)
    ensures r.view.Replied? <==> llm(prompt).Ok?
    ensures r.view.Replied? ==> r.view.response == llm(prompt).value
    ensures r.view.TurnFailed? ==> r.view.message == "Error generating response: " + llm(prompt).error
    ensures r.history == Exchange(h, prompt, llm(prompt))
  {
    match llm(prompt)
    case Ok(response) => TurnResult(Exchange(h, prompt, Ok(response)), Replied(response))
    case Err(e) => TurnResult(Exchange(h, prompt, Err(e)), TurnFailed("Error generating response: " + e))
  }

  /** The records a turn adds do not depend on the earlier conversation: no
      history reaches the model. */
  lemma TurnIgnoresHistory(h1: History, h2: History, prompt: string, llm: Llm)
    ensures Turn(h1, prompt, llm).history[|h1|..] == Turn(h2, prompt, llm).history[|h2|..]
    ensures Turn(h1, prompt, llm).view == Turn(h2, prompt, llm).view
  {
    var a := Turn(h1, prompt, llm).history;
    var b := Turn(h2, prompt, llm).history;
    assert |a| - |h1| == |b| - |h2|;
    forall k | 0 <= k < |a| - |h1|
      ensures a[|h1|..][k] == b[|h2|..][k]
    {
    }
  }

  /** A run of turns, in order. */
  function RunTurns(h: History, prompts: seq<string>, llm: Llm): History
    decreases |prompts|
  {
    if prompts == [] then h else RunTurns(Turn(h, prompts[0], llm).history, prompts[1..], llm)
  }

  /** When every call answers, a run from any history that already
      alternates question, answer, ... with even length (the empty history
      among them) keeps strictly alternating. */
  lemma {:induction false} AnsweredRunAlternates(h: History, prompts: seq<string>, llm: Llm)
    requires forall i :: 0 <= i < |prompts| ==> llm(prompts[i]).Ok?
    requires |h| % 2 == 0
    requires forall j :: 0 <= j < |h| ==> h[j].role == (if j % 2 == 0 then User else Assistant)
    ensures var r := RunTurns(h, prompts, llm);
      |r| == |h| + 2 * |prompts|
      && forall j :: 0 <= j < |r| ==> r[j].role == (if j % 2 == 0 then User else Assistant)
    decreases |prompts|
  {
    if prompts != [] {
      var h' := Turn(h, prompts[0], llm).history;
      assert llm(prompts[0]).Ok?;
      forall j | 0 <= j < |h'|
        ensures h'[j].role == (if j % 2 == 0 then User else Assistant)
      {
        if j < |h| {
          assert h'[..|h|][j] == h[j];
        }
      }
      assert forall i :: 0 <= i < |prompts[1..]| ==> llm(prompts[1..][i]).Ok? by {
        forall i | 0 <= i < |prompts[1..]| ensures llm(prompts[1..][i]).Ok? {
          assert prompts[1..][i] == prompts[i + 1];
        }
      }
      AnsweredRunAlternates(h', prompts[1..], llm);
    }
  }

  /** Session-state initialisation: an absent history becomes `[]`, an
      existing one is kept. */
  function InitHistory(stored: Option<History>): (h: History)
    ensures stored.None? ==> h == []
    ensures stored.Some? ==> h == stored.value
  {
    stored.GetOr([])
  }

  /** The two conversations of the page: one on the default session, one on
      the custom session. */
  datatype Channel = DefaultChat | CustomChat

  datatype ChatPage = ChatPage(defaultMessages: History, customMessages: History)

  function MessagesOf(p: ChatPage, ch: Channel): History
  {
    match ch
    case DefaultChat => p.defaultMessages
    case CustomChat => p.customMessages
  }

  datatype ChatEvent = Submit(prompt: string) | ClearChat

  /** One interaction on one channel. */
  function Step(p: ChatPage, ch: Channel, e: ChatEvent, llm: Llm): (p': ChatPage)
    ensures forall other :: other != ch ==> MessagesOf(p', other) == MessagesOf(p, other)
    ensures e.ClearChat? ==> MessagesOf(p', ch) == []
    ensures e.Submit? ==> MessagesOf(p', ch) == Turn(MessagesOf(p, ch), e.prompt, llm).history
  {
    var h := match e
      case Submit(prompt) => Turn(MessagesOf(p, ch), prompt, llm).history
      case ClearChat => [];
    match ch
    case DefaultChat => p.(defaultMessages := h)
    case CustomChat => p.(customMessages := h)
  }

  /** The sidebar's Messages metric after a turn: one more record for a
      failed call, two for an answered one. */
  lemma MetricAfterTurn(p: ChatPage, ch: Channel, prompt: string, llm: Llm)
    ensures |MessagesOf(Step(p, ch, Submit(prompt), llm), ch)|
            == |MessagesOf(p, ch)| + (if llm(prompt).Ok? then 2 else 1)
  {
  }
}
