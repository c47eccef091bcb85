/** The stream of one completion: fragments while the provider talks, then one closing item. */
module CompletionStream {
  import opened Prelude
  import opened Chats

  datatype Chunk =
    | Text(text: string)
    | Reasoning(text: string)
    | ReasoningDelta(text: string)
    | ToolCallChunk
    | ToolCallDelta
    | UsageMarker

  /** What the provider client has put together when its stream ends. */
  datatype Content = TextPart(text: string) | CallPart(name: string, arguments: Json) | OtherPart

  type Delta = p: BusPayload | p.TextDelta? || p.ThinkingDelta? witness TextDelta("")

  datatype StreamItem =
    | Fragment(payload: Delta)
    | Final(response: Response)
    | Failure(error: string)

  type Inner = seq<Result<Chunk, string>>

  function ChunkToEvent(chunk: Chunk): Option<Delta> {
    match chunk
    case Text(text) => Some(TextDelta(text))
    case Reasoning(text) => Some(ThinkingDelta(text))
    case ReasoningDelta(text) => Some(ThinkingDelta(text))
    case _ => None
  }

  function Texts(choice: seq<Content>): seq<string> {
    if choice == [] then []
    else (if choice[0].TextPart? then [choice[0].text] else []) + Texts(choice[1..])
  }

  function Calls(choice: seq<Content>): seq<Call> {
    if choice == [] then []
    else (if choice[0].CallPart? then [Call(choice[0].name, Some(choice[0].arguments))] else []) + Calls(choice[1..])
  }

  function AssembleFinal(choice: seq<Content>, cost: Cost): Response {
    var calls := Calls(choice);
    Response(TextMessage(Agent, Join(Texts(choice), "\n")), calls, if calls == [] then Stop else ToolCalls, Some(cost))
  }

  /** A turn goes on exactly when there is a tool to call. */
  predicate FinishRule(r: Response) {
    r.finishReason == Stop <==> r.toolCalls == []
  }

  /** What is still to come out of the driver. */
  function Items(inner: Inner, final: Response): seq<StreamItem> {
    if inner == [] then [Final(final)]
    else match inner[0]
      case Err(error) => [Failure(error)]
      case Ok(chunk) => Fragments(ChunkToEvent(chunk)) + Items(inner[1..], final)
  }

  function Fragments(event: Option<Delta>): seq<StreamItem> {
    if event.Some? then [Fragment(event.value)] else []
  }

  class StreamDriver {
    var inner: Inner
    var done: bool
    const choice: seq<Content>
    const cost: Cost

    function Pending(): seq<StreamItem>
      reads this
    {
      if done then [] else Items(inner, AssembleFinal(choice, cost))
    }

    constructor (inner: Inner, choice: seq<Content>, cost: Cost)
      ensures Pending() == Items(inner, AssembleFinal(choice, cost))
    {
      this.inner, this.done, this.choice, this.cost := inner, false, choice, cost;
    }

    /** Hands out the next pending item, passing over silent chunks. */
    method Poll() returns (item: Option<StreamItem>)
      modifies this
      ensures old(Pending()) == if item.Some? then [item.value] + Pending() else []
      ensures item == None ==> Pending() == []
    {
      if done {
        return None;
      }
      while inner != []
        invariant !done && Pending() == old(Pending())
        decreases |inner|
      {
        var next := inner[0];
        inner := inner[1..];
        match next
        case Ok(chunk) =>
          var event := ChunkToEvent(chunk);
          if event.Some? {
            return Some(Fragment(event.value));
          }
          assert [] + Pending() == Pending();
        case Err(error) =>
          done := true;
          return Some(Failure(error));
      }
      done := true;
      return Some(Final(AssembleFinal(choice, cost)));
    }
  }

  // --- How a completion is read off its stream

  const NO_FINAL := "completion stream ended without emitting a final response"

  function ErrorResponse(text: string): Response {
    Response(TextMessage(Agent, text), [], Stop, None)
  }

  /** The fragments passed on: those before the first failure. */
  function Shown(stream: seq<StreamItem>): seq<Delta> {
    if stream == [] || stream[0].Failure? then []
    else (if stream[0].Fragment? then [stream[0].payload] else []) + Shown(stream[1..])
  }

  /** The response: a failure wins over any final item, a later final item over an earlier. */
  function Answer(stream: seq<StreamItem>, last: Option<Response>): Response {
    if stream == [] then (if last.Some? then last.value else ErrorResponse(NO_FINAL))
    else match stream[0]
      case Failure(error) => ErrorResponse(error)
      case Final(response) => Answer(stream[1..], Some(response))
      case Fragment(_) => Answer(stream[1..], last)
  }

  /** What the provider said before breaking off, if it broke off. */
  function Visible(inner: Inner): seq<Delta> {
    if inner == [] || inner[0].Err? then []
    else (var event := ChunkToEvent(inner[0].value); if event.Some? then [event.value] else []) + Visible(inner[1..])
  }

  function FirstError(inner: Inner): Option<string> {
    if inner == [] then None else if inner[0].Err? then Some(inner[0].error) else FirstError(inner[1..])
  }

  /** The driver gives the visible fragments and then exactly one closing item. */
  lemma {:induction false} OneClosingItem(inner: Inner, final: Response)
    ensures var items, n := Items(inner, final), |Visible(inner)|;
      |items| == n + 1
      && (forall i | 0 <= i < n :: items[i] == Fragment(Visible(inner)[i]))
      && items[n] == (if FirstError(inner).Some? then Failure(FirstError(inner).value) else Final(final))
  {
    if inner != [] && inner[0].Ok? {
      OneClosingItem(inner[1..], final);
    }
  }

  /** Read off a driver, every visible fragment is shown, the response is the assembled one
      unless the provider broke off, and either way it keeps to the finish rule. */
  lemma {:induction false} CompletionOfDriver(inner: Inner, choice: seq<Content>, cost: Cost)
    ensures var items, final := Items(inner, AssembleFinal(choice, cost)), AssembleFinal(choice, cost);
      Shown(items) == Visible(inner)
      && Answer(items, None) == (if FirstError(inner).Some? then ErrorResponse(FirstError(inner).value) else final)
      && FinishRule(Answer(items, None)) && Answer(items, None).message.role == Agent
  {
    if inner != [] && inner[0].Ok? {
      CompletionOfDriver(inner[1..], choice, cost);
      var items, rest := Items(inner, AssembleFinal(choice, cost)), Items(inner[1..], AssembleFinal(choice, cost));
      if ChunkToEvent(inner[0].value).Some? {
        assert items[1..] == rest;
      } else {
        assert items == rest;
      }
    }
  }

  // --- What the provider said is what is shown and answered

  predicate IsSaid(chunk: Chunk) {
    chunk.Text? || chunk.Reasoning? || chunk.ReasoningDelta?
  }

  /** The chunks that came before anything went wrong. */
  function Arrived(inner: Inner): seq<Chunk> {
    if inner == [] || inner[0].Err? then [] else [inner[0].value] + Arrived(inner[1..])
  }

  /** A driver gives one fragment for each chunk that says something, in order, text as text and
      reasoning as thinking, and no other. */
  lemma {:induction false} FragmentsAreSaid(inner: Inner, final: Response)
    ensures var items, said := Items(inner, final), Filter(IsSaid, Arrived(inner));
      |items| == |said| + 1
      && forall i | 0 <= i < |said| ::
        items[i] == Fragment(if said[i].Text? then TextDelta(said[i].text) else ThinkingDelta(said[i].text))
  {
    if inner == [] || inner[0].Err? {
    } else {
      FragmentsAreSaid(inner[1..], final);
      var chunk := inner[0].value;
      assert Arrived(inner)[1..] == Arrived(inner[1..]);
      if IsSaid(chunk) {
        assert Items(inner, final)[1..] == Items(inner[1..], final);
      } else {
        assert [] + Items(inner[1..], final) == Items(inner[1..], final);
      }
    }
  }

  predicate IsTextPart(part: Content) {
    part.TextPart?
  }

  predicate IsCallPart(part: Content) {
    part.CallPart?
  }

  lemma {:induction false} TextsAre(choice: seq<Content>)
    ensures var parts := Filter(IsTextPart, choice);
      |Texts(choice)| == |parts| && forall i | 0 <= i < |parts| :: Texts(choice)[i] == parts[i].text
  {
    if choice == [] {
    } else {
      TextsAre(choice[1..]);
    }
  }

  lemma {:induction false} CallsAre(choice: seq<Content>)
    ensures var parts := Filter(IsCallPart, choice);
      |Calls(choice)| == |parts|
      && forall i | 0 <= i < |parts| :: Calls(choice)[i] == Call(parts[i].name, Some(parts[i].arguments))
  {
    if choice == [] {
    } else {
      CallsAre(choice[1..]);
    }
  }

  /** The assembled response has the text parts, joined by newlines, and the calls with their
      arguments, each in order. */
  lemma AssembledIs(choice: seq<Content>, cost: Cost) returns (texts: seq<string>)
    ensures var r, parts, calls := AssembleFinal(choice, cost), Filter(IsTextPart, choice), Filter(IsCallPart, choice);
      |texts| == |parts| && (forall i | 0 <= i < |parts| :: texts[i] == parts[i].text)
      && r.message == TextMessage(Agent, Join(texts, "\n")) && r.observability == Some(cost)
      && |r.toolCalls| == |calls|
      && forall i | 0 <= i < |calls| :: r.toolCalls[i] == Call(calls[i].name, Some(calls[i].arguments))
  {
    TextsAre(choice);
    CallsAre(choice);
    texts := Texts(choice);
  }

  /** `n` is where a stream first fails, or its length. */
  ghost predicate FailsAt(stream: seq<StreamItem>, n: nat) {
    n <= |stream| && (forall i | 0 <= i < n :: !stream[i].Failure?) && (n < |stream| ==> stream[n].Failure?)
  }

  /** What is passed on is every fragment before the failure. */
  lemma {:induction false} ShownIs(stream: seq<StreamItem>, n: nat)
    requires FailsAt(stream, n)
    ensures var fragments := Filter((item: StreamItem) => item.Fragment?, stream[..n]);
      |Shown(stream)| == |fragments|
      && forall i | 0 <= i < |fragments| :: fragments[i].Fragment? && Shown(stream)[i] == fragments[i].payload
  {
    if n == 0 {
    } else {
      assert stream[..n][1..] == stream[1..][..n - 1] && stream[..n][0] == stream[0];
      assert forall i | 0 <= i < n - 1 :: stream[1..][i] == stream[i + 1];
      ShownIs(stream[1..], n - 1);
    }
  }

  predicate SaysOnly(r: Response, text: string) {
    r.message == TextMessage(Agent, text) && r.toolCalls == [] && r.finishReason == Stop && r.observability == None
  }

  /** The answer to a stream that fails is the failure's text, whatever came before; otherwise it
      is the last final response, or a complaint that there is none. */
  lemma {:induction false} AnswerIs(stream: seq<StreamItem>, last: Option<Response>, n: nat)
    requires FailsAt(stream, n)
    ensures n < |stream| ==> SaysOnly(Answer(stream, last), stream[n].error)
    ensures forall k | 0 <= k < n == |stream| && LastFinal(stream, k) :: Answer(stream, last) == stream[k].response
    ensures n == |stream| && (forall k | 0 <= k < n :: !stream[k].Final?) ==>
      if last.Some? then Answer(stream, last) == last.value
      else SaysOnly(Answer(stream, last), "completion stream ended without emitting a final response")
  {
    if stream == [] {
    } else if n > 0 {
      var next := if stream[0].Final? then Some(stream[0].response) else last;
      assert forall i | 0 <= i < |stream| - 1 :: stream[1..][i] == stream[i + 1];
      AnswerIs(stream[1..], next, n - 1);
      forall k | 0 <= k < n == |stream| && LastFinal(stream, k) ensures Answer(stream, last) == stream[k].response {
        if k > 0 {
          assert LastFinal(stream[1..], k - 1);
        }
      }
    }
  }

  ghost predicate LastFinal(stream: seq<StreamItem>, k: nat) {
    k < |stream| && stream[k].Final? && forall j | k < j < |stream| :: !stream[j].Final?
  }
}
