/** One agent's loop: take a user message, complete, call tools, feed the results back. */
module AgentRunner {
  import opened Prelude
  import opened Chats
  import opened CompletionStream

  datatype ToolError = InvalidInput(message: string) | ExecutionFailed(message: string)

  datatype ToolOutput = ToolOutput(value: Json, observability: Option<Cost>)

  /** What the runner depends on. Tools and storage may answer differently each time: their
      answers are indexed by how long the log is when they are asked. */
  datatype Environment = Environment(
    path: ChatPath,
    basePrompt: string,
    hasProvider: bool,
    tools: set<string>,
    execute: (nat, string, Json) -> Result<ToolOutput, ToolError>,
    preview: (string, Json) -> string,
    saveError: nat -> Option<string>,
    touchError: nat -> Option<string>)

  datatype Handoff = Handoff(chat: Chat, summary: Option<string>)

  /** What the model was asked with, and how long the log was then. */
  datatype Request = Request(messages: seq<TextMessage>, logLength: nat)

  datatype RunnerState = RunnerState(
    chat: Chat,
    bus: seq<BusPayload>,
    stored: seq<Chat>,
    lastUsed: Option<Uuid>,
    nextId: Uuid,
    requests: seq<Request>,
    handoffOpen: bool,
    handoffs: seq<Handoff>)

  // --- The steps a runner is made of

  function Publish(s: RunnerState, payload: BusPayload): RunnerState {
    s.(bus := s.bus + [payload])
  }

  function PublishAll(s: RunnerState, payloads: seq<BusPayload>): RunnerState {
    s.(bus := s.bus + payloads)
  }

  function TakeId(s: RunnerState): RunnerState {
    s.(nextId := s.nextId + 1)
  }

  function LastId(events: seq<LogEntry>): Option<Uuid> {
    if events == [] then None else Some(events[|events| - 1].event.id)
  }

  /** The first branch with this id gets the new head. */
  function WithHead(branches: seq<Branch>, id: BranchId, head: Uuid): seq<Branch> {
    if branches == [] then []
    else if branches[0].id == id then [branches[0].(head := Some(head))] + branches[1..]
    else [branches[0]] + WithHead(branches[1..], id, head)
  }

  function Entry(chat: Chat, id: Uuid, body: EventBody, observability: Option<Cost>): LogEntry {
    LogEntry(ChatEvent(id, LastId(chat.events), chat.activeBranchId, body, observability), Active)
  }

  function Append(chat: Chat, id: Uuid, body: EventBody, observability: Option<Cost>): Chat {
    chat.(events := chat.events + [Entry(chat, id, body, observability)],
          branches := WithHead(chat.branches, chat.activeBranchId, id))
  }

  function SaveFailed(error: string): BusPayload {
    Error("failed to persist chat snapshot: " + error)
  }

  function TouchFailed(error: string): BusPayload {
    Error("failed to persist last used chat id: " + error)
  }

  function Saved(e: Environment, s: RunnerState): RunnerState {
    var error := e.saveError(|s.chat.events|);
    if error.Some? then Publish(s, SaveFailed(error.value)) else s.(stored := s.stored + [s.chat])
  }

  function Touched(e: Environment, s: RunnerState): RunnerState {
    var error := e.touchError(|s.chat.events|);
    if error.Some? then Publish(s, TouchFailed(error.value)) else s.(lastUsed := Some(RootId(e.path)))
  }

  function Appended(s: RunnerState, body: EventBody, observability: Option<Cost>): RunnerState {
    TakeId(s).(chat := Append(s.chat, s.nextId, body, observability))
  }

  function Push(e: Environment, s: RunnerState, body: EventBody, observability: Option<Cost>): RunnerState {
    Touched(e, Saved(e, Appended(s, body, observability)))
  }

  /** A step both logged and published. */
  function Announce(e: Environment, s: RunnerState, message: TextMessage, observability: Option<Cost>): RunnerState {
    Publish(Push(e, s, Message(message), observability), MessagePosted(message))
  }

  function AnnounceTool(e: Environment, s: RunnerState, event: ToolCallEvent,
      observability: Option<Cost>): RunnerState {
    Publish(Push(e, s, ToolCall(event), observability), ToolCalled(event))
  }

  // --- Completions

  predicate ForModel(entry: LogEntry) {
    entry.event.body.Message? && (entry.event.body.message.role == User || entry.event.body.message.role == Agent)
  }

  function Spoken(events: seq<LogEntry>): seq<TextMessage> {
    if events == [] then []
    else (if ForModel(events[0]) then [events[0].event.body.message] else []) + Spoken(events[1..])
  }

  function Context(e: Environment, chat: Chat): seq<TextMessage> {
    [TextMessage(System, e.basePrompt)] + Spoken(chat.events)
  }

  function RequestOf(e: Environment, chat: Chat): Request {
    Request(Context(e, chat), |chat.events|)
  }

  function Ask(e: Environment, s: RunnerState): RunnerState {
    s.(requests := s.requests + [RequestOf(e, s.chat)])
  }

  function LastUserContent(messages: seq<TextMessage>): string {
    if messages == [] then "ready"
    else if messages[|messages| - 1].role == User then messages[|messages| - 1].content
    else LastUserContent(messages[..|messages| - 1])
  }

  function StubResponse(messages: seq<TextMessage>): Response {
    Response(TextMessage(Agent, "stub completion: " + LastUserContent(messages)), [], Stop, None)
  }

  datatype Completion = Completion(state: RunnerState, response: Response)

  function Complete(e: Environment, s: RunnerState, stream: seq<StreamItem>): Completion {
    var asked := Ask(e, s);
    if e.hasProvider then Completion(PublishAll(asked, Shown(stream)), Answer(stream, None))
    else Completion(asked, StubResponse(Context(e, s.chat)))
  }

  // --- Tools

  function Execute(e: Environment, s: RunnerState, call: Call): Result<ToolOutput, ToolError> {
    if call.name in e.tools then e.execute(|s.chat.events|, call.name, ArgumentsOf(call))
    else Err(ExecutionFailed("unknown tool: " + call.name))
  }

  function ArgumentsOf(call: Call): Json {
    if call.arguments.Some? then call.arguments.value else NULL
  }

  function ErrorText(error: ToolError): string {
    match error
    case InvalidInput(message) => "invalid input: " + message
    case ExecutionFailed(message) => message
  }

  datatype Outcome = Outcome(event: ToolCallEvent, line: string, observability: Option<Cost>)

  function OutcomeOf(e: Environment, id: Uuid, call: Call, result: Result<ToolOutput, ToolError>): Outcome {
    match result
    case Ok(output) =>
      Outcome(Completed(id, call.name, e.preview(call.name, output.value)), call.name + ": " + output.value,
        output.observability)
    case Err(error) =>
      Outcome(Failed(id, call.name, ErrorText(error)), call.name + " failed: " + ErrorText(error), None)
  }

  function StartTool(e: Environment, s: RunnerState, call: Call): RunnerState {
    AnnounceTool(e, TakeId(s), Started(s.nextId, call.name, ArgumentsOf(call)), None)
  }

  function OutcomeAfter(e: Environment, s: RunnerState, call: Call): Outcome {
    OutcomeOf(e, s.nextId, call, Execute(e, StartTool(e, s, call), call))
  }

  function CallTool(e: Environment, s: RunnerState, call: Call): RunnerState {
    var outcome := OutcomeAfter(e, s, call);
    AnnounceTool(e, StartTool(e, s, call), outcome.event, outcome.observability)
  }

  function AddLine(rendered: string, line: string): string {
    if rendered == [] then line else rendered + "\n" + line
  }

  datatype Dispatched = Dispatched(state: RunnerState, rendered: string)

  function CallTools(e: Environment, s: RunnerState, calls: seq<Call>, rendered: string): Dispatched
    decreases |calls|
  {
    if calls == [] then Dispatched(s, rendered)
    else CallTools(e, CallTool(e, s, calls[0]), calls[1..], AddLine(rendered, OutcomeAfter(e, s, calls[0]).line))
  }

  lemma CallToolsStep(e: Environment, s: RunnerState, calls: seq<Call>, i: nat, rendered: string)
    requires i < |calls|
    ensures CallTools(e, s, calls[i..], rendered)
         == CallTools(e, CallTool(e, s, calls[i]), calls[i + 1..], AddLine(rendered, OutcomeAfter(e, s, calls[i]).line))
  {
    assert calls[i..][1..] == calls[i + 1..];
  }

  // --- Turns and runs

  /** `replies` are the streams the provider will answer with. A turn that needs more waits. */
  datatype Turn = Turn(state: RunnerState, replies: seq<seq<StreamItem>>, finished: bool)

  function NextReply(replies: seq<seq<StreamItem>>): seq<StreamItem> {
    if replies == [] then [] else replies[0]
  }

  function Rest(e: Environment, replies: seq<seq<StreamItem>>): seq<seq<StreamItem>> {
    if e.hasProvider && replies != [] then replies[1..] else replies
  }

  function FeedBack(e: Environment, s: RunnerState, calls: seq<Call>): RunnerState {
    var dispatched := CallTools(e, s, calls, "");
    Push(e, dispatched.state, Message(TextMessage(User, dispatched.rendered)), None)
  }

  function Answered(e: Environment, s: RunnerState, stream: seq<StreamItem>): Completion {
    var c := Complete(e, s, stream);
    Completion(Announce(e, c.state, c.response.message, c.response.observability), c.response)
  }

  function Rounds(e: Environment, s: RunnerState, replies: seq<seq<StreamItem>>): Turn
    decreases |replies|
  {
    if e.hasProvider && replies == [] then Turn(s, replies, false)
    else
      var c := Answered(e, s, NextReply(replies));
      if c.response.finishReason == Stop then Turn(Publish(c.state, TurnFinished(Stop)), Rest(e, replies), true)
      else Rounds(e, FeedBack(e, c.state, c.response.toolCalls), Rest(e, replies))
  }

  function Opened(e: Environment, s: RunnerState, message: TextMessage): RunnerState {
    Publish(Announce(e, s, message, None), TurnStarted)
  }

  datatype Phase =
    | Waiting        // for a command
    | AwaitingReply  // from the provider, in the middle of a turn
    | Ended          // shut down, or every sender gone

  datatype Ran = Ran(state: RunnerState, phase: Phase)

  function LastAgentMessage(events: seq<LogEntry>): Option<string> {
    if events == [] then None
    else match events[|events| - 1].event.body
      case Message(m) => if m.role == Agent then Some(m.content) else LastAgentMessage(events[..|events| - 1])
      case _ => LastAgentMessage(events[..|events| - 1])
  }

  function HandOver(s: RunnerState): RunnerState {
    if s.handoffOpen
    then s.(handoffOpen := false, handoffs := s.handoffs + [Handoff(s.chat, LastAgentMessage(s.chat.events))])
    else s
  }

  /** A run over the commands that arrive; `closed` once no sender is left after them. */
  function Run(e: Environment, s: RunnerState, inbox: seq<Command>, closed: bool, replies: seq<seq<StreamItem>>): Ran
    decreases |inbox|
  {
    if inbox == [] then (if closed then Ran(HandOver(s), Ended) else Ran(s, Waiting))
    else match inbox[0]
      case SubmitUserMessage(_) => Run(e, s, inbox[1..], closed, replies)
      case SendUserMessage(message) =>
        var turn := Rounds(e, Opened(e, s, message), replies);
        if turn.finished then Run(e, turn.state, inbox[1..], closed, turn.replies) else Ran(turn.state, AwaitingReply)
      case Shutdown => Ran(HandOver(Publish(s, AgentShutdown)), Ended)
  }

  lemma RunFrom(e: Environment, s: RunnerState, inbox: seq<Command>, i: nat, closed: bool,
      replies: seq<seq<StreamItem>>)
    requires i < |inbox|
    ensures Run(e, s, inbox[i..], closed, replies) == match inbox[i]
      case SubmitUserMessage(_) => Run(e, s, inbox[i + 1..], closed, replies)
      case SendUserMessage(message) =>
        var turn := Rounds(e, Opened(e, s, message), replies);
        if turn.finished then Run(e, turn.state, inbox[i + 1..], closed, turn.replies)
          else Ran(turn.state, AwaitingReply)
      case Shutdown => Ran(HandOver(Publish(s, AgentShutdown)), Ended)
  {
    assert inbox[i..][1..] == inbox[i + 1..];
  }

  // --- The runner itself

  class AgentRunner {
    const e: Environment
    var history: Chat
    var events: seq<BusPayload>
    var stored: seq<Chat>
    var lastUsed: Option<Uuid>
    var nextId: Uuid
    var requests: seq<Request>
    var handoffOpen: bool
    var handoffs: seq<Handoff>

    function State(): RunnerState
      reads this
    {
      RunnerState(history, events, stored, lastUsed, nextId, requests, handoffOpen, handoffs)
    }

    constructor (e: Environment, history: Chat, nextId: Uuid, isSubagent: bool)
      ensures this.e == e
      ensures State() == RunnerState(history, [], [], None, nextId, [], isSubagent, [])
    {
      this.e, this.history, this.nextId, this.handoffOpen := e, history, nextId, isSubagent;
      events, stored, lastUsed, requests, handoffs := [], [], None, [], [];
    }

    method Send(payload: BusPayload)
      modifies this
      ensures State() == Publish(old(State()), payload)
    {
      events := events + [payload];
    }

    method FreshId() returns (id: Uuid)
      modifies this
      ensures id == old(nextId) && State() == TakeId(old(State()))
    {
      id := nextId;
      nextId := nextId + 1;
    }

    method PersistHistorySnapshot()
      modifies this
      ensures State() == Touched(e, Saved(e, old(State())))
    {
      var saveError := e.saveError(|history.events|);
      if saveError.Some? {
        Send(SaveFailed(saveError.value));
      } else {
        stored := stored + [history];
      }
      var touchError := e.touchError(|history.events|);
      if touchError.Some? {
        Send(TouchFailed(touchError.value));
      } else {
        lastUsed := Some(RootId(e.path));
      }
    }

    method PushEvent(body: EventBody, observability: Option<Cost>)
      modifies this
      ensures State() == Push(e, old(State()), body, observability)
    {
      var id := FreshId();
      var parentId := LastId(history.events);
      var entry := LogEntry(ChatEvent(id, parentId, history.activeBranchId, body, observability), Active);
      history := history.(events := history.events + [entry]);
      history := history.(branches := WithHead(history.branches, history.activeBranchId, id));
      PersistHistorySnapshot();
    }

    method PushMessageEvent(message: TextMessage, observability: Option<Cost>)
      modifies this
      ensures State() == Push(e, old(State()), Message(message), observability)
    {
      PushEvent(Message(message), observability);
    }

    method PushToolCallEvent(event: ToolCallEvent, observability: Option<Cost>)
      modifies this
      ensures State() == Push(e, old(State()), ToolCall(event), observability)
    {
      PushEvent(ToolCall(event), observability);
    }

    function CompletionMessages(): seq<TextMessage>
      reads this
    {
      Context(e, history)
    }

    method CompleteOnce(stream: seq<StreamItem>) returns (response: Response)
      modifies this
      ensures Completion(State(), response) == Complete(e, old(State()), stream)
    {
      var messages := CompletionMessages();
      requests := requests + [Request(messages, |history.events|)];
      if !e.hasProvider {
        return StubResponse(messages);
      }
      var finalResponse: Option<Response> := None;
      var streamError: Option<string> := None;
      var i := 0;
      ghost var asked := State();
      assert asked.bus + [] == asked.bus;
      assert stream[0..] == stream;
      while i < |stream|
        invariant i <= |stream| && streamError == None
        invariant PublishAll(State(), Shown(stream[i..])) == PublishAll(asked, Shown(stream))
        invariant Answer(stream[i..], finalResponse) == Answer(stream, None)
        decreases |stream| - i
      {
        assert stream[i..][1..] == stream[i + 1..];
        match stream[i] {
          case Fragment(payload) =>
            Send(payload);
          case Final(r) =>
            finalResponse := Some(r);
          case Failure(error) =>
            streamError := Some(error);
            break;
        }
        i := i + 1;
      }
      match (finalResponse, streamError)
      case (Some(r), None) => return r;
      case (_, Some(text)) => return ErrorResponse(text);
      case (None, None) => return ErrorResponse(NO_FINAL);
    }

    method DispatchOne(call: Call, rendered: string) returns (rendered': string)
      modifies this
      ensures State() == CallTool(e, old(State()), call)
      ensures rendered' == AddLine(rendered, OutcomeAfter(e, old(State()), call).line)
    {
      var toolCallId := FreshId();
      var arguments := if call.arguments.Some? then call.arguments.value else NULL;
      PushToolCallEvent(Started(toolCallId, call.name, arguments), None);
      Send(ToolCalled(Started(toolCallId, call.name, arguments)));
      assert State() == StartTool(e, old(State()), call);
      var result := Execute(e, State(), call);
      var outcome := OutcomeOf(e, toolCallId, call, result);
      PushToolCallEvent(outcome.event, outcome.observability);
      Send(ToolCalled(outcome.event));
      rendered' := rendered;
      if rendered' != "" {
        rendered' := rendered' + "\n";
      }
      rendered' := rendered' + outcome.line;
    }

    method DispatchToolCalls(calls: seq<Call>) returns (rendered: string)
      modifies this
      ensures Dispatched(State(), rendered) == CallTools(e, old(State()), calls, "")
    {
      rendered := "";
      assert calls[0..] == calls;
      ghost var all := CallTools(e, State(), calls, "");
      var i := 0;
      while i < |calls|
        invariant i <= |calls| && CallTools(e, State(), calls[i..], rendered) == all
      {
        CallToolsStep(e, State(), calls, i, rendered);
        rendered := DispatchOne(calls[i], rendered);
        i := i + 1;
      }
    }

    method TakeTurn(message: TextMessage, replies: seq<seq<StreamItem>>)
        returns (replies': seq<seq<StreamItem>>, finished: bool)
      modifies this
      ensures Turn(State(), replies', finished) == Rounds(e, Opened(e, old(State()), message), replies)
    {
      PushMessageEvent(message, None);
      Send(MessagePosted(message));
      Send(TurnStarted);
      replies' := replies;
      while true
        invariant Rounds(e, State(), replies') == Rounds(e, Opened(e, old(State()), message), replies)
        decreases |replies'|
      {
        if e.hasProvider && replies' == [] {
          return replies', false;
        }
        var completion := CompleteOnce(NextReply(replies'));
        replies' := Rest(e, replies');
        PushMessageEvent(completion.message, completion.observability);
        Send(MessagePosted(completion.message));
        if completion.finishReason == Stop {
          Send(TurnFinished(completion.finishReason));
          return replies', true;
        }
        var content := DispatchToolCalls(completion.toolCalls);
        PushMessageEvent(TextMessage(User, content), None);
      }
    }

    method RunLoop(inbox: seq<Command>, closed: bool, replies: seq<seq<StreamItem>>) returns (chat: Chat, phase: Phase)
      modifies this
      ensures Ran(State(), phase) == Run(e, old(State()), inbox, closed, replies)
      ensures chat == State().chat
    {
      var replies', i, stopped := replies, 0, false;
      assert inbox[0..] == inbox;
      while i < |inbox| && !stopped
        invariant i <= |inbox|
        invariant stopped ==> Ran(HandOver(State()), Ended) == Run(e, old(State()), inbox, closed, replies)
        invariant !stopped ==>
          Run(e, State(), inbox[i..], closed, replies') == Run(e, old(State()), inbox, closed, replies)
        decreases |inbox| - i, !stopped
      {
        RunFrom(e, State(), inbox, i, closed, replies');
        match inbox[i]
        case SubmitUserMessage(_) => i := i + 1;
        case SendUserMessage(message) =>
          var finished;
          replies', finished := TakeTurn(message, replies');
          if !finished {
            return history, AwaitingReply;
          }
          i := i + 1;
        case Shutdown =>
          Send(AgentShutdown);
          stopped := true;
      }
      if !stopped && !closed {
        return history, Waiting;
      }
      if handoffOpen {
        handoffOpen := false;
        handoffs := handoffs + [Handoff(history, LastAgentMessage(history.events))];
      }
      return history, Ended;
    }
  }
}
