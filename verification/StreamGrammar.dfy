/** The shape of what one runner publishes, and what the app's in-flight buffers make of it. */
module StreamGrammar {
  import opened Prelude
  import opened Chats
  import CompletionStream
  import opened AgentRunner
  import opened AgentLog
  import opened TuiApp
  import opened LiveView

  /** Storage errors aside, a stream reads:
      (Message Started (Delta* Message (ToolStarted ToolDone)+)* Delta* Message Finished)* Shutdown? */
  datatype Place =
    | Idle
    | Posted
    | Replying
    | Replied
    | InTool(id: Uuid, name: string)
    | ToolsDone
    | Over
    | Broken

  function Next(g: Place, payload: BusPayload): Place {
    match payload
    case Error(_) => g
    case MessagePosted(message) =>
      if g == Idle then Posted
      else if (g == Replying || g == ToolsDone) && message.role == Agent then Replied
      else Broken
    case TurnStarted => if g == Posted then Replying else Broken
    case TextDelta(_) => if g == Replying || g == ToolsDone then Replying else Broken
    case ThinkingDelta(_) => if g == Replying || g == ToolsDone then Replying else Broken
    case ToolCalled(event) => NextTool(g, event)
    case TurnFinished(reason) => if g == Replied && reason == Stop then Idle else Broken
    case AgentShutdown => if g == Idle then Over else Broken
  }

  function NextTool(g: Place, event: ToolCallEvent): Place {
    if event.Started? then (if g == Replied || g == ToolsDone then InTool(event.toolCallId, event.toolName) else Broken)
    else if g == InTool(event.toolCallId, event.toolName) then ToolsDone
    else Broken
  }

  /** Replies come from the agent, and go on exactly when they call a tool. */
  ghost predicate KeepsReplyRules(e: Environment, replies: seq<Stream>) {
    e.hasProvider ==> forall i | 0 <= i < |replies| ::
      CompletionStream.FinishRule(CompletionStream.Answer(replies[i], None))
      && CompletionStream.Answer(replies[i], None).message.role == Agent
  }

  function Reads(g: Place, payloads: seq<BusPayload>): Place
    decreases |payloads|
  {
    if payloads == [] then g else Reads(Next(g, payloads[0]), payloads[1..])
  }

  lemma {:induction false} ReadsConcat(g: Place, a: seq<BusPayload>, b: seq<BusPayload>)
    ensures Reads(g, a + b) == Reads(Reads(g, a), b)
    decreases |a|
  {
    if a == [] {
      assert a + b == b;
    } else {
      assert (a + b)[1..] == a[1..] + b;
      ReadsConcat(Next(g, a[0]), a[1..], b);
    }
  }

  /** What is published between the two states takes the reader from `g` to `g'`. */
  ghost predicate Goes(s: RunnerState, s': RunnerState, g: Place, g': Place) {
    s.bus <= s'.bus && Reads(g, s'.bus[|s.bus|..]) == g'
  }

  lemma GoesOn(s: RunnerState, t: RunnerState, u: RunnerState, g: Place, h: Place, k: Place)
    requires Goes(s, t, g, h) && Goes(t, u, h, k)
    ensures Goes(s, u, g, k)
  {
    Suffix(s.bus, t.bus, u.bus);
    ReadsConcat(g, t.bus[|s.bus|..], u.bus[|t.bus|..]);
  }

  lemma GoesPublish(s: RunnerState, payload: BusPayload, g: Place)
    ensures Goes(s, Publish(s, payload), g, Next(g, payload))
  {
    assert Publish(s, payload).bus[|s.bus|..] == [payload];
    assert [payload][1..] == [];
  }

  lemma GoesNowhere(s: RunnerState, s': RunnerState, g: Place)
    requires s.bus == s'.bus
    ensures Goes(s, s', g, g)
  {
    assert s'.bus[|s.bus|..] == [];
  }

  lemma GoesSaved(e: Environment, s: RunnerState, g: Place)
    ensures Goes(s, Touched(e, Saved(e, s)), g, g)
  {
    var saved := Saved(e, s);
    var saveError := e.saveError(|s.chat.events|);
    if saveError.Some? { GoesPublish(s, SaveFailed(saveError.value), g); } else { GoesNowhere(s, saved, g); }
    GoesTouched(e, saved, g);
    GoesOn(s, saved, Touched(e, saved), g, g, g);
  }

  lemma GoesTouched(e: Environment, s: RunnerState, g: Place)
    ensures Goes(s, Touched(e, s), g, g)
  {
    var touchError := e.touchError(|s.chat.events|);
    if touchError.Some? { GoesPublish(s, TouchFailed(touchError.value), g); } else { GoesNowhere(s, Touched(e, s), g); }
  }

  lemma GoesPush(e: Environment, s: RunnerState, body: EventBody, observability: Option<Cost>, g: Place)
    ensures Goes(s, Push(e, s, body, observability), g, g)
  {
    GoesNowhere(s, Appended(s, body, observability), g);
    GoesSaved(e, Appended(s, body, observability), g);
    GoesOn(s, Appended(s, body, observability), Push(e, s, body, observability), g, g, g);
  }

  lemma GoesPushed(e: Environment, s: RunnerState, body: EventBody, observability: Option<Cost>, payload: BusPayload,
      g: Place)
    ensures Goes(s, Publish(Push(e, s, body, observability), payload), g, Next(g, payload))
  {
    var pushed := Push(e, s, body, observability);
    GoesPush(e, s, body, observability, g);
    GoesPublish(pushed, payload, g);
    GoesOn(s, pushed, Publish(pushed, payload), g, g, Next(g, payload));
  }

  lemma GoesCall(e: Environment, s: RunnerState, call: Call, g: Place)
    requires g == Replied || g == ToolsDone
    ensures Goes(s, CallTool(e, s, call), g, ToolsDone)
  {
    var outcome, inTool := OutcomeAfter(e, s, call), InTool(s.nextId, call.name);
    GoesStart(e, s, call, g);
    GoesPushed(e, StartTool(e, s, call), ToolCall(outcome.event), outcome.observability, ToolCalled(outcome.event),
      inTool);
    GoesOn(s, StartTool(e, s, call), CallTool(e, s, call), g, inTool, ToolsDone);
  }

  lemma GoesStart(e: Environment, s: RunnerState, call: Call, g: Place)
    requires g == Replied || g == ToolsDone
    ensures Goes(s, StartTool(e, s, call), g, InTool(s.nextId, call.name))
  {
    var started := Started(s.nextId, call.name, ArgumentsOf(call));
    GoesNowhere(s, TakeId(s), g);
    GoesPushed(e, TakeId(s), ToolCall(started), None, ToolCalled(started), g);
    GoesOn(s, TakeId(s), StartTool(e, s, call), g, g, InTool(s.nextId, call.name));
  }

  lemma {:induction false} GoesCalls(e: Environment, s: RunnerState, calls: seq<Call>, rendered: string, g: Place)
    requires g == Replied || g == ToolsDone
    ensures Goes(s, CallTools(e, s, calls, rendered).state, g, if calls == [] then g else ToolsDone)
    decreases |calls|
  {
    if calls == [] {
      GoesNowhere(s, s, g);
    } else {
      var next, line := CallTool(e, s, calls[0]), AddLine(rendered, OutcomeAfter(e, s, calls[0]).line);
      GoesCall(e, s, calls[0], g);
      GoesCalls(e, next, calls[1..], line, ToolsDone);
      GoesOn(s, next, CallTools(e, next, calls[1..], line).state, g, ToolsDone, ToolsDone);
    }
  }

  lemma GoesFeedBack(e: Environment, s: RunnerState, calls: seq<Call>)
    requires calls != []
    ensures Goes(s, FeedBack(e, s, calls), Replied, ToolsDone)
  {
    var d := CallTools(e, s, calls, "");
    GoesCalls(e, s, calls, "", Replied);
    GoesPush(e, d.state, Message(TextMessage(User, d.rendered)), None, ToolsDone);
    GoesOn(s, d.state, FeedBack(e, s, calls), Replied, ToolsDone, ToolsDone);
  }

  lemma {:induction false} ReadsDeltas(deltas: seq<CompletionStream.Delta>, g: Place)
    requires g == Replying || g == ToolsDone
    ensures Reads(g, deltas) == if deltas == [] then g else Replying
    decreases |deltas|
  {
    if deltas == [] {
    } else {
      ReadsDeltas(deltas[1..], Replying);
    }
  }

  lemma GoesAnswer(e: Environment, s: RunnerState, stream: Stream, g: Place)
    requires g == Replying || g == ToolsDone
    requires e.hasProvider ==> CompletionStream.Answer(stream, None).message.role == Agent
    ensures Goes(s, Answered(e, s, stream).state, g, Replied)
  {
    var c := Complete(e, s, stream);
    var deltas := if e.hasProvider then CompletionStream.Shown(stream) else [];
    ReadsDeltas(deltas, g);
    assert c.state.bus[|s.bus|..] == deltas;
    var h := if deltas == [] then g else Replying;
    GoesPushed(e, c.state, Message(c.response.message), c.response.observability, MessagePosted(c.response.message), h);
    GoesOn(s, c.state, Answered(e, s, stream).state, g, h, Replied);
  }

  /** A turn ends idle, or waits where the next reply is due. */
  ghost predicate TurnGoes(s: RunnerState, t: Turn, g: Place) {
    if t.finished then Goes(s, t.state, g, Idle)
    else Goes(s, t.state, g, Replying) || Goes(s, t.state, g, ToolsDone)
  }

  lemma TurnGoesOn(s: RunnerState, t: RunnerState, turn: Turn, g: Place, h: Place)
    requires Goes(s, t, g, h) && TurnGoes(t, turn, h)
    ensures TurnGoes(s, turn, g)
  {
    if turn.finished {
      GoesOn(s, t, turn.state, g, h, Idle);
    } else if Goes(t, turn.state, h, Replying) {
      GoesOn(s, t, turn.state, g, h, Replying);
    } else {
      GoesOn(s, t, turn.state, g, h, ToolsDone);
    }
  }

  lemma GoesFedBack(e: Environment, s: RunnerState, t: RunnerState, calls: seq<Call>, g: Place)
    requires Goes(s, t, g, Replied) && calls != []
    ensures Goes(s, FeedBack(e, t, calls), g, ToolsDone)
  {
    GoesFeedBack(e, t, calls);
    GoesOn(s, t, FeedBack(e, t, calls), g, Replied, ToolsDone);
  }

  lemma GoesFinished(s: RunnerState, t: RunnerState, g: Place)
    requires Goes(s, t, g, Replied)
    ensures Goes(s, Publish(t, TurnFinished(Stop)), g, Idle)
  {
    GoesPublish(t, TurnFinished(Stop), Replied);
    GoesOn(s, t, Publish(t, TurnFinished(Stop)), g, Replied, Idle);
  }

  lemma RestKeepsRules(e: Environment, replies: seq<Stream>)
    requires KeepsReplyRules(e, replies)
    ensures KeepsReplyRules(e, Rest(e, replies))
  {
  }

  lemma {:induction false} GoesRounds(e: Environment, s: RunnerState, replies: seq<Stream>, g: Place)
    requires KeepsReplyRules(e, replies) && (g == Replying || g == ToolsDone)
    ensures TurnGoes(s, Rounds(e, s, replies), g) && KeepsReplyRules(e, Rounds(e, s, replies).replies)
    decreases |replies|
  {
    if e.hasProvider && replies == [] {
      GoesNowhere(s, s, g);
    } else {
      var c := Answered(e, s, NextReply(replies));
      GoesAnswer(e, s, NextReply(replies), g);
      if c.response.finishReason == Stop {
        GoesFinished(s, c.state, g);
        RestKeepsRules(e, replies);
      } else {
        var fed := FeedBack(e, c.state, c.response.toolCalls);
        GoesFedBack(e, s, c.state, c.response.toolCalls, g);
        RestKeepsRules(e, replies);
        GoesRounds(e, fed, Rest(e, replies), ToolsDone);
        TurnGoesOn(s, fed, Rounds(e, fed, Rest(e, replies)), g, ToolsDone);
      }
    }
  }

  lemma GoesTurn(e: Environment, s: RunnerState, message: TextMessage, replies: seq<Stream>)
    requires KeepsReplyRules(e, replies)
    ensures TurnGoes(s, Rounds(e, Opened(e, s, message), replies), Idle)
    ensures KeepsReplyRules(e, Rounds(e, Opened(e, s, message), replies).replies)
  {
    var said := Announce(e, s, message, None);
    GoesPushed(e, s, Message(message), None, MessagePosted(message), Idle);
    GoesPublish(said, TurnStarted, Posted);
    GoesOn(s, said, Opened(e, s, message), Idle, Posted, Replying);
    GoesRounds(e, Opened(e, s, message), replies, Replying);
    TurnGoesOn(s, Opened(e, s, message), Rounds(e, Opened(e, s, message), replies), Idle, Replying);
  }

  /** Where a run leaves its reader. */
  ghost predicate RunGoes(s: RunnerState, ran: Ran) {
    match ran.phase
    case Waiting => Goes(s, ran.state, Idle, Idle)
    case AwaitingReply => Goes(s, ran.state, Idle, Replying) || Goes(s, ran.state, Idle, ToolsDone)
    case Ended => Goes(s, ran.state, Idle, Idle) || Goes(s, ran.state, Idle, Over)
  }

  lemma RunGoesOn(s: RunnerState, t: RunnerState, ran: Ran)
    requires Goes(s, t, Idle, Idle) && RunGoes(t, ran)
    ensures RunGoes(s, ran)
  {
    forall h | Goes(t, ran.state, Idle, h) ensures Goes(s, ran.state, Idle, h) {
      GoesOn(s, t, ran.state, Idle, Idle, h);
    }
  }

  /** Everything a run publishes follows the grammar. */
  lemma {:induction false} RunFollowsGrammar(e: Environment, s: RunnerState, inbox: seq<Command>, closed: bool,
      replies: seq<Stream>)
    requires KeepsReplyRules(e, replies)
    ensures RunGoes(s, Run(e, s, inbox, closed, replies))
    decreases |inbox|
  {
    if inbox == [] {
      GoesNowhere(s, Run(e, s, inbox, closed, replies).state, Idle);
    } else {
      match inbox[0]
      case SubmitUserMessage(_) =>
        RunFollowsGrammar(e, s, inbox[1..], closed, replies);
      case SendUserMessage(message) =>
        var turn, here, later := RunSends(e, s, inbox, closed, replies);
        GoesTurn(e, s, message, replies);
        if turn.finished {
          RunFollowsGrammar(e, turn.state, inbox[1..], closed, turn.replies);
          RunGoesOn(s, turn.state, Run(e, turn.state, inbox[1..], closed, turn.replies));
        }
      case Shutdown =>
        GoesPublish(s, AgentShutdown, Idle);
        GoesNowhere(Publish(s, AgentShutdown), HandOver(Publish(s, AgentShutdown)), Over);
        GoesOn(s, Publish(s, AgentShutdown), HandOver(Publish(s, AgentShutdown)), Idle, Over, Over);
    }
  }

  // --- The in-flight buffers

  /** What empties the buffers. */
  predicate Settles(payload: BusPayload) {
    payload.TurnStarted? || (payload.MessagePosted? && payload.message.role == Agent)
  }

  /** Just past the last payload that emptied them. */
  function SettledAt(payloads: seq<BusPayload>): (k: nat)
    ensures k <= |payloads| && (k > 0 ==> Settles(payloads[k - 1]))
    ensures forall i | k <= i < |payloads| :: !Settles(payloads[i])
  {
    if payloads == [] then 0
    else if Settles(payloads[|payloads| - 1]) then |payloads|
    else SettledAt(payloads[..|payloads| - 1])
  }

  function Unsettled(payloads: seq<BusPayload>): seq<BusPayload> {
    payloads[SettledAt(payloads)..]
  }

  /** The text deltas run together, if there are any. */
  function TextOf(payloads: seq<BusPayload>): Option<string> {
    if payloads == [] then None
    else
      var last, before := payloads[|payloads| - 1], TextOf(payloads[..|payloads| - 1]);
      if last.TextDelta? then Some(OrEmpty(before) + last.delta) else before
  }

  function ThoughtOf(payloads: seq<BusPayload>): Option<string> {
    if payloads == [] then None
    else
      var last, before := payloads[|payloads| - 1], ThoughtOf(payloads[..|payloads| - 1]);
      if last.ThinkingDelta? then Some(OrEmpty(before) + last.delta) else before
  }

  lemma {:induction false} FollowLast(c: ChatView, payloads: seq<BusPayload>, payload: BusPayload)
    ensures FollowAll(c, payloads + [payload]) == Follow(FollowAll(c, payloads), payload)
    decreases |payloads|
  {
    if payloads == [] {
      assert [payload][1..] == [];
    } else {
      assert (payloads + [payload])[1..] == payloads[1..] + [payload];
      FollowLast(Follow(c, payloads[0]), payloads[1..], payload);
    }
  }

  lemma UnsettledGrows(payloads: seq<BusPayload>, payload: BusPayload)
    ensures Unsettled(payloads + [payload]) == if Settles(payload) then [] else Unsettled(payloads) + [payload]
  {
    assert (payloads + [payload])[..|payloads|] == payloads;
  }

  lemma TextGrows(payloads: seq<BusPayload>, payload: BusPayload)
    ensures TextOf(payloads + [payload]) == if payload.TextDelta? then Some(OrEmpty(TextOf(payloads)) + payload.delta)
      else TextOf(payloads)
    ensures ThoughtOf(payloads + [payload]) == if payload.ThinkingDelta?
      then Some(OrEmpty(ThoughtOf(payloads)) + payload.delta) else ThoughtOf(payloads)
  {
    assert (payloads + [payload])[..|payloads|] == payloads;
  }

  lemma FollowBuffers(c: ChatView, unsettled: seq<BusPayload>, payload: BusPayload)
    requires c.text == TextOf(unsettled) && c.thinking == ThoughtOf(unsettled)
    ensures var after := if Settles(payload) then [] else unsettled + [payload];
      Follow(c, payload).text == TextOf(after) && Follow(c, payload).thinking == ThoughtOf(after)
  {
    TextGrows(unsettled, payload);
  }

  /** Each buffer holds the deltas since the last agent message or start of a turn. */
  lemma {:induction false} BuffersHoldDeltas(entries: seq<HistoryPayload>, payloads: seq<BusPayload>)
    ensures var c := FollowAll(ChatView(entries, None, None), payloads);
      c.text == TextOf(Unsettled(payloads)) && c.thinking == ThoughtOf(Unsettled(payloads))
    decreases |payloads|
  {
    if payloads == [] {
    } else {
      var n := |payloads| - 1;
      var before, last := payloads[..n], payloads[n];
      assert payloads == before + [last];
      BuffersHoldDeltas(entries, before);
      FollowLast(ChatView(entries, None, None), before, last);
      UnsettledGrows(before, last);
      FollowBuffers(FollowAll(ChatView(entries, None, None), before), Unsettled(before), last);
    }
  }

  /** An agent message is preceded by what was thought since the last, as one entry, if anything was. */
  lemma ThoughtsPrecedeMessage(entries: seq<HistoryPayload>, payloads: seq<BusPayload>, message: TextMessage)
    requires message.role == Agent
    ensures var before := FollowAll(ChatView(entries, None, None), payloads);
      var thought := OrEmpty(ThoughtOf(Unsettled(payloads)));
      FollowAll(ChatView(entries, None, None), payloads + [MessagePosted(message)])
      == ChatView(before.entries + (if thought == "" then [] else [Thinking(thought)]) + [Bus(MessagePosted(message))],
        None, None)
  {
    BuffersHoldDeltas(entries, payloads);
    FollowLast(ChatView(entries, None, None), payloads, MessagePosted(message));
  }

  ghost predicate Quiet(c: ChatView) {
    c.text == None && c.thinking == None
  }

  /** Along the grammar the buffers can hold something only while a reply is arriving. */
  lemma {:induction false} BuffersSettle(c: ChatView, g: Place, payloads: seq<BusPayload>)
    requires Quiet(c) || g == Replying
    requires Reads(g, payloads) != Broken
    ensures Quiet(FollowAll(c, payloads)) || Reads(g, payloads) == Replying
    decreases |payloads|
  {
    if payloads == [] {
    } else {
      if Next(g, payloads[0]) == Broken {
        StaysBroken(payloads[1..]);
      }
      BuffersSettle(Follow(c, payloads[0]), Next(g, payloads[0]), payloads[1..]);
    }
  }

  /** So once a run is idle, nothing is in flight in any app that followed it. */
  lemma NothingInFlightWhenIdle(e: Environment, s: RunnerState, inbox: seq<Command>, closed: bool, replies: seq<Stream>,
      c: ChatView)
    requires KeepsReplyRules(e, replies) && Quiet(c)
    requires Run(e, s, inbox, closed, replies).phase != AwaitingReply
    ensures s.bus <= Run(e, s, inbox, closed, replies).state.bus
    ensures Quiet(FollowAll(c, Run(e, s, inbox, closed, replies).state.bus[|s.bus|..]))
  {
    RunFollowsGrammar(e, s, inbox, closed, replies);
    BuffersSettle(c, Idle, Run(e, s, inbox, closed, replies).state.bus[|s.bus|..]);
  }

  lemma {:induction false} StaysBroken(payloads: seq<BusPayload>)
    ensures Reads(Broken, payloads) == Broken
    decreases |payloads|
  {
    if payloads == [] {
    } else {
      StaysBroken(payloads[1..]);
    }
  }
}
