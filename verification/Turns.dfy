/** How commands become turns, and turns use up replies. */
module Turns {
  import opened Prelude
  import opened Chats
  import opened CompletionStream
  import opened AgentRunner
  import opened AgentLog
  import opened LiveView

  // --- Replies

  predicate Stops(reply: seq<StreamItem>) {
    Answer(reply, None).finishReason == Stop
  }

  /** The first reply that stops is the `n`-th, or none of `n` does. */
  ghost predicate UsesUp(replies: seq<seq<StreamItem>>, n: nat, finished: bool) {
    n <= |replies| && (forall i | 0 <= i < n :: Stops(replies[i]) <==> finished && i == n - 1)
    && (if finished then n > 0 else n == |replies|)
  }

  /** A turn asks for replies one by one until one stops, and then is finished; it waits when they
      run out. */
  lemma {:induction false} TurnUsesReplies(e: Environment, s: RunnerState, replies: seq<seq<StreamItem>>)
      returns (n: nat)
    requires e.hasProvider
    ensures var turn := Rounds(e, s, replies);
      UsesUp(replies, n, turn.finished) && turn.replies == replies[n..] && |turn.state.requests| == |s.requests| + n
    decreases |replies|
  {
    if replies == [] {
      n := 0;
    } else if Stops(replies[0]) {
      RoundFinishes(e, s, replies);
      n := 1;
    } else {
      var next := RoundContinues(e, s, replies);
      var rest := TurnUsesReplies(e, next, replies[1..]);
      n := rest + 1;
      assert forall i | 1 <= i < n :: replies[i] == replies[1..][i - 1];
      assert replies[1..][rest..] == replies[n..];
    }
  }

  /** Without a provider a turn is finished after one request. */
  lemma TurnWithoutProvider(e: Environment, s: RunnerState, replies: seq<seq<StreamItem>>)
    requires !e.hasProvider
    ensures var turn := Rounds(e, s, replies);
      turn.finished && turn.replies == replies && |turn.state.requests| == |s.requests| + 1
  {
    RoundFinishes(e, s, replies);
  }

  /** A reply is logged with what it cost, under the next id, and then published. */
  lemma ReplyLogged(e: Environment, s: RunnerState, stream: seq<StreamItem>) returns (entry: LogEntry)
    ensures var answered, response := Answered(e, s, stream).state, Complete(e, s, stream).response;
      answered.chat.events == s.chat.events + [entry]
      && entry.event.body == Message(response.message) && entry.event.observability == response.observability
      && answered.bus != [] && answered.bus[|answered.bus| - 1] == MessagePosted(response.message)
  {
    var c := Complete(e, s, stream);
    entry := Entry(c.state.chat, c.state.nextId, Message(c.response.message), c.response.observability);
    PushAdds(e, c.state, Message(c.response.message), c.response.observability);
  }

  predicate NoError(payload: BusPayload) {
    !payload.Error?
  }

  /** Errors apart, a reply publishes its fragments as they come, and then its message. */
  lemma ReplyPublished(e: Environment, s: RunnerState, stream: seq<StreamItem>)
    ensures var answered, response := Answered(e, s, stream).state, Complete(e, s, stream).response;
      s.bus <= answered.bus
      && Filter(NoError, answered.bus[|s.bus|..])
        == (if e.hasProvider then CompletionStream.Shown(stream) else []) + [MessagePosted(response.message)]
  {
    var c := Complete(e, s, stream);
    var pushed := Push(e, c.state, Message(c.response.message), c.response.observability);
    var fragments: seq<BusPayload> := if e.hasProvider then CompletionStream.Shown(stream) else [];
    ErrorsOnly(e, c.state, Message(c.response.message), c.response.observability);
    PublishedThen(s.bus, fragments, c.state.bus, pushed.bus, MessagePosted(c.response.message));
  }

  lemma PublishedThen(before: seq<BusPayload>, fragments: seq<BusPayload>, asked: seq<BusPayload>,
      pushed: seq<BusPayload>,
      last: BusPayload)
    requires asked == before + fragments && asked <= pushed && NoError(last)
    requires forall i | 0 <= i < |fragments| :: NoError(fragments[i])
    requires forall i | |asked| <= i < |pushed| :: pushed[i].Error?
    ensures before <= pushed + [last] && Filter(NoError, (pushed + [last])[|before|..]) == fragments + [last]
  {
    var errors := pushed[|asked|..];
    assert pushed == before + fragments + errors;
    PublishedParts(before, fragments, errors, last);
  }

  lemma ErrorsOnly(e: Environment, s: RunnerState, body: EventBody, observability: Option<Cost>)
    ensures var pushed := Push(e, s, body, observability);
      s.bus <= pushed.bus && forall i | |s.bus| <= i < |pushed.bus| :: pushed.bus[i].Error?
  {
  }

  lemma PublishedParts(before: seq<BusPayload>, fragments: seq<BusPayload>, errors: seq<BusPayload>, last: BusPayload)
    requires (forall i | 0 <= i < |fragments| :: NoError(fragments[i]))
      && (forall i | 0 <= i < |errors| :: errors[i].Error?)
    requires NoError(last)
    ensures Filter(NoError, (before + fragments + errors + [last])[|before|..]) == fragments + [last]
  {
    assert (before + fragments + errors + [last])[|before|..] == fragments + errors + [last];
    FilterLast(NoError, fragments + errors, last);
    FilterConcat(NoError, fragments, errors);
    FilterAll(NoError, fragments);
    NoneLeft(errors);
  }

  lemma {:induction false} NoneLeft(errors: seq<BusPayload>)
    requires forall i | 0 <= i < |errors| :: errors[i].Error?
    ensures Filter(NoError, errors) == []
  {
    if errors == [] {
    } else {
      NoneLeft(errors[1..]);
    }
  }

  // --- Commands

  predicate IsSubmission(command: Command) {
    command.SubmitUserMessage?
  }

  predicate NoSubmission(command: Command) {
    !IsSubmission(command)
  }

  /** Commands that only the interface means are passed over. */
  lemma {:induction false} SubmissionsIgnored(e: Environment, s: RunnerState, inbox: seq<Command>, closed: bool,
      replies: seq<seq<StreamItem>>) returns (kept: seq<Command>)
    ensures kept == Filter(NoSubmission, inbox)
    ensures Run(e, s, inbox, closed, replies) == Run(e, s, kept, closed, replies)
    decreases |inbox|
  {
    if inbox == [] {
      kept := [];
    } else if inbox[0].SubmitUserMessage? {
      kept := SubmissionsIgnored(e, s, inbox[1..], closed, replies);
    } else if inbox[0].SendUserMessage? {
      var turn := Rounds(e, Opened(e, s, inbox[0].message), replies);
      var rest := SubmissionsIgnored(e, turn.state, inbox[1..], closed, turn.replies);
      MessageRunSame(e, s, inbox, rest, closed, replies);
      kept := [inbox[0]] + rest;
    } else {
      kept := [inbox[0]] + Filter(NoSubmission, inbox[1..]);
    }
  }

  lemma MessageRunSame(e: Environment, s: RunnerState, inbox: seq<Command>, rest: seq<Command>, closed: bool,
      replies: seq<seq<StreamItem>>)
    requires inbox != [] && inbox[0].SendUserMessage?
    requires var turn := Rounds(e, Opened(e, s, inbox[0].message), replies);
      Run(e, turn.state, inbox[1..], closed, turn.replies) == Run(e, turn.state, rest, closed, turn.replies)
    ensures Run(e, s, inbox, closed, replies) == Run(e, s, [inbox[0]] + rest, closed, replies)
  {
    var turn := MessageRun(e, s, inbox, closed, replies);
    var same := MessageRun(e, s, [inbox[0]] + rest, closed, replies);
    assert ([inbox[0]] + rest)[1..] == rest;
  }

  /** The messages that came before any shutdown. */
  function SentMessages(inbox: seq<Command>): seq<TextMessage> {
    if inbox == [] || inbox[0].Shutdown? then []
    else (if inbox[0].SendUserMessage? then [inbox[0].message] else []) + SentMessages(inbox[1..])
  }

  /** The messages published directly before a turn starts. */
  function Openings(bus: seq<BusPayload>): seq<TextMessage> {
    if |bus| < 2 then []
    else (if bus[0].MessagePosted? && bus[1] == TurnStarted then [bus[0].message] else []) + Openings(bus[1..])
  }

  ghost predicate StartsNone(bus: seq<BusPayload>) {
    forall i | 0 <= i < |bus| :: bus[i] != TurnStarted
  }

  lemma {:induction false} OpeningsNone(bus: seq<BusPayload>)
    requires StartsNone(bus)
    ensures Openings(bus) == []
  {
    if |bus| < 2 {
    } else {
      OpeningsNone(bus[1..]);
    }
  }

  lemma {:induction false} OpeningsConcat(a: seq<BusPayload>, b: seq<BusPayload>)
    requires b != [] ==> b[0] != TurnStarted
    ensures Openings(a + b) == Openings(a) + Openings(b)
  {
    if a == [] {
      assert a + b == b;
    } else {
      assert (a + b)[1..] == a[1..] + b;
      OpeningsConcat(a[1..], b);
      if |a| == 1 && |b| > 0 {
        assert (a + b)[1] == b[0];
      } else if |a| > 1 {
        assert (a + b)[1] == a[1];
        Assoc(if a[0].MessagePosted? && a[1] == TurnStarted then [a[0].message] else [], Openings(a[1..]), Openings(b));
      }
    }
  }

  // --- A turn starts once

  ghost predicate StartsNoneSince(s: RunnerState, s': RunnerState) {
    s.bus <= s'.bus && StartsNone(s'.bus[|s.bus|..])
  }

  lemma StartsNoneOn(s: RunnerState, t: RunnerState, u: RunnerState)
    requires StartsNoneSince(s, t) && StartsNoneSince(t, u)
    ensures StartsNoneSince(s, u)
  {
    Suffix(s.bus, t.bus, u.bus);
  }

  lemma PublishStartsNone(s: RunnerState, payload: BusPayload)
    requires payload != TurnStarted
    ensures StartsNoneSince(s, Publish(s, payload))
  {
    assert Publish(s, payload).bus[|s.bus|..] == [payload];
  }

  lemma PushStartsNone(e: Environment, s: RunnerState, body: EventBody, observability: Option<Cost>)
    ensures StartsNoneSince(s, Push(e, s, body, observability))
  {
    var appended := Appended(s, body, observability);
    var saved := Saved(e, appended);
    if e.saveError(|appended.chat.events|).Some? {
      PublishStartsNone(appended, SaveFailed(e.saveError(|appended.chat.events|).value));
    }
    if e.touchError(|saved.chat.events|).Some? {
      PublishStartsNone(saved, TouchFailed(e.touchError(|saved.chat.events|).value));
    }
    assert s.bus[|s.bus|..] == [];
    StartsNoneOn(s, saved, Touched(e, saved));
  }

  lemma AnnounceStartsNone(e: Environment, s: RunnerState, message: TextMessage, observability: Option<Cost>)
    ensures StartsNoneSince(s, Announce(e, s, message, observability))
  {
    var pushed := Push(e, s, Message(message), observability);
    PushStartsNone(e, s, Message(message), observability);
    PublishStartsNone(pushed, MessagePosted(message));
    StartsNoneOn(s, pushed, Announce(e, s, message, observability));
  }

  lemma CallStartsNone(e: Environment, s: RunnerState, call: Call)
    ensures StartsNoneSince(s, CallTool(e, s, call))
  {
    var started, outcome := Started(s.nextId, call.name, ArgumentsOf(call)), OutcomeAfter(e, s, call);
    var mid := StartTool(e, s, call);
    AnnounceToolStartsNone(e, TakeId(s), started, None);
    AnnounceToolStartsNone(e, mid, outcome.event, outcome.observability);
    assert StartsNoneSince(s, mid);
    StartsNoneOn(s, mid, CallTool(e, s, call));
  }

  lemma AnnounceToolStartsNone(e: Environment, s: RunnerState, event: ToolCallEvent, observability: Option<Cost>)
    ensures StartsNoneSince(s, AnnounceTool(e, s, event, observability))
  {
    var pushed := Push(e, s, ToolCall(event), observability);
    PushStartsNone(e, s, ToolCall(event), observability);
    PublishStartsNone(pushed, ToolCalled(event));
    StartsNoneOn(s, pushed, AnnounceTool(e, s, event, observability));
  }

  lemma {:induction false} CallsStartNone(e: Environment, s: RunnerState, calls: seq<Call>, rendered: string)
    ensures StartsNoneSince(s, CallTools(e, s, calls, rendered).state)
    decreases |calls|
  {
    if calls == [] {
      assert s.bus[|s.bus|..] == [];
    } else {
      var next, line := CallTool(e, s, calls[0]), OutcomeAfter(e, s, calls[0]).line;
      CallStartsNone(e, s, calls[0]);
      CallsStartNone(e, next, calls[1..], AddLine(rendered, line));
      StartsNoneOn(s, next, CallTools(e, next, calls[1..], AddLine(rendered, line)).state);
    }
  }

  lemma AnswerStartsNone(e: Environment, s: RunnerState, stream: seq<StreamItem>)
    ensures StartsNoneSince(s, Answered(e, s, stream).state)
  {
    var c := Complete(e, s, stream);
    assert c.state.bus[|s.bus|..] == if e.hasProvider then CompletionStream.Shown(stream) else [];
    AnnounceStartsNone(e, c.state, c.response.message, c.response.observability);
    StartsNoneOn(s, c.state, Answered(e, s, stream).state);
  }

  lemma FeedBackStartsNone(e: Environment, s: RunnerState, calls: seq<Call>)
    ensures StartsNoneSince(s, FeedBack(e, s, calls))
  {
    var d := CallTools(e, s, calls, "");
    CallsStartNone(e, s, calls, "");
    PushStartsNone(e, d.state, Message(TextMessage(User, d.rendered)), None);
    StartsNoneOn(s, d.state, FeedBack(e, s, calls));
  }

  lemma {:induction false} RoundsStartNone(e: Environment, s: RunnerState, replies: seq<seq<StreamItem>>)
    ensures StartsNoneSince(s, Rounds(e, s, replies).state)
    decreases |replies|
  {
    if e.hasProvider && replies == [] {
      assert s.bus[|s.bus|..] == [];
    } else {
      var c := Answered(e, s, NextReply(replies));
      AnswerStartsNone(e, s, NextReply(replies));
      if c.response.finishReason == Stop {
        PublishStartsNone(c.state, TurnFinished(Stop));
        StartsNoneOn(s, c.state, Rounds(e, s, replies).state);
      } else {
        var fed, here, more, end := RoundGoesOn(e, s, replies);
        FeedBackStartsNone(e, c.state, c.response.toolCalls);
        RoundsStartNone(e, fed, Rest(e, replies));
        StartsNoneOn(s, c.state, fed);
        StartsNoneOn(s, fed, end);
      }
    }
  }

  lemma OpenedOnce(e: Environment, s: RunnerState, message: TextMessage)
    ensures var begun := Opened(e, s, message);
      s.bus <= begun.bus && Openings(begun.bus[|s.bus|..]) == [message]
      && begun.bus[|s.bus|] != TurnStarted
  {
    var pushed, begun := Push(e, s, Message(message), None), Opened(e, s, message);
    PushStartsNone(e, s, Message(message), None);
    var errors, two := pushed.bus[|s.bus|..], [MessagePosted(message), TurnStarted];
    assert begun.bus[|s.bus|..] == errors + two;
    OpeningsNone(errors);
    OpeningsConcat(errors, two);
    assert two[1..] == [TurnStarted];
    assert begun.bus[|s.bus|] == (errors + two)[0];
  }

  /** What one message opens, and its turn after that, opens just that. */
  lemma TurnOpensOnce(e: Environment, s: RunnerState, message: TextMessage, replies: seq<seq<StreamItem>>)
    ensures var after := Rounds(e, Opened(e, s, message), replies).state;
      s.bus < after.bus && Openings(after.bus[|s.bus|..]) == [message] && after.bus[|s.bus|] != TurnStarted
  {
    var begun, after := Opened(e, s, message), Rounds(e, Opened(e, s, message), replies).state;
    OpenedOnce(e, s, message);
    RoundsStartNone(e, begun, replies);
    OpensOn(s.bus, begun.bus, after.bus, [message]);
  }

  lemma OpensOn(a: seq<BusPayload>, b: seq<BusPayload>, c: seq<BusPayload>, begun: seq<TextMessage>)
    requires a < b <= c && Openings(b[|a|..]) == begun && StartsNone(c[|b|..])
    ensures Openings(c[|a|..]) == begun && c[|a|] == b[|a|]
  {
    Suffix(a, b, c);
    OpeningsConcat(b[|a|..], c[|b|..]);
    OpeningsNone(c[|b|..]);
    var none: seq<TextMessage> := [];
    assert begun + none == begun;
  }

  ghost predicate OpensThese(s: RunnerState, ran: Ran, messages: seq<TextMessage>) {
    s.bus <= ran.state.bus
    && var bus := ran.state.bus[|s.bus|..];
      (bus != [] ==> bus[0] != TurnStarted)
      && (if ran.phase == AwaitingReply then Openings(bus) <= messages
        && Openings(bus) != [] else Openings(bus) == messages)
  }

  /** Every message sent before a shutdown opens one turn, in order; a run that waits for a reply
      is in the turn of one of them. */
  lemma {:induction false} TurnsOpened(e: Environment, s: RunnerState, inbox: seq<Command>, closed: bool,
      replies: seq<seq<StreamItem>>)
    ensures OpensThese(s, Run(e, s, inbox, closed, replies), SentMessages(inbox))
    decreases |inbox|
  {
    if inbox == [] {
      assert Run(e, s, inbox, closed, replies).state.bus[|s.bus|..] == [];
    } else {
      match inbox[0]
      case SubmitUserMessage(_) => TurnsOpened(e, s, inbox[1..], closed, replies);
      case SendUserMessage(message) => NextOpened(e, s, inbox, closed, replies);
      case Shutdown =>
        assert Run(e, s, inbox, closed, replies).state.bus[|s.bus|..] == [AgentShutdown];
    }
  }

  lemma {:induction false} NextOpened(e: Environment, s: RunnerState, inbox: seq<Command>, closed: bool,
      replies: seq<seq<StreamItem>>)
    requires inbox != [] && inbox[0].SendUserMessage?
    ensures OpensThese(s, Run(e, s, inbox, closed, replies), SentMessages(inbox))
    decreases |inbox|, 0
  {
    var message, later := inbox[0].message, SentMessages(inbox[1..]);
    var turn := MessageRun(e, s, inbox, closed, replies);
    TurnOpensOnce(e, s, message, replies);
    TurnsOpened(e, turn.state, inbox[1..], closed, turn.replies);
    OpensNext(s, turn, Run(e, turn.state, inbox[1..], closed, turn.replies), Run(e, s, inbox, closed, replies), message,
      later);
  }

  lemma OpensNext(s: RunnerState, turn: Turn, rest: Ran, ran: Ran, message: TextMessage, later: seq<TextMessage>)
    requires s.bus < turn.state.bus && Openings(turn.state.bus[|s.bus|..]) == [message]
    requires turn.state.bus[|s.bus|] != TurnStarted
    requires OpensThese(turn.state, rest, later)
      && ran == if turn.finished then rest else Ran(turn.state, AwaitingReply)
    ensures OpensThese(s, ran, [message] + later)
  {
    if turn.finished {
      OpensThen(s, turn.state, rest, message, later);
    } else {
      OpensFirst(s, ran, message, later);
    }
  }

  lemma OpensFirst(s: RunnerState, ran: Ran, message: TextMessage, later: seq<TextMessage>)
    requires s.bus < ran.state.bus && Openings(ran.state.bus[|s.bus|..]) == [message]
    requires ran.state.bus[|s.bus|] != TurnStarted && ran.phase == AwaitingReply
    ensures OpensThese(s, ran, [message] + later)
  {
  }

  lemma OpensThen(s: RunnerState, t: RunnerState, ran: Ran, message: TextMessage, later: seq<TextMessage>)
    requires s.bus < t.bus && Openings(t.bus[|s.bus|..]) == [message] && t.bus[|s.bus|] != TurnStarted
    requires OpensThese(t, ran, later)
    ensures OpensThese(s, ran, [message] + later)
  {
    Suffix(s.bus, t.bus, ran.state.bus);
    OpeningsConcat(t.bus[|s.bus|..], ran.state.bus[|t.bus|..]);
    assert ran.state.bus[|s.bus|] == t.bus[|s.bus|];
  }
}
