/** What holds of an agent's log in every state of every run. */
module AgentLog {
  import opened Prelude
  import opened Chats
  import opened CompletionStream
  import opened AgentRunner

  // --- Induction over runs

  /** One step of a runner, storage writes included. */
  ghost predicate Step(e: Environment, s: RunnerState, s': RunnerState) {
    (exists payload :: s' == Publish(s, payload))
    || (exists body, observability :: s' == Appended(s, body, observability))
    || s' == Saved(e, s) || s' == Touched(e, s) || s' == TakeId(s) || s' == Ask(e, s) || s' == HandOver(s)
  }

  /** Published for itself, not for what is logged or fails to be stored. */
  predicate IsPlain(payload: BusPayload) {
    !payload.ToolCalled? && !payload.Error?
  }

  /** A longer step: a whole log write, or a whole tool call with what is published of it. */
  ghost predicate Stride(e: Environment, s: RunnerState, s': RunnerState) {
    (exists payload: BusPayload :: IsPlain(payload) && s' == Publish(s, payload))
    || (exists message, observability :: s' == Push(e, s, Message(message), observability))
    || (exists call :: s' == CallTool(e, s, call))
    || s' == Ask(e, s) || s' == HandOver(s)
  }

  ghost predicate Kept(e: Environment, P: RunnerState -> bool) {
    forall s, s' :: P(s) && Step(e, s, s') ==> P(s')
  }

  ghost predicate KeptByStrides(e: Environment, P: RunnerState -> bool) {
    forall s, s' :: P(s) && Stride(e, s, s') ==> P(s')
  }

  lemma PushKeeps(e: Environment, P: RunnerState -> bool, s: RunnerState, body: EventBody, observability: Option<Cost>)
    requires Kept(e, P) && P(s)
    ensures P(Push(e, s, body, observability))
  {
    var appended := Appended(s, body, observability);
    assert Step(e, s, appended);
    assert Step(e, appended, Saved(e, appended));
    assert Step(e, Saved(e, appended), Touched(e, Saved(e, appended)));
  }

  lemma PublishKeeps(e: Environment, P: RunnerState -> bool, s: RunnerState, payload: BusPayload)
    requires Kept(e, P) && P(s)
    ensures P(Publish(s, payload))
  {
    assert Step(e, s, Publish(s, payload));
  }

  lemma CallToolKeeps(e: Environment, P: RunnerState -> bool, s: RunnerState, call: Call)
    requires Kept(e, P) && P(s)
    ensures P(CallTool(e, s, call))
  {
    var started := Started(s.nextId, call.name, ArgumentsOf(call));
    assert Step(e, s, TakeId(s));
    PushKeeps(e, P, TakeId(s), ToolCall(started), None);
    PublishKeeps(e, P, Push(e, TakeId(s), ToolCall(started), None), ToolCalled(started));
    var outcome := OutcomeAfter(e, s, call);
    PushKeeps(e, P, StartTool(e, s, call), ToolCall(outcome.event), outcome.observability);
    PublishKeeps(e, P, Push(e, StartTool(e, s, call), ToolCall(outcome.event), outcome.observability),
      ToolCalled(outcome.event));
  }

  lemma StepsToStrides(e: Environment, P: RunnerState -> bool)
    requires Kept(e, P)
    ensures KeptByStrides(e, P)
  {
    forall s, s' | P(s) && Stride(e, s, s') ensures P(s') {
      if payload: BusPayload :| IsPlain(payload) && s' == Publish(s, payload) {
        PublishKeeps(e, P, s, payload);
      } else if message, observability :| s' == Push(e, s, Message(message), observability) {
        PushKeeps(e, P, s, Message(message), observability);
      } else if call :| s' == CallTool(e, s, call) {
        CallToolKeeps(e, P, s, call);
      } else {
        assert Step(e, s, s');
      }
    }
  }

  lemma {:induction false} PublishAllKeeps(e: Environment, P: RunnerState -> bool, s: RunnerState,
      payloads: seq<BusPayload>)
    requires KeptByStrides(e, P) && P(s) && forall i | 0 <= i < |payloads| :: IsPlain(payloads[i])
    ensures P(PublishAll(s, payloads))
    decreases |payloads|
  {
    if payloads == [] {
      assert s.bus + payloads == s.bus;
    } else {
      var next := Publish(s, payloads[0]);
      assert Stride(e, s, next);
      assert s.bus + payloads == next.bus + payloads[1..];
      PublishAllKeeps(e, P, next, payloads[1..]);
    }
  }

  lemma {:induction false} CallToolsKeep(e: Environment, P: RunnerState -> bool, s: RunnerState, calls: seq<Call>,
      rendered: string)
    requires KeptByStrides(e, P) && P(s)
    ensures P(CallTools(e, s, calls, rendered).state)
    decreases |calls|
  {
    if calls == [] {
    } else {
      assert Stride(e, s, CallTool(e, s, calls[0]));
      CallToolsKeep(e, P, CallTool(e, s, calls[0]), calls[1..], AddLine(rendered, OutcomeAfter(e, s, calls[0]).line));
    }
  }

  lemma AnnounceKeeps(e: Environment, P: RunnerState -> bool, s: RunnerState, message: TextMessage,
      observability: Option<Cost>)
    requires KeptByStrides(e, P) && P(s)
    ensures P(Announce(e, s, message, observability))
  {
    var pushed := Push(e, s, Message(message), observability);
    assert Stride(e, s, pushed);
    assert Stride(e, pushed, Publish(pushed, MessagePosted(message)));
  }

  lemma AnsweredKeeps(e: Environment, P: RunnerState -> bool, s: RunnerState, stream: seq<StreamItem>)
    requires KeptByStrides(e, P) && P(s)
    ensures P(Answered(e, s, stream).state)
  {
    assert Stride(e, s, Ask(e, s));
    PublishAllKeeps(e, P, Ask(e, s), Shown(stream));
    var c := Complete(e, s, stream);
    AnnounceKeeps(e, P, c.state, c.response.message, c.response.observability);
  }

  lemma FeedBackKeeps(e: Environment, P: RunnerState -> bool, s: RunnerState, calls: seq<Call>)
    requires KeptByStrides(e, P) && P(s)
    ensures P(FeedBack(e, s, calls))
  {
    CallToolsKeep(e, P, s, calls, "");
    assert Stride(e, CallTools(e, s, calls, "").state, FeedBack(e, s, calls));
  }

  lemma {:induction false} RoundsKeep(e: Environment, P: RunnerState -> bool, s: RunnerState,
      replies: seq<seq<StreamItem>>)
    requires KeptByStrides(e, P) && P(s)
    ensures P(Rounds(e, s, replies).state)
    decreases |replies|
  {
    if !e.hasProvider || replies != [] {
      var c := Answered(e, s, NextReply(replies));
      AnsweredKeeps(e, P, s, NextReply(replies));
      if c.response.finishReason == Stop {
        assert Stride(e, c.state, Publish(c.state, TurnFinished(Stop)));
      } else {
        FeedBackKeeps(e, P, c.state, c.response.toolCalls);
        RoundsKeep(e, P, FeedBack(e, c.state, c.response.toolCalls), Rest(e, replies));
      }
    }
  }

  lemma TurnKeeps(e: Environment, P: RunnerState -> bool, s: RunnerState, message: TextMessage,
      replies: seq<seq<StreamItem>>)
    requires KeptByStrides(e, P) && P(s)
    ensures P(Rounds(e, Opened(e, s, message), replies).state)
  {
    AnnounceKeeps(e, P, s, message, None);
    assert Stride(e, Announce(e, s, message, None), Opened(e, s, message));
    RoundsKeep(e, P, Opened(e, s, message), replies);
  }

  /** Whatever every stride keeps holds after every run. */
  lemma {:induction false} RunKeeps(e: Environment, P: RunnerState -> bool, s: RunnerState,
                                    inbox: seq<Command>, closed: bool, replies: seq<seq<StreamItem>>)
    requires KeptByStrides(e, P) && P(s)
    ensures P(Run(e, s, inbox, closed, replies).state)
    decreases |inbox|
  {
    if inbox == [] {
      assert Stride(e, s, HandOver(s));
    } else {
      match inbox[0]
      case SubmitUserMessage(_) => RunKeeps(e, P, s, inbox[1..], closed, replies);
      case SendUserMessage(message) =>
        var turn := MessageRun(e, s, inbox, closed, replies);
        TurnKeeps(e, P, s, message, replies);
        if turn.finished {
          RunKeeps(e, P, turn.state, inbox[1..], closed, turn.replies);
        }
      case Shutdown =>
        assert Stride(e, s, Publish(s, AgentShutdown));
        assert Stride(e, Publish(s, AgentShutdown), HandOver(Publish(s, AgentShutdown)));
    }
  }

  // --- The log is an append-only chain

  function Id(events: seq<LogEntry>, i: nat): Uuid
    requires i < |events|
  {
    events[i].event.id
  }

  /** From position `from` on, each entry's parent is the entry before it. */
  ghost predicate Chained(events: seq<LogEntry>, from: nat) {
    forall i | from <= i < |events| :: events[i].event.parentId == LastId(events[..i])
  }

  /** From position `from` on, no id repeats an earlier one. */
  ghost predicate FreshIds(events: seq<LogEntry>, from: nat) {
    forall i, j | 0 <= i < j < |events| && from <= j :: Id(events, i) != Id(events, j)
  }

  ghost predicate IdsBelow(events: seq<LogEntry>, bound: Uuid) {
    forall i | 0 <= i < |events| :: Id(events, i) < bound
  }

  /** New entries are active, on the active branch. */
  ghost predicate OnBranch(chat: Chat, from: nat) {
    forall i | from <= i < |chat.events| ::
      chat.events[i].contextState == Active && chat.events[i].event.branchId == chat.activeBranchId
  }

  function HeadOf(branches: seq<Branch>, id: BranchId): Option<Option<Uuid>> {
    if branches == [] then None
    else if branches[0].id == id then Some(branches[0].head)
    else HeadOf(branches[1..], id)
  }

  /** Every stored snapshot is a prefix of the later ones and of the log. */
  ghost predicate Growing(stored: seq<Chat>, chat: Chat) {
    (forall i, j | 0 <= i < j < |stored| :: stored[i].events <= stored[j].events)
    && (forall i | 0 <= i < |stored| :: stored[i].events <= chat.events)
  }

  ghost predicate SoundLog(start: Chat, s: RunnerState) {
    var chat, from := s.chat, |start.events|;
    chat.id == start.id && chat.activeBranchId == start.activeBranchId && start.events <= chat.events
    && Chained(chat.events, from) && FreshIds(chat.events, from) && IdsBelow(chat.events, s.nextId)
      && OnBranch(chat, from)
    && (HeadOf(chat.branches, chat.activeBranchId) == None <==> HeadOf(start.branches, start.activeBranchId) == None)
    && (|chat.events| > from ==> HeadOf(chat.branches, chat.activeBranchId) in {None, Some(LastId(chat.events))})
    && Growing(s.stored, chat)
  }

  lemma {:induction false} HeadMoved(branches: seq<Branch>, id: BranchId, head: Uuid, other: BranchId)
    ensures HeadOf(WithHead(branches, id, head), id)
         == if HeadOf(branches, id) == None then None else Some(Some(head))
    ensures other != id ==> HeadOf(WithHead(branches, id, head), other) == HeadOf(branches, other)
  {
    if branches == [] {
    } else {
      HeadMoved(branches[1..], id, head, other);
    }
  }

  lemma AppendSound(start: Chat, s: RunnerState, body: EventBody, observability: Option<Cost>)
    requires SoundLog(start, s)
    ensures SoundLog(start, Appended(s, body, observability))
  {
    var before, after := s.chat.events, Appended(s, body, observability).chat.events;
    HeadMoved(s.chat.branches, s.chat.activeBranchId, s.nextId, s.chat.activeBranchId);
    forall i | |start.events| <= i < |after| ensures after[i].event.parentId == LastId(after[..i]) {
      assert i < |before| ==> before[..i] == after[..i];
      assert i == |before| ==> after[..i] == before;
    }
    assert forall i | 0 <= i < |before| :: Id(after, i) == Id(before, i);
  }

  lemma StepSound(e: Environment, start: Chat, s: RunnerState, s': RunnerState)
    requires SoundLog(start, s) && Step(e, s, s')
    ensures SoundLog(start, s')
  {
    if body, observability :| s' == Appended(s, body, observability) {
      AppendSound(start, s, body, observability);
    } else if s' == Saved(e, s) {
      SavedSound(e, start, s);
    } else {
      QuietStep(e, s, s');
    }
  }

  lemma SavedSound(e: Environment, start: Chat, s: RunnerState)
    requires SoundLog(start, s)
    ensures SoundLog(start, Saved(e, s))
  {
  }

  lemma QuietStep(e: Environment, s: RunnerState, s': RunnerState)
    requires Step(e, s, s') && s' != Saved(e, s)
      && !exists body, observability :: s' == Appended(s, body, observability)
    ensures s'.chat == s.chat && s'.stored == s.stored && s.nextId <= s'.nextId
  {
    if payload :| s' == Publish(s, payload) {
    }
  }

  function Initial(chat: Chat, nextId: Uuid, isSubagent: bool): RunnerState {
    RunnerState(chat, [], [], None, nextId, [], isSubagent, [])
  }

  /** In every state the log is the starting log plus a chain: each entry's parent is the one
      before, ids never repeat, the active head is the last id, each stored snapshot is a
      prefix of every later one. */
  lemma LogIsChain(e: Environment, chat: Chat, nextId: Uuid, isSubagent: bool,
                   inbox: seq<Command>, closed: bool, replies: seq<seq<StreamItem>>)
    requires IdsBelow(chat.events, nextId)
    ensures SoundLog(chat, Run(e, Initial(chat, nextId, isSubagent), inbox, closed, replies).state)
  {
    var P := (s: RunnerState) => SoundLog(chat, s);
    forall s, s' | P(s) && Step(e, s, s') ensures P(s') {
      StepSound(e, chat, s, s');
    }
    StepsToStrides(e, P);
    RunKeeps(e, P, Initial(chat, nextId, isSubagent), inbox, closed, replies);
  }

  // --- Every tool start is followed by its one outcome

  predicate IsTool(entry: LogEntry) {
    entry.event.body.ToolCall?
  }

  predicate StartsTool(entry: LogEntry) {
    entry.event.body.ToolCall? && entry.event.body.toolCall.Started?
  }

  predicate Ends(entry: LogEntry, started: LogEntry)
    requires IsTool(started)
  {
    IsTool(entry) && !StartsTool(entry)
    && entry.event.body.toolCall.toolCallId == started.event.body.toolCall.toolCallId
    && entry.event.body.toolCall.toolName == started.event.body.toolCall.toolName
  }

  function ToolId(entry: LogEntry): Uuid
    requires IsTool(entry)
  {
    entry.event.body.toolCall.toolCallId
  }

  /** Tool entries come in pairs, start then outcome, with ids ascending between the bounds. */
  ghost predicate Paired(part: seq<LogEntry>, lo: Uuid, hi: Uuid) {
    if part == [] then lo <= hi
    else if !IsTool(part[0]) then Paired(part[1..], lo, hi)
    else (
      StartsTool(part[0]) && |part| > 1 && Ends(part[1], part[0])
      && lo <= ToolId(part[0]) < hi && Paired(part[2..], ToolId(part[0]) + 1, hi))
  }

  lemma {:induction false} PairedWiden(part: seq<LogEntry>, lo: Uuid, hi: Uuid, lo': Uuid, hi': Uuid)
    requires Paired(part, lo, hi) && lo' <= lo && hi <= hi'
    ensures Paired(part, lo', hi')
    decreases |part|
  {
    if part == [] {
    } else {
      if IsTool(part[0]) {
        PairedWiden(part[2..], ToolId(part[0]) + 1, hi, ToolId(part[0]) + 1, hi');
      } else {
        PairedWiden(part[1..], lo, hi, lo', hi');
      }
    }
  }

  lemma {:induction false} PairedConcat(a: seq<LogEntry>, b: seq<LogEntry>, lo: Uuid, mid: Uuid, hi: Uuid)
    requires Paired(a, lo, mid) && Paired(b, mid, hi)
    ensures Paired(a + b, lo, hi)
    decreases |a|
  {
    if a == [] {
      assert a + b == b;
      PairedWiden(b, mid, hi, lo, hi);
    } else if IsTool(a[0]) {
      assert (a + b)[2..] == a[2..] + b;
      PairedConcat(a[2..], b, ToolId(a[0]) + 1, mid, hi);
      PairedBounds(b, mid, hi);
    } else {
      assert (a + b)[1..] == a[1..] + b;
      PairedConcat(a[1..], b, lo, mid, hi);
    }
  }

  lemma {:induction false} PairedBounds(part: seq<LogEntry>, lo: Uuid, hi: Uuid)
    requires Paired(part, lo, hi)
    ensures lo <= hi
    ensures forall i | 0 <= i < |part| && IsTool(part[i]) :: lo <= ToolId(part[i]) < hi
    decreases |part|
  {
    if part == [] {
    } else {
      if IsTool(part[0]) {
        PairedBounds(part[2..], ToolId(part[0]) + 1, hi);
        assert forall i | 2 <= i < |part| :: part[i] == part[2..][i - 2];
      } else {
        PairedBounds(part[1..], lo, hi);
        assert forall i | 1 <= i < |part| :: part[i] == part[1..][i - 1];
      }
    }
  }

  /** A start is followed at once by its outcome, and no other tool entry has its id; an
      outcome follows its start at once. */
  lemma {:induction false} OneOutcomeEach(part: seq<LogEntry>, lo: Uuid, hi: Uuid, i: nat)
    requires Paired(part, lo, hi) && i < |part| && IsTool(part[i])
    ensures StartsTool(part[i]) ==> i + 1 < |part| && Ends(part[i + 1], part[i])
    ensures !StartsTool(part[i]) ==> i > 0 && StartsTool(part[i - 1]) && Ends(part[i], part[i - 1])
    ensures forall j | 0 <= j < |part| && IsTool(part[j]) && ToolId(part[j]) == ToolId(part[i]) && i != j ::
      if StartsTool(part[i]) then j == i + 1 else j == i - 1
    decreases |part|
  {
    var n := if IsTool(part[0]) then 2 else 1;
    var rest := part[n..];
    var from := if IsTool(part[0]) then ToolId(part[0]) + 1 else lo;
    PairedBounds(rest, from, hi);
    assert forall j | n <= j < |part| :: part[j] == rest[j - n];
    if i >= n {
      OneOutcomeEach(rest, from, hi, i - n);
    }
  }

  ghost predicate PairedSince(s0: RunnerState, s: RunnerState) {
    s0.chat.events <= s.chat.events && s0.nextId <= s.nextId
    && Paired(s.chat.events[|s0.chat.events|..], s0.nextId, s.nextId)
  }

  lemma PartGrows(before: seq<LogEntry>, now: seq<LogEntry>, more: seq<LogEntry>)
    requires before <= now
    ensures (now + more)[|before|..] == now[|before|..] + more
  {
  }

  lemma PushAdds(e: Environment, s: RunnerState, body: EventBody, observability: Option<Cost>)
    ensures var s' := Push(e, s, body, observability);
      s'.chat.events == s.chat.events + [Entry(s.chat, s.nextId, body, observability)] && s'.nextId == s.nextId + 1
      && s'.requests == s.requests && s'.handoffs == s.handoffs && s'.handoffOpen == s.handoffOpen
  {
  }

  lemma AnnounceToolAdds(e: Environment, s: RunnerState, event: ToolCallEvent, observability: Option<Cost>)
    ensures var s' := AnnounceTool(e, s, event, observability);
      s'.chat.events == s.chat.events + [Entry(s.chat, s.nextId, ToolCall(event), observability)]
        && s'.nextId == s.nextId + 1
      && s'.requests == s.requests && s'.handoffs == s.handoffs && s'.handoffOpen == s.handoffOpen
  {
    PushAdds(e, s, ToolCall(event), observability);
  }

  /** A tool call adds a start and its outcome to the log, and nothing else. */
  lemma CallToolAdds(e: Environment, s: RunnerState, call: Call) returns (start: LogEntry, outcome: LogEntry)
    ensures var s' := CallTool(e, s, call);
      s'.chat.events == s.chat.events + [start, outcome] && s'.nextId == s.nextId + 3
      && s'.requests == s.requests && s'.handoffs == s.handoffs && s'.handoffOpen == s.handoffOpen
    ensures StartsTool(start) && ToolId(start) == s.nextId && Ends(outcome, start)
  {
    var mid, result := StartTool(e, s, call), OutcomeAfter(e, s, call);
    var started := Started(s.nextId, call.name, ArgumentsOf(call));
    start := Entry(s.chat, s.nextId + 1, ToolCall(started), None);
    outcome := Entry(mid.chat, mid.nextId, ToolCall(result.event), result.observability);
    AnnounceToolAdds(e, TakeId(s), started, None);
    AnnounceToolAdds(e, mid, result.event, result.observability);
    Assoc(s.chat.events, [start], [outcome]);
    assert [start] + [outcome] == [start, outcome];
  }

  lemma PairIsPaired(start: LogEntry, outcome: LogEntry, hi: Uuid)
    requires StartsTool(start) && Ends(outcome, start) && ToolId(start) < hi
    ensures Paired([start, outcome], ToolId(start), hi)
  {
    assert [start, outcome][2..] == [];
  }

  lemma MorePaired(s0: RunnerState, s: RunnerState, s': RunnerState, more: seq<LogEntry>)
    requires PairedSince(s0, s) && s'.chat.events == s.chat.events + more && Paired(more, s.nextId, s'.nextId)
    ensures PairedSince(s0, s')
  {
    var before, now := s0.chat.events, s.chat.events;
    PartGrows(before, now, more);
    PairedBounds(more, s.nextId, s'.nextId);
    PairedConcat(now[|before|..], more, s0.nextId, s.nextId, s'.nextId);
  }

  lemma PushPaired(e: Environment, s0: RunnerState, s: RunnerState, message: TextMessage, observability: Option<Cost>)
    requires PairedSince(s0, s)
    ensures PairedSince(s0, Push(e, s, Message(message), observability))
  {
    var s' := Push(e, s, Message(message), observability);
    var more := [Entry(s.chat, s.nextId, Message(message), observability)];
    PushAdds(e, s, Message(message), observability);
    assert more[1..] == [];
    MorePaired(s0, s, s', more);
  }

  lemma CallToolPaired(e: Environment, s0: RunnerState, s: RunnerState, call: Call)
    requires PairedSince(s0, s)
    ensures PairedSince(s0, CallTool(e, s, call))
  {
    var start, outcome := CallToolAdds(e, s, call);
    PairIsPaired(start, outcome, s.nextId + 3);
    MorePaired(s0, s, CallTool(e, s, call), [start, outcome]);
  }

  lemma StridePaired(e: Environment, s0: RunnerState, s: RunnerState, s': RunnerState)
    requires PairedSince(s0, s) && Stride(e, s, s')
    ensures PairedSince(s0, s')
  {
    if payload :| s' == Publish(s, payload) {
    } else if message, observability :| s' == Push(e, s, Message(message), observability) {
      PushPaired(e, s0, s, message, observability);
    } else if call :| s' == CallTool(e, s, call) {
      CallToolPaired(e, s0, s, call);
    }
  }

  /** All that a run adds to the log keeps tool starts and outcomes in pairs. */
  lemma ToolsComeInPairs(e: Environment, s: RunnerState, inbox: seq<Command>, closed: bool,
      replies: seq<seq<StreamItem>>)
    ensures PairedSince(s, Run(e, s, inbox, closed, replies).state)
  {
    var P := (t: RunnerState) => PairedSince(s, t);
    forall t, t' | P(t) && Stride(e, t, t') ensures P(t') {
      StridePaired(e, s, t, t');
    }
    assert s.chat.events[|s.chat.events|..] == [];
    RunKeeps(e, P, s, inbox, closed, replies);
  }

  // --- What the model is shown

  lemma {:induction false} SpokenConcat(a: seq<LogEntry>, b: seq<LogEntry>)
    ensures Spoken(a + b) == Spoken(a) + Spoken(b)
  {
    if a == [] {
      assert a + b == b;
    } else {
      assert (a + b)[1..] == a[1..] + b;
      SpokenConcat(a[1..], b);
      Assoc(if ForModel(a[0]) then [a[0].event.body.message] else [], Spoken(a[1..]), Spoken(b));
    }
  }

  lemma PushSpeaks(e: Environment, s: RunnerState, message: TextMessage, observability: Option<Cost>)
    ensures Spoken(Push(e, s, Message(message), observability).chat.events)
         == Spoken(s.chat.events) + (if message.role == System then [] else [message])
    ensures Push(e, s, Message(message), observability).requests == s.requests
  {
    var entry := Entry(s.chat, s.nextId, Message(message), observability);
    PushAdds(e, s, Message(message), observability);
    SpokenConcat(s.chat.events, [entry]);
    assert [entry][1..] == [];
  }

  lemma ToolIsSilent(e: Environment, s: RunnerState, call: Call)
    ensures Spoken(CallTool(e, s, call).chat.events) == Spoken(s.chat.events)
    ensures CallTool(e, s, call).requests == s.requests
    ensures CallTool(e, s, call).handoffs == s.handoffs && CallTool(e, s, call).handoffOpen == s.handoffOpen
  {
    var start, outcome := CallToolAdds(e, s, call);
    SpokenConcat(s.chat.events, [start, outcome]);
    BothSilent(start, outcome);
  }

  lemma BothSilent(a: LogEntry, b: LogEntry)
    requires !ForModel(a) && !ForModel(b)
    ensures Spoken([a, b]) == []
  {
    assert [a, b][1..] == [b] && [b][1..] == [];
    assert Spoken([b]) == [] + Spoken([]);
  }

  lemma {:induction false} ToolsAreSilent(e: Environment, s: RunnerState, calls: seq<Call>, rendered: string)
    ensures var s' := CallTools(e, s, calls, rendered).state;
      Spoken(s'.chat.events) == Spoken(s.chat.events) && s'.requests == s.requests
      && s'.handoffs == s.handoffs && s'.handoffOpen == s.handoffOpen
    decreases |calls|
  {
    if calls == [] {
    } else {
      ToolIsSilent(e, s, calls[0]);
      ToolsAreSilent(e, CallTool(e, s, calls[0]), calls[1..], AddLine(rendered, OutcomeAfter(e, s, calls[0]).line));
    }
  }

  function ToldToModel(message: TextMessage): seq<TextMessage> {
    if message.role == System then [] else [message]
  }

  lemma RoundSpeaks(e: Environment, s: RunnerState, stream: seq<StreamItem>)
    ensures var c := Answered(e, s, stream);
      c.state.requests == s.requests + [RequestOf(e, s.chat)]
      && Context(e, c.state.chat) == Context(e, s.chat) + ToldToModel(c.response.message)
      && c.state.handoffs == s.handoffs && c.state.handoffOpen == s.handoffOpen
  {
    var c := Complete(e, s, stream);
    PushSpeaks(e, c.state, c.response.message, c.response.observability);
  }

  lemma FeedBackSpeaks(e: Environment, s: RunnerState, calls: seq<Call>)
    ensures var fed := FeedBack(e, s, calls);
      fed.requests == s.requests && fed.handoffs == s.handoffs && fed.handoffOpen == s.handoffOpen
      && Context(e, fed.chat) == Context(e, s.chat) + [TextMessage(User, CallTools(e, s, calls, "").rendered)]
  {
    var dispatched := CallTools(e, s, calls, "");
    ToolsAreSilent(e, s, calls, "");
    PushSpeaks(e, dispatched.state, TextMessage(User, dispatched.rendered), None);
  }

  function NextRound(e: Environment, s: RunnerState, replies: seq<seq<StreamItem>>): RunnerState {
    var c := Answered(e, s, NextReply(replies));
    FeedBack(e, c.state, c.response.toolCalls)
  }

  /** What a round adds to the context: its reply, and the results of the tools it called. */
  function RoundAdds(e: Environment, s: RunnerState, stream: seq<StreamItem>): seq<TextMessage> {
    var c := Answered(e, s, stream);
    ToldToModel(c.response.message) + [TextMessage(User, CallTools(e, c.state, c.response.toolCalls, "").rendered)]
  }

  /** A round that does not finish the turn. */
  lemma RoundContinues(e: Environment, s: RunnerState, replies: seq<seq<StreamItem>>) returns (next: RunnerState)
    requires replies != [] || !e.hasProvider
    requires Answered(e, s, NextReply(replies)).response.finishReason != Stop
    ensures Rounds(e, s, replies) == Rounds(e, next, Rest(e, replies)) && |Rest(e, replies)| < |replies|
    ensures next.requests == s.requests + [RequestOf(e, s.chat)]
    ensures next == NextRound(e, s, replies)
      && Context(e, next.chat) == Context(e, s.chat) + RoundAdds(e, s, NextReply(replies))
    ensures next.handoffs == s.handoffs && next.handoffOpen == s.handoffOpen
    ensures e.hasProvider && replies != []
  {
    next := NextRound(e, s, replies);
    NextRoundSpeaks(e, s, replies);
  }

  lemma NextRoundSpeaks(e: Environment, s: RunnerState, replies: seq<seq<StreamItem>>)
    ensures var next := NextRound(e, s, replies);
      next.requests == s.requests + [RequestOf(e, s.chat)]
      && Context(e, next.chat) == Context(e, s.chat) + RoundAdds(e, s, NextReply(replies))
      && next.handoffs == s.handoffs && next.handoffOpen == s.handoffOpen
  {
    var c := Answered(e, s, NextReply(replies));
    RoundSpeaks(e, s, NextReply(replies));
    FeedBackSpeaks(e, c.state, c.response.toolCalls);
    Assoc(Context(e, s.chat), ToldToModel(c.response.message),
      [TextMessage(User, CallTools(e, c.state, c.response.toolCalls, "").rendered)]);
  }

  /** A round that does. */
  lemma RoundFinishes(e: Environment, s: RunnerState, replies: seq<seq<StreamItem>>)
    requires replies != [] || !e.hasProvider
    requires Answered(e, s, NextReply(replies)).response.finishReason == Stop
    ensures var t := Rounds(e, s, replies);
      t.finished && t.state.requests == s.requests + [RequestOf(e, s.chat)]
      && t.state.handoffs == s.handoffs && t.state.handoffOpen == s.handoffOpen
  {
    RoundSpeaks(e, s, NextReply(replies));
  }

  /** Where a turn stands after so many rounds. */
  function AfterRounds(e: Environment, s: RunnerState, replies: seq<seq<StreamItem>>, j: nat): RunnerState
    decreases j
  {
    if j == 0 then s else AfterRounds(e, NextRound(e, s, replies), Rest(e, replies), j - 1)
  }

  /** A request made with the log as it stood in `t`, and the next one: it adds what answered
      the first, and the rendered results of exactly the tools that answer called. */
  ghost predicate Grows(e: Environment, t: RunnerState, stream: seq<StreamItem>, request: Request, next: Request) {
    var c := Answered(e, t, stream);
    request == Request(Context(e, t.chat), |t.chat.events|) && c.response == Answer(stream, None)
    && next.messages == request.messages + ToldToModel(c.response.message)
      + [TextMessage(User, CallTools(e, c.state, c.response.toolCalls, "").rendered)]
  }

  /** Request `j` of a turn was made with the log as it stood after `j` rounds and answered by
      reply `j`, and the next request, if there is one, grew by that round. */
  ghost predicate GrowsAt(e: Environment, s: RunnerState, replies: seq<seq<StreamItem>>, j: nat, requests: seq<Request>,
      n: nat) {
    n + j + 1 < |requests| ==>
      j < |replies| && Grows(e, AfterRounds(e, s, replies, j), replies[j], requests[n + j], requests[n + j + 1])
  }

  lemma {:induction false} ContextGrows(e: Environment, s: RunnerState, replies: seq<seq<StreamItem>>, j: nat)
    ensures GrowsAt(e, s, replies, j, Rounds(e, s, replies).state.requests, |s.requests|)
    decreases |replies|
  {
    if e.hasProvider && replies == [] {
    } else if Answered(e, s, NextReply(replies)).response.finishReason == Stop {
      RoundFinishes(e, s, replies);
      OneRequest(e, s, replies, j, Rounds(e, s, replies).state.requests);
    } else if j == 0 {
      var next := RoundContinues(e, s, replies);
      FirstRequest(e, next, Rest(e, replies));
      FirstGrows(e, s, replies, next);
      FirstGrowsAt(e, s, replies, next, Rounds(e, s, replies).state.requests);
    } else {
      LaterGrows(e, s, replies, j);
    }
  }

  lemma {:induction false} LaterGrows(e: Environment, s: RunnerState, replies: seq<seq<StreamItem>>, j: nat)
    requires (replies != [] || !e.hasProvider) && j > 0
    requires Answered(e, s, NextReply(replies)).response.finishReason != Stop
    ensures GrowsAt(e, s, replies, j, Rounds(e, s, replies).state.requests, |s.requests|)
    decreases |replies|, 0
  {
    var next := RoundContinues(e, s, replies);
    ContextGrows(e, next, Rest(e, replies), j - 1);
    LaterGrowsAt(e, s, replies, j, Rounds(e, s, replies).state.requests);
  }

  lemma OneRequest(e: Environment, s: RunnerState, replies: seq<seq<StreamItem>>, j: nat, requests: seq<Request>)
    requires |requests| <= |s.requests| + 1
    ensures GrowsAt(e, s, replies, j, requests, |s.requests|)
  {
  }

  lemma FirstGrowsAt(e: Environment, s: RunnerState, replies: seq<seq<StreamItem>>, next: RunnerState,
      requests: seq<Request>)
    requires replies != [] && next.requests == s.requests + [RequestOf(e, s.chat)] && next.requests <= requests
    requires |requests| > |next.requests| ==> requests[|next.requests|] == RequestOf(e, next.chat)
    requires Grows(e, s, replies[0], RequestOf(e, s.chat), RequestOf(e, next.chat))
    ensures GrowsAt(e, s, replies, 0, requests, |s.requests|)
  {
    assert requests[|s.requests|] == next.requests[|s.requests|];
    assert AfterRounds(e, s, replies, 0) == s;
  }

  lemma LaterGrowsAt(e: Environment, s: RunnerState, replies: seq<seq<StreamItem>>, j: nat, requests: seq<Request>)
    requires e.hasProvider && replies != [] && j > 0
    requires GrowsAt(e, NextRound(e, s, replies), replies[1..], j - 1, requests, |s.requests| + 1)
    ensures GrowsAt(e, s, replies, j, requests, |s.requests|)
  {
    assert AfterRounds(e, s, replies, j) == AfterRounds(e, NextRound(e, s, replies), replies[1..], j - 1);
  }

  lemma FirstGrows(e: Environment, s: RunnerState, replies: seq<seq<StreamItem>>, next: RunnerState)
    requires replies != [] && e.hasProvider && Context(e, next.chat) == Context(e, s.chat) + RoundAdds(e, s, replies[0])
    ensures Grows(e, s, replies[0], RequestOf(e, s.chat), RequestOf(e, next.chat))
  {
    var c := Answered(e, s, replies[0]);
    Assoc(Context(e, s.chat), ToldToModel(c.response.message),
      [TextMessage(User, CallTools(e, c.state, c.response.toolCalls, "").rendered)]);
  }

  /** The first request of a turn is the log as it stood. */
  lemma {:induction false} FirstRequest(e: Environment, s: RunnerState, replies: seq<seq<StreamItem>>)
    ensures s.requests <= Rounds(e, s, replies).state.requests
    ensures |Rounds(e, s, replies).state.requests| > |s.requests|
      ==> Rounds(e, s, replies).state.requests[|s.requests|] == RequestOf(e, s.chat)
    ensures Rounds(e, s, replies).state.handoffs == s.handoffs
      && Rounds(e, s, replies).state.handoffOpen == s.handoffOpen
    decreases |replies|
  {
    if !e.hasProvider || replies != [] {
      if Answered(e, s, NextReply(replies)).response.finishReason == Stop {
        RoundFinishes(e, s, replies);
      } else {
        var next := RoundContinues(e, s, replies);
        FirstRequest(e, next, Rest(e, replies));
      }
    }
  }

  /** The request is the system prompt and then what users and the agent had said, in order,
      when the log was that long. */
  ghost predicate AskedThen(e: Environment, events: seq<LogEntry>, request: Request) {
    request.logLength <= |events|
    && request.messages == [TextMessage(System, e.basePrompt)] + Spoken(events[..request.logLength])
  }

  ghost predicate RequestsSound(e: Environment, s: RunnerState) {
    (forall i | 0 <= i < |s.requests| :: AskedThen(e, s.chat.events, s.requests[i]))
    && forall i, j | 0 <= i < j < |s.requests| :: s.requests[i].logLength <= s.requests[j].logLength
  }

  lemma StepRequests(e: Environment, s: RunnerState, s': RunnerState)
    requires RequestsSound(e, s) && Step(e, s, s')
    ensures RequestsSound(e, s')
  {
    if body, observability :| s' == Appended(s, body, observability) {
      forall i | 0 <= i < |s'.requests| ensures AskedThen(e, s'.chat.events, s'.requests[i]) {
        assert AskedThen(e, s.chat.events, s.requests[i]);
        var k := s.requests[i].logLength;
        assert s'.chat.events[..k] == s.chat.events[..k];
      }
    } else if s' == Ask(e, s) {
      assert s.chat.events[..|s.chat.events|] == s.chat.events;
      assert AskedThen(e, s.chat.events, RequestOf(e, s.chat));
    } else {
      OtherKeepsRequests(e, s, s');
    }
  }

  lemma OtherKeepsRequests(e: Environment, s: RunnerState, s': RunnerState)
    requires Step(e, s, s') && s' != Ask(e, s) && !exists body, observability :: s' == Appended(s, body, observability)
    ensures s'.requests == s.requests && s'.chat == s.chat
  {
    if payload :| s' == Publish(s, payload) {
    }
  }

  /** Every request of every run is the context of the log at the length it had then, and those
      lengths never decrease. */
  lemma RequestsAreContexts(e: Environment, chat: Chat, nextId: Uuid, isSubagent: bool,
                            inbox: seq<Command>, closed: bool, replies: seq<seq<StreamItem>>)
    ensures RequestsSound(e, Run(e, Initial(chat, nextId, isSubagent), inbox, closed, replies).state)
  {
    var P := (s: RunnerState) => RequestsSound(e, s);
    forall s, s' | P(s) && Step(e, s, s') ensures P(s') {
      StepRequests(e, s, s');
    }
    StepsToStrides(e, P);
    RunKeeps(e, P, Initial(chat, nextId, isSubagent), inbox, closed, replies);
  }

  // --- What the tools' results say

  /** The line each call contributes. */
  function ResultLines(e: Environment, s: RunnerState, calls: seq<Call>): (lines: seq<string>)
    ensures |lines| == |calls|
    decreases |calls|
  {
    if calls == [] then []
    else [OutcomeAfter(e, s, calls[0]).line] + ResultLines(e, CallTool(e, s, calls[0]), calls[1..])
  }

  /** What was rendered before, parted from what follows. */
  function Leading(rendered: string): string {
    if rendered == "" then "" else rendered + "\n"
  }

  predicate BeginsWith(line: string, name: string) {
    |name| < |line| && line[..|name|] == name
  }

  lemma LineNamesTool(e: Environment, s: RunnerState, call: Call)
    ensures BeginsWith(OutcomeAfter(e, s, call).line, call.name)
  {
  }

  /** The results fed back are one line for each call, in order, each beginning with the name
      of its tool and parted from the next by a newline. */
  lemma {:induction false} ResultsAreLines(e: Environment, s: RunnerState, calls: seq<Call>, rendered: string)
    ensures calls != [] ==>
      CallTools(e, s, calls, rendered).rendered == Leading(rendered) + Join(ResultLines(e, s, calls), "\n")
    ensures forall i | 0 <= i < |calls| :: BeginsWith(ResultLines(e, s, calls)[i], calls[i].name)
    decreases |calls|
  {
    if calls == [] {
    } else {
      var line, lines := OutcomeAfter(e, s, calls[0]).line, ResultLines(e, CallTool(e, s, calls[0]), calls[1..]);
      LineNamesTool(e, s, calls[0]);
      ResultsAreLines(e, CallTool(e, s, calls[0]), calls[1..], AddLine(rendered, line));
      assert ResultLines(e, s, calls)[1..] == lines;
      JoinedOn(rendered, line, lines);
    }
  }

  lemma JoinedOn(rendered: string, line: string, lines: seq<string>)
    requires line != ""
    ensures var before := Leading(rendered);
      AddLine(rendered, line) != ""
      && AddLine(rendered, line) == before + line
      && (lines != [] ==> AddLine(rendered, line) + "\n" + Join(lines, "\n") == before + Join([line] + lines, "\n"))
      && (lines == [] ==> Join([line] + lines, "\n") == line)
  {
    assert ([line] + lines)[1..] == lines;
    var before := Leading(rendered);
    Assoc(before, line, "\n");
    Assoc(before, line + "\n", Join(lines, "\n"));
  }

  // --- Without a provider

  predicate FromUser(message: TextMessage) {
    message.role == User
  }

  /** The stand-in echoes the last user message there is, or is ready. */
  lemma {:induction false} LastUserIs(messages: seq<TextMessage>)
    ensures var said := Filter(FromUser, messages);
      LastUserContent(messages) == if said == [] then "ready" else said[|said| - 1].content
  {
    if messages == [] {
    } else {
      var n := |messages| - 1;
      assert messages == messages[..n] + [messages[n]];
      FilterConcat(FromUser, messages[..n], [messages[n]]);
      assert [messages[n]][1..] == [];
      LastUserIs(messages[..n]);
    }
  }

  /** So without a provider a turn is answered at once, by what the user said last. */
  lemma StubAnswers(e: Environment, s: RunnerState, stream: seq<StreamItem>)
    requires !e.hasProvider
    ensures var said, r := Filter(FromUser, Spoken(s.chat.events)), Complete(e, s, stream).response;
      SaysOnly(r, "stub completion: " + if said == [] then "ready" else said[|said| - 1].content)
      && Complete(e, s, stream).state.bus == s.bus
  {
    LastUserIs(Context(e, s.chat));
    FilterConcat(FromUser, [TextMessage(System, e.basePrompt)], Spoken(s.chat.events));
    assert Filter(FromUser, [TextMessage(System, e.basePrompt)]) == [] + Filter(FromUser, []);
  }

  // --- Handing over

  /** The summary is the last thing the agent said. */
  lemma {:induction false} SummaryIsLast(events: seq<LogEntry>)
    ensures LastAgentMessage(events) == None
      <==> forall i | 0 <= i < |events| ::
        !(events[i].event.body.Message? && events[i].event.body.message.role == Agent)
    ensures LastAgentMessage(events).Some? ==>
      exists i | 0 <= i < |events| && events[i].event.body.Message? && events[i].event.body.message.role == Agent ::
        events[i].event.body.message.content == LastAgentMessage(events).value
        && forall j | i < j < |events| :: !(events[j].event.body.Message? && events[j].event.body.message.role == Agent)
  {
    if events == [] {
    } else {
      var n := |events| - 1;
      SummaryIsLast(events[..n]);
      assert forall i | 0 <= i < n :: events[..n][i] == events[i];
    }
  }


  /** A subagent hands over once, when its run ends and not before, with its final log and
      the last thing it said. */
  lemma {:induction false} HandsOverAtEnd(e: Environment, s: RunnerState, inbox: seq<Command>, closed: bool,
      replies: seq<seq<StreamItem>>)
    ensures var ran := Run(e, s, inbox, closed, replies);
      if ran.phase == Ended && s.handoffOpen
      then !ran.state.handoffOpen
        && ran.state.handoffs == s.handoffs + [Handoff(ran.state.chat, LastAgentMessage(ran.state.chat.events))]
      else ran.state.handoffs == s.handoffs && ran.state.handoffOpen == s.handoffOpen
    ensures Run(e, s, inbox, closed, replies).phase == Ended ==> closed || Shutdown in inbox
    decreases |inbox|
  {
    if inbox == [] {
    } else {
      match inbox[0]
      case SubmitUserMessage(_) =>
        HandsOverAtEnd(e, s, inbox[1..], closed, replies);
      case SendUserMessage(message) =>
        var turn := MessageRun(e, s, inbox, closed, replies);
        FirstRequest(e, Opened(e, s, message), replies);
        HandsOverAtEnd(e, turn.state, inbox[1..], closed, turn.replies);
      case Shutdown =>
    }
  }

  lemma MessageRun(e: Environment, s: RunnerState, inbox: seq<Command>, closed: bool, replies: seq<seq<StreamItem>>)
      returns (turn: Turn)
    requires inbox != [] && inbox[0].SendUserMessage?
    ensures turn == Rounds(e, Opened(e, s, inbox[0].message), replies)
    ensures Run(e, s, inbox, closed, replies)
      == if turn.finished then Run(e, turn.state, inbox[1..], closed, turn.replies) else Ran(turn.state, AwaitingReply)
  {
    turn := Rounds(e, Opened(e, s, inbox[0].message), replies);
  }
}
