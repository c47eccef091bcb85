/** Tool outcomes of a runner's log, as the app draws them. */
module ToolDisplay {
  import opened Prelude
  import opened Chats
  import opened AgentRunner
  import opened AgentLog
  import opened TuiApp
  import opened LiveView
  import opened ConversationPane

  // --- The tool events of logs, streams and views

  function ToolsOf(events: seq<LogEntry>): seq<ToolCallEvent> {
    if events == [] then []
    else (if IsTool(events[0]) then [events[0].event.body.toolCall] else []) + ToolsOf(events[1..])
  }

  function ToolsTold(payloads: seq<BusPayload>): seq<ToolCallEvent> {
    if payloads == [] then []
    else (if payloads[0].ToolCalled? then [payloads[0].toolCall] else []) + ToolsTold(payloads[1..])
  }

  lemma {:induction false} ToolsOfConcat(a: seq<LogEntry>, b: seq<LogEntry>)
    ensures ToolsOf(a + b) == ToolsOf(a) + ToolsOf(b)
  {
    if a == [] {
      assert a + b == b;
    } else {
      assert (a + b)[1..] == a[1..] + b;
      ToolsOfConcat(a[1..], b);
      Assoc(if IsTool(a[0]) then [a[0].event.body.toolCall] else [], ToolsOf(a[1..]), ToolsOf(b));
    }
  }

  lemma {:induction false} ToolsToldConcat(a: seq<BusPayload>, b: seq<BusPayload>)
    ensures ToolsTold(a + b) == ToolsTold(a) + ToolsTold(b)
  {
    if a == [] {
      assert a + b == b;
    } else {
      assert (a + b)[1..] == a[1..] + b;
      ToolsToldConcat(a[1..], b);
      Assoc(if a[0].ToolCalled? then [a[0].toolCall] else [], ToolsTold(a[1..]), ToolsTold(b));
    }
  }

  lemma OneTold(payload: BusPayload)
    ensures ToolsTold([payload]) == if payload.ToolCalled? then [payload.toolCall] else []
  {
    assert [payload][1..] == [];
  }

  lemma {:induction false} LiveTools(payloads: seq<BusPayload>)
    ensures ToolsTold(Live(payloads)) == ToolsTold(payloads)
  {
    if payloads == [] {
    } else {
      LiveTools(payloads[1..]);
      var head := if IsTalk(payloads[0]) && !IsSystem(payloads[0]) then [payloads[0]] else [];
      ToolsToldConcat(head, Live(payloads[1..]));
      OneTold(payloads[0]);
    }
  }

  lemma {:induction false} SeenTools(afterTool: bool, part: seq<LogEntry>)
    ensures ToolsTold(Seen(afterTool, part)) == ToolsOf(part)
    decreases |part|
  {
    if part == [] {
    } else {
      SeenTools(IsTool(part[0]), part[1..]);
      ToolsToldConcat(SeenEntry(afterTool, part[0]), Seen(IsTool(part[0]), part[1..]));
      if SeenEntry(afterTool, part[0]) != [] {
        OneTold(SeenEntry(afterTool, part[0])[0]);
      }
    }
  }

  lemma {:induction false} QuietTools(payloads: seq<BusPayload>)
    requires IsQuiet(payloads)
    ensures ToolsTold(payloads) == []
  {
    if payloads == [] {
    } else {
      QuietTools(payloads[1..]);
    }
  }

  // --- A run publishes the tool events it logs

  ghost predicate ToolsMatch(s: RunnerState, s': RunnerState) {
    s.chat.events <= s'.chat.events && s.bus <= s'.bus
    && ToolsOf(s'.chat.events[|s.chat.events|..]) == ToolsTold(s'.bus[|s.bus|..])
  }

  lemma ToolsMatchOn(s: RunnerState, t: RunnerState, u: RunnerState)
    requires ToolsMatch(s, t) && ToolsMatch(t, u)
    ensures ToolsMatch(s, u)
  {
    Suffix(s.chat.events, t.chat.events, u.chat.events);
    Suffix(s.bus, t.bus, u.bus);
    ToolsOfConcat(t.chat.events[|s.chat.events|..], u.chat.events[|t.chat.events|..]);
    ToolsToldConcat(t.bus[|s.bus|..], u.bus[|t.bus|..]);
  }

  lemma CallMatches(e: Environment, s: RunnerState, call: Call)
    ensures ToolsMatch(s, CallTool(e, s, call))
  {
    var s' := CallTool(e, s, call);
    TellsCall(e, s, call, false);
    LiveTools(s'.bus[|s.bus|..]);
    SeenTools(false, s'.chat.events[|s.chat.events|..]);
  }

  lemma PushMatches(e: Environment, s: RunnerState, message: TextMessage, observability: Option<Cost>)
    ensures ToolsMatch(s, Push(e, s, Message(message), observability))
  {
    var s' := Push(e, s, Message(message), observability);
    PushBus(e, s, Message(message), observability);
    QuietTools(s'.bus[|s.bus|..]);
    var entry := Entry(s.chat, s.nextId, Message(message), observability);
    assert s'.chat.events[|s.chat.events|..] == [entry] && [entry][1..] == [];
  }

  lemma PublishMatches(s: RunnerState, payload: BusPayload)
    requires !payload.ToolCalled?
    ensures ToolsMatch(s, Publish(s, payload))
  {
    assert Publish(s, payload).bus[|s.bus|..] == [payload] && s.chat.events[|s.chat.events|..] == [];
    OneTold(payload);
  }

  lemma StrideMatches(e: Environment, s: RunnerState, s': RunnerState)
    requires Stride(e, s, s')
    ensures ToolsMatch(s, s')
  {
    if payload: BusPayload :| IsPlain(payload) && s' == Publish(s, payload) {
      PublishMatches(s, payload);
    } else if message, observability :| s' == Push(e, s, Message(message), observability) {
      PushMatches(e, s, message, observability);
    } else if call :| s' == CallTool(e, s, call) {
      CallMatches(e, s, call);
    } else {
      SameMatches(s, s');
    }
  }

  lemma SameMatches(s: RunnerState, s': RunnerState)
    requires s'.bus == s.bus && s'.chat == s.chat
    ensures ToolsMatch(s, s')
  {
    assert s'.bus[|s.bus|..] == [] && s'.chat.events[|s.chat.events|..] == [];
  }

  lemma RunTellsTools(e: Environment, s: RunnerState, inbox: seq<Command>, closed: bool, replies: seq<Stream>)
    ensures ToolsMatch(s, Run(e, s, inbox, closed, replies).state)
  {
    var P := (t: RunnerState) => ToolsMatch(s, t);
    forall t, t' | P(t) && Stride(e, t, t') ensures P(t') {
      StrideMatches(e, t, t');
      ToolsMatchOn(s, t, t');
    }
    assert s.bus[|s.bus|..] == [] && s.chat.events[|s.chat.events|..] == [];
    RunKeeps(e, P, s, inbox, closed, replies);
  }

  // --- Both views show the tool events of the log

  ghost predicate AllInUse(chat: Chat, events: seq<LogEntry>) {
    forall i | 0 <= i < |events| :: InUse(chat, events[i])
  }

  lemma {:induction false} RestoredTools(chat: Chat, events: seq<LogEntry>, ids: set<Uuid>)
    requires AllInUse(chat, events)
    ensures ToolsTold(RestoredAll(chat, events, ids)) == ToolsOf(events)
  {
    if events == [] {
    } else {
      RestoredTools(chat, events[1..], ids);
      var first := Restored(chat, events[0], ids);
      ToolsToldConcat(first, RestoredAll(chat, events[1..], ids));
      if first != [] {
        OneTold(first[0]);
      }
    }
  }

  lemma RestoredViewTools(chat: Chat)
    requires OnBranch(chat, 0)
    ensures ToolsTold(RestoredView(chat)) == ToolsOf(chat.events)
  {
    RestoredViewIs(chat);
    RestoredTools(chat, chat.events, ToolEventIds(chat, chat.events));
  }

  lemma LiveViewTools(start: Chat, s0: RunnerState, ran: RunnerState, v: View, events: seq<BusEvent>)
    requires OnBranch(start, 0) && Watched(start, ran, v, events)
    requires s0.chat == start && s0.bus == [] && ToolsMatch(s0, ran)
    ensures ToolsTold(LiveTalk(v, events, start.id)) == ToolsOf(ran.chat.events)
  {
    LiveTalkIs(start, ran, v, events);
    RestoredViewTools(start);
    ToolsToldConcat(RestoredView(start), Live(ran.bus));
    LiveTools(ran.bus);
    assert ran.bus[0..] == ran.bus;
    ToolsOfConcat(start.events, ran.chat.events[|start.events|..]);
    assert ran.chat.events == start.events + ran.chat.events[|start.events|..];
  }

  // --- What is drawn depends on the tool events shown

  function StartsIn(tools: seq<ToolCallEvent>, id: Uuid): nat {
    if tools == [] then 0
    else
      var last := tools[|tools| - 1];
      StartsIn(tools[..|tools| - 1], id) + (if last.Started? && last.toolCallId == id then 1 else 0)
  }

  function LastOutcome(tools: seq<ToolCallEvent>, id: Uuid): Option<ToolCallEvent> {
    if tools == [] then None
    else
      var last := tools[|tools| - 1];
      if !last.Started? && last.toolCallId == id then Some(last) else LastOutcome(tools[..|tools| - 1], id)
  }

  /** Nobody else's tool call has this id. */
  ghost predicate OwnTool(history: seq<HistoryEntry>, chatId: Uuid, id: Uuid) {
    forall i | 0 <= i < |history| && (IsStart(history[i]) || IsOutcome(history[i]))
      && EventOf(history[i]).toolCallId == id ::
      history[i].chatId == chatId
  }

  function ShownTools(history: seq<HistoryEntry>, chatId: Uuid): seq<ToolCallEvent> {
    ToolsTold(Conversation(EntriesFor(history, chatId)))
  }

  lemma ShownLast(history: seq<HistoryEntry>, entry: HistoryEntry, chatId: Uuid)
    ensures ShownTools(history + [entry], chatId) == ShownTools(history, chatId)
      + (if entry.chatId == chatId && (IsStart(entry) || IsOutcome(entry)) then [EventOf(entry)] else [])
  {
    var entries := EntriesFor(history, chatId);
    EntriesForOne(history, entry, chatId);
    if entry.chatId != chatId {
      assert entries + [] == entries;
    } else {
      var talk := if entry.payload.Bus? && IsTalk(entry.payload.payload) then [entry.payload.payload] else [];
      OneEntry(entries, entry.payload);
      ToolsToldConcat(Conversation(entries), talk);
      if talk != [] {
        OneTold(talk[0]);
      }
    }
  }

  /** One more tool event. */
  lemma ToolsLast(tools: seq<ToolCallEvent>, event: ToolCallEvent, id: Uuid)
    ensures StartsIn(tools + [event], id)
      == StartsIn(tools, id) + (if event.Started? && event.toolCallId == id then 1 else 0)
    ensures LastOutcome(tools + [event], id)
         == if !event.Started? && event.toolCallId == id then Some(event) else LastOutcome(tools, id)
  {
    assert (tools + [event])[..|tools|] == tools;
  }

  /** One more entry. */
  lemma HistoryLast(before: seq<HistoryEntry>, entry: HistoryEntry, id: Uuid)
    ensures Starts(before + [entry], id)
      == Starts(before, id) + (if IsStart(entry) && EventOf(entry).toolCallId == id then 1 else 0)
    ensures OutcomeFor(before + [entry], id)
         == if IsOutcome(entry) && EventOf(entry).toolCallId == id then Some(EventOf(entry)) else OutcomeFor(before, id)
  {
    assert (before + [entry])[..|before|] == before;
  }

  function OutcomeFor(history: seq<HistoryEntry>, id: Uuid): Option<ToolCallEvent> {
    if id in OutcomesIn(history) then Some(OutcomesIn(history)[id]) else None
  }

  lemma {:induction false} HistoryTools(history: seq<HistoryEntry>, chatId: Uuid, id: Uuid)
    requires OwnTool(history, chatId, id)
    ensures Starts(history, id) == StartsIn(ShownTools(history, chatId), id)
    ensures OutcomeFor(history, id) == LastOutcome(ShownTools(history, chatId), id)
  {
    if history == [] {
    } else {
      var n := |history| - 1;
      var before, entry := history[..n], history[n];
      assert history == before + [entry];
      assert OwnTool(before, chatId, id);
      HistoryTools(before, chatId, id);
      HistoryLast(before, entry, id);
      ShownLast(before, entry, chatId);
      ToolsStep(before, entry, chatId, id);
    }
  }

  lemma ToolsStep(before: seq<HistoryEntry>, entry: HistoryEntry, chatId: Uuid, id: Uuid)
    requires (IsStart(entry) || IsOutcome(entry)) && EventOf(entry).toolCallId == id ==> entry.chatId == chatId
    ensures var tools := ShownTools(before, chatId);
      var tools' := tools + (if entry.chatId == chatId
        && (IsStart(entry) || IsOutcome(entry)) then [EventOf(entry)] else []);
      StartsIn(tools', id) == StartsIn(tools, id) + (if IsStart(entry) && EventOf(entry).toolCallId == id then 1 else 0)
      && LastOutcome(tools', id) == if IsOutcome(entry)
        && EventOf(entry).toolCallId == id then Some(EventOf(entry)) else LastOutcome(tools, id)
  {
    var tools := ShownTools(before, chatId);
    if entry.chatId == chatId && (IsStart(entry) || IsOutcome(entry)) {
      ToolsLast(tools, EventOf(entry), id);
    } else {
      assert tools + [] == tools;
    }
  }

  // --- In a paired log each outcome has one start, and is the last with its id

  ghost predicate OutcomeOnce(tools: seq<ToolCallEvent>, event: ToolCallEvent) {
    StartsIn(tools, event.toolCallId) == 1 && LastOutcome(tools, event.toolCallId) == Some(event)
  }

  ghost predicate IdsBetween(tools: seq<ToolCallEvent>, lo: Uuid, hi: Uuid) {
    forall i | 0 <= i < |tools| :: lo <= tools[i].toolCallId < hi
  }

  lemma {:induction false} FrontTools(a: seq<ToolCallEvent>, b: seq<ToolCallEvent>, id: Uuid)
    ensures StartsIn(a + b, id) == StartsIn(a, id) + StartsIn(b, id)
    ensures LastOutcome(a + b, id) == if LastOutcome(b, id).Some? then LastOutcome(b, id) else LastOutcome(a, id)
    decreases |b|
  {
    if b == [] {
      assert a + b == a;
    } else {
      var n := |b| - 1;
      assert (a + b)[..|a| + n] == a + b[..n];
      FrontTools(a, b[..n], id);
    }
  }

  lemma {:induction false} NotBetween(tools: seq<ToolCallEvent>, lo: Uuid, hi: Uuid, id: Uuid)
    requires IdsBetween(tools, lo, hi) && !(lo <= id < hi)
    ensures StartsIn(tools, id) == 0 && LastOutcome(tools, id) == None
  {
    if tools == [] {
    } else {
      NotBetween(tools[..|tools| - 1], lo, hi, id);
    }
  }

  lemma PairFirst(start: ToolCallEvent, outcome: ToolCallEvent, id: Uuid)
    requires start.Started? && !outcome.Started? && start.toolCallId == outcome.toolCallId
    ensures StartsIn([start, outcome], id) == if start.toolCallId == id then 1 else 0
    ensures LastOutcome([start, outcome], id) == if start.toolCallId == id then Some(outcome) else None
  {
    assert [start, outcome][..1] == [start] && [start][..0] == [];
    assert StartsIn([start], id) == (if start.toolCallId == id then 1 else 0) && LastOutcome([start], id) == None;
  }

  /** An outcome in a paired log is the one of its id, after one start. */
  ghost predicate OnceAt(part: seq<LogEntry>, tools: seq<ToolCallEvent>, i: nat) {
    i < |part| && IsTool(part[i]) && !StartsTool(part[i]) ==> OutcomeOnce(tools, part[i].event.body.toolCall)
  }

  lemma {:induction false} PairedOnce(part: seq<LogEntry>, lo: Uuid, hi: Uuid, i: nat)
    requires Paired(part, lo, hi)
    ensures IdsBetween(ToolsOf(part), lo, hi) && OnceAt(part, ToolsOf(part), i)
    decreases |part|
  {
    if part == [] {
    } else if IsTool(part[0]) {
      PairedOnce(part[2..], ToolId(part[0]) + 1, hi, if i > 1 then i - 2 else 0);
      PairOnce(part, lo, hi, i);
    } else {
      PairedOnce(part[1..], lo, hi, if i > 0 then i - 1 else 0);
      SkipOnce(part, i);
    }
  }

  lemma SkipOnce(part: seq<LogEntry>, i: nat)
    requires part != [] && !IsTool(part[0]) && OnceAt(part[1..], ToolsOf(part[1..]), if i > 0 then i - 1 else 0)
    ensures ToolsOf(part) == ToolsOf(part[1..]) && OnceAt(part, ToolsOf(part), i)
  {
    assert 0 < i < |part| ==> part[1..][i - 1] == part[i];
  }

  lemma PairTools(part: seq<LogEntry>)
    requires |part| > 1 && IsTool(part[0]) && IsTool(part[1])
    ensures ToolsOf(part) == [part[0].event.body.toolCall, part[1].event.body.toolCall] + ToolsOf(part[2..])
  {
    assert part[1..][1..] == part[2..];
    TwoFirst(part[0].event.body.toolCall, part[1].event.body.toolCall, ToolsOf(part[2..]));
  }

  lemma PairOnce(part: seq<LogEntry>, lo: Uuid, hi: Uuid, i: nat)
    requires Paired(part, lo, hi) && part != [] && IsTool(part[0])
    requires IdsBetween(ToolsOf(part[2..]), ToolId(part[0]) + 1, hi)
    requires OnceAt(part[2..], ToolsOf(part[2..]), if i > 1 then i - 2 else 0)
    ensures IdsBetween(ToolsOf(part), lo, hi) && OnceAt(part, ToolsOf(part), i)
  {
    var start, outcome, rest := part[0].event.body.toolCall, part[1].event.body.toolCall, ToolsOf(part[2..]);
    PairTools(part);
    if i < |part| && IsTool(part[i]) && !StartsTool(part[i]) {
      var id := ToolId(part[i]);
      PairFirst(start, outcome, id);
      FrontTools([start, outcome], rest, id);
      if i > 1 {
        assert part[2..][i - 2] == part[i];
        PairedIn(part[2..], ToolId(part[0]) + 1, hi, i - 2);
      } else {
        NotBetween(rest, ToolId(part[0]) + 1, hi, id);
      }
    }
  }

  lemma PairedIn(part: seq<LogEntry>, lo: Uuid, hi: Uuid, i: nat)
    requires Paired(part, lo, hi) && i < |part| && IsTool(part[i])
    ensures lo <= ToolId(part[i]) < hi
  {
    PairedBounds(part, lo, hi);
  }

  // --- The results

  /** An app that shows a paired log's tool events draws each outcome once. */
  lemma ShownDrawsOnce(chat: Chat, lo: Uuid, hi: Uuid, v: View, phase: nat, width: nat, i: nat)
    requires Paired(chat.events, lo, hi) && i < |chat.events| && IsTool(chat.events[i]) && !StartsTool(chat.events[i])
    requires ShownTools(v.history, chat.id) == ToolsOf(chat.events)
      && OwnTool(v.history, chat.id, ToolId(chat.events[i]))
    ensures TimesDrawn(Fresh(v, phase, width), chat.events[i].event.body.toolCall) == 1
  {
    PairedOnce(chat.events, lo, hi, i);
    HistoryTools(v.history, chat.id, ToolId(chat.events[i]));
    OutcomeDrawnPerStart(v, phase, width, chat.events[i].event.body.toolCall);
  }

  /** A chat as a runner leaves it: tool entries in pairs, all on the active branch. */
  ghost predicate WellKept(chat: Chat, first: Uuid) {
    Paired(chat.events, 0, first) && OnBranch(chat, 0) && IdsBelow(chat.events, first)
  }

  /** Runs leave chats as they need to find them. */
  lemma RunKeepsWell(e: Environment, start: Chat, first: Uuid, isSubagent: bool, inbox: seq<Command>, closed: bool,
      replies: seq<Stream>)
    requires WellKept(start, first)
    ensures var ran := Run(e, Initial(start, first, isSubagent), inbox, closed, replies).state;
      WellKept(ran.chat, ran.nextId) && start.events <= ran.chat.events && ran.chat.id == start.id
  {
    var s0 := Initial(start, first, isSubagent);
    var ran := Run(e, s0, inbox, closed, replies).state;
    LogIsChain(e, start, first, isSubagent, inbox, closed, replies);
    ToolsComeInPairs(e, s0, inbox, closed, replies);
    var part := ran.chat.events[|start.events|..];
    assert ran.chat.events == start.events + part;
    PairedConcat(start.events, part, 0, first, ran.nextId);
  }

  /** Whatever a run did, from a new chat or a resumed one, an app draws every tool outcome of
      its log exactly once, whether it followed the run live, mixed with any other chats, or
      restored the log. */
  lemma OutcomesDrawnOnce(e: Environment, start: Chat, first: Uuid, isSubagent: bool, inbox: seq<Command>, closed: bool,
                          replies: seq<Stream>, v: View, events: seq<BusEvent>, phase: nat, width: nat, i: nat)
    requires WellKept(start, first)
    requires var ran := Run(e, Initial(start, first, isSubagent), inbox, closed, replies).state;
      var shown := Replay(v, events);
      (Watched(start, ran, v, events)
        || (events == [] && Conversation(ViewOf(v, start.id).entries) == RestoredView(ran.chat)))
      && i < |ran.chat.events| && IsTool(ran.chat.events[i]) && !StartsTool(ran.chat.events[i])
      && OwnTool(shown.history, start.id, ToolId(ran.chat.events[i]))
    ensures var chat := Run(e, Initial(start, first, isSubagent), inbox, closed, replies).state.chat;
      TimesDrawn(Fresh(Replay(v, events), phase, width), chat.events[i].event.body.toolCall) == 1
  {
    var s0 := Initial(start, first, isSubagent);
    var ran := Run(e, s0, inbox, closed, replies).state;
    RunKeepsWell(e, start, first, isSubagent, inbox, closed, replies);
    if Watched(start, ran, v, events) {
      RunTellsTools(e, s0, inbox, closed, replies);
      LiveViewTools(start, s0, ran, v, events);
    } else {
      RestoredViewTools(ran.chat);
    }
    ShownDrawsOnce(ran.chat, 0, ran.nextId, Replay(v, events), phase, width, i);
  }
}
