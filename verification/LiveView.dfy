/** The conversation followed live on the bus is the conversation restored from the log. */
module LiveView {
  import opened Prelude
  import opened Chats
  import CompletionStream
  import opened AgentRunner
  import opened AgentLog
  import opened TuiApp

  type Stream = seq<CompletionStream.StreamItem>

  // --- What the two views are compared on: messages and tool calls

  predicate IsTalk(payload: BusPayload) {
    payload.MessagePosted? || payload.ToolCalled?
  }

  function Conversation(entries: seq<HistoryPayload>): seq<BusPayload> {
    if entries == [] then []
    else
      (if entries[0].Bus? && IsTalk(entries[0].payload) then [entries[0].payload] else []) + Conversation(entries[1..])
  }

  /** The talk among published payloads, without system messages. */
  function Live(payloads: seq<BusPayload>): seq<BusPayload> {
    if payloads == [] then []
    else HeadTalk(payloads[0]) + Live(payloads[1..])
  }

  function HeadTalk(payload: BusPayload): seq<BusPayload> {
    if IsTalk(payload) && !IsSystem(payload) then [payload] else []
  }

  predicate IsSystem(payload: BusPayload) {
    payload.MessagePosted? && payload.message.role == System
  }

  lemma {:induction false} ConversationConcat(a: seq<HistoryPayload>, b: seq<HistoryPayload>)
    ensures Conversation(a + b) == Conversation(a) + Conversation(b)
  {
    if a == [] {
      assert a + b == b;
    } else {
      assert (a + b)[1..] == a[1..] + b;
      ConversationConcat(a[1..], b);
      Assoc(if a[0].Bus? && IsTalk(a[0].payload) then [a[0].payload] else [], Conversation(a[1..]), Conversation(b));
    }
  }

  lemma {:induction false} LiveConcat(a: seq<BusPayload>, b: seq<BusPayload>)
    ensures Live(a + b) == Live(a) + Live(b)
  {
    if a == [] {
      assert a + b == b;
    } else {
      assert (a + b)[1..] == a[1..] + b;
      LiveConcat(a[1..], b);
      Assoc(if IsTalk(a[0]) && !IsSystem(a[0]) then [a[0]] else [], Live(a[1..]), Live(b));
    }
  }

  lemma OneEntry(entries: seq<HistoryPayload>, entry: HistoryPayload)
    ensures Conversation(entries + [entry])
         == Conversation(entries) + (if entry.Bus? && IsTalk(entry.payload) then [entry.payload] else [])
  {
    ConversationConcat(entries, [entry]);
    assert [entry][1..] == [];
  }

  lemma FollowTalk(c: ChatView, payload: BusPayload)
    ensures Conversation(Follow(c, payload).entries)
         == Conversation(c.entries) + HeadTalk(payload)
  {
    OneEntry(c.entries, Bus(payload));
    if payload.MessagePosted? && payload.message.role == Agent {
      if OrEmpty(c.thinking) != "" {
        var thought := Thinking(c.thinking.value);
        OneEntry(c.entries, thought);
        OneEntry(c.entries + [thought], Bus(payload));
      } else {
        assert c.entries + [] == c.entries;
      }
    }
  }

  /** Followed live, a chat's conversation grows by its published talk. */
  lemma {:induction false} FollowedLive(c: ChatView, payloads: seq<BusPayload>)
    ensures Conversation(FollowAll(c, payloads).entries) == Conversation(c.entries) + Live(payloads)
    decreases |payloads|
  {
    if payloads == [] {
    } else {
      var next, head, rest := Follow(c, payloads[0]), HeadTalk(payloads[0]), payloads[1..];
      FollowTalk(c, payloads[0]);
      FollowedLive(next, rest);
      Assoc(Conversation(c.entries), head, Live(rest));
      calc {
        Conversation(FollowAll(c, payloads).entries);
        Conversation(FollowAll(next, rest).entries);
        (Conversation(c.entries) + head) + Live(rest);
        Conversation(c.entries) + Live(payloads);
      }
    }
  }

  // --- What a growing log restores to

  /** New log entries as restored: a user message right after a tool entry stays hidden. */
  function Seen(afterTool: bool, part: seq<LogEntry>): seq<BusPayload>
    decreases |part|
  {
    if part == [] then []
    else SeenEntry(afterTool, part[0]) + Seen(IsTool(part[0]), part[1..])
  }

  function SeenEntry(afterTool: bool, entry: LogEntry): seq<BusPayload> {
    match entry.event.body
    case Message(message) =>
      if message.role == System || (message.role == User && afterTool) then [] else [MessagePosted(message)]
    case ToolCall(event) => [ToolCalled(event)]
    case AppEvent => []
  }

  predicate EndsTool(afterTool: bool, part: seq<LogEntry>) {
    if part == [] then afterTool else IsTool(part[|part| - 1])
  }

  lemma {:induction false} SeenConcat(afterTool: bool, a: seq<LogEntry>, b: seq<LogEntry>)
    ensures Seen(afterTool, a + b) == Seen(afterTool, a) + Seen(EndsTool(afterTool, a), b)
    decreases |a|
  {
    if a == [] {
      assert a + b == b;
    } else {
      assert (a + b)[1..] == a[1..] + b;
      SeenConcat(IsTool(a[0]), a[1..], b);
      Assoc(SeenEntry(afterTool, a[0]), Seen(IsTool(a[0]), a[1..]), Seen(EndsTool(afterTool, a), b));
    }
  }

  /** The log ends in an entry whose followers count as tool results. */
  predicate AfterTool(chat: Chat) {
    chat.events != [] && LastId(chat.events).value in ToolEventIds(chat, chat.events)
  }

  /** All ids and parents in the log were made before `first`; all added since, after. */
  ghost predicate MadeBefore(chat: Chat, first: Uuid) {
    forall i | 0 <= i < |chat.events| ::
      chat.events[i].event.id < first
        && (chat.events[i].event.parentId.Some? ==> chat.events[i].event.parentId.value < first)
  }

  ghost predicate Grown(start: Chat, first: Uuid, s: RunnerState) {
    SoundLog(start, s) && first <= s.nextId && Newer(s.chat.events, |start.events|, first)
  }

  lemma StepGrown(e: Environment, start: Chat, first: Uuid, s: RunnerState, s': RunnerState)
    requires Grown(start, first, s) && Step(e, s, s')
    ensures Grown(start, first, s')
  {
    StepSound(e, start, s, s');
    if body, observability :| s' == Appended(s, body, observability) {
      AppendNewer(s, body, observability, |start.events|, first);
    } else {
      OtherStep(e, s, s');
    }
  }

  ghost predicate Newer(events: seq<LogEntry>, from: nat, first: Uuid) {
    forall i | from <= i < |events| :: first <= Id(events, i)
  }

  lemma AppendNewer(s: RunnerState, body: EventBody, observability: Option<Cost>, from: nat, first: Uuid)
    requires Newer(s.chat.events, from, first) && first <= s.nextId
    ensures Newer(Appended(s, body, observability).chat.events, from, first)
      && first <= Appended(s, body, observability).nextId
  {
    var events' := Appended(s, body, observability).chat.events;
    assert forall i | 0 <= i < |s.chat.events| :: Id(events', i) == Id(s.chat.events, i);
  }

  lemma OtherStep(e: Environment, s: RunnerState, s': RunnerState)
    requires Step(e, s, s') && !exists body, observability :: s' == Appended(s, body, observability)
    ensures s'.chat == s.chat && s.nextId <= s'.nextId
  {
    if payload :| s' == Publish(s, payload) {
    }
  }

  lemma RunGrown(e: Environment, start: Chat, first: Uuid, isSubagent: bool, inbox: seq<Command>, closed: bool,
      replies: seq<Stream>)
    requires MadeBefore(start, first)
    ensures Grown(start, first, Run(e, Initial(start, first, isSubagent), inbox, closed, replies).state)
  {
    var P := (s: RunnerState) => Grown(start, first, s);
    forall s, s' | P(s) && Step(e, s, s') ensures P(s') {
      StepGrown(e, start, first, s, s');
    }
    StepsToStrides(e, P);
    RunKeeps(e, P, Initial(start, first, isSubagent), inbox, closed, replies);
  }

  lemma ToolIdAt(start: Chat, first: Uuid, s: RunnerState, k: nat)
    requires Grown(start, first, s) && |start.events| <= k < |s.chat.events|
    ensures Id(s.chat.events, k) in ToolEventIds(s.chat, s.chat.events) <==> IsTool(s.chat.events[k])
  {
    var events, ids := s.chat.events, ToolEventIds(s.chat, s.chat.events);
    if Id(events, k) in ids {
      var i :| 0 <= i < |events| && InUse(s.chat, events[i]) && events[i].event.body.ToolCall?
        && Id(events, i) == Id(events, k);
      assert i == k;
    }
  }

  lemma OldToolId(start: Chat, first: Uuid, s: RunnerState, id: Uuid)
    requires Grown(start, first, s) && MadeBefore(start, first) && id < first
    ensures id in ToolEventIds(s.chat, s.chat.events) <==> id in ToolEventIds(start, start.events)
  {
    var events := s.chat.events;
    if id in ToolEventIds(s.chat, events) {
      var i :| 0 <= i < |events| && InUse(s.chat, events[i]) && events[i].event.body.ToolCall? && Id(events, i) == id;
      assert i < |start.events|;
      assert start.events[i] == events[i];
    }
    if id in ToolEventIds(start, start.events) {
      var i :| 0 <= i < |start.events| && InUse(start, start.events[i]) && start.events[i].event.body.ToolCall?
        && start.events[i].event.id == id;
      assert start.events[i] == events[i];
    }
  }

  lemma {:induction false} RestoredConcat(chat: Chat, a: seq<LogEntry>, b: seq<LogEntry>, ids: set<Uuid>)
    ensures RestoredAll(chat, a + b, ids) == RestoredAll(chat, a, ids) + RestoredAll(chat, b, ids)
  {
    if a == [] {
      assert a + b == b;
    } else {
      assert (a + b)[1..] == a[1..] + b;
      RestoredConcat(chat, a[1..], b, ids);
      Assoc(Restored(chat, a[0], ids), RestoredAll(chat, a[1..], ids), RestoredAll(chat, b, ids));
    }
  }

  lemma {:induction false} OldPart(start: Chat, first: Uuid, s: RunnerState, k: nat)
    requires Grown(start, first, s) && MadeBefore(start, first) && k <= |start.events|
    ensures RestoredAll(s.chat, start.events[k..], ToolEventIds(s.chat, s.chat.events))
         == RestoredAll(start, start.events[k..], ToolEventIds(start, start.events))
    decreases |start.events| - k
  {
    if k < |start.events| {
      var part := start.events[k..];
      assert part[1..] == start.events[k + 1..];
      OldPart(start, first, s, k + 1);
      if part[0].event.parentId.Some? {
        OldToolId(start, first, s, part[0].event.parentId.value);
      }
    }
  }

  /** Whether the entry at `k` follows a tool entry, in a part that begins at `from`. */
  predicate Follows(events: seq<LogEntry>, from: nat, afterTool: bool, k: nat)
    requires from <= k <= |events|
  {
    if k == from then afterTool else IsTool(events[k - 1])
  }

  lemma NewEntry(start: Chat, first: Uuid, s: RunnerState, k: nat)
    requires Grown(start, first, s) && MadeBefore(start, first) && |start.events| <= k < |s.chat.events|
    ensures Restored(s.chat, s.chat.events[k], ToolEventIds(s.chat, s.chat.events))
         == SeenEntry(Follows(s.chat.events, |start.events|, AfterTool(start), k), s.chat.events[k])
  {
    var events := s.chat.events;
    assert events[k].event.parentId == LastId(events[..k]);
    if k > |start.events| {
      ToolIdAt(start, first, s, k - 1);
    } else if k > 0 {
      assert events[..k] == start.events;
      OldToolId(start, first, s, LastId(start.events).value);
    }
  }

  lemma OneOn(chat: Chat, events: seq<LogEntry>, ids: set<Uuid>, afterTool: bool, k: nat)
    requires k < |events|
    ensures RestoredAll(chat, events[k..], ids)
      == Restored(chat, events[k], ids) + RestoredAll(chat, events[k + 1..], ids)
    ensures Seen(afterTool, events[k..]) == SeenEntry(afterTool, events[k]) + Seen(IsTool(events[k]), events[k + 1..])
  {
    assert events[k..][1..] == events[k + 1..];
  }

  predicate SeenAsRestored(chat: Chat, events: seq<LogEntry>, ids: set<Uuid>, from: nat, afterTool: bool, k: nat)
    requires from <= k < |events|
  {
    Restored(chat, events[k], ids) == SeenEntry(Follows(events, from, afterTool, k), events[k])
  }

  lemma {:induction false} PartSeen(chat: Chat, events: seq<LogEntry>, ids: set<Uuid>, from: nat, afterTool: bool,
      k: nat)
    requires from <= k <= |events|
    requires forall j | from <= j < |events| :: SeenAsRestored(chat, events, ids, from, afterTool, j)
    ensures RestoredAll(chat, events[k..], ids) == Seen(Follows(events, from, afterTool, k), events[k..])
    decreases |events| - k
  {
    if k < |events| {
      assert SeenAsRestored(chat, events, ids, from, afterTool, k);
      OneOn(chat, events, ids, Follows(events, from, afterTool, k), k);
      PartSeen(chat, events, ids, from, afterTool, k + 1);
    }
  }

  lemma NewPart(start: Chat, first: Uuid, s: RunnerState)
    requires Grown(start, first, s) && MadeBefore(start, first)
    ensures RestoredAll(s.chat, s.chat.events[|start.events|..], ToolEventIds(s.chat, s.chat.events))
         == Seen(AfterTool(start), s.chat.events[|start.events|..])
  {
    var n, events, ids := |start.events|, s.chat.events, ToolEventIds(s.chat, s.chat.events);
    forall j | n <= j < |events| ensures SeenAsRestored(s.chat, events, ids, n, AfterTool(start), j) {
      NewEntry(start, first, s, j);
    }
    PartSeen(s.chat, events, ids, n, AfterTool(start), n);
  }

  /** A grown log restores to what it restored to before, and what is seen of the new part. */
  lemma GrownRestores(start: Chat, first: Uuid, s: RunnerState)
    requires Grown(start, first, s) && MadeBefore(start, first)
    ensures RestoredAll(s.chat, s.chat.events, ToolEventIds(s.chat, s.chat.events))
         == RestoredAll(start, start.events, ToolEventIds(start, start.events))
            + Seen(AfterTool(start), s.chat.events[|start.events|..])
  {
    var part := s.chat.events[|start.events|..];
    assert s.chat.events == start.events + part;
    RestoredConcat(s.chat, start.events, part, ToolEventIds(s.chat, s.chat.events));
    OldPart(start, first, s, 0);
    NewPart(start, first, s);
    assert start.events[0..] == start.events;
  }

  // --- What a run publishes against what it logs

  /** What the runner logs when it goes on without having called a tool. */
  const EMPTY_RESULTS: BusPayload := MessagePosted(TextMessage(User, ""))

  /** All but those. */
  function Telling(payloads: seq<BusPayload>): seq<BusPayload> {
    if payloads == [] then []
    else (if payloads[0] == EMPTY_RESULTS then [] else [payloads[0]]) + Telling(payloads[1..])
  }

  lemma {:induction false} TellingConcat(a: seq<BusPayload>, b: seq<BusPayload>)
    ensures Telling(a + b) == Telling(a) + Telling(b)
  {
    if a == [] {
      assert a + b == b;
    } else {
      assert (a + b)[1..] == a[1..] + b;
      TellingConcat(a[1..], b);
      Assoc(if a[0] == EMPTY_RESULTS then [] else [a[0]], Telling(a[1..]), Telling(b));
    }
  }

  /** `seen` is what was told, in order, and besides only so many empty result messages. */
  ghost predicate Besides(seen: seq<BusPayload>, told: seq<BusPayload>, extra: nat) {
    |seen| == |told| + extra && Telling(seen) == Telling(told) && (extra == 0 ==> seen == told)
  }

  lemma BesidesConcat(a: seq<BusPayload>, x: seq<BusPayload>, m: nat, b: seq<BusPayload>, y: seq<BusPayload>, n: nat)
    requires Besides(a, x, m) && Besides(b, y, n)
    ensures Besides(a + b, x + y, m + n)
  {
    TellingConcat(a, b);
    TellingConcat(x, y);
  }

  /** From `s` to `s'` the log shows what was published, in order, and besides only `extra`
      empty result messages. */
  ghost predicate Tells(s: RunnerState, s': RunnerState, afterTool: bool, afterTool': bool, extra: nat) {
    s.chat.events <= s'.chat.events && s.bus <= s'.bus
    && var part, published := s'.chat.events[|s.chat.events|..], Live(s'.bus[|s.bus|..]);
      Besides(Seen(afterTool, part), published, extra) && EndsTool(afterTool, part) == afterTool'
  }

  lemma Suffix<T>(a: seq<T>, b: seq<T>, c: seq<T>)
    requires a <= b && b <= c
    ensures c[|a|..] == b[|a|..] + c[|b|..]
  {
  }

  lemma TellsOn(s: RunnerState, t: RunnerState, u: RunnerState, p: bool, q: bool, r: bool, m: nat, n: nat)
    requires Tells(s, t, p, q, m) && Tells(t, u, q, r, n)
    ensures Tells(s, u, p, r, m + n)
  {
    Suffix(s.chat.events, t.chat.events, u.chat.events);
    Suffix(s.bus, t.bus, u.bus);
    PartsOn(t.chat.events[|s.chat.events|..], u.chat.events[|t.chat.events|..], t.bus[|s.bus|..], u.bus[|t.bus|..], p,
      q, m, n);
  }

  lemma PartsOn(part: seq<LogEntry>, more: seq<LogEntry>, told: seq<BusPayload>, later: seq<BusPayload>, p: bool,
      q: bool, m: nat, n: nat)
    requires Besides(Seen(p, part), Live(told), m) && EndsTool(p, part) == q && Besides(Seen(q, more), Live(later), n)
    ensures Besides(Seen(p, part + more), Live(told + later), m + n) && EndsTool(p, part + more) == EndsTool(q, more)
  {
    LiveConcat(told, later);
    SeenConcat(p, part, more);
    EndsConcat(p, part, more);
    BesidesConcat(Seen(p, part), Live(told), m, Seen(q, more), Live(later), n);
  }

  lemma EndsConcat(afterTool: bool, part: seq<LogEntry>, more: seq<LogEntry>)
    ensures EndsTool(afterTool, part + more) == EndsTool(EndsTool(afterTool, part), more)
  {
    if more == [] {
      assert part + more == part;
    }
  }

  predicate IsQuiet(payloads: seq<BusPayload>) {
    forall i | 0 <= i < |payloads| :: !IsTalk(payloads[i])
  }

  lemma {:induction false} QuietIsDead(payloads: seq<BusPayload>)
    requires IsQuiet(payloads)
    ensures Live(payloads) == []
  {
    if payloads == [] {
    } else {
      QuietIsDead(payloads[1..]);
    }
  }

  lemma TellsQuietly(s: RunnerState, s': RunnerState, payloads: seq<BusPayload>, afterTool: bool)
    requires s'.chat == s.chat && s'.bus == s.bus + payloads && IsQuiet(payloads)
    ensures Tells(s, s', afterTool, afterTool, 0)
  {
    assert s'.bus[|s.bus|..] == payloads;
    assert s'.chat.events[|s.chat.events|..] == [];
    QuietIsDead(payloads);
  }

  lemma PushBus(e: Environment, s: RunnerState, body: EventBody, observability: Option<Cost>)
    ensures var s' := Push(e, s, body, observability);
      s.bus <= s'.bus && IsQuiet(s'.bus[|s.bus|..])
      && s'.chat.events == s.chat.events + [Entry(s.chat, s.nextId, body, observability)]
  {
  }

  lemma OneSeen(afterTool: bool, entry: LogEntry)
    ensures Seen(afterTool, [entry]) == SeenEntry(afterTool, entry)
  {
    assert [entry][1..] == [];
  }

  /** A log entry nobody is told about: hidden, or an empty result message. */
  lemma TellsPush(e: Environment, s: RunnerState, body: EventBody, observability: Option<Cost>, afterTool: bool)
    requires SeenEntry(afterTool, Entry(s.chat, s.nextId, body, observability)) in {[], [EMPTY_RESULTS]}
    ensures var entry := Entry(s.chat, s.nextId, body, observability);
      Tells(s, Push(e, s, body, observability), afterTool, IsTool(entry), |SeenEntry(afterTool, entry)|)
  {
    var s', entry := Push(e, s, body, observability), Entry(s.chat, s.nextId, body, observability);
    PushBus(e, s, body, observability);
    QuietIsDead(s'.bus[|s.bus|..]);
    assert s'.chat.events[|s.chat.events|..] == [entry];
    OneSeen(afterTool, entry);
    assert [EMPTY_RESULTS][1..] == [];
  }

  /** A log entry told as it is. */
  lemma TellsAnnounced(e: Environment, s: RunnerState, body: EventBody, observability: Option<Cost>,
      payload: BusPayload, afterTool: bool)
    requires SeenEntry(afterTool, Entry(s.chat, s.nextId, body, observability)) == Live([payload])
    ensures Tells(s, Publish(Push(e, s, body, observability), payload), afterTool, body.ToolCall?, 0)
  {
    var pushed, entry := Push(e, s, body, observability), Entry(s.chat, s.nextId, body, observability);
    PushBus(e, s, body, observability);
    LiveLast(s.bus, pushed.bus, payload);
    SeenLast(s.chat.events, pushed.chat.events, entry, afterTool);
    assert Besides(Live([payload]), Live([payload]), 0);
  }

  lemma LiveLast(before: seq<BusPayload>, now: seq<BusPayload>, payload: BusPayload)
    requires before <= now && IsQuiet(now[|before|..])
    ensures Live((now + [payload])[|before|..]) == Live([payload])
  {
    var errors := now[|before|..];
    QuietIsDead(errors);
    AppendAfter(before, now, payload);
    LiveConcat(errors, [payload]);
    assert [] + Live([payload]) == Live([payload]);
  }

  lemma SeenLast(before: seq<LogEntry>, now: seq<LogEntry>, entry: LogEntry, afterTool: bool)
    requires now == before + [entry]
    ensures Seen(afterTool, now[|before|..]) == SeenEntry(afterTool, entry)
    ensures EndsTool(afterTool, now[|before|..]) == IsTool(entry)
  {
    assert now[|before|..] == [entry];
    OneSeen(afterTool, entry);
  }

  lemma LiveOne(payload: BusPayload)
    ensures Live([payload]) == if IsTalk(payload) && !IsSystem(payload) then [payload] else []
  {
    assert [payload][1..] == [];
  }

  lemma TellsMessage(e: Environment, s: RunnerState, message: TextMessage, observability: Option<Cost>, afterTool: bool)
    requires !(afterTool && message.role == User)
    ensures Tells(s, Announce(e, s, message, observability), afterTool, false, 0)
  {
    LiveOne(MessagePosted(message));
    TellsAnnounced(e, s, Message(message), observability, MessagePosted(message), afterTool);
  }

  lemma TellsTool(e: Environment, s: RunnerState, event: ToolCallEvent, observability: Option<Cost>, afterTool: bool)
    ensures Tells(s, AnnounceTool(e, s, event, observability), afterTool, true, 0)
  {
    LiveOne(ToolCalled(event));
    TellsAnnounced(e, s, ToolCall(event), observability, ToolCalled(event), afterTool);
  }

  lemma TellsCall(e: Environment, s: RunnerState, call: Call, afterTool: bool)
    ensures Tells(s, CallTool(e, s, call), afterTool, true, 0)
  {
    var outcome := OutcomeAfter(e, s, call);
    TellsQuietly(s, TakeId(s), [], afterTool);
    TellsTool(e, TakeId(s), Started(s.nextId, call.name, ArgumentsOf(call)), None, afterTool);
    TellsTool(e, StartTool(e, s, call), outcome.event, outcome.observability, true);
    TellsOn(s, TakeId(s), StartTool(e, s, call), afterTool, afterTool, true, 0, 0);
    TellsOn(s, StartTool(e, s, call), CallTool(e, s, call), afterTool, true, true, 0, 0);
  }

  lemma {:induction false} TellsCalls(e: Environment, s: RunnerState, calls: seq<Call>, rendered: string,
      afterTool: bool)
    ensures Tells(s, CallTools(e, s, calls, rendered).state, afterTool, if calls == [] then afterTool else true, 0)
    decreases |calls|
  {
    if calls == [] {
      TellsQuietly(s, s, [], afterTool);
    } else {
      var next := CallTool(e, s, calls[0]);
      var rest := CallTools(e, next, calls[1..], AddLine(rendered, OutcomeAfter(e, s, calls[0]).line));
      TellsCall(e, s, calls[0], afterTool);
      TellsCalls(e, next, calls[1..], AddLine(rendered, OutcomeAfter(e, s, calls[0]).line), true);
      TellsOn(s, next, rest.state, afterTool, true, true, 0, 0);
    }
  }

  /** Tool results go to the model unannounced. They stay hidden on restoring because they
      follow a tool entry, unless no tool was called. */
  lemma TellsFeedBack(e: Environment, s: RunnerState, calls: seq<Call>)
    ensures Tells(s, FeedBack(e, s, calls), false, false, if calls == [] then 1 else 0)
  {
    var d := CallTools(e, s, calls, "");
    TellsCalls(e, s, calls, "", false);
    TellsPush(e, d.state, Message(TextMessage(User, d.rendered)), None, calls != []);
    TellsOn(s, d.state, FeedBack(e, s, calls), false, calls != [], false, 0, if calls == [] then 1 else 0);
  }

  lemma TellsAnswer(e: Environment, s: RunnerState, stream: Stream)
    ensures Tells(s, Answered(e, s, stream).state, false, false, 0)
  {
    var c := Complete(e, s, stream);
    TellsQuietly(s, c.state, if e.hasProvider then CompletionStream.Shown(stream) else [], false);
    TellsMessage(e, c.state, c.response.message, c.response.observability, false);
    TellsOn(s, c.state, Answered(e, s, stream).state, false, false, false, 0, 0);
  }

  predicate IsEmptyRound(r: Response) {
    r.finishReason != Stop && r.toolCalls == []
  }

  /** How many rounds went on although the model called no tool. */
  function EmptyRounds(e: Environment, s: RunnerState, replies: seq<Stream>): nat
    decreases |replies|
  {
    if e.hasProvider && replies == [] then 0
    else
      var c := Answered(e, s, NextReply(replies));
      if c.response.finishReason == Stop then 0
      else
        var more := EmptyRounds(e, FeedBack(e, c.state, c.response.toolCalls), Rest(e, replies));
        if IsEmptyRound(c.response) then 1 + more else more
  }

  lemma {:induction false} TellsRounds(e: Environment, s: RunnerState, replies: seq<Stream>)
    ensures Tells(s, Rounds(e, s, replies).state, false, false, EmptyRounds(e, s, replies))
    decreases |replies|
  {
    if e.hasProvider && replies == [] {
      TellsQuietly(s, s, [], false);
    } else {
      var c := Answered(e, s, NextReply(replies));
      TellsAnswer(e, s, NextReply(replies));
      if c.response.finishReason == Stop {
        TellsQuietly(c.state, Publish(c.state, TurnFinished(Stop)), [TurnFinished(Stop)], false);
        TellsOn(s, c.state, Publish(c.state, TurnFinished(Stop)), false, false, false, 0, 0);
      } else {
        TellsOneRound(e, s, replies);
      }
    }
  }

  /** A round that goes on: where it leads, and what is missing of it and after it. */
  lemma RoundGoesOn(e: Environment, s: RunnerState, replies: seq<Stream>)
      returns (fed: RunnerState, here: nat, more: nat, end: RunnerState)
    requires !e.hasProvider || replies != []
    requires Answered(e, s, NextReply(replies)).response.finishReason != Stop
    ensures var c := Answered(e, s, NextReply(replies));
      fed == FeedBack(e, c.state, c.response.toolCalls) && here == (if c.response.toolCalls == [] then 1 else 0)
    ensures end == Rounds(e, fed, Rest(e, replies)).state && more == EmptyRounds(e, fed, Rest(e, replies))
    ensures Rounds(e, s, replies).state == end && EmptyRounds(e, s, replies) == here + more
  {
    var c := Answered(e, s, NextReply(replies));
    fed := FeedBack(e, c.state, c.response.toolCalls);
    here := if c.response.toolCalls == [] then 1 else 0;
    more := EmptyRounds(e, fed, Rest(e, replies));
    end := Rounds(e, fed, Rest(e, replies)).state;
  }

  lemma {:induction false} TellsOneRound(e: Environment, s: RunnerState, replies: seq<Stream>)
    requires !e.hasProvider || replies != []
    requires Answered(e, s, NextReply(replies)).response.finishReason != Stop
    requires Tells(s, Answered(e, s, NextReply(replies)).state, false, false, 0)
    ensures Tells(s, Rounds(e, s, replies).state, false, false, EmptyRounds(e, s, replies))
    decreases |replies|, 0
  {
    var fed, here, more, end := RoundGoesOn(e, s, replies);
    TellsRounds(e, fed, Rest(e, replies));
    TellsFed(e, s, NextReply(replies), fed, here);
    TellsOn(s, fed, end, false, false, false, here, more);
  }

  lemma TellsFed(e: Environment, s: RunnerState, stream: Stream, fed: RunnerState, here: nat)
    requires Tells(s, Answered(e, s, stream).state, false, false, 0)
    requires var c := Answered(e, s, stream);
      fed == FeedBack(e, c.state, c.response.toolCalls) && here == (if c.response.toolCalls == [] then 1 else 0)
    ensures Tells(s, fed, false, false, here)
  {
    var c := Answered(e, s, stream);
    TellsFeedBack(e, c.state, c.response.toolCalls);
    TellsOn(s, c.state, fed, false, false, false, 0, here);
  }

  function RunEmptyRounds(e: Environment, s: RunnerState, inbox: seq<Command>, replies: seq<Stream>): nat
    decreases |inbox|
  {
    if inbox == [] then 0
    else match inbox[0]
      case SubmitUserMessage(_) => RunEmptyRounds(e, s, inbox[1..], replies)
      case SendUserMessage(message) =>
        var turn := Rounds(e, Opened(e, s, message), replies);
        EmptyRounds(e, Opened(e, s, message), replies)
          + (if turn.finished then RunEmptyRounds(e, turn.state, inbox[1..], turn.replies) else 0)
      case Shutdown => 0
  }

  lemma TellsOpened(e: Environment, s: RunnerState, message: TextMessage, afterTool: bool)
    requires !(afterTool && message.role == User)
    ensures Tells(s, Opened(e, s, message), afterTool, false, 0)
  {
    var said := Announce(e, s, message, None);
    TellsMessage(e, s, message, None, afterTool);
    TellsQuietly(said, Opened(e, s, message), [TurnStarted], false);
    TellsOn(s, said, Opened(e, s, message), afterTool, false, false, 0, 0);
  }

  lemma TellsTurn(e: Environment, s: RunnerState, message: TextMessage, replies: seq<Stream>, afterTool: bool)
    requires !(afterTool && message.role == User)
    ensures Tells(s, Rounds(e, Opened(e, s, message), replies).state, afterTool, false,
      EmptyRounds(e, Opened(e, s, message), replies))
  {
    TellsOpened(e, s, message, afterTool);
    TellsRounds(e, Opened(e, s, message), replies);
    TellsThen(s, Opened(e, s, message), Rounds(e, Opened(e, s, message), replies).state, afterTool,
      EmptyRounds(e, Opened(e, s, message), replies));
  }

  lemma TellsThen(s: RunnerState, t: RunnerState, u: RunnerState, afterTool: bool, n: nat)
    requires Tells(s, t, afterTool, false, 0) && Tells(t, u, false, false, n)
    ensures Tells(s, u, afterTool, false, n)
  {
    TellsOn(s, t, u, afterTool, false, false, 0, n);
  }

  /** The message a run takes up first. */
  function FirstMessage(inbox: seq<Command>): Option<TextMessage> {
    if inbox == [] then None
    else match inbox[0]
      case SubmitUserMessage(_) => FirstMessage(inbox[1..])
      case SendUserMessage(message) => Some(message)
      case Shutdown => None
  }

  /** The first message would be taken for tool results on restoring. */
  predicate FirstIsMistaken(afterTool: bool, inbox: seq<Command>) {
    afterTool && FirstMessage(inbox).Some? && FirstMessage(inbox).value.role == User
  }

  ghost predicate TellsSomehow(s: RunnerState, s': RunnerState, afterTool: bool, extra: nat) {
    Tells(s, s', afterTool, false, extra) || Tells(s, s', afterTool, true, extra)
  }

  lemma TellsBoth(s: RunnerState, t: RunnerState, u: RunnerState, afterTool: bool, m: nat, n: nat)
    requires Tells(s, t, afterTool, false, m) && TellsSomehow(t, u, false, n)
    ensures TellsSomehow(s, u, afterTool, m + n)
  {
    if Tells(t, u, false, false, n) {
      TellsOn(s, t, u, afterTool, false, false, m, n);
    } else {
      TellsOn(s, t, u, afterTool, false, true, m, n);
    }
  }

  lemma RunSends(e: Environment, s: RunnerState, inbox: seq<Command>, closed: bool, replies: seq<Stream>)
    returns (turn: Turn, here: nat, later: nat)
    requires inbox != [] && inbox[0].SendUserMessage?
    ensures turn == Rounds(e, Opened(e, s, inbox[0].message), replies)
    ensures here == EmptyRounds(e, Opened(e, s, inbox[0].message), replies)
    ensures later == RunEmptyRounds(e, turn.state, inbox[1..], turn.replies)
    ensures RunEmptyRounds(e, s, inbox, replies) == if turn.finished then here + later else here
    ensures Run(e, s, inbox, closed, replies)
         == if turn.finished then Run(e, turn.state, inbox[1..], closed, turn.replies)
           else Ran(turn.state, AwaitingReply)
  {
    turn := Rounds(e, Opened(e, s, inbox[0].message), replies);
    here := EmptyRounds(e, Opened(e, s, inbox[0].message), replies);
    later := RunEmptyRounds(e, turn.state, inbox[1..], turn.replies);
  }

  /** A run's log shows what the run published, and one entry more for each empty round. */
  lemma {:induction false} TellsRun(e: Environment, s: RunnerState, inbox: seq<Command>, closed: bool,
      replies: seq<Stream>, afterTool: bool)
    requires !FirstIsMistaken(afterTool, inbox)
    ensures TellsSomehow(s, Run(e, s, inbox, closed, replies).state, afterTool, RunEmptyRounds(e, s, inbox, replies))
    decreases |inbox|
  {
    if inbox == [] {
      TellsQuietly(s, Run(e, s, inbox, closed, replies).state, [], afterTool);
    } else {
      match inbox[0]
      case SubmitUserMessage(_) =>
        TellsRun(e, s, inbox[1..], closed, replies, afterTool);
      case SendUserMessage(message) =>
        var turn, here, later := RunSends(e, s, inbox, closed, replies);
        TellsTurn(e, s, message, replies, afterTool);
        if turn.finished {
          TellsRun(e, turn.state, inbox[1..], closed, turn.replies, false);
          TellsBoth(s, turn.state, Run(e, s, inbox, closed, replies).state, afterTool, here, later);
        }
      case Shutdown =>
        TellsQuietly(s, HandOver(Publish(s, AgentShutdown)), [AgentShutdown], afterTool);
    }
  }

  // --- The two views

  function RestoredView(chat: Chat): seq<BusPayload> {
    Conversation(EntriesFor(HistoryFromChat(chat), chat.id))
  }

  lemma {:induction false} EntriesOfOwn(chatId: Uuid, payloads: seq<BusPayload>)
    requires forall i | 0 <= i < |payloads| :: IsTalk(payloads[i])
    ensures Conversation(EntriesFor(EntriesOf(chatId, payloads), chatId)) == payloads
  {
    if payloads == [] {
    } else {
      EntriesOfOwn(chatId, payloads[1..]);
      assert EntriesOf(chatId, payloads)[1..] == EntriesOf(chatId, payloads[1..]);
    }
  }

  lemma {:induction false} RestoredTalks(chat: Chat, events: seq<LogEntry>, ids: set<Uuid>)
    ensures forall i | 0 <= i < |RestoredAll(chat, events, ids)| :: IsTalk(RestoredAll(chat, events, ids)[i])
  {
    if events == [] {
    } else {
      RestoredTalks(chat, events[1..], ids);
    }
  }

  lemma RestoredViewIs(chat: Chat)
    ensures RestoredView(chat) == RestoredAll(chat, chat.events, ToolEventIds(chat, chat.events))
  {
    RestoredTalks(chat, chat.events, ToolEventIds(chat, chat.events));
    EntriesOfOwn(chat.id, RestoredAll(chat, chat.events, ToolEventIds(chat, chat.events)));
  }

  /** The talk of one chat in an app that has followed these events from this view. */
  function LiveTalk(v: View, events: seq<BusEvent>, chatId: Uuid): seq<BusPayload> {
    Conversation(ViewOf(Replay(v, events), chatId).entries)
  }

  /** An app that shows this chat restored, and then sees everything a run publishes, mixed in
      any way with what other chats publish. */
  ghost predicate Watched(start: Chat, ran: RunnerState, v: View, events: seq<BusEvent>) {
    Conversation(ViewOf(v, start.id).entries) == RestoredView(start) && PayloadsFor(events, start.id) == ran.bus
  }

  lemma LiveTalkIs(start: Chat, ran: RunnerState, v: View, events: seq<BusEvent>)
    requires Watched(start, ran, v, events)
    ensures LiveTalk(v, events, start.id) == RestoredView(start) + Live(ran.bus)
  {
    ChatsApart(v, events, start.id);
    FollowedLive(ViewOf(v, start.id), ran.bus);
  }

  /** Unless the first message would be mistaken for tool results, the live view equals the
      restored view exactly when every round that went on had called a tool. */
  lemma LiveIsRestored(e: Environment, start: Chat, first: Uuid, isSubagent: bool,
                       inbox: seq<Command>, closed: bool, replies: seq<Stream>, v: View, events: seq<BusEvent>)
    requires MadeBefore(start, first) && !FirstIsMistaken(AfterTool(start), inbox)
    requires Watched(start, Run(e, Initial(start, first, isSubagent), inbox, closed, replies).state, v, events)
    ensures var ran := Run(e, Initial(start, first, isSubagent), inbox, closed, replies).state;
      LiveTalk(v, events, start.id) == RestoredView(ran.chat)
      <==> RunEmptyRounds(e, Initial(start, first, isSubagent), inbox, replies) == 0
  {
    var s0 := Initial(start, first, isSubagent);
    var ran := Run(e, s0, inbox, closed, replies).state;
    TellsRun(e, s0, inbox, closed, replies, AfterTool(start));
    RunGrown(e, start, first, isSubagent, inbox, closed, replies);
    GrownRestores(start, first, ran);
    LiveTalkIs(start, ran, v, events);
    RestoredViewIs(start);
    RestoredViewIs(ran.chat);
    assert ran.bus[0..] == ran.bus;
  }

  // --- The finish rule leaves no empty rounds

  ghost predicate KeepsFinishRule(e: Environment, replies: seq<Stream>) {
    e.hasProvider ==> forall i | 0 <= i < |replies| ::
      CompletionStream.FinishRule(CompletionStream.Answer(replies[i], None))
  }

  lemma {:induction false} RoundsNotEmpty(e: Environment, s: RunnerState, replies: seq<Stream>)
    requires KeepsFinishRule(e, replies)
    ensures EmptyRounds(e, s, replies) == 0 && KeepsFinishRule(e, Rounds(e, s, replies).replies)
    decreases |replies|
  {
    if !e.hasProvider || replies != [] {
      var c := Answered(e, s, NextReply(replies));
      if c.response.finishReason != Stop {
        RoundsNotEmpty(e, FeedBack(e, c.state, c.response.toolCalls), Rest(e, replies));
      }
    }
  }

  lemma {:induction false} RunNotEmpty(e: Environment, s: RunnerState, inbox: seq<Command>, replies: seq<Stream>)
    requires KeepsFinishRule(e, replies)
    ensures RunEmptyRounds(e, s, inbox, replies) == 0
    decreases |inbox|
  {
    if inbox == [] {
    } else {
      match inbox[0]
      case SubmitUserMessage(_) => RunNotEmpty(e, s, inbox[1..], replies);
      case SendUserMessage(message) =>
        RoundsNotEmpty(e, Opened(e, s, message), replies);
        var turn := Rounds(e, Opened(e, s, message), replies);
        if turn.finished {
          RunNotEmpty(e, turn.state, inbox[1..], turn.replies);
        }
      case Shutdown =>
    }
  }

  /** A first message that is mistaken for tool results is all that restoring loses. */
  lemma {:induction false} MistakenRun(e: Environment, s: RunnerState, inbox: seq<Command>, closed: bool,
      replies: seq<Stream>)
    requires FirstIsMistaken(true, inbox) && KeepsFinishRule(e, replies)
    ensures var end := Run(e, s, inbox, closed, replies).state;
      s.chat.events <= end.chat.events && s.bus <= end.bus
      && Live(end.bus[|s.bus|..])
        == [MessagePosted(FirstMessage(inbox).value)] + Seen(true, end.chat.events[|s.chat.events|..])
    decreases |inbox|
  {
    match inbox[0]
    case SubmitUserMessage(_) => MistakenRun(e, s, inbox[1..], closed, replies);
    case SendUserMessage(message) => MistakenTurn(e, s, message, inbox[1..], closed, replies);
    case Shutdown =>
  }

  lemma MistakenTurn(e: Environment, s: RunnerState, message: TextMessage, later: seq<Command>, closed: bool,
      replies: seq<Stream>)
    requires message.role == User && KeepsFinishRule(e, replies)
    ensures var end := Run(e, s, [SendUserMessage(message)] + later, closed, replies).state;
      s.chat.events <= end.chat.events && s.bus <= end.bus
      && Live(end.bus[|s.bus|..]) == [MessagePosted(message)] + Seen(true, end.chat.events[|s.chat.events|..])
  {
    var inbox := [SendUserMessage(message)] + later;
    assert inbox[1..] == later;
    var end := Run(e, s, inbox, closed, replies).state;
    var begun := Opened(e, s, message);
    var turn := Rounds(e, begun, replies);
    RoundsNotEmpty(e, begun, replies);
    TellsRounds(e, begun, replies);
    if turn.finished {
      RunNotEmpty(e, turn.state, later, turn.replies);
      TellsRun(e, turn.state, later, closed, turn.replies, false);
      TellsBoth(begun, turn.state, end, false, 0, 0);
    }
    MistakenOpening(e, s, message);
    MistakenThen(s, begun, end, message);
  }

  lemma MistakenThen(s: RunnerState, begun: RunnerState, end: RunnerState, message: TextMessage)
    requires s.chat.events <= begun.chat.events && s.bus <= begun.bus && TellsSomehow(begun, end, false, 0)
    requires Live(begun.bus[|s.bus|..]) == [MessagePosted(message)]
    requires var part := begun.chat.events[|s.chat.events|..]; Seen(true, part) == [] && !EndsTool(true, part)
    ensures s.chat.events <= end.chat.events && s.bus <= end.bus
    ensures Live(end.bus[|s.bus|..]) == [MessagePosted(message)] + Seen(true, end.chat.events[|s.chat.events|..])
  {
    Suffix(s.bus, begun.bus, end.bus);
    Suffix(s.chat.events, begun.chat.events, end.chat.events);
    LiveConcat(begun.bus[|s.bus|..], end.bus[|begun.bus|..]);
    HiddenFirst(begun.chat.events[|s.chat.events|..], end.chat.events[|begun.chat.events|..]);
  }

  lemma HiddenFirst(hidden: seq<LogEntry>, more: seq<LogEntry>)
    requires Seen(true, hidden) == [] && !EndsTool(true, hidden)
    ensures Seen(true, hidden + more) == Seen(false, more)
  {
    SeenConcat(true, hidden, more);
    var rest := Seen(false, more);
    assert [] + rest == rest;
  }

  lemma MistakenOpening(e: Environment, s: RunnerState, message: TextMessage)
    requires message.role == User
    ensures var begun := Opened(e, s, message);
      s.chat.events <= begun.chat.events && s.bus <= begun.bus
      && Live(begun.bus[|s.bus|..]) == [MessagePosted(message)]
      && Seen(true, begun.chat.events[|s.chat.events|..]) == [] && !EndsTool(true, begun.chat.events[|s.chat.events|..])
  {
    var begun, pushed := Opened(e, s, message), Push(e, s, Message(message), None);
    var entry := Entry(s.chat, s.nextId, Message(message), None);
    PushBus(e, s, Message(message), None);
    QuietIsDead(pushed.bus[|s.bus|..]);
    assert begun.chat.events[|s.chat.events|..] == [entry];
    OneHidden(entry);
    AddedTwo(s.bus, pushed.bus, begun.bus, MessagePosted(message), TurnStarted);
  }

  lemma OneHidden(entry: LogEntry)
    requires entry.event.body.Message? && entry.event.body.message.role == User
    ensures Seen(true, [entry]) == [] && !EndsTool(true, [entry])
  {
    OneSeen(true, entry);
  }

  lemma AddedTwo(a: seq<BusPayload>, b: seq<BusPayload>, c: seq<BusPayload>, talk: BusPayload, quiet: BusPayload)
    requires a <= b && c == b + [talk] + [quiet] && IsTalk(talk) && !IsSystem(talk) && !IsTalk(quiet)
      && Live(b[|a|..]) == []
    ensures a <= c && Live(c[|a|..]) == [talk]
  {
    var more := b[|a|..];
    assert c[|a|..] == more + [talk] + [quiet];
    LiveConcat(more + [talk], [quiet]);
    LiveConcat(more, [talk]);
    LiveOne(talk);
    LiveOne(quiet);
  }

  /** With the finish rule kept, the live view equals the restored view exactly when the
      starting log does not make the first message look like tool results. */
  lemma LiveIsRestoredUnderFinishRule(e: Environment, start: Chat, first: Uuid, isSubagent: bool,
                                      inbox: seq<Command>, closed: bool, replies: seq<Stream>, v: View,
                                        events: seq<BusEvent>)
    requires MadeBefore(start, first) && KeepsFinishRule(e, replies)
    requires Watched(start, Run(e, Initial(start, first, isSubagent), inbox, closed, replies).state, v, events)
    ensures var ran := Run(e, Initial(start, first, isSubagent), inbox, closed, replies).state;
      LiveTalk(v, events, start.id) == RestoredView(ran.chat) <==> !FirstIsMistaken(AfterTool(start), inbox)
  {
    var s0 := Initial(start, first, isSubagent);
    RunNotEmpty(e, s0, inbox, replies);
    if FirstIsMistaken(AfterTool(start), inbox) {
      var ran := Run(e, s0, inbox, closed, replies).state;
      MistakenRun(e, s0, inbox, closed, replies);
      RunGrown(e, start, first, isSubagent, inbox, closed, replies);
      GrownRestores(start, first, ran);
      LiveTalkIs(start, ran, v, events);
      RestoredViewIs(start);
      RestoredViewIs(ran.chat);
      assert ran.bus[0..] == ran.bus;
    } else {
      LiveIsRestored(e, start, first, isSubagent, inbox, closed, replies, v, events);
    }
  }

  // --- Both conditions at once

  /** Replies come from the agent, as both places that assemble them see to. */
  ghost predicate AgentReplies(e: Environment, replies: seq<Stream>) {
    e.hasProvider ==> forall i | 0 <= i < |replies| :: CompletionStream.Answer(replies[i], None).message.role == Agent
  }

  predicate FromAgent(entry: LogEntry) {
    entry.event.body.Message? && entry.event.body.message.role == Agent
  }

  /** The first thing a turn logs after its message is a reply, if there is one. */
  lemma ReplyFollows(e: Environment, s: RunnerState, replies: seq<Stream>) returns (entry: LogEntry)
    requires (!e.hasProvider || replies != []) && AgentReplies(e, replies)
    ensures FromAgent(entry) && s.chat.events + [entry] <= Rounds(e, s, replies).state.chat.events
  {
    var c, asked := Answered(e, s, NextReply(replies)), Complete(e, s, NextReply(replies));
    entry := Entry(asked.state.chat, asked.state.nextId, Message(c.response.message), c.response.observability);
    PushAdds(e, asked.state, Message(c.response.message), c.response.observability);
    assert c.state.chat.events == s.chat.events + [entry];
    if c.response.finishReason != Stop {
      TellsFeedBack(e, c.state, c.response.toolCalls);
      TellsRounds(e, FeedBack(e, c.state, c.response.toolCalls), Rest(e, replies));
    }
  }

  /** What a run that loses its first message publishes first, and what its log shows first. */
  ghost predicate StartApart(s: RunnerState, end: RunnerState, first: TextMessage) {
    s.chat.events <= end.chat.events && s.bus <= end.bus
    && var told, seen := Live(end.bus[|s.bus|..]), Seen(true, end.chat.events[|s.chat.events|..]);
      told != [] && told[0] == MessagePosted(first)
      && (seen == [] || (seen[0].MessagePosted? && seen[0].message.role == Agent))
  }

  lemma {:induction false} MistakenApart(e: Environment, s: RunnerState, inbox: seq<Command>, closed: bool,
      replies: seq<Stream>)
    requires FirstIsMistaken(true, inbox) && AgentReplies(e, replies)
    ensures StartApart(s, Run(e, s, inbox, closed, replies).state, FirstMessage(inbox).value)
    decreases |inbox|
  {
    match inbox[0]
    case SubmitUserMessage(_) => MistakenApart(e, s, inbox[1..], closed, replies);
    case SendUserMessage(message) => MistakenTurnApart(e, s, inbox, closed, replies);
    case Shutdown =>
  }

  lemma MistakenTurnApart(e: Environment, s: RunnerState, inbox: seq<Command>, closed: bool, replies: seq<Stream>)
    requires inbox != [] && inbox[0].SendUserMessage? && inbox[0].message.role == User && AgentReplies(e, replies)
    ensures StartApart(s, Run(e, s, inbox, closed, replies).state, inbox[0].message)
  {
    var begun, end := Opened(e, s, inbox[0].message), Run(e, s, inbox, closed, replies).state;
    var next := TurnFollows(e, s, inbox, closed, replies);
    MistakenOpening(e, s, inbox[0].message);
    BeginsApart(s, begun, end, inbox[0].message, next);
  }

  /** What a run logs first after the message it takes up. */
  lemma TurnFollows(e: Environment, s: RunnerState, inbox: seq<Command>, closed: bool, replies: seq<Stream>)
      returns (next: seq<LogEntry>)
    requires inbox != [] && inbox[0].SendUserMessage? && AgentReplies(e, replies)
    ensures var begun, end := Opened(e, s, inbox[0].message), Run(e, s, inbox, closed, replies).state;
      begun.bus <= end.bus && (next == [] || (|next| == 1 && FromAgent(next[0])))
      && if next == [] then begun.chat.events == end.chat.events else begun.chat.events + next <= end.chat.events
  {
    var begun := Opened(e, s, inbox[0].message);
    var turn, here, later := RunSends(e, s, inbox, closed, replies);
    RoundsAdd(e, begun, replies);
    if turn.finished {
      RunAdds(e, turn.state, inbox[1..], closed, turn.replies);
    }
    if e.hasProvider && replies == [] {
      next := [];
    } else {
      var entry := ReplyFollows(e, begun, replies);
      next := [entry];
    }
  }

  lemma RoundsAdd(e: Environment, s: RunnerState, replies: seq<Stream>)
    ensures s.bus <= Rounds(e, s, replies).state.bus
  {
    TellsRounds(e, s, replies);
  }

  lemma RunAdds(e: Environment, s: RunnerState, inbox: seq<Command>, closed: bool, replies: seq<Stream>)
    ensures var end := Run(e, s, inbox, closed, replies).state; s.chat.events <= end.chat.events && s.bus <= end.bus
  {
    TellsRun(e, s, inbox, closed, replies, false);
  }

  lemma BeginsApart(s: RunnerState, begun: RunnerState, end: RunnerState, first: TextMessage, next: seq<LogEntry>)
    requires s.chat.events <= begun.chat.events && s.bus <= begun.bus && begun.bus <= end.bus
    requires Live(begun.bus[|s.bus|..]) == [MessagePosted(first)]
    requires var part := begun.chat.events[|s.chat.events|..]; Seen(true, part) == [] && !EndsTool(true, part)
    requires if next == [] then begun.chat.events == end.chat.events
             else |next| == 1 && FromAgent(next[0]) && begun.chat.events + next <= end.chat.events
    ensures StartApart(s, end, first)
  {
    Suffix(s.bus, begun.bus, end.bus);
    Suffix(s.chat.events, begun.chat.events, end.chat.events);
    LiveConcat(begun.bus[|s.bus|..], end.bus[|begun.bus|..]);
    var more := end.chat.events[|begun.chat.events|..];
    HiddenFirst(begun.chat.events[|s.chat.events|..], more);
    assert next != [] ==> more[0] == next[0];
  }

  /** With replies from the agent, the live view equals the restored view exactly when the first
      message does not look like tool results and every round that went on had called a tool. */
  lemma LiveIsRestoredExactly(e: Environment, start: Chat, first: Uuid, isSubagent: bool,
                              inbox: seq<Command>, closed: bool, replies: seq<Stream>, v: View, events: seq<BusEvent>)
    requires MadeBefore(start, first) && AgentReplies(e, replies)
    requires Watched(start, Run(e, Initial(start, first, isSubagent), inbox, closed, replies).state, v, events)
    ensures var s0 := Initial(start, first, isSubagent);
      LiveTalk(v, events, start.id) == RestoredView(Run(e, s0, inbox, closed, replies).state.chat)
      <==> !FirstIsMistaken(AfterTool(start), inbox) && RunEmptyRounds(e, s0, inbox, replies) == 0
  {
    var s0 := Initial(start, first, isSubagent);
    if FirstIsMistaken(AfterTool(start), inbox) {
      MistakenApart(e, s0, inbox, closed, replies);
      RunGrown(e, start, first, isSubagent, inbox, closed, replies);
      ApartDiffers(start, first, s0, Run(e, s0, inbox, closed, replies).state, FirstMessage(inbox).value, v, events);
    } else {
      LiveIsRestored(e, start, first, isSubagent, inbox, closed, replies, v, events);
    }
  }

  lemma ApartDiffers(start: Chat, first: Uuid, s0: RunnerState, ran: RunnerState, message: TextMessage, v: View,
      events: seq<BusEvent>)
    requires MadeBefore(start, first) && Grown(start, first, ran) && Watched(start, ran, v, events)
    requires s0.chat == start && s0.bus == [] && AfterTool(start) && message.role == User
      && StartApart(s0, ran, message)
    ensures LiveTalk(v, events, start.id) != RestoredView(ran.chat)
  {
    GrownRestores(start, first, ran);
    LiveTalkIs(start, ran, v, events);
    RestoredViewIs(start);
    RestoredViewIs(ran.chat);
    assert ran.bus[0..] == ran.bus;
    var shown, seen := RestoredView(start), Seen(true, ran.chat.events[|start.events|..]);
    TailsTell(shown, Live(ran.bus), seen);
  }

  lemma TailsTell(a: seq<BusPayload>, x: seq<BusPayload>, y: seq<BusPayload>)
    ensures a + x == a + y <==> x == y
  {
    assert (a + x)[|a|..] == x && (a + y)[|a|..] == y;
  }

  /** A chat begun from nothing, with completions read off the provider's own driver. */
  lemma FreshChatAgrees(e: Environment, start: Chat, isSubagent: bool, inbox: seq<Command>, closed: bool,
      replies: seq<Stream>,
                        inner: seq<CompletionStream.Inner>, choices: seq<(seq<CompletionStream.Content>, Cost)>,
                        v: View, events: seq<BusEvent>)
    requires start.events == [] && |inner| == |choices| == |replies|
    requires forall i | 0 <= i < |replies| ::
      replies[i] == CompletionStream.Items(inner[i], CompletionStream.AssembleFinal(choices[i].0, choices[i].1))
    requires Watched(start, Run(e, Initial(start, 0, isSubagent), inbox, closed, replies).state, v, events)
    ensures LiveTalk(v, events, start.id)
         == RestoredView(Run(e, Initial(start, 0, isSubagent), inbox, closed, replies).state.chat)
  {
    forall i | 0 <= i < |replies|
      ensures CompletionStream.FinishRule(CompletionStream.Answer(replies[i], None))
    {
      CompletionStream.CompletionOfDriver(inner[i], choices[i].0, choices[i].1);
    }
    LiveIsRestoredUnderFinishRule(e, start, 0, isSubagent, inbox, closed, replies, v, events);
  }

  // --- Loading a chat in a running app

  /** A loaded chat is shown as stored and nothing of what was shown before is left, so an app
      that follows a run from there is one of those the results above speak of. */
  lemma LoadedShows(v: View, w: View, chat: Chat, summary: Summary, derive: Derive)
    ensures var shown := Loaded(v, chat, summary, derive);
      Conversation(ViewOf(shown, chat.id).entries) == RestoredView(chat)
      && (forall id | id != chat.id :: ViewOf(shown, id) == ChatView([], None, None))
      && ViewOf(shown, chat.id).text == None && ViewOf(shown, chat.id).thinking == None
      && shown.activeChatId == Some(chat.id) && shown.version > v.version
      && shown.summary == summary && shown.stats == derive(summary) && shown.pendingSubmission == None
      && shown.scrollFromBottom == 0 && !shown.turnInProgress && shown.lastFinishReason == None
      && shown.(version := 0) == Loaded(w, chat, summary, derive).(version := 0)
  {
    var shown := Loaded(v, chat, summary, derive);
    forall id | id != chat.id ensures ViewOf(shown, id) == ChatView([], None, None) {
      OthersShowNothing(chat.id, RestoredAll(chat, chat.events, ToolEventIds(chat, chat.events)), id);
    }
  }

  lemma {:induction false} OthersShowNothing(chatId: Uuid, payloads: seq<BusPayload>, id: Uuid)
    requires id != chatId
    ensures EntriesFor(EntriesOf(chatId, payloads), id) == []
  {
    if payloads == [] {
    } else {
      OthersShowNothing(chatId, payloads[1..], id);
      assert EntriesOf(chatId, payloads)[1..] == EntriesOf(chatId, payloads[1..]);
    }
  }

  /** A new chat starts from nothing but the model's name. */
  lemma ResetShowsNothing(v: View, w: View, id: Uuid)
    ensures ViewOf(ResetView(v), id) == ChatView([], None, None) && ResetView(v).version > v.version
    ensures v.summary.modelName == w.summary.modelName ==> ResetView(v).(version := 0) == ResetView(w).(version := 0)
    ensures var summary := ResetView(v).summary;
      summary.inputTokens == 0 && summary.outputTokens == 0 && summary.usedTokens == 0
      && summary.modelName == v.summary.modelName && ResetView(v).stats == Stats(None, None, None)
    ensures var shown := ResetView(v);
      shown.activeChatId == None && shown.pendingSubmission == None && shown.scrollFromBottom == 0
      && !shown.turnInProgress && shown.lastFinishReason == None
  {
  }

  // --- What restoring shows

  /** A log entry that restoring shows: in use, and a tool event or a message of the agent or the
      user, unless it answers a tool entry in use. */
  ghost predicate IsShown(chat: Chat, entry: LogEntry) {
    entry.contextState == Active && entry.event.branchId == chat.activeBranchId
    && match entry.event.body
       case Message(message) =>
         message.role == Agent || (message.role == User
           && !(entry.event.parentId.Some? && IsToolInUse(chat, entry.event.parentId.value)))
       case ToolCall(_) => true
       case AppEvent => false
  }

  ghost predicate IsToolInUse(chat: Chat, id: Uuid) {
    exists i :: 0 <= i < |chat.events| && ToolInUseAt(chat, i, id)
  }

  predicate ToolInUseAt(chat: Chat, i: nat, id: Uuid)
    requires i < |chat.events|
  {
    var entry := chat.events[i];
    entry.event.id == id && entry.event.body.ToolCall?
    && entry.contextState == Active && entry.event.branchId == chat.activeBranchId
  }

  function AsShown(entry: LogEntry): BusPayload {
    match entry.event.body
    case Message(message) => MessagePosted(message)
    case ToolCall(event) => ToolCalled(event)
    case AppEvent => AgentShutdown
  }

  ghost predicate AllAsShown(entries: seq<LogEntry>, payloads: seq<BusPayload>) {
    |payloads| == |entries| && forall i | 0 <= i < |entries| :: payloads[i] == AsShown(entries[i])
  }

  lemma ToolIds(chat: Chat, id: Uuid)
    ensures id in ToolEventIds(chat, chat.events) <==> IsToolInUse(chat, id)
  {
    if id in ToolEventIds(chat, chat.events) {
      var i :| 0 <= i < |chat.events| && InUse(chat, chat.events[i]) && chat.events[i].event.body.ToolCall?
        && chat.events[i].event.id == id;
      assert ToolInUseAt(chat, i, id);
    }
    if i :| 0 <= i < |chat.events| && ToolInUseAt(chat, i, id) {
      assert InUse(chat, chat.events[i]);
    }
  }

  lemma {:induction false} PartAsShown(chat: Chat, part: seq<LogEntry>) returns (entries: seq<LogEntry>)
    ensures entries == Filter((entry: LogEntry) => IsShown(chat, entry), part)
    ensures AllAsShown(entries, RestoredAll(chat, part, ToolEventIds(chat, chat.events)))
  {
    entries := Filter((entry: LogEntry) => IsShown(chat, entry), part);
    if part == [] {
    } else {
      var rest := PartAsShown(chat, part[1..]);
      if part[0].event.parentId.Some? {
        ToolIds(chat, part[0].event.parentId.value);
      }
    }
  }

  /** A restored chat shows those of its log's entries, each as what it is, in order, and all as
      its own. */
  lemma RestoredExactly(chat: Chat) returns (entries: seq<LogEntry>)
    ensures entries == Filter((entry: LogEntry) => IsShown(chat, entry), chat.events)
    ensures |HistoryFromChat(chat)| == |entries|
    ensures forall i | 0 <= i < |entries| :: HistoryFromChat(chat)[i] == HistoryEntry(chat.id, Bus(AsShown(entries[i])))
  {
    entries := PartAsShown(chat, chat.events);
  }
}
