/** The terminal app's picture of its chats: built from bus events, or restored from a log. */
module TuiApp {
  import opened Prelude
  import opened Chats

  datatype HistoryPayload = Bus(payload: BusPayload) | Thinking(text: string)

  datatype HistoryEntry = HistoryEntry(chatId: Uuid, payload: HistoryPayload)

  /** What the banner above the conversation shows. */
  datatype Stats = Stats(contextLeftPercent: Option<nat>, maxInputTokens: Option<nat>, estimatedCostUsd: Option<real>)

  datatype Summary = Summary(modelName: string, inputTokens: nat, outputTokens: nat, usedTokens: nat)

  type Derive = Summary -> Stats

  datatype View = View(
    activeChatId: Option<Uuid>,
    pendingSubmission: Option<string>,
    summary: Summary,
    stats: Stats,
    history: seq<HistoryEntry>,
    inFlightText: map<Uuid, string>,
    inFlightThinking: map<Uuid, string>,
    scrollFromBottom: nat,
    turnInProgress: bool,
    lastFinishReason: Option<FinishReason>,
    version: nat)

  // --- Restoring from a log

  predicate InUse(chat: Chat, entry: LogEntry) {
    entry.contextState == Active && entry.event.branchId == chat.activeBranchId
  }

  function ToolEventIds(chat: Chat, events: seq<LogEntry>): set<Uuid> {
    set i | 0 <= i < |events| && InUse(chat, events[i]) && events[i].event.body.ToolCall? :: events[i].event.id
  }

  /** What the user sees of one entry: not the messages that carry tool results to the model. */
  function Restored(chat: Chat, entry: LogEntry, toolIds: set<Uuid>): seq<BusPayload> {
    if !InUse(chat, entry) then []
    else match entry.event.body
      case Message(message) =>
        if message.role == User && entry.event.parentId.Some? && entry.event.parentId.value in toolIds then []
        else if message.role != System then [MessagePosted(message)]
        else []
      case ToolCall(event) => [ToolCalled(event)]
      case AppEvent => []
  }

  function RestoredAll(chat: Chat, events: seq<LogEntry>, toolIds: set<Uuid>): seq<BusPayload> {
    if events == [] then []
    else Restored(chat, events[0], toolIds) + RestoredAll(chat, events[1..], toolIds)
  }

  function EntriesOf(chatId: Uuid, payloads: seq<BusPayload>): seq<HistoryEntry> {
    seq(|payloads|, i requires 0 <= i < |payloads| => HistoryEntry(chatId, Bus(payloads[i])))
  }

  function HistoryFromChat(chat: Chat): seq<HistoryEntry> {
    EntriesOf(chat.id, RestoredAll(chat, chat.events, ToolEventIds(chat, chat.events)))
  }

  // --- Following the bus

  function Lookup(m: map<Uuid, string>, key: Uuid): Option<string> {
    if key in m then Some(m[key]) else None
  }

  function OrEmpty(text: Option<string>): string {
    if text.Some? then text.value else ""
  }

  function Bumped(v: View): View {
    v.(version := v.version + 1)
  }

  function Pushed(v: View, entry: HistoryEntry): View {
    Bumped(v.(history := v.history + [entry]))
  }

  function ThinkingEntries(chatId: Uuid, thinking: Option<string>): seq<HistoryEntry> {
    if thinking.Some? && thinking.value != "" then [HistoryEntry(chatId, Thinking(thinking.value))] else []
  }

  function Handled(v: View, event: BusEvent): View {
    Received(v.(activeChatId := Some(RootId(event.path))), Current(event.path), event.payload)
  }

  function Received(v: View, chatId: Uuid, payload: BusPayload): View {
    var entry := HistoryEntry(chatId, Bus(payload));
    match payload
    case TurnStarted =>
      Bumped(v.(turnInProgress := true, lastFinishReason := None,
        inFlightText := v.inFlightText - {chatId}, inFlightThinking := v.inFlightThinking - {chatId}))
    case TurnFinished(reason) =>
      Bumped(v.(turnInProgress := false, lastFinishReason := Some(reason)))
    case MessagePosted(message) =>
      if message.role == System then v
      else if message.role == Agent then Pushed(Flushed(v, chatId), entry)
      else Pushed(v, entry)
    case TextDelta(delta) =>
      Bumped(v.(inFlightText := v.inFlightText[chatId := OrEmpty(Lookup(v.inFlightText, chatId)) + delta]))
    case ThinkingDelta(delta) =>
      Bumped(v.(inFlightThinking := v.inFlightThinking[chatId := OrEmpty(Lookup(v.inFlightThinking, chatId)) + delta]))
    case _ => Pushed(v, entry)
  }

  /** A chat's thinking enters the history; what was in flight for it is dropped. */
  function Flushed(v: View, chatId: Uuid): View {
    v.(inFlightText := v.inFlightText - {chatId}, inFlightThinking := v.inFlightThinking - {chatId},
      history := v.history + ThinkingEntries(chatId, Lookup(v.inFlightThinking, chatId)))
  }

  function Replay(v: View, events: seq<BusEvent>): View
    decreases |events|
  {
    if events == [] then v else Replay(Handled(v, events[0]), events[1..])
  }

  // --- The other ways the view changes

  function Synced(v: View, summary: Summary, derive: Derive): View {
    Bumped(v.(summary := summary, stats := derive(summary)))
  }

  function Loaded(v: View, chat: Chat, summary: Summary, derive: Derive): View {
    Bumped(Synced(v.(activeChatId := Some(chat.id), pendingSubmission := None, history := HistoryFromChat(chat),
      inFlightText := map[], inFlightThinking := map[], scrollFromBottom := 0,
      turnInProgress := false, lastFinishReason := None), summary, derive))
  }

  function ResetView(v: View): View {
    Bumped(v.(activeChatId := None, pendingSubmission := None, history := [],
      inFlightText := map[], inFlightThinking := map[], scrollFromBottom := 0,
      turnInProgress := false, lastFinishReason := None,
      summary := v.summary.(inputTokens := 0, outputTokens := 0, usedTokens := 0), stats := Stats(None, None, None)))
  }

  datatype LoadError = NoStorage | StorageFailed(error: string) | NotFound(chatId: Uuid)

  /** What storage says when asked for a chat: its failure, nothing, or the chat with its summary. */
  type Loading = Result<Option<(Chat, Summary)>, string>

  class App {
    const derive: Derive
    var activeChatId: Option<Uuid>
    var pendingSubmission: Option<string>
    var summary: Summary
    var stats: Stats
    var history: seq<HistoryEntry>
    var inFlightText: map<Uuid, string>
    var inFlightThinking: map<Uuid, string>
    var scrollFromBottom: nat
    var turnInProgress: bool
    var lastFinishReason: Option<FinishReason>
    var version: nat

    function Shown(): View
      reads this
    {
      View(activeChatId, pendingSubmission, summary, stats, history, inFlightText, inFlightThinking,
        scrollFromBottom, turnInProgress, lastFinishReason, version)
    }

    constructor (restored: Option<Chat>, summary: Summary, derive: Derive)
      ensures this.derive == derive
      ensures Shown() == View(if restored.Some? then Some(restored.value.id) else None, None, summary, derive(summary),
        if restored.Some? then HistoryFromChat(restored.value) else [], map[], map[], 0, false, None, 0)
    {
      this.derive := derive;
      activeChatId := if restored.Some? then Some(restored.value.id) else None;
      this.summary, stats := summary, derive(summary);
      history := if restored.Some? then HistoryFromChat(restored.value) else [];
      pendingSubmission, inFlightText, inFlightThinking, scrollFromBottom := None, map[], map[], 0;
      turnInProgress, lastFinishReason, version := false, None, 0;
    }

    method InvalidateConversationCache()
      modifies this`version
      ensures version == old(version) + 1
    {
      version := version + 1;
    }

    method FlushInFlight(chatId: Uuid)
      modifies this`inFlightText, this`inFlightThinking, this`history
      ensures Shown() == Flushed(old(Shown()), chatId)
    {
      inFlightText := inFlightText - {chatId};
      var thinking := Lookup(inFlightThinking, chatId);
      inFlightThinking := inFlightThinking - {chatId};
      if thinking.Some? && thinking.value != "" {
        history := history + [HistoryEntry(chatId, Thinking(thinking.value))];
      } else {
        assert history + [] == history;
      }
    }

    method HandleBusEvent(event: BusEvent)
      modifies this
      ensures Shown() == Handled(old(Shown()), event)
    {
      activeChatId := Some(RootId(event.path));
      Receive(Current(event.path), event.payload);
    }

    method Receive(chatId: Uuid, payload: BusPayload)
      modifies this
      ensures Shown() == Received(old(Shown()), chatId, payload)
    {
      match payload {
        case TurnStarted =>
          turnInProgress, lastFinishReason := true, None;
          inFlightText := inFlightText - {chatId};
          inFlightThinking := inFlightThinking - {chatId};
          InvalidateConversationCache();
          return;
        case TurnFinished(reason) =>
          turnInProgress, lastFinishReason := false, Some(reason);
          InvalidateConversationCache();
          return;
        case MessagePosted(message) =>
          if message.role == System {
            return;
          }
          if message.role == Agent {
            FlushInFlight(chatId);
          }
        case TextDelta(delta) =>
          inFlightText := inFlightText[chatId := OrEmpty(Lookup(inFlightText, chatId)) + delta];
          InvalidateConversationCache();
          return;
        case ThinkingDelta(delta) =>
          inFlightThinking := inFlightThinking[chatId := OrEmpty(Lookup(inFlightThinking, chatId)) + delta];
          InvalidateConversationCache();
          return;
        case _ =>
      }
      history := history + [HistoryEntry(chatId, Bus(payload))];
      InvalidateConversationCache();
    }

    method SyncChatSummary(summary: Summary)
      modifies this`summary, this`stats, this`version
      ensures Shown() == Synced(old(Shown()), summary, derive)
    {
      this.summary := summary;
      stats := derive(summary);
      InvalidateConversationCache();
    }

    /** Nothing is in flight, scrolled or in progress. */
    method ClearProgress()
      modifies this`inFlightText, this`inFlightThinking, this`scrollFromBottom, this`turnInProgress,
        this`lastFinishReason
      ensures inFlightText == map[] && inFlightThinking == map[]
      ensures scrollFromBottom == 0 && !turnInProgress && lastFinishReason == None
    {
      inFlightText, inFlightThinking := map[], map[];
      scrollFromBottom, turnInProgress, lastFinishReason := 0, false, None;
    }

    method ShowChat(chat: Chat, summary: Summary)
      modifies this
      ensures Shown() == Loaded(old(Shown()), chat, summary, derive)
    {
      activeChatId, pendingSubmission := Some(chat.id), None;
      history := HistoryFromChat(chat);
      ClearProgress();
      SyncChatSummary(summary);
      InvalidateConversationCache();
    }

    /** `storage` is absent, or answers for this chat; `touchError` is the answer to recording
        the chat as last used, which comes after everything is in place. */
    method LoadChatSession(chatId: Uuid, storage: Option<Loading>, touchError: Option<string>)
      returns (r: Result<(), LoadError>)
      modifies this
      ensures var found := storage.Some? && storage.value.Ok? && storage.value.value.Some?;
        if found then Shown() == Loaded(old(Shown()), storage.value.value.value.0, storage.value.value.value.1, derive)
                      && r == (if touchError.Some? then Err(StorageFailed(touchError.value)) else Ok(()))
        else Shown() == old(Shown()) && r.Err?
      ensures storage == None ==> r == Err(NoStorage)
      ensures storage == Some(Ok(None)) ==> r == Err(NotFound(chatId))
    {
      if storage == None {
        return Err(NoStorage);
      }
      if storage.value.Err? {
        return Err(StorageFailed(storage.value.error));
      }
      if storage.value.value == None {
        return Err(NotFound(chatId));
      }
      ShowChat(storage.value.value.value.0, storage.value.value.value.1);
      if touchError.Some? {
        return Err(StorageFailed(touchError.value));
      }
      return Ok(());
    }

    method ResetForNewChat()
      modifies this
      ensures Shown() == ResetView(old(Shown()))
    {
      activeChatId, pendingSubmission, history := None, None, [];
      ClearProgress();
      summary := summary.(inputTokens := 0, outputTokens := 0, usedTokens := 0);
      stats := Stats(None, None, None);
      InvalidateConversationCache();
    }
  }

  // --- What concerns one chat

  datatype ChatView = ChatView(entries: seq<HistoryPayload>, text: Option<string>, thinking: Option<string>)

  function EntriesFor(history: seq<HistoryEntry>, chatId: Uuid): seq<HistoryPayload> {
    if history == [] then []
    else (if history[0].chatId == chatId then [history[0].payload] else []) + EntriesFor(history[1..], chatId)
  }

  function ViewOf(v: View, chatId: Uuid): ChatView {
    ChatView(EntriesFor(v.history, chatId), Lookup(v.inFlightText, chatId), Lookup(v.inFlightThinking, chatId))
  }

  function PayloadsFor(events: seq<BusEvent>, chatId: Uuid): seq<BusPayload> {
    if events == [] then []
    else (if Current(events[0].path) == chatId then [events[0].payload] else []) + PayloadsFor(events[1..], chatId)
  }

  /** How one chat's view follows that chat's own events. */
  function Follow(c: ChatView, payload: BusPayload): ChatView {
    match payload
    case TurnStarted => c.(text := None, thinking := None)
    case TurnFinished(_) => c
    case MessagePosted(message) =>
      if message.role == System then c
      else if message.role == Agent then
        ChatView(c.entries + (if OrEmpty(c.thinking) != "" then [Thinking(c.thinking.value)] else []) + [Bus(payload)],
          None, None)
      else c.(entries := c.entries + [Bus(payload)])
    case TextDelta(delta) => c.(text := Some(OrEmpty(c.text) + delta))
    case ThinkingDelta(delta) => c.(thinking := Some(OrEmpty(c.thinking) + delta))
    case _ => c.(entries := c.entries + [Bus(payload)])
  }

  function FollowAll(c: ChatView, payloads: seq<BusPayload>): ChatView
    decreases |payloads|
  {
    if payloads == [] then c else FollowAll(Follow(c, payloads[0]), payloads[1..])
  }

  lemma {:induction false} EntriesForConcat(a: seq<HistoryEntry>, b: seq<HistoryEntry>, chatId: Uuid)
    ensures EntriesFor(a + b, chatId) == EntriesFor(a, chatId) + EntriesFor(b, chatId)
  {
    if a == [] {
      assert a + b == b;
    } else {
      assert (a + b)[1..] == a[1..] + b;
      EntriesForConcat(a[1..], b, chatId);
      Assoc(if a[0].chatId == chatId then [a[0].payload] else [], EntriesFor(a[1..], chatId), EntriesFor(b, chatId));
    }
  }

  lemma EntriesForOne(history: seq<HistoryEntry>, entry: HistoryEntry, chatId: Uuid)
    ensures EntriesFor(history + [entry], chatId)
         == EntriesFor(history, chatId) + (if entry.chatId == chatId then [entry.payload] else [])
  {
    EntriesForConcat(history, [entry], chatId);
    assert [entry][1..] == [];
  }

  ghost predicate FollowsFor(v: View, event: BusEvent, chatId: Uuid) {
    ViewOf(Handled(v, event), chatId)
    == if Current(event.path) == chatId then Follow(ViewOf(v, chatId), event.payload) else ViewOf(v, chatId)
  }

  lemma AgentMessageFor(v: View, event: BusEvent, chatId: Uuid)
    requires event.payload.MessagePosted? && event.payload.message.role == Agent
    ensures FollowsFor(v, event, chatId)
  {
    var own, v' := Current(event.path), Handled(v, event);
    ThoughtAndMessageFor(v.history, own, Lookup(v.inFlightThinking, own), Bus(event.payload), chatId);
    assert v'.inFlightText == v.inFlightText - {own} && v'.inFlightThinking == v.inFlightThinking - {own};
  }

  lemma ThoughtAndMessageFor(history: seq<HistoryEntry>, own: Uuid, thinking: Option<string>, message: HistoryPayload,
      chatId: Uuid)
    ensures EntriesFor(history + ThinkingEntries(own, thinking) + [HistoryEntry(own, message)], chatId)
         == if own == chatId
            then EntriesFor(history, chatId) + (if OrEmpty(thinking) != "" then [Thinking(thinking.value)] else [])
              + [message]
            else EntriesFor(history, chatId)
  {
    var thought := ThinkingEntries(own, thinking);
    EntriesForConcat(history, thought, chatId);
    EntriesForOne(history + thought, HistoryEntry(own, message), chatId);
    assert |thought| == 1 ==> thought[1..] == [];
  }

  predicate BuffersOnly(payload: BusPayload) {
    payload.TextDelta? || payload.ThinkingDelta? || payload.TurnStarted? || payload.TurnFinished?
  }

  lemma BuffersFor(v: View, event: BusEvent, chatId: Uuid)
    requires BuffersOnly(event.payload)
    ensures FollowsFor(v, event, chatId)
  {
  }

  lemma HandledFor(v: View, event: BusEvent, chatId: Uuid)
    ensures FollowsFor(v, event, chatId)
  {
    if event.payload.MessagePosted? && event.payload.message.role == Agent {
      AgentMessageFor(v, event, chatId);
    } else if BuffersOnly(event.payload) {
      BuffersFor(v, event, chatId);
    } else {
      var entry := HistoryEntry(Current(event.path), Bus(event.payload));
      EntriesForOne(v.history, entry, chatId);
      assert Handled(v, event).history in {v.history, v.history + [entry]};
    }
  }

  /** However the streams of several chats are interleaved, what is shown of one chat depends
      on that chat's own events alone. */
  lemma {:induction false} ChatsApart(v: View, events: seq<BusEvent>, chatId: Uuid)
    ensures ViewOf(Replay(v, events), chatId) == FollowAll(ViewOf(v, chatId), PayloadsFor(events, chatId))
    decreases |events|
  {
    if events == [] {
    } else {
      HandledFor(v, events[0], chatId);
      ChatsApart(Handled(v, events[0]), events[1..], chatId);
      var payloads, rest := PayloadsFor(events, chatId), PayloadsFor(events[1..], chatId);
      if Current(events[0].path) == chatId {
        assert payloads[1..] == rest;
      } else {
        assert payloads == rest;
      }
    }
  }

  // --- Turns

  predicate TellsTurn(event: BusEvent) {
    event.payload.TurnStarted? || event.payload.TurnFinished?
  }

  /** Whether a turn is in progress, and how the last one ended, is what was last told of turns,
      by whatever chat. */
  lemma {:induction false} TurnIsLastTold(v: View, events: seq<BusEvent>)
    ensures var shown, told := Replay(v, events), Filter(TellsTurn, events);
      if told == [] then shown.turnInProgress == v.turnInProgress && shown.lastFinishReason == v.lastFinishReason
      else match told[|told| - 1].payload
        case TurnFinished(reason) => !shown.turnInProgress && shown.lastFinishReason == Some(reason)
        case _ => shown.turnInProgress && shown.lastFinishReason == None
    decreases |events|
  {
    if events == [] {
    } else {
      TurnIsLastTold(Handled(v, events[0]), events[1..]);
      TurnHandled(v, events[0]);
    }
  }

  lemma TurnHandled(v: View, event: BusEvent)
    ensures var shown := Handled(v, event);
      match event.payload
      case TurnStarted => shown.turnInProgress && shown.lastFinishReason == None
      case TurnFinished(reason) => !shown.turnInProgress && shown.lastFinishReason == Some(reason)
      case _ => shown.turnInProgress == v.turnInProgress && shown.lastFinishReason == v.lastFinishReason
  {
  }

  /** The active chat is the root of whoever was heard last. */
  lemma {:induction false} ActiveIsLastHeard(v: View, events: seq<BusEvent>)
    ensures Replay(v, events).activeChatId
      == if events == [] then v.activeChatId else Some(events[|events| - 1].path[0])
    decreases |events|
  {
    if events == [] {
    } else {
      ActiveIsLastHeard(Handled(v, events[0]), events[1..]);
    }
  }

  /** Events leave alone what was typed, summed up or scrolled to. */
  lemma {:induction false} EventsLeaveAlone(v: View, events: seq<BusEvent>)
    ensures LeftAlone(v, Replay(v, events), |events|)
    decreases |events|
  {
    if events == [] {
    } else {
      EventsLeaveAlone(Handled(v, events[0]), events[1..]);
      EventLeavesAlone(v, events[0]);
    }
  }

  lemma EventLeavesAlone(v: View, event: BusEvent)
    ensures LeftAlone(v, Handled(v, event), 1)
  {
  }

  ghost predicate LeftAlone(v: View, shown: View, n: nat) {
    shown.pendingSubmission == v.pendingSubmission && shown.summary == v.summary && shown.stats == v.stats
    && shown.scrollFromBottom == v.scrollFromBottom && v.version <= shown.version <= v.version + n
  }

  /** A sync shows the summary it is given, and what follows from that, and nothing else changes. */
  lemma SyncShows(v: View, summary: Summary, derive: Derive)
    ensures var shown := Synced(v, summary, derive);
      shown.summary == summary && shown.stats == derive(summary) && shown.version == v.version + 1
      && shown.(summary := v.summary, stats := v.stats, version := v.version) == v
  {
  }
}
