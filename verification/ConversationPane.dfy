/** Drawing the conversation: what is built from the app's state, and when a kept copy will do. */
module ConversationPane {
  import opened Prelude
  import opened Chats
  import opened TuiApp

  /** The pulse has six phases of 200 milliseconds but only three looks. */
  datatype Pulse = Dim | Middle | Bright

  function PulseAt(phase: nat): Pulse {
    match phase % 6
    case 0 => Dim
    case 5 => Dim
    case 1 => Middle
    case 4 => Middle
    case _ => Bright
  }

  datatype Dot = Succeeded | Broke | Pulsing(pulse: Pulse)

  /** The pane, block by block; what a block's lines look like is the formatter's business. */
  datatype Block =
    | Banner(summary: Summary, stats: Stats)
    | Blank
    | Markdown(content: string)
    | UserText(content: string)
    | Thoughts(content: string)
    | ToolStart(toolCallId: Uuid, toolName: string, arguments: Json, dot: Dot)
    | ToolResult(event: ToolCallEvent, width: nat)
    | Notice(text: string)
    | Doing(pulse: Pulse)

  // --- Tool outcomes

  type Outcomes = map<Uuid, ToolCallEvent>

  predicate IsOutcome(entry: HistoryEntry) {
    entry.payload.Bus? && entry.payload.payload.ToolCalled? && !entry.payload.payload.toolCall.Started?
  }

  predicate IsStart(entry: HistoryEntry) {
    entry.payload.Bus? && entry.payload.payload.ToolCalled? && entry.payload.payload.toolCall.Started?
  }

  function EventOf(entry: HistoryEntry): ToolCallEvent
    requires IsOutcome(entry) || IsStart(entry)
  {
    entry.payload.payload.toolCall
  }

  /** The last outcome with each id. */
  function OutcomesIn(history: seq<HistoryEntry>): Outcomes {
    if history == [] then map[]
    else
      var last, before := history[|history| - 1], OutcomesIn(history[..|history| - 1]);
      if IsOutcome(last) then before[EventOf(last).toolCallId := EventOf(last)] else before
  }

  method BuildToolOutcomeLookup(history: seq<HistoryEntry>) returns (outcomes: Outcomes)
    ensures outcomes == OutcomesIn(history)
  {
    outcomes := map[];
    for i := 0 to |history|
      invariant outcomes == OutcomesIn(history[..i])
    {
      assert history[..i + 1][..i] == history[..i];
      if IsOutcome(history[i]) {
        outcomes := outcomes[EventOf(history[i]).toolCallId := EventOf(history[i])];
      }
    }
    assert history[..|history|] == history;
  }

  predicate HasMatchingToolStart(outcomes: Outcomes, id: Uuid) {
    id in outcomes
  }

  function DotFor(outcomes: Outcomes, id: Uuid, phase: nat): Dot {
    if id !in outcomes then Pulsing(PulseAt(phase))
    else match outcomes[id]
      case Completed(_, _, _) => Succeeded
      case Failed(_, _, _) => Broke
      case Started(_, _, _) => Pulsing(PulseAt(phase))
  }

  // --- The builder

  function OutcomeBlocks(outcomes: Outcomes, id: Uuid, width: nat): seq<Block> {
    if id in outcomes && !outcomes[id].Started? then [ToolResult(outcomes[id], width)] else []
  }

  function EntryBlocks(entry: HistoryEntry, outcomes: Outcomes, phase: nat, width: nat): seq<Block> {
    match entry.payload
    case Thinking(text) => [Thoughts(text)]
    case Bus(payload) =>
      match payload
      case MessagePosted(message) => if message.role == Agent then [Markdown(message.content)]
        else [UserText(message.content)]
      case ToolCalled(event) =>
        if event.Started? then
          [ToolStart(event.toolCallId, event.toolName, event.arguments, DotFor(outcomes, event.toolCallId, phase))]
            + OutcomeBlocks(outcomes, event.toolCallId, width)
        else if HasMatchingToolStart(outcomes, event.toolCallId) then []
        else [ToolResult(event, width)]
      case AgentShutdown => [Notice("shutdown")]
      case Error(text) => [Notice("error: " + text)]
      case _ => []
  }

  function Spaced(first: bool, entry: HistoryEntry): seq<Block> {
    if !first && !IsOutcome(entry) then [Blank] else []
  }

  function HistoryBlocks(history: seq<HistoryEntry>, outcomes: Outcomes, phase: nat, width: nat): seq<Block> {
    if history == [] then []
    else
      var n := |history| - 1;
      HistoryBlocks(history[..n], outcomes, phase, width) + Spaced(n == 0, history[n])
        + EntryBlocks(history[n], outcomes, phase, width)
  }

  /** The buffer shown for the active chat, if it is not empty. */
  function InFlight(v: View, buffers: map<Uuid, string>): Option<string> {
    if v.activeChatId.Some? && v.activeChatId.value in buffers && buffers[v.activeChatId.value] != ""
    then Some(buffers[v.activeChatId.value]) else None
  }

  function Apart(somethingBefore: bool): seq<Block> {
    if somethingBefore then [Blank] else []
  }

  function ThinkingTail(before: bool, thinking: Option<string>): seq<Block> {
    if thinking.Some? then Apart(before) + [Thoughts(thinking.value)] else []
  }

  function TextTail(before: bool, text: Option<string>): seq<Block> {
    if text.Some? then Apart(before) + [Markdown(text.value)] else []
  }

  function TurnTail(before: bool, turnInProgress: bool, phase: nat): seq<Block> {
    if turnInProgress then Apart(before) + [Doing(PulseAt(phase))] else []
  }

  function TailBlocks(before: bool, thinking: Option<string>, text: Option<string>, turnInProgress: bool,
      phase: nat): seq<Block> {
    ThinkingTail(before, thinking) + TextTail(before || thinking.Some?, text)
    + TurnTail(before || thinking.Some? || text.Some?, turnInProgress, phase) + [Blank, Blank, Blank]
  }

  /** The pane built afresh. */
  function Fresh(v: View, phase: nat, width: nat): seq<Block> {
    [Banner(v.summary, v.stats), Blank, Blank]
    + HistoryBlocks(v.history, OutcomesIn(v.history), phase, width)
    + TailBlocks(v.history != [], InFlight(v, v.inFlightThinking), InFlight(v, v.inFlightText), v.turnInProgress, phase)
  }

  lemma HistoryStep(history: seq<HistoryEntry>, i: nat, outcomes: Outcomes, phase: nat, width: nat)
    requires i < |history|
    ensures HistoryBlocks(history[..i + 1], outcomes, phase, width)
         == HistoryBlocks(history[..i], outcomes, phase, width) + Spaced(i == 0, history[i])
           + EntryBlocks(history[i], outcomes, phase, width)
  {
    assert history[..i + 1][..i] == history[..i];
  }

  method AppendHistory(history: seq<HistoryEntry>, outcomes: Outcomes, phase: nat, width: nat, top: seq<Block>)
    returns (blocks: seq<Block>)
    ensures blocks == top + HistoryBlocks(history, outcomes, phase, width)
  {
    blocks := top;
    for i := 0 to |history|
      invariant blocks == top + HistoryBlocks(history[..i], outcomes, phase, width)
    {
      ghost var done, space := HistoryBlocks(history[..i], outcomes, phase, width), Spaced(i == 0, history[i]);
      var own := EntryBlocks(history[i], outcomes, phase, width);
      HistoryStep(history, i, outcomes, phase, width);
      Assoc(top, done, space);
      Assoc(top, done + space, own);
      if i > 0 && !IsOutcome(history[i]) {
        blocks := blocks + [Blank];
      }
      assert blocks == top + (done + space);
      blocks := blocks + own;
    }
    assert history[..|history|] == history;
  }

  method AppendTail(v: View, phase: nat, above: seq<Block>) returns (blocks: seq<Block>)
    ensures blocks == above
      + TailBlocks(v.history != [], InFlight(v, v.inFlightThinking), InFlight(v, v.inFlightText), v.turnInProgress,
        phase)
  {
    var before := v.history != [];
    var thinking, text := InFlight(v, v.inFlightThinking), InFlight(v, v.inFlightText);
    blocks := [];
    if thinking.Some? {
      blocks := blocks + Apart(before) + [Thoughts(thinking.value)];
    }
    assert blocks == ThinkingTail(before, thinking);
    if text.Some? {
      blocks := blocks + (Apart(before || thinking.Some?) + [Markdown(text.value)]);
    }
    assert blocks == ThinkingTail(before, thinking) + TextTail(before || thinking.Some?, text);
    if v.turnInProgress {
      blocks := blocks + (Apart(before || thinking.Some? || text.Some?) + [Doing(PulseAt(phase))]);
    }
    blocks := above + (blocks + [Blank, Blank, Blank]);
  }

  method BuildConversationUncached(v: View, phase: nat, width: nat) returns (blocks: seq<Block>)
    ensures blocks == Fresh(v, phase, width)
  {
    var outcomes := BuildToolOutcomeLookup(v.history);
    blocks := [Banner(v.summary, v.stats), Blank, Blank];
    blocks := AppendHistory(v.history, outcomes, phase, width, blocks);
    blocks := AppendTail(v, phase, blocks);
  }

  // --- The kept copy

  datatype CacheKey = CacheKey(version: nat, spinnerPhase: Option<nat>, viewportWidth: nat)

  datatype Cached = Cached(key: CacheKey, blocks: seq<Block>)

  function SpinnerPhase(v: View, millis: nat): Option<nat> {
    if v.turnInProgress then Some(millis / 200) else None
  }

  function ConversationCacheKey(v: View, millis: nat, width: nat): CacheKey {
    CacheKey(v.version, SpinnerPhase(v, millis), width)
  }

  predicate Hits(cache: Option<Cached>, v: View, millis: nat, width: nat) {
    cache.Some? && cache.value.key == ConversationCacheKey(v, millis, width)
  }

  function Drawn(cache: Option<Cached>, v: View, millis: nat, width: nat): Cached {
    if Hits(cache, v, millis, width) then cache.value
    else Cached(ConversationCacheKey(v, millis, width), Fresh(v, millis / 200, width))
  }

  class ConversationCache {
    var cached: Option<Cached>

    constructor ()
      ensures cached == None
    {
      cached := None;
    }

    method BuildConversationLines(v: View, millis: nat, width: nat) returns (blocks: seq<Block>)
      modifies this
      ensures cached == Some(Drawn(old(cached), v, millis, width)) && blocks == cached.value.blocks
    {
      var key := ConversationCacheKey(v, millis, width);
      if cached.Some? && cached.value.key == key {
        return cached.value.blocks;
      }
      blocks := BuildConversationUncached(v, millis / 200, width);
      cached := Some(Cached(key, blocks));
    }
  }

  // --- A session: what may happen between draws

  datatype Happening =
    | BusEventSeen(event: BusEvent)
    | SummarySynced(summary: Summary)
    | SessionLoaded(chat: Chat, summary: Summary)
    | NewChat
    | Redraw(millis: nat, width: nat)

  /** The app's state and the kept copy; and, for the argument only, what the copy was made for and when. */
  datatype Session = Session(view: View, cache: Option<Cached>, madeFor: View, madeAt: nat)

  function Happens(s: Session, h: Happening, derive: Derive): Session {
    match h
    case BusEventSeen(event) => s.(view := Handled(s.view, event))
    case SummarySynced(summary) => s.(view := Synced(s.view, summary, derive))
    case SessionLoaded(chat, summary) => s.(view := Loaded(s.view, chat, summary, derive))
    case NewChat => s.(view := ResetView(s.view))
    case Redraw(millis, width) =>
      var kept := Hits(s.cache, s.view, millis, width);
      Session(s.view, Some(Drawn(s.cache, s.view, millis, width)),
        if kept then s.madeFor else s.view, if kept then s.madeAt else millis)
  }

  function Course(s: Session, happenings: seq<Happening>, derive: Derive): Session
    decreases |happenings|
  {
    if happenings == [] then s else Course(Happens(s, happenings[0], derive), happenings[1..], derive)
  }

  function Opening(v: View): Session {
    Session(v, None, v, 0)
  }

  /** The copy is the pane built for what it was made for, and if no version has passed since,
      that differs from the present at most in the active chat. */
  ghost predicate Kept(s: Session) {
    s.cache.Some? ==>
      var key := s.cache.value.key;
      s.cache.value.blocks == Fresh(s.madeFor, s.madeAt / 200, key.viewportWidth)
      && key == ConversationCacheKey(s.madeFor, s.madeAt, key.viewportWidth)
      && key.version <= s.view.version
      && (key.version == s.view.version ==> s.view == s.madeFor.(activeChatId := s.view.activeChatId))
  }

  lemma HappensKept(s: Session, h: Happening, derive: Derive)
    requires Kept(s)
    ensures Kept(Happens(s, h, derive))
  {
    if h.BusEventSeen? {
      HandledBumps(s.view, h.event);
    }
  }

  /** Every event moves the version on, except a system message, which touches nothing but the active chat. */
  lemma HandledBumps(v: View, event: BusEvent)
    ensures if IsSystemMessage(event)
      then Handled(v, event) == v.(activeChatId := Some(RootId(event.path)))
      else Handled(v, event).version == v.version + 1
  {
  }

  predicate IsSystemMessage(event: BusEvent) {
    event.payload.MessagePosted? && event.payload.message.role == System
  }

  lemma {:induction false} CourseKept(s: Session, happenings: seq<Happening>, derive: Derive)
    requires Kept(s)
    ensures Kept(Course(s, happenings, derive))
    decreases |happenings|
  {
    if happenings == [] {
    } else {
      HappensKept(s, happenings[0], derive);
      CourseKept(Happens(s, happenings[0], derive), happenings[1..], derive);
    }
  }

  /** Some tool call has not come to its outcome. */
  predicate ToolOpen(history: seq<HistoryEntry>) {
    exists i :: 0 <= i < |history| && OpenAt(history, i)
  }

  predicate OpenAt(history: seq<HistoryEntry>, i: nat)
    requires i < |history|
  {
    IsStart(history[i]) && EventOf(history[i]).toolCallId !in OutcomesIn(history)
  }

  /** Whether, drawn at two times, the pane's moving parts look the same. */
  predicate StillLooksRight(v: View, madeAt: nat, now: nat) {
    PulseAt(madeAt / 200) == PulseAt(now / 200) || (!v.turnInProgress && !ToolOpen(v.history))
  }

  predicate SameInFlight(v: View, active: Option<Uuid>) {
    InFlight(v, v.inFlightThinking) == InFlight(v.(activeChatId := active), v.inFlightThinking)
    && InFlight(v, v.inFlightText) == InFlight(v.(activeChatId := active), v.inFlightText)
  }

  lemma {:induction false} HistoryLength(history: seq<HistoryEntry>, outcomes: Outcomes, phase: nat, phase': nat,
      width: nat)
    ensures |HistoryBlocks(history, outcomes, phase, width)| == |HistoryBlocks(history, outcomes, phase', width)|
  {
    if history == [] {
    } else {
      HistoryLength(history[..|history| - 1], outcomes, phase, phase', width);
    }
  }

  predicate OpenUnder(history: seq<HistoryEntry>, outcomes: Outcomes) {
    exists i :: 0 <= i < |history| && IsStart(history[i]) && EventOf(history[i]).toolCallId !in outcomes
  }

  ghost predicate OutcomesOnly(outcomes: Outcomes) {
    forall id | id in outcomes :: !outcomes[id].Started?
  }

  lemma {:induction false} LookupHoldsOutcomes(history: seq<HistoryEntry>)
    ensures OutcomesOnly(OutcomesIn(history))
    ensures forall i | 0 <= i < |history|
      && IsOutcome(history[i]) :: EventOf(history[i]).toolCallId in OutcomesIn(history)
  {
    if history == [] {
    } else {
      LookupHoldsOutcomes(history[..|history| - 1]);
    }
  }

  /** The history looks the same at two phases exactly when they pulse alike or nothing pulses. */
  lemma {:induction false} HistoryLooks(history: seq<HistoryEntry>, outcomes: Outcomes, phase: nat, phase': nat,
      width: nat)
    requires OutcomesOnly(outcomes)
    ensures HistoryBlocks(history, outcomes, phase, width) == HistoryBlocks(history, outcomes, phase', width)
      <==> PulseAt(phase) == PulseAt(phase') || !OpenUnder(history, outcomes)
  {
    if history == [] {
    } else {
      var n := |history| - 1;
      var before, last := history[..n], history[n];
      HistoryLooks(before, outcomes, phase, phase', width);
      HistoryLength(before, outcomes, phase, phase', width);
      EntryLooks(last, outcomes, phase, phase', width);
      SplitEqual(HistoryBlocks(before, outcomes, phase, width) + Spaced(n == 0, last),
        EntryBlocks(last, outcomes, phase, width),
        HistoryBlocks(before, outcomes, phase', width)
          + Spaced(n == 0, last), EntryBlocks(last, outcomes, phase', width));
      SplitEqual(HistoryBlocks(before, outcomes, phase, width), Spaced(n == 0, last),
        HistoryBlocks(before, outcomes, phase', width), Spaced(n == 0, last));
      OpenLast(history, outcomes);
    }
  }

  lemma OpenLast(history: seq<HistoryEntry>, outcomes: Outcomes)
    requires history != []
    ensures var last := history[|history| - 1];
      OpenUnder(history, outcomes)
      <==> OpenUnder(history[..|history| - 1], outcomes) || (IsStart(last) && EventOf(last).toolCallId !in outcomes)
  {
    var before := history[..|history| - 1];
    if OpenUnder(before, outcomes) {
      var i :| 0 <= i < |before| && IsStart(before[i]) && EventOf(before[i]).toolCallId !in outcomes;
      assert history[i] == before[i];
    }
    if OpenUnder(history, outcomes) {
      var i :| 0 <= i < |history| && IsStart(history[i]) && EventOf(history[i]).toolCallId !in outcomes;
      assert i < |before| ==> before[i] == history[i];
    }
  }

  lemma SplitEqual<T>(a: seq<T>, b: seq<T>, c: seq<T>, d: seq<T>)
    requires |a| == |c|
    ensures a + b == c + d <==> a == c && b == d
  {
    if a + b == c + d {
      assert a == (a + b)[..|a|] && c == (c + d)[..|a|];
      assert b == (a + b)[|a|..] && d == (c + d)[|a|..];
    }
  }

  lemma EntryLooks(entry: HistoryEntry, outcomes: Outcomes, phase: nat, phase': nat, width: nat)
    requires OutcomesOnly(outcomes)
    ensures |EntryBlocks(entry, outcomes, phase, width)| == |EntryBlocks(entry, outcomes, phase', width)|
    ensures EntryBlocks(entry, outcomes, phase, width) == EntryBlocks(entry, outcomes, phase', width)
      <==> PulseAt(phase) == PulseAt(phase') || !(IsStart(entry) && EventOf(entry).toolCallId !in outcomes)
  {
    if IsStart(entry) {
      var e := EventOf(entry);
      SplitEqual([ToolStart(e.toolCallId, e.toolName, e.arguments, DotFor(outcomes, e.toolCallId, phase))],
        OutcomeBlocks(outcomes, e.toolCallId, width),
        [ToolStart(e.toolCallId, e.toolName, e.arguments, DotFor(outcomes, e.toolCallId, phase'))],
          OutcomeBlocks(outcomes, e.toolCallId, width));
    }
  }

  /** The same for what is in flight and the spinner. */
  lemma TailLooks(before: bool, thinking: Option<string>, text: Option<string>, thinking': Option<string>,
      text': Option<string>,
                  turn: bool, phase: nat, phase': nat)
    ensures TailBlocks(before, thinking, text, turn, phase) == TailBlocks(before, thinking', text', turn, phase')
      <==> thinking == thinking' && text == text' && (!turn || PulseAt(phase) == PulseAt(phase'))
  {
    TailShape(before, thinking, text, turn, phase);
    TailShape(before, thinking', text', turn, phase');
    var s, s' := Parts(thinking, text, turn, phase), Parts(thinking', text', turn, phase');
    PartsTell(thinking, text, turn, phase);
    PartsTell(thinking', text', turn, phase');
  }

  function Parts(thinking: Option<string>, text: Option<string>, turn: bool, phase: nat): seq<Block> {
    ThinkingTail(false, thinking) + TextTail(false, text) + TurnTail(false, turn, phase)
  }

  lemma PartsTell(thinking: Option<string>, text: Option<string>, turn: bool, phase: nat)
    ensures var s := Parts(thinking, text, turn, phase);
      (forall x :: thinking == Some(x) <==> Thoughts(x) in s) && (forall x :: text == Some(x) <==> Markdown(x) in s)
      && (forall p :: turn && PulseAt(phase) == p <==> Doing(p) in s)
  {
  }

  function Shown(blocks: seq<Block>): seq<Block> {
    if blocks == [] then [] else (if blocks[0] == Blank then [] else [blocks[0]]) + Shown(blocks[1..])
  }

  lemma {:induction false} ShownConcat(a: seq<Block>, b: seq<Block>)
    ensures Shown(a + b) == Shown(a) + Shown(b)
  {
    if a == [] {
      assert a + b == b;
    } else {
      assert (a + b)[1..] == a[1..] + b;
      ShownConcat(a[1..], b);
      Assoc(if a[0] == Blank then [] else [a[0]], Shown(a[1..]), Shown(b));
    }
  }

  /** What a tail shows tells its parts. */
  lemma TailShape(before: bool, thinking: Option<string>, text: Option<string>, turn: bool, phase: nat)
    ensures Shown(TailBlocks(before, thinking, text, turn, phase)) == Parts(thinking, text, turn, phase)
  {
    var a, b := ThinkingTail(before, thinking), TextTail(before || thinking.Some?, text);
    var c := TurnTail(before || thinking.Some? || text.Some?, turn, phase);
    ShownConcat(a + b + c, [Blank, Blank, Blank]);
    ShownConcat(a + b, c);
    ShownConcat(a, b);
    ShownBlanks();
    PartsShown(before, before || thinking.Some?, before || thinking.Some? || text.Some?, thinking, text, turn, phase);
  }

  lemma PartsShown(b1: bool, b2: bool, b3: bool, thinking: Option<string>, text: Option<string>, turn: bool, phase: nat)
    ensures Shown(ThinkingTail(b1, thinking)) == ThinkingTail(false, thinking)
    ensures Shown(TextTail(b2, text)) == TextTail(false, text)
    ensures Shown(TurnTail(b3, turn, phase)) == TurnTail(false, turn, phase)
  {
    if thinking.Some? { ShownApart(b1, Thoughts(thinking.value)); }
    if text.Some? { ShownApart(b2, Markdown(text.value)); }
    if turn { ShownApart(b3, Doing(PulseAt(phase))); }
  }

  lemma ShownBlanks()
    ensures Shown([Blank, Blank, Blank]) == []
  {
    assert [Blank, Blank, Blank][1..] == [Blank, Blank];
    assert [Blank, Blank][1..] == [Blank];
  }

  lemma ShownApart(before: bool, block: Block)
    requires block != Blank
    ensures Shown(Apart(before) + [block]) == [block]
  {
    ShownConcat(Apart(before), [block]);
    assert [block][1..] == [];
  }

  lemma OpenBoth(history: seq<HistoryEntry>)
    ensures OpenUnder(history, OutcomesIn(history)) <==> ToolOpen(history)
  {
    if OpenUnder(history, OutcomesIn(history)) {
      var i :| 0 <= i < |history| && IsStart(history[i]) && EventOf(history[i]).toolCallId !in OutcomesIn(history);
      assert OpenAt(history, i);
    }
    if ToolOpen(history) {
      var i :| 0 <= i < |history| && OpenAt(history, i);
      assert IsStart(history[i]) && EventOf(history[i]).toolCallId !in OutcomesIn(history);
    }
  }

  lemma FreshLooks(v: View, active: Option<Uuid>, phase: nat, phase': nat, width: nat)
    ensures var v' := v.(activeChatId := active);
      Fresh(v, phase, width) == Fresh(v', phase', width)
      <==> SameInFlight(v, active) && (PulseAt(phase) == PulseAt(phase') || (!v.turnInProgress && !ToolOpen(v.history)))
  {
    var v' := v.(activeChatId := active);
    var outcomes := OutcomesIn(v.history);
    LookupHoldsOutcomes(v.history);
    HistoryLooks(v.history, outcomes, phase, phase', width);
    HistoryLength(v.history, outcomes, phase, phase', width);
    var top := [Banner(v.summary, v.stats), Blank, Blank];
    var h, h' := HistoryBlocks(v.history, outcomes, phase, width), HistoryBlocks(v.history, outcomes, phase', width);
    var thinking, text := InFlight(v, v.inFlightThinking), InFlight(v, v.inFlightText);
    var thinking', text' := InFlight(v', v.inFlightThinking), InFlight(v', v.inFlightText);
    var t := TailBlocks(v.history != [], thinking, text, v.turnInProgress, phase);
    var t' := TailBlocks(v.history != [], thinking', text', v.turnInProgress, phase');
    TailLooks(v.history != [], thinking, text, thinking', text', v.turnInProgress, phase, phase');
    SplitEqual(top + h, t, top + h', t');
    SplitEqual(top, h, top, h');
    OpenBoth(v.history);
  }

  /** After any course of events, a draw shows what a fresh build would exactly when it builds
      afresh, or the active chat's buffers are those the copy was made with and whatever pulses
      looks as it did. */
  lemma DrawIsFreshExactly(v: View, happenings: seq<Happening>, derive: Derive, millis: nat, width: nat)
    ensures var s := Course(Opening(v), happenings, derive);
      Drawn(s.cache, s.view, millis, width).blocks == Fresh(s.view, millis / 200, width)
      <==> !Hits(s.cache, s.view, millis, width)
           || (SameInFlight(s.view, s.madeFor.activeChatId) && StillLooksRight(s.view, s.madeAt, millis))
  {
    var s := Course(Opening(v), happenings, derive);
    CourseKept(Opening(v), happenings, derive);
    if Hits(s.cache, s.view, millis, width) {
      assert s.madeFor == s.view.(activeChatId := s.madeFor.activeChatId);
      FreshLooks(s.view, s.madeFor.activeChatId, millis / 200, s.madeAt / 200, width);
    }
  }

  /** Without system messages, the copy was made for just the present state. */
  ghost predicate KeptWhole(s: Session) {
    Kept(s) && (s.cache.Some? && s.cache.value.key.version == s.view.version ==> s.view == s.madeFor)
  }

  ghost predicate NoSystemMessages(happenings: seq<Happening>) {
    forall i | 0 <= i < |happenings| && happenings[i].BusEventSeen? :: !IsSystemMessage(happenings[i].event)
  }

  lemma HappensKeptWhole(s: Session, h: Happening, derive: Derive)
    requires KeptWhole(s) && (h.BusEventSeen? ==> !IsSystemMessage(h.event))
    ensures KeptWhole(Happens(s, h, derive))
  {
    HappensKept(s, h, derive);
    if h.BusEventSeen? {
      HandledBumps(s.view, h.event);
    }
  }

  lemma {:induction false} CourseKeptWhole(s: Session, happenings: seq<Happening>, derive: Derive)
    requires KeptWhole(s) && NoSystemMessages(happenings)
    ensures KeptWhole(Course(s, happenings, derive))
    decreases |happenings|
  {
    if happenings == [] {
    } else {
      HappensKeptWhole(s, happenings[0], derive);
      CourseKeptWhole(Happens(s, happenings[0], derive), happenings[1..], derive);
    }
  }

  /** So every draw is as good as fresh if no system message came and no tool call is open
      while no turn runs. */
  lemma DrawIsFresh(v: View, happenings: seq<Happening>, derive: Derive, millis: nat, width: nat)
    requires NoSystemMessages(happenings)
    requires var s := Course(Opening(v), happenings, derive); s.view.turnInProgress || !ToolOpen(s.view.history)
    ensures var s := Course(Opening(v), happenings, derive);
      Drawn(s.cache, s.view, millis, width).blocks == Fresh(s.view, millis / 200, width)
  {
    CourseKeptWhole(Opening(v), happenings, derive);
    DrawIsFreshExactly(v, happenings, derive, millis, width);
  }

  // --- Every outcome once, under its start

  /** How often this outcome is drawn. */
  function TimesDrawn(blocks: seq<Block>, event: ToolCallEvent): nat {
    if blocks == [] then 0
    else (if blocks[0].ToolResult? && blocks[0].event == event then 1 else 0) + TimesDrawn(blocks[1..], event)
  }

  function Starts(history: seq<HistoryEntry>, id: Uuid): nat {
    if history == [] then 0
    else
      var n := |history| - 1;
      Starts(history[..n], id) + (if IsStart(history[n]) && EventOf(history[n]).toolCallId == id then 1 else 0)
  }

  lemma {:induction false} DrawnConcat(a: seq<Block>, b: seq<Block>, event: ToolCallEvent)
    ensures TimesDrawn(a + b, event) == TimesDrawn(a, event) + TimesDrawn(b, event)
  {
    if a == [] {
      assert a + b == b;
    } else {
      assert (a + b)[1..] == a[1..] + b;
      DrawnConcat(a[1..], b, event);
    }
  }

  lemma DrawnEntry(entry: HistoryEntry, outcomes: Outcomes, phase: nat, width: nat, event: ToolCallEvent)
    requires !event.Started? && OutcomesFiled(outcomes)
    requires IsOutcome(entry) ==> EventOf(entry).toolCallId in outcomes
    ensures TimesDrawn(EntryBlocks(entry, outcomes, phase, width), event)
         == if IsStart(entry) && EventOf(entry).toolCallId == event.toolCallId
               && event.toolCallId in outcomes && outcomes[event.toolCallId] == event then 1 else 0
  {
    if IsStart(entry) {
      var e := EventOf(entry);
      DrawnConcat([ToolStart(e.toolCallId, e.toolName, e.arguments, DotFor(outcomes, e.toolCallId, phase))],
        OutcomeBlocks(outcomes, e.toolCallId, width), event);
      assert forall b: Block :: [b][1..] == [];
    }
  }

  /** Outcomes are filed under their own ids. */
  ghost predicate OutcomesFiled(outcomes: Outcomes) {
    forall id | id in outcomes :: outcomes[id].toolCallId == id && !outcomes[id].Started?
  }

  lemma {:induction false} LookupFiled(history: seq<HistoryEntry>)
    ensures OutcomesFiled(OutcomesIn(history))
  {
    if history == [] {
    } else {
      LookupFiled(history[..|history| - 1]);
    }
  }

  lemma DrawnLast(before: seq<Block>, first: bool, entry: HistoryEntry, own: seq<Block>, event: ToolCallEvent)
    ensures TimesDrawn(before + Spaced(first, entry) + own, event) == TimesDrawn(before, event) + TimesDrawn(own, event)
  {
    DrawnConcat(before + Spaced(first, entry), own, event);
    DrawnConcat(before, Spaced(first, entry), event);
    assert [Blank][1..] == [];
  }

  lemma {:induction false} DrawnHistory(history: seq<HistoryEntry>, outcomes: Outcomes, phase: nat, width: nat,
      event: ToolCallEvent)
    requires !event.Started? && OutcomesFiled(outcomes)
    requires forall i | 0 <= i < |history| && IsOutcome(history[i]) :: EventOf(history[i]).toolCallId in outcomes
    ensures TimesDrawn(HistoryBlocks(history, outcomes, phase, width), event)
         == if event.toolCallId in outcomes
           && outcomes[event.toolCallId] == event then Starts(history, event.toolCallId) else 0
  {
    if history == [] {
    } else {
      var n := |history| - 1;
      var before := HistoryBlocks(history[..n], outcomes, phase, width);
      assert forall i | 0 <= i < n :: history[..n][i] == history[i];
      DrawnHistory(history[..n], outcomes, phase, width, event);
      DrawnEntry(history[n], outcomes, phase, width, event);
      DrawnLast(before, n == 0, history[n], EntryBlocks(history[n], outcomes, phase, width), event);
    }
  }

  lemma TailDrawsNone(v: View, phase: nat, event: ToolCallEvent)
    ensures TimesDrawn([Banner(v.summary, v.stats), Blank, Blank], event) == 0
    ensures TimesDrawn(TailBlocks(v.history != [], InFlight(v, v.inFlightThinking), InFlight(v, v.inFlightText),
      v.turnInProgress, phase), event) == 0
  {
    NoResults([Banner(v.summary, v.stats), Blank, Blank], event);
    NoResults(TailBlocks(v.history != [], InFlight(v, v.inFlightThinking), InFlight(v, v.inFlightText),
      v.turnInProgress, phase), event);
  }

  lemma {:induction false} NoResults(blocks: seq<Block>, event: ToolCallEvent)
    requires forall i | 0 <= i < |blocks| :: !blocks[i].ToolResult?
    ensures TimesDrawn(blocks, event) == 0
  {
    if blocks == [] {
    } else {
      NoResults(blocks[1..], event);
    }
  }

  /** An outcome is drawn once for every start with its id if it is the last with that id, and
      otherwise never: on its own, without a start, it is not drawn at all. */
  lemma OutcomeDrawnPerStart(v: View, phase: nat, width: nat, event: ToolCallEvent)
    requires !event.Started?
    ensures TimesDrawn(Fresh(v, phase, width), event)
         == var outcomes := OutcomesIn(v.history);
            if event.toolCallId in outcomes
              && outcomes[event.toolCallId] == event then Starts(v.history, event.toolCallId) else 0
  {
    var top, drawn := [Banner(v.summary, v.stats), Blank, Blank],
      HistoryBlocks(v.history, OutcomesIn(v.history), phase, width);
    LookupFiled(v.history);
    LookupHoldsOutcomes(v.history);
    DrawnHistory(v.history, OutcomesIn(v.history), phase, width, event);
    TailDrawsNone(v, phase, event);
    DrawnConcat(top + drawn,
      TailBlocks(v.history != [], InFlight(v, v.inFlightThinking), InFlight(v, v.inFlightText), v.turnInProgress,
        phase), event);
    DrawnConcat(top, drawn, event);
  }

  /** Every drawn outcome comes directly under the start with its id. */
  ghost predicate ResultsFollowStarts(blocks: seq<Block>) {
    forall i | 0 <= i < |blocks| && blocks[i].ToolResult? ::
      i > 0 && IsStartOf(blocks[i - 1], blocks[i].event)
  }

  /** The start of that call, marked by how it came out. */
  predicate IsStartOf(block: Block, outcome: ToolCallEvent) {
    block.ToolStart? && block.toolCallId == outcome.toolCallId
    && (outcome.Completed? ==> block.dot == Succeeded) && (outcome.Failed? ==> block.dot == Broke)
  }

  lemma FollowConcat(a: seq<Block>, b: seq<Block>)
    requires ResultsFollowStarts(a) && ResultsFollowStarts(b)
    ensures ResultsFollowStarts(a + b)
  {
    forall i | 0 <= i < |a + b| && (a + b)[i].ToolResult?
      ensures i > 0 && IsStartOf((a + b)[i - 1], (a + b)[i].event)
    {
      if i >= |a| {
        assert b[i - |a|].ToolResult?;
      }
    }
  }

  lemma {:induction false} HistoryFollows(history: seq<HistoryEntry>, outcomes: Outcomes, phase: nat, width: nat)
    requires OutcomesFiled(outcomes)
    requires forall i | 0 <= i < |history| && IsOutcome(history[i]) :: EventOf(history[i]).toolCallId in outcomes
    ensures ResultsFollowStarts(HistoryBlocks(history, outcomes, phase, width))
  {
    if history == [] {
    } else {
      var n := |history| - 1;
      assert forall i | 0 <= i < n :: history[..n][i] == history[i];
      HistoryFollows(history[..n], outcomes, phase, width);
      FollowConcat(HistoryBlocks(history[..n], outcomes, phase, width), Spaced(n == 0, history[n]));
      FollowConcat(HistoryBlocks(history[..n], outcomes, phase, width) + Spaced(n == 0, history[n]),
        EntryBlocks(history[n], outcomes, phase, width));
    }
  }

  lemma OutcomeUnderStart(v: View, phase: nat, width: nat)
    ensures ResultsFollowStarts(Fresh(v, phase, width))
  {
    var top, drawn := [Banner(v.summary, v.stats), Blank, Blank],
      HistoryBlocks(v.history, OutcomesIn(v.history), phase, width);
    LookupFiled(v.history);
    LookupHoldsOutcomes(v.history);
    HistoryFollows(v.history, OutcomesIn(v.history), phase, width);
    FollowConcat(top, drawn);
    TailFollows(v, phase);
    FollowConcat(top + drawn,
      TailBlocks(v.history != [], InFlight(v, v.inFlightThinking), InFlight(v, v.inFlightText), v.turnInProgress,
        phase));
  }

  lemma TailFollows(v: View, phase: nat)
    ensures ResultsFollowStarts(
      TailBlocks(v.history != [], InFlight(v, v.inFlightThinking), InFlight(v, v.inFlightText), v.turnInProgress,
        phase))
  {
    var before, thinking, text := v.history != [], InFlight(v, v.inFlightThinking), InFlight(v, v.inFlightText);
    var a, b := ThinkingTail(before, thinking), TextTail(before || thinking.Some?, text);
    var c := TurnTail(before || thinking.Some? || text.Some?, v.turnInProgress, phase);
    NoneToFollow(a + b + c + [Blank, Blank, Blank]);
  }

  lemma NoneToFollow(blocks: seq<Block>)
    requires forall i | 0 <= i < |blocks| :: !blocks[i].ToolResult?
    ensures ResultsFollowStarts(blocks)
  {
  }

  // --- Every entry drawn as what it is

  /** Entries that have a block of their own: all but tool outcomes, fragments and turns. */
  predicate HasBlock(entry: HistoryEntry) {
    match entry.payload
    case Thinking(_) => true
    case Bus(payload) => payload.MessagePosted? || payload.AgentShutdown? || payload.Error? || IsStart(entry)
  }

  predicate IsOwnBlock(block: Block) {
    block.Markdown? || block.UserText? || block.Thoughts? || block.Notice? || block.ToolStart?
  }

  /** An agent's messages are Markdown, all others plain; a tool call shows its name and arguments. */
  ghost predicate DrawnAs(entry: HistoryEntry, block: Block) {
    (forall text :: entry.payload == Thinking(text) ==> block == Thoughts(text))
    && (forall content ::
      entry.payload == Bus(MessagePosted(TextMessage(Agent, content))) ==> block == Markdown(content))
    && (forall content ::
      entry.payload == Bus(MessagePosted(TextMessage(User, content))) ==> block == UserText(content))
    && (entry.payload == Bus(AgentShutdown) ==> block == Notice("shutdown"))
    && (forall text :: entry.payload == Bus(Error(text)) ==> block == Notice("error: " + text))
    && (IsStart(entry) ==>
      block.ToolStart? && EventOf(entry) == Started(block.toolCallId, block.toolName, block.arguments))
  }

  ghost predicate AllDrawnAs(entries: seq<HistoryEntry>, blocks: seq<Block>) {
    |blocks| == |entries| && forall i | 0 <= i < |entries| :: DrawnAs(entries[i], blocks[i])
  }

  lemma EntryDrawnAs(entry: HistoryEntry, outcomes: Outcomes, phase: nat, width: nat)
    requires IsOutcome(entry) ==> EventOf(entry).toolCallId in outcomes
    ensures AllDrawnAs(Filter(HasBlock, [entry]), Filter(IsOwnBlock, EntryBlocks(entry, outcomes, phase, width)))
  {
    var blocks := EntryBlocks(entry, outcomes, phase, width);
    FilterOne(HasBlock, entry);
    if |blocks| == 2 {
      assert blocks == [blocks[0]] + [blocks[1]];
      FilterLast(IsOwnBlock, [blocks[0]], blocks[1]);
      FilterOne(IsOwnBlock, blocks[0]);
    } else if |blocks| == 1 {
      assert blocks == [blocks[0]];
      FilterOne(IsOwnBlock, blocks[0]);
    }
  }

  lemma DrawnAsOn(a: seq<HistoryEntry>, b: seq<HistoryEntry>, x: seq<Block>, y: seq<Block>)
    requires AllDrawnAs(a, x) && AllDrawnAs(b, y)
    ensures AllDrawnAs(a + b, x + y)
  {
  }

  lemma {:induction false} HistoryDrawnAs(history: seq<HistoryEntry>, outcomes: Outcomes, phase: nat, width: nat)
    requires forall i | 0 <= i < |history| && IsOutcome(history[i]) :: EventOf(history[i]).toolCallId in outcomes
    ensures AllDrawnAs(Filter(HasBlock, history), Filter(IsOwnBlock, HistoryBlocks(history, outcomes, phase, width)))
  {
    if history == [] {
    } else {
      var n := |history| - 1;
      var before, space := HistoryBlocks(history[..n], outcomes, phase, width), Spaced(n == 0, history[n]);
      var own := EntryBlocks(history[n], outcomes, phase, width);
      assert forall i | 0 <= i < n :: history[..n][i] == history[i];
      HistoryDrawnAs(history[..n], outcomes, phase, width);
      EntryDrawnAs(history[n], outcomes, phase, width);
      assert history == history[..n] + [history[n]];
      OneMoreDrawn(history[..n], history[n], before, space, own);
    }
  }

  lemma OneMoreDrawn(history: seq<HistoryEntry>, entry: HistoryEntry, before: seq<Block>, space: seq<Block>,
      own: seq<Block>)
    requires AllDrawnAs(Filter(HasBlock, history), Filter(IsOwnBlock, before))
    requires AllDrawnAs(Filter(HasBlock, [entry]), Filter(IsOwnBlock, own)) && (space == [] || space == [Blank])
    ensures AllDrawnAs(Filter(HasBlock, history + [entry]), Filter(IsOwnBlock, before + space + own))
  {
    FilterConcat(HasBlock, history, [entry]);
    FilterConcat(IsOwnBlock, before + space, own);
    FilterConcat(IsOwnBlock, before, space);
    FilterOne(IsOwnBlock, Blank);
    var none: seq<Block> := [];
    assert Filter(IsOwnBlock, before) + none == Filter(IsOwnBlock, before);
    DrawnAsOn(Filter(HasBlock, history), Filter(HasBlock, [entry]), Filter(IsOwnBlock, before),
      Filter(IsOwnBlock, own));
  }

  /** The history is drawn entry by entry, each as what it is, below the banner and above what
      is in flight. */
  lemma EntriesDrawn(v: View, phase: nat, width: nat) returns (top: seq<Block>, middle: seq<Block>, bottom: seq<Block>)
    ensures Fresh(v, phase, width) == top + middle + bottom && top == [Banner(v.summary, v.stats), Blank, Blank]
    ensures AllDrawnAs(Filter(HasBlock, v.history), Filter(IsOwnBlock, middle))
    ensures ShowsInFlight(v, bottom, phase)
  {
    var outcomes := OutcomesIn(v.history);
    top, middle := [Banner(v.summary, v.stats), Blank, Blank], HistoryBlocks(v.history, outcomes, phase, width);
    bottom := TailBlocks(v.history != [], InFlight(v, v.inFlightThinking), InFlight(v, v.inFlightText),
      v.turnInProgress,
      phase);
    LookupHoldsOutcomes(v.history);
    HistoryDrawnAs(v.history, outcomes, phase, width);
    BottomShows(v, v.history != [], phase);
  }

  ghost predicate ShowsInFlight(v: View, bottom: seq<Block>, phase: nat) {
    exists thinking, text ::
      IsInFlight(v, v.inFlightThinking, thinking) && IsInFlight(v, v.inFlightText, text)
      && Shown(bottom) == Shows(thinking, text, v.turnInProgress, phase)
  }

  lemma BottomShows(v: View, before: bool, phase: nat)
    ensures ShowsInFlight(v,
      TailBlocks(before, InFlight(v, v.inFlightThinking), InFlight(v, v.inFlightText), v.turnInProgress, phase), phase)
  {
    var thinking, text := InFlight(v, v.inFlightThinking), InFlight(v, v.inFlightText);
    InFlightIs(v, v.inFlightThinking);
    InFlightIs(v, v.inFlightText);
    TailShape(before, thinking, text, v.turnInProgress, phase);
    PartsAre(thinking, text, v.turnInProgress, phase);
  }

  lemma InFlightIs(v: View, buffers: map<Uuid, string>)
    ensures IsInFlight(v, buffers, InFlight(v, buffers))
  {
  }

  lemma PartsAre(thinking: Option<string>, text: Option<string>, turn: bool, phase: nat)
    ensures Parts(thinking, text, turn, phase) == Shows(thinking, text, turn, phase)
  {
  }

  /** The active chat's buffer, unless there is none or nothing in it. */
  ghost predicate IsInFlight(v: View, buffers: map<Uuid, string>, shown: Option<string>) {
    shown != Some("")
    && forall text :: text != "" ==>
      (shown == Some(text) <==> exists id :: v.activeChatId == Some(id) && id in buffers && buffers[id] == text)
  }

  /** Thoughts before text before the sign that a turn is going on. */
  function Shows(thinking: Option<string>, text: Option<string>, turn: bool, phase: nat): seq<Block> {
    match (thinking, text)
    case (None, None) => if turn then [Doing(PulseAt(phase))] else []
    case (Some(a), None) => if turn then [Thoughts(a), Doing(PulseAt(phase))] else [Thoughts(a)]
    case (None, Some(b)) => if turn then [Markdown(b), Doing(PulseAt(phase))] else [Markdown(b)]
    case (Some(a), Some(b)) =>
      if turn then [Thoughts(a), Markdown(b), Doing(PulseAt(phase))] else [Thoughts(a), Markdown(b)]
  }

  // --- Space between what is drawn

  /** Everything but the banner, blanks and outcomes has a blank before it. */
  ghost predicate WellSpaced(blocks: seq<Block>) {
    forall i | 0 < i < |blocks| && StandsApart(blocks[i]) :: blocks[i - 1] == Blank
  }

  predicate StandsApart(block: Block) {
    IsOwnBlock(block) || block.Doing?
  }

  lemma SpacedOn(a: seq<Block>, b: seq<Block>)
    requires WellSpaced(a) && WellSpaced(b) && (a != [] && b != [] && StandsApart(b[0]) ==> a[|a| - 1] == Blank)
    ensures WellSpaced(a + b)
  {
  }

  lemma {:induction false} HistorySpaced(top: seq<Block>, history: seq<HistoryEntry>, outcomes: Outcomes, phase: nat,
      width: nat)
    requires WellSpaced(top) && top != [] && top[|top| - 1] == Blank
    requires forall i | 0 <= i < |history| && IsOutcome(history[i]) :: EventOf(history[i]).toolCallId in outcomes
    ensures WellSpaced(top + HistoryBlocks(history, outcomes, phase, width))
  {
    if history == [] {
      assert top + HistoryBlocks(history, outcomes, phase, width) == top;
    } else {
      var n := |history| - 1;
      var before, space := HistoryBlocks(history[..n], outcomes, phase, width), Spaced(n == 0, history[n]);
      var own := EntryBlocks(history[n], outcomes, phase, width);
      assert forall i | 0 <= i < n :: history[..n][i] == history[i];
      HistorySpaced(top, history[..n], outcomes, phase, width);
      assert n == 0 ==> before == [];
      EntrySpaced(history[n], outcomes, phase, width);
      SpacedOn(top + before, space);
      assert space == [] && own != [] ==> before == [] && top + before + space == top;
      SpacedOn(top + before + space, own);
      Assoc(top, before, space);
      Assoc(top, before + space, own);
    }
  }

  lemma EntrySpaced(entry: HistoryEntry, outcomes: Outcomes, phase: nat, width: nat)
    requires IsOutcome(entry) ==> EventOf(entry).toolCallId in outcomes
    ensures WellSpaced(EntryBlocks(entry, outcomes, phase, width))
    ensures IsOutcome(entry) ==> EntryBlocks(entry, outcomes, phase, width) == []
  {
  }

  lemma TailSpaced(before: bool, thinking: Option<string>, text: Option<string>, turn: bool, phase: nat)
    ensures WellSpaced(TailBlocks(before, thinking, text, turn, phase))
    ensures before ==> TailBlocks(before, thinking, text, turn, phase)[0] == Blank
  {
    var a, b := ThinkingTail(before, thinking), TextTail(before || thinking.Some?, text);
    var c, d := TurnTail(before || thinking.Some? || text.Some?, turn, phase), [Blank, Blank, Blank];
    SpacedOn(a, b);
    SpacedOn(a + b, c);
    SpacedOn(a + b + c, d);
  }

  /** Nothing stands directly under anything else but an outcome under its start. */
  lemma FreshSpaced(v: View, phase: nat, width: nat)
    ensures WellSpaced(Fresh(v, phase, width))
  {
    var top, drawn := [Banner(v.summary, v.stats), Blank, Blank],
      HistoryBlocks(v.history, OutcomesIn(v.history), phase, width);
    LookupHoldsOutcomes(v.history);
    HistorySpaced(top, v.history, OutcomesIn(v.history), phase, width);
    TailSpaced(v.history != [], InFlight(v, v.inFlightThinking), InFlight(v, v.inFlightText), v.turnInProgress, phase);
    assert v.history == [] ==> drawn == [] && top + drawn == top;
    SpacedOn(top + drawn,
      TailBlocks(v.history != [], InFlight(v, v.inFlightThinking), InFlight(v, v.inFlightText), v.turnInProgress,
        phase));
  }

  /** The pulse brightens for three phases and dims for three, over and over. */
  lemma PulseRepeats(phase: nat)
    ensures PulseAt(phase + 6) == PulseAt(phase) && PulseAt(5 - phase % 6) == PulseAt(phase)
    ensures PulseAt(0) == Dim && PulseAt(1) == Middle && PulseAt(2) == Bright
  {
  }
}
