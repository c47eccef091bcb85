/** What storage holds of an agent's chat, and what is published when storage fails. */
module Snapshots {
  import opened Prelude
  import opened Chats
  import opened AgentRunner
  import opened AgentLog
  import opened TuiApp
  import opened LiveView

  /** The lengths beyond `from`, up to `upto`, at which saving succeeds. */
  function SavedAt(e: Environment, from: nat, upto: nat): seq<nat>
    decreases upto
  {
    if upto <= from then [] else SavedAt(e, from, upto - 1) + (if e.saveError(upto) == None then [upto] else [])
  }

  ghost predicate Ascending(s: seq<nat>) {
    forall i, j | 0 <= i < j < |s| :: s[i] < s[j]
  }

  lemma {:induction false} SavedAtIs(e: Environment, from: nat, upto: nat)
    ensures forall n: nat :: n in SavedAt(e, from, upto) <==> from < n <= upto && e.saveError(n) == None
    ensures Ascending(SavedAt(e, from, upto))
    decreases upto
  {
    if upto <= from {
    } else {
      SavedAtIs(e, from, upto - 1);
      var before := SavedAt(e, from, upto - 1);
      assert forall i | 0 <= i < |before| :: before[i] in before;
    }
  }

  /** The chat as it was when the log had `n` entries. */
  ghost predicate IsSnapshot(snapshot: Chat, chat: Chat, n: nat) {
    n <= |chat.events| && snapshot.events == chat.events[..n]
    && snapshot.id == chat.id && snapshot.activeBranchId == chat.activeBranchId
  }

  ghost predicate AllStored(e: Environment, from: nat, stored: seq<Chat>, chat: Chat) {
    var lengths := SavedAt(e, from, |chat.events|);
    |stored| == |lengths| && forall i | 0 <= i < |stored| :: IsSnapshot(stored[i], chat, lengths[i])
  }

  /** The last one is the chat itself, branches and all, if it could be saved at its present length. */
  ghost predicate LastStored(e: Environment, from: nat, stored: seq<Chat>, chat: Chat) {
    |chat.events| > from && e.saveError(|chat.events|) == None ==> stored != [] && stored[|stored| - 1] == chat
  }

  ghost predicate TouchedSince(e: Environment, from: nat, upto: nat) {
    exists n: nat :: from < n <= upto && e.touchError(n) == None
  }

  function Complaint(prefix: string, error: Option<string>): seq<BusPayload> {
    if error.Some? then [Error(prefix + error.value)] else []
  }

  /** What is published for failures to store, length by length. */
  function Complaints(e: Environment, from: nat, upto: nat): seq<BusPayload>
    decreases upto
  {
    if upto <= from then []
    else
      Complaints(e, from, upto - 1) + Complaint("failed to persist chat snapshot: ", e.saveError(upto))
      + Complaint("failed to persist last used chat id: ", e.touchError(upto))
  }

  function ErrorsIn(bus: seq<BusPayload>): seq<BusPayload> {
    Filter((payload: BusPayload) => payload.Error?, bus)
  }

  ghost predicate StoresAll(e: Environment, start: Chat, s: RunnerState) {
    var from := |start.events|;
    start.events <= s.chat.events && AllStored(e, from, s.stored, s.chat) && LastStored(e, from, s.stored, s.chat)
    && s.lastUsed == (if TouchedSince(e, from, |s.chat.events|) then Some(RootId(e.path)) else None)
    && ErrorsIn(s.bus) == Complaints(e, from, |s.chat.events|)
  }

  // --- Every stride stores what it logs

  lemma AppendStores(e: Environment, from: nat, stored: seq<Chat>, chat: Chat, chat': Chat)
    requires AllStored(e, from, stored, chat) && from <= |chat.events|
    requires |chat'.events| == |chat.events| + 1 && chat.events <= chat'.events
    requires chat'.id == chat.id && chat'.activeBranchId == chat.activeBranchId
    ensures var stored' := if e.saveError(|chat'.events|) == None then stored + [chat'] else stored;
      AllStored(e, from, stored', chat') && LastStored(e, from, stored', chat')
  {
    var stored' := if e.saveError(|chat'.events|) == None then stored + [chat'] else stored;
    var lengths := SavedAt(e, from, |chat'.events|);
    forall i | 0 <= i < |stored'| ensures IsSnapshot(stored'[i], chat', lengths[i]) {
      if i < |stored| {
        assert IsSnapshot(stored[i], chat, lengths[i]);
      }
    }
  }

  lemma AppendTouches(e: Environment, from: nat, n: nat)
    requires from <= n
    ensures TouchedSince(e, from, n + 1) <==> TouchedSince(e, from, n) || e.touchError(n + 1) == None
  {
    if TouchedSince(e, from, n) {
      var m: nat :| from < m <= n && e.touchError(m) == None;
      assert from < m <= n + 1 && e.touchError(m) == None;
    }
    if TouchedSince(e, from, n + 1) {
      var m: nat :| from < m <= n + 1 && e.touchError(m) == None;
      assert m <= n ==> TouchedSince(e, from, n);
    }
  }

  lemma AppendComplains(bus: seq<BusPayload>, first: seq<BusPayload>, second: seq<BusPayload>)
    requires forall i | 0 <= i < |first| :: first[i].Error?
    requires forall i | 0 <= i < |second| :: second[i].Error?
    ensures ErrorsIn(bus + first + second) == ErrorsIn(bus) + first + second
  {
    var isError := (payload: BusPayload) => payload.Error?;
    FilterConcat(isError, bus + first, second);
    FilterConcat(isError, bus, first);
    FilterAll(isError, first);
    FilterAll(isError, second);
  }

  lemma PushStores(e: Environment, start: Chat, s: RunnerState, body: EventBody, observability: Option<Cost>)
    requires StoresAll(e, start, s)
    ensures StoresAll(e, start, Push(e, s, body, observability))
  {
    var s', from, n := Push(e, s, body, observability), |start.events|, |s.chat.events| + 1;
    var first := Complaint("failed to persist chat snapshot: ", e.saveError(n));
    var second := Complaint("failed to persist last used chat id: ", e.touchError(n));
    PushIs(e, s, body, observability);
    PushedStores(e, start, s, s', first, second);
  }

  lemma PushedStores(e: Environment, start: Chat, s: RunnerState, s': RunnerState, first: seq<BusPayload>,
      second: seq<BusPayload>)
    requires StoresAll(e, start, s)
    requires s.chat.events <= s'.chat.events && |s'.chat.events| == |s.chat.events| + 1
    requires s'.chat.id == s.chat.id && s'.chat.activeBranchId == s.chat.activeBranchId
    requires var n := |s'.chat.events|;
      s'.stored == (if e.saveError(n) == None then s.stored + [s'.chat] else s.stored)
      && s'.lastUsed == (if e.touchError(n) == None then Some(RootId(e.path)) else s.lastUsed)
      && s'.bus == s.bus + first + second
      && first == Complaint("failed to persist chat snapshot: ", e.saveError(n))
      && second == Complaint("failed to persist last used chat id: ", e.touchError(n))
    ensures StoresAll(e, start, s')
  {
    AppendStores(e, |start.events|, s.stored, s.chat, s'.chat);
    AppendTouches(e, |start.events|, |s.chat.events|);
    AppendComplains(s.bus, first, second);
  }

  /** What one log write does to everything but the log. */
  lemma PushIs(e: Environment, s: RunnerState, body: EventBody, observability: Option<Cost>)
    ensures var s', n := Push(e, s, body, observability), |s.chat.events| + 1;
      s'.chat == Append(s.chat, s.nextId, body, observability) && |s'.chat.events| == n
      && s'.stored == (if e.saveError(n) == None then s.stored + [s'.chat] else s.stored)
      && s'.lastUsed == (if e.touchError(n) == None then Some(RootId(e.path)) else s.lastUsed)
      && s'.bus == s.bus + Complaint("failed to persist chat snapshot: ", e.saveError(n))
        + Complaint("failed to persist last used chat id: ", e.touchError(n))
  {
  }

  lemma PublishStores(e: Environment, start: Chat, s: RunnerState, payload: BusPayload)
    requires StoresAll(e, start, s) && !payload.Error?
    ensures StoresAll(e, start, Publish(s, payload))
  {
    FilterConcat((p: BusPayload) => p.Error?, s.bus, [payload]);
    assert [payload][1..] == [];
  }

  lemma CallStores(e: Environment, start: Chat, s: RunnerState, call: Call)
    requires StoresAll(e, start, s)
    ensures StoresAll(e, start, CallTool(e, s, call))
  {
    var started, outcome := Started(s.nextId, call.name, ArgumentsOf(call)), OutcomeAfter(e, s, call);
    var mid := StartTool(e, s, call);
    PushStores(e, start, TakeId(s), ToolCall(started), None);
    PublishStores(e, start, Push(e, TakeId(s), ToolCall(started), None), ToolCalled(started));
    PushStores(e, start, mid, ToolCall(outcome.event), outcome.observability);
    PublishStores(e, start, Push(e, mid, ToolCall(outcome.event), outcome.observability), ToolCalled(outcome.event));
  }

  lemma StrideStores(e: Environment, start: Chat, s: RunnerState, s': RunnerState)
    requires StoresAll(e, start, s) && Stride(e, s, s')
    ensures StoresAll(e, start, s')
  {
    if payload: BusPayload :| IsPlain(payload) && s' == Publish(s, payload) {
      PublishStores(e, start, s, payload);
    } else if message, observability :| s' == Push(e, s, Message(message), observability) {
      PushStores(e, start, s, Message(message), observability);
    } else if call :| s' == CallTool(e, s, call) {
      CallStores(e, start, s, call);
    } else {
      QuietStores(e, start, s, s');
    }
  }

  lemma QuietStores(e: Environment, start: Chat, s: RunnerState, s': RunnerState)
    requires StoresAll(e, start, s)
    requires s'.chat == s.chat && s'.stored == s.stored && s'.lastUsed == s.lastUsed && s'.bus == s.bus
    ensures StoresAll(e, start, s')
  {
  }

  lemma RunStores(e: Environment, start: Chat, nextId: Uuid, isSubagent: bool,
                  inbox: seq<Command>, closed: bool, replies: seq<Stream>)
    ensures StoresAll(e, start, Run(e, Initial(start, nextId, isSubagent), inbox, closed, replies).state)
  {
    var s0 := Initial(start, nextId, isSubagent);
    var P := (s: RunnerState) => StoresAll(e, start, s);
    forall s, s' | P(s) && Stride(e, s, s') ensures P(s') {
      StrideStores(e, start, s, s');
    }
    RunKeeps(e, P, s0, inbox, closed, replies);
  }

  // --- The results

  /** After any run storage holds one snapshot for each length the log came to have and could be
      saved at, in order, each with just that much of the log; and the last used chat is the
      tree's root once it could be recorded. */
  lemma SnapshotsStored(e: Environment, start: Chat, nextId: Uuid, isSubagent: bool,
                        inbox: seq<Command>, closed: bool, replies: seq<Stream>) returns (lengths: seq<nat>)
    ensures var ran, from := Run(e, Initial(start, nextId, isSubagent), inbox, closed, replies).state, |start.events|;
      (forall n: nat :: n in lengths <==> from < n <= |ran.chat.events| && e.saveError(n) == None)
      && Ascending(lengths) && |ran.stored| == |lengths|
      && (forall i | 0 <= i < |lengths| :: IsSnapshot(ran.stored[i], ran.chat, lengths[i]))
      && (ran.lastUsed == Some(RootId(e.path))
        <==> exists n: nat :: from < n <= |ran.chat.events| && e.touchError(n) == None)
      && (ran.lastUsed == None || ran.lastUsed == Some(RootId(e.path)))
  {
    var ran := Run(e, Initial(start, nextId, isSubagent), inbox, closed, replies).state;
    RunStores(e, start, nextId, isSubagent, inbox, closed, replies);
    lengths := SavedAt(e, |start.events|, |ran.chat.events|);
    SavedAtIs(e, |start.events|, |ran.chat.events|);
  }

  /** Each failure to save or to record is published, in order, and nothing else as an error. */
  lemma FailuresPublished(e: Environment, start: Chat, nextId: Uuid, isSubagent: bool,
                          inbox: seq<Command>, closed: bool, replies: seq<Stream>)
    ensures var ran := Run(e, Initial(start, nextId, isSubagent), inbox, closed, replies).state;
      ErrorsIn(ran.bus) == Complaints(e, |start.events|, |ran.chat.events|)
  {
    RunStores(e, start, nextId, isSubagent, inbox, closed, replies);
  }

  /** If a run logged anything and its last save succeeded, the last snapshot is its final chat,
      so what an app restores from storage is what an app that followed live shows, exactly
      when the two views agree at all. */
  lemma StoredIsLive(e: Environment, start: Chat, first: Uuid, isSubagent: bool,
                     inbox: seq<Command>, closed: bool, replies: seq<Stream>, v: View, events: seq<BusEvent>)
    requires MadeBefore(start, first) && AgentReplies(e, replies)
    requires Watched(start, Run(e, Initial(start, first, isSubagent), inbox, closed, replies).state, v, events)
    requires var chat := Run(e, Initial(start, first, isSubagent), inbox, closed, replies).state.chat;
      |chat.events| > |start.events| && e.saveError(|chat.events|) == None
    ensures var s0 := Initial(start, first, isSubagent);
      var ran := Run(e, s0, inbox, closed, replies).state;
      ran.stored != [] && ran.stored[|ran.stored| - 1] == ran.chat
      && (LiveTalk(v, events, start.id) == RestoredView(ran.stored[|ran.stored| - 1])
          <==> !FirstIsMistaken(AfterTool(start), inbox) && RunEmptyRounds(e, s0, inbox, replies) == 0)
  {
    RunStores(e, start, first, isSubagent, inbox, closed, replies);
    LiveIsRestoredExactly(e, start, first, isSubagent, inbox, closed, replies, v, events);
  }
}
