/** An agent's mailbox from spawning to cleanup: who may send, and what the agent takes up. */
module Mailbox {
  import opened Prelude
  import opened Chats
  import CompletionStream
  import opened AgentRunner
  import opened AgentLog

  const CAPACITY := 64

  datatype HandleError = NonRootUserMessage | Closed

  datatype Channel = Channel(queue: seq<Command>, open: bool)

  predicate HasRoom(ch: Channel) {
    !ch.open || |ch.queue| < CAPACITY
  }

  datatype Sent = Sent(channel: Channel, result: Result<(), HandleError>)

  function Offered(ch: Channel, command: Command): Sent {
    if ch.open then Sent(ch.(queue := ch.queue + [command]), Ok(())) else Sent(ch, Err(Closed))
  }

  /** Only root agents take user messages through their handle. */
  function SentBy(path: ChatPath, ch: Channel, command: Command): Sent {
    if command.SendUserMessage? && Depth(path) > 0 then Sent(ch, Err(NonRootUserMessage)) else Offered(ch, command)
  }

  class CommandChannel {
    var queue: seq<Command>
    var open: bool

    function State(): Channel
      reads this
    {
      Channel(queue, open)
    }

    constructor ()
      ensures State() == Channel([], true)
    {
      queue, open := [], true;
    }

    /** Returns once there is room, or nobody listens any more. */
    method Offer(command: Command) returns (r: Result<(), HandleError>)
      requires HasRoom(State())
      modifies this
      ensures Sent(State(), r) == Offered(old(State()), command)
    {
      if !open {
        return Err(Closed);
      }
      queue := queue + [command];
      return Ok(());
    }
  }

  class LocalAgentHandle {
    const path: ChatPath
    const sender: CommandChannel

    constructor (path: ChatPath, sender: CommandChannel)
      ensures this.path == path && this.sender == sender
    {
      this.path, this.sender := path, sender;
    }

    method Send(command: Command) returns (r: Result<(), HandleError>)
      requires HasRoom(sender.State())
      modifies sender
      ensures Sent(sender.State(), r) == SentBy(path, old(sender.State()), command)
    {
      if command.SendUserMessage? && Depth(path) > 0 {
        return Err(NonRootUserMessage);
      }
      r := sender.Offer(command);
    }

    method RequestShutdown() returns (r: Result<(), HandleError>)
      requires HasRoom(sender.State())
      modifies sender
      ensures Sent(sender.State(), r) == Offered(old(sender.State()), Shutdown)
    {
      r := sender.Offer(Shutdown);
    }
  }

  // --- One agent's life

  /** What an agent starts from: spawned, or restored from storage. */
  datatype Birth = Birth(
    e: Environment, chat: Chat, nextId: Uuid, replies: seq<seq<CompletionStream.StreamItem>>, isSubagent: bool,
      restored: bool)

  /** Only roots are restored, and only children owe a handoff. */
  predicate Proper(b: Birth) {
    (b.restored ==> Depth(b.e.path) == 0) && (b.isSubagent ==> Depth(b.e.path) > 0)
  }

  /** `unsent` while the spawner still has the first message to send; `lost` if it came too late;
      `displaced` once another agent of the same root has taken the handle's place in the
      registry, or taken it out. */
  datatype Life = Life(
    channel: Channel, consumed: seq<Command>, unsent: bool, lost: bool, registered: bool, displaced: bool, closed: bool)

  /** A restored agent has no first message. */
  function Born(b: Birth): Life {
    Life(Channel([], true), [], !b.restored, false, true, false, false)
  }

  /** The runner, having taken these commands. */
  function RunOf(b: Birth, l: Life): Ran {
    Run(b.e, Initial(b.chat, b.nextId, b.isSubagent), l.consumed, l.closed, b.replies)
  }

  datatype Event =
    | SpawnerSends(message: TextMessage)
    | ClientSends(command: Command)
    | RunnerTakes
    | RunnerSeesClosed
    | Displaced
    | Cleanup

  predicate Possible(b: Birth, l: Life, event: Event) {
    match event
    case SpawnerSends(_) => l.unsent && HasRoom(l.channel)
    case ClientSends(_) => HasRoom(l.channel)
    case RunnerTakes => l.channel.open && l.channel.queue != [] && RunOf(b, l).phase == Waiting
    // every sender is gone: the registry's handle, the spawner's own, and any the clients had
    case RunnerSeesClosed =>
      l.channel.open && l.channel.queue == [] && !l.registered && !l.unsent && RunOf(b, l).phase == Waiting
    // another opening of this root, or the cleanup of another agent of it
    case Displaced => Depth(b.e.path) == 0 && l.registered
    case Cleanup => RunOf(b, l).phase == Ended && l.registered
  }

  function Happened(b: Birth, l: Life, event: Event): Life
    requires Possible(b, l, event)
  {
    match event
    case SpawnerSends(message) =>
      var sent := Offered(l.channel, SendUserMessage(message));
      l.(channel := sent.channel, unsent := false, lost := sent.result.Err?)
    case ClientSends(command) => l.(channel := SentBy(b.e.path, l.channel, command).channel)
    case RunnerTakes =>
      var taken := l.(consumed := l.consumed + [l.channel.queue[0]],
        channel := l.channel.(queue := l.channel.queue[1..]));
      taken.(channel := taken.channel.(open := RunOf(b, taken).phase != Ended))
    case RunnerSeesClosed => l.(closed := true, channel := l.channel.(open := false))
    case Displaced => l.(registered := false, displaced := true)
    case Cleanup => l.(registered := false)
  }

  ghost predicate Lives(b: Birth, lives: seq<Life>) {
    Proper(b) && lives != [] && lives[0] == Born(b)
    && forall i | 0 <= i < |lives| - 1 ::
      exists event :: Possible(b, lives[i], event) && lives[i + 1] == Happened(b, lives[i], event)
  }

  function UserMessages(commands: seq<Command>): nat {
    if commands == [] then 0 else (if commands[0].SendUserMessage? then 1 else 0) + UserMessages(commands[1..])
  }

  lemma {:induction false} UserMessagesAdd(a: seq<Command>, b: seq<Command>)
    ensures UserMessages(a + b) == UserMessages(a) + UserMessages(b)
  {
    if a == [] {
      assert a + b == b;
    } else {
      assert (a + b)[1..] == a[1..] + b;
      UserMessagesAdd(a[1..], b);
    }
  }

  function One(yes: bool): nat { if yes then 1 else 0 }

  /** The mailbox closes exactly when the runner ends, which the registered handle delays until
      a shutdown is taken; only a root loses its handle before. */
  ghost predicate Orderly(b: Birth, l: Life) {
    (l.closed ==> l.displaced && !l.channel.open) && (l.displaced ==> Depth(b.e.path) == 0 && !l.registered)
    && (l.registered || l.displaced || !l.channel.open) && (l.channel.open <==> RunOf(b, l).phase != Ended)
  }

  /** A subagent's only user message is the spawner's: not yet sent, queued, taken or lost. */
  ghost predicate OneMessage(b: Birth, l: Life) {
    Depth(b.e.path) > 0 ==>
      UserMessages(l.consumed) + UserMessages(l.channel.queue) + One(l.unsent) + One(l.lost) == 1
  }

  lemma HappenedOrderly(b: Birth, l: Life, event: Event)
    requires Orderly(b, l) && Possible(b, l, event)
    ensures Orderly(b, Happened(b, l, event))
  {
    if event.RunnerSeesClosed? {
      ClosingEnds(b.e, Initial(b.chat, b.nextId, b.isSubagent), l.consumed, b.replies);
    }
  }

  /** A runner that waits and finds its mailbox closed ends. */
  lemma {:induction false} ClosingEnds(e: Environment, s: RunnerState, inbox: seq<Command>,
      replies: seq<seq<CompletionStream.StreamItem>>)
    requires Run(e, s, inbox, false, replies).phase == Waiting
    ensures Run(e, s, inbox, true, replies).phase == Ended
    decreases |inbox|
  {
    if inbox == [] {
    } else if inbox[0].SubmitUserMessage? {
      ClosingEnds(e, s, inbox[1..], replies);
    } else if inbox[0].SendUserMessage? {
      var turn := Rounds(e, Opened(e, s, inbox[0].message), replies);
      ClosingEnds(e, turn.state, inbox[1..], turn.replies);
    }
  }

  lemma HappenedOneMessage(b: Birth, l: Life, event: Event)
    requires OneMessage(b, l) && Possible(b, l, event)
    ensures OneMessage(b, Happened(b, l, event))
  {
    match event
    case SpawnerSends(message) =>
      UserMessagesAdd(l.channel.queue, [SendUserMessage(message)]);
      assert [SendUserMessage(message)][1..] == [];
    case ClientSends(command) =>
      UserMessagesAdd(l.channel.queue, [command]);
      assert [command][1..] == [];
    case RunnerTakes =>
      UserMessagesAdd(l.consumed, [l.channel.queue[0]]);
      assert [l.channel.queue[0]][1..] == [];
    case _ =>
  }

  lemma {:induction false} LifeSound(b: Birth, lives: seq<Life>, i: nat)
    requires Lives(b, lives) && i < |lives|
    ensures Orderly(b, lives[i]) && OneMessage(b, lives[i])
  {
    if i == 0 {
    } else {
      LifeSound(b, lives, i - 1);
      assert lives[i - 1 + 1] == lives[i];
      var event :| Possible(b, lives[i - 1], event) && lives[i] == Happened(b, lives[i - 1], event);
      HappenedOrderly(b, lives[i - 1], event);
      HappenedOneMessage(b, lives[i - 1], event);
    }
  }

  /** A subagent takes up at most one user message, and exactly one once its spawner's message
      was delivered and its mailbox is drained. */
  lemma SubagentTakesOne(b: Birth, lives: seq<Life>, i: nat)
    requires Lives(b, lives) && i < |lives| && Depth(b.e.path) > 0
    ensures UserMessages(lives[i].consumed) <= 1
    ensures !lives[i].unsent && !lives[i].lost && UserMessages(lives[i].channel.queue) == 0
      ==> UserMessages(lives[i].consumed) == 1
  {
    LifeSound(b, lives, i);
  }

  /** A subagent's handoff comes once, only after it took a shutdown, and carries its final log
      and the last thing it said; and the handle outlives the runner. */
  lemma HandoffAfterShutdown(b: Birth, lives: seq<Life>, i: nat)
    requires Lives(b, lives) && i < |lives| && b.isSubagent
    ensures var ran := RunOf(b, lives[i]);
      if ran.phase == Ended
      then Shutdown in lives[i].consumed
        && ran.state.handoffs == [Handoff(ran.state.chat, LastAgentMessage(ran.state.chat.events))]
      else ran.state.handoffs == [] && lives[i].registered
  {
    LifeSound(b, lives, i);
    HandsOverAtEnd(b.e, Initial(b.chat, b.nextId, b.isSubagent), lives[i].consumed, lives[i].closed, b.replies);
  }

  /** A runner can find its mailbox closed exactly if its handle was displaced, which only a
      root's can be, and it waits with nothing queued and nothing to come. */
  lemma SeesClosedExactly(b: Birth, lives: seq<Life>, i: nat)
    requires Lives(b, lives) && i < |lives|
    ensures var l := lives[i];
      Possible(b, l, RunnerSeesClosed) <==>
      l.displaced && !l.unsent && l.channel.queue == [] && RunOf(b, l).phase == Waiting
    ensures lives[i].displaced ==> Depth(b.e.path) == 0
  {
    LifeSound(b, lives, i);
  }

  /** So a subagent never finds its mailbox closed. */
  lemma NeverSeesClosed(b: Birth, lives: seq<Life>, i: nat)
    requires Lives(b, lives) && i < |lives| && Depth(b.e.path) > 0
    ensures !Possible(b, lives[i], RunnerSeesClosed) && !lives[i].closed
  {
    LifeSound(b, lives, i);
  }

  /** A restored root whose handle another opening replaces before anything is sent can end
      without ever taking a shutdown. */
  lemma DisplacedEnds(b: Birth) returns (lives: seq<Life>)
    requires b.restored && Proper(b)
    ensures Lives(b, lives) && lives[|lives| - 1].consumed == [] && RunOf(b, lives[|lives| - 1]).phase == Ended
  {
    var displaced := Happened(b, Born(b), Displaced);
    var ended := Happened(b, displaced, RunnerSeesClosed);
    lives := [Born(b), displaced, ended];
    assert Possible(b, lives[0], Displaced) && lives[1] == Happened(b, lives[0], Displaced);
    assert Possible(b, lives[1], RunnerSeesClosed) && lives[2] == Happened(b, lives[1], RunnerSeesClosed);
    assert RunOf(b, ended).phase == Ended;
  }

  // --- What is sent is taken, in order

  /** Everything that ever got into the mailbox. */
  function Arrived(l: Life): seq<Command> {
    l.consumed + l.channel.queue
  }

  lemma HappenedArrived(b: Birth, l: Life, event: Event)
    requires Possible(b, l, event)
    ensures Arrived(l) <= Arrived(Happened(b, l, event)) && l.consumed <= Happened(b, l, event).consumed
    ensures event.RunnerTakes? ==> Arrived(Happened(b, l, event)) == Arrived(l)
  {
    var l' := Happened(b, l, event);
    if event.RunnerTakes? {
      Assoc(l.consumed, [l.channel.queue[0]], l.channel.queue[1..]);
      assert l.channel.queue == [l.channel.queue[0]] + l.channel.queue[1..];
    } else {
      MoreArrives(l.consumed, l.channel.queue, l'.channel.queue);
    }
  }

  lemma MoreArrives(consumed: seq<Command>, queue: seq<Command>, queue': seq<Command>)
    requires queue <= queue'
    ensures consumed + queue <= consumed + queue'
  {
  }

  /** Nothing that got in is lost or overtaken. */
  lemma {:induction false} FirstInFirstOut(b: Birth, lives: seq<Life>, i: nat, j: nat)
    requires Lives(b, lives) && i <= j < |lives|
    ensures Arrived(lives[i]) <= Arrived(lives[j]) && lives[i].consumed <= lives[j].consumed
  {
    if i == j {
    } else {
      FirstInFirstOut(b, lives, i, j - 1);
      assert lives[j - 1 + 1] == lives[j];
      var event :| Possible(b, lives[j - 1], event) && lives[j] == Happened(b, lives[j - 1], event);
      HappenedArrived(b, lives[j - 1], event);
    }
  }

  /** A waiting runner that takes a shutdown ends. */
  lemma {:induction false} ShutdownEnds(e: Environment, s: RunnerState, inbox: seq<Command>,
      replies: seq<seq<CompletionStream.StreamItem>>)
    requires Run(e, s, inbox, false, replies).phase == Waiting
    ensures Run(e, s, inbox + [Shutdown], false, replies).phase == Ended
    ensures AgentShutdown in Run(e, s, inbox + [Shutdown], false, replies).state.bus
    decreases |inbox|
  {
    if inbox == [] {
      assert inbox + [Shutdown] == [Shutdown];
    } else {
      assert (inbox + [Shutdown])[1..] == inbox[1..] + [Shutdown];
      if inbox[0].SubmitUserMessage? {
        ShutdownEnds(e, s, inbox[1..], replies);
      } else if inbox[0].SendUserMessage? {
        var turn := Rounds(e, Opened(e, s, inbox[0].message), replies);
        ShutdownEnds(e, turn.state, inbox[1..], turn.replies);
      }
    }
  }

  /** A command a client sends while the mailbox is open gets in, behind what is there, unless it
      is a user message to a subagent; and one that gets in is the next thing taken once all
      before it was. */
  lemma SentIsTaken(b: Birth, lives: seq<Life>, i: nat, command: Command, j: nat)
    requires Lives(b, lives) && i + 1 < |lives| && i < j < |lives|
    requires Possible(b, lives[i], ClientSends(command)) && lives[i + 1] == Happened(b, lives[i], ClientSends(command))
    requires lives[i].channel.open && !(command.SendUserMessage? && Depth(b.e.path) > 0)
    ensures SentBy(b.e.path, lives[i].channel, command).result == Ok(())
    ensures var n := |Arrived(lives[i])|; |lives[j].consumed| > n ==> lives[j].consumed[n] == command
  {
    var n := |Arrived(lives[i])|;
    Assoc(lives[i].consumed, lives[i].channel.queue, [command]);
    FirstInFirstOut(b, lives, i + 1, j);
    assert Arrived(lives[i + 1]) == Arrived(lives[i]) + [command];
    assert |lives[j].consumed| > n ==> lives[j].consumed[n] == Arrived(lives[j])[n];
  }

  /** To a closed mailbox nothing is sent, and its sender is told. */
  lemma ClosedRefuses(path: ChatPath, ch: Channel, command: Command)
    requires !ch.open
    ensures var sent := SentBy(path, ch, command);
      sent.channel == ch && sent.result.Err?
      && (sent.result.error == NonRootUserMessage <==> command.SendUserMessage? && Depth(path) > 0)
  {
  }

  /** When a shutdown is taken the runner has published it and ended. */
  lemma TakenShutdownEnds(b: Birth, lives: seq<Life>, i: nat)
    requires Lives(b, lives) && i < |lives| && Possible(b, lives[i], RunnerTakes)
      && lives[i].channel.queue[0] == Shutdown
    ensures var l := Happened(b, lives[i], RunnerTakes);
      RunOf(b, l).phase == Ended && !l.channel.open && AgentShutdown in RunOf(b, l).state.bus
  {
    LifeSound(b, lives, i);
    ShutdownEnds(b.e, Initial(b.chat, b.nextId, b.isSubagent), lives[i].consumed, b.replies);
  }

  lemma HappenedBounded(b: Birth, l: Life, event: Event)
    requires |l.channel.queue| <= 64 && Possible(b, l, event)
    ensures |Happened(b, l, event).channel.queue| <= 64
  {
  }

  /** A mailbox takes a command while it holds fewer than 64, and never holds more. */
  lemma {:induction false} NeverOverfull(b: Birth, lives: seq<Life>, i: nat)
    requires Lives(b, lives) && i < |lives|
    ensures |lives[i].channel.queue| <= 64
    ensures lives[i].channel.open ==> (HasRoom(lives[i].channel) <==> |lives[i].channel.queue| < 64)
  {
    if i == 0 {
    } else {
      NeverOverfull(b, lives, i - 1);
      assert lives[i - 1 + 1] == lives[i];
      var event :| Possible(b, lives[i - 1], event) && lives[i] == Happened(b, lives[i - 1], event);
      HappenedBounded(b, lives[i - 1], event);
    }
  }
}
