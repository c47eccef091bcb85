/** When every context is shut down once: exactly when nothing overlaps an ending and no chat
    has two agents, opening ones included. */
module ContextOnce {
  import opened Prelude
  import opened Chats
  import opened HandleRegistry
  import opened ContextLifecycle
  import opened ContextSafety
  import opened ContextShutdown

  // --- The condition and the promise

  /** Who registers next, with a context in hand. */
  predicate IsJoining(op: Op) {
    Creates(op.task).Some? && op.stage.Holding?
  }

  function JoinsAs(op: Op): Uuid
    requires IsJoining(op)
  {
    Current(Creates(op.task).value)
  }

  /** A chat has two agents, at work or about to be registered. */
  ghost predicate Crowded(s: World) {
    Doubled(s) || SomeReturns(s) || SomeRivals(s)
  }

  ghost predicate SomeReturns(s: World) {
    exists o, n :: o in s.ops && n in s.agents && Returning(s.ops[o], s.agents[n])
  }

  ghost predicate SomeRivals(s: World) {
    exists o, p :: o in s.ops && p in s.ops && o != p && Rivals(s.ops[o], s.ops[p])
  }

  predicate Returning(op: Op, a: Worker) {
    IsJoining(op) && Current(a.path) == JoinsAs(op)
  }

  predicate Rivals(a: Op, b: Op) {
    IsJoining(a) && IsJoining(b) && JoinsAs(a) == JoinsAs(b)
  }

  /** No context was shut down twice, and none that was given out and has no agent left was not. */
  ghost predicate Once(s: World) {
    forall c: Ctx :: OnceFor(s, c)
  }

  ghost predicate OnceFor(s: World, c: Ctx) {
    multiset(s.shared.shut)[c] <= 1 && (c in s.used && !SomeHolds(s.agents, c) ==> multiset(s.shared.shut)[c] == 1)
  }

  predicate Leaves(a: Action) {
    a.GiveUp? || a.Exit? || a.RemoveAndTest? || a.ShutDownContext? || a.ForgetContext?
  }

  predicate AllRegister(actions: seq<Action>) {
    forall i | 0 <= i < |actions| :: actions[i].Register?
  }

  predicate AllLeave(actions: seq<Action>) {
    forall i | 0 <= i < |actions| :: Leaves(actions[i])
  }

  /** Whoever of those about to be registered still is, and however the agents then leave,
      each context is shut down once. */
  ghost predicate EndsOnce(s: World) {
    forall joins, leaves | AllRegister(joins) && AllLeave(leaves) ::
      Taken(s, joins + leaves).Some? ==> Once(Taken(s, joins + leaves).value)
  }

  lemma {:induction false} TakenThen(s: World, a: seq<Action>, b: seq<Action>)
    ensures Taken(s, a + b) == if Taken(s, a).Some? then Taken(Taken(s, a).value, b) else None
    decreases |a|
  {
    if a == [] {
      assert a + b == b;
    } else {
      assert (a + b)[1..] == a[1..] + b;
      if Enabled(s, a[0]) && Allowed(s, a[0]) {
        TakenThen(Apply(s, a[0]), a[1..], b);
      }
    }
  }

  // --- What holds before anything is crowded

  ghost predicate Tidy(s: World) {
    Sound(s) && Single(s) && !Doubled(s) && EndersListed(s) && (forall c: Ctx :: Counted(s, c)) && NoneStranded(s.ops)
  }

  ghost predicate NoneStranded(ops: Ops) {
    forall o | o in ops :: !Stranded(ops[o])
  }

  lemma StartTidy()
    ensures Tidy(START)
  {
    StartSound();
    forall c: Ctx ensures Counted(START, c) {
      assert EndingWith(START.agents, c) == {};
    }
  }

  /** A child's sponsor is the owner of a handle, so its tree has a context. */
  lemma SponsorHolds(s: World, o: nat)
    requires Sound(s) && Single(s) && o in s.ops && s.ops[o].task.SpawnChild?
    ensures ContextFor(s.shared, TreeOf(s.ops[o].task)).Some?
    ensures forall n | n in s.agents && IsEnding(s.agents[n]) :: RootId(s.agents[n].path) != TreeOf(s.ops[o].task)
  {
    assert HasSponsor(s.ops[o], s.agents);
    var m := s.ops[o].task.sponsor;
    forall n | n in s.agents && IsEnding(s.agents[n]) ensures RootId(s.agents[n].path) != TreeOf(s.ops[o].task) {
      assert RootId(s.agents[m].path) == RootId(s.agents[n].path) ==> m == n;
    }
  }

  lemma StepNoneStranded(s: World, a: Action)
    requires Sound(s) && Single(s) && NoneStranded(s.ops) && Enabled(s, a)
    ensures NoneStranded(Apply(s, a).ops)
  {
    if a.LookUp? {
      if s.ops[a.op].task.SpawnChild? {
        SponsorHolds(s, a.op);
      }
      LookUpFinds(s, a.op);
    } else {
      OthersStrandNone(s, a);
    }
  }

  lemma LookUpFinds(s: World, op: nat)
    requires NoneStranded(s.ops) && Enabled(s, LookUp(op))
    requires s.ops[op].task.SpawnChild? ==> ContextFor(s.shared, TreeOf(s.ops[op].task)).Some?
    ensures NoneStranded(Apply(s, LookUp(op)).ops)
  {
  }

  lemma OthersStrandNone(s: World, a: Action)
    requires Sponsored(s.ops, s.agents) && NoneStranded(s.ops) && Enabled(s, a) && !a.LookUp?
    ensures NoneStranded(Apply(s, a).ops)
  {
    if a.Store? {
      assert s.ops[a.op].task.SpawnChild? ==> HasSponsor(s.ops[a.op], s.agents);
    }
  }

  lemma StepNotDoubled(s: World, a: Action)
    requires !Crowded(s) && Numbered(s.agents, s.born) && Enabled(s, a)
    ensures !Doubled(Apply(s, a))
  {
    var s' := Apply(s, a);
    forall n, m | n in s'.agents && m in s'.agents && n != m ensures !Namesakes(s'.agents[n], s'.agents[m]) {
      if n in s.agents && m in s.agents {
        assert !Namesakes(s.agents[n], s.agents[m]);
      } else if n in s.agents {
        assert !Returning(s.ops[a.op], s.agents[n]);
      } else {
        assert !Returning(s.ops[a.op], s.agents[m]);
      }
    }
  }

  lemma StepListed(s: World, a: Action)
    requires EndersListed(s) && Enabled(s, a)
    ensures EndersListed(Apply(s, a))
  {
  }

  lemma StepTidy(s: World, a: Action)
    requires Tidy(s) && !Overlapped(s) && !Crowded(s) && Enabled(s, a) && Allowed(s, a)
    ensures Tidy(Apply(s, a))
  {
    ApplySound(s, a);
    StepNotDoubled(s, a);
    ApplySingle(s, a);
    StepListed(s, a);
    StepNoneStranded(s, a);
    forall c: Ctx ensures Counted(Apply(s, a), c) {
      ApplyCounted(s, a, c);
    }
  }

  ghost predicate ClearUpTo(trace: seq<World>, k: nat) {
    forall i | 0 <= i < k && i < |trace| :: !Overlapped(trace[i]) && !Crowded(trace[i])
  }

  lemma {:induction false} BehaviorTidy(trace: seq<World>, i: nat)
    requires Behavior(trace) && i < |trace| && ClearUpTo(trace, i)
    ensures Tidy(trace[i])
  {
    if i == 0 {
      StartTidy();
    } else {
      BehaviorTidy(trace, i - 1);
      assert Next(trace[i - 1], trace[i - 1 + 1]);
      var a :| Enabled(trace[i - 1], a) && Allowed(trace[i - 1], a) && trace[i] == Apply(trace[i - 1], a);
      StepTidy(trace[i - 1], a);
    }
  }

  /** What a tidy state has shut down. */
  lemma TidyOnce(s: World)
    requires Single(s) && EndersListed(s) && forall c: Ctx :: Counted(s, c)
    ensures Once(s)
  {
    forall c: Ctx ensures OnceFor(s, c) {
      assert Counted(s, c);
      OnceOnly(s.emptied, c);
      if c in s.used && !SomeHolds(s.agents, c) {
        assert EndingWith(s.agents, c) == {};
      }
    }
  }

  // --- Enough

  lemma JoinStaysClear(s: World, o: nat)
    requires !Overlapped(s) && !Crowded(s) && Enabled(s, Register(o))
    ensures !Overlapped(Apply(s, Register(o))) && !Crowded(Apply(s, Register(o)))
  {
    var s' := Apply(s, Register(o));
    FinishStaysApart(s, Register(o));
    forall n, m | n in s'.agents && m in s'.agents && n != m ensures !Namesakes(s'.agents[n], s'.agents[m]) {
      if n != s.born && m != s.born {
        assert !Namesakes(s.agents[n], s.agents[m]);
      } else if n != s.born {
        assert !Returning(s.ops[o], s.agents[n]);
      } else {
        assert !Returning(s.ops[o], s.agents[m]);
      }
    }
    forall p, n | p in s'.ops && n in s'.agents ensures !Returning(s'.ops[p], s'.agents[n]) {
      if n == s.born {
        assert !Rivals(s.ops[p], s.ops[o]);
      } else {
        assert !Returning(s.ops[p], s.agents[n]);
      }
    }
    forall p, q | p in s'.ops && q in s'.ops && p != q ensures !Rivals(s'.ops[p], s'.ops[q]) {
      assert !Rivals(s.ops[p], s.ops[q]);
    }
  }

  lemma {:induction false} JoinsTidy(s: World, joins: seq<Action>)
    requires Tidy(s) && !Overlapped(s) && !Crowded(s) && AllRegister(joins)
    ensures Taken(s, joins).Some? ==> Tidy(Taken(s, joins).value)
    decreases |joins|
  {
    if joins == [] {
    } else if Enabled(s, joins[0]) && Allowed(s, joins[0]) {
      StepTidy(s, joins[0]);
      JoinStaysClear(s, joins[0].op);
      JoinsTidy(Apply(s, joins[0]), joins[1..]);
    }
  }

  /** For those who leave, it makes no difference who else is still at it. */
  function Alone(s: World): World {
    s.(ops := map[])
  }

  lemma AloneTidy(s: World)
    requires Tidy(s)
    ensures Tidy(Alone(s)) && !Overlapped(Alone(s)) && !Crowded(Alone(s))
  {
    var s' := Alone(s);
    AloneSound(s);
    forall n, m | n in s'.agents && m in s'.agents && n != m ensures !Namesakes(s'.agents[n], s'.agents[m]) {
      assert !Namesakes(s.agents[n], s.agents[m]);
    }
    forall c: Ctx ensures Counted(s', c) {
      assert Counted(s, c);
    }
  }

  lemma AloneSound(s: World)
    requires Sound(s)
    ensures Sound(Alone(s))
  {
  }

  lemma LeaveAlone(s: World, a: Action)
    requires Enabled(s, a) && Leaves(a)
    ensures a.GiveUp? ==> Alone(Apply(s, a)) == Alone(s)
    ensures !a.GiveUp? ==> Enabled(Alone(s), a) && Allowed(Alone(s), a) && Apply(Alone(s), a) == Alone(Apply(s, a))
  {
  }

  lemma {:induction false} LeavesOnce(s: World, leaves: seq<Action>)
    requires Tidy(Alone(s)) && AllLeave(leaves)
    ensures Taken(s, leaves).Some? ==> Once(Taken(s, leaves).value)
    decreases |leaves|
  {
    if leaves == [] {
      TidyOnce(Alone(s));
      forall c: Ctx ensures OnceFor(s, c) {
        assert OnceFor(Alone(s), c);
      }
    } else if Enabled(s, leaves[0]) && Allowed(s, leaves[0]) {
      LeaveAlone(s, leaves[0]);
      if !leaves[0].GiveUp? {
        AloneTidy(Alone(s));
        StepTidy(Alone(s), leaves[0]);
      }
      LeavesOnce(Apply(s, leaves[0]), leaves[1..]);
    }
  }

  lemma ClearEndsOnce(s: World)
    requires Tidy(s) && !Overlapped(s) && !Crowded(s)
    ensures EndsOnce(s)
  {
    forall joins, leaves | AllRegister(joins) && AllLeave(leaves)
      ensures Taken(s, joins + leaves).Some? ==> Once(Taken(s, joins + leaves).value)
    {
      TakenThen(s, joins, leaves);
      JoinsTidy(s, joins);
      if Taken(s, joins).Some? {
        AloneTidy(Taken(s, joins).value);
        LeavesOnce(Taken(s, joins).value, leaves);
      }
    }
  }

  // --- And needed

  lemma StepOn(s: World, leaves: seq<Action>, s': World, a: Action) returns (more: seq<Action>)
    requires Taken(s, leaves) == Some(s') && AllLeave(leaves) && Leaves(a) && Enabled(s', a) && Allowed(s', a)
    ensures more == leaves + [a] && AllLeave(more) && Taken(s, more) == Some(Apply(s', a))
  {
    var none: seq<Action> := [];
    more := leaves + [a];
    TakenThen(s, leaves, [a]);
    assert [a] == [a] + none;
    TakenFirst(s', a, none);
  }

  ghost predicate SponsorsNone(s: World, n: nat) {
    forall o | o in s.ops && s.ops[o].task.SpawnChild? :: s.ops[o].task.sponsor != n
  }

  /** An agent stops and finds its tree empty. */
  lemma FindsEmpty(s: World, n: nat) returns (leaves: seq<Action>, s': World)
    requires n in s.agents && IsRegistered(s.agents[n]) && SponsorsNone(s, n)
    requires TreeEmpty(Removed(s.shared, s.agents[n].path), RootId(s.agents[n].path))
    ensures AllLeave(leaves) && Taken(s, leaves) == Some(s')
    ensures s'.agents == Turned(s.agents, n, Ending) && s'.shared == Removed(s.shared, s.agents[n].path)
      && s'.ops == s.ops
  {
    leaves, s' := [], s;
    if s.agents[n].phase == Running {
      leaves := StepOn(s, leaves, s', Exit(n));
      s' := Apply(s', Exit(n));
    }
    leaves := StepOn(s, leaves, s', RemoveAndTest(n));
    s' := Apply(s', RemoveAndTest(n));
  }

  lemma ThenLeave(s: World, a: seq<Action>, t: World, b: seq<Action>, u: World)
    requires AllLeave(a) && AllLeave(b) && Taken(s, a) == Some(t) && Taken(t, b) == Some(u)
    ensures AllLeave(a + b) && Taken(s, a + b) == Some(u)
  {
    TakenThen(s, a, b);
  }

  lemma Shuts(s: World, n: nat, c: Ctx) returns (s': World)
    requires n in s.agents && s.agents[n].phase == Ending && s.agents[n].ctx == Some(c)
    ensures AllLeave([ShutDownContext(n)]) && Taken(s, [ShutDownContext(n)]) == Some(s')
    ensures s'.agents == Turned(s.agents, n, Forgetting) && s'.shared.shut == s.shared.shut + [c] && s'.ops == s.ops
  {
    var none: seq<Action> := [];
    assert [ShutDownContext(n)] == [ShutDownContext(n)] + none;
    TakenFirst(s, ShutDownContext(n), none);
    s' := Apply(s, ShutDownContext(n));
  }

  ghost predicate ShutsTwice(s: World, c: Ctx) {
    exists leaves :: AllLeave(leaves) && Taken(s, leaves).Some? && multiset(Taken(s, leaves).value.shared.shut)[c] >= 2
  }

  /** Leaving that way after these registrations breaks the promise. */
  lemma TwiceBreaks(s: World, joins: seq<Action>, t: World, c: Ctx)
    requires AllRegister(joins) && Taken(s, joins) == Some(t) && ShutsTwice(t, c)
    ensures !EndsOnce(s)
  {
    var leaves :| AllLeave(leaves) && Taken(t, leaves).Some? && multiset(Taken(t, leaves).value.shared.shut)[c] >= 2;
    TakenThen(s, joins, leaves);
    assert !OnceFor(Taken(s, joins + leaves).value, c);
  }

  lemma JoinOne(s: World, o: nat) returns (joins: seq<Action>)
    requires Enabled(s, Register(o))
    ensures AllRegister(joins) && Taken(s, joins) == Some(Apply(s, Register(o)))
  {
    var none: seq<Action> := [];
    joins := [Register(o)];
    assert joins == [Register(o)] + none;
    TakenFirst(s, Register(o), none);
  }

  // An overlap: the one who registered finds the tree empty again

  /** One agent is ending the tree, with the context another is about to find empty too. */
  lemma EndedTwice(s: World, n: nat, b: nat, c: Ctx)
    requires n in s.agents && b in s.agents && n != b && IsEnding(s.agents[n]) && IsRegistered(s.agents[b])
      && SponsorsNone(s, b)
    requires s.agents[n].ctx == s.agents[b].ctx == Some(c) && (s.agents[n].phase == Forgetting ==> c in s.shared.shut)
    requires TreeEmpty(Removed(s.shared, s.agents[b].path), RootId(s.agents[b].path))
    ensures ShutsTwice(s, c)
  {
    var leaves, t := FindsEmpty(s, b);
    var u := Shuts(t, b, c);
    ThenLeave(s, leaves, t, [ShutDownContext(b)], u);
    leaves := leaves + [ShutDownContext(b)];
    if s.agents[n].phase == Ending {
      var v := Shuts(u, n, c);
      ThenLeave(s, leaves, u, [ShutDownContext(n)], v);
      assert v.shared.shut == s.shared.shut + [c] + [c];
      leaves := leaves + [ShutDownContext(n)];
    }
    assert multiset(Taken(s, leaves).value.shared.shut)[c] >= 2;
  }

  /** Whoever forgets a context has shut it down. */
  lemma ForgetterShut(s: World, n: nat, c: Ctx)
    requires Tidy(s) && n in s.agents && s.agents[n].phase == Forgetting && s.agents[n].ctx == Some(c)
    ensures c in s.shared.shut
  {
    HomesApart(s.shared, s.ops, s.agents, s.homes);
    assert Counted(s, c) && c in s.emptied;
    NobodyEndsWith(s.agents, n, c);
  }

  lemma NobodyEndsWith(agents: Workers, n: nat, c: Ctx)
    requires OneTree(agents) && EndsAlone(agents) && n in agents && agents[n].phase == Forgetting
      && agents[n].ctx == Some(c)
    ensures EndingWith(agents, c) == {}
  {
    forall m | m in agents && agents[m].phase == Ending ensures agents[m].ctx != agents[n].ctx {
      assert m != n && IsEnding(agents[n]);
      assert RootId(agents[m].path) != RootId(agents[n].path);
    }
  }

  lemma BornSponsorsNone(s: World, o: nat)
    requires Sound(s) && Enabled(s, Register(o))
    ensures SponsorsNone(Apply(s, Register(o)), s.born)
  {
    forall p | p in s.ops && s.ops[p].task.SpawnChild? ensures s.ops[p].task.sponsor != s.born {
      assert HasSponsor(s.ops[p], s.agents);
    }
  }

  lemma OverlapShutsTwice(s: World, o: nat, n: nat)
    requires Tidy(s) && o in s.ops && n in s.agents && Overlap(s.ops[o], s.agents[n])
    ensures !EndsOnce(s)
  {
    assert !Stranded(s.ops[o]);
    OpsHoldAt(s.ops, o, s.shared.contexts);
    var c, path := s.ops[o].stage.ctx.value, Creates(s.ops[o].task).value;
    assert s.agents[n].ctx == Some(c) && n != s.born && RootId(path) == TreeOf(s.ops[o].task);
    if s.agents[n].phase == Forgetting {
      ForgetterShut(s, n, c);
    }
    var t := Apply(s, Register(o));
    BornSponsorsNone(s, o);
    EmptyTree(t.shared.handles - {Current(path)}, RootId(path));
    forall id | id in s.shared.handles ensures RootId(s.shared.handles[id]) != RootId(path) {
      NotEnding(s.agents, s.shared.handles, n, id);
    }
    EndedTwice(t, n, s.born, c);
    var joins := JoinOne(s, o);
    TwiceBreaks(s, joins, t, c);
  }

  // Two agents of one chat: everyone else of the tree leaves, and then each of them finds it empty

  /** Two agents of one chat, the second the owner of its handle, hold one context. */
  ghost predicate Twins(s: World, n: nat, b: nat, c: Ctx) {
    TwinsAmong(s.agents, s.owners, s.shared.handles, n, b, c)
  }

  ghost predicate TwinsAmong(agents: Workers, owners: map<Uuid, nat>, handles: Handles, n: nat, b: nat, c: Ctx) {
    RegistryExact(agents, owners, handles)
    && n in agents && b in agents && n != b && agents[n].path == agents[b].path
    && IsRegistered(agents[n]) && IsRegistered(agents[b]) && agents[n].ctx == agents[b].ctx == Some(c)
    && var path := agents[n].path;
      Current(path) in handles && owners[Current(path)] == b && handles[Current(path)] == path
      && OthersApart(agents, n, b, path)
  }

  /** The others of their tree are registered, as other chats. */
  ghost predicate OthersApart(agents: Workers, n: nat, b: nat, path: ChatPath) {
    forall m | m in agents && RootId(agents[m].path) == RootId(path) && m != n && m != b ::
      IsRegistered(agents[m]) && Current(agents[m].path) != Current(path)
  }

  ghost predicate InTree(s: World, m: nat, root: Uuid) {
    m in s.agents && RootId(s.agents[m].path) == root
  }

  ghost predicate NoSpawns(ops: Ops) {
    forall o | o in ops :: !ops[o].task.SpawnChild?
  }

  /** Every spawning under way may fail. */
  lemma {:induction false} SpawnsFail(s: World) returns (leaves: seq<Action>, t: World)
    requires Sponsored(s.ops, s.agents)
    ensures AllLeave(leaves) && Taken(s, leaves) == Some(t) && NoSpawns(t.ops) && t == s.(ops := t.ops)
    decreases |s.ops|
  {
    if o :| o in s.ops && s.ops[o].task.SpawnChild? {
      assert HasSponsor(s.ops[o], s.agents);
      var next := Apply(s, GiveUp(o));
      forall p | p in next.ops && next.ops[p].task.SpawnChild? ensures HasSponsor(next.ops[p], next.agents) {
        assert HasSponsor(s.ops[p], s.agents);
      }
      var rest: seq<Action>;
      rest, t := SpawnsFail(next);
      TakenFirst(s, GiveUp(o), rest);
      leaves := [GiveUp(o)] + rest;
    } else {
      leaves, t := [], s;
    }
  }

  /** One of the others leaves. */
  lemma OtherLeaves(s: World, n: nat, b: nat, c: Ctx, m: nat) returns (leaves: seq<Action>, t: World)
    requires Twins(s, n, b, c) && NoSpawns(s.ops) && InTree(s, m, RootId(s.agents[n].path)) && m != n && m != b
    ensures AllLeave(leaves) && Taken(s, leaves) == Some(t)
    ensures Twins(t, n, b, c) && NoSpawns(t.ops) && t.agents == s.agents - {m}
  {
    var path, id := s.agents[n].path, Current(s.agents[m].path);
    leaves, t := [], s;
    if s.agents[m].phase == Running {
      leaves := StepOn(s, leaves, t, Exit(m));
      t := Apply(t, Exit(m));
    }
    EmptyTree(t.shared.handles - {id}, RootId(path));
    assert Current(path) in t.shared.handles - {id};
    leaves := StepOn(s, leaves, t, RemoveAndTest(m));
    t := Apply(t, RemoveAndTest(m));
    assert t.agents == s.agents - {m} && t.owners == s.owners - {id} && t.shared.handles == s.shared.handles - {id};
    OthersOwn(s.agents, s.owners, s.shared.handles, m);
  }

  lemma OthersOwn(agents: Workers, owners: map<Uuid, nat>, handles: Handles, m: nat)
    requires RegistryExact(agents, owners, handles) && m in agents
    ensures var id := Current(agents[m].path); RegistryExact(agents - {m}, owners - {id}, handles - {id})
  {
    var id := Current(agents[m].path);
    forall x | x in handles - {id}
      ensures x in owners - {id} && owners[x] != m && IsOwner(agents[owners[x]], x, handles[x]) {
      assert IsOwner(agents[owners[x]], x, handles[x]);
    }
  }

  lemma {:induction false} OthersLeave(s: World, n: nat, b: nat, c: Ctx) returns (leaves: seq<Action>, t: World)
    requires Twins(s, n, b, c) && NoSpawns(s.ops)
    ensures AllLeave(leaves) && Taken(s, leaves) == Some(t) && Twins(t, n, b, c) && NoSpawns(t.ops)
    ensures forall m | InTree(t, m, RootId(t.agents[n].path)) :: m == n || m == b
    decreases |s.agents|
  {
    if m :| InTree(s, m, RootId(s.agents[n].path)) && m != n && m != b {
      var one, mid := OtherLeaves(s, n, b, c, m);
      var rest: seq<Action>;
      rest, t := OthersLeave(mid, n, b, c);
      ThenLeave(s, one, mid, rest, t);
      leaves := one + rest;
    } else {
      leaves, t := [], s;
    }
  }

  /** With nobody else in the tree, each of the two finds it empty. */
  lemma TwinsEnd(s: World, n: nat, b: nat, c: Ctx)
    requires Twins(s, n, b, c) && NoSpawns(s.ops)
    requires forall m | InTree(s, m, RootId(s.agents[n].path)) :: m == n || m == b
    ensures ShutsTwice(s, c)
  {
    var path := s.agents[n].path;
    EmptyTree(s.shared.handles - {Current(path)}, RootId(path));
    forall id | id in s.shared.handles && RootId(s.shared.handles[id]) == RootId(path) ensures id == Current(path) {
      assert IsOwner(s.agents[s.owners[id]], id, s.shared.handles[id]) && InTree(s, s.owners[id], RootId(path));
    }
    var leaves, t := FindsEmpty(s, n);
    assert t.shared.handles - {Current(path)} == t.shared.handles;
    EndedTwice(t, n, b, c);
    var more :| AllLeave(more) && Taken(t, more).Some? && multiset(Taken(t, more).value.shared.shut)[c] >= 2;
    ThenLeave(s, leaves, t, more, Taken(t, more).value);
    assert multiset(Taken(s, leaves + more).value.shared.shut)[c] >= 2;
  }

  lemma TwinsShutTwice(s: World, n: nat, b: nat, c: Ctx)
    requires Twins(s, n, b, c) && Sponsored(s.ops, s.agents)
    ensures ShutsTwice(s, c)
  {
    var first, t := SpawnsFail(s);
    var second, u := OthersLeave(t, n, b, c);
    ThenLeave(s, first, t, second, u);
    TwinsEnd(u, n, b, c);
    var third :| AllLeave(third) && Taken(u, third).Some? && multiset(Taken(u, third).value.shared.shut)[c] >= 2;
    ThenLeave(s, first + second, u, third, Taken(u, third).value);
    assert multiset(Taken(s, first + second + third).value.shared.shut)[c] >= 2;
  }

  /** Registering beside an agent of the same chat makes the two. */
  lemma ReturnTwins(s: World, o: nat, n: nat) returns (c: Ctx)
    requires Tidy(s) && !Overlapped(s) && o in s.ops && n in s.agents && Returning(s.ops[o], s.agents[n])
    ensures Twins(Apply(s, Register(o)), n, s.born, c)
  {
    TreeNotEnding(s, o);
    c := s.ops[o].stage.ctx.value;
    var a := Worker(Creates(s.ops[o].task).value, Some(c), Running);
    assert OnlyAs(s.ops, s.agents, a.path) && RootId(a.path) == TreeOf(s.ops[o].task);
    NoNamesake(s, n);
    JoinTwins(s.agents, s.owners, s.shared.handles, s.born, n, a, c);
  }

  /** Of its tree, only the newcomer has the chat of the one that was there. */
  lemma JoinTwins(agents: Workers, owners: map<Uuid, nat>, handles: Handles, born: nat, n: nat, a: Worker, c: Ctx)
    requires RegistryExact(agents, owners, handles) && Numbered(agents, born) && EndsQuietly(agents, handles)
    requires n in agents && agents[n].path == a.path && agents[n].ctx == a.ctx == Some(c) && a.phase == Running
    requires forall m | m in agents && m != n :: Current(agents[m].path) != Current(agents[n].path)
    requires forall m | m in agents && IsEnding(agents[m]) :: RootId(agents[m].path) != RootId(a.path)
    ensures var id := Current(a.path);
      TwinsAmong(agents[born := a], owners[id := born], handles[id := a.path], n, born, c)
  {
    JoinRegistry(agents, owners, handles, born, a);
    assert OthersApart(agents[born := a], n, born, a.path);
  }

  lemma RegisterSponsored(s: World, o: nat)
    requires Sponsored(s.ops, s.agents) && Numbered(s.agents, s.born) && Enabled(s, Register(o))
    ensures Sponsored(Apply(s, Register(o)).ops, Apply(s, Register(o)).agents)
  {
    var t := Apply(s, Register(o));
    forall p | p in t.ops && t.ops[p].task.SpawnChild? ensures HasSponsor(t.ops[p], t.agents) {
      assert HasSponsor(s.ops[p], s.agents);
    }
  }

  lemma ReturnBreaks(s: World, joins: seq<Action>, t: World, o: nat, n: nat)
    requires AllRegister(joins) && Taken(s, joins) == Some(t)
    requires Tidy(t) && !Overlapped(t) && o in t.ops && n in t.agents && Returning(t.ops[o], t.agents[n])
    ensures !EndsOnce(s)
  {
    var c := ReturnShutsTwice(t, o, n);
    var more := JoinMore(s, joins, t, o);
    TwiceBreaks(s, more, Apply(t, Register(o)), c);
  }

  lemma ReturnShutsTwice(t: World, o: nat, n: nat) returns (c: Ctx)
    requires Tidy(t) && !Overlapped(t) && o in t.ops && n in t.agents && Returning(t.ops[o], t.agents[n])
    ensures ShutsTwice(Apply(t, Register(o)), c)
  {
    c := ReturnTwins(t, o, n);
    RegisterSponsored(t, o);
    TwinsShutTwice(Apply(t, Register(o)), n, t.born, c);
  }

  lemma JoinMore(s: World, joins: seq<Action>, t: World, o: nat) returns (more: seq<Action>)
    requires AllRegister(joins) && Taken(s, joins) == Some(t) && Enabled(t, Register(o))
    ensures AllRegister(more) && Taken(s, more) == Some(Apply(t, Register(o)))
  {
    var one := JoinOne(t, o);
    TakenThen(s, joins, one);
    more := joins + one;
  }

  /** Two about to register as one: after the first, the second is the one that returns. */
  lemma RivalsBreak(s: World, o: nat, p: nat)
    requires Tidy(s) && !Overlapped(s) && o in s.ops && p in s.ops && o != p && Rivals(s.ops[o], s.ops[p])
    requires !SomeReturns(s)
    ensures !EndsOnce(s)
  {
    var t := Apply(s, Register(o));
    var joins := JoinOne(s, o);
    forall n, m | n in t.agents && m in t.agents && n != m ensures !Namesakes(t.agents[n], t.agents[m]) {
      if n != s.born && m != s.born {
        assert !Namesakes(s.agents[n], s.agents[m]);
      } else {
        assert n != s.born ==> !Returning(s.ops[o], s.agents[n]);
        assert m != s.born ==> !Returning(s.ops[o], s.agents[m]);
      }
    }
    RegisterTidy(s, o);
    FinishStaysApart(s, Register(o));
    assert Returning(t.ops[p], t.agents[s.born]);
    ReturnBreaks(s, joins, t, p, s.born);
  }

  lemma RegisterTidy(s: World, o: nat)
    requires Tidy(s) && !Overlapped(s) && Enabled(s, Register(o)) && !Doubled(Apply(s, Register(o)))
    ensures Tidy(Apply(s, Register(o)))
  {
    RegisterSound(s, o);
    RegisterSingle(s, o);
    StepListed(s, Register(o));
    StepNoneStranded(s, Register(o));
    forall c: Ctx ensures Counted(Apply(s, Register(o)), c) {
      ApplyCounted(s, Register(o), c);
    }
  }

  lemma TroubleBreaks(s: World)
    requires Tidy(s) && (Overlapped(s) || Crowded(s))
    ensures !EndsOnce(s)
  {
    if Overlapped(s) {
      OverlapBreaksOnce(s);
    } else if SomeReturns(s) {
      ReturnBreaksOnce(s);
    } else {
      RivalsBreakOnce(s);
    }
  }

  lemma OverlapBreaksOnce(s: World)
    requires Tidy(s) && Overlapped(s)
    ensures !EndsOnce(s)
  {
    var o, n :| o in s.ops && n in s.agents && Overlap(s.ops[o], s.agents[n]);
    OverlapShutsTwice(s, o, n);
  }

  lemma ReturnBreaksOnce(s: World)
    requires Tidy(s) && !Overlapped(s) && SomeReturns(s)
    ensures !EndsOnce(s)
  {
    var o, n :| o in s.ops && n in s.agents && Returning(s.ops[o], s.agents[n]);
    var none: seq<Action> := [];
    ReturnBreaks(s, none, s, o, n);
  }

  lemma RivalsBreakOnce(s: World)
    requires Tidy(s) && !Overlapped(s) && !SomeReturns(s) && SomeRivals(s)
    ensures !EndsOnce(s)
  {
    var o, p :| o in s.ops && p in s.ops && o != p && Rivals(s.ops[o], s.ops[p]);
    RivalsBreak(s, o, p);
  }

  // --- The results

  lemma {:induction false} FirstTrouble(trace: seq<World>, i: nat) returns (first: nat)
    requires i < |trace| && (Overlapped(trace[i]) || Crowded(trace[i]))
    ensures first <= i && (Overlapped(trace[first]) || Crowded(trace[first])) && ClearUpTo(trace, first)
  {
    if exists j :: 0 <= j < i && (Overlapped(trace[j]) || Crowded(trace[j])) {
      var j: nat :| j < i && (Overlapped(trace[j]) || Crowded(trace[j]));
      first := FirstTrouble(trace, j);
    } else {
      first := i;
    }
  }

  /** Over every interleaving: however the agents there are and are about to be leave, each
      context is shut down once, exactly if nothing ever overlaps an ending and no chat ever
      has two agents, at work or about to be registered. */
  lemma OnceExactly(trace: seq<World>)
    requires Behavior(trace)
    ensures (forall i | 0 <= i < |trace| :: EndsOnce(trace[i]))
      <==> forall i | 0 <= i < |trace| :: !Overlapped(trace[i]) && !Crowded(trace[i])
  {
    if forall i | 0 <= i < |trace| :: !Overlapped(trace[i]) && !Crowded(trace[i]) {
      forall i | 0 <= i < |trace| ensures EndsOnce(trace[i]) {
        BehaviorTidy(trace, i);
        ClearEndsOnce(trace[i]);
      }
    } else {
      var i :| 0 <= i < |trace| && (Overlapped(trace[i]) || Crowded(trace[i]));
      var first := FirstTrouble(trace, i);
      BehaviorTidy(trace, first);
      TroubleBreaks(trace[first]);
    }
  }

  /** A child is spawned into an ending, or finds no context, only after a chat was crowded or a
      root's opening overlapped. */
  lemma ChildrenFollow(trace: seq<World>, i: nat, o: nat)
    requires Behavior(trace) && i < |trace| && ClearUpTo(trace, i)
    requires o in trace[i].ops && trace[i].ops[o].task.SpawnChild?
    ensures !Stranded(trace[i].ops[o])
      && forall n | n in trace[i].agents :: !Overlap(trace[i].ops[o], trace[i].agents[n])
  {
    BehaviorTidy(trace, i);
    SponsorHolds(trace[i], o);
  }
}
