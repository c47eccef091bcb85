/** How often a context is shut down. */
module ContextShutdown {
  import opened Prelude
  import opened Chats
  import opened HandleRegistry
  import opened ContextLifecycle
  import opened ContextSafety

  // --- In every interleaving

  function EndingWith(agents: Workers, c: Ctx): set<nat> {
    set n | n in agents && agents[n].phase == Ending && agents[n].ctx == Some(c)
  }

  /** Each time an agent with this context found its subtree empty, the context was shut down
      or is about to be. */
  ghost predicate Counted(s: World, c: Ctx) {
    multiset(s.shared.shut)[c] + |EndingWith(s.agents, c)| == multiset(s.emptied)[c]
  }

  lemma TurnedCounts(agents: Workers, n: nat, phase: Phase, c: Ctx)
    requires n in agents && (phase == Ending <==> agents[n].phase != Ending)
    ensures var now := |EndingWith(Turned(agents, n, phase), c)|;
      now == |EndingWith(agents, c)| + (if agents[n].ctx != Some(c) then 0 else if phase == Ending then 1 else -1)
  {
    var before, after := EndingWith(agents, c), EndingWith(Turned(agents, n, phase), c);
    if agents[n].ctx != Some(c) {
      assert after == before;
    } else if phase == Ending {
      assert after == before + {n};
    } else {
      assert before == after + {n};
    }
  }

  lemma AgentCounted(s: World, a: Action, n: nat, c: Ctx)
    requires Counted(s, c) && Enabled(s, a) && (a == RemoveAndTest(n) || a == ShutDownContext(n))
    ensures Counted(Apply(s, a), c)
  {
    if a.ShutDownContext? {
      TurnedCounts(s.agents, n, Forgetting, c);
    } else if TreeEmpty(Removed(s.shared, s.agents[n].path), RootId(s.agents[n].path)) {
      TurnedCounts(s.agents, n, Ending, c);
    } else {
      assert EndingWith(s.agents - {n}, c) == EndingWith(s.agents, c);
    }
  }

  lemma ApplyCounted(s: World, a: Action, c: Ctx)
    requires Counted(s, c) && Numbered(s.agents, s.born) && Enabled(s, a)
    ensures Counted(Apply(s, a), c)
  {
    match a
    case RemoveAndTest(n) => AgentCounted(s, a, n, c);
    case ShutDownContext(n) => AgentCounted(s, a, n, c);
    case _ => assert EndingWith(Apply(s, a).agents, c) == EndingWith(s.agents, c);
  }

  lemma ApplyNumbered(s: World, a: Action)
    requires Numbered(s.agents, s.born) && Enabled(s, a)
    ensures Numbered(Apply(s, a).agents, Apply(s, a).born)
  {
  }

  /** In every interleaving, overlaps and doubles included, a context is shut down once for each
      time an agent holding it found its subtree empty, sooner or later. */
  lemma {:induction false} ShutAsOftenAsEmptied(trace: seq<World>, i: nat, c: Ctx)
    requires Behavior(trace) && i < |trace|
    ensures Counted(trace[i], c) && Numbered(trace[i].agents, trace[i].born)
  {
    if i == 0 {
      assert EndingWith(START.agents, c) == {};
    } else {
      ShutAsOftenAsEmptied(trace, i - 1, c);
      assert Next(trace[i - 1], trace[i - 1 + 1]);
      var a :| Enabled(trace[i - 1], a) && Allowed(trace[i - 1], a) && trace[i] == Apply(trace[i - 1], a);
      ApplyCounted(trace[i - 1], a, c);
      ApplyNumbered(trace[i - 1], a);
    }
  }

  // --- While no two agents of one chat are at work

  ghost predicate AllRegistered(agents: Workers, owners: map<Uuid, nat>) {
    forall n | n in agents && IsRegistered(agents[n]) ::
      Current(agents[n].path) in owners && owners[Current(agents[n].path)] == n
  }

  ghost predicate AllHold(agents: Workers, contexts: map<Uuid, Ctx>) {
    forall n | n in agents :: agents[n].ctx.Some? && HeldFor(contexts, RootId(agents[n].path)) == agents[n].ctx
  }

  /** The agent that ends a tree is the tree's last. */
  ghost predicate EndsAlone(agents: Workers) {
    forall n, m | n in agents && IsEnding(agents[n]) && m in agents
      && RootId(agents[m].path) == RootId(agents[n].path) :: m == n
  }

  ghost predicate SomeEnds(agents: Workers, c: Ctx) {
    exists n :: n in agents && IsEnding(agents[n]) && agents[n].ctx == Some(c)
  }

  ghost predicate SomeHolds(agents: Workers, c: Ctx) {
    exists n :: n in agents && agents[n].ctx == Some(c)
  }

  ghost predicate Retired(agents: Workers, contexts: map<Uuid, Ctx>, c: Ctx) {
    !SomeHolds(agents, c) && forall r | r in contexts :: contexts[r] != c
  }

  /** A tree found empty stays so for its context: it is being ended, or over. */
  ghost predicate EmptiedOnce(agents: Workers, contexts: map<Uuid, Ctx>, used: set<Ctx>, emptied: seq<Ctx>) {
    (forall c | c in emptied :: c in used && (SomeEnds(agents, c) || Retired(agents, contexts, c)))
    && (forall i, j | 0 <= i < j < |emptied| :: emptied[i] != emptied[j])
  }

  ghost predicate UsedAccounted(agents: Workers, used: set<Ctx>, emptied: seq<Ctx>) {
    forall c | c in used :: SomeHolds(agents, c) || c in emptied
  }

  ghost predicate Single(s: World) {
    AllRegistered(s.agents, s.owners) && AllHold(s.agents, s.shared.contexts) && EndsAlone(s.agents)
    && EmptiedOnce(s.agents, s.shared.contexts, s.used, s.emptied) && UsedAccounted(s.agents, s.used, s.emptied)
  }

  /** Nothing changes for the agents' contexts. */
  lemma SameHolders(agents: Workers, agents': Workers)
    requires forall n | n in agents ::
      n in agents' && agents'[n].ctx == agents[n].ctx && (IsEnding(agents[n]) ==> IsEnding(agents'[n]))
    ensures forall c :: SomeHolds(agents, c) ==> SomeHolds(agents', c)
    ensures forall c :: SomeEnds(agents, c) ==> SomeEnds(agents', c)
  {
    forall c: Ctx | SomeHolds(agents, c) ensures SomeHolds(agents', c) {
      var n :| n in agents && agents[n].ctx == Some(c);
      assert n in agents' && agents'[n].ctx == Some(c);
    }
    forall c: Ctx | SomeEnds(agents, c) ensures SomeEnds(agents', c) {
      var n :| n in agents && IsEnding(agents[n]) && agents[n].ctx == Some(c);
      assert n in agents' && IsEnding(agents'[n]) && agents'[n].ctx == Some(c);
    }
  }

  lemma StoreSingle(s: World, op: nat)
    requires Single(s) && Enabled(s, Store(op)) && BringsFresh(s.ops, s.shared, s.used)
    ensures Single(Apply(s, Store(op)))
  {
    var root, c := TreeOf(s.ops[op].task), s.ops[op].stage.made;
    assert NobodysYet(s.shared, s.used, c);
    var contexts' := Stored(s.shared, root, c).contexts;
    assert forall r | r in contexts' ::
      contexts'[r] == c || (r in s.shared.contexts && contexts'[r] == s.shared.contexts[r]);
    assert AllHold(s.agents, contexts');
    forall d | d in s.emptied ensures SomeEnds(s.agents, d) || Retired(s.agents, contexts', d) {
      assert d in s.used;
    }
  }

  lemma RegisterSingle(s: World, op: nat)
    requires Single(s) && Sound(s) && !Overlapped(s) && Enabled(s, Register(op)) && !Doubled(Apply(s, Register(op)))
    ensures Single(Apply(s, Register(op)))
  {
    var path, ctx := Creates(s.ops[op].task).value, s.ops[op].stage.ctx;
    var a, agents' := Worker(path, ctx, Running), Apply(s, Register(op)).agents;
    TreeNotEnding(s, op);
    assert RootId(path) == TreeOf(s.ops[op].task);
    JoinSingle(s.agents, s.owners, s.born, a, s.shared.contexts) by {
      forall n | n in s.agents ensures Current(s.agents[n].path) != Current(path) {
        assert agents'[n] == s.agents[n] && agents'[s.born] == a && n != s.born;
        assert !Namesakes(agents'[n], agents'[s.born]);
      }
    }
    JoinEmptied(s.agents, s.shared.contexts, s.used, s.emptied, s.born, a, ctx.value);
  }

  lemma JoinSingle(agents: Workers, owners: map<Uuid, nat>, born: nat, a: Worker, contexts: map<Uuid, Ctx>)
    requires AllRegistered(agents, owners) && AllHold(agents, contexts) && EndsAlone(agents) && Numbered(agents, born)
    requires a.phase == Running && a.ctx.Some? && HeldFor(contexts, RootId(a.path)) == a.ctx
    requires forall n | n in agents :: Current(agents[n].path) != Current(a.path)
    requires forall n | n in agents && IsEnding(agents[n]) :: RootId(agents[n].path) != RootId(a.path)
    ensures var agents' := agents[born := a];
      AllRegistered(agents', owners[Current(a.path) := born]) && AllHold(agents', contexts) && EndsAlone(agents')
  {
  }

  lemma JoinEmptied(agents: Workers, contexts: map<Uuid, Ctx>, used: set<Ctx>, emptied: seq<Ctx>, born: nat, a: Worker,
      c: Ctx)
    requires EmptiedOnce(agents, contexts, used, emptied) && UsedAccounted(agents, used, emptied)
      && Numbered(agents, born)
    requires a.ctx == Some(c) && HeldFor(contexts, RootId(a.path)) == Some(c)
    ensures EmptiedOnce(agents[born := a], contexts, used + {c}, emptied)
      && UsedAccounted(agents[born := a], used + {c}, emptied)
  {
    var agents' := agents[born := a];
    SameHolders(agents, agents');
    assert agents'[born].ctx == Some(c);
    forall d | d in emptied ensures SomeEnds(agents', d) || Retired(agents', contexts, d) {
      if !SomeEnds(agents, d) {
        assert Retired(agents, contexts, d) && d != c;
        forall n | n in agents' ensures agents'[n].ctx != Some(d) {
          assert n != born ==> agents'[n] == agents[n];
        }
      }
    }
  }

  lemma ExitSingle(s: World, n: nat)
    requires Single(s) && Enabled(s, Exit(n))
    ensures Single(Apply(s, Exit(n)))
  {
    var agents' := Turned(s.agents, n, Exited);
    SameHolders(s.agents, agents');
    SameHolders(agents', s.agents);
  }

  lemma OwnHandle(agents: Workers, owners: map<Uuid, nat>, handles: Handles, n: nat)
    requires RegistryExact(agents, owners, handles) && AllRegistered(agents, owners) && n in agents
      && IsRegistered(agents[n])
    ensures Current(agents[n].path) in handles && handles[Current(agents[n].path)] == agents[n].path
  {
    assert IsOwner(agents[owners[Current(agents[n].path)]], Current(agents[n].path), handles[Current(agents[n].path)]);
  }

  /** An empty subtree means the tree has no other agent. */
  lemma LastOfTree(s: World, n: nat)
    requires RegistryExact(s.agents, s.owners, s.shared.handles) && EndsQuietly(s.agents, s.shared.handles)
    requires AllRegistered(s.agents, s.owners) && n in s.agents && IsRegistered(s.agents[n])
    requires forall m | m in s.agents && m != n :: Current(s.agents[m].path) != Current(s.agents[n].path)
    requires TreeEmpty(Removed(s.shared, s.agents[n].path), RootId(s.agents[n].path))
    ensures forall m | m in s.agents && m != n :: RootId(s.agents[m].path) != RootId(s.agents[n].path)
  {
    var handles, path := s.shared.handles, s.agents[n].path;
    OwnHandle(s.agents, s.owners, handles, n);
    EmptyTree(handles - {Current(path)}, RootId(path));
    forall m | m in s.agents && m != n ensures RootId(s.agents[m].path) != RootId(path) {
      if IsRegistered(s.agents[m]) {
        OwnHandle(s.agents, s.owners, handles, m);
        assert Current(s.agents[m].path) in handles - {Current(path)};
      } else {
        NotEnding(s.agents, handles, m, Current(path));
      }
    }
  }

  lemma NoNamesake(s: World, n: nat)
    requires !Doubled(s) && n in s.agents
    ensures forall m | m in s.agents && m != n :: Current(s.agents[m].path) != Current(s.agents[n].path)
  {
    forall m | m in s.agents && m != n ensures Current(s.agents[m].path) != Current(s.agents[n].path) {
      assert !Namesakes(s.agents[m], s.agents[n]);
    }
  }

  lemma RemoveSingle(s: World, n: nat)
    requires Sound(s) && Single(s) && !Doubled(s) && Enabled(s, RemoveAndTest(n))
    ensures Single(Apply(s, RemoveAndTest(n)))
  {
    NoNamesake(s, n);
    if TreeEmpty(Removed(s.shared, s.agents[n].path), RootId(s.agents[n].path)) {
      LastOfTree(s, n);
      HomesApart(s.shared, s.ops, s.agents, s.homes);
      EndSingle(s.agents, s.owners, s.shared, s.used, s.emptied, n);
    } else {
      var id := OtherOfTree(s.agents, s.owners, s.shared.handles, s.agents[n].path);
      LeaveSingle(s.agents, s.owners, s.shared, s.used, s.emptied, n, id);
    }
  }

  lemma OtherOfTree(agents: Workers, owners: map<Uuid, nat>, handles: Handles, path: ChatPath) returns (id: Uuid)
    requires RegistryExact(agents, owners, handles) && Subtree(handles - {Current(path)}, RootId(path)) != {}
    ensures id in owners && owners[id] in agents && Current(agents[owners[id]].path) == id != Current(path)
    ensures RootId(agents[owners[id]].path) == RootId(path)
  {
    EmptyTree(handles - {Current(path)}, RootId(path));
    id :| id in handles - {Current(path)} && RootId(handles[id]) == RootId(path);
    assert IsOwner(agents[owners[id]], id, handles[id]);
  }

  /** Who holds the same context is in the same tree. */
  ghost predicate OneTree(agents: Workers) {
    forall n, m | n in agents && m in agents && agents[n].ctx.Some? && agents[n].ctx == agents[m].ctx ::
      RootId(agents[n].path) == RootId(agents[m].path)
  }

  lemma HomesApart(sh: Shared, ops: Ops, agents: Workers, homes: seq<Uuid>)
    requires AtHome(sh, ops, agents, homes)
    ensures OneTree(agents)
    ensures forall n, r | n in agents && r in sh.contexts
      && agents[n].ctx == Some(sh.contexts[r]) :: RootId(agents[n].path) == r
  {
    forall n, m | n in agents && m in agents && agents[n].ctx.Some? && agents[n].ctx == agents[m].ctx
      ensures RootId(agents[n].path) == RootId(agents[m].path)
    {
      assert IsHome(homes, agents[n].ctx.value, RootId(agents[n].path));
      assert IsHome(homes, agents[m].ctx.value, RootId(agents[m].path));
    }
    forall n, r | n in agents && r in sh.contexts && agents[n].ctx == Some(sh.contexts[r])
      ensures RootId(agents[n].path) == r {
      assert IsHome(homes, agents[n].ctx.value, RootId(agents[n].path)) && IsHome(homes, sh.contexts[r], r);
    }
  }

  lemma EndSingle(agents: Workers, owners: map<Uuid, nat>, sh: Shared, used: set<Ctx>, emptied: seq<Ctx>, n: nat)
    requires AllRegistered(agents, owners) && AllHold(agents, sh.contexts) && EndsAlone(agents)
    requires EmptiedOnce(agents, sh.contexts, used, emptied) && UsedAccounted(agents, used, emptied)
    requires n in agents && IsRegistered(agents[n]) && UsedKnown(agents, sh, used) && OneTree(agents)
    requires forall m | m in agents && m != n :: Current(agents[m].path) != Current(agents[n].path)
    requires forall m | m in agents && m != n :: RootId(agents[m].path) != RootId(agents[n].path)
    ensures var agents' := Turned(agents, n, Ending);
      AllRegistered(agents', owners - {Current(agents[n].path)}) && AllHold(agents', sh.contexts) && EndsAlone(agents')
      && EmptiedOnce(agents', sh.contexts, used, emptied + Listed(agents[n].ctx))
      && UsedAccounted(agents', used, emptied + Listed(agents[n].ctx))
  {
    var agents', c := Turned(agents, n, Ending), agents[n].ctx.value;
    SameHolders(agents, agents');
    EndRest(agents, owners, sh.contexts, n);
    EndEmptied(agents, agents', sh.contexts, used, emptied, n, c);
  }

  lemma EndRest(agents: Workers, owners: map<Uuid, nat>, contexts: map<Uuid, Ctx>, n: nat)
    requires AllRegistered(agents, owners) && AllHold(agents, contexts) && EndsAlone(agents) && n in agents
    requires forall m | m in agents && m != n :: Current(agents[m].path) != Current(agents[n].path)
    requires forall m | m in agents && m != n :: RootId(agents[m].path) != RootId(agents[n].path)
    ensures var agents' := Turned(agents, n, Ending);
      AllRegistered(agents', owners - {Current(agents[n].path)}) && AllHold(agents', contexts) && EndsAlone(agents')
  {
  }

  lemma EndEmptied(agents: Workers, agents': Workers, contexts: map<Uuid, Ctx>, used: set<Ctx>, emptied: seq<Ctx>,
      n: nat, c: Ctx)
    requires EmptiedOnce(agents, contexts, used, emptied) && OneTree(agents) && c in used
    requires n in agents && IsRegistered(agents[n]) && agents[n].ctx == Some(c) && agents' == Turned(agents, n, Ending)
    requires forall m | m in agents && m != n :: RootId(agents[m].path) != RootId(agents[n].path)
    ensures EmptiedOnce(agents', contexts, used, emptied + [c])
  {
    SameHolders(agents, agents');
    assert IsEnding(agents'[n]) && agents'[n].ctx == Some(c);
    forall m | m in agents && IsEnding(agents[m]) ensures agents[m].ctx != Some(c) {
      assert m != n;
    }
    assert !SomeEnds(agents, c) && SomeHolds(agents, c);
    forall d | d in emptied ensures SomeEnds(agents', d) || Retired(agents', contexts, d) {
      if !SomeEnds(agents, d) {
        assert Retired(agents, contexts, d);
        forall m | m in agents' ensures agents'[m].ctx != Some(d) {
          assert agents[m].ctx != Some(d);
        }
      }
    }
  }

  /** An agent that leaves another of its tree behind leaves it the context. */
  lemma LeaveSingle(agents: Workers, owners: map<Uuid, nat>, sh: Shared, used: set<Ctx>, emptied: seq<Ctx>, n: nat,
      id: Uuid)
    requires AllRegistered(agents, owners) && AllHold(agents, sh.contexts) && EndsAlone(agents)
    requires EmptiedOnce(agents, sh.contexts, used, emptied) && UsedAccounted(agents, used, emptied)
    requires n in agents && IsRegistered(agents[n])
    requires forall m | m in agents && m != n :: Current(agents[m].path) != Current(agents[n].path)
    requires id in owners && owners[id] in agents && Current(agents[owners[id]].path) == id != Current(agents[n].path)
    requires RootId(agents[owners[id]].path) == RootId(agents[n].path)
    ensures var agents' := agents - {n};
      AllRegistered(agents', owners - {Current(agents[n].path)}) && AllHold(agents', sh.contexts) && EndsAlone(agents')
      && EmptiedOnce(agents', sh.contexts, used, emptied) && UsedAccounted(agents', used, emptied)
  {
    var agents', m := agents - {n}, owners[id];
    assert m in agents' && agents'[m].ctx == agents[n].ctx;
    forall c: Ctx | SomeHolds(agents, c) ensures SomeHolds(agents', c) {
      var x :| x in agents && agents[x].ctx == Some(c);
      var y := if x == n then m else x;
      assert y in agents' && agents'[y].ctx == Some(c);
    }
    FewerEmptied(agents, sh.contexts, used, emptied, n);
  }

  lemma FewerEmptied(agents: Workers, contexts: map<Uuid, Ctx>, used: set<Ctx>, emptied: seq<Ctx>, n: nat)
    requires EmptiedOnce(agents, contexts, used, emptied) && n in agents && IsRegistered(agents[n])
    ensures EmptiedOnce(agents - {n}, contexts, used, emptied)
  {
    var agents' := agents - {n};
    forall d | d in emptied ensures SomeEnds(agents', d) || Retired(agents', contexts, d) {
      if SomeEnds(agents, d) {
        var x :| x in agents && IsEnding(agents[x]) && agents[x].ctx == Some(d);
        assert x in agents' && agents'[x] == agents[x];
      } else {
        assert !SomeHolds(agents', d) by {
          assert !SomeHolds(agents, d);
        }
      }
    }
  }

  lemma ShutDownSingle(s: World, n: nat)
    requires Single(s) && Enabled(s, ShutDownContext(n))
    ensures Single(Apply(s, ShutDownContext(n)))
  {
    var agents' := Turned(s.agents, n, Forgetting);
    SameHolders(s.agents, agents');
    SameHolders(agents', s.agents);
  }

  lemma ForgetSingle(s: World, n: nat)
    requires Single(s) && Sound(s) && Enabled(s, ForgetContext(n)) && EndersListed(s)
    ensures Single(Apply(s, ForgetContext(n)))
  {
    HomesApart(s.shared, s.ops, s.agents, s.homes);
    ForgetRest(s.agents, s.owners, s.shared.contexts, n);
    ForgetEmptied(s.agents, s.shared.contexts, s.used, s.emptied, n);
    ForgetAccounted(s.agents, s.used, s.emptied, s.shared.contexts, n);
  }

  lemma ForgetRest(agents: Workers, owners: map<Uuid, nat>, contexts: map<Uuid, Ctx>, n: nat)
    requires AllRegistered(agents, owners) && AllHold(agents, contexts) && EndsAlone(agents) && n in agents
      && IsEnding(agents[n])
    ensures AllRegistered(agents - {n}, owners) && EndsAlone(agents - {n})
    ensures AllHold(agents - {n}, contexts - {RootId(agents[n].path)})
  {
  }

  lemma ForgetEmptied(agents: Workers, contexts: map<Uuid, Ctx>, used: set<Ctx>, emptied: seq<Ctx>, n: nat)
    requires EmptiedOnce(agents, contexts, used, emptied) && EndsAlone(agents) && OneTree(agents)
    requires n in agents && IsEnding(agents[n]) && agents[n].ctx.Some?
    requires forall m, r | m in agents && r in contexts
      && agents[m].ctx == Some(contexts[r]) :: RootId(agents[m].path) == r
    ensures EmptiedOnce(agents - {n}, contexts - {RootId(agents[n].path)}, used, emptied)
  {
    var agents', contexts', c := agents - {n}, contexts - {RootId(agents[n].path)}, agents[n].ctx.value;
    forall d | d in emptied ensures SomeEnds(agents', d) || Retired(agents', contexts', d) {
      if d == c {
        forall m | m in agents' ensures agents'[m].ctx != Some(d) {
          assert agents[m].ctx == Some(d) ==> m == n;
        }
        assert Retired(agents', contexts', d);
      } else if SomeEnds(agents, d) {
        var x :| x in agents && IsEnding(agents[x]) && agents[x].ctx == Some(d);
        assert x in agents' && agents'[x] == agents[x];
      } else {
        assert Retired(agents, contexts, d);
        assert forall m | m in agents' :: agents'[m] == agents[m];
      }
    }
  }

  lemma ForgetAccounted(agents: Workers, used: set<Ctx>, emptied: seq<Ctx>, contexts: map<Uuid, Ctx>, n: nat)
    requires UsedAccounted(agents, used, emptied) && n in agents && agents[n].ctx.Some?
      && agents[n].ctx.value in emptied
    ensures UsedAccounted(agents - {n}, used, emptied)
  {
    var agents' := agents - {n};
    forall c | c in used ensures SomeHolds(agents', c) || c in emptied {
      if SomeHolds(agents, c) && c != agents[n].ctx.value {
        var x :| x in agents && agents[x].ctx == Some(c);
        assert x in agents' && agents'[x].ctx == Some(c);
      }
    }
  }

  lemma ApplySingle(s: World, a: Action)
    requires Sound(s) && Single(s) && !Overlapped(s) && !Doubled(s) && Enabled(s, a) && !Doubled(Apply(s, a))
      && EndersListed(s)
    ensures Single(Apply(s, a))
  {
    match a
    case Store(op) => StoreSingle(s, op);
    case Register(op) => RegisterSingle(s, op);
    case Exit(n) => ExitSingle(s, n);
    case RemoveAndTest(n) => RemoveSingle(s, n);
    case ShutDownContext(n) => ShutDownSingle(s, n);
    case ForgetContext(n) => ForgetSingle(s, n);
    case _ =>
  }

  /** Whoever is ending a tree has found it empty. */
  ghost predicate EndersListed(s: World) {
    forall n | n in s.agents && IsEnding(s.agents[n]) && s.agents[n].ctx.Some? :: s.agents[n].ctx.value in s.emptied
  }

  lemma {:induction false} BehaviorListed(trace: seq<World>, i: nat)
    requires Behavior(trace) && i < |trace|
    ensures EndersListed(trace[i])
  {
    if i == 0 {
    } else {
      BehaviorListed(trace, i - 1);
      assert Next(trace[i - 1], trace[i - 1 + 1]);
    }
  }

  ghost predicate SingleUpTo(trace: seq<World>, k: nat) {
    forall i | 0 <= i <= k && i < |trace| :: !Doubled(trace[i])
  }

  lemma {:induction false} BehaviorSingle(trace: seq<World>, i: nat)
    requires Behavior(trace) && i < |trace| && ApartUpTo(trace, i) && SingleUpTo(trace, i)
    ensures Single(trace[i])
  {
    if i == 0 {
    } else {
      BehaviorSingle(trace, i - 1);
      BehaviorSound(trace, i - 1);
      BehaviorListed(trace, i - 1);
      assert Next(trace[i - 1], trace[i - 1 + 1]);
      var a :| Enabled(trace[i - 1], a) && Allowed(trace[i - 1], a) && trace[i] == Apply(trace[i - 1], a);
      ApplySingle(trace[i - 1], a);
    }
  }

  lemma {:induction false} OnceOnly(listed: seq<Ctx>, c: Ctx)
    requires forall i, j | 0 <= i < j < |listed| :: listed[i] != listed[j]
    ensures multiset(listed)[c] == if c in listed then 1 else 0
  {
    if listed == [] {
    } else {
      OnceOnly(listed[1..], c);
      assert listed == [listed[0]] + listed[1..];
    }
  }

  /** While no opening overlapped an ending and no chat had two agents at work, a context that
      was given out and has no agent left was shut down exactly once and is out of the map. */
  lemma ShutExactlyOnce(trace: seq<World>, i: nat, c: Ctx)
    requires Behavior(trace) && i < |trace| && ApartUpTo(trace, i) && SingleUpTo(trace, i)
    requires c in trace[i].used && !SomeHolds(trace[i].agents, c)
    ensures multiset(trace[i].shared.shut)[c] == 1 && c !in trace[i].shared.contexts.Values
  {
    BehaviorSingle(trace, i);
    ShutAsOftenAsEmptied(trace, i, c);
    OnceOnly(trace[i].emptied, c);
    assert EndingWith(trace[i].agents, c) == {};
    assert !SomeEnds(trace[i].agents, c);
  }
}
