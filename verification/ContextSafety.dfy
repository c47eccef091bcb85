/** When a registered handle's context can be taken away: exactly when an opening or a
    spawning overlaps the ending of its tree. */
module ContextSafety {
  import opened Prelude
  import opened Chats
  import opened HandleRegistry
  import opened ContextLifecycle

  // --- The invariant

  /** Each registered handle has its owner, who has not removed it. */
  ghost predicate RegistryExact(agents: Workers, owners: map<Uuid, nat>, handles: Handles) {
    (forall id | id in handles :: id in owners && owners[id] in agents && IsOwner(agents[owners[id]], id, handles[id]))
    && (forall id | id in owners :: id in handles)
  }

  ghost predicate IsOwner(a: Worker, id: Uuid, handle: Handle) {
    IsRegistered(a) && a.path == handle && Current(handle) == id
  }

  ghost predicate Numbered(agents: Workers, born: nat) {
    forall n | n in agents :: n < born
  }

  /** A tree that is being ended has no registered handle. */
  ghost predicate EndsQuietly(agents: Workers, handles: Handles) {
    forall n, id | n in agents && IsEnding(agents[n]) && id in handles :: RootId(handles[id]) != RootId(agents[n].path)
  }

  /** The agent behind a handle holds its tree's context. */
  ghost predicate OwnersHold(agents: Workers, owners: map<Uuid, nat>, handles: Handles, contexts: map<Uuid, Ctx>) {
    forall id | id in handles && id in owners && owners[id] in agents ::
      agents[owners[id]].ctx.Some? && HeldFor(contexts, RootId(handles[id])) == agents[owners[id]].ctx
  }

  /** So does a task about to register an agent, if it found one. */
  ghost predicate OpsHold(ops: Ops, contexts: map<Uuid, Ctx>) {
    forall o | o in ops && Creates(ops[o].task).Some?
      && ops[o].stage.Holding? :: Holds(ops[o].task, ops[o].stage.ctx, contexts)
  }

  ghost predicate Holds(task: Task, ctx: Option<Ctx>, contexts: map<Uuid, Ctx>) {
    (ctx.Some? ==> HeldFor(contexts, TreeOf(task)) == ctx) && (task.OpenRoot? ==> ctx.Some?)
  }

  /** A child is being spawned only while its sponsor runs. */
  ghost predicate Sponsored(ops: Ops, agents: Workers) {
    forall o | o in ops && ops[o].task.SpawnChild? :: HasSponsor(ops[o], agents)
  }

  ghost predicate HasSponsor(op: Op, agents: Workers)
    requires op.task.SpawnChild?
  {
    !op.stage.Making? && !op.stage.Bringing? && Sponsors(agents, op.task.sponsor, TreeOf(op.task))
  }

  /** Every context belongs to the tree it was made for. */
  ghost predicate AtHome(sh: Shared, ops: Ops, agents: Workers, homes: seq<Uuid>) {
    |homes| == sh.nextCtx
    && (forall r | r in sh.contexts :: IsHome(homes, sh.contexts[r], r))
    && (forall n | n in agents && agents[n].ctx.Some? :: IsHome(homes, agents[n].ctx.value, RootId(agents[n].path)))
    && (forall o | o in ops && ops[o].stage.Bringing? :: IsHome(homes, ops[o].stage.made, TreeOf(ops[o].task)))
  }

  ghost predicate IsHome(homes: seq<Uuid>, c: Ctx, root: Uuid) {
    c < |homes| && homes[c] == root
  }

  /** A context still in the map is shut only while an agent is about to forget its tree. */
  ghost predicate ShutLate(agents: Workers, contexts: map<Uuid, Ctx>, shut: seq<Ctx>) {
    forall r | r in contexts && contexts[r] in shut :: SomeForgets(agents, r)
  }

  ghost predicate SomeForgets(agents: Workers, root: Uuid) {
    exists n :: n in agents && RootId(agents[n].path) == root && agents[n].phase == Forgetting
  }

  /** A context just made is nobody's yet. */
  ghost predicate BringsFresh(ops: Ops, sh: Shared, used: set<Ctx>) {
    (forall o | o in ops && ops[o].stage.Bringing? :: NobodysYet(sh, used, ops[o].stage.made))
    && (forall o, p | o in ops && p in ops && o != p && ops[o].stage.Bringing? && ops[p].stage.Bringing? ::
      ops[o].stage.made != ops[p].stage.made)
  }

  ghost predicate NobodysYet(sh: Shared, used: set<Ctx>, c: Ctx) {
    c < sh.nextCtx && (forall r | r in sh.contexts :: sh.contexts[r] != c) && c !in sh.shut && c !in used
  }

  ghost predicate UsedKnown(agents: Workers, sh: Shared, used: set<Ctx>) {
    (forall n | n in agents && agents[n].ctx.Some? :: agents[n].ctx.value in used)
    && (forall c | c in sh.shut :: c in used)
    && (forall c | c in used :: c < sh.nextCtx)
  }

  /** One id, one lineage. */
  ghost predicate IdsApart(ops: Ops, agents: Workers) {
    forall o | o in ops && Creates(ops[o].task).Some? :: OnlyAs(ops, agents, Creates(ops[o].task).value)
  }

  ghost predicate Sound(s: World) {
    var sh, agents, ops := s.shared, s.agents, s.ops;
    RegistryExact(agents, s.owners, sh.handles) && Numbered(agents, s.born) && EndsQuietly(agents, sh.handles)
    && OwnersHold(agents, s.owners, sh.handles, sh.contexts) && OpsHold(ops, sh.contexts) && Sponsored(ops, agents)
    && AtHome(sh, ops, agents, s.homes) && ShutLate(agents, sh.contexts, sh.shut) && BringsFresh(ops, sh, s.used)
    && UsedKnown(agents, sh, s.used) && IdsApart(ops, agents)
  }

  lemma StartSound()
    ensures Sound(START) && !Overlapped(START)
  {
  }

  // --- Steps of a task

  lemma BeginSound(s: World, op: nat, task: Task)
    requires Sound(s) && Enabled(s, Begin(op, task)) && Allowed(s, Begin(op, task))
    ensures Sound(Apply(s, Begin(op, task)))
  {
    BeginIds(s.ops, s.agents, op, task) by {
      assert Welcome(s, task);
    }
    BeginSponsored(s, op, task);
    BeginFresh(s.ops, op, task, s.shared, s.used, s.agents, s.homes);
  }

  lemma BeginIds(ops: Ops, agents: Workers, op: nat, task: Task)
    requires IdsApart(ops, agents) && op !in ops
    requires Creates(task).Some? ==> OnlyAs(ops, agents, Creates(task).value)
    ensures IdsApart(ops[op := Op(task, Begun)], agents)
  {
    var ops' := ops[op := Op(task, Begun)];
    forall o | o in ops' && Creates(ops'[o].task).Some? ensures OnlyAs(ops', agents, Creates(ops'[o].task).value) {
      if o != op {
        assert OnlyAs(ops, agents, Creates(ops[o].task).value);
      }
    }
  }

  lemma BeginSponsored(s: World, op: nat, task: Task)
    requires Sponsored(s.ops, s.agents) && OpsHold(s.ops, s.shared.contexts) && Welcome(s, task)
    ensures Sponsored(s.ops[op := Op(task, Begun)], s.agents)
    ensures OpsHold(s.ops[op := Op(task, Begun)], s.shared.contexts)
  {
  }

  lemma BeginFresh(ops: Ops, op: nat, task: Task, sh: Shared, used: set<Ctx>, agents: Workers, homes: seq<Uuid>)
    requires op !in ops && BringsFresh(ops, sh, used) && AtHome(sh, ops, agents, homes)
    ensures BringsFresh(ops[op := Op(task, Begun)], sh, used) && AtHome(sh, ops[op := Op(task, Begun)], agents, homes)
  {
  }

  /** A task goes on to a new stage, and its kind stays. */
  ghost predicate Restaged(ops: Ops, ops': Ops, op: nat, stage: Stage) {
    op in ops && ops' == Advanced(ops, op, stage)
  }

  lemma RestagedIds(ops: Ops, ops': Ops, op: nat, stage: Stage, agents: Workers)
    requires Restaged(ops, ops', op, stage) && IdsApart(ops, agents)
    ensures IdsApart(ops', agents)
  {
    forall o | o in ops' && Creates(ops'[o].task).Some? ensures OnlyAs(ops', agents, Creates(ops'[o].task).value) {
      assert OnlyAs(ops, agents, Creates(ops[o].task).value);
    }
  }

  lemma RestagedSponsored(ops: Ops, ops': Ops, op: nat, stage: Stage, agents: Workers)
    requires Restaged(ops, ops', op, stage) && Sponsored(ops, agents)
    requires ops[op].task.SpawnChild? ==> !stage.Making? && !stage.Bringing?
    ensures Sponsored(ops', agents)
  {
    forall o | o in ops' && ops'[o].task.SpawnChild? ensures HasSponsor(ops'[o], agents) {
      assert HasSponsor(ops[o], agents);
    }
  }

  lemma RestagedHold(ops: Ops, ops': Ops, op: nat, stage: Stage, contexts: map<Uuid, Ctx>)
    requires Restaged(ops, ops', op, stage) && OpsHold(ops, contexts)
    requires stage.Holding? && Creates(ops[op].task).Some? ==> Holds(ops[op].task, stage.ctx, contexts)
    ensures OpsHold(ops', contexts)
  {
  }

  lemma RestagedBrings(ops: Ops, ops': Ops, op: nat, stage: Stage, sh: Shared, used: set<Ctx>, agents: Workers,
      homes: seq<Uuid>)
    requires Restaged(ops, ops', op, stage) && !stage.Bringing? && BringsFresh(ops, sh, used)
      && AtHome(sh, ops, agents, homes)
    ensures BringsFresh(ops', sh, used) && AtHome(sh, ops', agents, homes)
  {
  }

  lemma LookUpSound(s: World, op: nat)
    requires Sound(s) && Enabled(s, LookUp(op))
    ensures Sound(Apply(s, LookUp(op)))
  {
    var ops' := Apply(s, LookUp(op)).ops;
    var stage := ops'[op].stage;
    RestagedIds(s.ops, ops', op, stage, s.agents);
    RestagedSponsored(s.ops, ops', op, stage, s.agents);
    RestagedHold(s.ops, ops', op, stage, s.shared.contexts);
    RestagedBrings(s.ops, ops', op, stage, s.shared, s.used, s.agents, s.homes);
  }

  lemma MakeFresh(ops: Ops, ops': Ops, op: nat, sh: Shared, used: set<Ctx>, agents: Workers, homes: seq<Uuid>)
    requires Restaged(ops, ops', op, Bringing(sh.nextCtx)) && BringsFresh(ops, sh, used)
    requires AtHome(sh, ops, agents, homes) && UsedKnown(agents, sh, used)
    ensures BringsFresh(ops', Made(sh), used) && UsedKnown(agents, Made(sh), used)
    ensures AtHome(Made(sh), ops', agents, homes + [TreeOf(ops[op].task)])
  {
    assert forall r | r in sh.contexts :: IsHome(homes, sh.contexts[r], r);
    forall o | o in ops' && ops'[o].stage.Bringing? ensures NobodysYet(Made(sh), used, ops'[o].stage.made) {
      assert o != op ==> NobodysYet(sh, used, ops[o].stage.made);
    }
    MakeHomes(ops, ops', op, sh, agents, homes);
  }

  lemma MakeHomes(ops: Ops, ops': Ops, op: nat, sh: Shared, agents: Workers, homes: seq<Uuid>)
    requires Restaged(ops, ops', op, Bringing(sh.nextCtx)) && AtHome(sh, ops, agents, homes)
    ensures AtHome(Made(sh), ops', agents, homes + [TreeOf(ops[op].task)])
  {
    var homes' := homes + [TreeOf(ops[op].task)];
    forall c: Ctx, r: Uuid | IsHome(homes, c, r) ensures IsHome(homes', c, r) {
    }
    assert IsHome(homes', sh.nextCtx, TreeOf(ops[op].task));
  }

  lemma MakeSound(s: World, op: nat)
    requires Sound(s) && Enabled(s, Make(op))
    ensures Sound(Apply(s, Make(op)))
  {
    var stage := Bringing(s.shared.nextCtx);
    var ops' := Apply(s, Make(op)).ops;
    assert s.ops[op].task.SpawnChild? ==> HasSponsor(s.ops[op], s.agents);
    RestagedIds(s.ops, ops', op, stage, s.agents);
    RestagedSponsored(s.ops, ops', op, stage, s.agents);
    RestagedHold(s.ops, ops', op, stage, s.shared.contexts);
    MakeFresh(s.ops, ops', op, s.shared, s.used, s.agents, s.homes);
  }

  lemma StoreHolders(s: World, root: Uuid, c: Ctx)
    requires OwnersHold(s.agents, s.owners, s.shared.handles, s.shared.contexts) && OpsHold(s.ops, s.shared.contexts)
    requires root !in s.shared.contexts
    ensures OwnersHold(s.agents, s.owners, s.shared.handles, s.shared.contexts[root := c])
      && OpsHold(s.ops, s.shared.contexts[root := c])
  {
  }

  lemma StoreFresh(ops: Ops, op: nat, sh: Shared, root: Uuid, c: Ctx, used: set<Ctx>, stage: Stage)
    requires op in ops && ops[op].stage == Bringing(c) && !stage.Bringing? && root !in sh.contexts
      && BringsFresh(ops, sh, used)
    ensures BringsFresh(Advanced(ops, op, stage), Stored(sh, root, c), used)
  {
    var ops' := Advanced(ops, op, stage);
    forall o | o in ops' && ops'[o].stage.Bringing? ensures NobodysYet(Stored(sh, root, c), used, ops'[o].stage.made) {
      assert o != op && NobodysYet(sh, used, ops[o].stage.made);
    }
  }

  lemma StoreHomes(ops: Ops, ops': Ops, op: nat, sh: Shared, stage: Stage, agents: Workers, homes: seq<Uuid>)
    requires Restaged(ops, ops', op, stage) && ops[op].stage.Bringing? && !stage.Bringing?
      && AtHome(sh, ops, agents, homes)
    ensures AtHome(Stored(sh, TreeOf(ops[op].task), ops[op].stage.made), ops', agents, homes)
  {
    assert IsHome(homes, ops[op].stage.made, TreeOf(ops[op].task));
  }

  lemma StoreSound(s: World, op: nat)
    requires Sound(s) && Enabled(s, Store(op))
    ensures Sound(Apply(s, Store(op)))
  {
    var sh, root, c := s.shared, TreeOf(s.ops[op].task), s.ops[op].stage.made;
    var stored := Stored(sh, root, c);
    var stage := Holding(ContextFor(stored, root));
    var ops' := Advanced(s.ops, op, stage);
    assert NobodysYet(sh, s.used, c);
    assert s.ops[op].task.SpawnChild? ==> HasSponsor(s.ops[op], s.agents);
    RestagedIds(s.ops, ops', op, stage, s.agents);
    RestagedSponsored(s.ops, ops', op, stage, s.agents);
    StoreHomes(s.ops, ops', op, sh, stage, s.agents, s.homes);
    if root in sh.contexts {
      RestagedBrings(s.ops, ops', op, stage, sh, s.used, s.agents, s.homes);
    } else {
      StoreHolders(s, root, c);
      StoreFresh(s.ops, op, sh, root, c, s.used, stage);
      assert ShutLate(s.agents, stored.contexts, sh.shut);
    }
    RestagedHold(s.ops, ops', op, stage, stored.contexts);
  }

  lemma FewerOps(ops: Ops, op: nat, agents: Workers, sh: Shared, used: set<Ctx>, homes: seq<Uuid>)
    requires OpsHold(ops, sh.contexts) && Sponsored(ops, agents) && AtHome(sh, ops, agents, homes)
    requires BringsFresh(ops, sh, used) && IdsApart(ops, agents)
    ensures var ops' := ops - {op};
      OpsHold(ops', sh.contexts) && Sponsored(ops', agents) && AtHome(sh, ops', agents, homes)
      && BringsFresh(ops', sh, used) && IdsApart(ops', agents)
  {
    var ops' := ops - {op};
    forall o | o in ops' && Creates(ops'[o].task).Some? ensures OnlyAs(ops', agents, Creates(ops'[o].task).value) {
      assert OnlyAs(ops, agents, Creates(ops[o].task).value);
    }
    forall o | o in ops' && ops'[o].task.SpawnChild? ensures HasSponsor(ops'[o], agents) {
      assert HasSponsor(ops[o], agents);
    }
  }

  lemma GiveUpSound(s: World, op: nat)
    requires Sound(s) && Enabled(s, GiveUp(op))
    ensures Sound(Apply(s, GiveUp(op)))
  {
    FewerOps(s.ops, op, s.agents, s.shared, s.used, s.homes);
  }

  // --- Registering

  /** Without overlap, a task about to add to a tree holds its context, and nobody is ending it. */
  lemma TreeNotEnding(s: World, op: nat)
    requires OpsHold(s.ops, s.shared.contexts) && !Overlapped(s) && Enabled(s, Register(op))
    ensures forall n | n in s.agents && IsEnding(s.agents[n]) :: RootId(s.agents[n].path) != TreeOf(s.ops[op].task)
    ensures s.ops[op].stage.ctx.Some? && HeldFor(s.shared.contexts, TreeOf(s.ops[op].task)) == s.ops[op].stage.ctx
  {
    assert !Stranded(s.ops[op]);
    forall n | n in s.agents && IsEnding(s.agents[n]) ensures RootId(s.agents[n].path) != TreeOf(s.ops[op].task) {
      assert !Overlap(s.ops[op], s.agents[n]);
    }
  }

  lemma JoinRegistry(agents: Workers, owners: map<Uuid, nat>, handles: Handles, born: nat, a: Worker)
    requires RegistryExact(agents, owners, handles) && Numbered(agents, born) && EndsQuietly(agents, handles)
    requires a.phase == Running
    requires forall n | n in agents && IsEnding(agents[n]) :: RootId(agents[n].path) != RootId(a.path)
    ensures var id := Current(a.path);
      RegistryExact(agents[born := a], owners[id := born], handles[id := a.path])
        && Numbered(agents[born := a], born + 1)
      && EndsQuietly(agents[born := a], handles[id := a.path])
  {
    var id := Current(a.path);
    var agents', owners', handles' := agents[born := a], owners[id := born], handles[id := a.path];
    forall x | x in handles' ensures x in owners' && owners'[x] in agents'
      && IsOwner(agents'[owners'[x]], x, handles'[x]) {
      if x != id {
        assert IsOwner(agents[owners[x]], x, handles[x]) && owners[x] != born;
      }
    }
  }

  lemma JoinHolders(agents: Workers, owners: map<Uuid, nat>, handles: Handles, contexts: map<Uuid, Ctx>, born: nat,
      a: Worker)
    requires OwnersHold(agents, owners, handles, contexts) && Numbered(agents, born)
      && RegistryExact(agents, owners, handles)
    requires a.ctx.Some? && HeldFor(contexts, RootId(a.path)) == a.ctx
    ensures OwnersHold(agents[born := a], owners[Current(a.path) := born], handles[Current(a.path) := a.path], contexts)
  {
  }

  /** Sponsors run on. */
  lemma SponsorsStay(ops: Ops, agents: Workers, agents': Workers)
    requires Sponsored(ops, agents)
    requires forall o | o in ops && ops[o].task.SpawnChild? && ops[o].task.sponsor in agents
      && agents[ops[o].task.sponsor].phase == Running ::
      ops[o].task.sponsor in agents' && agents'[ops[o].task.sponsor] == agents[ops[o].task.sponsor]
    ensures Sponsored(ops, agents')
  {
    forall o | o in ops && ops[o].task.SpawnChild? ensures HasSponsor(ops[o], agents') {
      assert HasSponsor(ops[o], agents);
    }
  }

  lemma JoinIds(ops: Ops, op: nat, agents: Workers, born: nat, a: Worker)
    requires IdsApart(ops, agents) && op in ops && Creates(ops[op].task) == Some(a.path) && Numbered(agents, born)
    ensures IdsApart(ops, agents[born := a])
  {
    forall o | o in ops && Creates(ops[o].task).Some?
      ensures OnlyAs(ops, agents[born := a], Creates(ops[o].task).value) {
      assert OnlyAs(ops, agents, Creates(ops[o].task).value);
    }
  }

  lemma JoinContexts(agents: Workers, sh: Shared, ops: Ops, used: set<Ctx>, homes: seq<Uuid>, born: nat, a: Worker,
      c: Ctx)
    requires AtHome(sh, ops, agents, homes) && ShutLate(agents, sh.contexts, sh.shut) && UsedKnown(agents, sh, used)
    requires BringsFresh(ops, sh, used) && Numbered(agents, born)
    requires a.ctx == Some(c) && HeldFor(sh.contexts, RootId(a.path)) == Some(c)
    ensures var agents', used' := agents[born := a], used + {c};
      AtHome(sh, ops, agents', homes) && ShutLate(agents', sh.contexts, sh.shut) && UsedKnown(agents', sh, used')
      && BringsFresh(ops, sh, used')
  {
    assert IsHome(homes, c, RootId(a.path));
    ForgettersStay(agents, agents[born := a]);
    forall o | o in ops && ops[o].stage.Bringing? ensures NobodysYet(sh, used + {c}, ops[o].stage.made) {
      assert NobodysYet(sh, used, ops[o].stage.made);
    }
  }

  lemma ForgettersStay(agents: Workers, agents': Workers)
    requires forall x | x in agents && agents[x].phase == Forgetting :: x in agents' && agents'[x] == agents[x]
    ensures forall r :: SomeForgets(agents, r) ==> SomeForgets(agents', r)
  {
    forall r: Uuid | SomeForgets(agents, r) ensures SomeForgets(agents', r) {
      var x :| x in agents && RootId(agents[x].path) == r && agents[x].phase == Forgetting;
      assert x in agents' && RootId(agents'[x].path) == r && agents'[x].phase == Forgetting;
    }
  }

  lemma OtherHandles(sh: Shared, handles: Handles, ops: Ops, agents: Workers, used: set<Ctx>, homes: seq<Uuid>)
    requires AtHome(sh, ops, agents, homes) && BringsFresh(ops, sh, used) && UsedKnown(agents, sh, used)
    ensures AtHome(sh.(handles := handles), ops, agents, homes) && BringsFresh(ops, sh.(handles := handles), used)
    ensures UsedKnown(agents, sh.(handles := handles), used)
  {
    forall o | o in ops && ops[o].stage.Bringing? ensures NobodysYet(sh.(handles := handles), used, ops[o].stage.made) {
      assert NobodysYet(sh, used, ops[o].stage.made);
    }
  }

  lemma RegisterSound(s: World, op: nat)
    requires Sound(s) && Enabled(s, Register(op)) && !Overlapped(s)
    ensures Sound(Apply(s, Register(op)))
  {
    var sh, path, ctx := s.shared, Creates(s.ops[op].task).value, s.ops[op].stage.ctx;
    var a := Worker(path, ctx, Running);
    assert RootId(path) == TreeOf(s.ops[op].task);
    TreeNotEnding(s, op);
    JoinRegistry(s.agents, s.owners, sh.handles, s.born, a);
    JoinHolders(s.agents, s.owners, sh.handles, sh.contexts, s.born, a);
    SponsorsStay(s.ops, s.agents, s.agents[s.born := a]);
    JoinIds(s.ops, op, s.agents, s.born, a);
    JoinContexts(s.agents, sh, s.ops, s.used, s.homes, s.born, a, ctx.value);
    OtherHandles(sh, sh.handles[Current(path) := path], s.ops, s.agents[s.born := a], s.used + {ctx.value}, s.homes);
    FewerOps(s.ops, op, s.agents[s.born := a], Registered(sh, path), s.used + {ctx.value}, s.homes);
  }

  // --- Steps of an agent

  ghost predicate Rephased(agents: Workers, agents': Workers, n: nat, phase: Phase) {
    n in agents && agents' == Turned(agents, n, phase)
  }

  lemma RephasedKeeps(agents: Workers, agents': Workers, n: nat, phase: Phase, s: World)
    requires Rephased(agents, agents', n, phase) && s.agents == agents && Numbered(agents, s.born)
    requires OwnersHold(agents, s.owners, s.shared.handles, s.shared.contexts)
      && AtHome(s.shared, s.ops, agents, s.homes)
    requires UsedKnown(agents, s.shared, s.used) && IdsApart(s.ops, agents)
    ensures Numbered(agents', s.born) && OwnersHold(agents', s.owners, s.shared.handles, s.shared.contexts)
    ensures AtHome(s.shared, s.ops, agents', s.homes) && UsedKnown(agents', s.shared, s.used)
      && IdsApart(s.ops, agents')
  {
    forall o | o in s.ops && Creates(s.ops[o].task).Some? ensures OnlyAs(s.ops, agents', Creates(s.ops[o].task).value) {
      assert OnlyAs(s.ops, agents, Creates(s.ops[o].task).value);
    }
  }

  lemma ExitRegistry(agents: Workers, agents': Workers, n: nat, owners: map<Uuid, nat>, handles: Handles)
    requires Rephased(agents, agents', n, Exited) && agents[n].phase == Running
    requires RegistryExact(agents, owners, handles) && EndsQuietly(agents, handles)
    ensures RegistryExact(agents', owners, handles) && EndsQuietly(agents', handles)
  {
    forall id | id in handles
      ensures id in owners && owners[id] in agents' && IsOwner(agents'[owners[id]], id, handles[id]) {
      assert IsOwner(agents[owners[id]], id, handles[id]);
    }
  }

  lemma ExitSound(s: World, n: nat)
    requires Sound(s) && Enabled(s, Exit(n)) && Allowed(s, Exit(n))
    ensures Sound(Apply(s, Exit(n)))
  {
    var agents' := Turned(s.agents, n, Exited);
    SponsorsStay(s.ops, s.agents, agents');
    RephasedKeeps(s.agents, agents', n, Exited, s);
    ExitRegistry(s.agents, agents', n, s.owners, s.shared.handles);
    ForgettersStay(s.agents, agents');
  }

  lemma RemoveRegistry(agents: Workers, agents': Workers, owners: map<Uuid, nat>, handles: Handles,
      contexts: map<Uuid, Ctx>, n: nat)
    requires RegistryExact(agents, owners, handles) && OwnersHold(agents, owners, handles, contexts)
    requires n in agents && forall m | m in agents && m != n :: m in agents' && agents'[m] == agents[m]
    ensures var id := Current(agents[n].path);
      RegistryExact(agents', owners - {id}, handles - {id})
        && OwnersHold(agents', owners - {id}, handles - {id}, contexts)
  {
    var id := Current(agents[n].path);
    forall x | x in handles - {id}
      ensures x in owners - {id} && owners[x] in agents' && owners[x] != n && IsOwner(agents'[owners[x]], x, handles[x])
    {
      assert IsOwner(agents[owners[x]], x, handles[x]);
    }
  }

  /** An empty subtree means no registered handle of the tree is left. */
  lemma EmptyTree(handles: Handles, root: Uuid)
    ensures Subtree(handles, root) == {} <==> forall id | id in handles :: RootId(handles[id]) != root
  {
    forall id | id in handles && RootId(handles[id]) == root ensures Subtree(handles, root) != {} {
      assert handles[id] in Subtree(handles, root);
    }
    if Subtree(handles, root) != {} {
      var h :| h in Subtree(handles, root);
      var id :| id in handles && handles[id] == h && RootId(h) == root;
    }
  }

  lemma RemoveSound(s: World, n: nat)
    requires Sound(s) && Enabled(s, RemoveAndTest(n))
    ensures Sound(Apply(s, RemoveAndTest(n)))
  {
    var sh, id, root := s.shared, Current(s.agents[n].path), RootId(s.agents[n].path);
    EmptyTree(sh.handles - {id}, root);
    if TreeEmpty(Removed(sh, s.agents[n].path), root) {
      EndSound(s, n);
    } else {
      LeaveSound(s, n);
    }
  }

  lemma EndSound(s: World, n: nat)
    requires Enabled(s, RemoveAndTest(n)) && Sound(s)
    requires var handles := s.shared.handles - {Current(s.agents[n].path)};
      forall x | x in handles :: RootId(handles[x]) != RootId(s.agents[n].path)
    requires TreeEmpty(Removed(s.shared, s.agents[n].path), RootId(s.agents[n].path))
    ensures Sound(Apply(s, RemoveAndTest(n)))
  {
    var sh, id := s.shared, Current(s.agents[n].path);
    var agents' := Turned(s.agents, n, Ending);
    RephasedKeeps(s.agents, agents', n, Ending, s);
    ForgettersStay(s.agents, agents');
    SponsorsStay(s.ops, s.agents, agents');
    RemoveRegistry(s.agents, agents', s.owners, sh.handles, sh.contexts, n);
    EndQuietly(s.agents, agents', n, sh.handles);
    OtherHandles(sh, sh.handles - {id}, s.ops, agents', s.used, s.homes);
  }

  lemma EndQuietly(agents: Workers, agents': Workers, n: nat, handles: Handles)
    requires Rephased(agents, agents', n, Ending) && EndsQuietly(agents, handles)
    requires var left := handles - {Current(agents[n].path)}; forall x | x in left ::
      RootId(left[x]) != RootId(agents[n].path)
    ensures EndsQuietly(agents', handles - {Current(agents[n].path)})
  {
  }

  lemma LeaveSound(s: World, n: nat)
    requires Enabled(s, RemoveAndTest(n)) && Sound(s)
    requires !TreeEmpty(Removed(s.shared, s.agents[n].path), RootId(s.agents[n].path))
    ensures Sound(Apply(s, RemoveAndTest(n)))
  {
    var sh, id := s.shared, Current(s.agents[n].path);
    FewerAgents(s, n);
    ForgettersStay(s.agents, s.agents - {n});
    SponsorsStay(s.ops, s.agents, s.agents - {n});
    RemoveRegistry(s.agents, s.agents - {n}, s.owners, sh.handles, sh.contexts, n);
    OtherHandles(sh, sh.handles - {id}, s.ops, s.agents - {n}, s.used, s.homes);
    LeaveQuietly(s.agents, sh.handles, n, id);
  }

  lemma LeaveQuietly(agents: Workers, handles: Handles, n: nat, id: Uuid)
    requires EndsQuietly(agents, handles)
    ensures EndsQuietly(agents - {n}, handles - {id})
  {
  }

  lemma FewerAgents(s: World, n: nat)
    requires Numbered(s.agents, s.born) && AtHome(s.shared, s.ops, s.agents, s.homes)
      && UsedKnown(s.agents, s.shared, s.used)
    requires IdsApart(s.ops, s.agents)
    ensures var agents' := s.agents - {n};
      Numbered(agents', s.born) && AtHome(s.shared, s.ops, agents', s.homes) && UsedKnown(agents', s.shared, s.used)
      && IdsApart(s.ops, agents')
  {
    forall o | o in s.ops && Creates(s.ops[o].task).Some?
      ensures OnlyAs(s.ops, s.agents - {n}, Creates(s.ops[o].task).value) {
      assert OnlyAs(s.ops, s.agents, Creates(s.ops[o].task).value);
    }
  }

  /** The agent that is ending a tree is the owner of no handle. */
  lemma EnderOwnsNone(agents: Workers, owners: map<Uuid, nat>, handles: Handles, n: nat, agents': Workers)
    requires RegistryExact(agents, owners, handles) && n in agents && IsEnding(agents[n])
    requires forall m | m in agents && m != n :: m in agents' && agents'[m] == agents[m]
    ensures RegistryExact(agents', owners, handles)
  {
    forall id | id in handles
      ensures owners[id] != n && owners[id] in agents' && IsOwner(agents'[owners[id]], id, handles[id]) {
      assert IsOwner(agents[owners[id]], id, handles[id]);
    }
  }

  lemma ShutDownLate(agents: Workers, agents': Workers, n: nat, sh: Shared, ops: Ops, homes: seq<Uuid>)
    requires Rephased(agents, agents', n, Forgetting) && agents[n].phase == Ending
    requires ShutLate(agents, sh.contexts, sh.shut) && AtHome(sh, ops, agents, homes)
    ensures ShutLate(agents', sh.contexts, ShutDown(sh, agents[n].ctx).shut)
  {
    ForgettersStay(agents, agents');
    var shut' := ShutDown(sh, agents[n].ctx).shut;
    forall r | r in sh.contexts && sh.contexts[r] in shut' ensures SomeForgets(agents', r) {
      if sh.contexts[r] in sh.shut {
        assert SomeForgets(agents, r);
      } else {
        assert IsHome(homes, agents[n].ctx.value, r) && IsHome(homes, agents[n].ctx.value, RootId(agents[n].path));
        assert agents'[n].phase == Forgetting && RootId(agents'[n].path) == r;
      }
    }
  }

  lemma ShutDownUsed(agents: Workers, sh: Shared, ops: Ops, used: set<Ctx>, homes: seq<Uuid>, ctx: Option<Ctx>)
    requires AtHome(sh, ops, agents, homes) && BringsFresh(ops, sh, used) && UsedKnown(agents, sh, used)
    requires ctx.Some? ==> ctx.value in used
    ensures var sh' := ShutDown(sh, ctx);
      AtHome(sh', ops, agents, homes) && BringsFresh(ops, sh', used) && UsedKnown(agents, sh', used)
  {
    var sh' := ShutDown(sh, ctx);
    forall o | o in ops && ops[o].stage.Bringing? ensures NobodysYet(sh', used, ops[o].stage.made) {
      assert NobodysYet(sh, used, ops[o].stage.made);
    }
  }

  lemma ShutDownSound(s: World, n: nat)
    requires Sound(s) && Enabled(s, ShutDownContext(n))
    ensures Sound(Apply(s, ShutDownContext(n)))
  {
    var agents' := Turned(s.agents, n, Forgetting);
    RephasedKeeps(s.agents, agents', n, Forgetting, s);
    SponsorsStay(s.ops, s.agents, agents');
    EnderOwnsNone(s.agents, s.owners, s.shared.handles, n, agents');
    ShutDownLate(s.agents, agents', n, s.shared, s.ops, s.homes);
    ShutDownUsed(agents', s.shared, s.ops, s.used, s.homes, s.agents[n].ctx);
    ShutDownQuietly(s.agents, agents', n, s.shared.handles);
  }

  lemma ShutDownQuietly(agents: Workers, agents': Workers, n: nat, handles: Handles)
    requires Rephased(agents, agents', n, Forgetting) && agents[n].phase == Ending && EndsQuietly(agents, handles)
    ensures EndsQuietly(agents', handles)
  {
  }

  lemma ForgetHolders(s: World, n: nat)
    requires Enabled(s, ForgetContext(n)) && EndsQuietly(s.agents, s.shared.handles)
    requires OwnersHold(s.agents, s.owners, s.shared.handles, s.shared.contexts) && OpsHold(s.ops, s.shared.contexts)
      && !Overlapped(s)
    ensures var contexts' := s.shared.contexts - {RootId(s.agents[n].path)};
      OwnersHold(s.agents - {n}, s.owners, s.shared.handles, contexts') && OpsHold(s.ops, contexts')
  {
    var root := RootId(s.agents[n].path);
    forall o | o in s.ops && Creates(s.ops[o].task).Some? && s.ops[o].stage.Holding?
      ensures TreeOf(s.ops[o].task) != root {
      assert !Overlap(s.ops[o], s.agents[n]);
    }
  }

  lemma ForgetContexts(s: World, n: nat)
    requires Enabled(s, ForgetContext(n)) && ShutLate(s.agents, s.shared.contexts, s.shared.shut)
    requires AtHome(s.shared, s.ops, s.agents - {n}, s.homes) && BringsFresh(s.ops, s.shared, s.used)
    requires UsedKnown(s.agents - {n}, s.shared, s.used)
    ensures var sh', agents' := Forgotten(s.shared, RootId(s.agents[n].path)), s.agents - {n};
      ShutLate(agents', sh'.contexts, sh'.shut) && AtHome(sh', s.ops, agents', s.homes)
        && BringsFresh(s.ops, sh', s.used)
      && UsedKnown(agents', sh', s.used)
  {
    var sh', agents' := Forgotten(s.shared, RootId(s.agents[n].path)), s.agents - {n};
    forall r | r in sh'.contexts && sh'.contexts[r] in sh'.shut ensures SomeForgets(agents', r) {
      assert SomeForgets(s.agents, r);
      var x :| x in s.agents && RootId(s.agents[x].path) == r && s.agents[x].phase == Forgetting;
      assert x in agents' && agents'[x] == s.agents[x];
    }
    forall o | o in s.ops && s.ops[o].stage.Bringing? ensures NobodysYet(sh', s.used, s.ops[o].stage.made) {
      assert NobodysYet(s.shared, s.used, s.ops[o].stage.made);
    }
  }

  lemma ForgetSound(s: World, n: nat)
    requires Sound(s) && Enabled(s, ForgetContext(n)) && !Overlapped(s)
    ensures Sound(Apply(s, ForgetContext(n)))
  {
    FewerAgents(s, n);
    SponsorsStay(s.ops, s.agents, s.agents - {n});
    EnderOwnsNone(s.agents, s.owners, s.shared.handles, n, s.agents - {n});
    ForgetHolders(s, n);
    ForgetContexts(s, n);
    assert EndsQuietly(s.agents - {n}, s.shared.handles);
  }

  // --- Every interleaving

  lemma ApplySound(s: World, a: Action)
    requires Sound(s) && !Overlapped(s) && Enabled(s, a) && Allowed(s, a)
    ensures Sound(Apply(s, a))
  {
    match a
    case Begin(op, task) => BeginSound(s, op, task);
    case LookUp(op) => LookUpSound(s, op);
    case Make(op) => MakeSound(s, op);
    case Store(op) => StoreSound(s, op);
    case Register(op) => RegisterSound(s, op);
    case GiveUp(op) => GiveUpSound(s, op);
    case Exit(n) => ExitSound(s, n);
    case RemoveAndTest(n) => RemoveSound(s, n);
    case ShutDownContext(n) => ShutDownSound(s, n);
    case ForgetContext(n) => ForgetSound(s, n);
  }

  ghost predicate ApartUpTo(trace: seq<World>, k: nat) {
    forall i | 0 <= i < k && i < |trace| :: !Overlapped(trace[i])
  }

  /** The invariant holds up to and at the first overlap. */
  lemma {:induction false} BehaviorSound(trace: seq<World>, i: nat)
    requires Behavior(trace) && i < |trace| && ApartUpTo(trace, i)
    ensures Sound(trace[i])
  {
    if i == 0 {
      StartSound();
    } else {
      BehaviorSound(trace, i - 1);
      assert Next(trace[i - 1], trace[i - 1 + 1]);
      var a :| Enabled(trace[i - 1], a) && Allowed(trace[i - 1], a) && trace[i] == Apply(trace[i - 1], a);
      ApplySound(trace[i - 1], a);
    }
  }

  lemma SoundServes(s: World)
    requires Sound(s)
    ensures AllServed(s)
  {
    forall id | id in s.shared.handles ensures Served(s, id) {
      OwnerServed(s.agents, s.owners, s.shared, id);
    }
  }

  lemma OwnerServed(agents: Workers, owners: map<Uuid, nat>, sh: Shared, id: Uuid)
    requires RegistryExact(agents, owners, sh.handles) && EndsQuietly(agents, sh.handles)
    requires OwnersHold(agents, owners, sh.handles, sh.contexts) && ShutLate(agents, sh.contexts, sh.shut)
      && id in sh.handles
    ensures id in owners && owners[id] in agents
    ensures var ctx := agents[owners[id]].ctx;
      ctx.Some? && ctx.value !in sh.shut && HeldFor(sh.contexts, RootId(sh.handles[id])) == ctx
  {
    assert !SomeForgets(agents, RootId(sh.handles[id]));
  }

  // --- Finishing what has begun

  predicate Finishes(a: Action) {
    a.Register? || a.ShutDownContext? || a.ForgetContext?
  }

  predicate AllFinish(actions: seq<Action>) {
    forall i | 0 <= i < |actions| :: Finishes(actions[i])
  }

  /** However far tasks and agents go on with what they are in the middle of, every registered
      handle is served. */
  ghost predicate FinishesSafely(s: World) {
    forall actions | AllFinish(actions) :: Taken(s, actions).Some? ==> AllServed(Taken(s, actions).value)
  }

  lemma FinishStaysApart(s: World, a: Action)
    requires !Overlapped(s) && Enabled(s, a) && Finishes(a)
    ensures !Overlapped(Apply(s, a))
  {
    var s' := Apply(s, a);
    forall o, n | o in s'.ops && n in s'.agents ensures !Overlap(s'.ops[o], s'.agents[n]) {
      if n in s.agents {
        assert !Overlap(s.ops[o], s.agents[n]);
      }
    }
    forall o | o in s'.ops ensures !Stranded(s'.ops[o]) {
      assert !Stranded(s.ops[o]);
    }
  }

  lemma {:induction false} FinishServes(s: World, actions: seq<Action>)
    requires Sound(s) && !Overlapped(s) && AllFinish(actions)
    ensures Taken(s, actions).Some? ==> AllServed(Taken(s, actions).value)
    decreases |actions|
  {
    if actions == [] {
      SoundServes(s);
    } else if Enabled(s, actions[0]) && Allowed(s, actions[0]) {
      ApplySound(s, actions[0]);
      FinishStaysApart(s, actions[0]);
      FinishServes(Apply(s, actions[0]), actions[1..]);
    }
  }

  /** A handle registered in an overlap has its context taken from it, or never gets one. */
  lemma OverlapBreaks(s: World)
    requires Sound(s) && Overlapped(s)
    ensures !FinishesSafely(s)
  {
    if o :| o in s.ops && Stranded(s.ops[o]) {
      StrandedBreaks(s, o);
    } else {
      var o, n :| o in s.ops && n in s.agents && Overlap(s.ops[o], s.agents[n]);
      assert !Stranded(s.ops[o]);
      EndingBreaks(s, o, n);
    }
  }

  lemma StrandedBreaks(s: World, o: nat)
    requires o in s.ops && Stranded(s.ops[o])
    ensures !FinishesSafely(s)
  {
    var none: seq<Action> := [];
    TakenFirst(s, Register(o), none);
    assert [Register(o)] + none == [Register(o)];
    assert !Served(Apply(s, Register(o)), Current(s.ops[o].task.path));
    assert AllFinish([Register(o)]);
  }

  lemma EndingBreaks(s: World, o: nat, n: nat)
    requires Sound(s) && o in s.ops && n in s.agents && Overlap(s.ops[o], s.agents[n]) && !Stranded(s.ops[o])
    ensures !FinishesSafely(s)
  {
    OpsHoldAt(s.ops, o, s.shared.contexts);
    assert n != s.born;
    var s1 := Apply(s, Register(o));
    var rest := if s.agents[n].phase == Ending then [ShutDownContext(n), ForgetContext(n)] else [ForgetContext(n)];
    TakenFirst(s, Register(o), rest);
    EndingForgets(s1, n, Current(Creates(s.ops[o].task).value), rest);
    assert AllFinish([Register(o)] + rest);
  }

  lemma OpsHoldAt(ops: Ops, o: nat, contexts: map<Uuid, Ctx>)
    requires OpsHold(ops, contexts) && o in ops && Creates(ops[o].task).Some? && ops[o].stage.Holding?
      && !Stranded(ops[o])
    ensures ops[o].stage.ctx.Some? && HeldFor(contexts, TreeOf(ops[o].task)) == ops[o].stage.ctx
  {
  }

  /** A handle whose agent holds a context of the tree that this agent is ending. */
  ghost predicate LeftBehind(s: World, n: nat, id: Uuid) {
    n in s.agents && IsEnding(s.agents[n])
    && id in s.shared.handles && RootId(s.shared.handles[id]) == RootId(s.agents[n].path)
    && id in s.owners && s.owners[id] in s.agents && s.owners[id] != n && s.agents[s.owners[id]].ctx.Some?
  }

  lemma EndingForgets(s: World, n: nat, id: Uuid, rest: seq<Action>)
    requires LeftBehind(s, n, id)
    requires rest == if s.agents[n].phase == Ending then [ShutDownContext(n), ForgetContext(n)] else [ForgetContext(n)]
    ensures Taken(s, rest).Some? && !AllServed(Taken(s, rest).value)
  {
    if s.agents[n].phase == Ending {
      assert rest == [ShutDownContext(n)] + [ForgetContext(n)];
      TakenFirst(s, ShutDownContext(n), [ForgetContext(n)]);
      Forgets(Apply(s, ShutDownContext(n)), n, id);
    } else {
      Forgets(s, n, id);
    }
  }

  lemma Forgets(s: World, n: nat, id: Uuid)
    requires LeftBehind(s, n, id) && s.agents[n].phase == Forgetting
    ensures Taken(s, [ForgetContext(n)]).Some? && !AllServed(Taken(s, [ForgetContext(n)]).value)
  {
    var none: seq<Action> := [];
    assert [ForgetContext(n)] == [ForgetContext(n)] + none;
    TakenFirst(s, ForgetContext(n), none);
    assert !Served(Apply(s, ForgetContext(n)), id);
  }

  // --- The results

  lemma {:induction false} FirstOverlap(trace: seq<World>, i: nat) returns (first: nat)
    requires i < |trace| && Overlapped(trace[i])
    ensures first <= i && Overlapped(trace[first]) && ApartUpTo(trace, first)
  {
    if exists j :: 0 <= j < i && Overlapped(trace[j]) {
      var j: nat :| j < i && Overlapped(trace[j]);
      first := FirstOverlap(trace, j);
    } else {
      first := i;
    }
  }

  /** Over every interleaving: tasks and agents can always finish what they have begun with
      every registered handle served, exactly if no opening or spawning ever overlaps the
      ending of its tree. */
  lemma ServedExactly(trace: seq<World>)
    requires Behavior(trace)
    ensures (forall i | 0 <= i < |trace| :: FinishesSafely(trace[i]))
      <==> (forall i | 0 <= i < |trace| :: !Overlapped(trace[i]))
  {
    if forall i | 0 <= i < |trace| :: !Overlapped(trace[i]) {
      forall i | 0 <= i < |trace| ensures FinishesSafely(trace[i]) {
        BehaviorSound(trace, i);
        forall actions | AllFinish(actions) ensures Taken(trace[i], actions).Some?
          ==> AllServed(Taken(trace[i], actions).value) {
          FinishServes(trace[i], actions);
        }
      }
    } else {
      var i :| 0 <= i < |trace| && Overlapped(trace[i]);
      var first := FirstOverlap(trace, i);
      BehaviorSound(trace, first);
      OverlapBreaks(trace[first]);
    }
  }

  /** While nothing overlaps an ending, every registered handle is served. */
  lemma RegisteredIsServed(trace: seq<World>, i: nat)
    requires Behavior(trace) && i < |trace| && ApartUpTo(trace, i)
    ensures AllServed(trace[i])
  {
    BehaviorSound(trace, i);
    SoundServes(trace[i]);
  }

  ghost predicate TreeRegistered(s: World, root: Uuid) {
    exists id :: id in s.shared.handles && RootId(s.shared.handles[id]) == root
  }

  /** And while any handle of a tree stays registered, not only the same one, the tree keeps
      its context. */
  lemma {:induction false} ContextStays(trace: seq<World>, i: nat, j: nat, root: Uuid)
    requires Behavior(trace) && i <= j < |trace| && ApartUpTo(trace, j)
    requires forall k | i <= k < j :: TreeRegistered(trace[k], root)
    ensures HeldFor(trace[i].shared.contexts, root) == HeldFor(trace[j].shared.contexts, root)
  {
    if i == j {
    } else {
      ContextStays(trace, i, j - 1, root);
      BehaviorSound(trace, j - 1);
      assert Next(trace[j - 1], trace[j - 1 + 1]);
      var a :| Enabled(trace[j - 1], a) && Allowed(trace[j - 1], a) && trace[j] == Apply(trace[j - 1], a);
      assert TreeRegistered(trace[j - 1], root);
      StepKeepsContext(trace[j - 1], a, root);
    }
  }

  lemma StepKeepsContext(s: World, a: Action, root: Uuid)
    requires Sound(s) && Enabled(s, a) && TreeRegistered(s, root)
    ensures HeldFor(Apply(s, a).shared.contexts, root) == HeldFor(s.shared.contexts, root)
  {
    var id :| id in s.shared.handles && RootId(s.shared.handles[id]) == root;
    OwnerServed(s.agents, s.owners, s.shared, id);
    KeepsContext(s, a, id);
  }

  lemma KeepsContext(s: World, a: Action, id: Uuid)
    requires EndsQuietly(s.agents, s.shared.handles) && Enabled(s, a) && id in s.shared.handles
    requires HeldFor(s.shared.contexts, RootId(s.shared.handles[id])).Some?
    ensures var root := RootId(s.shared.handles[id]);
      HeldFor(Apply(s, a).shared.contexts, root) == HeldFor(s.shared.contexts, root)
  {
    if a.ForgetContext? {
      NotEnding(s.agents, s.shared.handles, a.agent, id);
    }
  }

  lemma NotEnding(agents: Workers, handles: Handles, n: nat, id: Uuid)
    requires EndsQuietly(agents, handles) && n in agents && IsEnding(agents[n]) && id in handles
    ensures RootId(handles[id]) != RootId(agents[n].path)
  {
  }
}
