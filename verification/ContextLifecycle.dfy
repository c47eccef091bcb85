/** The spawner's shared execution contexts, one per chat tree, over every interleaving of
    the sections that each take one lock. */
module ContextLifecycle {
  import opened Prelude
  import opened Chats
  import opened HandleRegistry

  /** An execution context, by the order of its making. */
  type Ctx = nat

  /** What the locks protect, and the contexts shut down so far. */
  datatype Shared = Shared(handles: Handles, contexts: map<Uuid, Ctx>, nextCtx: Ctx, shut: seq<Ctx>)

  function ContextFor(sh: Shared, root: Uuid): Option<Ctx> {
    if root in sh.contexts then Some(sh.contexts[root]) else None
  }

  function Made(sh: Shared): Shared {
    sh.(nextCtx := sh.nextCtx + 1)
  }

  /** Whoever stores first wins. */
  function Stored(sh: Shared, root: Uuid, ctx: Ctx): Shared {
    if root in sh.contexts then sh else sh.(contexts := sh.contexts[root := ctx])
  }

  function Registered(sh: Shared, path: ChatPath): Shared {
    sh.(handles := sh.handles[Current(path) := path])
  }

  function Removed(sh: Shared, path: ChatPath): Shared {
    sh.(handles := sh.handles - {Current(path)})
  }

  predicate TreeEmpty(sh: Shared, root: Uuid) {
    Subtree(sh.handles, root) == {}
  }

  function ShutDown(sh: Shared, ctx: Option<Ctx>): Shared {
    if ctx.Some? then sh.(shut := sh.shut + [ctx.value]) else sh
  }

  function Forgotten(sh: Shared, root: Uuid): Shared {
    sh.(contexts := sh.contexts - {root})
  }

  /** The spawner itself: each method is what happens under one lock. */
  class AgentSpawner {
    const registry: Registry
    var treeExecutionContexts: map<Uuid, Ctx>
    var nextCtx: Ctx
    var shut: seq<Ctx>

    function State(): Shared
      reads this, registry
    {
      Shared(registry.handles, treeExecutionContexts, nextCtx, shut)
    }

    constructor ()
      ensures State() == Shared(map[], map[], 0, []) && fresh(registry)
    {
      registry := new Registry();
      treeExecutionContexts, nextCtx, shut := map[], 0, [];
    }

    method LookUpContext(root: Uuid) returns (ctx: Option<Ctx>)
      ensures ctx == ContextFor(State(), root)
    {
      ctx := if root in treeExecutionContexts then Some(treeExecutionContexts[root]) else None;
    }

    method MakeContext() returns (ctx: Ctx)
      modifies this
      ensures ctx == old(nextCtx) && State() == Made(old(State()))
    {
      ctx := nextCtx;
      nextCtx := nextCtx + 1;
    }

    method StoreContext(root: Uuid, ctx: Ctx) returns (kept: Ctx)
      modifies this
      ensures State() == Stored(old(State()), root, ctx) && Some(kept) == ContextFor(State(), root)
    {
      if root !in treeExecutionContexts {
        treeExecutionContexts := treeExecutionContexts[root := ctx];
      }
      kept := treeExecutionContexts[root];
    }

    method RegisterHandle(path: ChatPath)
      modifies registry
      ensures State() == Registered(old(State()), path)
    {
      var _ := registry.Insert(path);
    }

    method RemoveAndTest(path: ChatPath) returns (subtreeEmpty: bool)
      modifies registry
      ensures State() == Removed(old(State()), path) && subtreeEmpty == TreeEmpty(State(), RootId(path))
    {
      var _ := registry.Remove(Current(path));
      subtreeEmpty := Subtree(registry.handles, RootId(path)) == {};
    }

    method ShutDownContext(ctx: Option<Ctx>)
      modifies this
      ensures State() == ShutDown(old(State()), ctx)
    {
      if ctx.Some? {
        shut := shut + [ctx.value];
      }
    }

    method ForgetContext(root: Uuid)
      modifies this
      ensures State() == Forgotten(old(State()), root)
    {
      treeExecutionContexts := treeExecutionContexts - {root};
    }

    /** With nobody else at work, a tree gets the context it has, or a new one that stays. */
    method EnsureRootExecutionContext(root: Uuid) returns (ctx: Ctx)
      modifies this
      ensures Some(ctx) == ContextFor(State(), root)
      ensures State() == if root in old(treeExecutionContexts) then old(State())
        else Stored(Made(old(State())), root, old(nextCtx))
    {
      var found := LookUpContext(root);
      if found.Some? {
        return found.value;
      }
      ctx := MakeContext();
      ctx := StoreContext(root, ctx);
    }

    /** With nobody else at work, the last handle of a tree takes the tree's context with it. */
    method CleanupAfterRunner(path: ChatPath, ctx: Option<Ctx>)
      modifies this, registry
      ensures var removed := Removed(old(State()), path);
        State() == if TreeEmpty(removed, RootId(path)) then Forgotten(ShutDown(removed, ctx), RootId(path)) else removed
    {
      var subtreeEmpty := RemoveAndTest(path);
      if subtreeEmpty {
        ShutDownContext(ctx);
        ForgetContext(RootId(path));
      }
    }
  }

  // --- Everybody at work at once

  datatype Task =
    | OpenRoot(root: Uuid)                      // spawning or restoring a root
    | Ensure(root: Uuid)                        // only asking for a context
    | SpawnChild(path: ChatPath, sponsor: nat)  // called for by the agent `sponsor`

  datatype Stage = Begun | Making | Holding(ctx: Option<Ctx>) | Bringing(made: Ctx)

  datatype Op = Op(task: Task, stage: Stage)

  datatype Phase = Running | Exited | Ending | Forgetting

  datatype Worker = Worker(path: ChatPath, ctx: Option<Ctx>, phase: Phase)

  type Ops = map<nat, Op>

  /** Agents by the order of their registration: two may share a chat id. */
  type Workers = map<nat, Worker>

  /** Besides the locked state: whose each registered handle is, tasks and agents at work, and
      for the argument only the tree each context was made for, the contexts given out, and
      those whose agent found its subtree empty, each time one did. */
  datatype World = World(
    shared: Shared, owners: map<Uuid, nat>, ops: Ops, agents: Workers, born: nat,
    homes: seq<Uuid>, used: set<Ctx>, emptied: seq<Ctx>)

  datatype Action =
    | Begin(op: nat, task: Task)
    | LookUp(op: nat)
    | Make(op: nat)
    | Store(op: nat)
    | Register(op: nat)
    | GiveUp(op: nat)     // a failed step, or an answered `Ensure`
    | Exit(agent: nat)
    | RemoveAndTest(agent: nat)
    | ShutDownContext(agent: nat)
    | ForgetContext(agent: nat)

  function TreeOf(task: Task): Uuid {
    match task
    case OpenRoot(root) => root
    case Ensure(root) => root
    case SpawnChild(path, _) => RootId(path)
  }

  /** The chat a task will register. */
  function Creates(task: Task): Option<ChatPath> {
    match task
    case OpenRoot(root) => Some([root])
    case Ensure(_) => None
    case SpawnChild(path, _) => Some(path)
  }

  predicate IsRegistered(a: Worker) {
    a.phase == Running || a.phase == Exited
  }

  predicate IsEnding(a: Worker) {
    a.phase == Ending || a.phase == Forgetting
  }

  predicate Enabled(s: World, a: Action) {
    match a
    case Begin(op, task) => op !in s.ops
    case LookUp(op) => op in s.ops && s.ops[op].stage == Begun
    case Make(op) => op in s.ops && s.ops[op].stage == Making
    case Store(op) => op in s.ops && s.ops[op].stage.Bringing?
    case Register(op) => op in s.ops && s.ops[op].stage.Holding? && Creates(s.ops[op].task).Some?
    case GiveUp(op) => op in s.ops && !s.ops[op].stage.Bringing?
    case Exit(n) => n in s.agents && s.agents[n].phase == Running
    case RemoveAndTest(n) => n in s.agents && s.agents[n].phase == Exited
    case ShutDownContext(n) => n in s.agents && s.agents[n].phase == Ending
    case ForgetContext(n) => n in s.agents && s.agents[n].phase == Forgetting
  }

  function Advanced(ops: Ops, op: nat, stage: Stage): Ops
    requires op in ops
  {
    ops[op := ops[op].(stage := stage)]
  }

  function Turned(agents: Workers, n: nat, phase: Phase): Workers
    requires n in agents
  {
    agents[n := agents[n].(phase := phase)]
  }

  function Held(ctx: Option<Ctx>): set<Ctx> {
    if ctx.Some? then {ctx.value} else {}
  }

  function Listed(ctx: Option<Ctx>): seq<Ctx> {
    if ctx.Some? then [ctx.value] else []
  }

  function Apply(s: World, a: Action): World
    requires Enabled(s, a)
  {
    match a
    case Begin(op, task) => s.(ops := s.ops[op := Op(task, Begun)])
    case LookUp(op) =>
      var task := s.ops[op].task;
      var found := ContextFor(s.shared, TreeOf(task));
      s.(ops := Advanced(s.ops, op, if found.Some? || task.SpawnChild? then Holding(found) else Making))
    case Make(op) =>
      s.(shared := Made(s.shared), ops := Advanced(s.ops, op, Bringing(s.shared.nextCtx)),
        homes := s.homes + [TreeOf(s.ops[op].task)])
    case Store(op) =>
      var root := TreeOf(s.ops[op].task);
      var stored := Stored(s.shared, root, s.ops[op].stage.made);
      s.(shared := stored, ops := Advanced(s.ops, op, Holding(ContextFor(stored, root))))
    case Register(op) =>
      var path, ctx := Creates(s.ops[op].task).value, s.ops[op].stage.ctx;
      s.(shared := Registered(s.shared, path), owners := s.owners[Current(path) := s.born], ops := s.ops - {op},
        agents := s.agents[s.born := Worker(path, ctx, Running)], born := s.born + 1, used := s.used + Held(ctx))
    case GiveUp(op) => s.(ops := s.ops - {op})
    case Exit(n) => s.(agents := Turned(s.agents, n, Exited))
    case RemoveAndTest(n) =>
      var path := s.agents[n].path;
      var removed := Removed(s.shared, path);
      if TreeEmpty(removed, RootId(path)) then
        s.(shared := removed, owners := s.owners - {Current(path)}, agents := Turned(s.agents, n, Ending),
          emptied := s.emptied + Listed(s.agents[n].ctx))
      else s.(shared := removed, owners := s.owners - {Current(path)}, agents := s.agents - {n})
    case ShutDownContext(n) =>
      s.(shared := ShutDown(s.shared, s.agents[n].ctx), agents := Turned(s.agents, n, Forgetting))
    case ForgetContext(n) =>
      s.(shared := Forgotten(s.shared, RootId(s.agents[n].path)), agents := s.agents - {n})
  }

  /** What the callers provide: a child gets a new id and is spawned by a running agent of its
      tree, which waits for it, and no root has the id of a child. Roots may be opened at any
      time, even while an agent of theirs is at work. */
  ghost predicate Allowed(s: World, a: Action)
    requires Enabled(s, a)
  {
    match a
    case Begin(_, task) => Welcome(s, task)
    case Exit(n) => forall o | o in s.ops && s.ops[o].task.SpawnChild? :: s.ops[o].task.sponsor != n
    case _ => true
  }

  ghost predicate Welcome(s: World, task: Task) {
    match task
    case Ensure(_) => true
    case OpenRoot(root) => OnlyAs(s.ops, s.agents, [root])
    case SpawnChild(path, sponsor) =>
      Depth(path) > 0 && Unclaimed(s.ops, s.agents, Current(path)) && Sponsors(s.agents, sponsor, RootId(path))
  }

  ghost predicate Sponsors(agents: Workers, sponsor: nat, root: Uuid) {
    sponsor in agents && agents[sponsor].phase == Running && RootId(agents[sponsor].path) == root
  }

  /** Whoever has or will have this chat's id has it by the same lineage. */
  ghost predicate OnlyAs(ops: Ops, agents: Workers, path: ChatPath) {
    (forall n | n in agents && Current(agents[n].path) == Current(path) :: agents[n].path == path)
    && (forall o | o in ops && Creates(ops[o].task).Some? && Current(Creates(ops[o].task).value) == Current(path) ::
      Creates(ops[o].task).value == path)
  }

  ghost predicate Unclaimed(ops: Ops, agents: Workers, id: Uuid) {
    (forall n | n in agents :: Current(agents[n].path) != id)
    && (forall o | o in ops && Creates(ops[o].task).Some? :: Current(Creates(ops[o].task).value) != id)
  }

  ghost predicate Next(s: World, s': World) {
    exists a :: Enabled(s, a) && Allowed(s, a) && s' == Apply(s, a)
  }

  const START := World(Shared(map[], map[], 0, []), map[], map[], map[], 0, [], {}, [])

  ghost predicate Behavior(trace: seq<World>) {
    trace != [] && trace[0] == START && forall i | 0 <= i < |trace| - 1 :: Next(trace[i], trace[i + 1])
  }

  /** Actions taken one after another, if they can and may be. */
  ghost function Taken(s: World, actions: seq<Action>): Option<World>
    decreases |actions|
  {
    if actions == [] then Some(s)
    else if Enabled(s, actions[0]) && Allowed(s, actions[0]) then Taken(Apply(s, actions[0]), actions[1..])
    else None
  }

  lemma TakenFirst(s: World, a: Action, rest: seq<Action>)
    requires Enabled(s, a) && Allowed(s, a)
    ensures Taken(s, [a] + rest) == Taken(Apply(s, a), rest)
  {
    assert ([a] + rest)[1..] == rest;
  }

  // --- What can go wrong

  function HeldFor(contexts: map<Uuid, Ctx>, root: Uuid): Option<Ctx> {
    if root in contexts then Some(contexts[root]) else None
  }

  /** The agent behind the handle has its tree's context, which is not shut down. */
  ghost predicate Served(s: World, id: Uuid)
    requires id in s.shared.handles
  {
    id in s.owners && s.owners[id] in s.agents
    && var ctx := s.agents[s.owners[id]].ctx;
      ctx.Some? && ctx.value !in s.shared.shut && HeldFor(s.shared.contexts, RootId(s.shared.handles[id])) == ctx
  }

  ghost predicate AllServed(s: World) {
    forall id | id in s.shared.handles :: Served(s, id)
  }

  /** Whoever is about to register an agent has looked for its context while an agent of the
      tree is on its way to shut the context down or to forget it, or has found none. */
  ghost predicate Overlapped(s: World) {
    (exists o, n :: o in s.ops && n in s.agents && Overlap(s.ops[o], s.agents[n]))
    || exists o :: o in s.ops && Stranded(s.ops[o])
  }

  ghost predicate Overlap(op: Op, a: Worker) {
    Creates(op.task).Some? && op.stage.Holding? && IsEnding(a) && RootId(a.path) == TreeOf(op.task)
  }

  predicate Stranded(op: Op) {
    op.task.SpawnChild? && op.stage == Holding(None)
  }

  /** Two agents of one chat are at work. */
  ghost predicate Doubled(s: World) {
    exists n, m :: n in s.agents && m in s.agents && n != m && Namesakes(s.agents[n], s.agents[m])
  }

  predicate Namesakes(a: Worker, b: Worker) {
    Current(a.path) == Current(b.path)
  }
}
