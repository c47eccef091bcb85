/** Interleavings in which a context is taken away or shut down twice, from the empty spawner on. */
module ContextWitnesses {
  import opened Prelude
  import opened HandleRegistry
  import opened ContextLifecycle

  function Last(trace: seq<World>): World
    requires trace != []
  {
    trace[|trace| - 1]
  }

  lemma Extend(trace: seq<World>, a: Action) returns (more: seq<World>)
    requires Behavior(trace) && Enabled(Last(trace), a) && Allowed(Last(trace), a)
    ensures Behavior(more) && Last(more) == Apply(Last(trace), a)
  {
    more := trace + [Apply(Last(trace), a)];
    forall i | 0 <= i < |more| - 1 ensures Next(more[i], more[i + 1]) {
      if i < |trace| - 1 {
        assert Next(trace[i], trace[i + 1]);
        assert more[i] == trace[i] && more[i + 1] == trace[i + 1];
      } else {
        assert more[i] == Last(trace);
      }
    }
  }

  /** Root 7 opened by task 0 from nothing. */
  const OPENED: World :=
    World(Shared(map[7 := [7]], map[7 := 0], 1, []), map[7 := 0], map[], map[0 := Worker([7], Some(0), Running)], 1,
      [7], {0}, [])

  lemma RootOpens() returns (trace: seq<World>)
    ensures Behavior(trace) && Last(trace) == OPENED
  {
    trace := Extend([START], Begin(0, OpenRoot(7)));
    var s1 := Apply(START, Begin(0, OpenRoot(7)));
    trace := Extend(trace, LookUp(0));
    var s2 := Apply(s1, LookUp(0));
    trace := Extend(trace, Make(0));
    var s3 := Apply(s2, Make(0));
    trace := Extend(trace, Store(0));
    var s4 := Apply(s3, Store(0));
    assert s4.ops == map[0 := Op(OpenRoot(7), Holding(Some(0)))];
    trace := Extend(trace, Register(0));
    var s5 := Apply(s4, Register(0));
    assert s5.shared == OPENED.shared && s5.owners == OPENED.owners && s5.ops == OPENED.ops
      && s5.agents == OPENED.agents;
    assert s5.homes == OPENED.homes && s5.used == OPENED.used && s5.emptied == OPENED.emptied;
  }

  /** Its agent has found the tree empty while task 1, restoring the root, has just looked up
      the context. */
  const CAUGHT: World :=
    World(Shared(map[], map[7 := 0], 1, []), map[], map[1 := Op(OpenRoot(7), Holding(Some(0)))],
      map[0 := Worker([7], Some(0), Ending)], 1, [7], {0}, [0])

  lemma RestoreCaught() returns (trace: seq<World>)
    ensures Behavior(trace) && Last(trace) == CAUGHT
  {
    trace := RootOpens();
    trace := Extend(trace, Exit(0));
    var s1 := Apply(OPENED, Exit(0));
    assert Subtree(Removed(s1.shared, [7]).handles, 7) == {};
    trace := Extend(trace, RemoveAndTest(0));
    var s2 := Apply(s1, RemoveAndTest(0));
    trace := Extend(trace, Begin(1, OpenRoot(7)));
    var s3 := Apply(s2, Begin(1, OpenRoot(7)));
    trace := Extend(trace, LookUp(1));
    var s4 := Apply(s3, LookUp(1));
    assert s4.shared == CAUGHT.shared && s4.owners == CAUGHT.owners && s4.ops == CAUGHT.ops
      && s4.agents == CAUGHT.agents;
    assert s4.homes == CAUGHT.homes && s4.used == CAUGHT.used && s4.emptied == CAUGHT.emptied;
  }

  /** Restoring a root in the middle of its own final cleanup looks the context up before it is
      shut down, and registers a handle that is then left without it: first shut down, then out
      of the map. */
  lemma RestoreRacesCleanup() returns (trace: seq<World>)
    ensures Behavior(trace)
    ensures var s := Last(trace);
      7 in s.shared.handles && !Served(s, 7)
      && s.owners == map[7 := 1] && s.agents == map[1 := Worker([7], Some(0), Running)]
      && s.shared.shut == [0] && 7 !in s.shared.contexts
  {
    trace := RestoreCaught();
    trace := Extend(trace, Register(1));
    var s1 := Apply(CAUGHT, Register(1));
    var second := Worker([7], Some(0), Running);
    assert s1.owners == map[7 := 1] && s1.agents == map[0 := Worker([7], Some(0), Ending), 1 := second];
    trace := Extend(trace, ShutDownContext(0));
    var s2 := Apply(s1, ShutDownContext(0));
    assert s2.shared.shut == [0] && s2.agents == map[0 := Worker([7], Some(0), Forgetting), 1 := second];
    trace := Extend(trace, ForgetContext(0));
    var s3 := Apply(s2, ForgetContext(0));
    assert s3.owners == map[7 := 1] && s3.agents == map[1 := second] && s3.shared.contexts == map[];
    assert s3.shared.handles == map[7 := [7]];
  }

  /** Root 7 restored while its first agent is at work. */
  const TWICE: World :=
    World(Shared(map[7 := [7]], map[7 := 0], 1, []), map[7 := 1], map[],
      map[0 := Worker([7], Some(0), Running), 1 := Worker([7], Some(0), Running)], 2, [7], {0}, [])

  lemma RootOpensTwice() returns (trace: seq<World>)
    ensures Behavior(trace) && Last(trace) == TWICE
  {
    trace := RootOpens();
    trace := Extend(trace, Begin(1, OpenRoot(7)));
    var s1 := Apply(OPENED, Begin(1, OpenRoot(7)));
    trace := Extend(trace, LookUp(1));
    var s2 := Apply(s1, LookUp(1));
    assert s2.ops == map[1 := Op(OpenRoot(7), Holding(Some(0)))];
    trace := Extend(trace, Register(1));
    var s3 := Apply(s2, Register(1));
    assert s3.shared == TWICE.shared && s3.owners == TWICE.owners && s3.ops == TWICE.ops && s3.agents == TWICE.agents;
    assert s3.homes == TWICE.homes && s3.used == TWICE.used && s3.emptied == TWICE.emptied;
  }

  /** The first agent's cleanup has taken the second one's handle with it. */
  const ORPHANED: World :=
    World(Shared(map[], map[], 1, [0]), map[], map[], map[1 := Worker([7], Some(0), Running)], 2, [7], {0}, [0])

  lemma RestoreOrphans() returns (trace: seq<World>)
    ensures Behavior(trace) && Last(trace) == ORPHANED
  {
    trace := RootOpensTwice();
    trace := Extend(trace, Exit(0));
    var s1 := Apply(TWICE, Exit(0));
    trace := Extend(trace, RemoveAndTest(0));
    var s2 := FirstEmpties(s1);
    trace := Extend(trace, ShutDownContext(0));
    var s3 := Apply(s2, ShutDownContext(0));
    assert s3.shared.shut == [0];
    assert s3.agents == map[0 := Worker([7], Some(0), Forgetting), 1 := Worker([7], Some(0), Running)];
    LastForgets(s3);
    trace := Extend(trace, ForgetContext(0));
  }

  lemma FirstEmpties(s1: World) returns (s2: World)
    requires s1 == Apply(TWICE, Exit(0))
    ensures Enabled(s1, RemoveAndTest(0)) && s2 == Apply(s1, RemoveAndTest(0))
    ensures s2 == TWICE.(shared := Shared(map[], map[7 := 0], 1, []), owners := map[], emptied := [0],
      agents := map[0 := Worker([7], Some(0), Ending), 1 := Worker([7], Some(0), Running)])
  {
    assert Subtree(Removed(s1.shared, [7]).handles, 7) == {};
    s2 := Apply(s1, RemoveAndTest(0));
    assert s2.shared.handles == map[] && s2.owners == map[] && s2.emptied == [0];
    assert s2.agents == map[0 := Worker([7], Some(0), Ending), 1 := Worker([7], Some(0), Running)];
  }

  lemma LastForgets(s3: World)
    requires s3 == TWICE.(shared := Shared(map[], map[7 := 0], 1, [0]), owners := map[], emptied := [0],
      agents := map[0 := Worker([7], Some(0), Forgetting), 1 := Worker([7], Some(0), Running)])
    ensures Enabled(s3, ForgetContext(0)) && Apply(s3, ForgetContext(0)) == ORPHANED
  {
    var s4 := Apply(s3, ForgetContext(0));
    assert s4.shared.contexts == map[] && s4.agents == map[1 := Worker([7], Some(0), Running)];
  }

  /** Restoring a root whose agent is at work leaves the second agent without a handle once the
      first is cleaned up, and has the one context shut down by both. */
  lemma DoubleRestoreShutsTwice() returns (trace: seq<World>)
    ensures Behavior(trace) && Last(trace).shared.shut == [0, 0]
  {
    trace := RestoreOrphans();
    trace := Extend(trace, Exit(1));
    var s1 := Apply(ORPHANED, Exit(1));
    assert Subtree(Removed(s1.shared, [7]).handles, 7) == {};
    trace := Extend(trace, RemoveAndTest(1));
    var s2 := Apply(s1, RemoveAndTest(1));
    trace := Extend(trace, ShutDownContext(1));
    assert Apply(s2, ShutDownContext(1)).shared.shut == [0, 0];
  }

  /** As `TWICE`, while its second agent spawns the child 9, which has looked its context up. */
  const SPAWNING: World := TWICE.(ops := map[2 := Op(SpawnChild([7, 9], 1), Holding(Some(0)))])

  lemma SecondSpawns() returns (trace: seq<World>)
    ensures Behavior(trace) && Last(trace) == SPAWNING
  {
    trace := RootOpensTwice();
    trace := Extend(trace, Begin(2, SpawnChild([7, 9], 1)));
    var s1 := Apply(TWICE, Begin(2, SpawnChild([7, 9], 1)));
    trace := Extend(trace, LookUp(2));
    assert Apply(s1, LookUp(2)).ops == SPAWNING.ops;
  }

  /** Now the first agent's cleanup finds no handle of the tree, the second agent's having gone
      with its own. */
  const UNDERCUT: World :=
    SPAWNING.(shared := Shared(map[], map[7 := 0], 1, []), owners := map[], emptied := [0],
      agents := map[0 := Worker([7], Some(0), Ending), 1 := Worker([7], Some(0), Running)])

  lemma FirstUndercuts() returns (trace: seq<World>)
    ensures Behavior(trace) && Last(trace) == UNDERCUT
  {
    trace := SecondSpawns();
    trace := Extend(trace, Exit(0));
    var s1 := Apply(SPAWNING, Exit(0));
    assert Subtree(Removed(s1.shared, [7]).handles, 7) == {};
    trace := Extend(trace, RemoveAndTest(0));
    var s2 := Apply(s1, RemoveAndTest(0));
    assert s2.shared.handles == map[] && s2.owners == map[] && s2.emptied == [0];
    assert s2.agents == UNDERCUT.agents;
  }

  /** The child is registered all the same, and its context shut down and removed while its
      sponsor runs: a spawning overlaps an ending once a root was restored while it ran. */
  lemma ChildLosesContext() returns (trace: seq<World>)
    ensures Behavior(trace)
    ensures var s := Last(trace);
      9 in s.shared.handles && !Served(s, 9) && s.shared.shut == [0] && 7 !in s.shared.contexts
      && s.agents == map[1 := Worker([7], Some(0), Running), 2 := Worker([7, 9], Some(0), Running)]
  {
    trace := FirstUndercuts();
    trace := Extend(trace, Register(2));
    var s1 := Apply(UNDERCUT, Register(2));
    var second, child := Worker([7], Some(0), Running), Worker([7, 9], Some(0), Running);
    assert s1.agents == map[0 := Worker([7], Some(0), Ending), 1 := second, 2 := child];
    assert s1.shared == Shared(map[9 := [7, 9]], map[7 := 0], 1, []) && s1.owners == map[9 := 2];
    trace := Extend(trace, ShutDownContext(0));
    var s2 := Apply(s1, ShutDownContext(0));
    assert s2.shared.shut == [0] && s2.agents == map[0 := Worker([7], Some(0), Forgetting), 1 := second, 2 := child];
    trace := Extend(trace, ForgetContext(0));
    var s3 := Apply(s2, ForgetContext(0));
    assert s3.agents == map[1 := second, 2 := child] && s3.shared.contexts == map[];
  }
}
