/**
 What a close achieves. Once the generations it found retired are drained, it starts a cleanup of each one, and
 it ends with `closed` set exactly if none of the cleanups it waits for fails.
 */
module GenerationShutdown {
  import opened Options
  import opened GenerationModel
  import opened GenerationSafety
  import opened GenerationTheorems

  // --- Collecting ---

  /** A cleanup of the generation has succeeded, or is running. */
  predicate TakenCareOf(x: Generation) { x.closed || x.cleaning }

  /** What a step does to a generation that close is to clean up. */
  lemma StepOnSnapshot(st: State, a: Step, g: nat)
    requires Inv(st) && Enabled(st, a) && st.closer.Collecting? && g in st.closer.snapshot
    ensures g in st.fleet.generations && g in Apply(st, a).fleet.generations
    ensures var x, y := st.fleet.generations[g], Apply(st, a).fleet.generations[g];
            if a == DoEndCleanup(g, true) then y.closed && !y.cleaning
            else if a == DoEndCleanup(g, false) then x.cleaning && !x.closed && !y.closed && !y.cleaning
            else if a == DoCollectOne(g) then TakenCareOf(y) && (x.closed ==> y.closed)
            else y.closed == x.closed && y.cleaning == x.cleaning
  {
    assert Sound(st.fleet.generations[g], g == st.fleet.current, g in st.fleet.retired);
  }

  /** Until it has all results or is cancelled, close goes on collecting the same generations. */
  lemma StepOnCollecting(st: State, a: Step)
    requires Inv(st) && Enabled(st, a) && st.closer.Collecting?
    requires !a.DoCollected? && !a.DoAbortClose?
    ensures Apply(st, a).closer == Collecting(st.closer.snapshot,
                                              st.closer.todo - if a.DoCollectOne? then {a.g} else {})
  {
  }

  /**
   When close has asked for the cleanup of a generation of its snapshot, that cleanup has succeeded, is running, or
   has failed since the snapshot was drained.
   */
  lemma {:induction false} CollectedIsTakenCareOf(st: State, run: seq<Step>, g: nat)
    requires Inv(st) && st.closer.Collecting? && g in st.closer.snapshot && Runnable(st, run)
    requires forall i :: 0 <= i < |run| ==> !run[i].DoCollected? && !run[i].DoAbortClose?
    requires g in st.closer.todo || TakenCareOf(st.fleet.generations[g])
    ensures var st' := Run(st, run);
            && g in st'.fleet.generations && st'.closer.Collecting?
            && (g in st'.closer.todo || TakenCareOf(st'.fleet.generations[g]) || DoEndCleanup(g, false) in run)
    decreases |run|
  {
    hide Inv, Apply, WellFormed;
    SnapshotIsKnown(st, g);
    if run != [] {
      StepOnSnapshot(st, run[0], g);
      StepOnCollecting(st, run[0]);
      StepKeepsInv(st, run[0]);
      if run[0] == DoEndCleanup(g, false) {
        StaysCollecting(Apply(st, run[0]), run[1..], g);
      } else {
        CollectedIsTakenCareOf(Apply(st, run[0]), run[1..], g);
      }
    }
  }

  lemma SnapshotIsKnown(st: State, g: nat)
    requires Inv(st) && st.closer.Collecting? && g in st.closer.snapshot
    ensures g in st.fleet.generations
  {
  }

  lemma {:induction false} StaysCollecting(st: State, run: seq<Step>, g: nat)
    requires Inv(st) && st.closer.Collecting? && g in st.closer.snapshot && Runnable(st, run)
    requires forall i :: 0 <= i < |run| ==> !run[i].DoCollected? && !run[i].DoAbortClose?
    ensures Run(st, run).closer.Collecting? && g in Run(st, run).fleet.generations
    decreases |run|
  {
    if run != [] {
      StepOnCollecting(st, run[0]);
      StepKeepsInv(st, run[0]);
      StaysCollecting(Apply(st, run[0]), run[1..], g);
    }
  }

  // --- The result ---

  /** The rest of one close that is not cancelled. */
  predicate Finishes(run: seq<Step>) {
    && run != [] && run[|run| - 1].DoFinishClose?
    && forall i :: 0 <= i < |run| - 1 ==> !run[i].DoFinishClose? && !run[i].DoAbortClose?
  }

  /**
   A cleanup that close waits for fails: that of a generation it has collected, or of an unpublished runtime.
   It speaks of the outcomes only, not of the state.
   */
  predicate Fails(run: seq<Step>, collected: set<nat>)
    decreases |run|
  {
    run != []
    && match run[0]
       case DoCollectOne(g) => Fails(run[1..], collected + {g})
       case DoEndCleanup(g, ok) => (!ok && g in collected) || Fails(run[1..], collected)
       case DoEndFinalSweep(ok) => !ok || Fails(run[1..], collected)
       case _ => Fails(run[1..], collected)
  }

  lemma Tail(run: seq<Step>)
    requires Finishes(run) && |run| > 1
    ensures Finishes(run[1..]) && !run[0].DoFinishClose? && !run[0].DoAbortClose?
  {
    assert forall i :: 0 <= i < |run| - 1 ==> run[1..][i] == run[i + 1];
  }

  predicate NobodyCleans(f: Fleet) { forall g :: g in f.generations ==> !f.generations[g].cleaning }

  lemma StepOnFinishing(st: State, a: Step)
    requires Inv(st) && Enabled(st, a) && st.closer.Finishing? && NobodyCleans(st.fleet) && !a.DoAbortClose?
    ensures var st' := Apply(st, a);
            && NobodyCleans(st'.fleet) && !a.DoEndCleanup? && !a.DoCollectOne?
            && (a.DoFinishClose? ==> st'.closed == st.closer.allClosed)
            && (!a.DoFinishClose? ==>
                  && st'.closer.Finishing?
                  && st'.closer.allClosed == (st.closer.allClosed && (a.DoEndFinalSweep? ==> a.ok)))
  {
  }

  lemma {:induction false} FinishingDecides(st: State, run: seq<Step>, collected: set<nat>)
    requires Inv(st) && st.closer.Finishing? && NobodyCleans(st.fleet) && Runnable(st, run) && Finishes(run)
    ensures Run(st, run).closed <==> st.closer.allClosed && !Fails(run, collected)
    decreases |run|
  {
    StepOnFinishing(st, run[0]);
    StepKeepsInv(st, run[0]);
    if |run| == 1 {
      assert run[1..] == [];
    } else {
      Tail(run);
      FinishingDecides(Apply(st, run[0]), run[1..], collected);
    }
  }

  /** All generations of the snapshot that are collected are taken care of. */
  predicate AllTakenCareOf(st: State)
    requires st.closer.Collecting?
  {
    forall g :: g in st.closer.snapshot && g !in st.closer.todo && g in st.fleet.generations ==>
                  TakenCareOf(st.fleet.generations[g])
  }

  lemma CollectedDecides(st: State)
    requires Inv(st) && st.closer.Collecting? && AllTakenCareOf(st) && Enabled(st, DoCollected)
    ensures var st' := Apply(st, DoCollected);
            st'.closer.Finishing? && st'.closer.allClosed && NobodyCleans(st'.fleet)
  {
    forall g | g in st.fleet.generations ensures !st.fleet.generations[g].cleaning {
      assert Sound(st.fleet.generations[g], g == st.fleet.current, g in st.fleet.retired);
    }
  }

  /** A failed cleanup of a collected generation is not repeated, and is noticed. */
  lemma {:induction false} FailureIsNoticed(st: State, run: seq<Step>, g: nat)
    requires Inv(st) && st.closer.Collecting? && g in st.closer.snapshot && g !in st.closer.todo
    requires g in st.fleet.generations && !TakenCareOf(st.fleet.generations[g])
    requires Runnable(st, run) && Finishes(run)
    ensures !Run(st, run).closed
    decreases |run|
  {
    if |run| > 1 {
      Tail(run);
      StepKeepsInv(st, run[0]);
      if run[0].DoCollected? {
        CollectedUnclosed(st, g);
        FinishingDecides(Apply(st, run[0]), run[1..], {});
      } else {
        StepOnSnapshot(st, run[0], g);
        StepOnCollecting(st, run[0]);
        FailureIsNoticed(Apply(st, run[0]), run[1..], g);
      }
    }
  }

  lemma CollectedUnclosed(st: State, g: nat)
    requires Inv(st) && st.closer.Collecting? && Enabled(st, DoCollected)
    requires g in st.closer.snapshot && g in st.fleet.generations && !st.fleet.generations[g].closed
    ensures var st' := Apply(st, DoCollected);
            st'.closer.Finishing? && !st'.closer.allClosed && NobodyCleans(st'.fleet)
  {
    forall h | h in st.fleet.generations ensures !st.fleet.generations[h].cleaning {
      assert Sound(st.fleet.generations[h], h == st.fleet.current, h in st.fleet.retired);
    }
  }

  lemma FinishNeedsCollected(st: State, a: Step)
    requires Enabled(st, a) && st.closer.Collecting?
    ensures !a.DoFinishClose?
  {
  }

  lemma {:induction false} CollectingDecides(st: State, run: seq<Step>)
    requires Inv(st) && st.closer.Collecting? && AllTakenCareOf(st) && Runnable(st, run) && Finishes(run)
    ensures Run(st, run).closed <==> !Fails(run, st.closer.snapshot - st.closer.todo)
    decreases |run|
  {
    hide Inv, Apply;
    var collected, a := st.closer.snapshot - st.closer.todo, run[0];
    FinishNeedsCollected(st, a);
    if |run| > 1 {
      Tail(run);
      StepKeepsInv(st, a);
      var st' := Apply(st, a);
      if a.DoCollected? {
        CollectedDecides(st);
        FinishingDecides(st', run[1..], collected);
      } else if a.DoEndCleanup? && !a.ok && a.g in collected {
        StepOnSnapshot(st, a, a.g);
        StepOnCollecting(st, a);
        FailureIsNoticed(st', run[1..], a.g);
      } else {
        StepOnCollecting(st, a);
        forall g | g in st'.closer.snapshot && g !in st'.closer.todo && g in st'.fleet.generations
          ensures TakenCareOf(st'.fleet.generations[g])
        {
          StepOnSnapshot(st, a, g);
        }
        CollectingDecides(st', run[1..]);
        if a.DoCollectOne? {
          assert st'.closer.snapshot - st'.closer.todo == collected + {a.g};
        } else {
          assert st'.closer.snapshot - st'.closer.todo == collected;
        }
      }
    }
  }

  /**
   The result of a close. From the moment its generations are drained, if it is not cancelled: it ends with the
   manager closed if and only if no cleanup fails of a generation it has collected or of an unpublished runtime.
   */
  lemma CloseSucceedsExactly(before: seq<Step>, run: seq<Step>)
    requires Runnable(Init(), before) && Runnable(Run(Init(), before), [DoDrained] + run) && Finishes(run)
    ensures Run(Run(Init(), before), [DoDrained] + run).closed <==> !Fails(run, {})
  {
    var st := Run(Init(), before);
    InitHolds();
    RunKeepsInv(Init(), before);
    assert ([DoDrained] + run)[1..] == run;
    StepKeepsInv(st, DoDrained);
    var st' := Apply(st, DoDrained);
    assert st'.closer.snapshot - st'.closer.todo == {};
    CollectingDecides(st', run);
  }

  // --- One close from start to end ---

  ghost predicate Goes(st: State, a: Step, st': State) { Enabled(st, a) && Apply(st, a) == st' }

  ghost predicate RunsTo(st: State, run: seq<Step>, st': State) { Runnable(st, run) && Run(st, run) == st' }

  lemma Then(st: State, a: Step, mid: State, rest: seq<Step>, st': State)
    requires Goes(st, a, mid) && RunsTo(mid, rest, st')
    ensures RunsTo(st, [a] + rest, st')
  {
    assert ([a] + rest)[1..] == rest;
  }

  /** The manager with its first generation only, and nobody who uses it. */
  function Lone(x: Generation, retired: set<nat>, cleanups: nat, closed: bool, lock: Lock, closer: Closer): State {
    State(Fleet(map[1 := x], 1, 2, retired, {}, [Runtime(cleanups, Some(1))]), Use(map[], NoRefresh, map[], None),
          true, closed, lock, closer)
  }

  /** Retired and drained. */
  function Spent(closed: bool, cleaning: bool): Generation { Generation(0, 0, true, closed, true, cleaning) }

  lemma IdleCloseBegins()
    ensures Goes(Init(), DoBeginClose,
                 Lone(Generation(0, 0, false, false, true, false), {}, 0, false, Closing, Outside))
  {
  }

  lemma IdleCloseRetires()
    ensures Goes(Lone(Generation(0, 0, false, false, true, false), {}, 0, false, Closing, Outside), DoRetireCurrent,
                 Lone(Spent(false, false), {1}, 0, false, Free, Draining({1})))
  {
    assert map[1 := Generation(0, 0, false, false, true, false)][1 := Spent(false, false)]
           == map[1 := Spent(false, false)];
    assert {} + {1} == {1};
  }

  lemma IdleCloseDrains()
    ensures Goes(Lone(Spent(false, false), {1}, 0, false, Free, Draining({1})), DoDrained,
                 Lone(Spent(false, false), {1}, 0, false, Free, Collecting({1}, {1})))
  {
  }

  lemma IdleCloseCollects(ok: bool)
    ensures Goes(Lone(Spent(false, false), {1}, 0, false, Free, Collecting({1}, {1})), DoCollectOne(1),
                 Lone(Spent(false, true), {1}, 0, false, Free, Collecting({1}, {})))
    ensures Goes(Lone(Spent(false, true), {1}, 0, false, Free, Collecting({1}, {})), DoEndCleanup(1, ok),
                 Lone(Spent(ok, false), if ok then {} else {1}, if ok then 1 else 0, false, Free, Collecting({1}, {})))
  {
    assert {1} - {1} == {};
  }

  lemma IdleCloseEnds(ok: bool, retired: set<nat>, cleanups: nat)
    requires retired <= {1}
    ensures Goes(Lone(Spent(ok, false), retired, cleanups, false, Free, Collecting({1}, {})), DoCollected,
                 Lone(Spent(ok, false), retired, cleanups, false, Free, Finishing({}, None, ok)))
  {
  }

  lemma IdleCloseFinishes(ok: bool, retired: set<nat>, cleanups: nat)
    ensures Goes(Lone(Spent(ok, false), retired, cleanups, false, Free, Finishing({}, None, ok)), DoFinishClose,
                 Lone(Spent(ok, false), retired, cleanups, ok, Free, Outside))
  {
  }

  /** A close of an idle manager: its one generation is cleaned up, and the outcome of that decides. */
  lemma IdleClose(ok: bool)
    ensures RunsTo(Init(), [DoBeginClose, DoRetireCurrent, DoDrained, DoCollectOne(1), DoEndCleanup(1, ok), DoCollected,
                            DoFinishClose],
                   Lone(Spent(ok, false), if ok then {} else {1}, if ok then 1 else 0, ok, Free, Outside))
  {
    hide Goes, Lone;
    var retired, cleanups := if ok then {} else {1}, if ok then 1 else 0;
    IdleCloseBegins();
    IdleCloseRetires();
    IdleCloseDrains();
    IdleCloseCollects(ok);
    IdleCloseEnds(ok, retired, cleanups);
    IdleCloseFinishes(ok, retired, cleanups);
    var end := Lone(Spent(ok, false), retired, cleanups, ok, Free, Outside);
    var s1 := Lone(Generation(0, 0, false, false, true, false), {}, 0, false, Closing, Outside);
    var s2 := Lone(Spent(false, false), {1}, 0, false, Free, Draining({1}));
    var s3 := Lone(Spent(false, false), {1}, 0, false, Free, Collecting({1}, {1}));
    var s4 := Lone(Spent(false, true), {1}, 0, false, Free, Collecting({1}, {}));
    var s5 := Lone(Spent(ok, false), retired, cleanups, false, Free, Collecting({1}, {}));
    var s6 := Lone(Spent(ok, false), retired, cleanups, false, Free, Finishing({}, None, ok));
    assert RunsTo(end, [], end);
    Then(s6, DoFinishClose, end, [], end);
    Then(s5, DoCollected, s6, [DoFinishClose], end);
    Then(s4, DoEndCleanup(1, ok), s5, [DoCollected, DoFinishClose], end);
    Then(s3, DoCollectOne(1), s4, [DoEndCleanup(1, ok), DoCollected, DoFinishClose], end);
    Then(s2, DoDrained, s3, [DoCollectOne(1), DoEndCleanup(1, ok), DoCollected, DoFinishClose], end);
    Then(s1, DoRetireCurrent, s2, [DoDrained, DoCollectOne(1), DoEndCleanup(1, ok), DoCollected, DoFinishClose], end);
    Then(Init(), DoBeginClose, s1,
         [DoRetireCurrent, DoDrained, DoCollectOne(1), DoEndCleanup(1, ok), DoCollected, DoFinishClose], end);
  }
}
