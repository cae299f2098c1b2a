/**
 What each operation of the manager gives its caller, and that nothing gets stuck: from every reachable state the
 manager can be closed, with every runtime cleaned up.
 */
module GenerationProgress {
  import opened Options
  import opened GenerationModel
  import opened GenerationSafety
  import Theorems = GenerationTheorems
  import opened GenerationShutdown

  // --- What callers get ---

  /** A lease is handed out, on the current generation, unless the manager is shutting down. */
  lemma AcquireOutcome(st: State, l: Lid)
    requires Enabled(st, DoAcquire(l))
    ensures var st' := Apply(st, DoAcquire(l));
            if st.closing || st.closed then st' == st
            else && st'.use.leases == st.use.leases[l := Lease(st.fleet.current, false)]
                 && st'.fleet.generations[st.fleet.current].leases == st.fleet.generations[st.fleet.current].leases + 1
                 && forall g :: g in st.fleet.generations && g != st.fleet.current ==>
                                  g in st'.fleet.generations && st'.fleet.generations[g] == st.fleet.generations[g]
  {
  }

  /** The first release of a lease gives it back, one use less; any other changes nothing. */
  lemma ReleaseOutcome(st: State, l: Lid)
    requires Inv(st) && Enabled(st, DoReleaseLease(l))
    ensures var st' := Apply(st, DoReleaseLease(l)); var g := st.use.leases[l].generation;
            && l in st'.use.leases && st'.use.leases[l] == Lease(g, true)
            && (st.use.leases[l].released ==> st' == st)
            && g in st.fleet.generations && g in st'.fleet.generations
            && (!st.use.leases[l].released ==>
                  st'.fleet.generations[g].leases == st.fleet.generations[g].leases - 1)
            && (forall k :: k in st.use.leases && k != l ==>
                              k in st'.use.leases && st'.use.leases[k] == st.use.leases[k])
            && (forall h :: h in st.fleet.generations && h != g ==>
                              h in st'.fleet.generations && st'.fleet.generations[h] == st.fleet.generations[h])
  {
    var g := st.use.leases[l].generation;
    if !st.use.leases[l].released { assert l in LeasesOn(st.use.leases, g) && LeasesOn(st.use.leases, g) != {}; }
  }

  /** A background refresh is scheduled for the current generation, if none is; it runs there, and ends. */
  lemma RefreshOutcome(st: State)
    requires Inv(st) && WellFormed(st)
    ensures st.lock.Free? ==>
              Apply(st, DoStartRefresh).use.refresh
              == if st.closing || st.closed || !st.use.refresh.NoRefresh? then st.use.refresh
                 else Scheduled(st.fleet.current)
    ensures st.use.refresh.Scheduled? ==>
              && st.use.refresh.generation == st.fleet.current
              && Apply(st, DoRunRefresh).use.refresh == Running(st.fleet.current)
              && Users(Apply(st, DoRunRefresh).use, st.fleet.current) == Users(st.use, st.fleet.current) + 1
    ensures st.use.refresh.Running? ==>
              && Apply(st, DoEndRefresh).use.refresh == NoRefresh
              && Users(Apply(st, DoEndRefresh).use, st.use.refresh.generation)
                 == Users(st.use, st.use.refresh.generation) - 1
  {
    if st.use.refresh.Scheduled? { assert Sound(st.fleet.generations[st.fleet.current], true, false); }
  }

  /**
   The operations that need the replace lock are refused while the manager is shutting down. Otherwise they take the
   lock, and those that start a discovery of their own have cancelled the background refresh.
   */
  lemma LockedOutcome(st: State, a: Step)
    requires Inv(st) && Enabled(st, a) && (a.DoBeginReplace? || a.DoBeginExplicitRefresh? || a.DoBeginConnect?)
    ensures var st' := Apply(st, a);
            if st.closing || st.closed then st' == st
            else && st'.lock == (if a.DoBeginReplace? then Replacing
                                 else if a.DoBeginConnect? then Connecting else Refreshing)
                 && (a.DoBeginConnect? || st'.use.refresh.NoRefresh?)
                 && (a.DoBeginExplicitRefresh? ==> st'.use.explicitRefresh == Some(st.fleet.current))
  {
    assert Sound(st.fleet.generations[st.fleet.current], true, st.fleet.current in st.fleet.retired);
  }

  /**
   What becomes of a candidate. If the factory raises nothing is left of it; if commit raises its runtime is kept as
   unpublished until its cleanup succeeds; if it is committed a refresh of it is scheduled, and its predecessor is
   cleaned up at once if nobody uses it.
   */
  lemma CandidateOutcome(st: State, outcome: Build)
    requires Inv(st) && Enabled(st, DoBuild(outcome))
    ensures var st' := Apply(st, DoBuild(outcome)); var r, previous := |st.fleet.runtimes|, st.fleet.current;
            match outcome
            case FactoryRaised => st' == st.(lock := Free)
            case CommitRaised =>
              && st'.fleet.unpublished == st.fleet.unpublished + {r} && st'.lock == Discarding(r)
              && st'.fleet.generations == st.fleet.generations && st'.use == st.use
            case Committed =>
              && previous in st.fleet.generations && previous in st'.fleet.generations
              && st'.use.refresh == Scheduled(st'.fleet.current) && st'.fleet.current == st.fleet.nextId
              && (if st.fleet.generations[previous].leases == 0
                  then st'.lock.ClosingPrevious? && st'.fleet.generations[previous].cleaning
                  else st'.lock.Free? && !st'.fleet.generations[previous].cleaning)
  {
    assert Sound(st.fleet.generations[st.fleet.current], true, st.fleet.current in st.fleet.retired);
  }

  /** The end of a cleanup: a generation or unpublished runtime is forgotten if it succeeded, and kept otherwise. */
  lemma CleanupOutcome(st: State, g: nat, ok: bool)
    requires Inv(st) && Enabled(st, DoEndCleanup(g, ok))
    ensures var st' := Apply(st, DoEndCleanup(g, ok));
            && g in st'.fleet.generations && !st'.fleet.generations[g].cleaning
            && (st'.fleet.generations[g].closed <==> ok) && (g in st'.fleet.retired <==> !ok)
            && st'.use == st.use && st'.lock == st.lock && st'.closer == st.closer
  {
    assert Sound(st.fleet.generations[g], g == st.fleet.current, g in st.fleet.retired);
  }

  /** The unpublished runtime whose cleanup ends in this step. */
  function Swept(st: State, a: Step): Option<nat> {
    if a.DoEndSweep? && st.lock.Sweeping? then Some(st.lock.runtime)
    else if a.DoEndDiscard? && st.lock.Discarding? then Some(st.lock.runtime)
    else if a.DoEndFinalSweep? && st.closer.Finishing? then st.closer.sweeping
    else None
  }

  /** It is forgotten, and counted as cleaned up, exactly if that succeeded. */
  lemma SweepOutcome(st: State, a: Step)
    requires Inv(st) && Enabled(st, a)
    ensures a.DoEndSweep? || a.DoEndDiscard? || a.DoEndFinalSweep? ==> Swept(st, a).Some?
    ensures Swept(st, a).Some? ==>
              var r, f, f' := Swept(st, a).value, st.fleet, Apply(st, a).fleet;
              && r in f.unpublished && r < |f.runtimes|
              && f'.unpublished == (if a.ok then f.unpublished - {r} else f.unpublished)
              && f'.runtimes == f.runtimes[r := f.runtimes[r].(
                                           cleanups := f.runtimes[r].cleanups + if a.ok then 1 else 0)]
              && f'.generations == f.generations && Apply(st, a).use == st.use
  {
  }

  /** A sweep begins with the runtime it is for. */
  lemma SweepBegins(st: State, r: nat)
    ensures Enabled(st, DoBeginSweep(r)) ==> Apply(st, DoBeginSweep(r)) == st.(lock := Sweeping(r))
    ensures Enabled(st, DoBeginFinalSweep(r)) ==>
              var closer := Apply(st, DoBeginFinalSweep(r)).closer;
              closer.Finishing? && closer.sweeping == Some(r) && closer.todo == st.closer.todo - {r}
  {
  }

  // --- The lock is always given back ---

  /** Two runs one after the other. */
  lemma {:induction false} Concatenate(st: State, first: seq<Step>, rest: seq<Step>)
    requires Runnable(st, first) && Runnable(Run(st, first), rest)
    ensures Runnable(st, first + rest) && Run(st, first + rest) == Run(Run(st, first), rest)
    decreases |first|
  {
    if first == [] {
      assert first + rest == rest;
    } else {
      assert (first + rest)[1..] == first[1..] + rest;
      Concatenate(Apply(st, first[0]), first[1..], rest);
    }
  }

  lemma OneStep(st: State, a: Step)
    requires Inv(st) && Enabled(st, a)
    ensures Runnable(st, [a]) && Run(st, [a]) == Apply(st, a) && Inv(Apply(st, a)) && WellFormed(Apply(st, a))
  {
    assert [a][1..] == [];
    StepKeepsInv(st, a);
    Theorems.InvIsWellFormed(Apply(st, a));
  }

  /** The step by which the holder of the lock gets nearer to giving it back. */
  function Onward(lock: Lock): Step {
    match lock
    case Sweeping(_) => DoEndSweep(false)
    case Discarding(_) => DoEndDiscard(false)
    case Refreshing => DoEndExplicitRefresh
    case Connecting => DoEndConnect
    case Closing => DoAbortClose
    case _ => DoEndReplace
  }

  /** Whoever holds the replace lock gives it back in at most two steps. */
  lemma LockIsGivenBack(st: State) returns (run: seq<Step>)
    requires Inv(st)
    ensures Runnable(st, run) && Inv(Run(st, run)) && |run| <= 2
    ensures Run(st, run).lock.Free? && Run(st, run).closed == st.closed
  {
    Theorems.InvIsWellFormed(st);
    run := [];
    if !st.lock.Free? {
      var a := Onward(st.lock);
      OneStep(st, a);
      run := [a];
      if st.lock.Sweeping? {
        OneStep(Apply(st, a), DoEndReplace);
        Concatenate(st, [a], [DoEndReplace]);
        run := [a] + [DoEndReplace];
      }
    }
  }

  // --- Everything drains ---

  /** A use of the generation that can end now. */
  lemma SomeUserLeaves(st: State, g: nat) returns (a: Step)
    requires Inv(st) && WellFormed(st) && st.closer.Draining? && g in st.fleet.generations
    requires st.fleet.generations[g].leases > 0
    ensures Enabled(st, a)
    ensures var st' := Apply(st, a);
            && st'.closer == st.closer && g in st'.fleet.generations
            && st'.fleet.generations[g].leases == st.fleet.generations[g].leases - 1
            && forall h :: h in st.fleet.generations && h != g ==>
                             h in st'.fleet.generations && st'.fleet.generations[h] == st.fleet.generations[h]
  {
    if Count(st.use.orphans, g) > 0 {
      a := DoEndOrphan(g);
    } else {
      assert LeasesOn(st.use.leases, g) != {};
      var l :| l in LeasesOn(st.use.leases, g);
      a := DoReleaseLease(l);
    }
  }

  lemma {:induction false} OneDrains(st: State, g: nat) returns (run: seq<Step>)
    requires Inv(st) && st.closer.Draining? && g in st.fleet.generations
    ensures Runnable(st, run) && Inv(Run(st, run))
    ensures var st' := Run(st, run);
            && st'.closer == st.closer && g in st'.fleet.generations && st'.fleet.generations[g].leases == 0
            && forall h :: h in st.fleet.generations && h != g ==>
                             h in st'.fleet.generations && st'.fleet.generations[h] == st.fleet.generations[h]
    decreases st.fleet.generations[g].leases
  {
    run := [];
    if st.fleet.generations[g].leases > 0 {
      Theorems.InvIsWellFormed(st);
      var a := SomeUserLeaves(st, g);
      OneStep(st, a);
      var rest := OneDrains(Apply(st, a), g);
      Concatenate(st, [a], rest);
      run := [a] + rest;
    }
  }

  lemma {:induction false} AllDrain(st: State, todo: set<nat>) returns (run: seq<Step>)
    requires Inv(st) && st.closer.Draining? && todo <= st.closer.snapshot
    requires forall g :: g in st.closer.snapshot - todo && g in st.fleet.generations ==>
                           st.fleet.generations[g].leases == 0
    ensures Runnable(st, run) && Inv(Run(st, run)) && Enabled(Run(st, run), DoDrained)
    decreases todo
  {
    Theorems.InvIsWellFormed(st);
    if todo == {} {
      run := [];
      forall g | g in st.closer.snapshot ensures st.fleet.generations[g].drained {
        assert Sound(st.fleet.generations[g], g == st.fleet.current, g in st.fleet.retired);
      }
    } else {
      var g :| g in todo;
      var first := OneDrains(st, g);
      var st' := Run(st, first);
      forall h | h in st'.closer.snapshot - (todo - {g}) && h in st'.fleet.generations
        ensures st'.fleet.generations[h].leases == 0
      {
        assert h in st.closer.snapshot;
      }
      var rest := AllDrain(st', todo - {g});
      Concatenate(st, first, rest);
      run := first + rest;
    }
  }

  // --- Everything is cleaned up ---

  lemma {:induction false} SweepsFinish(st: State) returns (run: seq<Step>)
    requires Inv(st) && st.closer.Finishing? && st.closer.allClosed
    ensures Runnable(st, run) && Run(st, run).closed
    decreases st.closer.todo, st.closer.sweeping.Some?
  {
    Theorems.InvIsWellFormed(st);
    var a;
    if st.closer.sweeping.Some? {
      a := DoEndFinalSweep(true);
    } else if st.closer.todo == {} {
      a := DoFinishClose;
    } else {
      var r :| r in st.closer.todo;
      a := DoBeginFinalSweep(r);
    }
    OneStep(st, a);
    var rest := [];
    if !a.DoFinishClose? { rest := SweepsFinish(Apply(st, a)); }
    Concatenate(st, [a], rest);
    run := [a] + rest;
  }

  function Cleaning(f: Fleet): set<nat> { set g | g in f.generations && f.generations[g].cleaning }

  lemma {:induction false} CollectionFinishes(st: State) returns (run: seq<Step>)
    requires Inv(st) && st.closer.Collecting? && AllTakenCareOf(st)
    ensures Runnable(st, run) && Run(st, run).closed
    decreases st.closer.todo, Cleaning(st.fleet)
  {
    Theorems.InvIsWellFormed(st);
    var a := NextOfCollection(st);
    OneStep(st, a);
    var rest;
    if a.DoCollected? {
      CollectedDecides(st);
      rest := SweepsFinish(Apply(st, a));
    } else {
      rest := CollectionFinishes(Apply(st, a));
    }
    Concatenate(st, [a], rest);
    run := [a] + rest;
  }

  /** Cleanups that run succeed; then the next generation is collected, if there is one. */
  lemma NextOfCollection(st: State) returns (a: Step)
    requires Inv(st) && WellFormed(st) && st.closer.Collecting? && AllTakenCareOf(st)
    ensures Enabled(st, a) && (a.DoCollected? || a.DoCollectOne? || a.DoEndCleanup?)
    ensures !a.DoCollected? ==> var st' := Apply(st, a);
              && st'.closer.Collecting? && AllTakenCareOf(st')
              && (st'.closer.todo < st.closer.todo
                  || (st'.closer.todo == st.closer.todo && Cleaning(st'.fleet) < Cleaning(st.fleet)))
  {
    if Cleaning(st.fleet) != {} {
      var g :| g in Cleaning(st.fleet);
      a := DoEndCleanup(g, true);
      assert g !in Cleaning(Apply(st, a).fleet);
    } else if st.closer.todo != {} {
      var g :| g in st.closer.todo;
      a := DoCollectOne(g);
    } else {
      a := DoCollected;
    }
    if !a.DoCollected? {
      StepOnCollecting(st, a);
      var st' := Apply(st, a);
      forall g | g in st'.closer.snapshot && g !in st'.closer.todo && g in st'.fleet.generations
        ensures TakenCareOf(st'.fleet.generations[g])
      {
        StepOnSnapshot(st, a, g);
      }
    }
  }

  // --- So the manager can always be closed ---

  lemma CloseFinishes(st: State) returns (run: seq<Step>)
    requires Inv(st) && st.closer.Draining?
    ensures Runnable(st, run) && Run(st, run).closed
  {
    var drain := AllDrain(st, st.closer.snapshot);
    var drained := Run(st, drain);
    OneStep(drained, DoDrained);
    var rest := CollectionFinishes(Apply(drained, DoDrained));
    Concatenate(drained, [DoDrained], rest);
    Concatenate(st, drain, [DoDrained] + rest);
    run := drain + ([DoDrained] + rest);
  }

  lemma NextCloseBegins(st: State) returns (run: seq<Step>)
    requires Inv(st) && st.lock.Free? && !st.closed && st.closer.Outside?
    ensures Runnable(st, run) && Inv(Run(st, run)) && Run(st, run).closer.Draining?
  {
    Theorems.InvIsWellFormed(st);
    OneStep(st, DoBeginClose);
    var begun := Apply(st, DoBeginClose);
    OneStep(begun, DoRetireCurrent);
    Concatenate(st, [DoBeginClose], [DoRetireCurrent]);
    run := [DoBeginClose] + [DoRetireCurrent];
  }

  /** A close that is under way may be cancelled, and another one begins. */
  lemma CloseBegins(st: State) returns (run: seq<Step>)
    requires Inv(st) && st.lock.Free? && !st.closed
    ensures Runnable(st, run) && Inv(Run(st, run)) && Run(st, run).closer.Draining?
  {
    if st.closer.Outside? {
      run := NextCloseBegins(st);
    } else {
      Theorems.InvIsWellFormed(st);
      OneStep(st, DoAbortClose);
      var rest := NextCloseBegins(Apply(st, DoAbortClose));
      Concatenate(st, [DoAbortClose], rest);
      run := [DoAbortClose] + rest;
    }
  }

  /**
   Nothing gets stuck: whatever replacements, refreshes, failures and cancelled closes came before, from every
   reachable state the manager can still be closed.
   */
  lemma CanAlwaysClose(before: seq<Step>) returns (run: seq<Step>)
    requires Runnable(Init(), before)
    ensures Runnable(Init(), before + run) && Run(Init(), before + run).closed
  {
    InitHolds();
    Theorems.RunKeepsInv(Init(), before);
    var st := Run(Init(), before);
    run := [];
    if !st.closed {
      var free := LockIsGivenBack(st);
      var begin := CloseBegins(Run(st, free));
      var finish := CloseFinishes(Run(Run(st, free), begin));
      Concatenate(st, free, begin);
      Concatenate(st, free + begin, finish);
      run := free + begin + finish;
    }
    Concatenate(Init(), before, run);
  }
}
