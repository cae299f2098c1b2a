/**
 The protocol of runtime/provider_manager.py as a transition system. A step is the code between
 two awaits. Waiting for a cancelled refresh to finish is left out: here it may still be running
 when its canceller goes on, which allows more runs than the program has.
 */
module GenerationModel {
  import opened Options

  // --- Generations and runtimes ---

  /** `runtime` is the runtime the factory made for the generation; `cleaning` says its cleanup task runs. */
  datatype Generation =
    Generation(runtime: nat, leases: nat, retired: bool, closed: bool, drained: bool, cleaning: bool)

  /** How often the runtime's cleanup succeeded, and the generation that published it, if one did. */
  datatype Runtime = Runtime(cleanups: nat, home: Option<nat>)

  /**
   The generations ever published by id, the keys of `_retired`, and the unpublished runtimes.
   `runtimes` is ghost: one entry for each runtime the factory ever made, in that order.
   */
  datatype Fleet = Fleet(generations: map<nat, Generation>, current: nat, nextId: nat, retired: set<nat>,
                         unpublished: set<nat>, runtimes: seq<Runtime>)

  function Put(f: Fleet, g: nat, x: Generation): Fleet { f.(generations := f.generations[g := x]) }

  /** A lease or refresh starts to use the generation. */
  function Retained(x: Generation): Generation { x.(leases := x.leases + 1, drained := false) }

  /** _close_generation, up to the await of its task. */
  function Started(x: Generation): Generation {
    if x.closed || x.leases != 0 || x.cleaning then x else x.(cleaning := true)
  }

  /** _release, which closes a drained retired generation unless close will do it. */
  function Released(x: Generation, closing: bool): Generation {
    if x.leases == 0 then x
    else
      var y := x.(leases := x.leases - 1, drained := x.drained || x.leases == 1);
      if y.leases == 0 && y.retired && !closing then Started(y) else y
  }

  /** The cleanup task is done. */
  function Ended(x: Generation, ok: bool): Generation {
    x.(cleaning := false, closed := x.closed || ok)
  }

  function Retain(f: Fleet, g: nat): Fleet
    requires g in f.generations
  {
    Put(f, g, Retained(f.generations[g]))
  }

  function StartCleanup(f: Fleet, g: nat): Fleet
    requires g in f.generations
  {
    Put(f, g, Started(f.generations[g]))
  }

  function Release(f: Fleet, g: nat, closing: bool): Fleet
    requires g in f.generations
  {
    Put(f, g, Released(f.generations[g], closing))
  }

  function Cleaned(runtimes: seq<Runtime>, r: nat): seq<Runtime>
    requires r < |runtimes|
  {
    runtimes[r := runtimes[r].(cleanups := runtimes[r].cleanups + 1)]
  }

  /** _run_generation_cleanup after runtime.cleanup() returned, failed or was cancelled. */
  function EndCleanup(f: Fleet, g: nat, ok: bool): Fleet
    requires g in f.generations && f.generations[g].runtime < |f.runtimes|
  {
    var f' := Put(f, g, Ended(f.generations[g], ok));
    if ok then f'.(retired := f.retired - {g}, runtimes := Cleaned(f.runtimes, f.generations[g].runtime)) else f'
  }

  /** _cleanup_unpublished after runtime.cleanup() returned, failed or was cancelled. */
  function EndSweep(f: Fleet, r: nat, ok: bool): Fleet
    requires r < |f.runtimes|
  {
    if ok then f.(unpublished := f.unpublished - {r}, runtimes := Cleaned(f.runtimes, r)) else f
  }

  /** The candidate was built but its commit raised. */
  function Discard(f: Fleet): Fleet {
    f.(runtimes := f.runtimes + [Runtime(0, None)], unpublished := f.unpublished + {|f.runtimes|})
  }

  /** The current generation is marked and listed as retired. */
  function Shelve(f: Fleet): Fleet
    requires f.current in f.generations
  {
    Put(f, f.current, f.generations[f.current].(retired := true)).(retired := f.retired + {f.current})
  }

  /** A new runtime, in a generation with the next id, becomes current. */
  function Install(f: Fleet): Fleet {
    var g, r := f.nextId, |f.runtimes|;
    Put(f, g, Generation(r, 0, false, false, true, false))
      .(current := g, nextId := g + 1, runtimes := f.runtimes + [Runtime(0, Some(g))])
  }

  /** The candidate becomes current, and the previous generation retires. */
  function Publish(f: Fleet): Fleet
    requires f.current in f.generations
  {
    Install(Shelve(f))
  }

  /** close retires the current generation once. */
  function Retire(f: Fleet): Fleet
    requires f.current in f.generations
  {
    if f.generations[f.current].retired then f else Shelve(f)
  }

  // --- Users ---

  /** A lease handed out by `acquire`: the generation it retains, and whether it was released. */
  datatype Lease = Lease(generation: nat, released: bool)

  /** The background refresh the manager still refers to. */
  datatype Refresh = NoRefresh | Scheduled(generation: nat) | Running(generation: nat)

  /** `orphans` counts, per generation, the cancelled background refreshes that have not finished. */
  datatype Use = Use(leases: map<Lid, Lease>, refresh: Refresh, orphans: map<nat, nat>, explicitRefresh: Option<nat>)

  function Count(orphans: map<nat, nat>, g: nat): nat { if g in orphans then orphans[g] else 0 }

  function CancelRefresh(u: Use): Use {
    match u.refresh
    case Running(g) => u.(refresh := NoRefresh, orphans := u.orphans[g := Count(u.orphans, g) + 1])
    case _ => u.(refresh := NoRefresh)
  }

  /** The mutable record of one published generation. */
  class ProviderGeneration {
    const generationId: nat
    const runtime: nat
    var activeLeases: nat
    var retired: bool
    var closed: bool
    var drained: bool
    var cleaning: bool

    ghost function View(): Generation
      reads this
    {
      Generation(runtime, activeLeases, retired, closed, drained, cleaning)
    }

    constructor (generationId: nat, runtime: nat)
      ensures this.generationId == generationId
      ensures View() == Generation(runtime, 0, false, false, true, false)
    {
      this.generationId, this.runtime := generationId, runtime;
      activeLeases, retired, closed, drained, cleaning := 0, false, false, true, false;
    }

    /** A use of the generation begins. */
    method Retain()
      modifies this
      ensures View() == Retained(old(View()))
    {
      activeLeases, drained := activeLeases + 1, false;
    }

    /** _close_generation, up to the await of the cleanup task. */
    method StartCleanup()
      modifies this`cleaning
      ensures View() == Started(old(View()))
      ensures cleaning <==> old(cleaning) || (!closed && activeLeases == 0)
    {
      if !closed && activeLeases == 0 && !cleaning {
        cleaning := true;
      }
    }

    /** _run_generation_cleanup, after runtime.cleanup() ended. */
    method EndCleanup(ok: bool)
      modifies `cleaning, `closed
      ensures View() == Ended(old(View()), ok)
    {
      cleaning := false;
      if ok {
        closed := true;
      }
    }

    /** _release; `closing` says that close will do the cleanup. */
    method Release(closing: bool)
      modifies this
      ensures View() == Released(old(View()), closing)
    {
      if activeLeases > 0 {
        activeLeases := activeLeases - 1;
        if activeLeases == 0 {
          drained := true;
          if retired && !closing {
            StartCleanup();
          }
        }
      }
    }
  }

  /** An idempotent lease on one generation. The model uses the object as an identity only. */
  class ProviderGenerationLease {
    const generation: ProviderGeneration
    var released: bool

    ghost function View(): Lease
      reads this
    {
      Lease(generation.generationId, released)
    }

    constructor (generation: ProviderGeneration)
      ensures this.generation == generation && !released
    {
      this.generation, released := generation, false;
    }
  }

  type Lid = ProviderGenerationLease

  // --- The manager ---

  /** Who holds _replace_lock, and where it is suspended. */
  datatype Lock =
    | Free
    | Replacing                     // replace, between two cleanups of unpublished runtimes
    | Sweeping(runtime: nat)        // replace, awaiting one of them
    | Discarding(runtime: nat)      // replace, awaiting the cleanup of its own failed candidate
    | ClosingPrevious               // replace, awaiting the cleanup of the generation it retired
    | Refreshing                    // refresh_model_list_cache
    | Connecting                    // connected_provider_changed
    | Closing                       // close, before it retires the current generation

  /** close after it gave the replace lock back. */
  datatype Closer =
    | Outside
    | Draining(snapshot: set<nat>)
    | Collecting(snapshot: set<nat>, todo: set<nat>)
    | Finishing(todo: set<nat>, sweeping: Option<nat>, allClosed: bool)

  datatype State = State(fleet: Fleet, use: Use, closing: bool, closed: bool, lock: Lock, closer: Closer)

  function Init(): State {
    State(Fleet(map[1 := Generation(0, 0, false, false, true, false)], 1, 2, {}, {}, [Runtime(0, Some(1))]),
          Use(map[], NoRefresh, map[], None), false, false, Free, Outside)
  }

  datatype Build = FactoryRaised | CommitRaised | Committed

  datatype Step =
    | DoAcquire(l: Lid)
    | DoReleaseLease(l: Lid)
    | DoEndCleanup(g: nat, ok: bool)
    | DoStartRefresh
    | DoRunRefresh
    | DoEndRefresh
    | DoEndOrphan(g: nat)
    | DoBeginReplace
    | DoBeginSweep(r: nat)
    | DoEndSweep(ok: bool)
    | DoBuild(outcome: Build)
    | DoEndDiscard(ok: bool)
    | DoEndReplace
    | DoBeginExplicitRefresh
    | DoEndExplicitRefresh
    | DoBeginConnect
    | DoEndConnect
    | DoBeginClose
    | DoRetireCurrent
    | DoDrained
    | DoCollectOne(g: nat)
    | DoCollected
    | DoBeginFinalSweep(r: nat)
    | DoEndFinalSweep(ok: bool)
    | DoFinishClose
    | DoAbortClose

  /** All ids an object of the protocol refers to are known; every reachable state is of this form. */
  ghost predicate WellFormed(st: State) {
    && st.fleet.current in st.fleet.generations
    && (forall g :: g in st.fleet.generations ==> st.fleet.generations[g].runtime < |st.fleet.runtimes|)
    && (forall r :: r in st.fleet.unpublished ==> r < |st.fleet.runtimes|)
    && (forall l :: l in st.use.leases ==> st.use.leases[l].generation in st.fleet.generations)
    && (!st.use.refresh.NoRefresh? ==> st.use.refresh.generation in st.fleet.generations)
    && (forall g :: g in st.use.orphans ==> g in st.fleet.generations)
    && (st.use.explicitRefresh.Some? ==> st.use.explicitRefresh.value in st.fleet.generations)
    && (st.lock.Sweeping? || st.lock.Discarding? ==> st.lock.runtime in st.fleet.unpublished)
    && (st.closer.Draining? || st.closer.Collecting? ==> st.closer.snapshot <= st.fleet.generations.Keys)
    && (st.closer.Collecting? ==> st.closer.todo <= st.closer.snapshot)
    && (st.closer.Finishing? ==> st.closer.todo <= st.fleet.unpublished)
    && (st.closer.Finishing? && st.closer.sweeping.Some? ==> st.closer.sweeping.value in st.fleet.unpublished)
  }

  ghost predicate Enabled(st: State, a: Step) {
    && WellFormed(st)
    && match a
       case DoAcquire(l) => l !in st.use.leases
       case DoReleaseLease(l) => l in st.use.leases
       case DoEndCleanup(g, _) => g in st.fleet.generations && st.fleet.generations[g].cleaning
       case DoStartRefresh => st.lock.Free?
       case DoRunRefresh => st.use.refresh.Scheduled?
       case DoEndRefresh => st.use.refresh.Running?
       case DoEndOrphan(g) => Count(st.use.orphans, g) > 0
       case DoBeginReplace => st.lock.Free?
       case DoBeginSweep(r) => st.lock.Replacing? && r in st.fleet.unpublished
       case DoEndSweep(_) => st.lock.Sweeping?
       case DoBuild(_) => st.lock.Replacing?
       case DoEndDiscard(_) => st.lock.Discarding?
       case DoEndReplace => st.lock.ClosingPrevious? || st.lock.Replacing?
       case DoBeginExplicitRefresh => st.lock.Free?
       case DoEndExplicitRefresh => st.lock.Refreshing? && st.use.explicitRefresh.Some?
       case DoBeginConnect => st.lock.Free?
       case DoEndConnect => st.lock.Connecting?
       case DoBeginClose => st.lock.Free? && st.closer.Outside?
       case DoRetireCurrent => st.lock.Closing?
       case DoDrained => st.closer.Draining? && forall g :: g in st.closer.snapshot ==> st.fleet.generations[g].drained
       case DoCollectOne(g) => st.closer.Collecting? && g in st.closer.todo
       case DoCollected => st.closer.Collecting? && st.closer.todo == {}
                           && forall g :: g in st.closer.snapshot ==> !st.fleet.generations[g].cleaning
       case DoBeginFinalSweep(r) => st.closer.Finishing? && st.closer.sweeping.None? && r in st.closer.todo
       case DoEndFinalSweep(_) => st.closer.Finishing? && st.closer.sweeping.Some?
       case DoFinishClose => st.closer.Finishing? && st.closer.sweeping.None? && st.closer.todo == {}
       case DoAbortClose => st.lock.Closing? || !st.closer.Outside?
  }

  function Acquire(st: State, l: Lid): State
    requires st.fleet.current in st.fleet.generations
  {
    if st.closing || st.closed then st
    else st.(fleet := Retain(st.fleet, st.fleet.current),
             use := st.use.(leases := st.use.leases[l := Lease(st.fleet.current, false)]))
  }

  /** ProviderGenerationLease.release: only the first call has an effect. */
  function ReleaseLease(st: State, l: Lid): State
    requires l in st.use.leases && st.use.leases[l].generation in st.fleet.generations
  {
    var x := st.use.leases[l];
    if x.released then st
    else st.(fleet := Release(st.fleet, x.generation, st.closing),
             use := st.use.(leases := st.use.leases[l := x.(released := true)]))
  }

  function StartRefresh(st: State): State {
    if st.closing || st.closed || !st.use.refresh.NoRefresh? then st
    else st.(use := st.use.(refresh := Scheduled(st.fleet.current)))
  }

  /** The refresh task runs for the first time. */
  function RunRefresh(st: State): State
    requires st.use.refresh.Scheduled? && st.use.refresh.generation in st.fleet.generations
  {
    var g := st.use.refresh.generation;
    if st.fleet.generations[g].closed then st.(use := st.use.(refresh := NoRefresh))
    else st.(fleet := Retain(st.fleet, g), use := st.use.(refresh := Running(g)))
  }

  function EndRefresh(st: State): State
    requires st.use.refresh.Running? && st.use.refresh.generation in st.fleet.generations
  {
    st.(fleet := Release(st.fleet, st.use.refresh.generation, st.closing), use := st.use.(refresh := NoRefresh))
  }

  function EndOrphan(st: State, g: nat): State
    requires Count(st.use.orphans, g) > 0 && g in st.fleet.generations
  {
    st.(fleet := Release(st.fleet, g, st.closing),
        use := st.use.(orphans := st.use.orphans[g := Count(st.use.orphans, g) - 1]))
  }

  function BeginReplace(st: State): State {
    if st.closing || st.closed then st else st.(use := CancelRefresh(st.use), lock := Replacing)
  }

  /** From the call of the factory to the next await of replace. */
  function BuildCandidate(st: State, outcome: Build): State
    requires st.fleet.current in st.fleet.generations
  {
    match outcome
    case FactoryRaised => st.(lock := Free)
    case CommitRaised => st.(fleet := Discard(st.fleet), lock := Discarding(|st.fleet.runtimes|))
    case Committed =>
      // a generation still in use is left to the release of its last user: Started changes nothing then
      st.(fleet := RetirePrevious(st.fleet),
          use := st.use.(refresh := Scheduled(st.fleet.nextId)),
          lock := if st.fleet.generations[st.fleet.current].leases == 0 then ClosingPrevious else Free)
  }

  function RetirePrevious(f: Fleet): Fleet
    requires f.current in f.generations
  {
    StartCleanup(Publish(f), f.current)
  }

  function BeginExplicitRefresh(st: State): State
    requires st.fleet.current in st.fleet.generations
  {
    if st.closing || st.closed then st
    else if st.fleet.generations[st.fleet.current].closed then st.(use := CancelRefresh(st.use))
    else st.(fleet := Retain(st.fleet, st.fleet.current),
             use := CancelRefresh(st.use).(explicitRefresh := Some(st.fleet.current)), lock := Refreshing)
  }

  function EndExplicitRefresh(st: State): State
    requires st.use.explicitRefresh.Some? && st.use.explicitRefresh.value in st.fleet.generations
  {
    st.(fleet := Release(st.fleet, st.use.explicitRefresh.value, st.closing),
        use := st.use.(explicitRefresh := None), lock := Free)
  }

  function BeginClose(st: State): State {
    if st.closed then st else st.(use := CancelRefresh(st.use), closing := true, lock := Closing)
  }

  /** close retires the current generation, takes its snapshot, and gives the replace lock back. */
  function RetireCurrent(st: State): State
    requires st.fleet.current in st.fleet.generations
  {
    var f := Retire(st.fleet);
    st.(fleet := f, lock := Free, closer := Draining(f.retired))
  }

  /** gather has all results: a generation counts as closed if its cleanup succeeded now or before. */
  function Collected(st: State): State
    requires st.closer.Collecting? && st.closer.snapshot <= st.fleet.generations.Keys
  {
    var allClosed := forall g | g in st.closer.snapshot :: st.fleet.generations[g].closed;
    st.(closer := Finishing(st.fleet.unpublished, None, allClosed))
  }

  function EndFinalSweep(st: State, ok: bool): State
    requires st.closer.Finishing? && st.closer.sweeping.Some? && st.closer.sweeping.value < |st.fleet.runtimes|
  {
    st.(fleet := EndSweep(st.fleet, st.closer.sweeping.value, ok),
        closer := Finishing(st.closer.todo, None, st.closer.allClosed && ok))
  }

  ghost function Apply(st: State, a: Step): State
    requires Enabled(st, a)
  {
    match a
    case DoAcquire(l) => Acquire(st, l)
    case DoReleaseLease(l) => ReleaseLease(st, l)
    case DoEndCleanup(g, ok) => st.(fleet := EndCleanup(st.fleet, g, ok))
    case DoStartRefresh => StartRefresh(st)
    case DoRunRefresh => RunRefresh(st)
    case DoEndRefresh => EndRefresh(st)
    case DoEndOrphan(g) => EndOrphan(st, g)
    case DoBeginReplace => BeginReplace(st)
    case DoBeginSweep(r) => st.(lock := Sweeping(r))
    case DoEndSweep(ok) => st.(fleet := EndSweep(st.fleet, st.lock.runtime, ok), lock := Replacing)
    case DoBuild(outcome) => BuildCandidate(st, outcome)
    case DoEndDiscard(ok) => st.(fleet := EndSweep(st.fleet, st.lock.runtime, ok), lock := Free)
    case DoEndReplace => st.(lock := Free)
    case DoBeginExplicitRefresh => BeginExplicitRefresh(st)
    case DoEndExplicitRefresh => EndExplicitRefresh(st)
    case DoBeginConnect => if st.closing || st.closed then st else st.(lock := Connecting)
    case DoEndConnect => st.(lock := Free)
    case DoBeginClose => BeginClose(st)
    case DoRetireCurrent => RetireCurrent(st)
    case DoDrained => st.(closer := Collecting(st.closer.snapshot, st.closer.snapshot))
    case DoCollectOne(g) =>
      st.(fleet := StartCleanup(st.fleet, g), closer := Collecting(st.closer.snapshot, st.closer.todo - {g}))
    case DoCollected => Collected(st)
    case DoBeginFinalSweep(r) => st.(closer := Finishing(st.closer.todo - {r}, Some(r), st.closer.allClosed))
    case DoEndFinalSweep(ok) => EndFinalSweep(st, ok)
    // close returns, or raises because something failed to close
    case DoFinishClose => st.(closer := Outside, closed := st.closer.allClosed)
    // close is cancelled at one of its awaits
    case DoAbortClose => st.(closer := Outside, lock := if st.lock.Closing? then Free else st.lock)
  }

  ghost predicate Runnable(st: State, run: seq<Step>)
    decreases |run|
  {
    run == [] || (Enabled(st, run[0]) && Runnable(Apply(st, run[0]), run[1..]))
  }

  ghost function Run(st: State, run: seq<Step>): State
    requires Runnable(st, run)
    decreases |run|
  {
    if run == [] then st else Run(Apply(st, run[0]), run[1..])
  }

  /** Runs grow at their end. */
  lemma {:induction false} RunGrows(st: State, run: seq<Step>, a: Step)
    requires Runnable(st, run) && Enabled(Run(st, run), a)
    ensures Runnable(st, run + [a]) && Run(st, run + [a]) == Apply(Run(st, run), a)
    decreases |run|
  {
    if run == [] {
      assert [a][1..] == [];
      assert run + [a] == [a];
    } else {
      assert (run + [a])[1..] == run[1..] + [a];
      RunGrows(Apply(st, run[0]), run[1..], a);
    }
  }
}
