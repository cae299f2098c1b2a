/**
 The objects of runtime/provider_manager.py. As in the transition system, a method is the code
 between two awaits; the local variables a coroutine keeps across an await are its parameters.
 The ghost fields are the rest of the abstract state: `Coupled` ties every object to it, `Valid` says
 that a recorded run of the protocol leads to it, and each method takes the step it names.
 */
module ProviderManager {
  import opened Options
  import opened GenerationModel
  import Safety = GenerationSafety
  import Theorems = GenerationTheorems

  class ProviderRuntimeManager {
    var current: ProviderGeneration
    var nextGenerationId: nat
    var retired: map<nat, ProviderGeneration>
    var unpublished: set<nat>
    var refresh: Refresh
    var closing: bool
    var closed: bool
    ghost var published: map<nat, ProviderGeneration>
    ghost var fleet: Fleet
    ghost var leases: map<Lid, Lease>
    ghost var orphans: map<nat, nat>
    ghost var explicitRefresh: Option<nat>
    ghost var lock: Lock
    ghost var closer: Closer
    ghost var history: seq<Step>

    ghost function View(): State
      reads `refresh, `closing, `closed, `fleet, `leases, `orphans, `explicitRefresh, `lock, `closer
    {
      State(fleet, Use(leases, refresh, orphans, explicitRefresh), closing, closed, lock, closer)
    }

    ghost predicate Has(generation: ProviderGeneration)
      reads `published
    {
      generation.generationId in published && published[generation.generationId] == generation
    }

    static ghost predicate GenerationsCoupled(objects: map<nat, ProviderGeneration>, generations: map<nat, Generation>)
      reads objects.Values
    {
      && objects.Keys == generations.Keys
      && forall g :: g in objects ==> objects[g].generationId == g && objects[g].View() == generations[g]
    }

    ghost predicate FieldsCoupled(f: Fleet)
      reads `current, `published, `nextGenerationId, `retired, `unpublished
    {
      && Has(current) && current.generationId == f.current
      && nextGenerationId == f.nextId
      && retired.Keys == f.retired
      && (forall g :: g in retired ==> g in published && retired[g] == published[g])
      && (forall g :: g in published ==> g < nextGenerationId)
      && unpublished == f.unpublished
    }

    ghost predicate LeasesCoupled()
      reads `published, `leases, leases.Keys
    {
      forall l :: l in leases ==> l.View() == leases[l] && Has(l.generation)
    }

    /** Every object is as the abstract state has it. */
    ghost predicate Coupled()
      reads `current, `published, `nextGenerationId, `retired, `unpublished, `fleet, `leases
      reads published.Values, leases.Keys
    {
      FleetCoupled() && LeasesCoupled()
    }

    ghost predicate FleetCoupled()
      reads `current, `published, `nextGenerationId, `retired, `unpublished, `fleet, published.Values
    {
      GenerationsCoupled(published, fleet.generations) && FieldsCoupled(fleet)
    }

    /** The recorded run of the protocol leads to this state. */
    ghost predicate Reached(st: State)
      reads `history
    {
      Runnable(Init(), history) && st == Run(Init(), history)
    }

    ghost predicate Valid()
      reads this, published.Values, leases.Keys
    {
      Coupled() && Reached(View())
    }

    /** So everything proved of reachable states holds of the object. */
    lemma Reachable()
      requires Valid()
      ensures Safety.Inv(View())
    {
      Safety.InitHolds();
      Theorems.RunKeepsInv(Init(), history);
    }

    lemma Ready()
      requires Valid()
      ensures WellFormed(View())
    {
      Theorems.ReachableIsWellFormed(history);
    }

    /** The manager has taken step `a` of the protocol, and only that. */
    twostate predicate Took(new a: Step)
      reads this, published.Values, leases.Keys
    {
      && Valid()
      && Enabled(old(View()), a)
      && View() == Apply(old(View()), a)
      && history == old(history) + [a]
    }

    ghost method Record(before: State, a: Step)
      requires Coupled() && Reached(before)
      requires Enabled(before, a) && View() == Apply(before, a)
      modifies `history
      ensures Valid() && history == old(history) + [a]
    {
      hide FleetCoupled, LeasesCoupled, Apply;
      RunGrows(Init(), history, a);
      history := history + [a];
    }

    lemma Seen(generation: ProviderGeneration)
      requires FleetCoupled() && Has(generation)
      ensures generation.generationId in fleet.generations
      ensures fleet.generations[generation.generationId] == generation.View()
    {
    }

    lemma CurrentSeen()
      requires FleetCoupled()
      ensures Has(current) && current.generationId == fleet.current && fleet.current in fleet.generations
      ensures fleet.generations[fleet.current] == current.View() && retired.Keys == fleet.retired
    {
    }

    lemma LeaseSeen(lease: ProviderGenerationLease)
      requires LeasesCoupled() && lease in leases
      ensures leases[lease] == lease.View() && Has(lease.generation)
    {
    }

    /** Of all generations only this one has changed. */
    twostate lemma Touched(generation: ProviderGeneration, new generations: map<nat, Generation>)
      requires old(GenerationsCoupled(published, generations)) && old(Has(generation)) && published == old(published)
      requires forall g :: g in published && published[g] != generation ==>
                 published[g].View() == old(published[g].View())
      ensures GenerationsCoupled(published, generations[generation.generationId := generation.View()])
    {
    }

    static lemma Added(objects: map<nat, ProviderGeneration>, generations: map<nat, Generation>, x: ProviderGeneration)
      requires GenerationsCoupled(objects, generations) && x.generationId !in objects
      ensures GenerationsCoupled(objects[x.generationId := x], generations[x.generationId := x.View()])
    {
    }

    /** A new generation leaves the leases alone. */
    twostate lemma Unleased()
      requires old(LeasesCoupled()) && leases == old(leases)
      requires forall g :: g in old(published) ==> g in published && published[g] == old(published[g])
      requires forall l :: l in leases ==> l.View() == old(l.View())
      ensures LeasesCoupled()
    {
    }

    constructor ()
      ensures Valid() && View() == Init() && fresh(published.Values)
    {
      var first := new ProviderGeneration(1, 0);
      current, nextGenerationId, retired, unpublished := first, 2, map[], {};
      refresh, closing, closed := NoRefresh, false, false;
      published, fleet, leases, orphans, explicitRefresh := map[1 := first], Init().fleet, map[], map[], None;
      lock, closer, history := Free, Outside, [];
    }

    // --- One generation and the fleet ---

    method Retain(generation: ProviderGeneration)
      requires FleetCoupled() && Has(generation)
      modifies generation, `fleet
      ensures FleetCoupled() && fleet == GenerationModel.Retain(old(fleet), generation.generationId)
    {
      generation.Retain();
      Touched(generation, fleet.generations);
      fleet := GenerationModel.Retain(fleet, generation.generationId);
    }

    /** _release */
    method Release(generation: ProviderGeneration)
      requires FleetCoupled() && Has(generation)
      modifies generation, `fleet
      ensures FleetCoupled() && fleet == GenerationModel.Release(old(fleet), generation.generationId, closing)
    {
      generation.Release(closing);
      Touched(generation, fleet.generations);
      fleet := GenerationModel.Release(fleet, generation.generationId, closing);
    }

    /** _close_generation, up to the await of its task. */
    method CloseGeneration(generation: ProviderGeneration)
      requires FleetCoupled() && Has(generation)
      modifies generation`cleaning, `fleet
      ensures FleetCoupled() && fleet == StartCleanup(old(fleet), generation.generationId)
      ensures generation.cleaning <==> old(generation.cleaning) || (!generation.closed && generation.activeLeases == 0)
    {
      generation.StartCleanup();
      Touched(generation, fleet.generations);
      fleet := StartCleanup(fleet, generation.generationId);
    }

    /** The end of _run_generation_cleanup. */
    method Cleaned(generation: ProviderGeneration, ok: bool)
      requires FleetCoupled() && Has(generation) && generation.runtime < |fleet.runtimes|
      modifies generation, `retired, `fleet
      ensures FleetCoupled() && fleet == GenerationModel.EndCleanup(old(fleet), generation.generationId, ok)
    {
      ghost var g := generation.generationId;
      generation.EndCleanup(ok);
      Touched(generation, fleet.generations);
      if ok {
        retired := retired - {generation.generationId};
      }
      fleet := GenerationModel.EndCleanup(fleet, g, ok);
    }

    /** The end of _cleanup_unpublished. */
    method Swept(runtime: nat, ok: bool)
      requires FleetCoupled() && runtime < |fleet.runtimes|
      modifies `unpublished, `fleet
      ensures FleetCoupled() && fleet == GenerationModel.EndSweep(old(fleet), runtime, ok)
    {
      if ok {
        unpublished := unpublished - {runtime};
      }
      fleet := GenerationModel.EndSweep(fleet, runtime, ok);
    }

    /** The current generation joins `_retired`. */
    method Shelve()
      requires FleetCoupled()
      modifies `retired, `fleet, current
      ensures FleetCoupled() && fleet == GenerationModel.Shelve(old(fleet))
    {
      current.retired := true;
      retired := retired[current.generationId := current];
      Touched(current, fleet.generations);
      fleet := GenerationModel.Shelve(fleet);
    }

    /** A new generation becomes current. */
    method Install(generation: ProviderGeneration)
      requires FleetCoupled() && generation.generationId == nextGenerationId
      requires generation.View() == Generation(|fleet.runtimes|, 0, false, false, true, false)
      modifies `current, `published, `nextGenerationId, `fleet
      ensures FleetCoupled() && fleet == GenerationModel.Install(old(fleet))
      ensures current == generation && published == old(published)[generation.generationId := generation]
    {
      hide GenerationsCoupled;
      Added(published, fleet.generations, generation);
      current, nextGenerationId := generation, nextGenerationId + 1;
      published := published[generation.generationId := generation];
      fleet := GenerationModel.Install(fleet);
    }

    /** From publication to the next await of replace: publication, retirement, and the cleanup of an unused one. */
    method Replace(runtime: nat)
      requires FleetCoupled() && runtime == |fleet.runtimes|
      modifies `current, `nextGenerationId, `retired, `published, `fleet, current
      ensures FleetCoupled() && fleet == RetirePrevious(old(fleet))
      ensures fresh(current) && current.generationId !in old(published)
      ensures published == old(published)[current.generationId := current]
    {
      CurrentSeen();
      var previous := current;
      var generation := new ProviderGeneration(nextGenerationId, runtime);
      Shelve();
      Install(generation);
      // for a generation in use this changes nothing: its last user does it
      CloseGeneration(previous);
    }

    // --- Leases ---

    /** The lease is handed out unless the manager is shutting down. */
    method Acquire() returns (lease: ProviderGenerationLease)
      requires Valid()
      modifies current, `fleet, `leases, `history
      ensures fresh(lease) && Took(DoAcquire(lease))
      ensures lease in leases <==> !closing && !closed
      ensures lease in leases ==> lease.generation == current && !lease.released
    {
      hide FleetCoupled, LeasesCoupled, Reached;
      ghost var before := View();
      Ready();
      lease := new ProviderGenerationLease(current);
      HandOut(lease);
      Record(before, DoAcquire(lease));
    }

    method HandOut(lease: ProviderGenerationLease)
      requires Coupled() && lease.generation == current && !lease.released && lease !in leases
      modifies current, `fleet, `leases
      ensures Coupled() && View() == GenerationModel.Acquire(old(View()), lease)
    {
      hide FleetCoupled;
      CurrentSeen();
      if !closing && !closed {
        Retain(current);
        leases := leases[lease := lease.View()];
      }
    }

    /** ProviderGenerationLease.release: however often it is called, the lease counts down once. */
    method ReleaseLease(lease: ProviderGenerationLease)
      requires Valid() && lease in leases
      modifies lease`released, lease.generation, `fleet, `leases, `history
      ensures Took(DoReleaseLease(lease)) && lease.released
      ensures old(lease.released) ==> View() == old(View())
    {
      hide FleetCoupled, LeasesCoupled, Reached;
      ghost var before := View();
      Ready();
      LeaseSeen(lease);
      if !lease.released {
        GiveBack(lease);
      }
      Record(before, DoReleaseLease(lease));
    }

    method GiveBack(lease: ProviderGenerationLease)
      requires Coupled() && lease in leases && !lease.released
      modifies lease`released, lease.generation, `fleet, `leases
      ensures Coupled() && lease.released && View() == GenerationModel.ReleaseLease(old(View()), lease)
    {
      hide FleetCoupled;
      Release(lease.generation);
      lease.released := true;
      leases := leases[lease := lease.View()];
    }

    // --- Generation cleanup ---

    /** _run_generation_cleanup, after runtime.cleanup() ended. */
    method EndCleanup(generation: ProviderGeneration, ok: bool)
      requires Valid() && Has(generation) && generation.cleaning
      modifies generation, `retired, `fleet, `history
      ensures Took(DoEndCleanup(generation.generationId, ok))
    {
      hide FleetCoupled, LeasesCoupled, Reached;
      ghost var before, step := View(), DoEndCleanup(generation.generationId, ok);
      Ready();
      Seen(generation);
      Cleaned(generation, ok);
      Record(before, step);
    }

    // --- Refreshes ---

    method StartModelListRefresh()
      requires Valid() && lock.Free?
      modifies `refresh, `history
      ensures Took(DoStartRefresh)
    {
      hide FleetCoupled, LeasesCoupled, Reached;
      ghost var before, step := View(), DoStartRefresh;
      Ready();
      CurrentSeen();
      if !closing && !closed && refresh.NoRefresh? {
        refresh := Scheduled(current.generationId);
      }
      Record(before, step);
    }

    /** The background task enters _refresh_generation. */
    method RunRefresh(generation: ProviderGeneration)
      requires Valid() && Has(generation) && refresh == Scheduled(generation.generationId)
      modifies `refresh, generation, `fleet, `history
      ensures Took(DoRunRefresh)
    {
      hide FleetCoupled, LeasesCoupled, Reached;
      ghost var before, step := View(), DoRunRefresh;
      Ready();
      EnterRefresh(generation);
      Record(before, step);
    }

    method EnterRefresh(generation: ProviderGeneration)
      requires Coupled() && Has(generation) && refresh == Scheduled(generation.generationId)
      modifies `refresh, generation, `fleet
      ensures Coupled() && View() == GenerationModel.RunRefresh(old(View()))
    {
      hide FleetCoupled, LeasesCoupled;
      Seen(generation);
      if generation.closed {
        refresh := NoRefresh;
      } else {
        Retain(generation);
        refresh := Running(generation.generationId);
      }
    }

    method EndRefresh(generation: ProviderGeneration)
      requires Valid() && Has(generation) && refresh == Running(generation.generationId)
      modifies `refresh, generation, `fleet, `history
      ensures Took(DoEndRefresh)
    {
      hide FleetCoupled, LeasesCoupled, Reached;
      ghost var before, step := View(), DoEndRefresh;
      Ready();
      LeaveRefresh(generation);
      Record(before, step);
    }

    method LeaveRefresh(generation: ProviderGeneration)
      requires Coupled() && Has(generation) && refresh == Running(generation.generationId)
      modifies `refresh, generation, `fleet
      ensures Coupled() && View() == GenerationModel.EndRefresh(old(View()))
    {
      hide FleetCoupled, LeasesCoupled;
      Release(generation);
      refresh := NoRefresh;
    }

    /** A cancelled refresh leaves its generation. */
    method EndOrphan(generation: ProviderGeneration)
      requires Valid() && Has(generation) && Count(orphans, generation.generationId) > 0
      modifies generation, `fleet, `orphans, `history
      ensures Took(DoEndOrphan(generation.generationId))
    {
      hide FleetCoupled, LeasesCoupled, Reached;
      ghost var before, step := View(), DoEndOrphan(generation.generationId);
      Ready();
      LeaveOrphan(generation);
      Record(before, step);
    }

    method LeaveOrphan(generation: ProviderGeneration)
      requires Coupled() && Has(generation) && Count(orphans, generation.generationId) > 0
      modifies generation, `fleet, `orphans
      ensures Coupled() && View() == GenerationModel.EndOrphan(old(View()), generation.generationId)
    {
      hide FleetCoupled, LeasesCoupled;
      ghost var g := generation.generationId;
      Release(generation);
      orphans := orphans[g := Count(orphans, g) - 1];
    }

    /** _cancel_refresh */
    method CancelRefresh()
      modifies `refresh, `orphans
      ensures View() == old(View()).(use := GenerationModel.CancelRefresh(old(View()).use)) && refresh.NoRefresh?
    {
      if refresh.Running? {
        orphans := orphans[refresh.generation := Count(orphans, refresh.generation) + 1];
      }
      refresh := NoRefresh;
    }

    /** refresh_model_list_cache, up to its discovery. */
    method BeginExplicitRefresh()
      requires Valid() && lock.Free?
      modifies `refresh, `orphans, `explicitRefresh, `lock, `fleet, `history, current
      ensures Took(DoBeginExplicitRefresh)
    {
      hide FleetCoupled, LeasesCoupled, Reached;
      ghost var before, step := View(), DoBeginExplicitRefresh;
      Ready();
      EnterExplicitRefresh();
      Record(before, step);
    }

    method EnterExplicitRefresh()
      requires Coupled()
      modifies `refresh, `orphans, `explicitRefresh, `lock, `fleet, current
      ensures Coupled() && View() == GenerationModel.BeginExplicitRefresh(old(View()))
    {
      hide FleetCoupled, LeasesCoupled;
      CurrentSeen();
      if !closing && !closed {
        CancelRefresh();
        if !current.closed {
          Retain(current);
          explicitRefresh, lock := Some(current.generationId), Refreshing;
        }
      }
    }

    method EndExplicitRefresh(generation: ProviderGeneration)
      requires Valid() && Has(generation) && lock.Refreshing? && explicitRefresh == Some(generation.generationId)
      modifies `explicitRefresh, `lock, `fleet, `history, generation
      ensures Took(DoEndExplicitRefresh)
    {
      hide FleetCoupled, LeasesCoupled, Reached;
      ghost var before, step := View(), DoEndExplicitRefresh;
      Ready();
      LeaveExplicitRefresh(generation);
      Record(before, step);
    }

    method LeaveExplicitRefresh(generation: ProviderGeneration)
      requires Coupled() && Has(generation) && explicitRefresh == Some(generation.generationId)
      modifies `explicitRefresh, `lock, `fleet, generation
      ensures Coupled() && View() == GenerationModel.EndExplicitRefresh(old(View()))
    {
      hide FleetCoupled, LeasesCoupled;
      Release(generation);
      explicitRefresh, lock := None, Free;
    }

    /** connected_provider_changed, up to its discovery. */
    method BeginConnect() returns (accepted: bool)
      requires Valid() && lock.Free?
      modifies `lock, `history
      ensures Took(DoBeginConnect) && (accepted <==> lock.Connecting?)
    {
      hide FleetCoupled, LeasesCoupled, Reached;
      ghost var before, step := View(), DoBeginConnect;
      Ready();
      accepted := !closing && !closed;
      if accepted {
        lock := Connecting;
      }
      Record(before, step);
    }

    // --- replace ---

    method BeginReplace() returns (accepted: bool)
      requires Valid() && lock.Free?
      modifies `refresh, `orphans, `lock, `history
      ensures Took(DoBeginReplace) && (accepted <==> lock.Replacing?)
    {
      hide FleetCoupled, LeasesCoupled, Reached;
      ghost var before, step := View(), DoBeginReplace;
      Ready();
      accepted := !closing && !closed;
      if accepted {
        CancelRefresh();
        lock := Replacing;
      }
      Record(before, step);
    }

    /** _cleanup_unpublished in replace, after runtime.cleanup() ended. */
    method EndSweep(runtime: nat, ok: bool)
      requires Valid() && lock == Sweeping(runtime)
      modifies `unpublished, `fleet, `lock, `history
      ensures Took(DoEndSweep(ok))
    {
      hide FleetCoupled, LeasesCoupled, Reached;
      ghost var before, step := View(), DoEndSweep(ok);
      Ready();
      Swept(runtime, ok);
      lock := Replacing;
      Record(before, step);
    }

    /** The factory returned the new runtime, and commit raised. */
    method CommitFailed(runtime: nat)
      requires Valid() && lock.Replacing? && runtime == |fleet.runtimes|
      modifies `unpublished, `fleet, `lock, `history
      ensures Took(DoBuild(CommitRaised))
    {
      hide FleetCoupled, LeasesCoupled, Reached;
      ghost var before, step := View(), DoBuild(CommitRaised);
      Ready();
      Discarded(runtime);
      lock := Discarding(runtime);
      Record(before, step);
    }

    method Discarded(runtime: nat)
      requires FleetCoupled() && runtime == |fleet.runtimes|
      modifies `unpublished, `fleet
      ensures FleetCoupled() && fleet == Discard(old(fleet))
    {
      unpublished := unpublished + {runtime};
      fleet := Discard(fleet);
    }

    /** _cleanup_unpublished for the candidate whose commit raised, after runtime.cleanup() ended. */
    method EndDiscard(runtime: nat, ok: bool)
      requires Valid() && lock == Discarding(runtime)
      modifies `unpublished, `fleet, `lock, `history
      ensures Took(DoEndDiscard(ok))
    {
      hide FleetCoupled, LeasesCoupled, Reached;
      ghost var before, step := View(), DoEndDiscard(ok);
      Ready();
      Swept(runtime, ok);
      lock := Free;
      Record(before, step);
    }

    /** The factory returned the new runtime and commit succeeded: all of it is one step. */
    method Publish(runtime: nat)
      requires Valid() && lock.Replacing? && runtime == |fleet.runtimes|
      modifies `current, `nextGenerationId, `retired, `refresh, `published, `fleet, `lock, `history, current
      ensures Took(DoBuild(Committed))
      ensures fresh(current) && published == old(published)[current.generationId := current]
    {
      hide FleetCoupled, LeasesCoupled, Reached;
      ghost var before, step := View(), DoBuild(Committed);
      Ready();
      PublishCandidate(runtime);
      Record(before, step);
    }

    method PublishCandidate(runtime: nat)
      requires Coupled() && runtime == |fleet.runtimes|
      modifies `current, `nextGenerationId, `retired, `refresh, `published, `fleet, `lock, current
      ensures Coupled() && View() == BuildCandidate(old(View()), Committed)
      ensures fresh(current) && published == old(published)[current.generationId := current]
    {
      hide FleetCoupled, LeasesCoupled;
      CurrentSeen();
      var unused := current.activeLeases == 0;
      Replace(runtime);
      CurrentSeen();
      Unleased();
      refresh := Scheduled(current.generationId);
      lock := if unused then ClosingPrevious else Free;
    }

    // --- close ---

    /** Returns false if an earlier close succeeded. */
    method BeginClose() returns (proceeds: bool)
      requires Valid() && lock.Free? && closer.Outside?
      modifies `refresh, `orphans, `closing, `lock, `history
      ensures Took(DoBeginClose) && (proceeds <==> !closed)
    {
      hide FleetCoupled, LeasesCoupled, Reached;
      ghost var before, step := View(), DoBeginClose;
      Ready();
      proceeds := EnterClose();
      Record(before, step);
    }

    method EnterClose() returns (proceeds: bool)
      modifies `refresh, `orphans, `closing, `lock
      ensures View() == GenerationModel.BeginClose(old(View())) && (proceeds <==> !closed)
    {
      proceeds := !closed;
      if proceeds {
        closing := true;
        CancelRefresh();
        lock := Closing;
      }
    }

    /** close retires the current generation and takes its snapshot. */
    method RetireCurrent() returns (generations: map<nat, ProviderGeneration>)
      requires Valid() && lock.Closing?
      modifies `retired, `fleet, `lock, `closer, `history, current
      ensures Took(DoRetireCurrent)
      ensures generations == retired && closer == Draining(generations.Keys)
    {
      hide FleetCoupled, LeasesCoupled, Reached;
      ghost var before, step := View(), DoRetireCurrent;
      Ready();
      generations := TakeSnapshot();
      Record(before, step);
    }

    method TakeSnapshot() returns (generations: map<nat, ProviderGeneration>)
      requires Coupled()
      modifies `retired, `fleet, `lock, `closer, current
      ensures Coupled() && View() == GenerationModel.RetireCurrent(old(View()))
      ensures generations == retired && closer == Draining(generations.Keys)
    {
      hide FleetCoupled, LeasesCoupled;
      CurrentSeen();
      if !current.retired {
        Shelve();
      }
      CurrentSeen();
      generations := retired;
      lock, closer := Free, Draining(generations.Keys);
    }

    /** Nobody uses a generation that close collects. */
    lemma Drained(generation: ProviderGeneration)
      requires Valid() && Has(generation) && closer.Collecting? && generation.generationId in closer.todo
      ensures generation.activeLeases == 0
    {
      Reachable();
      Seen(generation);
      Ready();
    }

    /** close starts the cleanup of one generation of its snapshot, which is drained by then. */
    method CollectOne(generation: ProviderGeneration)
      requires Valid() && Has(generation) && closer.Collecting? && generation.generationId in closer.todo
      modifies generation`cleaning, `fleet, `closer, `history
      ensures Took(DoCollectOne(generation.generationId))
      ensures generation.closed || generation.cleaning
    {
      hide FleetCoupled, LeasesCoupled, Reached;
      ghost var before, step := View(), DoCollectOne(generation.generationId);
      Ready();
      Drained(generation);
      CloseGeneration(generation);
      closer := Collecting(closer.snapshot, closer.todo - {generation.generationId});
      Record(before, step);
    }

    /** _cleanup_unpublished in close, after runtime.cleanup() ended. */
    method EndFinalSweep(runtime: nat, ok: bool)
      requires Valid() && closer.Finishing? && closer.sweeping == Some(runtime)
      modifies `unpublished, `fleet, `closer, `history
      ensures Took(DoEndFinalSweep(ok))
    {
      hide FleetCoupled, LeasesCoupled, Reached;
      ghost var before, step := View(), DoEndFinalSweep(ok);
      Ready();
      Swept(runtime, ok);
      closer := Finishing(closer.todo, None, closer.allClosed && ok);
      Record(before, step);
    }

    /** close returns, or raises because something failed to close. */
    method FinishClose(allClosed: bool)
      requires Valid() && closer == Finishing({}, None, allClosed)
      modifies `closed, `closer, `history
      ensures Took(DoFinishClose) && closed == allClosed
    {
      hide FleetCoupled, LeasesCoupled, Reached;
      ghost var before, step := View(), DoFinishClose;
      Ready();
      closed := allClosed;
      closer := Outside;
      Record(before, step);
    }

    // --- Steps that only move a suspended coroutine ---

    predicate Moves(a: Step) {
      || a.DoBeginSweep? || a == DoBuild(FactoryRaised) || a.DoEndReplace? || a.DoEndConnect? || a.DoDrained?
      || a.DoCollected? || a.DoBeginFinalSweep? || a.DoAbortClose?
    }

    ghost method Move(a: Step)
      requires Valid() && Enabled(View(), a) && Moves(a)
      modifies `lock, `closer, `history
      ensures Took(a)
    {
      hide FleetCoupled, LeasesCoupled, Reached;
      ghost var before := View();
      ghost var after := Apply(before, a);
      lock, closer := after.lock, after.closer;
      Record(before, a);
    }
  }
}
