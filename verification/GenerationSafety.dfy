/** What every reachable state of the provider generations satisfies, and what follows for whole runs. */
module GenerationSafety {
  import opened Options
  import opened GenerationModel

  // --- One generation ---

  /** What holds of a generation that is current or not, and listed in `_retired` or not. */
  ghost predicate Sound(x: Generation, current: bool, listed: bool) {
    && (x.drained <==> x.leases == 0)
    && (listed <==> x.retired && !x.closed)
    && (x.cleaning ==> x.leases == 0 && x.retired && !x.closed)
    && (x.closed ==> x.leases == 0 && x.retired)
    && (!current ==> x.retired)
  }

  ghost predicate GenerationsOk(f: Fleet) {
    && f.current in f.generations
    && f.retired <= f.generations.Keys
    && (forall g :: g in f.generations ==> g < f.nextId && Sound(f.generations[g], g == f.current, g in f.retired))
  }

  lemma PutKeepsGenerations(f: Fleet, g: nat, x: Generation)
    requires GenerationsOk(f) && g in f.generations && Sound(x, g == f.current, g in f.retired)
    ensures GenerationsOk(Put(f, g, x))
  {
  }

  lemma EndCleanupKeepsGenerations(f: Fleet, g: nat, ok: bool)
    requires GenerationsOk(f) && g in f.generations && f.generations[g].cleaning
    requires f.generations[g].runtime < |f.runtimes|
    ensures GenerationsOk(EndCleanup(f, g, ok))
  {
  }

  lemma PublishKeepsGenerations(f: Fleet)
    requires GenerationsOk(f) && !f.generations[f.current].retired
    ensures GenerationsOk(Publish(f))
  {
  }

  // --- Runtimes ---

  /** Each runtime has one owner: its generation or, if it has none, the set of unpublished runtimes. */
  ghost predicate Owned(f: Fleet, r: nat)
    requires r < |f.runtimes|
  {
    match f.runtimes[r].home
    case Some(g) =>
      && g in f.generations && f.generations[g].runtime == r && r !in f.unpublished
      && f.runtimes[r].cleanups == if f.generations[g].closed then 1 else 0
    case None => f.runtimes[r].cleanups == if r in f.unpublished then 0 else 1
  }

  ghost predicate HomeOk(f: Fleet, g: nat)
    requires g in f.generations
  {
    f.generations[g].runtime < |f.runtimes| && f.runtimes[f.generations[g].runtime].home == Some(g)
  }

  ghost predicate RuntimesOk(f: Fleet) {
    && (forall r :: r in f.unpublished ==> r < |f.runtimes|)
    && (forall r :: 0 <= r < |f.runtimes| ==> Owned(f, r))
    && (forall g :: g in f.generations ==> HomeOk(f, g))
  }

  lemma PutKeepsRuntimes(f: Fleet, g: nat, x: Generation)
    requires RuntimesOk(f) && g in f.generations
    requires x.runtime == f.generations[g].runtime && x.closed == f.generations[g].closed
    ensures RuntimesOk(Put(f, g, x))
  {
    var f' := Put(f, g, x);
    forall r | 0 <= r < |f'.runtimes| ensures Owned(f', r) { assert Owned(f, r); }
    forall h | h in f'.generations ensures HomeOk(f', h) { assert HomeOk(f, h); }
  }

  lemma EndCleanupKeepsRuntimes(f: Fleet, g: nat, ok: bool)
    requires RuntimesOk(f) && g in f.generations && !f.generations[g].closed && HomeOk(f, g)
    ensures RuntimesOk(EndCleanup(f, g, ok))
  {
    var f' := EndCleanup(f, g, ok);
    assert Owned(f, f.generations[g].runtime);
    forall r | 0 <= r < |f'.runtimes| ensures Owned(f', r) { assert Owned(f, r); }
    forall h | h in f'.generations ensures HomeOk(f', h) { assert HomeOk(f, h); }
  }

  lemma EndSweepKeepsRuntimes(f: Fleet, r: nat, ok: bool)
    requires RuntimesOk(f) && r in f.unpublished
    ensures RuntimesOk(EndSweep(f, r, ok))
  {
    var f' := EndSweep(f, r, ok);
    assert Owned(f, r);
    forall q | 0 <= q < |f'.runtimes| ensures Owned(f', q) { assert Owned(f, q); }
    forall h | h in f'.generations ensures HomeOk(f', h) { assert HomeOk(f, h); }
  }

  lemma DiscardKeepsRuntimes(f: Fleet)
    requires RuntimesOk(f)
    ensures RuntimesOk(Discard(f))
  {
    var f' := Discard(f);
    forall r | 0 <= r < |f'.runtimes| ensures Owned(f', r) { if r < |f.runtimes| { assert Owned(f, r); } }
    forall h | h in f'.generations ensures HomeOk(f', h) { assert HomeOk(f, h); }
  }

  lemma PublishKeepsRuntimes(f: Fleet)
    requires RuntimesOk(f) && GenerationsOk(f)
    ensures RuntimesOk(Publish(f))
  {
    var f' := Publish(f);
    forall r | 0 <= r < |f'.runtimes| ensures Owned(f', r) { if r < |f.runtimes| { assert Owned(f, r); } }
    forall h | h in f'.generations ensures HomeOk(f', h) { if h != f.nextId { assert HomeOk(f, h); } }
  }

  ghost predicate FleetOk(f: Fleet) { GenerationsOk(f) && RuntimesOk(f) }

  lemma RetainKeepsFleet(f: Fleet, g: nat)
    requires FleetOk(f) && g in f.generations && !f.generations[g].retired
    ensures FleetOk(Retain(f, g))
  {
    PutKeepsGenerations(f, g, Retained(f.generations[g]));
    PutKeepsRuntimes(f, g, Retained(f.generations[g]));
  }

  lemma ReleaseKeepsFleet(f: Fleet, g: nat, closing: bool)
    requires FleetOk(f) && g in f.generations
    ensures FleetOk(Release(f, g, closing))
  {
    PutKeepsGenerations(f, g, Released(f.generations[g], closing));
    PutKeepsRuntimes(f, g, Released(f.generations[g], closing));
  }

  lemma StartCleanupKeepsFleet(f: Fleet, g: nat)
    requires FleetOk(f) && g in f.generations && f.generations[g].retired
    ensures FleetOk(StartCleanup(f, g))
  {
    PutKeepsGenerations(f, g, Started(f.generations[g]));
    PutKeepsRuntimes(f, g, Started(f.generations[g]));
  }

  lemma RetirePreviousKeepsFleet(f: Fleet)
    requires FleetOk(f) && !f.generations[f.current].retired
    ensures FleetOk(RetirePrevious(f))
  {
    PublishKeepsGenerations(f);
    PublishKeepsRuntimes(f);
    StartCleanupKeepsFleet(Publish(f), f.current);
  }

  lemma RetireKeepsFleet(f: Fleet)
    requires FleetOk(f)
    ensures FleetOk(Retire(f))
  {
    PutKeepsRuntimes(f, f.current, f.generations[f.current].(retired := true));
    if !f.generations[f.current].retired {
      var f' := Put(f, f.current, f.generations[f.current].(retired := true));
      assert RuntimesOk(Retire(f)) by {
        forall r | 0 <= r < |f.runtimes| ensures Owned(Retire(f), r) { assert Owned(f', r); }
        forall h | h in f.generations ensures HomeOk(Retire(f), h) { assert HomeOk(f', h); }
      }
    }
  }

  // --- Users ---

  function LeasesOn(leases: map<Lid, Lease>, g: nat): set<Lid> {
    set l | l in leases && leases[l].generation == g && !leases[l].released
  }

  function Refreshes(r: Refresh, g: nat): nat { if r == Running(g) then 1 else 0 }

  /** The unreleased leases on the generation, and the refreshes that run on it. */
  function Users(u: Use, g: nat): nat {
    |LeasesOn(u.leases, g)| + Refreshes(u.refresh, g) + Count(u.orphans, g)
    + if u.explicitRefresh == Some(g) then 1 else 0
  }

  ghost predicate Known(u: Use, generations: set<nat>) {
    && (forall l :: l in u.leases ==> u.leases[l].generation in generations)
    && (!u.refresh.NoRefresh? ==> u.refresh.generation in generations)
    && (forall g :: g in u.orphans ==> g in generations)
    && (u.explicitRefresh.Some? ==> u.explicitRefresh.value in generations)
  }

  /** `active_leases` is exact. */
  ghost predicate CountsOk(f: Fleet, u: Use) {
    && Known(u, f.generations.Keys)
    && forall g :: g in f.generations ==> f.generations[g].leases == Users(u, g)
  }

  lemma LeaseAdded(leases: map<Lid, Lease>, l: Lid, g: nat, h: nat)
    requires l !in leases
    ensures |LeasesOn(leases[l := Lease(g, false)], h)| == |LeasesOn(leases, h)| + if g == h then 1 else 0
  {
    var before, after := LeasesOn(leases, h), LeasesOn(leases[l := Lease(g, false)], h);
    if g == h { assert after == before + {l}; } else { assert after == before; }
  }

  lemma LeaseRemoved(leases: map<Lid, Lease>, l: Lid, h: nat)
    requires l in leases && !leases[l].released
    ensures |LeasesOn(leases, h)|
         == |LeasesOn(leases[l := leases[l].(released := true)], h)| + if leases[l].generation == h then 1 else 0
  {
    var before, after := LeasesOn(leases, h), LeasesOn(leases[l := leases[l].(released := true)], h);
    if leases[l].generation == h { assert before == after + {l}; } else { assert after == before; }
  }

  lemma CancelKeepsUsers(u: Use, g: nat)
    ensures Users(CancelRefresh(u), g) == Users(u, g)
  {
  }

  lemma CancelKeepsCounts(f: Fleet, u: Use)
    requires CountsOk(f, u)
    ensures CountsOk(f, CancelRefresh(u))
  {
    forall g | g in f.generations ensures f.generations[g].leases == Users(CancelRefresh(u), g) {
      CancelKeepsUsers(u, g);
    }
  }

  /** The fleets agree on which generations there are and how many users each has. */
  ghost predicate SameCounts(f: Fleet, f': Fleet) {
    f'.generations.Keys == f.generations.Keys
    && forall g :: g in f.generations ==> f'.generations[g].leases == f.generations[g].leases
  }

  lemma SameCountsKeepsCounts(f: Fleet, f': Fleet, u: Use)
    requires CountsOk(f, u) && SameCounts(f, f')
    ensures CountsOk(f', u)
  {
    forall g | g in f'.generations ensures f'.generations[g].leases == Users(u, g) {
      assert g in f.generations.Keys;
    }
  }

  lemma RetainKeepsCounts(f: Fleet, g: nat, u: Use, u': Use)
    requires CountsOk(f, u) && g in f.generations && Known(u', f.generations.Keys)
    requires forall h :: h in f.generations ==> Users(u', h) == Users(u, h) + if h == g then 1 else 0
    ensures CountsOk(Retain(f, g), u')
  {
    assert Retain(f, g).generations.Keys == f.generations.Keys;
  }

  lemma ReleaseKeepsCounts(f: Fleet, g: nat, closing: bool, u: Use, u': Use)
    requires CountsOk(f, u) && g in f.generations && Known(u', f.generations.Keys)
    requires forall h :: h in f.generations ==> Users(u, h) == Users(u', h) + if h == g then 1 else 0
    ensures CountsOk(Release(f, g, closing), u')
  {
    assert Release(f, g, closing).generations.Keys == f.generations.Keys;
    assert f.generations[g].leases == Users(u, g) > 0;
  }

  lemma PublishKeepsCounts(f: Fleet, u: Use)
    requires CountsOk(f, u) && GenerationsOk(f) && u.refresh.NoRefresh?
    ensures CountsOk(RetirePrevious(f), u.(refresh := Scheduled(f.nextId)))
  {
    var f', u', g := RetirePrevious(f), u.(refresh := Scheduled(f.nextId)), f.nextId;
    assert f'.generations.Keys == f.generations.Keys + {g};
    assert LeasesOn(u.leases, g) == {};
    forall h | h in f'.generations ensures f'.generations[h].leases == Users(u', h) {
      if h != g { assert f.generations[h].leases == Users(u, h); }
    }
  }

  // --- Locks and phases ---

  ghost predicate LockOk(f: Fleet, u: Use, closing: bool, lock: Lock) {
    && f.current in f.generations
    && (f.generations[f.current].retired ==> closing)
    && (u.refresh.Scheduled? ==> u.refresh.generation == f.current)
    && (closing ==> u.refresh.NoRefresh?)
    && u.explicitRefresh == (if lock.Refreshing? then Some(f.current) else None)
    && (lock.Replacing? || lock.Sweeping? ==> u.refresh.NoRefresh?)
    && (lock.Sweeping? || lock.Discarding? ==> lock.runtime in f.unpublished)
    && (if lock.Closing? then closing else !lock.Free? ==> !closing)
  }

  ghost predicate CloserOk(f: Fleet, closing: bool, closed: bool, lock: Lock, closer: Closer) {
    && f.current in f.generations
    && f.retired <= f.generations.Keys
    && (!closer.Outside? ==> closing && !closed && lock.Free? && f.generations[f.current].retired)
    && (closed ==> closing && f.generations[f.current].retired && f.retired == {} && f.unpublished == {} && lock.Free?)
    && match closer
       case Outside => true
       case Draining(snapshot) => f.retired <= snapshot && Listed(f, snapshot)
       case Collecting(snapshot, todo) =>
         f.retired <= snapshot && Listed(f, snapshot) && todo <= snapshot && Idle(f, snapshot)
       case Finishing(todo, sweeping, allClosed) =>
         && todo <= f.unpublished
         && (sweeping.Some? ==> sweeping.value in f.unpublished && sweeping.value !in todo)
         && (allClosed ==> f.retired == {} && forall r :: r in f.unpublished ==> r in todo || sweeping == Some(r))
  }

  ghost predicate Listed(f: Fleet, snapshot: set<nat>) {
    forall g :: g in snapshot ==> g in f.generations && f.generations[g].retired
  }

  ghost predicate Idle(f: Fleet, snapshot: set<nat>) {
    forall g :: g in snapshot && g in f.generations ==> f.generations[g].leases == 0
  }

  /** What a release or a cleanup may do to the fleet. */
  ghost predicate Winds(f: Fleet, f': Fleet) {
    && f'.current == f.current
    && f'.generations.Keys == f.generations.Keys
    && f'.unpublished == f.unpublished
    && f'.retired <= f.retired
    && forall g :: g in f.generations ==> Down(f.generations[g], f'.generations[g])
  }

  ghost predicate Down(x: Generation, y: Generation) {
    y.retired == x.retired && y.leases <= x.leases && (x.closed ==> y.closed)
  }

  lemma WindsKeepsLock(f: Fleet, f': Fleet, u: Use, closing: bool, lock: Lock)
    requires LockOk(f, u, closing, lock) && Winds(f, f')
    ensures LockOk(f', u, closing, lock)
  {
    assert f.current in f.generations.Keys;
  }

  lemma WindsKeepsCloser(f: Fleet, f': Fleet, closing: bool, closed: bool, lock: Lock, closer: Closer)
    requires CloserOk(f, closing, closed, lock, closer) && Winds(f, f')
    ensures CloserOk(f', closing, closed, lock, closer)
  {
    assert f.current in f.generations.Keys;
    assert f'.retired <= f'.generations.Keys;
    forall snapshot | Listed(f, snapshot) ensures Listed(f', snapshot) { ListedDown(f, f', snapshot); }
    forall snapshot | Idle(f, snapshot) ensures Idle(f', snapshot) { IdleDown(f, f', snapshot); }
  }

  lemma ListedDown(f: Fleet, f': Fleet, snapshot: set<nat>)
    requires Winds(f, f') && Listed(f, snapshot)
    ensures Listed(f', snapshot)
  {
    forall g | g in snapshot ensures g in f'.generations && f'.generations[g].retired {
      assert g in f.generations && Down(f.generations[g], f'.generations[g]);
      assert g in f'.generations.Keys;
    }
  }

  lemma IdleDown(f: Fleet, f': Fleet, snapshot: set<nat>)
    requires Winds(f, f') && Idle(f, snapshot)
    ensures Idle(f', snapshot)
  {
    forall g | g in snapshot && g in f'.generations ensures f'.generations[g].leases == 0 {
      assert g in f.generations.Keys;
      assert Down(f.generations[g], f'.generations[g]);
    }
  }

  ghost predicate Inv(st: State) {
    && FleetOk(st.fleet)
    && CountsOk(st.fleet, st.use)
    && LockOk(st.fleet, st.use, st.closing, st.lock)
    && CloserOk(st.fleet, st.closing, st.closed, st.lock, st.closer)
  }

  lemma InitHolds()
    ensures Inv(Init())
  {
    assert Owned(Init().fleet, 0);
    assert LeasesOn(map[], 1) == {};
  }

  // --- Steps ---

  lemma ReleaseWinds(f: Fleet, g: nat, closing: bool)
    requires g in f.generations
    ensures Winds(f, Release(f, g, closing))
  {
    assert Release(f, g, closing).generations.Keys == f.generations.Keys;
  }

  lemma StartCleanupWinds(f: Fleet, g: nat)
    requires g in f.generations
    ensures Winds(f, StartCleanup(f, g)) && SameCounts(f, StartCleanup(f, g))
  {
    assert StartCleanup(f, g).generations.Keys == f.generations.Keys;
  }

  lemma EndCleanupWinds(f: Fleet, g: nat, ok: bool)
    requires g in f.generations && f.generations[g].runtime < |f.runtimes|
    ensures Winds(f, EndCleanup(f, g, ok)) && SameCounts(f, EndCleanup(f, g, ok))
  {
    assert EndCleanup(f, g, ok).generations.Keys == f.generations.Keys;
  }

  lemma AcquireKeepsInv(st: State, l: Lid)
    requires Inv(st) && l !in st.use.leases
    ensures Inv(Acquire(st, l))
  {
    if !st.closing && !st.closed {
      var f, g, u := st.fleet, st.fleet.current, st.use;
      var u' := u.(leases := u.leases[l := Lease(g, false)]);
      RetainKeepsFleet(f, g);
      forall h | h in f.generations ensures Users(u', h) == Users(u, h) + if h == g then 1 else 0 {
        LeaseAdded(u.leases, l, g, h);
      }
      RetainKeepsCounts(f, g, u, u');
    }
  }

  /** A user of the generation leaves it. */
  lemma LeaveKeepsInv(st: State, g: nat, u': Use, lock': Lock)
    requires Inv(st) && g in st.fleet.generations && Known(u', st.fleet.generations.Keys)
    requires forall h :: h in st.fleet.generations ==> Users(st.use, h) == Users(u', h) + if h == g then 1 else 0
    requires u'.refresh == st.use.refresh || u'.refresh == NoRefresh
    requires if lock' == st.lock then u'.explicitRefresh == st.use.explicitRefresh
             else st.lock.Refreshing? && lock'.Free? && u'.explicitRefresh == None
    ensures Inv(st.(fleet := Release(st.fleet, g, st.closing), use := u', lock := lock'))
  {
    var f' := Release(st.fleet, g, st.closing);
    ReleaseKeepsFleet(st.fleet, g, st.closing);
    ReleaseKeepsCounts(st.fleet, g, st.closing, st.use, u');
    ReleaseWinds(st.fleet, g, st.closing);
    WindsKeepsLock(st.fleet, f', st.use, st.closing, st.lock);
    WindsKeepsCloser(st.fleet, f', st.closing, st.closed, st.lock, st.closer);
  }

  lemma ReleaseLeaseKeepsInv(st: State, l: Lid)
    requires Inv(st) && l in st.use.leases
    ensures Inv(ReleaseLease(st, l))
  {
    var x := st.use.leases[l];
    if !x.released {
      var u' := st.use.(leases := st.use.leases[l := x.(released := true)]);
      forall h | h in st.fleet.generations
        ensures Users(st.use, h) == Users(u', h) + if h == x.generation then 1 else 0 {
        LeaseRemoved(st.use.leases, l, h);
      }
      LeaveKeepsInv(st, x.generation, u', st.lock);
    }
  }

  lemma EndCleanupKeepsInv(st: State, g: nat, ok: bool)
    requires Inv(st) && g in st.fleet.generations && st.fleet.generations[g].cleaning
    ensures HomeOk(st.fleet, g) && Inv(st.(fleet := EndCleanup(st.fleet, g, ok)))
  {
    var f' := EndCleanup(st.fleet, g, ok);
    EndCleanupKeepsGenerations(st.fleet, g, ok);
    EndCleanupKeepsRuntimes(st.fleet, g, ok);
    EndCleanupWinds(st.fleet, g, ok);
    SameCountsKeepsCounts(st.fleet, f', st.use);
    WindsKeepsLock(st.fleet, f', st.use, st.closing, st.lock);
    WindsKeepsCloser(st.fleet, f', st.closing, st.closed, st.lock, st.closer);
  }

  lemma RunRefreshKeepsInv(st: State)
    requires Inv(st) && st.use.refresh.Scheduled?
    ensures Inv(RunRefresh(st))
  {
    var g := st.use.refresh.generation;
    assert Sound(st.fleet.generations[g], true, g in st.fleet.retired);
    RetainKeepsFleet(st.fleet, g);
    RetainKeepsCounts(st.fleet, g, st.use, st.use.(refresh := Running(g)));
  }

  lemma EndRefreshKeepsInv(st: State)
    requires Inv(st) && st.use.refresh.Running?
    ensures Inv(EndRefresh(st))
  {
    LeaveKeepsInv(st, st.use.refresh.generation, st.use.(refresh := NoRefresh), st.lock);
  }

  lemma EndOrphanKeepsInv(st: State, g: nat)
    requires Inv(st) && Count(st.use.orphans, g) > 0
    ensures g in st.fleet.generations && Inv(EndOrphan(st, g))
  {
    LeaveKeepsInv(st, g, st.use.(orphans := st.use.orphans[g := Count(st.use.orphans, g) - 1]), st.lock);
  }

  lemma CancelKeepsInv(st: State, closing: bool, lock: Lock)
    requires Inv(st) && st.lock.Free? && st.closer.Outside? && !st.closed
    requires if closing then lock.Closing? else (lock.Replacing? || lock.Free?) && !st.closing
    ensures Inv(st.(use := CancelRefresh(st.use), closing := closing, lock := lock))
  {
    CancelKeepsCounts(st.fleet, st.use);
  }

  lemma BuildKeepsInv(st: State, outcome: Build)
    requires Inv(st) && st.lock.Replacing?
    ensures Inv(BuildCandidate(st, outcome))
  {
    match outcome
    case FactoryRaised =>
    case CommitRaised =>
      DiscardKeepsRuntimes(st.fleet);
      SameCountsKeepsCounts(st.fleet, Discard(st.fleet), st.use);
    case Committed =>
      RetirePreviousKeepsFleet(st.fleet);
      PublishKeepsCounts(st.fleet, st.use);
  }

  lemma SweepKeepsFleet(f: Fleet, u: Use, r: nat, ok: bool)
    requires FleetOk(f) && CountsOk(f, u) && r in f.unpublished
    ensures FleetOk(EndSweep(f, r, ok)) && CountsOk(EndSweep(f, r, ok), u)
  {
    EndSweepKeepsRuntimes(f, r, ok);
    SameCountsKeepsCounts(f, EndSweep(f, r, ok), u);
  }

  lemma EndSweepKeepsInv(st: State, ok: bool, lock: Lock)
    requires Inv(st) && st.closer.Outside?
    requires (st.lock.Sweeping? && lock.Replacing?) || (st.lock.Discarding? && lock.Free?)
    ensures st.lock.runtime < |st.fleet.runtimes|
    ensures Inv(st.(fleet := EndSweep(st.fleet, st.lock.runtime, ok), lock := lock))
  {
    SweepKeepsFleet(st.fleet, st.use, st.lock.runtime, ok);
  }

  lemma EndFinalSweepKeepsInv(st: State, ok: bool)
    requires Inv(st) && st.closer.Finishing? && st.closer.sweeping.Some?
    ensures st.closer.sweeping.value < |st.fleet.runtimes| && Inv(EndFinalSweep(st, ok))
  {
    SweepKeepsFleet(st.fleet, st.use, st.closer.sweeping.value, ok);
  }

  lemma BeginExplicitRefreshKeepsInv(st: State)
    requires Inv(st) && st.lock.Free?
    ensures Inv(BeginExplicitRefresh(st))
  {
    var f, g := st.fleet, st.fleet.current;
    if !st.closing && !st.closed {
      CancelKeepsCounts(f, st.use);
      assert Sound(f.generations[g], true, g in f.retired);
      RetainKeepsFleet(f, g);
      RetainKeepsCounts(f, g, CancelRefresh(st.use), CancelRefresh(st.use).(explicitRefresh := Some(g)));
    }
  }

  lemma EndExplicitRefreshKeepsInv(st: State)
    requires Inv(st) && st.lock.Refreshing? && st.use.explicitRefresh.Some?
    ensures Inv(EndExplicitRefresh(st))
  {
    LeaveKeepsInv(st, st.use.explicitRefresh.value, st.use.(explicitRefresh := None), Free);
  }

  lemma RetireCurrentKeepsInv(st: State)
    requires Inv(st) && st.lock.Closing?
    ensures Inv(RetireCurrent(st))
  {
    RetireKeepsFleet(st.fleet);
    assert Retire(st.fleet).generations.Keys == st.fleet.generations.Keys;
    SameCountsKeepsCounts(st.fleet, Retire(st.fleet), st.use);
    forall g | g in Retire(st.fleet).retired
      ensures g in Retire(st.fleet).generations && Retire(st.fleet).generations[g].retired {
      assert g in Retire(st.fleet).generations.Keys;
    }
  }

  lemma DrainedKeepsInv(st: State)
    requires Inv(st) && st.closer.Draining? && st.closer.snapshot <= st.fleet.generations.Keys
    requires forall g :: g in st.closer.snapshot ==> st.fleet.generations[g].drained
    ensures Inv(st.(closer := Collecting(st.closer.snapshot, st.closer.snapshot)))
  {
    assert Idle(st.fleet, st.closer.snapshot);
  }

  lemma CollectOneKeepsInv(st: State, g: nat)
    requires Inv(st) && st.closer.Collecting? && g in st.closer.todo && g in st.fleet.generations
    ensures Inv(st.(fleet := StartCleanup(st.fleet, g),
                    closer := Collecting(st.closer.snapshot, st.closer.todo - {g})))
  {
    var f' := StartCleanup(st.fleet, g);
    assert Listed(st.fleet, st.closer.snapshot);
    StartCleanupKeepsFleet(st.fleet, g);
    StartCleanupWinds(st.fleet, g);
    SameCountsKeepsCounts(st.fleet, f', st.use);
    WindsKeepsLock(st.fleet, f', st.use, st.closing, st.lock);
    WindsKeepsCloser(st.fleet, f', st.closing, st.closed, st.lock, st.closer);
  }

  lemma CollectedKeepsInv(st: State)
    requires Inv(st) && st.closer.Collecting? && st.closer.snapshot <= st.fleet.generations.Keys
    ensures Inv(Collected(st))
  {
    if Collected(st).closer.allClosed {
      forall g | g in st.closer.snapshot ensures g !in st.fleet.retired {
        assert Sound(st.fleet.generations[g], g == st.fleet.current, g in st.fleet.retired);
      }
    }
  }

  lemma LockKeepsInv(st: State, lock: Lock)
    requires Inv(st)
    requires match lock
             case Sweeping(r) => st.lock.Replacing? && r in st.fleet.unpublished
             case Free => !st.lock.Refreshing?
             case Connecting => st.lock.Free? && !st.closing && !st.closed && st.closer.Outside?
             case _ => false
    ensures Inv(st.(lock := lock))
  {
  }

  lemma CloserKeepsInv(st: State, closer: Closer, closed: bool, lock: Lock)
    requires Inv(st) && (lock == st.lock || (st.lock.Closing? && lock.Free?))
    requires match closer
             case Outside => if closed then st.closer.Finishing? && st.closer == Finishing({}, None, true)
                             else st.lock.Closing? || !st.closer.Outside?
             case Finishing(todo, sweeping, allClosed) =>
               && st.closer.Finishing? && sweeping.Some? && sweeping.value in st.closer.todo && !closed
               && closer == Finishing(st.closer.todo - {sweeping.value}, sweeping, st.closer.allClosed)
               && st.closer.sweeping.None?
             case _ => false
    ensures Inv(st.(closer := closer, closed := closed, lock := lock))
  {
  }

  predicate OfClose(a: Step) {
    a.DoBeginClose? || a.DoRetireCurrent? || a.DoDrained? || a.DoCollectOne? || a.DoCollected?
    || a.DoBeginFinalSweep? || a.DoEndFinalSweep? || a.DoFinishClose? || a.DoAbortClose?
  }

  lemma CloseStepKeepsInv(st: State, a: Step)
    requires Inv(st) && Enabled(st, a) && OfClose(a)
    ensures Inv(Apply(st, a))
  {
    match a
    case DoBeginClose => if !st.closed { CancelKeepsInv(st, true, Closing); }
    case DoRetireCurrent => RetireCurrentKeepsInv(st);
    case DoDrained => DrainedKeepsInv(st);
    case DoCollectOne(g) => CollectOneKeepsInv(st, g);
    case DoCollected => CollectedKeepsInv(st);
    case DoBeginFinalSweep(r) =>
      CloserKeepsInv(st, Finishing(st.closer.todo - {r}, Some(r), st.closer.allClosed), st.closed, st.lock);
    case DoEndFinalSweep(ok) => EndFinalSweepKeepsInv(st, ok);
    case DoFinishClose => CloserKeepsInv(st, Outside, st.closer.allClosed, st.lock);
    case DoAbortClose => CloserKeepsInv(st, Outside, st.closed, if st.lock.Closing? then Free else st.lock);
  }

  lemma StepKeepsInv(st: State, a: Step)
    requires Inv(st) && Enabled(st, a)
    ensures Inv(Apply(st, a))
  {
    if OfClose(a) { CloseStepKeepsInv(st, a); return; }
    match a
    case DoAcquire(l) => AcquireKeepsInv(st, l);
    case DoReleaseLease(l) => ReleaseLeaseKeepsInv(st, l);
    case DoEndCleanup(g, ok) => EndCleanupKeepsInv(st, g, ok);
    case DoStartRefresh =>
    case DoRunRefresh => RunRefreshKeepsInv(st);
    case DoEndRefresh => EndRefreshKeepsInv(st);
    case DoEndOrphan(g) => EndOrphanKeepsInv(st, g);
    case DoBeginReplace => if !st.closing && !st.closed { CancelKeepsInv(st, false, Replacing); }
    case DoBeginSweep(r) => LockKeepsInv(st, Sweeping(r));
    case DoEndSweep(ok) => EndSweepKeepsInv(st, ok, Replacing);
    case DoBuild(outcome) => BuildKeepsInv(st, outcome);
    case DoEndDiscard(ok) => EndSweepKeepsInv(st, ok, Free);
    case DoEndReplace => LockKeepsInv(st, Free);
    case DoBeginExplicitRefresh => BeginExplicitRefreshKeepsInv(st);
    case DoEndExplicitRefresh => EndExplicitRefreshKeepsInv(st);
    case DoBeginConnect => if !st.closing && !st.closed { LockKeepsInv(st, Connecting); }
    case DoEndConnect => LockKeepsInv(st, Free);
  }
}
