/** Theorems about every run of the provider generations, from startup. */
module GenerationTheorems {
  import opened Options
  import opened GenerationModel
  import opened GenerationSafety

  lemma {:induction false} RunKeepsInv(st: State, run: seq<Step>)
    requires Inv(st) && Runnable(st, run)
    ensures Inv(Run(st, run)) && WellFormed(Run(st, run))
    decreases |run|
  {
    if run == [] {
      InvIsWellFormed(st);
    } else {
      StepKeepsInv(st, run[0]);
      RunKeepsInv(Apply(st, run[0]), run[1..]);
    }
  }

  /** That steps require WellFormed rules no run out. */
  lemma InvIsWellFormed(st: State)
    requires Inv(st)
    ensures WellFormed(st)
  {
    forall g | g in st.fleet.generations ensures st.fleet.generations[g].runtime < |st.fleet.runtimes| {
      assert HomeOk(st.fleet, g);
    }
    if st.closer.Draining? || st.closer.Collecting? {
      assert Listed(st.fleet, st.closer.snapshot);
    }
  }

  lemma ReachableIsWellFormed(run: seq<Step>)
    requires Runnable(Init(), run)
    ensures WellFormed(Run(Init(), run))
  {
    InitHolds();
    RunKeepsInv(Init(), run);
  }

  // --- Cleanup and use exclude one another ---

  /** Someone holds the generation, is about to, or works with its runtime without a lease. */
  ghost predicate InUse(st: State, g: nat) {
    || Users(st.use, g) > 0
    || st.use.refresh == Scheduled(g)
    || (st.lock.Connecting? && st.fleet.current == g)
  }

  lemma CleanupIsExclusive(run: seq<Step>, g: nat)
    requires Runnable(Init(), run) && g in Run(Init(), run).fleet.generations
    ensures var st := Run(Init(), run); var x := st.fleet.generations[g];
            && x.leases == Users(st.use, g)
            && (x.drained <==> Users(st.use, g) == 0)
            && (x.cleaning || x.closed ==> x.retired && !InUse(st, g))
  {
    InitHolds();
    RunKeepsInv(Init(), run);
    var st := Run(Init(), run);
    assert Sound(st.fleet.generations[g], g == st.fleet.current, g in st.fleet.retired);
  }

  /** What no step may undo. */
  ghost predicate Declines(f: Fleet, f': Fleet, g: nat)
    requires g in f.generations
  {
    && g in f'.generations
    && f'.generations[g].runtime == f.generations[g].runtime
    && (f.generations[g].retired ==> Down(f.generations[g], f'.generations[g]))
  }

  /** The generation a step gives a new user, which is not retired. */
  lemma NewUsersFindItOpen(st: State, a: Step)
    requires Inv(st) && Enabled(st, a)
    ensures ((a.DoAcquire? || a.DoBeginExplicitRefresh?) && !st.closing) || a.DoBuild?
            ==> !st.fleet.generations[st.fleet.current].retired
    ensures a.DoRunRefresh? ==> !st.fleet.generations[st.use.refresh.generation].retired
    ensures st.fleet.current < st.fleet.nextId && st.fleet.nextId !in st.fleet.generations
  {
  }

  lemma StepDeclines(st: State, a: Step, g: nat)
    requires Inv(st) && Enabled(st, a) && g in st.fleet.generations
    ensures Declines(st.fleet, Apply(st, a).fleet, g)
  {
    NewUsersFindItOpen(st, a);
    if OfClose(a) {
      CloseStepDeclines(st, a, g);
    } else if a.DoBuild? {
      BuildDeclines(st, a.outcome, g);
    } else {
      OpenStepDeclines(st, a, g);
    }
  }

  lemma BuildDeclines(st: State, outcome: Build, g: nat)
    requires g in st.fleet.generations && st.fleet.current in st.fleet.generations
    requires !st.fleet.generations[st.fleet.current].retired && st.fleet.nextId !in st.fleet.generations
    ensures Declines(st.fleet, BuildCandidate(st, outcome).fleet, g)
  {
  }

  lemma CloseStepDeclines(st: State, a: Step, g: nat)
    requires Enabled(st, a) && OfClose(a) && g in st.fleet.generations
    ensures Declines(st.fleet, Apply(st, a).fleet, g)
  {
  }

  lemma RetainDeclines(f: Fleet, h: nat, g: nat)
    requires g in f.generations && h in f.generations && !f.generations[h].retired
    ensures Declines(f, Retain(f, h), g)
  {
  }

  lemma ReleaseDeclines(f: Fleet, h: nat, closing: bool, g: nat)
    requires g in f.generations && h in f.generations
    ensures Declines(f, Release(f, h, closing), g)
  {
  }

  lemma OpenStepDeclines(st: State, a: Step, g: nat)
    requires Enabled(st, a) && !OfClose(a) && !a.DoBuild? && g in st.fleet.generations
    requires (a.DoAcquire? || a.DoBeginExplicitRefresh?) && !st.closing
             ==> !st.fleet.generations[st.fleet.current].retired
    requires a.DoRunRefresh? ==> !st.fleet.generations[st.use.refresh.generation].retired
    ensures Declines(st.fleet, Apply(st, a).fleet, g)
  {
    match a
    case DoReleaseLease(l) => ReleaseDeclines(st.fleet, st.use.leases[l].generation, st.closing, g);
    case DoEndRefresh => ReleaseDeclines(st.fleet, st.use.refresh.generation, st.closing, g);
    case DoEndOrphan(h) => ReleaseDeclines(st.fleet, h, st.closing, g);
    case DoEndExplicitRefresh => ReleaseDeclines(st.fleet, st.use.explicitRefresh.value, st.closing, g);
    case DoRunRefresh => RetainDeclines(st.fleet, st.use.refresh.generation, g);
    case DoAcquire(_) => if !st.closing { RetainDeclines(st.fleet, st.fleet.current, g); }
    case DoBeginExplicitRefresh => if !st.closing { RetainDeclines(st.fleet, st.fleet.current, g); }
    case _ =>
  }

  /** Over any run: once retired, always retired; no new lease; and a cleanup that succeeded is final. */
  lemma {:induction false} RetirementIsFinal(st: State, run: seq<Step>, g: nat)
    requires Inv(st) && Runnable(st, run) && g in st.fleet.generations
    ensures Declines(st.fleet, Run(st, run).fleet, g)
    decreases |run|
  {
    if run != [] {
      StepDeclines(st, run[0], g);
      StepKeepsInv(st, run[0]);
      RetirementIsFinal(Apply(st, run[0]), run[1..], g);
    }
  }

  /** Unless close does it, the step in which the last user leaves a retired generation starts its cleanup. */
  lemma LastUserStartsCleanup(st: State, a: Step, g: nat)
    requires Inv(st) && Enabled(st, a) && !st.closing
    requires g in st.fleet.generations && st.fleet.generations[g].retired
    requires Users(st.use, g) > 0 && Users(Apply(st, a).use, g) == 0
    ensures g in Apply(st, a).fleet.generations && Apply(st, a).fleet.generations[g].cleaning
  {
    StepKeepsInv(st, a);
    StepDeclines(st, a, g);
    DrainStartsCleanup(st, a, g);
  }

  lemma DrainStartsCleanup(st: State, a: Step, g: nat)
    requires Enabled(st, a) && !st.closing && g in st.fleet.generations && g in Apply(st, a).fleet.generations
    requires st.fleet.generations[g].retired && !st.fleet.generations[g].closed && st.fleet.generations[g].leases > 0
    requires Apply(st, a).fleet.generations[g].leases == 0 && g != st.fleet.nextId
    ensures Apply(st, a).fleet.generations[g].cleaning
  {
  }

  // --- No runtime is lost ---

  ghost predicate Serving(f: Fleet, r: nat)
    requires GenerationsOk(f)
  {
    exists g :: g in f.retired + {f.current} && f.generations[g].runtime == r && !f.generations[g].closed
  }

  /** Every runtime ever made is served by one generation, is unpublished, or was cleaned up; never two of these. */
  lemma RuntimesAreConserved(run: seq<Step>, r: nat)
    requires Runnable(Init(), run) && r < |Run(Init(), run).fleet.runtimes|
    ensures var f := Run(Init(), run).fleet;
            && GenerationsOk(f)
            && f.runtimes[r].cleanups <= 1
            && (f.runtimes[r].cleanups == 1 <==> !Serving(f, r) && r !in f.unpublished)
            && !(Serving(f, r) && r in f.unpublished)
  {
    InitHolds();
    RunKeepsInv(Init(), run);
    OneOwner(Run(Init(), run).fleet, r);
  }

  lemma OneOwner(f: Fleet, r: nat)
    requires FleetOk(f) && r < |f.runtimes|
    ensures f.runtimes[r].cleanups <= 1
    ensures f.runtimes[r].cleanups == 1 <==> !Serving(f, r) && r !in f.unpublished
    ensures !(Serving(f, r) && r in f.unpublished)
  {
    assert Owned(f, r);
    forall g | g in f.generations && f.generations[g].runtime == r ensures f.runtimes[r].home == Some(g) {
      assert HomeOk(f, g);
    }
    match f.runtimes[r].home
    case Some(g) => assert Sound(f.generations[g], g == f.current, g in f.retired);
    case None =>
  }

  /** No two generations share a runtime. */
  lemma RuntimesAreNotShared(run: seq<Step>, g: nat, h: nat)
    requires Runnable(Init(), run)
    requires g in Run(Init(), run).fleet.generations && h in Run(Init(), run).fleet.generations && g != h
    ensures Run(Init(), run).fleet.generations[g].runtime != Run(Init(), run).fleet.generations[h].runtime
  {
    InitHolds();
    RunKeepsInv(Init(), run);
    assert HomeOk(Run(Init(), run).fleet, g) && HomeOk(Run(Init(), run).fleet, h);
  }

  // --- Replacement ---

  /** A committed candidate becomes current with a fresh id and is usable; its predecessor is retired. */
  lemma CommitPublishes(st: State)
    requires Inv(st) && Enabled(st, DoBuild(Committed))
    ensures var f, f' := st.fleet, Apply(st, DoBuild(Committed)).fleet;
            && f'.current !in f.generations
            && f'.current in f'.generations
            && f'.generations[f'.current] == Generation(|f.runtimes|, 0, false, false, true, false)
            && f.current in f'.retired
  {
  }

  /** No other step changes the current generation. */
  lemma OnlyCommitPublishes(st: State, a: Step)
    requires Inv(st) && Enabled(st, a)
    ensures Apply(st, a).fleet.current != st.fleet.current <==> a == DoBuild(Committed)
  {
    if a == DoBuild(Committed) {
      CommitPublishes(st);
    }
  }

  function Commits(run: seq<Step>): nat {
    if run == [] then 0 else (if run[0] == DoBuild(Committed) then 1 else 0) + Commits(run[1..])
  }

  /** Over any run the current generation is the last one committed: its id counts the commits. */
  lemma {:induction false} CurrentCountsCommits(st: State, run: seq<Step>)
    requires Inv(st) && Runnable(st, run) && st.fleet.nextId == st.fleet.current + 1
    ensures var f := Run(st, run).fleet;
            f.current == st.fleet.current + Commits(run) && f.nextId == f.current + 1
    decreases |run|
  {
    if run != [] {
      StepCommits(st, run[0]);
      StepKeepsInv(st, run[0]);
      CurrentCountsCommits(Apply(st, run[0]), run[1..]);
    }
  }

  lemma StepCommits(st: State, a: Step)
    requires Enabled(st, a) && st.fleet.nextId == st.fleet.current + 1
    ensures var f := Apply(st, a).fleet;
            f.current == st.fleet.current + Commits([a]) && f.nextId == f.current + 1
  {
  }

  /** A candidate whose factory or commit raises leaves the generations alone, and its runtime is not forgotten. */
  lemma FailedReplacementIsInvisible(st: State, outcome: Build)
    requires Inv(st) && Enabled(st, DoBuild(outcome)) && !outcome.Committed?
    ensures var f, f' := st.fleet, Apply(st, DoBuild(outcome)).fleet;
            && f'.current == f.current && f'.nextId == f.nextId && f'.generations == f.generations
            && f'.retired == f.retired && Apply(st, DoBuild(outcome)).use == st.use
            && f'.unpublished == f.unpublished + (if outcome.CommitRaised? then {|f.runtimes|} else {})
            && |f'.runtimes| == |f.runtimes| + if outcome.CommitRaised? then 1 else 0
  {
  }

  // --- Shutdown ---

  /** When a close has succeeded, however many failed before, each runtime was cleaned up once and nothing is in use. */
  lemma CloseLeavesNothing(run: seq<Step>)
    requires Runnable(Init(), run) && Run(Init(), run).closed
    ensures var st := Run(Init(), run);
            && (forall r :: 0 <= r < |st.fleet.runtimes| ==> st.fleet.runtimes[r].cleanups == 1)
            && (forall g :: g in st.fleet.generations ==> !InUse(st, g))
            && st.use.refresh.NoRefresh?
  {
    InitHolds();
    RunKeepsInv(Init(), run);
    var st := Run(Init(), run);
    forall r | 0 <= r < |st.fleet.runtimes| ensures st.fleet.runtimes[r].cleanups == 1 {
      RuntimesAreConserved(run, r);
      assert Sound(st.fleet.generations[st.fleet.current], true, false);
    }
    forall g | g in st.fleet.generations ensures !InUse(st, g) {
      assert Sound(st.fleet.generations[g], g == st.fleet.current, false);
      CleanupIsExclusive(run, g);
    }
  }
}
