/**
 The supervisor of cli/commands.py. Threads meet in sections of its lock, and a section is one step.
 At most one thread is inside the loop of `run`; `at` says which section it enters next. Loading the
 settings, building the application and serving happen between sections, and may end by an exception.
 */
module ServerSupervision {
  import opened Options

  datatype At =
    | Outside          // no thread is in the loop
    | Top              // the loop tests for a stop
    | Capturing        // it reads the restart generation
    | Loading          // it loads the settings and builds the server
    | Serving          // server.run() has not returned
    | Leaving          // the loop is over, and the finally block comes next

  /** `server` is the published server's should_exit; `captured` the generation read before its settings were loaded. */
  datatype State = State(server: Option<bool>, scheduled: bool, running: bool, stopRequested: bool,
                         generation: nat, at: At, captured: nat)

  function Init(): State { State(None, false, false, false, 0, Outside, 0) }

  function ScheduleRun(st: State): (State, bool) {
    if st.stopRequested || st.scheduled || st.running then (st, false) else (st.(scheduled := true), true)
  }

  datatype Entry = AlreadyRunning | Stopped | Entered

  function Enter(st: State): (State, Entry) {
    var st := st.(scheduled := false);
    if st.running then (st, AlreadyRunning)
    else if st.stopRequested then (st, Stopped)
    else (st.(running := true, at := Top), Entered)
  }

  function RequestRestart(st: State): (State, bool) {
    if st.stopRequested then (st, false)
    else if st.scheduled then (st.(generation := st.generation + 1), true)
    else if !st.running then (st, false)
    else (st.(generation := st.generation + 1, server := if st.server.Some? then Some(true) else None), true)
  }

  function RequestStop(st: State): State {
    st.(stopRequested := true, scheduled := false, server := if st.server.Some? then Some(true) else None)
  }

  function Publish(st: State): State {
    st.(server := Some(st.stopRequested || st.generation != st.captured), at := Serving)
  }

  predicate Continues(st: State, runtimeClosed: bool) {
    st.generation != st.captured && !st.stopRequested && runtimeClosed
  }

  datatype Step =
    | DoSchedule
    | DoEnter
    | DoTest
    | DoCapture
    | DoPublish
    | DoExitItself                     // the server gets a signal
    | DoDecide(runtimeClosed: bool)
    | DoRaise                          // an exception or a keyboard interrupt ends the loop
    | DoLeave
    | DoRestart
    | DoStop

  predicate Enabled(st: State, a: Step) {
    match a
    case DoTest => st.at.Top?
    case DoCapture => st.at.Capturing?
    case DoPublish => st.at.Loading?
    case DoExitItself => st.server.Some?
    case DoDecide(_) => st.at.Serving?
    case DoRaise => !st.at.Outside? && !st.at.Leaving?
    case DoLeave => st.at.Leaving?
    case _ => true
  }

  function Apply(st: State, a: Step): State {
    match a
    case DoSchedule => ScheduleRun(st).0
    case DoEnter => Enter(st).0
    case DoTest => st.(at := if st.stopRequested then Leaving else Capturing)
    case DoCapture => st.(captured := st.generation, at := Loading)
    case DoPublish => Publish(st)
    case DoExitItself => st.(server := Some(true))
    case DoDecide(runtimeClosed) => st.(server := None, at := if Continues(st, runtimeClosed) then Top else Leaving)
    case DoRaise => st.(at := Leaving)
    case DoLeave => st.(server := None, running := false, at := Outside)
    case DoRestart => RequestRestart(st).0
    case DoStop => RequestStop(st)
  }

  predicate Runnable(st: State, run: seq<Step>)
    decreases |run|
  {
    run == [] || (Enabled(st, run[0]) && Runnable(Apply(st, run[0]), run[1..]))
  }

  function Run(st: State, run: seq<Step>): State
    decreases |run|
  {
    if run == [] then st else Run(Apply(st, run[0]), run[1..])
  }

  // --- Theorems ---

  predicate Inv(st: State) {
    && !(st.scheduled && st.running)
    && (st.running <==> !st.at.Outside?)
    && (st.server.Some? ==> st.at.Serving? || st.at.Leaving?)
    && (st.at.Serving? ==> st.server.Some?)
    && (st.server.Some? && (st.stopRequested || st.generation != st.captured) ==> st.server == Some(true))
    && st.captured <= st.generation
  }

  /** No server runs on past a stop or a restart newer than its settings; a run is not both scheduled and running. */
  lemma {:induction false} RunKeepsInv(st: State, run: seq<Step>)
    requires Inv(st) && Runnable(st, run)
    ensures Inv(Run(st, run))
    ensures st.stopRequested ==> Run(st, run).stopRequested
    decreases |run|
  {
    if run != [] {
      RunKeepsInv(Apply(st, run[0]), run[1..]);
    }
  }

  /** Who may start the loop: exactly one caller, unless a stop came; a scheduled run keeps others from scheduling. */
  lemma EntryOutcome(st: State)
    requires Inv(st)
    ensures var (t, entry) := Enter(st);
            && (entry.Entered? <==> st.at.Outside? && !st.stopRequested)
            && (entry.Entered? ==> t.at.Top? && t.running && Enter(t).1.AlreadyRunning?)
            && (!entry.Entered? ==> t == st.(scheduled := false))
    ensures var (t, scheduled) := ScheduleRun(st);
            && (scheduled <==> !st.stopRequested && !st.scheduled && st.at.Outside?)
            && (scheduled ==> t == st.(scheduled := true) && Enter(t).1.Entered? && !ScheduleRun(t).1)
            && (!scheduled ==> t == st)
  {
  }

  /** A restart is accepted exactly while the supervisor is scheduled or in its loop, and no stop has come. */
  lemma RestartOutcome(st: State)
    requires Inv(st)
    ensures var (t, accepted) := RequestRestart(st);
            && (accepted <==> !st.stopRequested && (st.scheduled || !st.at.Outside?))
            && (accepted ==> t.generation == st.generation + 1 && t.at == st.at && t.captured == st.captured
                             && t.stopRequested == st.stopRequested && t.scheduled == st.scheduled
                             && (st.server.Some? ==> t.server == Some(true)))
            && (!accepted ==> t == st)
    ensures RequestStop(st).stopRequested && !RequestStop(st).scheduled && RequestStop(st).at == st.at
    ensures RequestStop(st).generation == st.generation
    ensures st.server.Some? ==> RequestStop(st).server == Some(true)
  {
  }

  /** The loop's own steps, when nothing interferes: it captures, serves with what it captured, and cleans up behind. */
  lemma LoopOutcome(st: State)
    requires Inv(st)
    ensures st.at.Top? ==> Apply(st, DoTest).at == if st.stopRequested then Leaving else Capturing
    ensures st.at.Capturing? ==> Apply(st, DoCapture).at.Loading? && Apply(st, DoCapture).captured == st.generation
    ensures st.at.Loading? ==> Apply(st, DoPublish).at.Serving?
    ensures st.at.Serving? ==> forall closed :: Apply(st, DoDecide(closed)).server.None?
    ensures st.at.Leaving? ==> var t := Apply(st, DoLeave); t.at.Outside? && !t.running && t.server.None?
    ensures Enabled(st, DoRaise) ==> Apply(st, DoRaise).at.Leaving? && Apply(st, DoRaise).server == st.server
    ensures Enabled(st, DoExitItself) ==> Apply(st, DoExitItself) == st.(server := Some(true))
  {
  }

  /**
   When a server is told to exit, for as long as it serves and gets no signal: exactly if a stop has come, or a
   restart newer than its settings. In particular nothing is told to exit that should go on serving.
   */
  lemma {:induction false} ToldToExitExactly(st: State, run: seq<Step>)
    requires Inv(st) && st.at.Loading? && Runnable(st, [DoPublish] + run)
    requires forall i :: 0 <= i < |run| ==> !run[i].DoDecide? && !run[i].DoRaise? && !run[i].DoExitItself?
    ensures var t := Run(st, [DoPublish] + run);
            && t.server.Some?
            && (t.server == Some(true) <==> t.stopRequested || t.generation != t.captured)
  {
    assert ([DoPublish] + run)[1..] == run;
    ServesUndisturbed(Apply(st, DoPublish), run);
  }

  lemma {:induction false} ServesUndisturbed(st: State, run: seq<Step>)
    requires Inv(st) && st.at.Serving? && Runnable(st, run)
    requires st.server == Some(true) <==> st.stopRequested || st.generation != st.captured
    requires forall i :: 0 <= i < |run| ==> !run[i].DoDecide? && !run[i].DoRaise? && !run[i].DoExitItself?
    ensures var t := Run(st, run);
            && t.server.Some?
            && (t.server == Some(true) <==> t.stopRequested || t.generation != t.captured)
    decreases |run|
  {
    if run != [] {
      assert !run[0].DoDecide?;
      assert forall i :: 0 <= i < |run| - 1 ==> run[1..][i] == run[i + 1];
      ServesUndisturbed(Apply(st, run[0]), run[1..]);
    }
  }

  /** How many restarts are accepted in the run. */
  function Accepted(st: State, run: seq<Step>): nat
    decreases |run|
  {
    if run == [] then 0
    else (if run[0].DoRestart? && RequestRestart(st).1 then 1 else 0) + Accepted(Apply(st, run[0]), run[1..])
  }

  /** The loop neither decides nor ends within the run. */
  predicate Undecided(run: seq<Step>) {
    forall i :: 0 <= i < |run| ==> !run[i].DoDecide? && !run[i].DoRaise? && !run[i].DoLeave?
  }

  lemma {:induction false} GenerationCountsRestarts(st: State, run: seq<Step>)
    requires Runnable(st, run)
    ensures Run(st, run).generation == st.generation + Accepted(st, run)
    decreases |run|
  {
    if run != [] {
      GenerationCountsRestarts(Apply(st, run[0]), run[1..]);
    }
  }

  lemma {:induction false} CaptureStays(st: State, run: seq<Step>)
    requires Inv(st) && Runnable(st, run) && Undecided(run) && (st.at.Loading? || st.at.Serving?)
    ensures Run(st, run).captured == st.captured
    ensures Run(st, run).at.Loading? || Run(st, run).at.Serving?
    decreases |run|
  {
    if run != [] {
      assert !run[0].DoDecide?;
      assert forall i :: 0 <= i < |run| - 1 ==> run[1..][i] == run[i + 1];
      RunKeepsInv(st, [run[0]]);
      assert [run[0]][1..] == [];
      CaptureStays(Apply(st, run[0]), run[1..]);
    }
  }

  /**
   From the capture on, the decision that ends a serving continues the loop exactly if a restart was
   accepted meanwhile, the runtime closed, and no stop came. So the settings are loaded again after it.
   */
  lemma DecisionHonoursRestarts(st: State, run: seq<Step>, runtimeClosed: bool)
    requires Inv(st) && st.at.Capturing? && Runnable(st, [DoCapture] + run) && Undecided(run)
    requires Run(st, [DoCapture] + run).at.Serving?
    ensures var t := Run(st, [DoCapture] + run);
            Apply(t, DoDecide(runtimeClosed)).at.Top?
            <==> Accepted(st, [DoCapture] + run) > 0 && runtimeClosed && !t.stopRequested
  {
    assert ([DoCapture] + run)[1..] == run;
    GenerationCountsRestarts(st, [DoCapture] + run);
    CaptureStays(Apply(st, DoCapture), run);
  }

  /** How far the loop is from its end, once a stop keeps it from starting over. */
  function Remaining(at: At): nat {
    match at
    case Top => 5
    case Capturing => 4
    case Loading => 3
    case Serving => 2
    case Leaving => 1
    case Outside => 0
  }

  /** Every test and every decision of the run ends the loop. */
  predicate AlwaysLeaves(st: State, run: seq<Step>)
    decreases |run|
  {
    run == []
    || ((run[0].DoTest? || run[0].DoDecide? ==> Apply(st, run[0]).at.Leaving?)
        && AlwaysLeaves(Apply(st, run[0]), run[1..]))
  }

  /**
   After a stop the loop only moves towards its end, whatever comes and wherever it is: no test or decision
   continues it, no run begins, and at most the settings being captured are still loaded and their server published.
   */
  lemma {:induction false} StopEndsTheLoop(st: State, run: seq<Step>)
    requires Inv(st) && st.stopRequested && Runnable(st, run)
    ensures Remaining(Run(st, run).at) <= Remaining(st.at) && AlwaysLeaves(st, run)
    ensures st.at.Top? ==> Run(st, run).at == Top || Run(st, run).at == Leaving || Run(st, run).at == Outside
    ensures st.at.Outside? ==> Run(st, run).at.Outside?
    ensures st.at.Leaving? ==> Run(st, run).at.Outside? || Run(st, run).at.Leaving?
    ensures st.at.Serving? ==> !Run(st, run).at.Loading? && !Run(st, run).at.Capturing? && !Run(st, run).at.Top?
    decreases |run|
  {
    if run != [] {
      RunKeepsInv(st, [run[0]]);
      assert [run[0]][1..] == [];
      StopEndsTheLoop(Apply(st, run[0]), run[1..]);
    }
  }

  /** The run is the rest of one loop: it ends when the loop is left. */
  predicate EndsLoop(run: seq<Step>) {
    run != [] && run[|run| - 1].DoLeave? && forall i :: 0 <= i < |run| - 1 ==> !run[i].DoLeave?
  }

  predicate NeverCaptures(run: seq<Step>) { forall i :: 0 <= i < |run| ==> !run[i].DoCapture? }

  /** The step sends the loop to its end: an exception, a stop, or a runtime that did not close. */
  predicate GivesUp(st: State, a: Step) {
    a.DoRaise? || (a.DoTest? && st.stopRequested) || (a.DoDecide? && (!a.runtimeClosed || st.stopRequested))
  }

  /** And no capture comes before it. */
  predicate IsGivenUp(st: State, run: seq<Step>)
    decreases |run|
  {
    run != [] && !run[0].DoCapture? && (GivesUp(st, run[0]) || IsGivenUp(Apply(st, run[0]), run[1..]))
  }

  /** The settings in use, if any, are older than the last restart. */
  predicate Outdated(st: State) { st.at.Loading? || st.at.Serving? ==> st.captured < st.generation }

  lemma {:induction false} OutdatedLoopEnds(st: State, run: seq<Step>)
    requires Inv(st) && Outdated(st) && Runnable(st, run) && EndsLoop(run)
    ensures NeverCaptures(run) <==> st.at.Leaving? || IsGivenUp(st, run)
    decreases |run|
  {
    if |run| > 1 && !run[0].DoCapture? {
      var rest := run[1..];
      assert forall i :: 0 <= i < |rest| ==> rest[i] == run[i + 1];
      assert NeverCaptures(run) <==> NeverCaptures(rest) by {
        assert forall i :: 0 < i < |run| ==> run[i] == rest[i - 1];
      }
      assert !run[0].DoLeave?;
      OneStep(st, run[0]);
      OutdatedLoopEnds(Apply(st, run[0]), rest);
    }
  }

  lemma OneStep(st: State, a: Step)
    requires Inv(st) && Outdated(st) && Enabled(st, a) && !a.DoCapture? && !a.DoLeave?
    ensures Inv(Apply(st, a)) && Outdated(Apply(st, a))
    ensures Apply(st, a).at.Leaving? <==> st.at.Leaving? || GivesUp(st, a)
  {
  }

  /**
   When an accepted restart is lost, so that the loop is left without another look at the settings: if and only
   if it was accepted on the way out, or the loop ended by an exception, a stop, or a runtime that did not close,
   before the next capture.
   */
  lemma RestartIsLostExactly(st: State, run: seq<Step>)
    requires Inv(st) && RequestRestart(st).1 && Runnable(st, [DoRestart] + run) && EndsLoop(run)
    ensures NeverCaptures(run) <==> st.at.Leaving? || IsGivenUp(RequestRestart(st).0, run)
  {
    assert ([DoRestart] + run)[1..] == run;
    RunKeepsInv(st, [DoRestart]);
    assert [DoRestart][1..] == [];
    OutdatedLoopEnds(RequestRestart(st).0, run);
  }

  /** Outside the claim: a restart accepted after the decision to leave is acknowledged, and lost. */
  lemma LateRestartIsLost()
    ensures var st := Run(Init(), [DoEnter, DoTest, DoCapture, DoPublish, DoExitItself, DoDecide(true)]);
            && Runnable(Init(), [DoEnter, DoTest, DoCapture, DoPublish, DoExitItself, DoDecide(true)])
            && RequestRestart(st).1
            && Apply(Apply(st, DoRestart), DoLeave).at.Outside? && !Apply(Apply(st, DoRestart), DoLeave).scheduled
  {
    var s0 := Init();
    var s1 := Apply(s0, DoEnter);
    var s2 := Apply(s1, DoTest);
    var s3 := Apply(s2, DoCapture);
    var s4 := Apply(s3, DoPublish);
    var s5 := Apply(s4, DoExitItself);
    var s6 := Apply(s5, DoDecide(true));
    Unrolled(s5, [DoDecide(true)]);
    Unrolled(s4, [DoExitItself, DoDecide(true)]);
    Unrolled(s3, [DoPublish, DoExitItself, DoDecide(true)]);
    Unrolled(s2, [DoCapture, DoPublish, DoExitItself, DoDecide(true)]);
    Unrolled(s1, [DoTest, DoCapture, DoPublish, DoExitItself, DoDecide(true)]);
    Unrolled(s0, [DoEnter, DoTest, DoCapture, DoPublish, DoExitItself, DoDecide(true)]);
  }

  lemma Unrolled(st: State, run: seq<Step>)
    requires run != []
    ensures Run(st, run) == Run(Apply(st, run[0]), run[1..])
    ensures Runnable(st, run) <==> Enabled(st, run[0]) && Runnable(Apply(st, run[0]), run[1..])
  {
  }

  /**
   Anywhere but on the way out an accepted restart is noticed: a scheduled run or the next capture comes
   after it, a server being built is published with should_exit, and a serving one is told and then replaced.
   */
  lemma AcceptedRestartsAreNoticed(st: State)
    requires Inv(st) && RequestRestart(st).1
    ensures var t := RequestRestart(st).0;
            && (st.at.Outside? <==> st.scheduled)
            && (st.at.Loading? ==> Publish(t).server == Some(true))
            && (st.at.Serving? ==> t.server == Some(true) && Continues(t, true))
  {
  }

  // --- The objects ---

  class Server {
    var shouldExit: bool

    constructor (shouldExit: bool)
      ensures this.shouldExit == shouldExit
    {
      this.shouldExit := shouldExit;
    }
  }

  class ServerSupervisor {
    var server: Server?
    var runScheduled: bool
    var running: bool
    var stopRequested: bool
    var restartGeneration: nat
    ghost var at: At
    ghost var captured: nat

    ghost function View(): State
      reads this, server
    {
      State(if server == null then None else Some(server.shouldExit), runScheduled, running, stopRequested,
            restartGeneration, at, captured)
    }

    ghost predicate Valid()
      reads this, server
    {
      Inv(View())
    }

    constructor ()
      ensures Valid() && View() == Init()
    {
      server, runScheduled, running, stopRequested, restartGeneration := null, false, false, false, 0;
      at, captured := Outside, 0;
    }

    method ScheduleRunOnce() returns (scheduled: bool)
      requires Valid()
      modifies `runScheduled
      ensures Valid() && (View(), scheduled) == ScheduleRun(old(View()))
    {
      scheduled := !stopRequested && !runScheduled && !running;
      if scheduled {
        runScheduled := true;
      }
    }

    /** The first section of run. */
    method EnterRun() returns (entry: Entry)
      requires Valid()
      modifies `runScheduled, `running, `at
      ensures Valid() && (View(), entry) == Enter(old(View()))
    {
      runScheduled := false;
      if running {
        return AlreadyRunning;
      }
      if stopRequested {
        return Stopped;
      }
      running, at, entry := true, Top, Entered;
    }

    /** The loop's test: true if it goes on. */
    method TestStop() returns (goesOn: bool)
      requires Valid() && at.Top?
      modifies `at
      ensures Valid() && View() == Apply(old(View()), DoTest) && (goesOn <==> at.Capturing?)
    {
      goesOn := !stopRequested;
      at := if stopRequested then Leaving else Capturing;
    }

    method Capture() returns (generation: nat)
      requires Valid() && at.Capturing?
      modifies `at, `captured
      ensures Valid() && View() == Apply(old(View()), DoCapture) && generation == captured
    {
      generation := restartGeneration;
      at, captured := Loading, generation;
    }

    /** The first section of _run_once. */
    method PublishServer(generation: nat) returns (published: Server)
      requires Valid() && at.Loading? && generation == captured
      modifies `server, `at
      ensures Valid() && View() == Publish(old(View())) && server == published && fresh(published)
      ensures published.shouldExit <==> stopRequested || restartGeneration != generation
    {
      published := new Server(false);
      server := published;
      if stopRequested || restartGeneration != generation {
        published.shouldExit := true;
      }
      at := Serving;
    }

    /** The last section of _run_once, and what it returns. */
    method Decide(served: Server, generation: nat, runtimeClosed: bool) returns (continues: bool)
      requires Valid() && at.Serving? && generation == captured && served == server
      modifies `server, `at
      ensures Valid() && View() == Apply(old(View()), DoDecide(runtimeClosed))
      ensures continues <==> Continues(old(View()), runtimeClosed)
    {
      if server == served {
        server := null;
      }
      var restartRequested := restartGeneration != generation;
      continues := restartRequested && !stopRequested && runtimeClosed;
      at := if continues then Top else Leaving;
    }

    /** The finally block of run. */
    method Leave()
      requires Valid() && at.Leaving?
      modifies `server, `running, `at
      ensures Valid() && View() == Apply(old(View()), DoLeave)
    {
      server, running, at := null, false, Outside;
    }

    method Restart() returns (accepted: bool)
      requires Valid()
      modifies `restartGeneration, server
      ensures Valid() && (View(), accepted) == RequestRestart(old(View()))
    {
      if stopRequested {
        return false;
      }
      if runScheduled {
        restartGeneration := restartGeneration + 1;
        return true;
      }
      if !running {
        return false;
      }
      restartGeneration := restartGeneration + 1;
      if server != null {
        server.shouldExit := true;
      }
      accepted := true;
    }

    method Stop()
      requires Valid()
      modifies `stopRequested, `runScheduled, server
      ensures Valid() && View() == RequestStop(old(View()))
    {
      stopRequested, runScheduled := true, false;
      if server != null {
        server.shouldExit := true;
      }
    }
  }
}
