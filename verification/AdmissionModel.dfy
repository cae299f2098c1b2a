/**
 The protocol of providers/admission.py as a transition system.

 The event loop runs one task at a time and switches only at an `await`, so each stretch of
 code between two awaits is one step. A `ProviderRetrySession` is one sequential execution:
 at any moment its coroutine sits at one of the points of `Task`, with the local variables
 it keeps there. An attempt that has an outcome may stay open while its session opens another
 one, as a stream does that recovers in midstream: such an attempt lingers, with its slot.
 Steps of different sessions interleave freely; the clock never goes back.

 Entering an `asyncio.Condition` whose lock is free does not suspend, and no section holds
 that lock across an await, so a section together with the code right before it is one step.
 `notify_all` only makes parked tasks run again; here they may run again at any time, which
 allows more runs than the program has.
 */
module AdmissionModel {
  import opened Options
  import RL = RateLimit

  /** An upstream exception, compared by identity. */
  type ProviderError = nat

  datatype GatePermit = GatePermit(generation: Option<nat>, probe: bool)

  datatype Task =
    | Idle                                          // no call of open_attempt pending, no attempt but lingering ones
    | AtGate                                        // top of the loop in _wait_for_gate
    | Parked(generation: Option<nat>)               // in condition.wait(); Some when recorded as a waiter
    | BackingOff(claimed: nat, until: real)         // in asyncio.sleep(sleep_delay) as leader
    | AwaitingQuota(permit: GatePermit)             // in acquire_if
    | AwaitingSlot(permit: GatePermit, stamp: nat)  // in the semaphore's acquire
    | SlotGranted(permit: GatePermit, stamp: nat)   // slot handed over, not yet running again
    | Active(permit: GatePermit, stamp: nat, resolved: bool)  // holds a ProviderAttempt
    | Closing                                       // in aclose, awaiting the shielded abandonment
  {
    predicate HoldsSlot() { SlotGranted? || Active? || Closing? }

    /** open_attempt may be called: every attempt of the session has an outcome. */
    predicate CanOpen() { Idle? || (Active? && resolved) }

    predicate Opening() { AtGate? || Parked? || BackingOff? || AwaitingQuota? || AwaitingSlot? || SlotGranted? }

    /** The permit this task may still act on. */
    function Unresolved(): Option<GatePermit> {
      match this
      case AwaitingQuota(p) => Some(p)
      case AwaitingSlot(p, _) => Some(p)
      case SlotGranted(p, _) => Some(p)
      case Active(p, _, r) => if r then None else Some(p)
      case _ => None
    }

    /** A window timestamp recorded for an attempt that is not claimed yet. */
    function Reserved(): Option<nat> {
      match this
      case AwaitingSlot(_, k) => Some(k)
      case SlotGranted(_, k) => Some(k)
      case _ => None
    }
  }

  /**
   `abandoning` is the permit of a shielded abandonment that has not run yet, `lingering` the attempts
   that have an outcome and are still open behind the one `task` is about, by their timestamps.
   */
  datatype Session = Session(started: nat, budget: nat, failure: Option<ProviderError>, task: Task,
                             abandoning: Option<GatePermit>, lingering: multiset<nat>)
  {
    /** The concurrency slots the session holds. */
    function Slots(): nat { (if task.HoldsSlot() then 1 else 0) + |lingering| }
  }

  /** One logical execution with its attempt budget. The model uses the object as an identity only. */
  class ProviderRetrySession {
    const maxAttempts: nat
    var attemptsStarted: nat
    var terminalError: Option<ProviderError>

    constructor (maxAttempts: nat)
      requires maxAttempts > 0
      ensures this.maxAttempts == maxAttempts && attemptsStarted == 0 && terminalError.None?
    {
      this.maxAttempts := maxAttempts;
      attemptsStarted, terminalError := 0, None;
    }

    /** can_attempt */
    predicate CanAttempt()
      reads this
    {
      attemptsStarted < maxAttempts
    }

    /** _claim_attempt: an exhausted session raises instead. */
    method ClaimAttempt() returns (started: nat)
      requires CanAttempt()
      modifies this`attemptsStarted
      ensures started == attemptsStarted == old(attemptsStarted) + 1
    {
      attemptsStarted := attemptsStarted + 1;
      started := attemptsStarted;
    }
  }

  type Sid = ProviderRetrySession

  datatype Episode = Episode(generation: nat, leader: Option<Sid>, readyAt: real, lastError: ProviderError,
                             waiters: set<Sid>, probeActive: bool, terminalUntil: Option<real>)

  datatype Claim = Claim(session: Sid, stamp: nat)

  datatype Config = Config(limits: RL.Limits, slots: nat, attempts: nat) {
    ghost predicate Valid() { limits.Positive() && slots > 0 && attempts > 0 }
  }

  /** `claims` is ghost history: one entry for each attempt ever claimed. */
  datatype State = State(clock: real, episode: Option<Episode>, nextGeneration: nat, freeSlots: nat,
                         window: RL.Window, sessions: map<Sid, Session>, claims: seq<Claim>)

  // --- Pieces of the steps ---

  function At(st: State, now: real): State { st.(clock := now) }

  function Put(st: State, s: Sid, x: Session): State { st.(sessions := st.sessions[s := x]) }

  function Goto(st: State, s: Sid, task: Task): State
    requires s in st.sessions
  {
    Put(st, s, st.sessions[s].(task := task))
  }

  function OpenEpisode(st: State, leader: Option<Sid>, readyAt: real, error: ProviderError): State {
    st.(episode := Some(Episode(st.nextGeneration, leader, readyAt, error, {}, false, None)),
        nextGeneration := st.nextGeneration + 1)
  }

  /** The episode is probed by this session under this permit. */
  predicate Probes(episode: Option<Episode>, s: Sid, p: GatePermit) {
    && p.probe
    && episode.Some?
    && Some(episode.value.generation) == p.generation
    && episode.value.leader == Some(s)
    && episode.value.probeActive
  }

  /** _permit_is_current */
  predicate Current(episode: Option<Episode>, s: Sid, p: GatePermit) {
    if !p.probe then episode.None? else Probes(episode, s, p) && episode.value.terminalUntil.None?
  }

  /** The common body of _abandon_probe_permit and _attempt_abandoned. */
  function Abandoned(episode: Option<Episode>, s: Sid, p: GatePermit, now: real): Option<Episode> {
    if Probes(episode, s, p) then Some(episode.value.(leader := None, probeActive := false, readyAt := now))
    else episode
  }

  predicate PermitIsCurrent(st: State, s: Sid, p: GatePermit) { Current(st.episode, s, p) }

  predicate MatchingProbe(st: State, s: Sid, p: GatePermit) { Probes(st.episode, s, p) }

  function AbandonProbe(st: State, s: Sid, p: GatePermit, now: real): State {
    st.(episode := Abandoned(st.episode, s, p, now))
  }

  // --- The steps ---

  function NewSession(st: State, s: Sid, budget: nat): State {
    Put(st, s, Session(0, budget, None, Idle, None, multiset{}))
  }

  /** An attempt that is still open is left behind. */
  function Lingering(x: Session): multiset<nat> {
    if x.task.Active? then x.lingering + multiset{x.task.stamp} else x.lingering
  }

  /** open_attempt is called: an exhausted session is refused at once. */
  function OpenAttempt(st: State, s: Sid): State
    requires s in st.sessions
  {
    var x := st.sessions[s];
    if x.started < x.budget then Put(st, s, x.(task := AtGate, lingering := Lingering(x))) else st
  }

  datatype GateResult = Granted(permit: GatePermit) | Exhausted(cause: ProviderError) | Sleep(delay: real) | Wait

  /** The leader's half of the gate section: park behind its own probe, probe now, or back off. */
  function LeaderGate(st: State, s: Sid, now: real): (State, GateResult)
    requires s in st.sessions && st.episode.Some?
  {
    var e := st.episode.value;
    if e.probeActive then (Goto(st, s, Parked(None)), Wait)
    else if e.readyAt <= now then
      var p := GatePermit(Some(e.generation), true);
      (Goto(st.(episode := Some(e.(probeActive := true))), s, AwaitingQuota(p)), Granted(p))
    else (Goto(st, s, BackingOff(e.generation, e.readyAt)), Sleep(e.readyAt - now))
  }

  /** The gate of an open episode that is not cooling down. */
  function EpisodeGate(st: State, s: Sid, now: real): (State, GateResult)
    requires s in st.sessions && st.episode.Some?
  {
    var e := st.episode.value;
    if e.terminalUntil.Some? then LeaderGate(OpenEpisode(st, Some(s), now, e.lastError), s, now)
    else if e.leader.None? then
      LeaderGate(st.(episode := Some(e.(leader := Some(s), waiters := e.waiters - {s}))), s, now)
    else if e.leader == Some(s) then LeaderGate(st, s, now)
    else (Goto(st.(episode := Some(e.(waiters := e.waiters + {s}))), s, Parked(Some(e.generation))), Wait)
  }

  /** One pass of _wait_for_gate up to its next suspension, permit or exception. */
  function Gate(st: State, s: Sid, now: real): (State, GateResult)
    requires s in st.sessions
  {
    var st := At(st, now);
    var x := st.sessions[s];
    if x.failure.Some? then (Goto(st, s, Idle), Exhausted(x.failure.value))
    else if st.episode.None? then
      var p := GatePermit(None, false);
      (Goto(st, s, AwaitingQuota(p)), Granted(p))
    else if st.episode.value.terminalUntil.Some? && now < st.episode.value.terminalUntil.value then
      (Goto(st, s, Idle), Exhausted(st.episode.value.lastError))
    else EpisodeGate(st, s, now)
  }

  /** The backoff is over: claim the probe if the tenure is still the one that was claimed. */
  function BackoffOver(st: State, s: Sid, now: real): State
    requires s in st.sessions && st.sessions[s].task.BackingOff?
  {
    var st := At(st, now);
    var g := st.sessions[s].task.claimed;
    if st.episode.Some? && st.episode.value.generation == g && st.episode.value.terminalUntil.None?
       && st.episode.value.leader == Some(s) && !st.episode.value.probeActive
    then
      Goto(st.(episode := Some(st.episode.value.(probeActive := true))), s, AwaitingQuota(GatePermit(Some(g), true)))
    else Goto(st, s, AtGate)
  }

  function CancelParked(st: State, s: Sid, now: real): State
    requires s in st.sessions && st.sessions[s].task.Parked?
  {
    var st := At(st, now);
    var g := st.sessions[s].task.generation;
    var st1 :=
      if g.Some? && st.episode.Some? && st.episode.value.generation == g.value
      then st.(episode := Some(st.episode.value.(waiters := st.episode.value.waiters - {s})))
      else st;
    Goto(st1, s, Idle)
  }

  /** _abandon_waiting_leader: a cancelled backoff gives the leadership up. */
  function CancelBackoff(st: State, s: Sid, now: real): State
    requires s in st.sessions && st.sessions[s].task.BackingOff?
  {
    var st := At(st, now);
    var g := st.sessions[s].task.claimed;
    var st1 :=
      if st.episode.Some? && st.episode.value.generation == g && st.episode.value.leader == Some(s)
         && !st.episode.value.probeActive
      then st.(episode := Some(st.episode.value.(leader := None)))
      else st;
    Goto(st1, s, Idle)
  }

  /** One section of acquire_if, with the permit re-validated before a timestamp is spent. */
  function Quota(c: Config, st: State, s: Sid, now: real, stamp: real): State
    requires c.Valid() && s in st.sessions && st.sessions[s].task.AwaitingQuota?
  {
    var p := st.sessions[s].task.permit;
    var (w, out) := RL.Section(c.limits, st.window, now, stamp, PermitIsCurrent(st, s, p));
    var st := At(st, stamp).(window := w);
    match out
    case Full(_) => st
    case Refused => Goto(AbandonProbe(st, s, p, stamp), s, AtGate)
    case Admitted => Goto(st, s, AwaitingSlot(p, |w.history| - 1))
  }

  function GrantSlot(st: State, s: Sid): State
    requires s in st.sessions && st.sessions[s].task.AwaitingSlot? && st.freeSlots > 0
  {
    var t := st.sessions[s].task;
    Goto(st.(freeSlots := st.freeSlots - 1), s, SlotGranted(t.permit, t.stamp))
  }

  /** After the slot: validate the permit once more, then claim the attempt in the same step. */
  function ClaimAttempt(st: State, s: Sid, now: real): State
    requires s in st.sessions && st.sessions[s].task.SlotGranted?
  {
    var st := At(st, now);
    var x := st.sessions[s];
    var t := x.task;
    if PermitIsCurrent(st, s, t.permit) then
      Put(st, s, x.(started := x.started + 1, task := Active(t.permit, t.stamp, false)))
        .(claims := st.claims + [Claim(s, t.stamp)])
    else
      Goto(AbandonProbe(st.(freeSlots := st.freeSlots + 1), s, t.permit, now), s, AtGate)
  }

  /** open_attempt leaves with an exception after it was given a permit. */
  function CancelOpening(st: State, s: Sid, now: real): State
    requires s in st.sessions
    requires st.sessions[s].task.AwaitingQuota? || st.sessions[s].task.AwaitingSlot? || st.sessions[s].task.SlotGranted?
  {
    var st := At(st, now);
    var t := st.sessions[s].task;
    var st1 := if t.SlotGranted? then st.(freeSlots := st.freeSlots + 1) else st;
    Goto(AbandonProbe(st1, s, t.permit, now), s, Idle)
  }

  /** _attempt_succeeded and _attempt_rejected: a probe that was answered ends the episode. */
  function ProbeAnswered(st: State, s: Sid, now: real): State
    requires s in st.sessions && st.sessions[s].task.Active?
  {
    var st := At(st, now);
    var t := st.sessions[s].task;
    if t.resolved then st
    else Goto(if MatchingProbe(st, s, t.permit) then st.(episode := None) else st, s, t.(resolved := true))
  }

  /** _attempt_corrected: the probe is given back, the leadership kept. */
  function RetryImmediately(st: State, s: Sid, now: real): State
    requires s in st.sessions && st.sessions[s].task.Active?
  {
    var st := At(st, now);
    var t := st.sessions[s].task;
    if t.resolved then st
    else
      Goto(if MatchingProbe(st, s, t.permit)
           then st.(episode := Some(st.episode.value.(probeActive := false, readyAt := now))) else st,
           s, t.(resolved := true))
  }

  /** Every recorded waiter is told that the recovery failed. */
  function FailAll(sessions: map<Sid, Session>, waiters: set<Sid>, error: ProviderError): map<Sid, Session> {
    map s | s in sessions :: if s in waiters then sessions[s].(failure := Some(error)) else sessions[s]
  }

  lemma FailNobody(error: ProviderError)
    ensures forall sessions :: FailAll(sessions, {}, error) == sessions
  {
  }

  function Terminate(st: State, error: ProviderError, until: real): State
    requires st.episode.Some?
  {
    var e := st.episode.value;
    st.(sessions := FailAll(st.sessions, e.waiters, error),
        episode := Some(e.(lastError := error, leader := None, probeActive := false,
                           terminalUntil := Some(until), waiters := {})))
  }

  /** _attempt_failed. `delay` and `cooldown` are two draws of _retry_delay. */
  function AttemptFailed(st: State, s: Sid, now: real, error: ProviderError, delay: real, cooldown: real): State
    requires s in st.sessions && st.sessions[s].task.Active?
  {
    var st := At(st, now);
    var x := st.sessions[s];
    var t := x.task;
    if t.resolved then st
    else
      var canRetry := x.started < x.budget;
      var probe := MatchingProbe(st, s, t.permit);
      var y := x.(task := t.(resolved := true));
      if canRetry then
        if st.episode.None? then Put(OpenEpisode(st, Some(s), now + delay, error), s, y)
        else
          var e := st.episode.value;
          if probe then
            Put(st.(episode := Some(e.(lastError := error, probeActive := false, readyAt := now + delay))), s, y)
          else if e.terminalUntil.Some? then Put(st, s, y.(failure := Some(e.lastError)))
          else Put(st.(episode := Some(e.(waiters := e.waiters + {s}))), s, y)
      else if st.episode.None? then
        Terminate(Put(OpenEpisode(st, None, now, error), s, y), error, now + cooldown)
      else if probe then
        Terminate(Put(st, s, y), error, now + cooldown)
      else Put(st, s, y)
  }

  /** aclose up to its first suspension. An unresolved attempt leaves its abandonment to a shielded task. */
  function BeginClose(st: State, s: Sid): State
    requires s in st.sessions && st.sessions[s].task.Active?
  {
    var x := st.sessions[s];
    var t := x.task;
    if t.resolved then Goto(st.(freeSlots := st.freeSlots + 1), s, Idle)
    else Put(st, s, x.(task := Closing, abandoning := if t.permit.probe then Some(t.permit) else x.abandoning))
  }

  function RunAbandonment(st: State, s: Sid, now: real): State
    requires s in st.sessions && st.sessions[s].abandoning.Some?
  {
    var st := At(st, now);
    var x := st.sessions[s];
    Put(AbandonProbe(st, s, x.abandoning.value, now), s, x.(abandoning := None))
  }

  /** The `finally` of aclose; a cancelled caller reaches it before the abandonment has run. */
  function EndClose(st: State, s: Sid): State
    requires s in st.sessions && st.sessions[s].task.Closing?
  {
    Goto(st.(freeSlots := st.freeSlots + 1), s, Idle)
  }

  /** aclose of an attempt that was left behind: it has an outcome, so only its slot is given back. */
  function CloseLingering(st: State, s: Sid, attempt: nat): State
    requires s in st.sessions
  {
    var x := st.sessions[s];
    Put(st.(freeSlots := st.freeSlots + 1), s, x.(lingering := x.lingering - multiset{attempt}))
  }

  datatype Step =
    | DoNewSession(s: Sid)
    | DoOpenAttempt(s: Sid)
    | DoGate(s: Sid, now: real)
    | DoWake(s: Sid)
    | DoBackoffOver(s: Sid, now: real)
    | DoCancelParked(s: Sid, now: real)
    | DoCancelBackoff(s: Sid, now: real)
    | DoQuota(s: Sid, now: real, stamp: real)
    | DoGrantSlot(s: Sid)
    | DoClaim(s: Sid, now: real)
    | DoCancelOpening(s: Sid, now: real)
    | DoProbeAnswered(s: Sid, now: real)
    | DoRetryImmediately(s: Sid, now: real)
    | DoAttemptFailed(s: Sid, now: real, error: ProviderError, delay: real, cooldown: real)
    | DoBeginClose(s: Sid)
    | DoRunAbandonment(s: Sid, now: real)
    | DoEndClose(s: Sid)
    | DoCloseLingering(s: Sid, attempt: nat)
  {
    /** The clock reading of the step, if it takes one. */
    function Time(clock: real): real {
      match this
      case DoNewSession(_) => clock
      case DoOpenAttempt(_) => clock
      case DoWake(_) => clock
      case DoGrantSlot(_) => clock
      case DoBeginClose(_) => clock
      case DoEndClose(_) => clock
      case DoCloseLingering(_, _) => clock
      case DoQuota(_, n, _) => n
      case DoGate(_, n) => n
      case DoBackoffOver(_, n) => n
      case DoCancelParked(_, n) => n
      case DoCancelBackoff(_, n) => n
      case DoClaim(_, n) => n
      case DoCancelOpening(_, n) => n
      case DoProbeAnswered(_, n) => n
      case DoRetryImmediately(_, n) => n
      case DoAttemptFailed(_, n, _, _, _) => n
      case DoRunAbandonment(_, n) => n
    }
  }

  /** The step is one its session's coroutine can take next. */
  predicate Enabled(st: State, a: Step) {
    && a.Time(st.clock) >= st.clock
    && (a.DoNewSession? <==> a.s !in st.sessions)
    && (a.s in st.sessions ==>
          var x := st.sessions[a.s];
          match a
          case DoNewSession(_) => true
          case DoOpenAttempt(_) => x.task.CanOpen()
          case DoGate(_, _) => x.task.AtGate?
          case DoWake(_) => x.task.Parked?
          case DoBackoffOver(_, now) => x.task.BackingOff? && now >= x.task.until
          case DoCancelParked(_, _) => x.task.Parked?
          case DoCancelBackoff(_, _) => x.task.BackingOff?
          case DoQuota(_, now, stamp) => x.task.AwaitingQuota? && now <= stamp
          case DoGrantSlot(_) => x.task.AwaitingSlot? && st.freeSlots > 0
          case DoClaim(_, _) => x.task.SlotGranted?
          case DoCancelOpening(_, _) => x.task.AwaitingQuota? || x.task.AwaitingSlot? || x.task.SlotGranted?
          case DoProbeAnswered(_, _) => x.task.Active?
          case DoRetryImmediately(_, _) => x.task.Active?
          case DoAttemptFailed(_, _, _, delay, cooldown) => x.task.Active? && delay >= 0.0 && cooldown >= 0.0
          case DoBeginClose(_) => x.task.Active?
          case DoRunAbandonment(_, _) => x.abandoning.Some?
          case DoEndClose(_) => x.task.Closing?
          // the coroutine that closes it is not suspended in a call of open_attempt or aclose
          case DoCloseLingering(_, attempt) => attempt in x.lingering && (x.task.Idle? || x.task.Active?))
  }

  function Apply(c: Config, st: State, a: Step): State
    requires c.Valid() && Enabled(st, a)
  {
    match a
    case DoNewSession(s) => NewSession(st, s, c.attempts)
    case DoOpenAttempt(s) => OpenAttempt(st, s)
    case DoGate(s, now) => Gate(st, s, now).0
    case DoWake(s) => Goto(st, s, AtGate)
    case DoBackoffOver(s, now) => BackoffOver(st, s, now)
    case DoCancelParked(s, now) => CancelParked(st, s, now)
    case DoCancelBackoff(s, now) => CancelBackoff(st, s, now)
    case DoQuota(s, now, stamp) => Quota(c, st, s, now, stamp)
    case DoGrantSlot(s) => GrantSlot(st, s)
    case DoClaim(s, now) => ClaimAttempt(st, s, now)
    case DoCancelOpening(s, now) => CancelOpening(st, s, now)
    case DoProbeAnswered(s, now) => ProbeAnswered(st, s, now)
    case DoRetryImmediately(s, now) => RetryImmediately(st, s, now)
    case DoAttemptFailed(s, now, error, delay, cooldown) => AttemptFailed(st, s, now, error, delay, cooldown)
    case DoBeginClose(s) => BeginClose(st, s)
    case DoRunAbandonment(s, now) => RunAbandonment(st, s, now)
    case DoEndClose(s) => EndClose(st, s)
    case DoCloseLingering(s, attempt) => CloseLingering(st, s, attempt)
  }

  function Init(c: Config, clock: real): State {
    State(clock, None, 1, c.slots, RL.EMPTY, map[], [])
  }

  ghost predicate Runnable(c: Config, st: State, run: seq<Step>)
    requires c.Valid()
    decreases |run|
  {
    run == [] || (Enabled(st, run[0]) && Runnable(c, Apply(c, st, run[0]), run[1..]))
  }

  ghost function Run(c: Config, st: State, run: seq<Step>): State
    requires c.Valid() && Runnable(c, st, run)
    decreases |run|
  {
    if run == [] then st else Run(c, Apply(c, st, run[0]), run[1..])
  }

  /** Runs grow at their end. */
  lemma {:induction false} RunGrows(c: Config, st: State, run: seq<Step>, a: Step)
    requires c.Valid() && Runnable(c, st, run) && Enabled(Run(c, st, run), a)
    ensures Runnable(c, st, run + [a])
    ensures Run(c, st, run + [a]) == Apply(c, Run(c, st, run), a)
    decreases |run|
  {
    if run == [] {
      assert [a][1..] == [];
      assert run + [a] == [a];
    } else {
      assert (run + [a])[1..] == run[1..] + [a];
      RunGrows(c, Apply(c, st, run[0]), run[1..], a);
    }
  }
}
