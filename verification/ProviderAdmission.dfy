/**
 The objects of providers/admission.py. Each method is one step between two awaits; the local
 variables a coroutine keeps across an await are its parameters, and the ghost `task` of the
 session says which step comes next. Every method is the step of the transition system named in
 its postcondition, and keeps every invariant proved of that system.
 */
module ProviderAdmission {
  import opened Options
  import RL = RateLimit
  import opened AdmissionModel
  import Safety = AdmissionSafety
  import Resources = AdmissionResources
  import Theorems = AdmissionTheorems

  // --- _retry_delay ---

  /** base * 2**times */
  function Doubled(base: real, times: nat): real {
    if times == 0 then base else 2.0 * Doubled(base, times - 1)
  }

  function Min(x: real, y: real): real { if x <= y then x else y }

  function Max(x: real, y: real): real { if x <= y then y else x }

  /** Backoff with its cap and jitter, or the server's Retry-After if that is longer. */
  function Combine(backoff: real, ceiling: real, draw: real, retryAfter: Option<real>): real {
    Max(Min(backoff, ceiling) + draw, if retryAfter.Some? then retryAfter.value else 0.0)
  }

  /** `draw` is the random jitter, `retryAfter` the parsed header of the failed response. */
  function RetryDelay(base: real, ceiling: real, attempt: nat, draw: real, retryAfter: Option<real>): real {
    Combine(Doubled(base, if attempt == 0 then 0 else attempt - 1), ceiling, draw, retryAfter)
  }

  lemma {:induction false} DoublingGrows(base: real, m: nat, n: nat)
    requires base >= 0.0 && m <= n
    ensures base <= Doubled(base, m) <= Doubled(base, n)
    decreases n
  {
    if m < n {
      DoublingGrows(base, m, n - 1);
    } else if n > 0 {
      DoublingGrows(base, n - 1, n - 1);
    }
  }

  lemma CombineBounds(base: real, x: real, y: real, ceiling: real, jitter: real, draw: real, retryAfter: Option<real>)
    requires 0.0 <= base <= ceiling && base <= x <= y && 0.0 <= draw <= jitter
    ensures var d := Combine(x, ceiling, draw, retryAfter);
            && (retryAfter.Some? ==> d >= retryAfter.value)
            && base <= d <= Max(ceiling + jitter, if retryAfter.Some? then retryAfter.value else 0.0)
            && d <= Combine(y, ceiling, draw, retryAfter)
  {
  }

  /** The server's Retry-After is a minimum; the backoff starts at base, never shrinks, and is capped before jitter. */
  lemma RetryDelayBounds(base: real, ceiling: real, jitter: real, attempt: nat, later: nat, draw: real,
                         retryAfter: Option<real>)
    requires 0.0 <= base <= ceiling && 0.0 <= draw <= jitter && attempt <= later
    ensures var d := RetryDelay(base, ceiling, attempt, draw, retryAfter);
            && (retryAfter.Some? ==> d >= retryAfter.value)
            && base <= d <= Max(ceiling + jitter, if retryAfter.Some? then retryAfter.value else 0.0)
            && d <= RetryDelay(base, ceiling, later, draw, retryAfter)
  {
    var m, n := if attempt == 0 then 0 else attempt - 1, if later == 0 then 0 else later - 1;
    DoublingGrows(base, m, n);
    CombineBounds(base, Doubled(base, m), Doubled(base, n), ceiling, jitter, draw, retryAfter);
  }

  /** Without jitter and header the delays start at base_delay and double with each attempt, up to max_delay. */
  lemma DelaysDouble(base: real, ceiling: real, attempt: nat)
    requires 0.0 <= base <= ceiling
    ensures RetryDelay(base, ceiling, 0, 0.0, None) == RetryDelay(base, ceiling, 1, 0.0, None) == base
    ensures attempt > 0 ==> RetryDelay(base, ceiling, attempt + 1, 0.0, None)
                            == Min(2.0 * RetryDelay(base, ceiling, attempt, 0.0, None), ceiling)
  {
    if attempt > 0 { DoublingGrows(base, 0, attempt - 1); }
  }

  /** The jitter is added, and a longer Retry-After replaces the sum. */
  lemma JitterAndHeader(base: real, ceiling: real, attempt: nat, draw: real, header: real)
    requires 0.0 <= base <= ceiling && draw >= 0.0
    ensures RetryDelay(base, ceiling, attempt, draw, None) == RetryDelay(base, ceiling, attempt, 0.0, None) + draw
    ensures RetryDelay(base, ceiling, attempt, draw, Some(header))
            == Max(RetryDelay(base, ceiling, attempt, draw, None), header)
  {
    DoublingGrows(base, 0, if attempt == 0 then 0 else attempt - 1);
  }

  // --- run_with_retry ---

  /** How one call of `fn` ends. */
  datatype Call = Returned | Cancelled | Failed(retryable: bool)

  /** What one turn of the loop meets: open_attempt admits or raises, then `fn` is called. */
  datatype Turn = Turn(admitted: bool, call: Call)

  datatype Ending = NotAdmitted | Ended(call: Call)

  /**
   The loop of run_with_retry against any environment, alone with its session. `attempt.retry` answers
   as in `ProviderAttempt.Retry`: retry a retryable failure while the session has budget. So `fn` is called
   at most maxAttempts times, only retryable failures are repeated, and the last outcome is passed on.
   */
  method RunWithRetry(maxAttempts: nat, turn: nat -> Turn) returns (ending: Ending, calls: nat)
    requires maxAttempts > 0
    ensures calls <= maxAttempts
    ensures forall i :: 0 <= i < calls - 1 ==> turn(i) == Turn(true, Failed(true))
    ensures ending.NotAdmitted? ==> calls < maxAttempts && !turn(calls).admitted
                                    && (calls > 0 ==> turn(calls - 1) == Turn(true, Failed(true)))
    ensures ending.Ended? ==> calls > 0 && turn(calls - 1) == Turn(true, ending.call)
    ensures ending == Ended(Failed(true)) ==> calls == maxAttempts
  {
    var session := new ProviderRetrySession(maxAttempts);
    calls := 0;
    while true
      invariant calls == session.attemptsStarted && session.maxAttempts == maxAttempts && session.CanAttempt()
      invariant forall i :: 0 <= i < calls ==> turn(i) == Turn(true, Failed(true))
      decreases maxAttempts - calls
    {
      if !turn(calls).admitted {
        return NotAdmitted, calls;
      }
      var _ := session.ClaimAttempt();
      var call := turn(calls).call;
      calls := calls + 1;
      if call.Returned? || call.Cancelled? {
        return Ended(call), calls;
      }
      var shouldRetry := call.retryable && session.CanAttempt();
      if !shouldRetry {
        return Ended(call), calls;
      }
    }
  }

  // --- The objects ---

  class RecoveryEpisode {
    const generation: nat
    var leader: Option<ProviderRetrySession>
    var readyAt: real
    var lastError: ProviderError
    var waiters: set<ProviderRetrySession>
    var probeActive: bool
    var terminalUntil: Option<real>

    ghost function View(): Episode
      reads this
    {
      Episode(generation, leader, readyAt, lastError, waiters, probeActive, terminalUntil)
    }

    constructor (generation: nat, leader: Option<ProviderRetrySession>, readyAt: real, lastError: ProviderError)
      ensures View() == Episode(generation, leader, readyAt, lastError, {}, false, None)
    {
      this.generation, this.leader, this.readyAt, this.lastError := generation, leader, readyAt, lastError;
      waiters, probeActive, terminalUntil := {}, false, None;
    }
  }

  class ProviderAdmissionController {
    const maxConcurrency: nat
    const maxAttempts: nat
    const baseDelay: real
    const maxDelay: real
    const jitter: real
    const limiter: RL.StrictSlidingWindowLimiter
    var freeSlots: nat
    var episode: RecoveryEpisode?
    var nextGeneration: nat
    ghost var clock: real
    ghost var executions: map<ProviderRetrySession, Session>
    ghost var claims: seq<Claim>
    ghost var start: real
    ghost var history: seq<Step>

    ghost function Settings(): Config { Config(limiter.Bounds(), maxConcurrency, maxAttempts) }

    ghost predicate Sound() { Settings().Valid() && 0.0 <= baseDelay <= maxDelay && 0.0 <= jitter }

    ghost function EpisodeView(): Option<Episode>
      reads this`episode, episode
    {
      if episode == null then None else Some(episode.View())
    }

    ghost function View(): State
      reads `clock, `episode, `nextGeneration, `freeSlots, `executions, `claims, limiter, episode
    {
      State(clock, EpisodeView(), nextGeneration, freeSlots, limiter.View(), executions, claims)
    }

    /** `executions` adds to each session object where its coroutine is suspended. */
    ghost predicate Coupled()
      reads `executions, executions.Keys
    {
      forall s :: s in executions ==> Matches(s, executions[s])
    }

    static ghost predicate Matches(session: ProviderRetrySession, x: Session)
      reads session
    {
      session.attemptsStarted == x.started && session.maxAttempts == x.budget && session.terminalError == x.failure
    }

    /** The recorded run of the protocol leads to this state. */
    ghost predicate Reached(st: State)
      reads `start, `history
      requires Sound()
    {
      && Runnable(Settings(), Init(Settings(), start), history)
      && st == Run(Settings(), Init(Settings(), start), history)
    }

    ghost predicate Valid()
      reads this, limiter, episode, executions.Keys
    {
      Sound() && Coupled() && Reached(View())
    }

    /** So everything proved of reachable states holds of the object. */
    lemma Reachable()
      requires Valid()
      ensures Safety.Inv(View())
      ensures Resources.SlotsConserved(Settings(), View())
      ensures Resources.QuotaOk(Settings(), View())
    {
      var init := Init(Settings(), start);
      Safety.InitKeepsInv(Settings(), start);
      Theorems.RunKeepsInv(Settings(), init, history);
      assert Resources.Held(init) == {};
      Resources.SlotsAreConserved(Settings(), init, history);
      Resources.RunKeepsQuota(Settings(), init, history);
    }

    lemma WaitersAreSessions()
      requires Valid()
      ensures episode != null ==> episode.waiters <= executions.Keys
    {
      Reachable();
      assert Safety.EpisodeOk(View());
    }

    lemma OpenersHaveBudget(session: ProviderRetrySession)
      requires Valid() && session in executions && executions[session].task.Opening()
      ensures session.CanAttempt()
    {
      Reachable();
      assert Safety.SessionOk(View(), session) && Matches(session, executions[session]);
    }

    /** The controller has taken step `a` of the protocol, and only that. */
    twostate predicate Took(new a: Step)
      reads this, limiter, episode, executions.Keys
    {
      && Valid()
      && Enabled(old(View()), a)
      && View() == Apply(Settings(), old(View()), a)
      && history == old(history) + [a]
      && (episode == old(episode) || episode == null || fresh(episode))
    }

    ghost method Record(before: State, a: Step)
      requires Sound() && Coupled() && Reached(before)
      requires Enabled(before, a) && View() == Apply(Settings(), before, a)
      modifies `history
      ensures Valid() && history == old(history) + [a]
    {
      hide Coupled;
      RunGrows(Settings(), Init(Settings(), start), history, a);
      history := history + [a];
    }

    /** The execution moves on. */
    ghost method Goto(session: ProviderRetrySession, task: Task)
      requires Coupled() && session in executions
      modifies `executions
      ensures executions == old(executions)[session := old(executions)[session].(task := task)] && Coupled()
    {
      executions := executions[session := executions[session].(task := task)];
    }

    constructor (rateLimit: nat, rateWindow: real, maxConcurrency: nat, maxAttempts: nat,
                 baseDelay: real, maxDelay: real, jitter: real, ghost now: real)
      requires rateLimit > 0 && rateWindow > 0.0 && maxConcurrency > 0 && maxAttempts > 0
      requires 0.0 <= baseDelay <= maxDelay && 0.0 <= jitter
      ensures Valid() && fresh(limiter)
      ensures Settings() == Config(RL.Limits(rateLimit, rateWindow), maxConcurrency, maxAttempts)
      ensures View() == Init(Settings(), now)
    {
      this.maxConcurrency, this.maxAttempts := maxConcurrency, maxAttempts;
      this.baseDelay, this.maxDelay, this.jitter := baseDelay, maxDelay, jitter;
      limiter := new RL.StrictSlidingWindowLimiter(rateLimit, rateWindow);
      freeSlots, episode, nextGeneration := maxConcurrency, null, 1;
      clock, executions, claims := now, map[], [];
      start, history := now, [];
    }

    method NewRetrySession() returns (session: ProviderRetrySession)
      requires Valid()
      modifies `executions, `history
      ensures fresh(session) && Took(DoNewSession(session))
    {
      hide Reached;
      ghost var before := View();
      session := new ProviderRetrySession(maxAttempts);
      executions := executions[session := Session(0, maxAttempts, None, Idle, None, multiset{})];
      Record(before, DoNewSession(session));
    }

    /** open_attempt is called. The session may still have an attempt open, if that one has an outcome. */
    method OpenAttempt(session: ProviderRetrySession) returns (accepted: bool)
      requires Valid() && session in executions && executions[session].task.CanOpen()
      modifies `executions, `history
      ensures Took(DoOpenAttempt(session))
      ensures accepted <==> session.CanAttempt()
    {
      hide Reached;
      ghost var before, x := View(), executions[session];
      accepted := session.CanAttempt();
      if accepted {
        executions := executions[session := x.(task := AtGate, lingering := Lingering(x))];
      }
      Record(before, DoOpenAttempt(session));
    }

    // --- The gate ---

    method StartRecoveryEpisode(leader: Option<ProviderRetrySession>, readyAt: real, lastError: ProviderError)
      modifies `episode, `nextGeneration
      ensures episode != null && fresh(episode)
      ensures episode.View() == Episode(old(nextGeneration), leader, readyAt, lastError, {}, false, None)
      ensures nextGeneration == old(nextGeneration) + 1
    {
      episode := new RecoveryEpisode(nextGeneration, leader, readyAt, lastError);
      nextGeneration := nextGeneration + 1;
    }

    /** One pass of _wait_for_gate. */
    method Gate(session: ProviderRetrySession, now: real) returns (result: GateResult)
      requires Valid() && session in executions && executions[session].task.AtGate? && now >= clock
      modifies `episode, `history, `nextGeneration, `clock, `executions, episode
      ensures Took(DoGate(session, now))
      ensures result == AdmissionModel.Gate(old(View()), session, now).1
    {
      hide Coupled, Reached;
      ghost var before := View();
      clock := now;
      result := GateSection(session, now);
      Record(before, DoGate(session, now));
    }

    /** The section itself, run with the clock at `now`. */
    method GateSection(session: ProviderRetrySession, now: real) returns (result: GateResult)
      requires Coupled() && session in executions && now == clock
      modifies `episode, `nextGeneration, `executions, episode
      ensures Coupled() && (View(), result) == AdmissionModel.Gate(old(View()), session, now)
      ensures episode == old(episode) || (episode != null && fresh(episode))
    {
      if session.terminalError.Some? {
        result := Exhausted(session.terminalError.value);
        Goto(session, Idle);
      } else if episode == null {
        result := Granted(GatePermit(None, false));
        Goto(session, AwaitingQuota(result.permit));
      } else if episode.terminalUntil.Some? && now < episode.terminalUntil.value {
        result := Exhausted(episode.lastError);
        Goto(session, Idle);
      } else {
        result := EpisodeSection(session, now);
      }
    }

    /** What a session does at an open episode. */
    method EpisodeSection(session: ProviderRetrySession, now: real) returns (result: GateResult)
      requires Coupled() && session in executions && episode != null
      modifies `episode, `nextGeneration, `executions, episode
      ensures Coupled() && (View(), result) == EpisodeGate(old(View()), session, now)
      ensures episode == old(episode) || (episode != null && fresh(episode))
    {
      if episode.terminalUntil.Some? {
        StartRecoveryEpisode(Some(session), now, episode.lastError);
      } else if episode.leader.None? {
        episode.leader := Some(session);
        episode.waiters := episode.waiters - {session};
      }
      if episode.leader == Some(session) {
        result := LeaderSection(session, now);
      } else {
        episode.waiters := episode.waiters + {session};
        result := Wait;
        Goto(session, Parked(Some(episode.generation)));
      }
    }

    /** What the leader does at the gate. */
    method LeaderSection(session: ProviderRetrySession, now: real) returns (result: GateResult)
      requires Coupled() && session in executions && episode != null
      modifies `executions, episode
      ensures Coupled() && (View(), result) == LeaderGate(old(View()), session, now)
    {
      var delay := Max(0.0, episode.readyAt - now);
      if episode.probeActive {
        result := Wait;
        Goto(session, Parked(None));
      } else if delay == 0.0 {
        episode.probeActive := true;
        result := Granted(GatePermit(Some(episode.generation), true));
        Goto(session, AwaitingQuota(result.permit));
      } else {
        result := Sleep(delay);
        Goto(session, BackingOff(episode.generation, episode.readyAt));
      }
    }

    /** A parked task runs again and goes back to the top of the loop. */
    method Wake(session: ProviderRetrySession)
      requires Valid() && session in executions && executions[session].task.Parked?
      modifies `executions, `history
      ensures Took(DoWake(session))
    {
      hide Coupled, Reached;
      ghost var before := View();
      Goto(session, AtGate);
      Record(before, DoWake(session));
    }

    /** The section after asyncio.sleep; `claimed` is the generation remembered across it. */
    method BackoffOver(session: ProviderRetrySession, claimed: nat, now: real) returns (permit: Option<GatePermit>)
      requires Valid() && session in executions && now >= clock
      requires var t := executions[session].task; t.BackingOff? && t.claimed == claimed && now >= t.until
      modifies `clock, `history, `executions, episode
      ensures Took(DoBackoffOver(session, now))
      ensures executions[session].task == if permit.Some? then AwaitingQuota(permit.value) else AtGate
    {
      hide Coupled, Reached;
      ghost var before := View();
      clock := now;
      permit := None;
      if episode != null && episode.generation == claimed && episode.terminalUntil.None?
         && episode.leader == Some(session) && !episode.probeActive
      {
        episode.probeActive := true;
        permit := Some(GatePermit(Some(claimed), true));
      }
      Goto(session, if permit.Some? then AwaitingQuota(permit.value) else AtGate);
      Record(before, DoBackoffOver(session, now));
    }

    /** A waiter is cancelled in condition.wait(). */
    method CancelParked(session: ProviderRetrySession, recorded: Option<nat>, now: real)
      requires Valid() && session in executions && now >= clock
      requires executions[session].task == Parked(recorded)
      modifies `clock, `history, `executions, episode
      ensures Took(DoCancelParked(session, now))
    {
      hide Coupled, Reached;
      ghost var before := View();
      clock := now;
      if recorded.Some? && episode != null && episode.generation == recorded.value {
        episode.waiters := episode.waiters - {session};
      }
      Goto(session, Idle);
      Record(before, DoCancelParked(session, now));
    }

    /** The leader is cancelled in its backoff: _abandon_waiting_leader. */
    method CancelBackoff(session: ProviderRetrySession, claimed: nat, now: real)
      requires Valid() && session in executions && now >= clock
      requires executions[session].task.BackingOff? && executions[session].task.claimed == claimed
      modifies `clock, `history, `executions, episode
      ensures Took(DoCancelBackoff(session, now))
    {
      hide Coupled, Reached;
      ghost var before := View();
      clock := now;
      if episode != null && episode.generation == claimed && episode.leader == Some(session) && !episode.probeActive {
        episode.leader := None;
      }
      Goto(session, Idle);
      Record(before, DoCancelBackoff(session, now));
    }

    // --- Permits ---

    /** _permit_is_current */
    predicate IsCurrent(session: ProviderRetrySession, permit: GatePermit)
      reads this`episode, episode
      ensures IsCurrent(session, permit) <==> Current(EpisodeView(), session, permit)
    {
      if !permit.probe then episode == null
      else
        && episode != null
        && Some(episode.generation) == permit.generation
        && episode.terminalUntil.None?
        && episode.leader == Some(session)
        && episode.probeActive
    }

    /** _matching_probe */
    predicate IsMatchingProbe(session: ProviderRetrySession, permit: GatePermit)
      reads this`episode, episode
      ensures IsMatchingProbe(session, permit) <==> Probes(EpisodeView(), session, permit)
    {
      && permit.probe
      && episode != null
      && Some(episode.generation) == permit.generation
      && episode.leader == Some(session)
      && episode.probeActive
    }

    /** _abandon_probe_permit and _attempt_abandoned. */
    method AbandonProbePermit(session: ProviderRetrySession, permit: GatePermit, now: real)
      modifies episode
      ensures EpisodeView() == Abandoned(old(EpisodeView()), session, permit, now)
    {
      if IsMatchingProbe(session, permit) {
        episode.leader := None;
        episode.probeActive := false;
        episode.readyAt := now;
      }
    }

    // --- open_attempt after the gate ---

    /** One section of acquire_if inside open_attempt. */
    method AwaitQuota(session: ProviderRetrySession, permit: GatePermit, now: real, stamp: real)
      returns (outcome: RL.Outcome)
      requires Valid() && session in executions && clock <= now <= stamp
      requires executions[session].task == AwaitingQuota(permit)
      modifies `clock, `history, `executions, limiter, episode
      ensures Took(DoQuota(session, now, stamp))
      ensures outcome == RL.Section(limiter.Bounds(), old(limiter.View()), now, stamp,
                                    PermitIsCurrent(old(View()), session, permit)).1
    {
      hide Coupled, Reached;
      ghost var before := View();
      outcome := QuotaSection(session, permit, now, stamp);
      Record(before, DoQuota(session, now, stamp));
    }

    /** The section and what open_attempt does right after it. */
    method QuotaSection(session: ProviderRetrySession, permit: GatePermit, now: real, stamp: real)
      returns (outcome: RL.Outcome)
      requires Sound() && Coupled() && session in executions && executions[session].task == AwaitingQuota(permit)
      modifies `clock, `executions, limiter, episode
      ensures Coupled() && View() == Quota(Settings(), old(View()), session, now, stamp)
      ensures outcome == RL.Section(limiter.Bounds(), old(limiter.View()), now, stamp,
                                    PermitIsCurrent(old(View()), session, permit)).1
    {
      outcome := limiter.TryAcquire(now, stamp, IsCurrent(session, permit));
      clock := stamp;
      match outcome {
        case Full(_) =>
        case Refused =>
          AbandonProbePermit(session, permit, stamp);
          Goto(session, AtGate);
        case Admitted =>
          Goto(session, AwaitingSlot(permit, |limiter.history| - 1));
      }
    }

    /** The semaphore hands a slot to a waiting opener. */
    method GrantSlot(session: ProviderRetrySession)
      requires Valid() && session in executions && executions[session].task.AwaitingSlot? && freeSlots > 0
      modifies `freeSlots, `history, `executions
      ensures Took(DoGrantSlot(session))
    {
      hide Coupled, Reached;
      ghost var before := View();
      freeSlots := freeSlots - 1;
      Goto(session, SlotGranted(executions[session].task.permit, executions[session].task.stamp));
      Record(before, DoGrantSlot(session));
    }

    method ReleaseConcurrency()
      modifies this`freeSlots
      ensures freeSlots == old(freeSlots) + 1
    {
      freeSlots := freeSlots + 1;
    }

    /** open_attempt after the semaphore: the last look at the permit, and the claim. */
    method ClaimAttempt(session: ProviderRetrySession, permit: GatePermit, now: real)
      returns (attempt: ProviderAttempt?)
      requires Valid() && session in executions && now >= clock
      requires executions[session].task.SlotGranted? && executions[session].task.permit == permit
      modifies `clock, `history, `freeSlots, `claims, `executions, episode, session`attemptsStarted
      ensures Took(DoClaim(session, now))
      ensures attempt != null <==> PermitIsCurrent(At(old(View()), now), session, permit)
      ensures attempt != null ==> fresh(attempt) && attempt.IsNew(this, session, permit)
    {
      hide Coupled, Reached;
      ghost var before, stamp := View(), executions[session].task.stamp;
      OpenersHaveBudget(session);
      clock := now;
      attempt := null;
      if IsCurrent(session, permit) {
        ClaimCurrent(session, permit, stamp);
        attempt := new ProviderAttempt(this, session, permit, stamp);
      } else {
        ReturnSlot(session, permit, now);
      }
      Record(before, DoClaim(session, now));
    }

    /** A stale permit: the slot goes back and the opener starts over. */
    method ReturnSlot(session: ProviderRetrySession, permit: GatePermit, now: real)
      requires Coupled() && session in executions
      modifies `freeSlots, `executions, episode
      ensures Coupled() && freeSlots == old(freeSlots) + 1
      ensures executions == old(executions)[session := old(executions)[session].(task := AtGate)]
      ensures EpisodeView() == Abandoned(old(EpisodeView()), session, permit, now)
    {
      ReleaseConcurrency();
      AbandonProbePermit(session, permit, now);
      Goto(session, AtGate);
    }

    method ClaimCurrent(session: ProviderRetrySession, permit: GatePermit, ghost stamp: nat)
      requires Coupled() && session in executions && session.CanAttempt()
      modifies `claims, `executions, session`attemptsStarted
      ensures Coupled() && claims == old(claims) + [Claim(session, stamp)]
      ensures executions == old(executions)[session := old(executions)[session].(
                              started := old(executions)[session].started + 1, task := Active(permit, stamp, false))]
    {
      ghost var x := executions[session];
      var _ := session.ClaimAttempt();
      claims := claims + [Claim(session, stamp)];
      executions := executions[session := x.(started := x.started + 1, task := Active(permit, stamp, false))];
    }

    /** open_attempt is left by an exception after it was given a permit. */
    method CancelOpening(session: ProviderRetrySession, permit: GatePermit, slotAcquired: bool, now: real)
      requires Valid() && session in executions && now >= clock
      requires var t := executions[session].task;
               && (t.AwaitingQuota? || t.AwaitingSlot? || t.SlotGranted?)
               && t.permit == permit && (slotAcquired <==> t.SlotGranted?)
      modifies `clock, `history, `freeSlots, `executions, episode
      ensures Took(DoCancelOpening(session, now))
    {
      hide Coupled, Reached;
      ghost var before := View();
      clock := now;
      if slotAcquired {
        ReleaseConcurrency();
      }
      AbandonProbePermit(session, permit, now);
      Goto(session, Idle);
      Record(before, DoCancelOpening(session, now));
    }

    // --- What becomes of an attempt ---

    /** The shielded abandonment of an attempt closed without an outcome. */
    method RunAbandonment(session: ProviderRetrySession, permit: GatePermit, now: real)
      requires Valid() && session in executions && now >= clock && executions[session].abandoning == Some(permit)
      modifies `clock, `history, `executions, episode
      ensures Took(DoRunAbandonment(session, now))
    {
      hide Reached;
      ghost var before := View();
      clock := now;
      AbandonProbePermit(session, permit, now);
      executions := executions[session := executions[session].(abandoning := None)];
      Record(before, DoRunAbandonment(session, now));
    }

    /** The session's attempt has no outcome yet. */
    ghost predicate Unresolved(session: ProviderRetrySession, permit: GatePermit)
      reads `executions
    {
      && session in executions
      && executions[session].task.Active?
      && executions[session].task.permit == permit && !executions[session].task.resolved
    }

    ghost method Resolve(session: ProviderRetrySession)
      requires Coupled() && session in executions && executions[session].task.Active?
      modifies `executions
      ensures Coupled()
      ensures executions == old(executions)[session := old(executions)[session].(
                              task := old(executions)[session].task.(resolved := true))]
    {
      Goto(session, executions[session].task.(resolved := true));
    }

    /** An unresolved probe is always the one the episode waits for. */
    lemma ProbeMatches(session: ProviderRetrySession, permit: GatePermit)
      requires Valid() && Unresolved(session, permit) && permit.probe
      ensures episode != null && permit.generation == Some(episode.generation)
      ensures episode.leader == Some(session) && episode.probeActive
    {
      Reachable();
      assert Safety.SessionOk(View(), session);
    }

    /** _attempt_succeeded and _attempt_rejected: an answered probe closes the episode. */
    method AttemptAnswered(session: ProviderRetrySession, permit: GatePermit, now: real)
      requires Valid() && now >= clock && Unresolved(session, permit)
      modifies `clock, `history, `episode, `executions
      ensures Took(DoProbeAnswered(session, now))
      ensures executions[session].task == old(executions[session].task).(resolved := true)
      ensures if old(episode != null && permit.probe && permit.generation == Some(episode.generation)
                     && episode.leader == Some(session) && episode.probeActive)
              then episode == null
              else episode == old(episode) && EpisodeView() == old(EpisodeView())
    {
      hide Coupled, Reached;
      ghost var before := View();
      clock := now;
      if IsMatchingProbe(session, permit) {
        episode := null;
      }
      Resolve(session);
      Record(before, DoProbeAnswered(session, now));
    }

    /** _attempt_corrected */
    method AttemptCorrected(session: ProviderRetrySession, permit: GatePermit, now: real)
      requires Valid() && now >= clock && Unresolved(session, permit)
      modifies `clock, `history, `executions, episode
      ensures Took(DoRetryImmediately(session, now))
      ensures executions[session].task == old(executions[session].task).(resolved := true)
    {
      hide Coupled, Reached;
      ghost var before := View();
      clock := now;
      if IsMatchingProbe(session, permit) {
        episode.probeActive := false;
        episode.readyAt := now;
      }
      Resolve(session);
      Record(before, DoRetryImmediately(session, now));
    }

    // --- _attempt_failed ---

    method FailWaiters(waiters: set<ProviderRetrySession>, error: ProviderError)
      modifies waiters`terminalError
      ensures forall w :: w in waiters ==> w.terminalError == Some(error)
    {
      var rest := waiters;
      while rest != {}
        invariant rest <= waiters
        invariant forall w :: w in waiters && w !in rest ==> w.terminalError == Some(error)
        decreases rest
      {
        var w :| w in rest;
        w.terminalError := Some(error);
        rest := rest - {w};
      }
    }

    /** The waiters that fail with the leader's last probe. */
    static ghost function Told(e: Option<Episode>, session: ProviderRetrySession, permit: GatePermit)
      : set<ProviderRetrySession>
    {
      if Probes(e, session, permit) then e.value.waiters else {}
    }

    /** The episode after the last failure of a session without budget. */
    static ghost function AfterLast(e: Option<Episode>, next: nat, session: ProviderRetrySession, permit: GatePermit,
                                    now: real, error: ProviderError, until: real): Option<Episode> {
      if e.None? then Some(Episode(next, None, now, error, {}, false, Some(until)))
      else if Probes(e, session, permit) then
        Some(e.value.(lastError := error, leader := None, probeActive := false,
                      terminalUntil := Some(until), waiters := {}))
      else e
    }

    /** The half of _attempt_failed for a session without budget: it ends the episode it probes, or a new one. */
    method ExhaustedFailure(session: ProviderRetrySession, permit: GatePermit, now: real, error: ProviderError,
                            until: real)
      requires Coupled() && (episode != null ==> episode.waiters <= executions.Keys)
      modifies `episode, `nextGeneration, `executions, episode, executions.Keys`terminalError
      ensures Coupled() && (episode == old(episode) || fresh(episode))
      ensures nextGeneration == old(nextGeneration) + (if old(episode) == null then 1 else 0)
      ensures EpisodeView() == AfterLast(old(EpisodeView()), old(nextGeneration), session, permit, now, error, until)
      ensures executions == FailAll(old(executions), Told(old(EpisodeView()), session, permit), error)
    {
      FailNobody(error);
      if episode != null && !IsMatchingProbe(session, permit) {
        return;
      }
      if episode == null {
        StartRecoveryEpisode(None, now, error);
      }
      TellWaiters(episode.waiters, error);
      episode.lastError := error;
      episode.leader := None;
      episode.probeActive := false;
      episode.terminalUntil := Some(until);
      episode.waiters := {};
    }

    method TellWaiters(waiters: set<ProviderRetrySession>, error: ProviderError)
      requires Coupled() && waiters <= executions.Keys
      modifies `executions, waiters`terminalError
      ensures Coupled() && executions == FailAll(old(executions), waiters, error)
    {
      FailWaiters(waiters, error);
      executions := FailAll(executions, waiters, error);
    }

    /** The episode after a failure of a session that may still retry. */
    static ghost function AfterFailure(e: Option<Episode>, next: nat, session: ProviderRetrySession, permit: GatePermit,
                                       now: real, error: ProviderError, delay: real): Option<Episode> {
      if e.None? then Some(Episode(next, Some(session), now + delay, error, {}, false, None))
      else if Probes(e, session, permit) then
        Some(e.value.(lastError := error, probeActive := false, readyAt := now + delay))
      else if e.value.terminalUntil.Some? then e
      else Some(e.value.(waiters := e.value.waiters + {session}))
    }

    /** The error a session gets that fails while another recovery cools down. */
    static ghost function Inherited(e: Option<Episode>, session: ProviderRetrySession, permit: GatePermit,
                                    failure: Option<ProviderError>): Option<ProviderError> {
      if e.Some? && !Probes(e, session, permit) && e.value.terminalUntil.Some? then Some(e.value.lastError) else failure
    }

    /** The half of _attempt_failed for a session that may still retry. */
    method RetryableFailure(session: ProviderRetrySession, permit: GatePermit, now: real, error: ProviderError,
                            delay: real)
      modifies `episode, `nextGeneration, episode, session`terminalError
      ensures episode == old(episode) || fresh(episode)
      ensures nextGeneration == old(nextGeneration) + (if old(episode) == null then 1 else 0)
      ensures EpisodeView() == AfterFailure(old(EpisodeView()), old(nextGeneration), session, permit, now, error, delay)
      ensures session.terminalError == Inherited(old(EpisodeView()), session, permit, old(session.terminalError))
    {
      if episode == null {
        StartRecoveryEpisode(Some(session), now + delay, error);
      } else if IsMatchingProbe(session, permit) {
        episode.lastError := error;
        episode.probeActive := false;
        episode.readyAt := now + delay;
      } else if episode.terminalUntil.Some? {
        session.terminalError := Some(episode.lastError);
      } else {
        episode.waiters := episode.waiters + {session};
      }
    }

    /** The delay of one call of _retry_delay. */
    function Delay(session: ProviderRetrySession, draw: real, retryAfter: Option<real>): real
      reads session
    {
      RetryDelay(baseDelay, maxDelay, session.attemptsStarted, draw, retryAfter)
    }

    lemma DelayIsNatural(session: ProviderRetrySession, draw: real, retryAfter: Option<real>)
      requires 0.0 <= baseDelay <= maxDelay && 0.0 <= draw <= jitter
      ensures Delay(session, draw, retryAfter) >= 0.0
      ensures retryAfter.Some? ==> Delay(session, draw, retryAfter) >= retryAfter.value
    {
      var n := session.attemptsStarted;
      RetryDelayBounds(baseDelay, maxDelay, jitter, n, n, draw, retryAfter);
    }

    /** The section of _attempt_failed for a session with budget left. */
    method FailWithBudget(session: ProviderRetrySession, permit: GatePermit, now: real, error: ProviderError,
                          delay: real, ghost cooldown: real)
      requires Coupled() && Unresolved(session, permit) && session.CanAttempt()
      modifies `clock, `episode, `nextGeneration, `executions, episode, session`terminalError
      ensures Coupled() && View() == AdmissionModel.AttemptFailed(old(View()), session, now, error, delay, cooldown)
      ensures episode == old(episode) || fresh(episode)
    {
      ghost var x := executions[session];
      clock := now;
      assert Matches(session, x);
      RetryableFailure(session, permit, now, error, delay);
      executions := executions[session := x.(task := x.task.(resolved := true), failure := session.terminalError)];
    }

    /** The section of _attempt_failed for a session whose budget is spent. */
    method FailExhausted(session: ProviderRetrySession, permit: GatePermit, now: real, error: ProviderError,
                         ghost delay: real, cooldown: real)
      requires Coupled() && Unresolved(session, permit) && session.attemptsStarted >= session.maxAttempts
      requires episode != null ==> episode.waiters <= executions.Keys
      modifies `clock, `episode, `nextGeneration, `executions, episode, executions.Keys`terminalError
      ensures Coupled() && View() == AdmissionModel.AttemptFailed(old(View()), session, now, error, delay, cooldown)
      ensures episode == old(episode) || fresh(episode)
    {
      assert Matches(session, executions[session]);
      clock := now;
      Resolve(session);
      ExhaustedFailure(session, permit, now, error, now + cooldown);
      FailNobody(error);
    }

    /** _attempt_failed; the draws are the random jitter of its two calls of _retry_delay. */
    method AttemptFailed(session: ProviderRetrySession, permit: GatePermit, now: real, error: ProviderError,
                         draw: real, cooldownDraw: real, retryAfter: Option<real>) returns (canRetry: bool)
      requires Valid() && now >= clock && Unresolved(session, permit)
      requires 0.0 <= draw <= jitter && 0.0 <= cooldownDraw <= jitter
      modifies `clock, `history, `episode, `nextGeneration, `executions, episode, executions.Keys`terminalError
      ensures Took(DoAttemptFailed(session, now, error,
                                   Delay(session, draw, retryAfter), Delay(session, cooldownDraw, retryAfter)))
      ensures canRetry <==> session.CanAttempt()
    {
      hide Coupled, Reached;
      ghost var before := View();
      canRetry := session.CanAttempt();
      var delay := Delay(session, draw, retryAfter);
      var cooldown := Delay(session, cooldownDraw, retryAfter);
      DelayIsNatural(session, draw, retryAfter);
      DelayIsNatural(session, cooldownDraw, retryAfter);
      WaitersAreSessions();
      if canRetry {
        FailWithBudget(session, permit, now, error, delay, cooldown);
      } else {
        FailExhausted(session, permit, now, error, delay, cooldown);
      }
      Record(before, DoAttemptFailed(session, now, error, delay, cooldown));
    }
  }

  /** One admitted upstream attempt and the concurrency slot it holds. */
  class ProviderAttempt {
    const controller: ProviderAdmissionController
    const session: ProviderRetrySession
    const permit: GatePermit
    ghost const stamp: nat
    var resolved: bool
    var accepted: bool
    var failureRetryable: Option<bool>
    var closed: bool

    /** The attempt is the one its session works with. */
    ghost predicate Owns()
      reads this, controller`executions
    {
      && session in controller.executions && !closed
      && controller.executions[session].task == Active(permit, stamp, resolved)
    }

    /** The attempt has an outcome and is still open, while its session went on to another one. */
    ghost predicate Lingers()
      reads this, controller`executions
    {
      && session in controller.executions && !closed && resolved
      && stamp in controller.executions[session].lingering && !Owns()
    }

    /** Just claimed: open, without any outcome. */
    ghost predicate IsNew(controller: ProviderAdmissionController, session: ProviderRetrySession, permit: GatePermit)
      reads this, this.controller`executions
    {
      && this.controller == controller && this.session == session && this.permit == permit
      && Owns() && !resolved && !accepted && failureRetryable.None?
    }

    constructor (controller: ProviderAdmissionController, session: ProviderRetrySession, permit: GatePermit,
                 ghost stamp: nat)
      ensures this.controller == controller && this.session == session && this.permit == permit && this.stamp == stamp
      ensures !resolved && !accepted && failureRetryable == None && !closed
    {
      this.controller, this.session, this.permit, this.stamp := controller, session, permit, stamp;
      resolved, accepted, failureRetryable, closed := false, false, None, false;
    }

    /** A valid upstream response. A second report of any kind changes nothing. */
    method Succeeded(now: real)
      requires controller.Valid() && now >= controller.clock && (Owns() || resolved)
      modifies `resolved, `accepted, controller`clock, controller`history, controller`episode, controller`executions
      ensures old(resolved) ==> unchanged(this) && unchanged(controller)
      ensures !old(resolved) ==> resolved && accepted && Owns() && controller.Took(DoProbeAnswered(session, now))
      ensures !old(resolved) && permit.probe ==> controller.episode == null
    {
      hide ProviderAdmissionController.Valid;
      if !resolved {
        if permit.probe { controller.ProbeMatches(session, permit); }
        controller.AttemptAnswered(session, permit, now);
        resolved := true;
        accepted := true;
      }
    }

    /** A request-shape correction: the same leader probes again at once. */
    method RetryImmediately(now: real)
      requires controller.Valid() && now >= controller.clock && (Owns() || resolved)
      modifies `resolved, controller`clock, controller`history, controller`executions, controller.episode
      ensures old(resolved) ==> unchanged(this) && unchanged(controller)
      ensures !old(resolved) ==> resolved && Owns() && controller.Took(DoRetryImmediately(session, now))
    {
      hide ProviderAdmissionController.Valid;
      if !resolved {
        controller.AttemptCorrected(session, permit, now);
        resolved := true;
      }
    }

    /** What a first report of a failure does, if its effective error is or is not retryable. */
    ghost function FailureStep(now: real, error: ProviderError, retryable: bool,
                               draw: real, cooldownDraw: real, retryAfter: Option<real>): Step
      reads session
    {
      if retryable then
        DoAttemptFailed(session, now, error, controller.Delay(session, draw, retryAfter),
                        controller.Delay(session, cooldownDraw, retryAfter))
      else DoProbeAnswered(session, now)
    }

    /** `retryable` is the classification of the effective error. */
    method Retry(now: real, error: ProviderError, retryable: bool,
                 draw: real, cooldownDraw: real, retryAfter: Option<real>) returns (shouldRetry: bool)
      requires controller.Valid() && now >= controller.clock && (Owns() || resolved)
      requires 0.0 <= draw <= controller.jitter && 0.0 <= cooldownDraw <= controller.jitter
      modifies `resolved, `failureRetryable
      modifies controller`clock, controller`history, controller`episode, controller`nextGeneration
      modifies controller`executions
      modifies controller.episode, controller.executions.Keys`terminalError
      ensures old(resolved) ==> !shouldRetry && unchanged(this) && unchanged(controller)
      ensures !old(resolved) ==>
                && resolved && Owns() && failureRetryable == Some(retryable)
                && (shouldRetry <==> retryable && session.CanAttempt())
                && controller.Took(old(FailureStep(now, error, retryable, draw, cooldownDraw, retryAfter)))
    {
      hide ProviderAdmissionController.Valid;
      shouldRetry := false;
      if !resolved {
        shouldRetry := Report(now, error, retryable, draw, cooldownDraw, retryAfter);
        failureRetryable := Some(retryable);
        resolved := true;
      }
    }

    method Report(now: real, error: ProviderError, retryable: bool,
                  draw: real, cooldownDraw: real, retryAfter: Option<real>) returns (shouldRetry: bool)
      requires controller.Valid() && now >= controller.clock && Owns() && !resolved
      requires 0.0 <= draw <= controller.jitter && 0.0 <= cooldownDraw <= controller.jitter
      modifies controller`clock, controller`history, controller`episode, controller`nextGeneration
      modifies controller`executions
      modifies controller.episode, controller.executions.Keys`terminalError
      ensures shouldRetry <==> retryable && session.CanAttempt()
      ensures controller.Took(old(FailureStep(now, error, retryable, draw, cooldownDraw, retryAfter)))
      ensures session in controller.executions && controller.executions[session].task == Active(permit, stamp, true)
    {
      hide ProviderAdmissionController.Valid;
      if retryable {
        shouldRetry := controller.AttemptFailed(session, permit, now, error, draw, cooldownDraw, retryAfter);
      } else {
        controller.AttemptAnswered(session, permit, now);
        shouldRetry := false;
      }
    }

    /** What a first aclose does: the session closes the attempt it works with, or one it left behind. */
    ghost function CloseStep(): Step
      reads this, controller`executions
    {
      if Owns() then DoBeginClose(session) else DoCloseLingering(session, stamp)
    }

    /**
     aclose up to its await. An attempt with an outcome gives its slot back here, also one that its session
     has left behind; for an unresolved one the slot follows in FinishClose, and the abandonment runs on
     its own. Closing again does nothing.
     */
    method Close() returns (pending: bool)
      requires controller.Valid() && (Owns() || Lingers() || closed)
      requires Lingers() ==> controller.executions[session].task.Idle? || controller.executions[session].task.Active?
      modifies `closed, controller`freeSlots, controller`history, controller`executions
      ensures old(closed) ==> !pending && unchanged(this) && unchanged(controller)
      ensures !old(closed) ==>
                && closed && (pending <==> !resolved) && controller.Took(old(CloseStep()))
                && (pending ==> controller.executions[session].task == Closing)
    {
      pending := !closed && !resolved;
      if !closed {
        LeaveAttempt();
        closed := true;
      }
    }

    method LeaveAttempt()
      requires controller.Valid() && (Owns() || Lingers())
      requires Lingers() ==> controller.executions[session].task.Idle? || controller.executions[session].task.Active?
      modifies controller`freeSlots, controller`history, controller`executions
      ensures controller.Took(old(CloseStep()))
      ensures session in controller.executions && (!resolved ==> controller.executions[session].task == Closing)
    {
      hide ProviderAdmissionController.Reached;
      ghost var before, step := controller.View(), CloseStep();
      if resolved {
        controller.ReleaseConcurrency();
      }
      controller.executions := controller.executions[session := Left(controller.executions[session], Owns())];
      controller.Record(before, step);
    }

    /** Where the coroutine is then. */
    ghost function Left(x: Session, owned: bool): Session
      reads this
    {
      if !owned then x.(lingering := x.lingering - multiset{stamp})
      else if resolved then x.(task := Idle)
      else x.(task := Closing, abandoning := if permit.probe then Some(permit) else x.abandoning)
    }

    /** The `finally` clause after the shielded abandonment was awaited, or the caller was cancelled. */
    method FinishClose()
      requires controller.Valid() && closed && session in controller.executions
      requires controller.executions[session].task == Closing
      modifies controller`freeSlots, controller`history, controller`executions
      ensures controller.Took(DoEndClose(session))
      ensures controller.freeSlots == old(controller.freeSlots) + 1
    {
      hide ProviderAdmissionController.Coupled, ProviderAdmissionController.Reached;
      ghost var before := controller.View();
      controller.ReleaseConcurrency();
      controller.Goto(session, Idle);
      controller.Record(before, DoEndClose(session));
    }
  }
}
