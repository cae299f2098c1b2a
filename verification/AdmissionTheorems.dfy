/** What the admission protocol promises over whole runs of any number of sessions. */
module AdmissionTheorems {
  import opened Options
  import opened AdmissionModel
  import opened AdmissionSafety

  lemma {:induction false} RunKeepsInv(c: Config, st: State, run: seq<Step>)
    requires c.Valid() && Inv(st) && Runnable(c, st, run)
    ensures Inv(Run(c, st, run))
    decreases |run|
  {
    if run != [] {
      StepKeepsInv(c, st, run[0]);
      RunKeepsInv(c, Apply(c, st, run[0]), run[1..]);
    }
  }

  // --- One probe ---

  ghost function ProbeHolders(st: State): set<Sid> {
    set s | s in st.sessions && (OwnProbe(st.sessions[s]).Some? || st.sessions[s].abandoning.Some?)
  }

  /**
   In every reachable state the unresolved probe permits of all tasks together are one when an
   episode is open with an active probe, and none otherwise; the one has the episode's generation
   and belongs to its leader. A terminal episode has no leader, no probe and no waiters.
   */
  lemma OneProbe(c: Config, clock: real, run: seq<Step>)
    requires c.Valid() && Runnable(c, Init(c, clock), run)
    ensures var st := Run(c, Init(c, clock), run);
            && (st.episode.Some? && st.episode.value.probeActive ==>
                  && st.episode.value.leader.Some?
                  && ProbeHolders(st) == {st.episode.value.leader.value}
                  && HoldsOnly(st.sessions[st.episode.value.leader.value],
                               Some(GatePermit(Some(st.episode.value.generation), true))))
            && (st.episode.None? || !st.episode.value.probeActive ==> ProbeHolders(st) == {})
            && (st.episode.Some? && st.episode.value.terminalUntil.Some? ==>
                  st.episode.value.leader.None? && !st.episode.value.probeActive && st.episode.value.waiters == {})
  {
    InitKeepsInv(c, clock);
    RunKeepsInv(c, Init(c, clock), run);
    var st := Run(c, Init(c, clock), run);
    forall s | s in st.sessions
      ensures s in ProbeHolders(st) <==> Probing(st, s)
    {
      assert SessionOk(st, s);
    }
    if st.episode.Some? && st.episode.value.probeActive {
      var s := st.episode.value.leader.value;
      assert SessionOk(st, s);
      assert Probing(st, s);
    }
  }

  // --- Generations ---

  lemma StepGenerations(c: Config, st: State, a: Step)
    requires c.Valid() && Enabled(st, a)
    ensures var st' := Apply(c, st, a);
            && st.nextGeneration <= st'.nextGeneration
            && (st'.episode.Some? ==>
                  || (st.episode.Some? && st'.episode.value.generation == st.episode.value.generation)
                  || (st'.episode.value.generation == st.nextGeneration < st'.nextGeneration))
  {
  }

  /** A later episode is the same one or has a generation that was never used before. */
  lemma {:induction false} GenerationsAreNeverReused(c: Config, st: State, run: seq<Step>)
    requires c.Valid() && Inv(st) && Runnable(c, st, run)
    ensures var end := Run(c, st, run);
            && st.nextGeneration <= end.nextGeneration
            && (end.episode.Some? ==>
                  || (st.episode.Some? && end.episode.value.generation == st.episode.value.generation)
                  || st.nextGeneration <= end.episode.value.generation < end.nextGeneration)
    decreases |run|
  {
    if run != [] {
      StepKeepsInv(c, st, run[0]);
      StepGenerations(c, st, run[0]);
      GenerationsAreNeverReused(c, Apply(c, st, run[0]), run[1..]);
    } else {
      assert EpisodeOk(st);
    }
  }

  // --- Claims ---

  /** The step claims an upstream attempt. */
  ghost predicate Claims(c: Config, st: State, a: Step)
    requires c.Valid() && Enabled(st, a)
  {
    |Apply(c, st, a).claims| > |st.claims|
  }

  /** Only the step after the semaphore claims, and only with a permit that is current at that instant. */
  lemma StepClaims(c: Config, st: State, a: Step)
    requires c.Valid() && Enabled(st, a)
    ensures Claims(c, st, a) <==> a.DoClaim? && PermitIsCurrent(At(st, a.now), a.s, st.sessions[a.s].task.permit)
    ensures Apply(c, st, a).claims
         == st.claims + if Claims(c, st, a) then [Claim(a.s, st.sessions[a.s].task.stamp)] else []
  {
  }

  /** The other sessions: at most, recorded waiters are told that the recovery failed. */
  ghost predicate OthersOnlyFail(st: State, st': State, s: Sid) {
    && st'.sessions.Keys == st.sessions.Keys + {s}
    && forall t :: t in st.sessions && t != s ==>
         || st'.sessions[t] == st.sessions[t]
         || (Recorded(st, t) && st'.sessions[t] == st.sessions[t].(failure := st'.sessions[t].failure)
             && st'.sessions[t].failure.Some?)
  }

  lemma FailureMovesOwn(st: State, s: Sid, now: real, error: ProviderError, delay: real, cooldown: real)
    requires s in st.sessions && st.sessions[s].task.Active?
    ensures var st' := AttemptFailed(st, s, now, error, delay, cooldown);
            && s in st'.sessions
            && st'.sessions[s].(failure := None) == st.sessions[s].(failure := None, task := st'.sessions[s].task)
            && st'.sessions[s].task == st.sessions[s].task.(resolved := true)
            && (st.sessions[s].failure.Some? ==> st'.sessions[s].failure.Some?)
            && st'.freeSlots == st.freeSlots && st'.window == st.window && st'.claims == st.claims && st'.clock == now
  {
  }

  lemma FailureTellsOthers(st: State, s: Sid, now: real, error: ProviderError, delay: real, cooldown: real)
    requires s in st.sessions && st.sessions[s].task.Active?
    ensures OthersOnlyFail(st, AttemptFailed(st, s, now, error, delay, cooldown), s)
  {
  }

  lemma FailureFrame(st: State, s: Sid, now: real, error: ProviderError, delay: real, cooldown: real)
    requires s in st.sessions && st.sessions[s].task.Active?
    ensures var st' := AttemptFailed(st, s, now, error, delay, cooldown);
            && OthersOnlyFail(st, st', s)
            && st'.sessions[s].(failure := None) == st.sessions[s].(failure := None, task := st'.sessions[s].task)
            && st'.sessions[s].task == st.sessions[s].task.(resolved := true)
            && (st.sessions[s].failure.Some? ==> st'.sessions[s].failure.Some?)
            && st'.freeSlots == st.freeSlots && st'.window == st.window && st'.claims == st.claims && st'.clock == now
  {
    hide AttemptFailed, OthersOnlyFail;
    FailureMovesOwn(st, s, now, error, delay, cooldown);
    FailureTellsOthers(st, s, now, error, delay, cooldown);
  }

  lemma GateFrame(st: State, s: Sid, now: real)
    requires s in st.sessions
    ensures var st' := Gate(st, s, now).0;
            && st'.sessions == st.sessions[s := st.sessions[s].(task := st'.sessions[s].task)]
            && !st'.sessions[s].task.HoldsSlot() && st'.sessions[s].task.Reserved().None?
            && st'.freeSlots == st.freeSlots && st'.window == st.window && st'.claims == st.claims && st'.clock == now
  {
  }

  lemma StepTouchesOne(c: Config, st: State, a: Step)
    requires c.Valid() && Enabled(st, a) && !a.DoAttemptFailed?
    ensures a.s in Apply(c, st, a).sessions
    ensures Apply(c, st, a).sessions == st.sessions[a.s := Apply(c, st, a).sessions[a.s]]
  {
    if a.DoGate? {
      GateFrame(st, a.s, a.now);
    }
  }

  /** One step moves one session's coroutine. */
  lemma StepFrame(c: Config, st: State, a: Step)
    requires c.Valid() && Enabled(st, a)
    ensures OthersOnlyFail(st, Apply(c, st, a), a.s)
  {
    if a.DoAttemptFailed? {
      FailureFrame(st, a.s, a.now, a.error, a.delay, a.cooldown);
    } else {
      StepTouchesOne(c, st, a);
    }
  }

  lemma OwnFrame(c: Config, st: State, a: Step)
    requires c.Valid() && Enabled(st, a) && a.s in st.sessions
    ensures var st' := Apply(c, st, a);
            && a.s in st'.sessions
            && st'.sessions[a.s].budget == st.sessions[a.s].budget
            && (st.sessions[a.s].failure.Some? ==> st'.sessions[a.s].failure.Some?)
            && st'.sessions[a.s].started == st.sessions[a.s].started + if Claims(c, st, a) then 1 else 0
  {
    StepClaims(c, st, a);
    match a
    case DoAttemptFailed(s, now, error, delay, cooldown) => FailureFrame(st, s, now, error, delay, cooldown);
    case DoGate(s, now) => GateFrame(st, s, now);
    case _ =>
  }

  /** Budgets never change, and `started` counts exactly the session's claims. */
  lemma StepCounts(c: Config, st: State, a: Step, t: Sid)
    requires c.Valid() && Enabled(st, a) && t in st.sessions
    ensures var st' := Apply(c, st, a);
            && t in st'.sessions
            && st'.sessions[t].budget == st.sessions[t].budget
            && (st.sessions[t].failure.Some? ==> st'.sessions[t].failure.Some?)
            && st'.sessions[t].started == st.sessions[t].started + (if Claims(c, st, a) && t == a.s then 1 else 0)
  {
    StepFrame(c, st, a);
    if t == a.s {
      OwnFrame(c, st, a);
    }
  }

  /**
   Although a permit was issued before two awaits, an attempt is claimed only while no episode is
   open, or as the probe of the current leader of a live episode whose backoff has run out.
   */
  lemma ClaimIsAuthorised(c: Config, st: State, a: Step)
    requires c.Valid() && Inv(st) && Enabled(st, a) && Claims(c, st, a)
    ensures && a.DoClaim?
            && st.sessions[a.s].started < st.sessions[a.s].budget
            && st.sessions[a.s].failure.None?
    ensures st.episode.Some? ==>
              && Probing(st, a.s)
              && st.episode.value.terminalUntil.None?
              && st.sessions[a.s].task.permit == GatePermit(Some(st.episode.value.generation), true)
              && st.episode.value.readyAt <= a.now
  {
    StepClaims(c, st, a);
    assert SessionOk(st, a.s);
  }

  /** No session ever starts more attempts than its budget, whatever the others do. */
  lemma {:induction false} BudgetIsNeverExceeded(c: Config, st: State, run: seq<Step>, s: Sid)
    requires c.Valid() && Inv(st) && Runnable(c, st, run) && s in st.sessions
    ensures s in Run(c, st, run).sessions
    ensures Run(c, st, run).sessions[s].budget == st.sessions[s].budget
    ensures st.sessions[s].started <= Run(c, st, run).sessions[s].started <= st.sessions[s].budget
    decreases |run|
  {
    assert SessionOk(st, s);
    if run != [] {
      StepKeepsInv(c, st, run[0]);
      StepCounts(c, st, run[0], s);
      BudgetIsNeverExceeded(c, Apply(c, st, run[0]), run[1..], s);
    }
  }

  // --- Retries do not multiply ---

  ghost predicate Tenure(st: State, g: nat, leader: Sid) {
    Leads(st, leader) && st.episode.value.generation == g
  }

  /** The same session leads the same episode in every state of the run. */
  ghost predicate OneTenure(c: Config, st: State, run: seq<Step>, g: nat, leader: Sid)
    requires c.Valid() && Runnable(c, st, run)
    decreases |run|
  {
    Tenure(st, g, leader) && (run != [] ==> OneTenure(c, Apply(c, st, run[0]), run[1..], g, leader))
  }

  /**
   During one leader's tenure all sessions together claim at most what was left of that leader's
   budget when it took over, however many sessions wait: every claim is the leader's own.
   */
  lemma {:induction false} RetriesDoNotMultiply(c: Config, st: State, run: seq<Step>, g: nat, leader: Sid)
    requires c.Valid() && Inv(st) && Runnable(c, st, run) && OneTenure(c, st, run, g, leader)
    ensures var end := Run(c, st, run);
            && leader in st.sessions && leader in end.sessions
            && |end.claims| - |st.claims| == end.sessions[leader].started - st.sessions[leader].started
            && 0 <= |end.claims| - |st.claims| <= st.sessions[leader].budget - st.sessions[leader].started
    decreases |run|
  {
    assert SessionOk(st, leader);
    if run != [] {
      StepKeepsInv(c, st, run[0]);
      StepClaims(c, st, run[0]);
      StepCounts(c, st, run[0], leader);
      if Claims(c, st, run[0]) {
        ClaimIsAuthorised(c, st, run[0]);
      }
      RetriesDoNotMultiply(c, Apply(c, st, run[0]), run[1..], g, leader);
    }
  }

  // --- A failed recovery is final ---

  /** A session that was told the recovery failed never claims another attempt, in any continuation. */
  lemma {:induction false} FailedSessionsNeverClaim(c: Config, st: State, run: seq<Step>, s: Sid)
    requires c.Valid() && Inv(st) && Runnable(c, st, run)
    requires s in st.sessions && st.sessions[s].failure.Some?
    ensures s in Run(c, st, run).sessions
    ensures Run(c, st, run).sessions[s].started == st.sessions[s].started
    ensures Run(c, st, run).sessions[s].failure.Some?
    decreases |run|
  {
    assert SessionOk(st, s);
    if run != [] {
      StepKeepsInv(c, st, run[0]);
      StepClaims(c, st, run[0]);
      StepCounts(c, st, run[0], s);
      FailedSessionsNeverClaim(c, Apply(c, st, run[0]), run[1..], s);
    }
  }

  /** The step is the failure of the current probe by a leader that has no attempt left. */
  ghost predicate ExhaustsEpisode(st: State, a: Step)
    requires Enabled(st, a)
  {
    && a.DoAttemptFailed?
    && !st.sessions[a.s].task.resolved
    && st.sessions[a.s].started == st.sessions[a.s].budget
    && MatchingProbe(st, a.s, st.sessions[a.s].task.permit)
  }

  /** When the leader's budget is exhausted, every recorded waiter has claimed its last attempt. */
  lemma ExhaustionEndsTheWaiters(c: Config, st: State, a: Step, run: seq<Step>, w: Sid)
    requires c.Valid() && Inv(st) && Enabled(st, a) && ExhaustsEpisode(st, a)
    requires Runnable(c, Apply(c, st, a), run)
    requires w in st.episode.value.waiters
    ensures Apply(c, st, a).episode.value.waiters == {}
    ensures w in st.sessions && Apply(c, st, a).sessions[w].failure == Some(a.error)
    ensures w in Run(c, Apply(c, st, a), run).sessions
    ensures Run(c, Apply(c, st, a), run).sessions[w].started == st.sessions[w].started
  {
    StepKeepsInv(c, st, a);
    StepCounts(c, st, a, w);
    assert SessionOk(st, w);
    FailedSessionsNeverClaim(c, Apply(c, st, a), run, w);
  }

  // --- Backoff and cooldown bind every session ---

  /** Until `release` the gate is shut: an episode is open, not probed, and not ready before `release`. */
  ghost predicate Shut(st: State, release: real) {
    st.clock < release ==>
      && st.episode.Some?
      && !st.episode.value.probeActive
      && (match st.episode.value.terminalUntil
          case Some(until) => until >= release
          case None => st.episode.value.readyAt >= release)
  }

  lemma StepKeepsShut(c: Config, st: State, a: Step, release: real)
    requires c.Valid() && Inv(st) && Enabled(st, a) && Shut(st, release)
    ensures Shut(Apply(c, st, a), release)
    ensures Claims(c, st, a) ==> a.now >= release
  {
    StepClaims(c, st, a);
    if a.s in st.sessions {
      assert SessionOk(st, a.s);
    }
  }

  /** While the clock has not reached `release`, no session at all claims an attempt. */
  lemma {:induction false} NoClaimBeforeRelease(c: Config, st: State, run: seq<Step>, release: real)
    requires c.Valid() && Inv(st) && Runnable(c, st, run) && Shut(st, release)
    ensures Shut(Run(c, st, run), release)
    ensures Run(c, st, run).clock < release ==> Run(c, st, run).claims == st.claims
    decreases |run|
  {
    if run != [] {
      StepKeepsInv(c, st, run[0]);
      StepKeepsShut(c, st, run[0], release);
      StepClaims(c, st, run[0]);
      ClockNeverGoesBack(c, Apply(c, st, run[0]), run[1..]);
      NoClaimBeforeRelease(c, Apply(c, st, run[0]), run[1..], release);
      if Claims(c, st, run[0]) {
        assert Apply(c, st, run[0]).clock == run[0].now;
      }
    }
  }

  lemma {:induction false} ClockNeverGoesBack(c: Config, st: State, run: seq<Step>)
    requires c.Valid() && Runnable(c, st, run)
    ensures st.clock <= Run(c, st, run).clock
    decreases |run|
  {
    if run != [] {
      assert st.clock <= Apply(c, st, run[0]).clock;
      ClockNeverGoesBack(c, Apply(c, st, run[0]), run[1..]);
    }
  }

  /** The step opens an episode, or fails its probe with budget left: the next attempt is due after `delay`. */
  ghost predicate SchedulesProbe(st: State, a: Step)
    requires Enabled(st, a)
  {
    && a.DoAttemptFailed?
    && !st.sessions[a.s].task.resolved
    && st.sessions[a.s].started < st.sessions[a.s].budget
    && (st.episode.None? || MatchingProbe(st, a.s, st.sessions[a.s].task.permit))
  }

  /** After the shared failure no session of the provider calls upstream before the delay is over. */
  lemma BackoffBindsEverySession(c: Config, st: State, a: Step, run: seq<Step>)
    requires c.Valid() && Inv(st) && Enabled(st, a) && SchedulesProbe(st, a)
    requires Runnable(c, Apply(c, st, a), run)
    requires Run(c, Apply(c, st, a), run).clock < a.now + a.delay
    ensures Run(c, Apply(c, st, a), run).claims == st.claims
  {
    StepKeepsInv(c, st, a);
    NoClaimBeforeRelease(c, Apply(c, st, a), run, a.now + a.delay);
  }

  /** After exhaustion no session of the provider calls upstream before the cooldown is over. */
  lemma CooldownBindsEverySession(c: Config, st: State, a: Step, run: seq<Step>)
    requires c.Valid() && Inv(st) && Enabled(st, a) && ExhaustsEpisode(st, a)
    requires Runnable(c, Apply(c, st, a), run)
    requires Run(c, Apply(c, st, a), run).clock < a.now + a.cooldown
    ensures Run(c, Apply(c, st, a), run).claims == st.claims
  {
    StepKeepsInv(c, st, a);
    NoClaimBeforeRelease(c, Apply(c, st, a), run, a.now + a.cooldown);
  }

  /** Both ways to a probe permit respect `ready_at`, although the section after the sleep does not read it. */
  lemma ProbesAreNeverEarly(st: State, s: Sid, now: real)
    requires Inv(st) && s in st.sessions && st.clock <= now
    ensures st.sessions[s].task.AtGate? && Gate(st, s, now).1.Granted? && Gate(st, s, now).1.permit.probe ==>
              Probing(Gate(st, s, now).0, s) && Gate(st, s, now).0.episode.value.readyAt <= now
    ensures st.sessions[s].task.BackingOff? && now >= st.sessions[s].task.until ==>
              && Probing(BackoffOver(st, s, now), s)
              && BackoffOver(st, s, now).episode.value.readyAt == st.episode.value.readyAt <= now
  {
    assert SessionOk(st, s);
  }
}
