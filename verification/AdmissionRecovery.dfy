/**
 How a provider gets into a recovery and out of it again: what sessions at the gate are given, and what a failure,
 an answer, a correction and an abandonment do to the episode they meet.
 */
module AdmissionRecovery {
  import opened Options
  import RL = RateLimit
  import opened AdmissionModel
  import Safety = AdmissionSafety
  import Theorems = AdmissionTheorems

  // --- An answer ends the episode ---

  /** The session works with an attempt that has no outcome yet. */
  predicate Unresolved(st: State, s: Sid) {
    s in st.sessions && st.sessions[s].task.Active? && !st.sessions[s].task.resolved
  }

  /** A report of the session resolves its attempt, and is otherwise about the episode only. */
  ghost predicate Reports(st: State, st': State, s: Sid)
    requires s in st.sessions && st.sessions[s].task.Active?
  {
    && s in st'.sessions && st'.sessions.Keys == st.sessions.Keys
    && st'.sessions[s] == st.sessions[s].(task := st.sessions[s].task.(resolved := true))
    && (forall t :: t in st.sessions && t != s ==> st'.sessions[t] == st.sessions[t])
    && st'.freeSlots == st.freeSlots && st'.window == st.window && st'.claims == st.claims
    && st'.nextGeneration == st.nextGeneration
  }

  /**
   A success or a final rejection of the probe closes the recovery, whoever waits in it. Reported on any other
   attempt it leaves the episode as it is, and reported again it changes nothing.
   */
  lemma AnswerEndsEpisode(c: Config, st: State, s: Sid, now: real)
    requires c.Valid() && Safety.Inv(st) && Enabled(st, DoProbeAnswered(s, now))
    ensures var st' := Apply(c, st, DoProbeAnswered(s, now));
            && (Unresolved(st, s) && st.sessions[s].task.permit.probe ==> st'.episode.None?)
            && (!Unresolved(st, s) || !st.sessions[s].task.permit.probe ==> st'.episode == st.episode)
            && (Unresolved(st, s) ==> Reports(st, st', s))
            && (!Unresolved(st, s) ==> st' == At(st, now))
  {
    assert Safety.SessionOk(st, s);
  }

  /** Only a failure opens an episode, with a generation never used before. */
  lemma OnlyFailuresOpen(c: Config, st: State, a: Step)
    requires c.Valid() && Enabled(st, a) && st.episode.None? && Apply(c, st, a).episode.Some?
    ensures a.DoAttemptFailed? && Unresolved(st, a.s) && Apply(c, st, a).episode.value.generation == st.nextGeneration
  {
  }

  lemma {:induction false} StaysHealthy(c: Config, st: State, run: seq<Step>)
    requires c.Valid() && Runnable(c, st, run) && st.episode.None?
    requires forall i :: 0 <= i < |run| ==> !run[i].DoAttemptFailed?
    ensures Run(c, st, run).episode.None?
    decreases |run|
  {
    if run != [] {
      if Apply(c, st, run[0]).episode.Some? { OnlyFailuresOpen(c, st, run[0]); }
      StaysHealthy(c, Apply(c, st, run[0]), run[1..]);
    }
  }

  /** Without an episode a session that was not told to give up is let through, and needs no probe. */
  lemma HealthyGate(c: Config, st: State, s: Sid, now: real)
    requires c.Valid() && Enabled(st, DoGate(s, now)) && st.episode.None? && st.sessions[s].failure.None?
    ensures var st' := Apply(c, st, DoGate(s, now));
            && s in st'.sessions && st'.sessions[s].task == AwaitingQuota(GatePermit(None, false))
            && st'.episode.None?
  {
  }

  /**
   After the answered probe the provider is healthy again: in any continuation, until another attempt fails, every
   session that comes to the gate and was not told to give up is let through without a probe.
   */
  lemma AnswerRestoresService(c: Config, st: State, s: Sid, now: real, run: seq<Step>, t: Sid, later: real)
    requires c.Valid() && Safety.Inv(st) && Enabled(st, DoProbeAnswered(s, now))
    requires Unresolved(st, s) && st.sessions[s].task.permit.probe
    requires Runnable(c, Apply(c, st, DoProbeAnswered(s, now)), run)
    requires forall i :: 0 <= i < |run| ==> !run[i].DoAttemptFailed?
    requires var st' := Run(c, Apply(c, st, DoProbeAnswered(s, now)), run);
             Enabled(st', DoGate(t, later)) && st'.sessions[t].failure.None?
    ensures var st' := Run(c, Apply(c, st, DoProbeAnswered(s, now)), run);
            && st'.episode.None?
            && t in Apply(c, st', DoGate(t, later)).sessions
            && Apply(c, st', DoGate(t, later)).sessions[t].task == AwaitingQuota(GatePermit(None, false))
  {
    AnswerEndsEpisode(c, st, s, now);
    StaysHealthy(c, Apply(c, st, DoProbeAnswered(s, now)), run);
    HealthyGate(c, Run(c, Apply(c, st, DoProbeAnswered(s, now)), run), t, later);
  }

  // --- What a failure does ---

  /** The episode after the first failure: nobody else is in it, and its leader may probe when the delay is over. */
  predicate Opened(episode: Option<Episode>, generation: nat, leader: Option<Sid>, error: ProviderError,
                   readyAt: real, until: Option<real>)
  {
    episode == Some(Episode(generation, leader, readyAt, error, {}, false, until))
  }

  /**
   The first failure of a healthy provider opens an episode. A session with budget leads it and may probe after the
   delay; one without leaves a cooldown behind.
   */
  lemma FirstFailureOpens(c: Config, st: State, s: Sid, now: real, error: ProviderError, delay: real, cooldown: real)
    requires c.Valid() && Enabled(st, DoAttemptFailed(s, now, error, delay, cooldown)) && Unresolved(st, s)
    requires st.episode.None?
    ensures var st' := Apply(c, st, DoAttemptFailed(s, now, error, delay, cooldown));
            && st'.nextGeneration == st.nextGeneration + 1
            && if st.sessions[s].started < st.sessions[s].budget
               then Opened(st'.episode, st.nextGeneration, Some(s), error, now + delay, None)
               else Opened(st'.episode, st.nextGeneration, None, error, now, Some(now + cooldown))
    ensures var st' := Apply(c, st, DoAttemptFailed(s, now, error, delay, cooldown));
            && st'.sessions.Keys == st.sessions.Keys
            && st'.sessions[s] == st.sessions[s].(task := st.sessions[s].task.(resolved := true))
            && forall t :: t in st.sessions && t != s ==> st'.sessions[t] == st.sessions[t]
  {
  }

  /** The leader's failed probe with budget left: it keeps the lead, and may probe again after the delay. */
  lemma FailedProbeIsRepeated(c: Config, st: State, s: Sid, now: real, error: ProviderError, delay: real,
                              cooldown: real)
    requires c.Valid() && Safety.Inv(st) && Enabled(st, DoAttemptFailed(s, now, error, delay, cooldown))
    requires Unresolved(st, s) && st.sessions[s].task.permit.probe
    requires st.sessions[s].started < st.sessions[s].budget
    ensures var st' := Apply(c, st, DoAttemptFailed(s, now, error, delay, cooldown));
            && st.episode.Some?
            && st'.episode == Some(st.episode.value.(leader := Some(s), lastError := error, probeActive := false,
                                                     readyAt := now + delay))
            && Reports(st, st', s)
  {
    assert Safety.SessionOk(st, s);
  }

  /**
   A failure that meets an episode it does not probe: with budget left the session waits in it, or is told its error
   if it has ended in a cooldown; without budget it concerns the session only.
   */
  lemma LateFailureJoins(c: Config, st: State, s: Sid, now: real, error: ProviderError, delay: real, cooldown: real)
    requires c.Valid() && Safety.Inv(st) && Enabled(st, DoAttemptFailed(s, now, error, delay, cooldown))
    requires Unresolved(st, s) && !st.sessions[s].task.permit.probe && st.episode.Some?
    ensures var st' := Apply(c, st, DoAttemptFailed(s, now, error, delay, cooldown));
            var e, canRetry := st.episode.value, st.sessions[s].started < st.sessions[s].budget;
            && s in st'.sessions && st'.sessions.Keys == st.sessions.Keys
            && st'.sessions[s].task == st.sessions[s].task.(resolved := true)
            && st'.episode == Some(if canRetry && e.terminalUntil.None? then e.(waiters := e.waiters + {s}) else e)
            && st'.sessions[s].failure == (if canRetry && e.terminalUntil.Some? then Some(e.lastError)
                                           else st.sessions[s].failure)
            && forall t :: t in st.sessions && t != s ==> st'.sessions[t] == st.sessions[t]
  {
  }

  /** The leader's last probe fails: everyone who waits is told its error, and a cooldown begins. */
  lemma LastProbeExhausts(c: Config, st: State, s: Sid, now: real, error: ProviderError, delay: real, cooldown: real)
    requires c.Valid() && Safety.Inv(st) && Enabled(st, DoAttemptFailed(s, now, error, delay, cooldown))
    requires Unresolved(st, s) && st.sessions[s].task.permit.probe
    requires st.sessions[s].started >= st.sessions[s].budget
    ensures var st' := Apply(c, st, DoAttemptFailed(s, now, error, delay, cooldown));
            && st.episode.Some? && st'.sessions.Keys == st.sessions.Keys
            && st'.episode == Some(st.episode.value.(lastError := error, leader := None, probeActive := false,
                                                     terminalUntil := Some(now + cooldown), waiters := {}))
            && st'.sessions[s] == st.sessions[s].(task := st.sessions[s].task.(resolved := true))
            && forall t :: t in st.sessions && t != s ==>
                             st'.sessions[t] == if t in st.episode.value.waiters
                                                then st.sessions[t].(failure := Some(error)) else st.sessions[t]
  {
    assert Safety.SessionOk(st, s);
  }

  // --- What a session at the gate is given ---

  /** A session that was told to give up, or meets a cooldown, is rejected; it touches nothing. */
  lemma RejectedAtGate(c: Config, st: State, s: Sid, now: real)
    requires c.Valid() && Enabled(st, DoGate(s, now))
    requires st.sessions[s].failure.Some?
             || (st.episode.Some? && st.episode.value.terminalUntil.Some? && now < st.episode.value.terminalUntil.value)
    ensures Apply(c, st, DoGate(s, now)) == Goto(At(st, now), s, Idle)
  {
  }

  /** Who can lead: nobody does, or the session itself, or the cooldown is over and a new episode begins with it. */
  ghost predicate MayLead(st: State, s: Sid, now: real) {
    && st.episode.Some?
    && match st.episode.value.terminalUntil
       case Some(until) => until <= now
       case None => st.episode.value.leader.None? || st.episode.value.leader == Some(s)
  }

  /** The leader at the gate of an episode that nobody probes gets the probe when it is ready, and sleeps until then. */
  lemma LeaderAtGate(c: Config, st: State, s: Sid, now: real)
    requires c.Valid() && Safety.Inv(st) && Enabled(st, DoGate(s, now)) && st.sessions[s].failure.None?
    requires MayLead(st, s, now) && !st.episode.value.probeActive
    ensures var st' := Apply(c, st, DoGate(s, now)); var e := st.episode.value;
            var readyAt := if e.terminalUntil.Some? then now else e.readyAt;
            var generation := if e.terminalUntil.Some? then st.nextGeneration else e.generation;
            && s in st'.sessions
            && st'.sessions[s].task == (if readyAt <= now then AwaitingQuota(GatePermit(Some(generation), true))
                                        else BackingOff(generation, readyAt))
            && st'.episode.Some? && st'.episode.value.generation == generation
            && st'.episode.value.leader == Some(s) && st'.episode.value.readyAt == readyAt
            && st'.episode.value.lastError == e.lastError && st'.episode.value.terminalUntil.None?
            && (st'.episode.value.probeActive <==> readyAt <= now)
            && st'.episode.value.waiters == (if e.terminalUntil.Some? then {} else e.waiters - {s})
            && forall t :: t in st.sessions && t != s ==> t in st'.sessions && st'.sessions[t] == st.sessions[t]
  {
    assert Safety.SessionOk(st, s);
  }

  /** Behind another leader, or its own probe, a session parks; in the episode of another it is recorded. */
  lemma FollowerAtGate(c: Config, st: State, s: Sid, now: real)
    requires c.Valid() && Safety.Inv(st) && Enabled(st, DoGate(s, now)) && st.sessions[s].failure.None?
    requires st.episode.Some? && st.episode.value.terminalUntil.None? && st.episode.value.leader.Some?
    requires st.episode.value.leader != Some(s) || st.episode.value.probeActive
    ensures var st' := Apply(c, st, DoGate(s, now)); var e := st.episode.value;
            && s in st'.sessions
            && if e.leader == Some(s) then st'.sessions[s].task == Parked(None) && st'.episode == st.episode
               else && st'.sessions[s].task == Parked(Some(e.generation))
                    && st'.episode == Some(e.(waiters := e.waiters + {s}))
  {
  }

  /** What the gate answers is where the session goes, and a rejection names the error the recovery failed with. */
  lemma GateAnswers(c: Config, st: State, s: Sid, now: real)
    requires c.Valid() && Enabled(st, DoGate(s, now))
    ensures var st' := Apply(c, st, DoGate(s, now));
            s in st'.sessions
            && match AdmissionModel.Gate(st, s, now).1
               case Granted(p) => st'.sessions[s].task == AwaitingQuota(p)
               case Sleep(delay) => st'.sessions[s].task.BackingOff? && st'.sessions[s].task.until == now + delay > now
               case Wait => st'.sessions[s].task.Parked?
               case Exhausted(cause) =>
                 && st'.sessions[s].task.Idle?
                 && (st.sessions[s].failure == Some(cause)
                     || (st.sessions[s].failure.None? && st.episode.Some? && st.episode.value.lastError == cause))
  {
  }

  // --- Nobody is forgotten in the queue ---

  /** A session parked behind another leader is one of the waiters of its episode, or has been told its error. */
  ghost predicate ParkedIsRecorded(st: State, s: Sid)
    requires s in st.sessions
  {
    var t := st.sessions[s].task;
    t.Parked? && t.generation.Some? ==>
      && t.generation.value < st.nextGeneration
      && (st.episode.Some? && st.episode.value.generation == t.generation.value ==>
            s in st.episode.value.waiters || st.sessions[s].failure.Some?)
  }

  ghost predicate AllRecorded(st: State) { forall s :: s in st.sessions ==> ParkedIsRecorded(st, s) }

  /** Who waits in an episode and is not the one that steps goes on waiting, or is told, as long as it goes on. */
  ghost predicate KeepsWaiter(st: State, st': State, t: Sid) {
    && st.episode.Some? && st'.episode.Some? && t in st.episode.value.waiters
    && st'.episode.value.generation == st.episode.value.generation
    ==> t in st'.episode.value.waiters || (t in st'.sessions && st'.sessions[t].failure.Some?)
  }

  lemma GateKeepsWaiter(st: State, s: Sid, now: real, t: Sid)
    requires Safety.EpisodeOk(st) && s in st.sessions && t != s
    ensures KeepsWaiter(st, Gate(st, s, now).0, t)
  {
  }

  lemma FailureKeepsWaiter(st: State, s: Sid, now: real, error: ProviderError, delay: real, cooldown: real, t: Sid)
    requires Safety.EpisodeOk(st) && s in st.sessions && st.sessions[s].task.Active? && t != s
    ensures KeepsWaiter(st, AttemptFailed(st, s, now, error, delay, cooldown), t)
  {
  }

  lemma StepKeepsWaiter(c: Config, st: State, a: Step, t: Sid)
    requires c.Valid() && Safety.Inv(st) && Enabled(st, a) && t != a.s
    ensures KeepsWaiter(st, Apply(c, st, a), t)
  {
    hide AttemptFailed, Gate, RL.Section, Safety.SessionOk;
    match a
    case DoGate(s, now) => GateKeepsWaiter(st, s, now, t);
    case DoAttemptFailed(s, now, error, delay, cooldown) =>
      FailureKeepsWaiter(st, s, now, error, delay, cooldown, t);
    case _ =>
  }

  lemma OthersStayRecorded(c: Config, st: State, a: Step, t: Sid)
    requires c.Valid() && Safety.Inv(st) && Enabled(st, a) && t in st.sessions && t != a.s
    requires ParkedIsRecorded(st, t)
    ensures t in Apply(c, st, a).sessions && ParkedIsRecorded(Apply(c, st, a), t)
  {
    hide Apply, Enabled;
    var st' := Apply(c, st, a);
    Theorems.StepFrame(c, st, a);
    Theorems.StepGenerations(c, st, a);
    StepKeepsWaiter(c, st, a, t);
  }

  lemma OwnIsRecorded(c: Config, st: State, a: Step)
    requires c.Valid() && Safety.Inv(st) && Enabled(st, a)
    requires a.s in st.sessions ==> ParkedIsRecorded(st, a.s)
    ensures a.s in Apply(c, st, a).sessions && ParkedIsRecorded(Apply(c, st, a), a.s)
  {
    hide AttemptFailed, Gate, RL.Section, Safety.SessionOk;
    match a
    case DoGate(s, now) => GateRecords(st, s, now);
    case DoAttemptFailed(s, now, error, delay, cooldown) => Theorems.FailureFrame(st, s, now, error, delay, cooldown);
    case _ =>
  }

  lemma GateRecords(st: State, s: Sid, now: real)
    requires Safety.EpisodeOk(st) && s in st.sessions
    ensures s in Gate(st, s, now).0.sessions && ParkedIsRecorded(Gate(st, s, now).0, s)
  {
  }

  lemma {:induction false} RunKeepsRecorded(c: Config, st: State, run: seq<Step>)
    requires c.Valid() && Safety.Inv(st) && Runnable(c, st, run) && AllRecorded(st)
    ensures AllRecorded(Run(c, st, run))
    decreases |run|
  {
    if run != [] {
      var a, st' := run[0], Apply(c, st, run[0]);
      Theorems.StepFrame(c, st, a);
      OwnIsRecorded(c, st, a);
      forall s | s in st'.sessions ensures ParkedIsRecorded(st', s) {
        if s != a.s { OthersStayRecorded(c, st, a, s); }
      }
      Safety.StepKeepsInv(c, st, a);
      RunKeepsRecorded(c, st', run[1..]);
    }
  }

  /**
   Over every run nobody is forgotten: a session that is parked behind another leader is recorded in the episode as long
   as that goes on, so when the recovery fails it has been told, and does not wait for a probe that never comes.
   */
  lemma NobodyIsForgotten(c: Config, clock: real, run: seq<Step>, s: Sid)
    requires c.Valid() && Runnable(c, Init(c, clock), run) && s in Run(c, Init(c, clock), run).sessions
    requires var st := Run(c, Init(c, clock), run); var t := st.sessions[s].task;
             t.Parked? && t.generation.Some? && st.episode.Some? && st.episode.value.generation == t.generation.value
    ensures var st := Run(c, Init(c, clock), run);
            if st.episode.value.terminalUntil.Some? then st.sessions[s].failure.Some?
            else s in st.episode.value.waiters || st.sessions[s].failure.Some?
  {
    Safety.InitKeepsInv(c, clock);
    Theorems.RunKeepsInv(c, Init(c, clock), run);
    RunKeepsRecorded(c, Init(c, clock), run);
    var st := Run(c, Init(c, clock), run);
    assert ParkedIsRecorded(st, s) && Safety.EpisodeOk(st);
  }

  // --- Giving the probe or the lead back ---

  /** A session that reports a correction keeps the lead: the next time it comes to the gate it probes at once. */
  lemma CorrectionKeepsTheLead(c: Config, st: State, s: Sid, now: real, later: real)
    requires c.Valid() && Safety.Inv(st) && Enabled(st, DoRetryImmediately(s, now)) && later >= now
    requires Unresolved(st, s) && st.sessions[s].task.permit.probe
    requires st.sessions[s].started < st.sessions[s].budget
    ensures var st1 := Apply(c, st, DoRetryImmediately(s, now));
            && st.episode.Some? && Reports(st, st1, s)
            && st1.episode == Some(st.episode.value.(probeActive := false, readyAt := now))
            && Enabled(st1, DoOpenAttempt(s)) && Enabled(Apply(c, st1, DoOpenAttempt(s)), DoGate(s, later))
            && var st3 := Apply(c, Apply(c, st1, DoOpenAttempt(s)), DoGate(s, later));
               && s in st3.sessions
               && (st.sessions[s].failure.None? ==>
                     st3.sessions[s].task == AwaitingQuota(GatePermit(Some(st.episode.value.generation), true)))
  {
    assert Safety.SessionOk(st, s);
  }

  /** On any other attempt a correction resolves the attempt only. */
  lemma OtherCorrections(c: Config, st: State, s: Sid, now: real)
    requires c.Valid() && Safety.Inv(st) && Enabled(st, DoRetryImmediately(s, now))
    requires !Unresolved(st, s) || !st.sessions[s].task.permit.probe
    ensures var st' := Apply(c, st, DoRetryImmediately(s, now));
            && st'.episode == st.episode
            && (if Unresolved(st, s) then Reports(st, st', s) else st' == At(st, now))
  {
  }

  /** Nobody leads or probes, and whoever comes first may probe at once. */
  ghost predicate Vacant(e: Option<Episode>, was: Episode, now: real) {
    e == Some(was.(leader := None, probeActive := false, readyAt := now))
  }

  /** The steps by which a probe is given up without an answer. */
  ghost predicate GivesProbeUp(st: State, a: Step)
    requires a.s in st.sessions
  {
    var x := st.sessions[a.s];
    || (a.DoRunAbandonment? && x.abandoning.Some?)
    || (a.DoCancelOpening? && x.task.Unresolved().Some? && x.task.Unresolved().value.probe)
  }

  /** A probe that is abandoned leaves the lead vacant, and the next session at the gate takes it and probes. */
  lemma AbandonedProbeIsReplaced(c: Config, st: State, a: Step, t: Sid, later: real)
    requires c.Valid() && Safety.Inv(st) && Enabled(st, a) && a.s in st.sessions && GivesProbeUp(st, a)
    requires var st' := Apply(c, st, a);
             Enabled(st', DoGate(t, later)) && st'.sessions[t].failure.None?
    ensures var st' := Apply(c, st, a);
            && st.episode.Some? && Vacant(st'.episode, st.episode.value, a.now)
            && t in Apply(c, st', DoGate(t, later)).sessions
            && Apply(c, st', DoGate(t, later)).sessions[t].task
               == AwaitingQuota(GatePermit(Some(st.episode.value.generation), true))
  {
    assert Safety.SessionOk(st, a.s);
    Safety.StepKeepsInv(c, st, a);
    AbandonmentVacates(c, st, a);
    LeaderAtGate(c, Apply(c, st, a), t, later);
  }

  lemma AbandonmentVacates(c: Config, st: State, a: Step)
    requires c.Valid() && Safety.Inv(st) && Enabled(st, a) && a.s in st.sessions && GivesProbeUp(st, a)
    ensures st.episode.Some? && Vacant(Apply(c, st, a).episode, st.episode.value, a.now)
    ensures st.episode.value.terminalUntil.None?
  {
    assert Safety.SessionOk(st, a.s) && Safety.EpisodeOk(st);
  }

  /** A leader that is cancelled in its sleep gives up the lead, and the next session at the gate has it. */
  lemma CancelledLeaderIsReplaced(c: Config, st: State, s: Sid, now: real)
    requires c.Valid() && Safety.Inv(st) && Enabled(st, DoCancelBackoff(s, now))
    ensures var st' := Apply(c, st, DoCancelBackoff(s, now));
            && st.episode.Some? && st'.episode == Some(st.episode.value.(leader := None))
            && st'.sessions == st.sessions[s := st.sessions[s].(task := Idle)]
            && forall t, later :: MayLead(st', t, later)
  {
    assert Safety.SessionOk(st, s) && Safety.EpisodeOk(st);
  }

  /** A waiter that is cancelled is no longer one. */
  lemma CancelledWaiterLeaves(c: Config, st: State, s: Sid, now: real)
    requires c.Valid() && Enabled(st, DoCancelParked(s, now)) && AllRecorded(st)
    ensures var st' := Apply(c, st, DoCancelParked(s, now));
            && st'.sessions == st.sessions[s := st.sessions[s].(task := Idle)]
            && st'.episode == (match (st.sessions[s].task.generation, st.episode)
                               case (Some(g), Some(e)) =>
                                 if e.generation == g then Some(e.(waiters := e.waiters - {s})) else st.episode
                               case _ => st.episode)
  {
  }

  /** The leader that slept until its episode was ready gets the probe: nothing else can have happened to its lead. */
  lemma SleepEndsInProbe(c: Config, st: State, s: Sid, now: real)
    requires c.Valid() && Safety.Inv(st) && Enabled(st, DoBackoffOver(s, now))
    ensures var st' := Apply(c, st, DoBackoffOver(s, now));
            && st.episode.Some? && st'.episode == Some(st.episode.value.(probeActive := true))
            && st'.sessions == st.sessions[s := st.sessions[s].(
                 task := AwaitingQuota(GatePermit(Some(st.episode.value.generation), true)))]
  {
    assert Safety.SessionOk(st, s) && Safety.EpisodeOk(st);
  }

  // --- From the permit to the attempt ---

  /** A permit that is still current, and room in the window: the session goes on to the slot with a timestamp. */
  lemma AdmittedAtQuota(c: Config, st: State, s: Sid, now: real, stamp: real)
    requires c.Valid() && Enabled(st, DoQuota(s, now, stamp))
    ensures var st' := Apply(c, st, DoQuota(s, now, stamp)); var p := st.sessions[s].task.permit;
            var out := RL.Section(c.limits, st.window, now, stamp, PermitIsCurrent(st, s, p)).1;
            && s in st'.sessions && st'.freeSlots == st.freeSlots && st'.claims == st.claims
            && (out.Full? ==> st'.sessions == st.sessions && st'.episode == st.episode)
            && (out.Admitted? ==>
                  && st'.sessions == st.sessions[s := st.sessions[s].(
                       task := AwaitingSlot(p, |st.window.history|))]
                  && st'.window.history == st.window.history + [stamp] && st'.episode == st.episode)
            && (out.Refused? ==>
                  st'.sessions == st.sessions[s := st.sessions[s].(task := AtGate)]
                  && st'.window.history == st.window.history)
  {
  }

  /** The slot was granted: with a current permit the attempt is claimed, and otherwise the slot is given back. */
  lemma ClaimOrReturn(c: Config, st: State, s: Sid, now: real)
    requires c.Valid() && Safety.Inv(st) && Enabled(st, DoClaim(s, now))
    ensures var st' := Apply(c, st, DoClaim(s, now)); var x := st.sessions[s];
            && s in st'.sessions && st'.episode == st.episode
            && (if PermitIsCurrent(st, s, x.task.permit)
                then st'.sessions[s] == x.(started := x.started + 1, task := Active(x.task.permit, x.task.stamp, false))
                     && st'.freeSlots == st.freeSlots
                else st'.sessions[s] == x.(task := AtGate) && st'.freeSlots == st.freeSlots + 1)
  {
    assert Safety.SessionOk(st, s);
  }

  // --- Opening and closing attempts ---

  /** A session with budget comes to the gate, and leaves an attempt behind that is still open; any other is refused. */
  lemma OpeningOutcome(c: Config, st: State, s: Sid)
    requires c.Valid() && Enabled(st, DoOpenAttempt(s))
    ensures var st' := Apply(c, st, DoOpenAttempt(s)); var x := st.sessions[s];
            if x.started >= x.budget then st' == st
            else && st'.sessions == st.sessions[s := st'.sessions[s]] && s in st'.sessions
                 && st'.sessions[s].task.AtGate? && st'.sessions[s].Slots() == x.Slots()
                 && (x.task.Active? ==> x.task.stamp in st'.sessions[s].lingering)
                 && st'.episode == st.episode && st'.freeSlots == st.freeSlots
  {
  }

  /** An attempt with an outcome gives its slot back as soon as it is closed. */
  lemma ResolvedCloses(c: Config, st: State, s: Sid)
    requires c.Valid() && Enabled(st, DoBeginClose(s)) && !Unresolved(st, s)
    ensures var st' := Apply(c, st, DoBeginClose(s));
            && st'.freeSlots == st.freeSlots + 1 && st'.episode == st.episode
            && st'.sessions == st.sessions[s := st.sessions[s].(task := Idle)]
  {
  }

  /**
   One without an outcome first leaves its permit to the abandonment, and gives its slot back when that was awaited
   or its caller was cancelled: the close as a whole returns one slot either way.
   */
  lemma UnresolvedCloses(c: Config, st: State, s: Sid)
    requires c.Valid() && Safety.Inv(st) && Enabled(st, DoBeginClose(s)) && Unresolved(st, s)
    ensures var st1 := Apply(c, st, DoBeginClose(s)); var p := st.sessions[s].task.permit;
            && Enabled(st1, DoEndClose(s)) && st1.freeSlots == st.freeSlots && st1.episode == st.episode
            && s in st1.sessions && st1.sessions[s].abandoning == (if p.probe then Some(p) else None)
            && (forall now :: now >= st.clock ==> (Enabled(st1, DoRunAbandonment(s, now)) <==> p.probe))
            && var st2 := Apply(c, st1, DoEndClose(s));
               && st2.freeSlots == st.freeSlots + 1 && s in st2.sessions && st2.sessions[s].task.Idle?
               && st2.sessions[s].abandoning == st1.sessions[s].abandoning && st2.episode == st.episode
  {
    assert Safety.SessionOk(st, s);
  }

  /** An opener that is cancelled with no probe leaves nothing behind but a vacant slot, if it had one. */
  lemma PlainOpenerLeaves(c: Config, st: State, s: Sid, now: real)
    requires c.Valid() && Enabled(st, DoCancelOpening(s, now)) && !st.sessions[s].task.permit.probe
    ensures var st' := Apply(c, st, DoCancelOpening(s, now));
            && st'.episode == st.episode && st'.sessions == st.sessions[s := st.sessions[s].(task := Idle)]
            && st'.freeSlots == st.freeSlots + if st.sessions[s].task.SlotGranted? then 1 else 0
  {
  }
}
