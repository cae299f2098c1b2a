/** What every step of the admission protocol keeps: the probe, the leader, the waiters and the failures. */
module AdmissionSafety {
  import opened Options
  import opened AdmissionModel

  /** The unresolved probe permit in the session's own coroutine. */
  ghost function OwnProbe(x: Session): Option<GatePermit> {
    if x.task.Unresolved().Some? && x.task.Unresolved().value.probe then x.task.Unresolved() else None
  }

  /** `p` is the only unresolved probe permit of the session, in its coroutine or in its shielded abandonment. */
  ghost predicate HoldsOnly(x: Session, p: Option<GatePermit>) {
    (OwnProbe(x) == p && x.abandoning.None?) || (OwnProbe(x).None? && x.abandoning == p)
  }

  ghost predicate Leads(st: State, s: Sid) { st.episode.Some? && st.episode.value.leader == Some(s) }

  ghost predicate Probing(st: State, s: Sid) { Leads(st, s) && st.episode.value.probeActive }

  ghost predicate Recorded(st: State, s: Sid) { st.episode.Some? && s in st.episode.value.waiters }

  /** On its way to an upstream attempt without another look at its own failure flag. */
  ghost predicate Committed(t: Task) { t.BackingOff? || t.Unresolved().Some? }

  ghost predicate SessionOk(st: State, s: Sid)
    requires s in st.sessions
  {
    var x := st.sessions[s];
    && x.started <= x.budget
    && (x.task.Opening() ==> x.started < x.budget)
    && HoldsOnly(x, if Probing(st, s) then Some(GatePermit(Some(st.episode.value.generation), true)) else None)
    && (x.task.BackingOff? ==>
          && Leads(st, s) && !Probing(st, s)
          && st.episode.value.generation == x.task.claimed
          && st.episode.value.readyAt <= x.task.until)
    && (x.failure.Some? || Recorded(st, s) ==> !Committed(x.task) && !Leads(st, s))
    && (Leads(st, s) && x.task.Unresolved().Some? ==> x.task.Unresolved().value.probe)
  }

  ghost predicate EpisodeOk(st: State) {
    st.episode.Some? ==>
      var e := st.episode.value;
      && e.generation < st.nextGeneration
      && (e.leader.Some? ==> e.leader.value in st.sessions)
      && e.waiters <= st.sessions.Keys
      && (e.probeActive ==> e.leader.Some? && e.readyAt <= st.clock)
      && (e.terminalUntil.Some? ==> e.leader.None? && !e.probeActive && e.waiters == {})
  }

  ghost predicate Inv(st: State) {
    && EpisodeOk(st)
    && forall s :: s in st.sessions ==> SessionOk(st, s)
  }

  lemma InitKeepsInv(c: Config, clock: real)
    requires c.Valid()
    ensures Inv(Init(c, clock))
  {
  }

  lemma LeaderGateKeepsInv(st: State, s: Sid, now: real)
    requires Inv(st) && s in st.sessions && st.sessions[s].task.AtGate? && Leads(st, s)
    requires now == st.clock && st.episode.value.terminalUntil.None? && st.sessions[s].failure.None?
    ensures Inv(LeaderGate(st, s, now).0)
  {
    var (st', _) := LeaderGate(st, s, now);
    forall t | t in st'.sessions ensures SessionOk(st', t) {
      assert SessionOk(st, t);
    }
  }

  lemma GateKeepsInv(st: State, s: Sid, now: real)
    requires Inv(st) && s in st.sessions && st.sessions[s].task.AtGate? && st.clock <= now
    ensures Inv(Gate(st, s, now).0)
  {
    var st0 := At(st, now);
    AtKeepsInv(st, now);
    assert SessionOk(st0, s);
    if st0.sessions[s].failure.Some? || st0.episode.None?
       || (st0.episode.value.terminalUntil.Some? && now < st0.episode.value.terminalUntil.value) {
      var st' := Gate(st, s, now).0;
      forall t | t in st'.sessions ensures SessionOk(st', t) { assert SessionOk(st0, t); }
    } else {
      EpisodeGateKeepsInv(st0, s, now);
    }
  }

  lemma EpisodeGateKeepsInv(st: State, s: Sid, now: real)
    requires Inv(st) && s in st.sessions && st.sessions[s].task.AtGate? && st.clock == now
    requires st.sessions[s].failure.None? && st.episode.Some?
    requires st.episode.value.terminalUntil.Some? ==> st.episode.value.terminalUntil.value <= now
    ensures Inv(EpisodeGate(st, s, now).0)
  {
    var e := st.episode.value;
    assert forall t :: t in st.sessions ==> SessionOk(st, t);
    if e.terminalUntil.Some? {
      var st1 := OpenEpisode(st, Some(s), now, e.lastError);
      assert forall t :: t in st1.sessions ==> SessionOk(st1, t);
      LeaderGateKeepsInv(st1, s, now);
    } else if e.leader.None? {
      var st1 := st.(episode := Some(e.(leader := Some(s), waiters := e.waiters - {s})));
      assert forall t :: t in st1.sessions ==> SessionOk(st1, t);
      LeaderGateKeepsInv(st1, s, now);
    } else if e.leader == Some(s) {
      LeaderGateKeepsInv(st, s, now);
    } else {
      var st' := EpisodeGate(st, s, now).0;
      forall t | t in st'.sessions ensures SessionOk(st', t) {}
    }
  }

  /** The probe of a session is always current: nobody else can end or hand over the episode it probes. */
  lemma ProbePermitIsCurrent(st: State, s: Sid, p: GatePermit)
    requires Inv(st) && s in st.sessions
    requires OwnProbe(st.sessions[s]) == Some(p) || st.sessions[s].abandoning == Some(p)
    ensures p.probe && PermitIsCurrent(st, s, p) && MatchingProbe(st, s, p) && st.clock >= st.episode.value.readyAt
  {
    assert SessionOk(st, s);
  }

  /** AbandonProbe followed by the session leaving its permit behind. */
  lemma AbandonKeepsInv(st: State, s: Sid, x: Session, p: GatePermit, now: real)
    requires Inv(st) && s in st.sessions && now == st.clock
    requires x == st.sessions[s].(task := x.task, abandoning := x.abandoning)
    requires !Committed(x.task) && x.abandoning.None? && (x.task.Opening() ==> x.started < x.budget)
    requires HoldsOnly(st.sessions[s], if p.probe then Some(p) else None)
    ensures Inv(Put(AbandonProbe(st, s, p, now), s, x))
  {
    var st' := Put(AbandonProbe(st, s, p, now), s, x);
    assert SessionOk(st, s);
    forall t | t in st'.sessions ensures SessionOk(st', t) {
      assert SessionOk(st, t);
    }
  }

  /** Time alone breaks nothing. */
  lemma AtKeepsInv(st: State, now: real)
    requires Inv(st) && st.clock <= now
    ensures Inv(At(st, now))
  {
    var st' := At(st, now);
    forall t | t in st'.sessions ensures SessionOk(st', t) {
      assert SessionOk(st, t);
    }
  }

  /** The session moves on without touching the episode, and still holds the same permit or none of its own. */
  lemma MoveKeepsInv(st: State, s: Sid, y: Session)
    requires Inv(st) && s in st.sessions
    requires y == st.sessions[s].(task := y.task, lingering := y.lingering)
    requires y.task.Unresolved() == st.sessions[s].task.Unresolved()
             || (y.task.Unresolved().None? && !st.sessions[s].task.Unresolved().value.probe)
    requires !y.task.BackingOff? && (y.task.Opening() ==> y.started < y.budget)
    ensures Inv(Put(st, s, y))
  {
    var st' := Put(st, s, y);
    assert SessionOk(st, s);
    forall t | t in st'.sessions ensures SessionOk(st', t) {
      assert SessionOk(st, t);
    }
  }

  lemma GotoKeepsInv(st: State, s: Sid, task: Task)
    requires Inv(st) && s in st.sessions
    requires task.Unresolved() == st.sessions[s].task.Unresolved()
             || (task.Unresolved().None? && !st.sessions[s].task.Unresolved().value.probe)
    requires !task.BackingOff? && (task.Opening() ==> st.sessions[s].started < st.sessions[s].budget)
    ensures Inv(Goto(st, s, task))
  {
    MoveKeepsInv(st, s, st.sessions[s].(task := task));
  }

  /** A session whose attempts all have an outcome opens another one, or closes one it left behind. */
  lemma OpenAttemptKeepsInv(st: State, s: Sid)
    requires Inv(st) && s in st.sessions && st.sessions[s].task.CanOpen()
    ensures Inv(OpenAttempt(st, s))
  {
    var x := st.sessions[s];
    if x.started < x.budget {
      MoveKeepsInv(st, s, x.(task := AtGate, lingering := Lingering(x)));
    }
  }

  lemma CloseLingeringKeepsInv(st: State, s: Sid, stamp: nat)
    requires Inv(st) && s in st.sessions && (st.sessions[s].task.Idle? || st.sessions[s].task.Active?)
    ensures Inv(CloseLingering(st, s, stamp))
  {
    var st' := CloseLingering(st, s, stamp);
    forall t | t in st'.sessions ensures SessionOk(st', t) {
      assert SessionOk(st, t);
    }
  }

  lemma BackoffOverKeepsInv(st: State, s: Sid, now: real)
    requires Inv(st) && s in st.sessions && st.sessions[s].task.BackingOff?
    requires st.clock <= now && st.sessions[s].task.until <= now
    ensures Inv(BackoffOver(st, s, now))
    ensures BackoffOver(st, s, now).sessions[s].task.AwaitingQuota?
  {
    var st' := BackoffOver(st, s, now);
    assert SessionOk(st, s);
    forall t | t in st'.sessions ensures SessionOk(st', t) {
      assert SessionOk(st, t);
    }
  }

  lemma CancelWaitKeepsInv(st: State, s: Sid, now: real)
    requires Inv(st) && s in st.sessions && st.clock <= now
    ensures st.sessions[s].task.Parked? ==> Inv(CancelParked(st, s, now))
    ensures st.sessions[s].task.BackingOff? ==> Inv(CancelBackoff(st, s, now))
  {
    assert SessionOk(st, s);
    if st.sessions[s].task.Parked? {
      var st' := CancelParked(st, s, now);
      forall t | t in st'.sessions ensures SessionOk(st', t) {
        assert SessionOk(st, t);
      }
    } else if st.sessions[s].task.BackingOff? {
      var st' := CancelBackoff(st, s, now);
      forall t | t in st'.sessions ensures SessionOk(st', t) {
        assert SessionOk(st, t);
      }
    }
  }

  lemma QuotaKeepsInv(c: Config, st: State, s: Sid, now: real, stamp: real)
    requires c.Valid() && Inv(st) && s in st.sessions && st.sessions[s].task.AwaitingQuota?
    requires st.clock <= now <= stamp
    ensures Inv(Quota(c, st, s, now, stamp))
  {
    var x := st.sessions[s];
    var p := x.task.permit;
    assert SessionOk(st, s);
    var (w, out) := RL.Section(c.limits, st.window, now, stamp, PermitIsCurrent(st, s, p));
    var st1 := At(st, stamp).(window := w);
    AtKeepsInv(st, stamp);
    assert forall t :: t in st1.sessions ==> SessionOk(At(st, stamp), t) && SessionOk(st1, t);
    match out
    case Full(_) =>
    case Refused => AbandonKeepsInv(st1, s, x.(task := AtGate), p, stamp);
    case Admitted => GotoKeepsInv(st1, s, AwaitingSlot(p, |w.history| - 1));
  }

  lemma ClaimKeepsInv(st: State, s: Sid, now: real)
    requires Inv(st) && s in st.sessions && st.sessions[s].task.SlotGranted? && st.clock <= now
    ensures Inv(ClaimAttempt(st, s, now))
  {
    var x := st.sessions[s];
    var p := x.task.permit;
    assert SessionOk(st, s);
    AtKeepsInv(st, now);
    if PermitIsCurrent(At(st, now), s, p) {
      var st' := ClaimAttempt(st, s, now);
      forall t | t in st'.sessions ensures SessionOk(st', t) {
        assert SessionOk(st, t);
      }
    } else {
      var st1 := At(st, now).(freeSlots := st.freeSlots + 1);
      assert forall t :: t in st1.sessions ==> SessionOk(At(st, now), t) && SessionOk(st1, t);
      AbandonKeepsInv(st1, s, x.(task := AtGate), p, now);
    }
  }

  lemma SlotsKeepInv(st: State, free: nat)
    requires Inv(st)
    ensures Inv(st.(freeSlots := free))
  {
    forall s | s in st.sessions ensures SessionOk(st.(freeSlots := free), s) { assert SessionOk(st, s); }
  }

  lemma CancelOpeningKeepsInv(st: State, s: Sid, now: real)
    requires Inv(st) && s in st.sessions && st.clock <= now
    requires st.sessions[s].task.AwaitingQuota? || st.sessions[s].task.AwaitingSlot? || st.sessions[s].task.SlotGranted?
    ensures Inv(CancelOpening(st, s, now))
  {
    var x := st.sessions[s];
    assert SessionOk(st, s);
    AtKeepsInv(st, now);
    var st1 := if x.task.SlotGranted? then At(st, now).(freeSlots := st.freeSlots + 1) else At(st, now);
    SlotsKeepInv(At(st, now), st1.freeSlots);
    AbandonKeepsInv(st1, s, x.(task := Idle), x.task.permit, now);
  }

  lemma ResolutionKeepsInv(st: State, s: Sid, now: real)
    requires Inv(st) && s in st.sessions && st.sessions[s].task.Active? && st.clock <= now
    ensures Inv(ProbeAnswered(st, s, now))
    ensures Inv(RetryImmediately(st, s, now))
  {
    assert SessionOk(st, s);
    var st1 := ProbeAnswered(st, s, now);
    forall t | t in st1.sessions ensures SessionOk(st1, t) {
      assert SessionOk(st, t);
    }
    var st2 := RetryImmediately(st, s, now);
    forall t | t in st2.sessions ensures SessionOk(st2, t) {
      assert SessionOk(st, t);
    }
  }

  /** Exhaustion: the leader's last probe, or the first failure of a session without budget. */
  lemma TerminateKeepsInv(st: State, s: Sid, y: Session, error: ProviderError, until: real)
    requires EpisodeOk(st) && st.episode.Some? && s in st.sessions && st.episode.value.terminalUntil.None?
    requires st.episode.value.leader.None? || st.episode.value.leader == Some(s)
    requires forall t :: t in st.sessions && t != s ==> SessionOk(st, t)
    requires y.started <= y.budget && y.task.Active? && y.task.resolved && y.abandoning.None?
    requires st.sessions[s] == y
    ensures Inv(Terminate(st, error, until))
  {
    var st' := Terminate(st, error, until);
    forall t | t in st'.sessions ensures SessionOk(st', t) {
      if t != s {
        assert SessionOk(st, t);
      }
    }
  }

  /** A failure with budget left: open an episode, keep probing, join the waiters, or share the terminal error. */
  lemma RetryableFailureKeepsInv(st: State, s: Sid, now: real, error: ProviderError, delay: real, cooldown: real)
    requires Inv(st) && s in st.sessions && st.sessions[s].task.Active? && st.clock == now && delay >= 0.0
    requires st.sessions[s].started < st.sessions[s].budget
    ensures Inv(AttemptFailed(st, s, now, error, delay, cooldown))
  {
    assert SessionOk(st, s);
    var st' := AttemptFailed(st, s, now, error, delay, cooldown);
    forall t | t in st'.sessions ensures SessionOk(st', t) {
      assert SessionOk(st, t);
    }
  }

  lemma LastFailureKeepsInv(st: State, s: Sid, now: real, error: ProviderError, delay: real, cooldown: real)
    requires Inv(st) && s in st.sessions && st.sessions[s].task.Active? && st.clock == now
    requires st.sessions[s].started == st.sessions[s].budget && !st.sessions[s].task.resolved
    ensures Inv(AttemptFailed(st, s, now, error, delay, cooldown))
  {
    var x := st.sessions[s];
    var y := x.(task := x.task.(resolved := true));
    assert SessionOk(st, s);
    if st.episode.None? || MatchingProbe(st, s, x.task.permit) {
      var st1 := if st.episode.None? then Put(OpenEpisode(st, None, now, error), s, y) else Put(st, s, y);
      forall t | t in st1.sessions && t != s ensures SessionOk(st1, t) {
        assert SessionOk(st, t);
      }
      TerminateKeepsInv(st1, s, y, error, now + cooldown);
    } else {
      GotoKeepsInv(st, s, y.task);
    }
  }

  lemma AttemptFailedKeepsInv(st: State, s: Sid, now: real, error: ProviderError, delay: real, cooldown: real)
    requires Inv(st) && s in st.sessions && st.sessions[s].task.Active? && st.clock <= now && delay >= 0.0
    ensures Inv(AttemptFailed(st, s, now, error, delay, cooldown))
  {
    AtKeepsInv(st, now);
    assert SessionOk(st, s);
    if st.sessions[s].started < st.sessions[s].budget {
      RetryableFailureKeepsInv(At(st, now), s, now, error, delay, cooldown);
    } else if !st.sessions[s].task.resolved {
      LastFailureKeepsInv(At(st, now), s, now, error, delay, cooldown);
    }
  }

  lemma BeginCloseKeepsInv(st: State, s: Sid)
    requires Inv(st) && s in st.sessions && st.sessions[s].task.Active?
    ensures Inv(BeginClose(st, s))
  {
    assert SessionOk(st, s);
    var st' := BeginClose(st, s);
    forall t | t in st'.sessions ensures SessionOk(st', t) {
      assert SessionOk(st, t);
    }
  }

  lemma EndCloseKeepsInv(st: State, s: Sid)
    requires Inv(st) && s in st.sessions && st.sessions[s].task.Closing?
    ensures Inv(EndClose(st, s))
  {
    var st' := EndClose(st, s);
    forall t | t in st'.sessions ensures SessionOk(st', t) {
      assert SessionOk(st, t);
    }
  }

  lemma RunAbandonmentKeepsInv(st: State, s: Sid, now: real)
    requires Inv(st) && s in st.sessions && st.sessions[s].abandoning.Some? && st.clock <= now
    ensures Inv(RunAbandonment(st, s, now))
  {
    AtKeepsInv(st, now);
    var x := st.sessions[s];
    assert SessionOk(st, s);
    var p := x.abandoning.value;
    var st' := RunAbandonment(st, s, now);
    forall t | t in st'.sessions ensures SessionOk(st', t) {
      assert SessionOk(st, t);
    }
  }

  lemma NewSessionKeepsInv(st: State, s: Sid, budget: nat)
    requires Inv(st) && s !in st.sessions
    ensures Inv(NewSession(st, s, budget))
  {
    var st' := NewSession(st, s, budget);
    forall t | t in st'.sessions ensures SessionOk(st', t) {
      if t != s {
        assert SessionOk(st, t);
      }
    }
  }

  /** Every step of every session keeps the invariant. */
  lemma StepKeepsInv(c: Config, st: State, a: Step)
    requires c.Valid() && Inv(st) && Enabled(st, a)
    ensures Inv(Apply(c, st, a))
  {
    match a
    case DoNewSession(s) => NewSessionKeepsInv(st, s, c.attempts);
    case DoOpenAttempt(s) => OpenAttemptKeepsInv(st, s);
    case DoGate(s, now) => GateKeepsInv(st, s, now);
    case DoWake(s) => assert SessionOk(st, s); GotoKeepsInv(st, s, AtGate);
    case DoBackoffOver(s, now) => BackoffOverKeepsInv(st, s, now);
    case DoCancelParked(s, now) => CancelWaitKeepsInv(st, s, now);
    case DoCancelBackoff(s, now) => CancelWaitKeepsInv(st, s, now);
    case DoQuota(s, now, stamp) => QuotaKeepsInv(c, st, s, now, stamp);
    case DoGrantSlot(s) =>
      assert SessionOk(st, s);
      var st1 := st.(freeSlots := st.freeSlots - 1);
      assert forall t :: t in st1.sessions ==> SessionOk(st, t) && SessionOk(st1, t);
      GotoKeepsInv(st1, s, SlotGranted(st.sessions[s].task.permit, st.sessions[s].task.stamp));
    case DoClaim(s, now) => ClaimKeepsInv(st, s, now);
    case DoCancelOpening(s, now) => CancelOpeningKeepsInv(st, s, now);
    case DoProbeAnswered(s, now) => ResolutionKeepsInv(st, s, now);
    case DoRetryImmediately(s, now) => ResolutionKeepsInv(st, s, now);
    case DoAttemptFailed(s, now, error, delay, cooldown) => AttemptFailedKeepsInv(st, s, now, error, delay, cooldown);
    case DoBeginClose(s) => BeginCloseKeepsInv(st, s);
    case DoRunAbandonment(s, now) => RunAbandonmentKeepsInv(st, s, now);
    case DoEndClose(s) => EndCloseKeepsInv(st, s);
    case DoCloseLingering(s, stamp) => CloseLingeringKeepsInv(st, s, stamp);
  }
}
