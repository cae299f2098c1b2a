/**
 Hold and wait. A session that recovers in midstream opens an attempt while it still holds the slot of
 the broken one, so sessions can wait for slots that only they could give back. `Wedged` is the exact
 condition: from then on no slot is freed and no attempt is claimed until one of them is cancelled.
 */
module AdmissionDeadlock {
  import opened Options
  import RL = RateLimit
  import opened AdmissionModel
  import Safety = AdmissionSafety
  import Theorems = AdmissionTheorems
  import opened AdmissionResources

  // --- The condition ---

  /** A provider that has exhausted a recovery rejects whoever comes to the gate now. */
  ghost predicate Cooling(st: State) {
    && st.episode.Some? && st.episode.value.terminalUntil.Some?
    && st.clock < st.episode.value.terminalUntil.value
  }

  /** The session is in open_attempt, has no slot for its new attempt, and was not told to give up. */
  predicate Waiting(x: Session) { x.task.Opening() && !x.task.SlotGranted? && x.failure.None? }

  /** The window admits somebody before that instant. */
  predicate RoomBefore(l: RL.Limits, w: RL.Window, until: real)
    requires l.count > 0
  {
    |w.times| < l.count || w.times[0] + l.window < until
  }

  /** The session can still come to the gate before the cooldown is over, and is then rejected. */
  ghost predicate MayBeRejected(c: Config, st: State, x: Session)
    requires c.Valid()
  {
    && Cooling(st)
    && (x.task.AtGate? || x.task.Parked?
        || (x.task.AwaitingQuota? && RoomBefore(c.limits, st.window, st.episode.value.terminalUntil.value)))
  }

  /** No slot is free, and whoever holds one waits for another, with no rejection to come. */
  ghost predicate Wedged(c: Config, st: State)
    requires c.Valid()
  {
    && st.freeSlots == 0
    && forall s :: s in st.sessions && st.sessions[s].Slots() > 0 ==>
                     Waiting(st.sessions[s]) && !MayBeRejected(c, st, st.sessions[s])
  }

  /** The step cancels a session that holds a slot while it waits in open_attempt. */
  predicate CancelsHolder(st: State, a: Step)
    requires Enabled(st, a)
  {
    (a.DoCancelOpening? || a.DoCancelParked? || a.DoCancelBackoff?) && st.sessions[a.s].Slots() > 0
  }

  ghost predicate CancelsNoHolder(c: Config, st: State, run: seq<Step>)
    requires c.Valid() && Runnable(c, st, run)
    decreases |run|
  {
    run != [] ==> !CancelsHolder(st, run[0]) && CancelsNoHolder(c, Apply(c, st, run[0]), run[1..])
  }

  /** The provider may go on like this, with nobody cancelled who holds a slot while it waits. */
  ghost predicate Continues(c: Config, st: State, run: seq<Step>)
    requires c.Valid()
  {
    Runnable(c, st, run) && CancelsNoHolder(c, st, run)
  }

  /** At the end of the run no slot is free, and no attempt was claimed. */
  ghost predicate Barren(c: Config, st: State, run: seq<Step>)
    requires c.Valid() && Runnable(c, st, run)
  {
    Run(c, st, run).freeSlots == 0 && Run(c, st, run).claims == st.claims
  }

  // --- A wedge lasts ---

  /** Nobody holds an attempt that could fail, so no new cooldown begins. */
  lemma NoNewCooldown(c: Config, st: State, a: Step)
    requires c.Valid() && Enabled(st, a) && (a.s in st.sessions ==> !st.sessions[a.s].task.Active?)
    requires Cooling(Apply(c, st, a))
    ensures Cooling(st) && Apply(c, st, a).episode.value.terminalUntil == st.episode.value.terminalUntil
  {
  }

  /** During a cooldown a window that is full up to its end stays so. */
  lemma FullWindowStays(c: Config, st: State, s: Sid, now: real, stamp: real)
    requires c.Valid() && Enabled(st, DoQuota(s, now, stamp)) && Cooling(st)
    requires !RoomBefore(c.limits, st.window, st.episode.value.terminalUntil.value)
    requires stamp < st.episode.value.terminalUntil.value
    ensures Quota(c, st, s, now, stamp) == At(st, stamp)
  {
    assert RL.Evict(st.window.times, now - c.limits.window) == st.window.times;
  }

  /** A session whose own state is the same keeps waiting. */
  lemma StillWaiting(c: Config, st: State, a: Step, x: Session)
    requires c.Valid() && Enabled(st, a) && (a.s in st.sessions ==> !st.sessions[a.s].task.Active?)
    requires !MayBeRejected(c, st, x)
    ensures !MayBeRejected(c, Apply(c, st, a), x)
  {
    var st' := Apply(c, st, a);
    if Cooling(st') {
      NoNewCooldown(c, st, a);
      if a.DoQuota? {
        if !RoomBefore(c.limits, st.window, st.episode.value.terminalUntil.value) {
          FullWindowStays(c, st, a.s, a.now, a.stamp);
        }
      } else if !a.DoClaim? {
        OwnReservation(c, st, a);
      }
    }
  }

  /** What a waiting holder does next leaves it waiting, and leaves the semaphore and the claims alone. */
  lemma HolderKeepsWaiting(c: Config, st: State, a: Step)
    requires c.Valid() && Enabled(st, a) && Safety.Inv(st) && !CancelsHolder(st, a) && st.freeSlots == 0
    requires a.s in st.sessions && st.sessions[a.s].Slots() > 0
    requires Waiting(st.sessions[a.s]) && !MayBeRejected(c, st, st.sessions[a.s])
    ensures var st' := Apply(c, st, a);
            && a.s in st'.sessions && Waiting(st'.sessions[a.s]) && !MayBeRejected(c, st', st'.sessions[a.s])
            && st'.freeSlots == 0 && st'.claims == st.claims
  {
    var x := st.sessions[a.s];
    assert Safety.SessionOk(st, a.s);
    StillWaiting(c, st, a, x);
    if Cooling(Apply(c, st, a)) {
      NoNewCooldown(c, st, a);
      if a.DoQuota? { FullWindowStays(c, st, a.s, a.now, a.stamp); }
    }
  }

  /** A session without a slot cannot get one. */
  lemma OthersGetNoSlot(c: Config, st: State, a: Step)
    requires c.Valid() && Enabled(st, a) && st.freeSlots == 0 && HeldBy(st, a.s) == 0
    ensures var st' := Apply(c, st, a);
            st'.freeSlots == 0 && HeldBy(st', a.s) == 0 && st'.claims == st.claims
  {
    StepMovesSlots(c, st, a);
    Theorems.StepClaims(c, st, a);
  }

  lemma StepKeepsWedged(c: Config, st: State, a: Step)
    requires c.Valid() && Enabled(st, a) && Safety.Inv(st) && Wedged(c, st) && !CancelsHolder(st, a)
    ensures Wedged(c, Apply(c, st, a)) && Apply(c, st, a).claims == st.claims
  {
    var st' := Apply(c, st, a);
    if HeldBy(st, a.s) > 0 { HolderKeepsWaiting(c, st, a); } else { OthersGetNoSlot(c, st, a); }
    Theorems.StepTouchesOne(c, st, a);
    forall s | s in st'.sessions && st'.sessions[s].Slots() > 0
      ensures Waiting(st'.sessions[s]) && !MayBeRejected(c, st', st'.sessions[s])
    {
      if s != a.s { StillWaiting(c, st, a, st.sessions[s]); }
    }
  }

  /** Once wedged, the provider frees no slot and makes no upstream attempt until a waiting holder is cancelled. */
  lemma {:induction false} WedgedForever(c: Config, st: State, run: seq<Step>)
    requires c.Valid() && Safety.Inv(st) && Wedged(c, st) && Continues(c, st, run)
    ensures Wedged(c, Run(c, st, run)) && Barren(c, st, run)
    decreases |run|
  {
    if run != [] {
      StepKeepsWedged(c, st, run[0]);
      Safety.StepKeepsInv(c, st, run[0]);
      WedgedForever(c, Apply(c, st, run[0]), run[1..]);
    }
  }

  // --- Without a wedge a slot can be freed ---

  /** The run cancels no holder and ends with a free slot. */
  ghost predicate FreesSlot(c: Config, st: State, run: seq<Step>)
    requires c.Valid()
  {
    Continues(c, st, run) && Run(c, st, run).freeSlots > 0
  }

  /** At most so many steps, all of them the session's own. */
  predicate OwnSteps(run: seq<Step>, s: Sid, most: nat) {
    |run| <= most && forall i :: 0 <= i < |run| ==> run[i].s == s
  }

  lemma Last(c: Config, st: State, a: Step)
    requires c.Valid() && Enabled(st, a) && !CancelsHolder(st, a) && Apply(c, st, a).freeSlots > 0
    ensures FreesSlot(c, st, [a])
  {
    assert [a][1..] == [];
  }

  lemma Prepend(c: Config, st: State, a: Step, rest: seq<Step>)
    requires c.Valid() && Enabled(st, a) && !CancelsHolder(st, a) && FreesSlot(c, Apply(c, st, a), rest)
    ensures FreesSlot(c, st, [a] + rest)
  {
    assert ([a] + rest)[1..] == rest;
  }

  lemma IdleFrees(c: Config, st: State, s: Sid) returns (run: seq<Step>)
    requires c.Valid() && s in st.sessions && st.sessions[s].task.Idle? && st.sessions[s].Slots() > 0
    ensures FreesSlot(c, st, run) && OwnSteps(run, s, 1)
  {
    var attempt :| attempt in st.sessions[s].lingering;
    run := [DoCloseLingering(s, attempt)];
    Last(c, st, run[0]);
  }

  /** An attempt gets an answer and is closed. */
  lemma ActiveFrees(c: Config, st: State, s: Sid) returns (run: seq<Step>)
    requires c.Valid() && s in st.sessions && st.sessions[s].task.Active?
    ensures FreesSlot(c, st, run) && OwnSteps(run, s, 2)
  {
    var a, close := DoProbeAnswered(s, st.clock), DoBeginClose(s);
    if st.sessions[s].task.resolved {
      run := [close];
      Last(c, st, close);
    } else {
      run := [a] + [close];
      Last(c, Apply(c, st, a), close);
      Prepend(c, st, a, [close]);
    }
  }

  /** The slot was granted: it is used, or given back. */
  lemma GrantedFrees(c: Config, st: State, s: Sid) returns (run: seq<Step>)
    requires c.Valid() && s in st.sessions && st.sessions[s].task.SlotGranted?
    ensures FreesSlot(c, st, run) && OwnSteps(run, s, 3)
  {
    var a := DoClaim(s, st.clock);
    if PermitIsCurrent(st, s, st.sessions[s].task.permit) {
      var rest := ActiveFrees(c, Apply(c, st, a), s);
      run := [a] + rest;
      Prepend(c, st, a, rest);
    } else {
      run := [a];
      Last(c, st, a);
    }
  }

  /** The gate rejects the session at that instant. */
  ghost predicate Rejects(st: State, x: Session) { x.failure.Some? || Cooling(st) }

  lemma GateFrees(c: Config, st: State, s: Sid) returns (run: seq<Step>)
    requires c.Valid() && s in st.sessions && st.sessions[s].task.AtGate? && st.sessions[s].Slots() > 0
    requires Rejects(st, st.sessions[s])
    ensures FreesSlot(c, st, run) && OwnSteps(run, s, 2)
  {
    var a := DoGate(s, st.clock);
    var rest := IdleFrees(c, Apply(c, st, a), s);
    run := [a] + rest;
    Prepend(c, st, a, rest);
  }

  lemma ParkedFrees(c: Config, st: State, s: Sid) returns (run: seq<Step>)
    requires c.Valid() && s in st.sessions && st.sessions[s].task.Parked? && st.sessions[s].Slots() > 0
    requires Rejects(st, st.sessions[s])
    ensures FreesSlot(c, st, run) && OwnSteps(run, s, 3)
  {
    var a := DoWake(s);
    var rest := GateFrees(c, Apply(c, st, a), s);
    run := [a] + rest;
    Prepend(c, st, a, rest);
  }

  /** When the window has room, a permit from before the cooldown is refused. */
  lemma QuotaFrees(c: Config, st: State, s: Sid) returns (run: seq<Step>)
    requires c.Valid() && s in st.sessions && st.sessions[s].task.AwaitingQuota? && st.sessions[s].Slots() > 0
    requires Cooling(st) && RoomBefore(c.limits, st.window, st.episode.value.terminalUntil.value)
    requires |st.window.times| <= c.limits.count
    ensures FreesSlot(c, st, run) && OwnSteps(run, s, 3)
  {
    var times := st.window.times;
    var now :=
      if |times| < c.limits.count || times[0] + c.limits.window <= st.clock then st.clock
      else times[0] + c.limits.window;
    RL.EvictDropsExpired(times, now - c.limits.window);
    if |times| == c.limits.count { RL.ExpiredHeadMakesRoom(times, now - c.limits.window); }
    var a := DoQuota(s, now, now);
    var rest := GateFrees(c, Apply(c, st, a), s);
    run := [a] + rest;
    Prepend(c, st, a, rest);
  }

  /** A holder that does not wait, or that will be rejected, gives a slot back in at most three steps of its own. */
  lemma HolderFrees(c: Config, st: State, s: Sid) returns (run: seq<Step>)
    requires c.Valid() && Safety.Inv(st) && |st.window.times| <= c.limits.count
    requires s in st.sessions && st.sessions[s].Slots() > 0
    requires !Waiting(st.sessions[s]) || MayBeRejected(c, st, st.sessions[s])
    ensures FreesSlot(c, st, run) && OwnSteps(run, s, 3)
  {
    assert Safety.SessionOk(st, s);
    match st.sessions[s].task
    case Idle => run := IdleFrees(c, st, s);
    case Active(_, _, _) => run := ActiveFrees(c, st, s);
    case Closing => run := [DoEndClose(s)]; Last(c, st, run[0]);
    case SlotGranted(_, _) => run := GrantedFrees(c, st, s);
    case AtGate => run := GateFrees(c, st, s);
    case Parked(_) => run := ParkedFrees(c, st, s);
    case AwaitingQuota(_) => run := QuotaFrees(c, st, s);
  }

  // --- The theorems ---

  lemma ReachableFacts(c: Config, clock: real, run: seq<Step>)
    requires c.Valid() && Runnable(c, Init(c, clock), run)
    ensures var st := Run(c, Init(c, clock), run);
            Safety.Inv(st) && st.freeSlots + |Held(st)| == c.slots && |st.window.times| <= c.limits.count
  {
    Safety.InitKeepsInv(c, clock);
    Theorems.RunKeepsInv(c, Init(c, clock), run);
    BulkheadHolds(c, clock, run);
    RunKeepsQuota(c, Init(c, clock), run);
  }

  /** In a reachable state that is not wedged a slot is free, or can be freed without cancelling a holder. */
  lemma UnwedgedFrees(c: Config, clock: real, run: seq<Step>) returns (more: seq<Step>)
    requires c.Valid() && Runnable(c, Init(c, clock), run) && !Wedged(c, Run(c, Init(c, clock), run))
    ensures FreesSlot(c, Run(c, Init(c, clock), run), more)
  {
    ReachableFacts(c, clock, run);
    var st := Run(c, Init(c, clock), run);
    more := [];
    if st.freeSlots == 0 {
      var s :| s in st.sessions && st.sessions[s].Slots() > 0
               && (!Waiting(st.sessions[s]) || MayBeRejected(c, st, st.sessions[s]));
      more := HolderFrees(c, st, s);
    }
  }

  /**
   A reachable state is wedged if and only if no continuation ever has a free slot or claims an attempt,
   unless it cancels a session that holds a slot while it waits.
   */
  lemma WedgedExactly(c: Config, clock: real, run: seq<Step>)
    requires c.Valid() && Runnable(c, Init(c, clock), run)
    ensures var st := Run(c, Init(c, clock), run);
            Wedged(c, st) <==> forall more: seq<Step> :: Continues(c, st, more) ==> Barren(c, st, more)
  {
    ReachableFacts(c, clock, run);
    var st := Run(c, Init(c, clock), run);
    if Wedged(c, st) {
      forall more: seq<Step> | Continues(c, st, more) ensures Barren(c, st, more) {
        WedgedForever(c, st, more);
      }
    } else {
      var more := UnwedgedFrees(c, clock, run);
      assert Continues(c, st, more) && !Barren(c, st, more);
    }
  }

  /** open_attempt is only called by sessions that hold no slot. */
  ghost predicate OpensUnburdened(c: Config, st: State, run: seq<Step>)
    requires c.Valid() && Runnable(c, st, run)
    decreases |run|
  {
    run != [] ==>
      && (run[0].DoOpenAttempt? ==> st.sessions[run[0].s].Slots() == 0)
      && OpensUnburdened(c, Apply(c, st, run[0]), run[1..])
  }

  ghost predicate Unburdened(st: State) { forall s :: s in st.sessions ==> st.sessions[s].lingering == multiset{} }

  lemma StepKeepsUnburdened(c: Config, st: State, a: Step)
    requires c.Valid() && Enabled(st, a) && Unburdened(st)
    requires a.DoOpenAttempt? ==> st.sessions[a.s].Slots() == 0
    ensures Unburdened(Apply(c, st, a))
  {
    var st' := Apply(c, st, a);
    Theorems.StepFrame(c, st, a);
    if a.s in st.sessions && !a.DoOpenAttempt? && !a.DoCloseLingering? { StepMovesTask(c, st, a); }
    forall s | s in st'.sessions ensures st'.sessions[s].lingering == multiset{} {
      if s != a.s { assert st'.sessions[s].lingering == st.sessions[s].lingering; }
    }
  }

  lemma {:induction false} RunKeepsUnburdened(c: Config, st: State, run: seq<Step>)
    requires c.Valid() && Runnable(c, st, run) && OpensUnburdened(c, st, run) && Unburdened(st)
    ensures Unburdened(Run(c, st, run))
    decreases |run|
  {
    if run != [] {
      StepKeepsUnburdened(c, st, run[0]);
      RunKeepsUnburdened(c, Apply(c, st, run[0]), run[1..]);
    }
  }

  lemma SomeoneHolds(c: Config, clock: real, run: seq<Step>) returns (s: Sid)
    requires c.Valid() && Runnable(c, Init(c, clock), run) && Wedged(c, Run(c, Init(c, clock), run))
    ensures var st := Run(c, Init(c, clock), run);
            s in st.sessions && Waiting(st.sessions[s]) && st.sessions[s].lingering != multiset{}
  {
    ReachableFacts(c, clock, run);
    var st := Run(c, Init(c, clock), run);
    var pair :| pair in Held(st);
    s := pair.0;
    assert st.sessions[s].Slots() > 0;
  }

  /** What callers can do about it: as long as every session opens its attempts one after the other, nothing wedges. */
  lemma HoldAndWaitIsNeeded(c: Config, clock: real, run: seq<Step>)
    requires c.Valid() && Runnable(c, Init(c, clock), run) && OpensUnburdened(c, Init(c, clock), run)
    ensures !Wedged(c, Run(c, Init(c, clock), run))
  {
    RunKeepsUnburdened(c, Init(c, clock), run);
    if Wedged(c, Run(c, Init(c, clock), run)) {
      var s := SomeoneHolds(c, clock, run);
    }
  }

  // --- Which bulkheads can wedge ---

  /** Whoever has made an attempt has used up some of its budget, which is that of the provider. */
  ghost predicate Budgeted(c: Config, x: Session) {
    && x.budget == c.attempts
    && (x.lingering != multiset{} || x.task.Active? || x.task.Closing? ==> x.started > 0)
  }

  ghost predicate AllBudgeted(c: Config, st: State) { forall s :: s in st.sessions ==> Budgeted(c, st.sessions[s]) }

  lemma OwnStepBudgeted(c: Config, st: State, a: Step)
    requires c.Valid() && Enabled(st, a) && a.s in st.sessions && Budgeted(c, st.sessions[a.s])
    ensures a.s in Apply(c, st, a).sessions && Budgeted(c, Apply(c, st, a).sessions[a.s])
  {
    hide AttemptFailed, Gate;
    Theorems.OwnFrame(c, st, a);
    match a
    case DoAttemptFailed(s, now, error, delay, cooldown) => Theorems.FailureFrame(st, s, now, error, delay, cooldown);
    case DoGate(s, now) => Theorems.GateFrame(st, s, now);
    case _ =>
  }

  lemma {:induction false} RunKeepsBudgeted(c: Config, st: State, run: seq<Step>)
    requires c.Valid() && Runnable(c, st, run) && AllBudgeted(c, st)
    ensures AllBudgeted(c, Run(c, st, run))
    decreases |run|
  {
    if run != [] {
      var a, st' := run[0], Apply(c, st, run[0]);
      Theorems.StepFrame(c, st, a);
      if a.s in st.sessions { OwnStepBudgeted(c, st, a); }
      forall s | s in st'.sessions ensures Budgeted(c, st'.sessions[s]) {
        if s != a.s { assert Budgeted(c, st.sessions[s]); }
      }
      RunKeepsBudgeted(c, st', run[1..]);
    }
  }

  lemma OnlyAttemptIsFirst(c: Config, clock: real, run: seq<Step>, s: Sid)
    requires c.Valid() && c.attempts == 1 && Runnable(c, Init(c, clock), run)
    requires var st := Run(c, Init(c, clock), run); s in st.sessions && st.sessions[s].task.Opening()
    ensures Run(c, Init(c, clock), run).sessions[s].lingering == multiset{}
  {
    var st := Run(c, Init(c, clock), run);
    ReachableFacts(c, clock, run);
    RunKeepsBudgeted(c, Init(c, clock), run);
    assert Safety.SessionOk(st, s) && Budgeted(c, st.sessions[s]);
  }

  /** A provider that does not retry never wedges, since nobody opens a second attempt. */
  lemma OneAttemptNeverWedges(c: Config, clock: real, run: seq<Step>)
    requires c.Valid() && c.attempts == 1 && Runnable(c, Init(c, clock), run)
    ensures !Wedged(c, Run(c, Init(c, clock), run))
  {
    if Wedged(c, Run(c, Init(c, clock), run)) {
      var s := SomeoneHolds(c, clock, run);
      OnlyAttemptIsFirst(c, clock, run, s);
    }
  }

  ghost predicate RunsTo(c: Config, st: State, run: seq<Step>, st': State)
    requires c.Valid()
  {
    Runnable(c, st, run) && Run(c, st, run) == st'
  }

  ghost predicate Goes(c: Config, st: State, a: Step, st': State)
    requires c.Valid()
  {
    Enabled(st, a) && Apply(c, st, a) == st'
  }

  lemma {:induction false} Concatenate(c: Config, st: State, first: seq<Step>, mid: State, rest: seq<Step>, st': State)
    requires c.Valid() && RunsTo(c, st, first, mid) && RunsTo(c, mid, rest, st')
    ensures RunsTo(c, st, first + rest, st')
    decreases |first|
  {
    if first == [] {
      assert first + rest == rest;
    } else {
      assert (first + rest)[1..] == first[1..] + rest;
      Concatenate(c, Apply(c, st, first[0]), first[1..], mid, rest, st');
    }
  }

  lemma Then(c: Config, st: State, a: Step, mid: State, rest: seq<Step>, st': State)
    requires c.Valid() && Goes(c, st, a, mid) && RunsTo(c, mid, rest, st')
    ensures RunsTo(c, st, [a] + rest, st')
  {
    assert ([a] + rest)[1..] == rest;
  }

  lemma FourSteps(c: Config, states: seq<State>, run: seq<Step>)
    requires c.Valid() && |states| == 5 && |run| == 4
    requires Goes(c, states[0], run[0], states[1]) && Goes(c, states[1], run[1], states[2])
    requires Goes(c, states[2], run[2], states[3]) && Goes(c, states[3], run[3], states[4])
    ensures RunsTo(c, states[0], run, states[4])
  {
    hide Goes;
    assert RunsTo(c, states[4], [], states[4]);
    Then(c, states[3], run[3], states[4], [], states[4]);
    Then(c, states[2], run[2], states[3], [run[3]] + [], states[4]);
    Then(c, states[1], run[1], states[2], [run[2]] + ([run[3]] + []), states[4]);
    Then(c, states[0], run[0], states[1], [run[1]] + ([run[2]] + ([run[3]] + [])), states[4]);
    assert run == [run[0]] + ([run[1]] + ([run[2]] + ([run[3]] + [])));
  }

  const PERMIT := GatePermit(None, false)

  /** One more session, at that instant, with the given free slots, window and claims. */
  function With(st: State, t: real, free: nat, w: RL.Window, claims: seq<Claim>, s: Sid, x: Session): State {
    State(t, None, st.nextGeneration, free, w, st.sessions[s := x], claims)
  }

  function Fresh(c: Config, task: Task): Session { Session(0, c.attempts, None, task, None, multiset{}) }

  /** A stream is admitted and answered, breaks in midstream, and its session opens the attempt to recover it. */
  function MidstreamRecovery(s: Sid, t: real): seq<Step> {
    [DoNewSession(s), DoOpenAttempt(s), DoGate(s, t), DoQuota(s, t, t)]
    + [DoGrantSlot(s), DoClaim(s, t), DoProbeAnswered(s, t), DoOpenAttempt(s)]
  }

  lemma WindowIsEmpty(l: RL.Limits, w: RL.Window, clock: real, t: real)
    requires RL.Inv(l, w, clock) && t >= clock + l.window
    ensures RL.Section(l, w, t, t, true) == (RL.Window([t], w.history + [t]), RL.Admitted)
    ensures RL.Inv(l, RL.Window([t], w.history + [t]), t)
  {
    RL.EvictDropsExpired(w.times, t - l.window);
    RL.SectionKeepsInv(l, w, clock, t, t, true);
    assert RL.Evict(w.times, t - l.window) == [];
  }

  lemma IsAdmitted(c: Config, st: State, s: Sid, t: real)
    requires c.Valid() && s !in st.sessions && st.episode.None?
    requires RL.Inv(c.limits, st.window, st.clock) && t >= st.clock + c.limits.window
    ensures var n := |st.window.history|;
            RunsTo(c, st, [DoNewSession(s), DoOpenAttempt(s), DoGate(s, t), DoQuota(s, t, t)],
                   With(st, t, st.freeSlots, RL.Window([t], st.window.history + [t]), st.claims, s,
                        Fresh(c, AwaitingSlot(PERMIT, n))))
  {
    var n, w := |st.window.history|, RL.Window([t], st.window.history + [t]);
    var s1 := With(st, st.clock, st.freeSlots, st.window, st.claims, s, Fresh(c, Idle));
    var s2 := With(st, st.clock, st.freeSlots, st.window, st.claims, s, Fresh(c, AtGate));
    var s3 := With(st, t, st.freeSlots, st.window, st.claims, s, Fresh(c, AwaitingQuota(PERMIT)));
    var s4 := With(st, t, st.freeSlots, w, st.claims, s, Fresh(c, AwaitingSlot(PERMIT, n)));
    WindowIsEmpty(c.limits, st.window, st.clock, t);
    assert Goes(c, st, DoNewSession(s), s1);
    assert Goes(c, s1, DoOpenAttempt(s), s2);
    assert Goes(c, s2, DoGate(s, t), s3);
    assert Goes(c, s3, DoQuota(s, t, t), s4);
    hide Goes, RunsTo;
    FourSteps(c, [st, s1, s2, s3, s4], [DoNewSession(s), DoOpenAttempt(s), DoGate(s, t), DoQuota(s, t, t)]);
  }

  lemma IsClaimed(c: Config, st: State, s: Sid, t: real, w: RL.Window, n: nat)
    requires c.Valid() && st.freeSlots > 0
    ensures var claims := st.claims + [Claim(s, n)];
            var s1 := With(st, t, st.freeSlots - 1, w, st.claims, s, Fresh(c, SlotGranted(PERMIT, n)));
            && Goes(c, With(st, t, st.freeSlots, w, st.claims, s, Fresh(c, AwaitingSlot(PERMIT, n))),
                    DoGrantSlot(s), s1)
            && Goes(c, s1, DoClaim(s, t),
                    With(st, t, st.freeSlots - 1, w, claims, s, Fresh(c, Active(PERMIT, n, false)).(started := 1)))
  {
  }

  lemma Reopens(c: Config, st: State, s: Sid, t: real, free: nat, w: RL.Window, claims: seq<Claim>, n: nat)
    requires c.Valid() && c.attempts > 1
    ensures var s1 := With(st, t, free, w, claims, s, Fresh(c, Active(PERMIT, n, true)).(started := 1));
            && Goes(c, With(st, t, free, w, claims, s, Fresh(c, Active(PERMIT, n, false)).(started := 1)),
                    DoProbeAnswered(s, t), s1)
            && Goes(c, s1, DoOpenAttempt(s),
                    With(st, t, free, w, claims, s, Session(1, c.attempts, None, AtGate, None, multiset{n})))
  {
    assert multiset{} + multiset{n} == multiset{n};
  }

  lemma Recovers(c: Config, st: State, s: Sid, t: real, w: RL.Window, n: nat)
    requires c.Valid() && c.attempts > 1 && st.freeSlots > 0
    ensures RunsTo(c, With(st, t, st.freeSlots, w, st.claims, s, Fresh(c, AwaitingSlot(PERMIT, n))),
                   [DoGrantSlot(s), DoClaim(s, t), DoProbeAnswered(s, t), DoOpenAttempt(s)],
                   With(st, t, st.freeSlots - 1, w, st.claims + [Claim(s, n)], s,
                        Session(1, c.attempts, None, AtGate, None, multiset{n})))
  {
    hide Goes, RunsTo, With;
    var free, claims := st.freeSlots - 1, st.claims + [Claim(s, n)];
    IsClaimed(c, st, s, t, w, n);
    Reopens(c, st, s, t, free, w, claims, n);
    FourSteps(c, [With(st, t, st.freeSlots, w, st.claims, s, Fresh(c, AwaitingSlot(PERMIT, n))),
                  With(st, t, free, w, st.claims, s, Fresh(c, SlotGranted(PERMIT, n))),
                  With(st, t, free, w, claims, s, Fresh(c, Active(PERMIT, n, false)).(started := 1)),
                  With(st, t, free, w, claims, s, Fresh(c, Active(PERMIT, n, true)).(started := 1)),
                  With(st, t, free, w, claims, s, Session(1, c.attempts, None, AtGate, None, multiset{n}))],
              [DoGrantSlot(s), DoClaim(s, t), DoProbeAnswered(s, t), DoOpenAttempt(s)]);
  }

  /** What one such session leaves. */
  function Recovered(c: Config, st: State, s: Sid, t: real): State
    requires st.freeSlots > 0
  {
    var n := |st.window.history|;
    With(st, t, st.freeSlots - 1, RL.Window([t], st.window.history + [t]), st.claims + [Claim(s, n)], s,
         Session(1, c.attempts, None, AtGate, None, multiset{n}))
  }

  lemma RecoveryRuns(c: Config, st: State, s: Sid, t: real)
    requires c.Valid() && c.attempts > 1 && s !in st.sessions && st.episode.None? && st.freeSlots > 0
    requires RL.Inv(c.limits, st.window, st.clock) && t >= st.clock + c.limits.window
    ensures RunsTo(c, st, MidstreamRecovery(s, t), Recovered(c, st, s, t))
    ensures RL.Inv(c.limits, Recovered(c, st, s, t).window, t)
  {
    hide RunsTo, RL.Inv;
    var n, w := |st.window.history|, RL.Window([t], st.window.history + [t]);
    IsAdmitted(c, st, s, t);
    Recovers(c, st, s, t, w, n);
    WindowIsEmpty(c.limits, st.window, st.clock, t);
    Concatenate(c, st, [DoNewSession(s), DoOpenAttempt(s), DoGate(s, t), DoQuota(s, t, t)],
                With(st, t, st.freeSlots, w, st.claims, s, Fresh(c, AwaitingSlot(PERMIT, n))),
                [DoGrantSlot(s), DoClaim(s, t), DoProbeAnswered(s, t), DoOpenAttempt(s)], Recovered(c, st, s, t));
  }

  /** The sessions recover one after the other, a window apart. */
  function Recoveries(sids: seq<Sid>, clock: real, window: real): seq<Step> {
    if sids == [] then []
    else MidstreamRecovery(sids[0], clock + window) + Recoveries(sids[1..], clock + window, window)
  }

  /** All sessions wait at the gate of a provider without an episode, each with an attempt it left open. */
  ghost predicate AllBurdened(st: State) {
    && st.episode.None?
    && forall s :: s in st.sessions ==> st.sessions[s].task.AtGate? && st.sessions[s].failure.None?
                                        && |st.sessions[s].lingering| == 1
  }

  lemma {:induction false} RecoveriesBurden(c: Config, st: State, sids: seq<Sid>) returns (st': State)
    requires c.Valid() && c.attempts > 1 && AllBurdened(st) && |sids| <= st.freeSlots
    requires RL.Inv(c.limits, st.window, st.clock)
    requires forall i :: 0 <= i < |sids| ==> sids[i] !in st.sessions
    requires forall i, j :: 0 <= i < j < |sids| ==> sids[i] != sids[j]
    ensures RunsTo(c, st, Recoveries(sids, st.clock, c.limits.window), st')
    ensures AllBurdened(st') && st'.freeSlots == st.freeSlots - |sids|
    decreases |sids|
  {
    if sids == [] {
      st' := st;
    } else {
      var s, t := sids[0], st.clock + c.limits.window;
      var mid := Recovered(c, st, s, t);
      assert AllBurdened(mid);
      RecoveryRuns(c, st, s, t);
      hide RunsTo, RL.Inv, MidstreamRecovery, AllBurdened;
      st' := RecoveriesBurden(c, mid, sids[1..]);
      Concatenate(c, st, MidstreamRecovery(s, t), mid, Recoveries(sids[1..], t, c.limits.window), st');
    }
  }

  /**
   And any provider that does retry can wedge, whatever its limits: as many sessions as it has slots
   recover in midstream.
   */
  lemma EveryBulkheadCanWedge(c: Config, clock: real, sids: seq<Sid>)
    requires c.Valid() && c.attempts > 1 && |sids| == c.slots
    requires forall i, j :: 0 <= i < j < |sids| ==> sids[i] != sids[j]
    ensures Runnable(c, Init(c, clock), Recoveries(sids, clock, c.limits.window))
    ensures Wedged(c, Run(c, Init(c, clock), Recoveries(sids, clock, c.limits.window)))
  {
    var st := RecoveriesBurden(c, Init(c, clock), sids);
  }

  lemma EmptyWindowIsSound(c: Config, clock: real)
    requires c.Valid()
    ensures RL.Inv(c.limits, Init(c, clock).window, clock)
  {
  }

  lemma RecoveredLeavesNoSlot(c: Config, clock: real, s: Sid)
    requires c.Valid() && c.slots == 1
    ensures var st := Recovered(c, Init(c, clock), s, clock + c.limits.window);
            Wedged(c, st) && s in st.sessions && st.sessions[s].Slots() > 0
  {
  }

  lemma LoneStreamSticks(c: Config, clock: real, s: Sid)
    requires c.Valid() && c.slots == 1 && c.attempts > 1
    ensures var st, st' := Init(c, clock), Recovered(c, Init(c, clock), s, clock + c.limits.window);
            && RunsTo(c, st, MidstreamRecovery(s, clock + c.limits.window), st')
            && Wedged(c, st') && s in st'.sessions && st'.sessions[s].Slots() > 0
  {
    hide RunsTo, MidstreamRecovery, Recovered, Wedged, RL.Inv;
    EmptyWindowIsSound(c, clock);
    RecoveredLeavesNoSlot(c, clock, s);
    RecoveryRuns(c, Init(c, clock), s, clock + c.limits.window);
  }

  /** One concurrency slot, two upstream calls in a second, and two attempts for each session. */
  const ONE_SLOT := Config(RL.Limits(2, 1.0), 1, 2)

  /** With one slot, a single session that recovers in midstream waits for itself. */
  lemma OneStreamCanStick(s: Sid)
    ensures Runnable(ONE_SLOT, Init(ONE_SLOT, 0.0), MidstreamRecovery(s, 1.0))
    ensures var st := Run(ONE_SLOT, Init(ONE_SLOT, 0.0), MidstreamRecovery(s, 1.0));
            Wedged(ONE_SLOT, st) && s in st.sessions && st.sessions[s].Slots() > 0
  {
    hide Run, Runnable, Wedged, MidstreamRecovery, Recovered;
    LoneStreamSticks(ONE_SLOT, 0.0, s);
  }

  // --- The way out ---

  /** The run cancels this waiting session, which then closes an attempt it left behind. */
  lemma CancelAndClose(c: Config, st: State, cancel: Step) returns (run: seq<Step>)
    requires c.Valid() && Enabled(st, cancel) && CancelsHolder(st, cancel)
    requires Waiting(st.sessions[cancel.s]) && st.freeSlots == 0
    ensures Runnable(c, st, run) && Run(c, st, run).freeSlots == 1
    ensures forall i :: 0 <= i < |run| ==> run[i].s == cancel.s
  {
    var s := cancel.s;
    var attempt :| attempt in st.sessions[s].lingering;
    var close := DoCloseLingering(s, attempt);
    var st' := Apply(c, st, cancel);
    run := [cancel] + ([close] + []);
    assert RunsTo(c, Apply(c, st', close), [], Apply(c, st', close));
    Then(c, st', close, Apply(c, st', close), [], Apply(c, st', close));
    Then(c, st, cancel, st', [close] + [], Apply(c, st', close));
  }

  /** A waiting session that is not at the gate itself can be cancelled where it is. */
  lemma CancelParkedOrOpening(c: Config, st: State, s: Sid) returns (run: seq<Step>)
    requires c.Valid() && s in st.sessions && st.sessions[s].Slots() > 0 && st.freeSlots == 0
    requires Waiting(st.sessions[s]) && !st.sessions[s].task.AtGate?
    ensures Runnable(c, st, run) && Run(c, st, run).freeSlots == 1
    ensures forall i :: 0 <= i < |run| ==> run[i].s == s
  {
    hide Run, Runnable;
    match st.sessions[s].task
    case Parked(_) => run := CancelAndClose(c, st, DoCancelParked(s, st.clock));
    case BackingOff(_, _) => run := CancelAndClose(c, st, DoCancelBackoff(s, st.clock));
    case _ => run := CancelAndClose(c, st, DoCancelOpening(s, st.clock));
  }

  /** The wedge ends by a cancellation: each of its holders can be cancelled, and then frees a slot by itself. */
  lemma CancellationUnsticks(c: Config, st: State, s: Sid) returns (run: seq<Step>)
    requires c.Valid() && Wedged(c, st) && s in st.sessions && st.sessions[s].Slots() > 0
    ensures Runnable(c, st, run) && Run(c, st, run).freeSlots == 1
    ensures forall i :: 0 <= i < |run| ==> run[i].s == s
  {
    if st.sessions[s].task.AtGate? {
      var gate := DoGate(s, st.clock);
      var rest := CancelParkedOrOpening(c, Apply(c, st, gate), s);
      run := [gate] + rest;
      Then(c, st, gate, Apply(c, st, gate), rest, Run(c, Apply(c, st, gate), rest));
    } else {
      run := CancelParkedOrOpening(c, st, s);
    }
  }
}
