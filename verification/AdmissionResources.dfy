/** Conservation of concurrency slots and of window timestamps over whole runs. */
module AdmissionResources {
  import opened Options
  import RL = RateLimit
  import opened AdmissionModel
  import opened AdmissionTheorems

  // --- Slots ---

  /** One pair for each slot a session holds, for its opener, its attempt, or an attempt it left open. */
  ghost function Held(st: State): set<(Sid, nat)> {
    set s, i: nat | s in st.sessions && 0 <= i < st.sessions[s].Slots() :: (s, i)
  }

  ghost function HeldBy(st: State, s: Sid): nat { if s in st.sessions then st.sessions[s].Slots() else 0 }

  /** Free slots and held slots add up to max_concurrency. */
  ghost predicate SlotsConserved(c: Config, st: State) {
    st.freeSlots + |Held(st)| == c.slots
  }

  function SlotOf(task: Task): nat { if task.HoldsSlot() then 1 else 0 }

  /** Most steps leave the open attempts behind the coroutine's own alone. */
  lemma StepMovesTask(c: Config, st: State, a: Step)
    requires c.Valid() && Enabled(st, a) && a.s in st.sessions && !a.DoOpenAttempt? && !a.DoCloseLingering?
    ensures var st' := Apply(c, st, a);
            && a.s in st'.sessions && st'.sessions[a.s].lingering == st.sessions[a.s].lingering
            && st'.freeSlots + SlotOf(st'.sessions[a.s].task) == st.freeSlots + SlotOf(st.sessions[a.s].task)
  {
    hide AttemptFailed, Gate, RL.Section, Abandoned, Current;
    match a
    case DoAttemptFailed(s, now, error, delay, cooldown) => FailureFrame(st, s, now, error, delay, cooldown);
    case DoGate(s, now) => GateFrame(st, s, now);
    case _ =>
  }

  lemma OpenMovesSlots(st: State, s: Sid)
    requires s in st.sessions && st.sessions[s].task.CanOpen()
    ensures OpenAttempt(st, s).sessions[s].Slots() == st.sessions[s].Slots()
  {
  }

  lemma CloseMovesSlots(st: State, s: Sid, attempt: nat)
    requires s in st.sessions && attempt in st.sessions[s].lingering
    ensures CloseLingering(st, s, attempt).sessions[s].Slots() + 1 == st.sessions[s].Slots()
  {
  }

  /** The stepping session takes a slot exactly when one leaves the semaphore, and gives back what it took. */
  lemma StepMovesSlots(c: Config, st: State, a: Step)
    requires c.Valid() && Enabled(st, a)
    ensures Apply(c, st, a).freeSlots + HeldBy(Apply(c, st, a), a.s) == st.freeSlots + HeldBy(st, a.s)
  {
    if a.DoOpenAttempt? {
      OpenMovesSlots(st, a.s);
    } else if a.DoCloseLingering? {
      CloseMovesSlots(st, a.s, a.attempt);
    } else if a.s in st.sessions {
      hide Apply, Enabled;
      StepMovesTask(c, st, a);
    }
  }

  lemma {:induction false} PairsOf(s: Sid, n: nat) returns (pairs: set<(Sid, nat)>)
    ensures forall t, i: nat :: (t, i) in pairs <==> t == s && i < n
    ensures |pairs| == n
  {
    if n == 0 {
      pairs := {};
    } else {
      pairs := PairsOf(s, n - 1);
      pairs := pairs + {(s, n - 1)};
    }
  }

  lemma OthersHoldTheSame(st: State, st': State, s: Sid, t: Sid, i: nat)
    requires OthersOnlyFail(st, st', s) && t != s
    ensures (t, i) in Held(st') <==> (t, i) in Held(st)
  {
    assert t in st'.sessions <==> t in st.sessions;
    if t in st.sessions {
      assert st'.sessions[t].Slots() == st.sessions[t].Slots();
    }
  }

  /** What the other sessions hold. */
  ghost function HeldElsewhere(st: State, s: Sid): set<(Sid, nat)> { set p | p in Held(st) && p.0 != s }

  lemma InHeld(st: State, s: Sid, i: nat)
    ensures (s, i) in Held(st) <==> i < HeldBy(st, s)
  {
  }

  lemma HeldInParts(st: State, s: Sid)
    ensures |Held(st)| == |HeldElsewhere(st, s)| + HeldBy(st, s)
  {
    var own := PairsOf(s, HeldBy(st, s));
    forall p ensures p in Held(st) <==> p in HeldElsewhere(st, s) + own { InHeld(st, p.0, p.1); }
    assert Held(st) == HeldElsewhere(st, s) + own;
  }

  lemma HeldMoves(st: State, st': State, s: Sid)
    requires OthersOnlyFail(st, st', s)
    ensures |Held(st')| + HeldBy(st, s) == |Held(st)| + HeldBy(st', s)
  {
    HeldInParts(st, s);
    HeldInParts(st', s);
    forall p ensures p in HeldElsewhere(st', s) <==> p in HeldElsewhere(st, s) {
      if p.0 != s { OthersHoldTheSame(st, st', s, p.0, p.1); }
    }
    assert HeldElsewhere(st', s) == HeldElsewhere(st, s);
  }

  lemma StepKeepsSlots(c: Config, st: State, a: Step)
    requires c.Valid() && Enabled(st, a) && SlotsConserved(c, st)
    ensures SlotsConserved(c, Apply(c, st, a))
  {
    StepMovesSlots(c, st, a);
    StepFrame(c, st, a);
    HeldMoves(st, Apply(c, st, a), a.s);
  }

  /**
   On every path - stale permits, exceptions, repeated or cancelled aclose, a second attempt behind an
   open one - free slots plus slots held by openers and attempts equal max_concurrency.
   */
  lemma {:induction false} SlotsAreConserved(c: Config, st: State, run: seq<Step>)
    requires c.Valid() && Runnable(c, st, run) && SlotsConserved(c, st)
    ensures SlotsConserved(c, Run(c, st, run))
    decreases |run|
  {
    if run != [] {
      StepKeepsSlots(c, st, run[0]);
      SlotsAreConserved(c, Apply(c, st, run[0]), run[1..]);
    }
  }

  /** How many attempts of the session are open: the one it works with, or closes, and those it left behind. */
  ghost function OpenAttempts(x: Session): nat { (if x.task.Active? || x.task.Closing? then 1 else 0) + |x.lingering| }

  ghost function InFlight(st: State): set<(Sid, nat)> {
    set s, i: nat | s in st.sessions && 0 <= i < OpenAttempts(st.sessions[s]) :: (s, i)
  }

  /** From the start: the open attempts of all sessions together never outnumber max_concurrency. */
  lemma BulkheadHolds(c: Config, clock: real, run: seq<Step>)
    requires c.Valid() && Runnable(c, Init(c, clock), run)
    ensures var st := Run(c, Init(c, clock), run);
            st.freeSlots + |Held(st)| == c.slots && |InFlight(st)| <= c.slots
  {
    assert Held(Init(c, clock)) == {};
    SlotsAreConserved(c, Init(c, clock), run);
    var st := Run(c, Init(c, clock), run);
    RL.SubsetSize(InFlight(st), Held(st));
  }

  // --- Quota ---

  /** The timestamp a session holds for an attempt it has not claimed yet. */
  ghost function Reserved(st: State, s: Sid): Option<nat> {
    if s in st.sessions then st.sessions[s].task.Reserved() else None
  }

  ghost predicate StampsExist(st: State) {
    && (forall i :: 0 <= i < |st.claims| ==> st.claims[i].stamp < |st.window.history|)
    && (forall s :: s in st.sessions && Reserved(st, s).Some? ==> Reserved(st, s).value < |st.window.history|)
  }

  /** No timestamp is spent twice: not by two claims, two openers, or an opener and a claim. */
  ghost predicate StampsDistinct(st: State) {
    && (forall i, j :: 0 <= i < j < |st.claims| ==> st.claims[i].stamp != st.claims[j].stamp)
    && (forall s, t :: s in st.sessions && t in st.sessions && s != t && Reserved(st, s).Some? ==>
          Reserved(st, s) != Reserved(st, t))
    && (forall i, s :: 0 <= i < |st.claims| && s in st.sessions ==> Reserved(st, s) != Some(st.claims[i].stamp))
  }

  ghost predicate QuotaOk(c: Config, st: State) {
    RL.Inv(c.limits, st.window, st.clock) && StampsExist(st) && StampsDistinct(st)
  }

  lemma OwnReservation(c: Config, st: State, a: Step)
    requires c.Valid() && Enabled(st, a) && !a.DoQuota? && !a.DoClaim?
    ensures var st' := Apply(c, st, a);
            && st'.window == st.window && st'.claims == st.claims && st'.clock >= st.clock
            && (Reserved(st', a.s).None? || Reserved(st', a.s) == Reserved(st, a.s))
  {
    hide AttemptFailed, Gate;
    match a
    case DoAttemptFailed(s, now, error, delay, cooldown) => FailureFrame(st, s, now, error, delay, cooldown);
    case DoGate(s, now) => GateFrame(st, s, now);
    case _ =>
  }

  /** Besides acquire_if and the claim, no step touches the window, the claims, or takes a reservation. */
  lemma OtherStepsKeepStamps(c: Config, st: State, a: Step)
    requires c.Valid() && Enabled(st, a) && !a.DoQuota? && !a.DoClaim? && QuotaOk(c, st)
    ensures QuotaOk(c, Apply(c, st, a))
  {
    hide Apply, Enabled, RL.Inv;
    var st' := Apply(c, st, a);
    OwnReservation(c, st, a);
    StepFrame(c, st, a);
    RL.TimePasses(c.limits, st.window, st.clock, st'.clock);
    assert forall s :: s in st'.sessions && Reserved(st', s).Some? ==>
        s in st.sessions && Reserved(st', s) == Reserved(st, s);
  }

  lemma QuotaStepKeepsStamps(c: Config, st: State, s: Sid, now: real, stamp: real)
    requires c.Valid() && QuotaOk(c, st) && Enabled(st, DoQuota(s, now, stamp))
    ensures QuotaOk(c, Quota(c, st, s, now, stamp))
  {
    hide RL.Inv, RL.Section, Current, Abandoned;
    var st' := Quota(c, st, s, now, stamp);
    RL.SectionKeepsInv(c.limits, st.window, st.clock, now, stamp, PermitIsCurrent(st, s, st.sessions[s].task.permit));
    var n := |st.window.history|;
    assert |st'.window.history| >= n;
    assert forall t :: t in st'.sessions && t != s ==> Reserved(st', t) == Reserved(st, t);
    assert Reserved(st', s).None? || (Reserved(st', s) == Some(n) && |st'.window.history| == n + 1);
  }

  lemma ClaimStepKeepsStamps(c: Config, st: State, s: Sid, now: real)
    requires c.Valid() && QuotaOk(c, st) && Enabled(st, DoClaim(s, now))
    ensures QuotaOk(c, ClaimAttempt(st, s, now))
  {
    hide RL.Inv, Current, Abandoned;
    var st' := ClaimAttempt(st, s, now);
    RL.TimePasses(c.limits, st.window, st.clock, now);
    assert Reserved(st, s) == Some(st.sessions[s].task.stamp) && Reserved(st', s).None?;
    assert forall t :: t in st'.sessions && t != s ==> Reserved(st', t) == Reserved(st, t);
  }

  lemma StepKeepsQuota(c: Config, st: State, a: Step)
    requires c.Valid() && Enabled(st, a) && QuotaOk(c, st)
    ensures QuotaOk(c, Apply(c, st, a))
  {
    match a
    case DoQuota(s, now, stamp) => QuotaStepKeepsStamps(c, st, s, now, stamp);
    case DoClaim(s, now) => ClaimStepKeepsStamps(c, st, s, now);
    case _ => OtherStepsKeepStamps(c, st, a);
  }

  lemma {:induction false} RunKeepsQuota(c: Config, st: State, run: seq<Step>)
    requires c.Valid() && Runnable(c, st, run) && QuotaOk(c, st)
    ensures QuotaOk(c, Run(c, st, run))
    decreases |run|
  {
    if run != [] {
      StepKeepsQuota(c, st, run[0]);
      RunKeepsQuota(c, Apply(c, st, run[0]), run[1..]);
    }
  }

  // --- What the quota means for upstream attempts ---

  /** The claims whose timestamp lies in the half-open window that begins at t. */
  ghost function ClaimsStamped(st: State, t: real, window: real): set<nat> {
    set i: nat | i < |st.claims| && st.claims[i].stamp < |st.window.history|
                 && t <= st.window.history[st.claims[i].stamp] < t + window
  }

  lemma {:induction false} DistinctImagesFit(s: set<nat>, r: set<nat>, f: map<nat, nat>)
    requires s <= f.Keys
    requires forall i :: i in s ==> f[i] in r
    requires forall i, j :: i in s && j in s && i != j ==> f[i] != f[j]
    ensures |s| <= |r|
  {
    if s != {} {
      var i :| i in s;
      DistinctImagesFit(s - {i}, r - {f[i]}, f);
    }
  }

  lemma ClaimsFitTheWindow(c: Config, st: State, t: real)
    requires c.Valid() && QuotaOk(c, st)
    ensures |ClaimsStamped(st, t, c.limits.window)| <= c.limits.count
  {
    var s := ClaimsStamped(st, t, c.limits.window);
    var f := map i: nat | i in s :: st.claims[i].stamp;
    DistinctImagesFit(s, RL.HalfOpen(st.window.history, t, c.limits.window), f);
    RL.AtMostCountPerWindow(c.limits, st.window.history, t);
  }

  /** Each upstream attempt was paid with a timestamp of its own, so the strict window bounds the attempts. */
  lemma AttemptsRespectTheWindow(c: Config, clock: real, run: seq<Step>, t: real)
    requires c.Valid() && Runnable(c, Init(c, clock), run)
    ensures var st := Run(c, Init(c, clock), run);
            StampsExist(st) && StampsDistinct(st) && |ClaimsStamped(st, t, c.limits.window)| <= c.limits.count
  {
    RunKeepsQuota(c, Init(c, clock), run);
    ClaimsFitTheWindow(c, Run(c, Init(c, clock), run), t);
  }
}
