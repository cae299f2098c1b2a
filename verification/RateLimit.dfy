/**
 The strict sliding window of core/rate_limit.py.

 `_acquire` is a loop of critical sections; between two sections the task sleeps and any
 other task may run sections of its own. One section is therefore the atomic step, and a
 run of the limiter is any sequence of sections of any number of tasks, at times that
 never go back. The ghost `history` records every admission ever made.
 */
module RateLimit {

  datatype Limits = Limits(count: nat, window: real) {
    ghost predicate Positive() { count > 0 && window > 0.0 }
  }

  datatype Window = Window(times: seq<real>, history: seq<real>)

  datatype Outcome = Admitted | Refused | Full(wait: real)

  const EMPTY := Window([], [])

  /** The deque after every timestamp at or before `cutoff` was popped from its left end. */
  function Evict(times: seq<real>, cutoff: real): seq<real> {
    if times != [] && times[0] <= cutoff then Evict(times[1..], cutoff) else times
  }

  /** Eviction drops a prefix of expired timestamps and stops at the first live one. */
  lemma {:induction false} EvictDropsExpired(times: seq<real>, cutoff: real)
    ensures var live := Evict(times, cutoff);
            && |live| <= |times|
            && live == times[|times| - |live|..]
            && (forall i :: 0 <= i < |times| - |live| ==> times[i] <= cutoff)
            && (live != [] ==> live[0] > cutoff)
  {
    if times != [] && times[0] <= cutoff {
      EvictDropsExpired(times[1..], cutoff);
    }
  }

  /** One critical section: `now` is read first, `stamp` when the admission is recorded. */
  function Section(l: Limits, w: Window, now: real, stamp: real, allowed: bool): (Window, Outcome)
    requires l.Positive()
  {
    var live := Evict(w.times, now - l.window);
    if |live| < l.count then
      if allowed then (Window(live + [stamp], w.history + [stamp]), Admitted)
      else (Window(live, w.history), Refused)
    else
      var wait := live[0] + l.window - now;
      (Window(live, w.history), Full(if wait > 0.0 then wait else 0.0))
  }

  ghost predicate Ordered(h: seq<real>) {
    forall i, j :: 0 <= i <= j < |h| ==> h[i] <= h[j]
  }

  /** Admission j came at least one whole window after the one `count` places before it. */
  ghost predicate Apart(l: Limits, h: seq<real>, j: nat)
    requires l.count <= j < |h|
  {
    h[j] >= h[j - l.count] + l.window
  }

  ghost predicate Spaced(l: Limits, h: seq<real>) {
    forall j: nat :: l.count <= j < |h| ==> Apart(l, h, j)
  }

  /** What every section keeps. */
  ghost predicate Inv(l: Limits, w: Window, clock: real) {
    && l.Positive()
    && Ordered(w.history)
    && Spaced(l, w.history)
    && |w.times| <= l.count
    && |w.times| <= |w.history|
    && w.times == w.history[|w.history| - |w.times|..]
    && (forall i :: 0 <= i < |w.history| ==> w.history[i] <= clock)
    && (forall i :: 0 <= i < |w.history| - |w.times| ==> w.history[i] <= clock - l.window)
  }

  /** The deque is exactly the part of the history younger than one window. */
  ghost predicate LiveSuffix(l: Limits, w: Window, now: real) {
    && |w.times| <= |w.history|
    && w.times == w.history[|w.history| - |w.times|..]
    && forall i :: 0 <= i < |w.history| ==> (w.history[i] > now - l.window <==> i >= |w.history| - |w.times|)
  }

  lemma TimePasses(l: Limits, w: Window, clock: real, later: real)
    requires Inv(l, w, clock) && clock <= later
    ensures Inv(l, w, later)
  {
  }

  lemma EvictionMatchesHistory(l: Limits, w: Window, clock: real, now: real)
    requires Inv(l, w, clock) && clock <= now
    ensures var w' := Window(Evict(w.times, now - l.window), w.history);
            LiveSuffix(l, w', now) && Inv(l, w', now)
  {
    EvictDropsExpired(w.times, now - l.window);
    var h, n := w.history, |w.history|;
    var live := Evict(w.times, now - l.window);
    assert live == h[n - |live|..];
    forall i | 0 <= i < n
      ensures h[i] > now - l.window <==> i >= n - |live|
    {
      if n - |w.times| <= i < n - |live| {
        assert h[i] == w.times[i - (n - |w.times|)];
      }
      if i >= n - |live| {
        assert live[0] == h[n - |live|] <= h[i];
      }
    }
  }

  /** Recording one more admission in a window that has room keeps the spacing. */
  lemma AdmitKeepsInv(l: Limits, w: Window, now: real, stamp: real)
    requires Inv(l, w, now) && now <= stamp && |w.times| < l.count
    ensures Inv(l, Window(w.times + [stamp], w.history + [stamp]), stamp)
  {
    var h, n := w.history, |w.history|;
    var h' := h + [stamp];
    forall j: nat | l.count <= j < |h'| ensures Apart(l, h', j) {
      if j < n {
        assert Apart(l, h, j);
      }
    }
    assert (w.times + [stamp]) == h'[|h'| - (|w.times| + 1)..];
  }

  /** Every section keeps the invariant, and only an admission is recorded. */
  lemma SectionKeepsInv(l: Limits, w: Window, clock: real, now: real, stamp: real, allowed: bool)
    requires Inv(l, w, clock) && clock <= now <= stamp
    ensures var (w', out) := Section(l, w, now, stamp, allowed);
            Inv(l, w', stamp) && w'.history == if out == Admitted then w.history + [stamp] else w.history
  {
    EvictionMatchesHistory(l, w, clock, now);
    var w1 := Window(Evict(w.times, now - l.window), w.history);
    if |w1.times| < l.count && allowed {
      AdmitKeepsInv(l, w1, now, stamp);
    } else {
      TimePasses(l, w1, now, stamp);
    }
  }

  /**
   A section that admits nobody leaves exactly the live suffix of an unchanged history behind:
   either the guard said no, or the window is full and the wait handed out is positive.
   */
  lemma UnadmittedSection(l: Limits, w: Window, clock: real, now: real, stamp: real, allowed: bool)
    requires Inv(l, w, clock) && clock <= now <= stamp
    requires Section(l, w, now, stamp, allowed).1 != Admitted
    ensures var (w', out) := Section(l, w, now, stamp, allowed);
            && w'.history == w.history
            && LiveSuffix(l, w', now)
            && (out == Refused <==> !allowed && |w'.times| < l.count)
            && (out.Full? ==> |w'.times| == l.count && out.wait > 0.0)
  {
    var live := Evict(w.times, now - l.window);
    assert LiveSuffix(l, Window(live, w.history), now) by { EvictionMatchesHistory(l, w, clock, now); }
    assert |live| <= l.count && (live != [] ==> live[0] > now - l.window) by {
      EvictDropsExpired(w.times, now - l.window);
    }
  }

  lemma ExpiredHeadMakesRoom(times: seq<real>, cutoff: real)
    requires times != [] && times[0] <= cutoff
    ensures |Evict(times, cutoff)| < |times|
  {
    EvictDropsExpired(times[1..], cutoff);
  }

  /** A full window has room again, for a caller that slept the wait it was given. */
  lemma WaitRestoresCapacity(l: Limits, w: Window, now: real, later: real)
    requires l.Positive() && |w.times| <= l.count
    requires Section(l, w, now, now, true).1.Full?
    requires later >= now + Section(l, w, now, now, true).1.wait
    ensures !Section(l, Section(l, w, now, now, true).0, later, later, true).1.Full?
  {
    EvictDropsExpired(w.times, now - l.window);
    ExpiredHeadMakesRoom(Evict(w.times, now - l.window), later - l.window);
  }

  /** And not before: as long as nobody else runs, a caller that comes back earlier finds the window full. */
  lemma WaitIsNeeded(l: Limits, w: Window, now: real, later: real)
    requires l.Positive() && Section(l, w, now, now, true).1.Full?
    requires now <= later < now + Section(l, w, now, now, true).1.wait
    ensures Section(l, Section(l, w, now, now, true).0, later, later, true).1.Full?
  {
    EvictDropsExpired(w.times, now - l.window);
    var live := Evict(w.times, now - l.window);
    assert Evict(live, later - l.window) == live;
  }

  /** A section as some task performs it. */
  datatype Call = Call(now: real, stamp: real, allowed: bool)

  ghost predicate Timely(clock: real, calls: seq<Call>)
    decreases |calls|
  {
    calls == [] || (clock <= calls[0].now <= calls[0].stamp && Timely(calls[0].stamp, calls[1..]))
  }

  ghost function Run(l: Limits, w: Window, calls: seq<Call>): Window
    requires l.Positive()
    decreases |calls|
  {
    if calls == [] then w
    else Run(l, Section(l, w, calls[0].now, calls[0].stamp, calls[0].allowed).0, calls[1..])
  }

  lemma {:induction false} RunKeepsInv(l: Limits, w: Window, clock: real, calls: seq<Call>) returns (end: real)
    requires Inv(l, w, clock) && Timely(clock, calls)
    decreases |calls|
    ensures end >= clock && Inv(l, Run(l, w, calls), end)
  {
    if calls == [] {
      end := clock;
    } else {
      var c := calls[0];
      SectionKeepsInv(l, w, clock, c.now, c.stamp, c.allowed);
      end := RunKeepsInv(l, Section(l, w, c.now, c.stamp, c.allowed).0, c.stamp, calls[1..]);
    }
  }

  // --- What the invariant means for an interval of time ---

  ghost function HalfOpen(h: seq<real>, t: real, window: real): set<nat> {
    set i: nat | i < |h| && t <= h[i] < t + window
  }

  ghost function Closed(h: seq<real>, t: real, window: real): set<nat> {
    set i: nat | i < |h| && t <= h[i] <= t + window
  }

  lemma {:induction false} IntervalSize(a: nat, n: nat) returns (s: set<nat>)
    ensures forall i: nat :: i in s <==> a <= i < a + n
    ensures |s| == n
  {
    if n == 0 {
      s := {};
    } else {
      var r := IntervalSize(a, n - 1);
      s := r + {a + n - 1};
    }
  }

  lemma {:induction false} SubsetSize<T>(small: set<T>, large: set<T>)
    requires small <= large
    ensures |small| <= |large|
  {
    if small != {} {
      var x :| x in small;
      SubsetSize(small - {x}, large - {x});
    }
  }

  ghost function Least(s: set<nat>): (m: nat)
    requires s != {}
    ensures m in s && forall i :: i in s ==> m <= i
  {
    var x :| x in s;
    if s == {x} then x
    else
      var m := Least(s - {x});
      assert forall i :: i in s ==> i == x || i in s - {x};
      if x < m then x else m
  }

  /** A set of indices that all lie in [a, a + n) has at most n elements. */
  lemma BoundedIndices(s: set<nat>, n: nat)
    requires s != {} ==> forall i :: i in s ==> i < Least(s) + n
    ensures |s| <= n
  {
    if s != {} {
      var r := IntervalSize(Least(s), n);
      SubsetSize(s, r);
    }
  }

  lemma FarApart(l: Limits, h: seq<real>, a: nat)
    requires l.Positive() && Ordered(h) && Spaced(l, h)
    ensures forall i :: a + l.count <= i < |h| ==> h[i] >= h[a + l.count] >= h[a] + l.window
  {
    if a + l.count < |h| {
      assert Apart(l, h, a + l.count);
    }
  }

  /** The limit: every half-open interval of one window holds at most `count` admissions. */
  lemma AtMostCountPerWindow(l: Limits, h: seq<real>, t: real)
    requires l.Positive() && Ordered(h) && Spaced(l, h)
    ensures |HalfOpen(h, t, l.window)| <= l.count
  {
    var s := HalfOpen(h, t, l.window);
    if s != {} {
      FarApart(l, h, Least(s));
    }
    BoundedIndices(s, l.count);
  }

  /** No two admissions `count` apart are exactly one window apart. */
  ghost predicate NeverOnTheEdge(l: Limits, h: seq<real>) {
    forall i, j :: 0 <= i && j == i + l.count && j < |h| ==> h[j] != h[i] + l.window
  }

  /**
   The documented promise speaks of "any interval of length rate_window". For closed intervals
   it holds exactly when no admission came one whole window, to the instant, after the one it
   had to wait for: eviction at `<=` lets such an admission in.
   */
  lemma ClosedIntervalsToo(l: Limits, h: seq<real>)
    requires l.Positive() && Ordered(h) && Spaced(l, h)
    ensures (forall t: real :: |Closed(h, t, l.window)| <= l.count) <==> NeverOnTheEdge(l, h)
  {
    if NeverOnTheEdge(l, h) {
      forall t: real ensures |Closed(h, t, l.window)| <= l.count {
        var s := Closed(h, t, l.window);
        if s != {} {
          FarApart(l, h, Least(s));
        }
        BoundedIndices(s, l.count);
      }
    } else {
      var i, j :| 0 <= i && j == i + l.count && j < |h| && h[j] == h[i] + l.window;
      var r := IntervalSize(i, l.count + 1);
      SubsetSize(r, Closed(h, h[i], l.window));
    }
  }

  /** The new admission and the one `count` before it are exactly one window apart. */
  ghost predicate OnTheEdge(l: Limits, w: Window, now: real, stamp: real)
    requires l.Positive()
  {
    && Section(l, w, now, stamp, true).1 == Admitted
    && |w.history| >= l.count
    && w.history[|w.history| - l.count] == now - l.window && stamp == now
  }

  lemma OneMore(l: Limits, h: seq<real>, stamp: real)
    requires l.Positive()
    ensures NeverOnTheEdge(l, h + [stamp])
            <==> NeverOnTheEdge(l, h) && (|h| >= l.count ==> stamp != h[|h| - l.count] + l.window)
  {
    var h' := h + [stamp];
    if NeverOnTheEdge(l, h') {
      forall i, j | 0 <= i && j == i + l.count && j < |h| ensures h[j] != h[i] + l.window {
        assert h'[j] != h'[i] + l.window;
      }
      if |h| >= l.count {
        assert h'[|h|] != h'[|h| - l.count] + l.window;
      }
    }
  }

  /**
   What a caller can see before the call: an admission is on the edge exactly if the timestamp `count` places back
   equals the cutoff of its section, so that `<=` evicts it, and the clock has not moved when the admission is recorded.
   */
  lemma EdgeAdmission(l: Limits, w: Window, clock: real, now: real, stamp: real, allowed: bool)
    requires Inv(l, w, clock) && clock <= now <= stamp
    ensures NeverOnTheEdge(l, Section(l, w, now, stamp, allowed).0.history)
            <==> NeverOnTheEdge(l, w.history) && !(allowed && OnTheEdge(l, w, now, stamp))
  {
    EvictionMatchesHistory(l, w, clock, now);
    OneMore(l, w.history, stamp);
  }

  ghost predicate StaysOffTheEdge(l: Limits, w: Window, calls: seq<Call>)
    requires l.Positive()
    decreases |calls|
  {
    calls == []
    || (!(calls[0].allowed && OnTheEdge(l, w, calls[0].now, calls[0].stamp))
        && StaysOffTheEdge(l, Section(l, w, calls[0].now, calls[0].stamp, calls[0].allowed).0, calls[1..]))
  }

  /** So a run keeps the promise for closed intervals too if and only if none of its admissions is on the edge. */
  lemma {:induction false} ClosedIntervalsOfRuns(l: Limits, w: Window, clock: real, calls: seq<Call>)
    requires Inv(l, w, clock) && Timely(clock, calls)
    ensures NeverOnTheEdge(l, Run(l, w, calls).history)
            <==> NeverOnTheEdge(l, w.history) && StaysOffTheEdge(l, w, calls)
    decreases |calls|
  {
    if calls != [] {
      var c := calls[0];
      EdgeAdmission(l, w, clock, c.now, c.stamp, c.allowed);
      SectionKeepsInv(l, w, clock, c.now, c.stamp, c.allowed);
      ClosedIntervalsOfRuns(l, Section(l, w, c.now, c.stamp, c.allowed).0, c.stamp, calls[1..]);
    }
  }

  /** The run that breaks the closed reading: one admission per unit, at 0 and at 1. */
  lemma ClosedIntervalWitness()
    ensures var l := Limits(1, 1.0);
            var calls := [Call(0.0, 0.0, true), Call(1.0, 1.0, true)];
            Timely(0.0, calls) && |Closed(Run(l, EMPTY, calls).history, 0.0, 1.0)| == 2
  {
    var l := Limits(1, 1.0);
    var calls := [Call(0.0, 0.0, true), Call(1.0, 1.0, true)];
    assert calls[1..] == [Call(1.0, 1.0, true)];
    var w1 := Section(l, EMPTY, 0.0, 0.0, true).0;
    assert w1 == Window([0.0], [0.0]);
    assert Evict([0.0], 0.0) == Evict([], 0.0) == [];
    var w2 := Section(l, w1, 1.0, 1.0, true).0;
    assert w2 == Window([1.0], [0.0, 1.0]);
    assert calls[1..][1..] == [];
    assert Run(l, w1, calls[1..]) == w2;
    assert Closed([0.0, 1.0], 0.0, 1.0) == {0, 1};
  }

  /** The limiter object: the deque is popped and appended in place. */
  class StrictSlidingWindowLimiter {
    const rateLimit: nat
    const rateWindow: real
    var times: seq<real>
    ghost var history: seq<real>

    ghost function Bounds(): Limits { Limits(rateLimit, rateWindow) }

    ghost function View(): Window
      reads this
    {
      Window(times, history)
    }

    constructor (rateLimit: nat, rateWindow: real)
      requires rateLimit > 0 && rateWindow > 0.0
      ensures this.rateLimit == rateLimit && this.rateWindow == rateWindow
      ensures View() == EMPTY && forall clock: real :: Inv(Bounds(), View(), clock)
    {
      this.rateLimit, this.rateWindow := rateLimit, rateWindow;
      times, history := [], [];
    }

    /** One locked section of `_acquire`; `allowed` is the guard's answer, asked only when there is room. */
    method TryAcquire(now: real, stamp: real, allowed: bool) returns (outcome: Outcome)
      requires Bounds().Positive()
      modifies this
      ensures (View(), outcome) == Section(Bounds(), old(View()), now, stamp, allowed)
    {
      var cutoff := now - rateWindow;
      while |times| > 0 && times[0] <= cutoff
        invariant Evict(times, cutoff) == Evict(old(times), cutoff)
        invariant history == old(history)
        decreases |times|
      {
        times := times[1..];
      }
      if |times| < rateLimit {
        if !allowed {
          return Refused;
        }
        times := times + [stamp];
        history := history + [stamp];
        return Admitted;
      }
      var wait := times[0] + rateWindow - now;
      outcome := Full(if wait > 0.0 then wait else 0.0);
    }
  }
}
