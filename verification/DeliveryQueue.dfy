/**
 The compacting queue of messaging/limiter.py against a plain FIFO. Enqueues are numbered: number
 `i` is an operation for the key `log[i]`, and the future its caller awaits. A step is the code
 between two awaits. The pause and the wait for quota end by being over or by cancellation.
 */
module DeliveryQueue {
  import opened Options

  type Key = string

  /** The operation to run, and the futures to resolve with its outcome. */
  datatype Job = Job(op: nat, futures: seq<nat>)

  /** One enqueue: its key and its number. */
  datatype Item = Item(key: Key, id: nat)

  datatype Status = Waiting | Done(op: nat, returned: bool) | Cancelled

  /** The job the worker has taken; `begun` once its operation is called. */
  datatype Work = Work(key: Key, job: Job, begun: bool)

  /** `log`, `ran` and `fifo` are ghost; `fifo` is the plain queue: the enqueues not yet taken, none replaced. */
  datatype State = State(list: seq<Key>, jobs: map<Key, Job>, active: Option<Work>, closed: bool, running: bool,
                         futures: seq<Status>, log: seq<Key>, ran: seq<Item>, fifo: seq<Item>)

  function Init(): State { State([], map[], None, false, false, [], [], [], []) }

  // --- Steps ---

  /** What an outcome does to the futures of a job: those that are done already stay as they are. */
  function Resolve(futures: seq<Status>, ids: seq<nat>, s: Status): seq<Status> {
    seq(|futures|, i requires 0 <= i < |futures| => if i in ids && futures[i].Waiting? then s else futures[i])
  }

  function Compact(jobs: map<Key, Job>, key: Key, i: nat): map<Key, Job> {
    jobs[key := Job(i, if key in jobs then jobs[key].futures + [i] else [i])]
  }

  /** None: the limiter is closed or was not started, and the caller's future is cancelled. */
  function Enqueue(st: State, key: Key, front: bool): State {
    if st.closed || !st.running then st
    else
      var i := |st.log|;
      st.(jobs := Compact(st.jobs, key, i),
          list := if key in st.jobs then st.list else if front then [key] + st.list else st.list + [key],
          futures := st.futures + [Waiting], log := st.log + [key],
          fifo := if key !in st.jobs && front then [Item(key, i)] + st.fifo else st.fifo + [Item(key, i)])
  }

  /** The plain queue gives its head, and all that later replaced it. */
  function Take(st: State): State
    requires st.list != [] && st.list[0] in st.jobs
  {
    var key := st.list[0];
    st.(list := st.list[1..], jobs := st.jobs - {key}, active := Some(Work(key, st.jobs[key], false)),
        fifo := Without(st.fifo, key))
  }

  /** The operation is called. */
  function Begin(st: State): State
    requires st.active.Some?
  {
    st.(active := Some(st.active.value.(begun := true)),
        ran := st.ran + [Item(st.active.value.key, st.active.value.job.op)])
  }

  /** The operation ended, or the worker was cancelled. */
  function End(st: State, s: Status): State
    requires st.active.Some?
  {
    st.(active := None, futures := Resolve(st.futures, st.active.value.job.futures, s))
  }

  /** The futures shutdown cancels: those of queued jobs, and of the job being worked on. */
  function Queued(jobs: map<Key, Job>): set<nat> { set k, i | k in jobs && i in jobs[k].futures :: i }

  function ActiveFutures(active: Option<Work>): seq<nat> { if active.Some? then active.value.job.futures else [] }

  function Drop(futures: seq<Status>, ids: set<nat>): seq<Status> {
    seq(|futures|, i requires 0 <= i < |futures| => if i in ids && futures[i].Waiting? then Cancelled else futures[i])
  }

  function Clear(st: State): State {
    st.(list := [], jobs := map[], fifo := [],
        futures := Resolve(Drop(st.futures, Queued(st.jobs)), ActiveFutures(st.active), Cancelled))
  }

  datatype Step =
    | DoStart
    | DoEnqueue(key: Key, front: bool)
    | DoTake
    | DoBegin
    | DoEnd(returned: bool)
    | DoCancelOperation     // the operation, or the worker in a shutdown, is cancelled
    | DoCancelFuture(i: nat)
    | DoClose
    | DoClear
    | DoStop

  predicate Enabled(st: State, a: Step) {
    match a
    case DoStart => !st.closed
    case DoTake => st.running && !st.closed && st.active.None? && st.list != [] && st.list[0] in st.jobs
    case DoBegin => st.active.Some? && !st.active.value.begun
    case DoEnd(_) => st.active.Some? && st.active.value.begun
    case DoCancelOperation => st.active.Some? && (st.closed || st.active.value.begun)
    case DoCancelFuture(i) => i < |st.futures|
    case DoClear => st.closed
    case DoStop => st.closed && st.active.None?
    case _ => true
  }

  function Apply(st: State, a: Step): State
    requires Enabled(st, a)
  {
    match a
    case DoStart => st.(running := true)
    case DoEnqueue(key, front) => Enqueue(st, key, front)
    case DoTake => Take(st)
    case DoBegin => Begin(st)
    case DoEnd(returned) => End(st, Done(st.active.value.job.op, returned))
    case DoCancelOperation => End(st, Cancelled)
    case DoCancelFuture(i) => st.(futures := Resolve(st.futures, [i], Cancelled))
    case DoClose => st.(closed := true)
    case DoClear => Clear(st)
    case DoStop => st.(running := false)
  }

  predicate Runnable(st: State, run: seq<Step>)
    decreases |run|
  {
    run == [] || (Enabled(st, run[0]) && Runnable(Apply(st, run[0]), run[1..]))
  }

  function Run(st: State, run: seq<Step>): State
    requires Runnable(st, run)
    decreases |run|
  {
    if run == [] then st else Run(Apply(st, run[0]), run[1..])
  }

  // --- What the plain queue holds ---

  /** The items of other keys. */
  function Without(p: seq<Item>, key: Key): seq<Item> {
    if p == [] then [] else (if p[0].key == key then [] else [p[0]]) + Without(p[1..], key)
  }

  /** The items of this key, oldest first. */
  function Only(p: seq<Item>, key: Key): seq<nat> {
    if p == [] then [] else (if p[0].key == key then [p[0].id] else []) + Only(p[1..], key)
  }

  /** The keys, each where it is first enqueued. */
  function FirstKeys(p: seq<Item>): seq<Key>
    decreases |p|
  {
    if p == [] then []
    else
      WithoutIsSmaller(p[1..], p[0].key);
      [p[0].key] + FirstKeys(Without(p[1..], p[0].key))
  }

  lemma {:induction false} WithoutIsSmaller(p: seq<Item>, key: Key)
    ensures |Without(p, key)| <= |p|
  {
    if p != [] {
      WithoutIsSmaller(p[1..], key);
    }
  }

  lemma {:induction false} Append(p: seq<Item>, x: Item, key: Key)
    ensures Without(p + [x], key) == Without(p, key) + if x.key == key then [] else [x]
    ensures Only(p + [x], key) == Only(p, key) + if x.key == key then [x.id] else []
  {
    if p != [] {
      assert (p + [x])[1..] == p[1..] + [x];
      Append(p[1..], x, key);
    }
  }

  lemma {:induction false} OnlyOfOthers(p: seq<Item>, key: Key, other: Key)
    ensures Only(Without(p, key), other) == if other == key then [] else Only(p, other)
  {
    if p != [] {
      var rest := Without(p[1..], key);
      OnlyOfOthers(p[1..], key, other);
      assert [] + rest == rest && ([p[0]] + rest)[1..] == rest;
    }
  }

  /** A key is listed if something waits for it. */
  lemma {:induction false} FirstKeysAre(p: seq<Item>, k: Key)
    ensures k in FirstKeys(p) <==> Only(p, k) != []
    decreases |p|
  {
    if p != [] {
      var rest := Without(p[1..], p[0].key);
      WithoutIsSmaller(p[1..], p[0].key);
      FirstKeysAre(rest, k);
      OnlyOfOthers(p[1..], p[0].key, k);
    }
  }

  /** And it is listed once. */
  lemma {:induction false} FirstKeysDiffer(p: seq<Item>)
    ensures forall a, b :: 0 <= a < b < |FirstKeys(p)| ==> FirstKeys(p)[a] != FirstKeys(p)[b]
    decreases |p|
  {
    if p != [] {
      var rest := Without(p[1..], p[0].key);
      WithoutIsSmaller(p[1..], p[0].key);
      FirstKeysDiffer(rest);
      FirstKeysAre(rest, p[0].key);
      OnlyOfOthers(p[1..], p[0].key, p[0].key);
    }
  }

  lemma {:induction false} FirstKeysAppend(p: seq<Item>, x: Item)
    ensures FirstKeys(p + [x]) == FirstKeys(p) + if Only(p, x.key) != [] then [] else [x.key]
    decreases |p|
  {
    if p == [] {
      assert p + [x] == [x];
    } else {
      var key := p[0].key;
      var rest := Without(p[1..], key);
      assert (p + [x])[1..] == p[1..] + [x];
      Append(p[1..], x, key);
      WithoutIsSmaller(p[1..], key);
      OnlyOfOthers(p[1..], key, x.key);
      if x.key != key {
        FirstKeysAppend(rest, x);
        assert Without((p + [x])[1..], key) == rest + [x];
      } else {
        assert Without((p + [x])[1..], key) == rest + [] == rest;
      }
    }
  }

  lemma {:induction false} OnlyPrepend(p: seq<Item>, x: Item, k: Key)
    ensures Only([x] + p, k) == (if x.key == k then [x.id] else []) + Only(p, k)
    ensures Only(p, x.key) == [] ==> Without(p, x.key) == p && FirstKeys([x] + p) == [x.key] + FirstKeys(p)
  {
    assert ([x] + p)[1..] == p;
    if Only(p, x.key) == [] {
      NothingWithout(p, x.key);
    }
  }

  lemma {:induction false} NothingWithout(p: seq<Item>, key: Key)
    requires Only(p, key) == []
    ensures Without(p, key) == p
  {
    if p != [] {
      NothingWithout(p[1..], key);
    }
  }

  // --- The compacting queue refines it ---

  /** The deque has the keys in the order they were first enqueued, and each job is what its key waits for. */
  ghost predicate Refines(list: seq<Key>, jobs: map<Key, Job>, fifo: seq<Item>) {
    && list == FirstKeys(fifo)
    && forall k :: JobIs(jobs, k, Only(fifo, k))
  }

  /** The job of a key runs the last operation enqueued for it, and has the futures of all of them. */
  predicate JobIs(jobs: map<Key, Job>, k: Key, ids: seq<nat>) {
    if ids == [] then k !in jobs else k in jobs && jobs[k] == Job(ids[|ids| - 1], ids)
  }

  /** The plain queue with one more item, at its end or, for a new key, at its front. */
  function Queue(fifo: seq<Item>, x: Item, first: bool): seq<Item> { if first then [x] + fifo else fifo + [x] }

  lemma QueueHas(fifo: seq<Item>, x: Item, first: bool, k: Key)
    requires first ==> Only(fifo, x.key) == []
    ensures Only(Queue(fifo, x, first), k) == Only(fifo, k) + if x.key == k then [x.id] else []
    ensures FirstKeys(Queue(fifo, x, first))
            == if Only(fifo, x.key) != [] then FirstKeys(fifo)
               else if first then [x.key] + FirstKeys(fifo)
               else FirstKeys(fifo) + [x.key]
  {
    Append(fifo, x, k);
    OnlyPrepend(fifo, x, k);
    FirstKeysAppend(fifo, x);
  }

  lemma CompactRefines(jobs: map<Key, Job>, fifo: seq<Item>, x: Item, first: bool, k: Key)
    requires JobIs(jobs, k, Only(fifo, k)) && JobIs(jobs, x.key, Only(fifo, x.key))
    requires first ==> Only(fifo, x.key) == []
    ensures JobIs(Compact(jobs, x.key, x.id), k, Only(Queue(fifo, x, first), k))
  {
    QueueHas(fifo, x, first, k);
  }

  lemma EnqueueRefines(st: State, key: Key, front: bool)
    requires Refines(st.list, st.jobs, st.fifo)
    ensures var t := Enqueue(st, key, front); Refines(t.list, t.jobs, t.fifo)
  {
    if !st.closed && st.running {
      var t, x, first := Enqueue(st, key, front), Item(key, |st.log|), key !in st.jobs && front;
      assert t.fifo == Queue(st.fifo, x, first);
      assert JobIs(st.jobs, key, Only(st.fifo, key));
      QueueHas(st.fifo, x, first, key);
      forall k ensures JobIs(t.jobs, k, Only(t.fifo, k)) {
        assert JobIs(st.jobs, k, Only(st.fifo, k));
        CompactRefines(st.jobs, st.fifo, x, first, k);
      }
    }
  }

  lemma TakeRefines(st: State)
    requires Refines(st.list, st.jobs, st.fifo) && st.list != []
    ensures st.fifo != [] && st.list[0] == st.fifo[0].key && st.list[0] in st.jobs
    ensures var t := Take(st); Refines(t.list, t.jobs, t.fifo)
  {
    var key := st.fifo[0].key;
    assert JobIs(st.jobs, key, Only(st.fifo, key));
    var t := Take(st);
    assert Without(st.fifo, key) == Without(st.fifo[1..], key);
    forall k ensures JobIs(t.jobs, k, Only(t.fifo, k)) {
      assert JobIs(st.jobs, k, Only(st.fifo, k));
      OnlyOfOthers(st.fifo, key, k);
    }
  }

  // --- Last write wins ---

  /** What the sequence of operations leaves for each key, if every operation overwrites its key. */
  function Replay(items: seq<Item>): map<Key, nat> {
    if items == [] then map[]
    else Replay(items[..|items| - 1])[items[|items| - 1].key := items[|items| - 1].id]
  }

  /** What running every enqueued operation, in order and without compaction, leaves. */
  function ReplayLog(log: seq<Key>): map<Key, nat> {
    if log == [] then map[] else ReplayLog(log[..|log| - 1])[log[|log| - 1] := |log| - 1]
  }

  function Held(active: Option<Work>): map<Key, nat> {
    if active.Some? && !active.value.begun then map[active.value.key := active.value.job.op] else map[]
  }

  function Latest(jobs: map<Key, Job>): map<Key, nat> { map k | k in jobs :: jobs[k].op }

  /** What was run, then the job taken but not begun, then the queue. */
  function Outlook(ran: seq<Item>, active: Option<Work>, jobs: map<Key, Job>): map<Key, nat> {
    Replay(ran) + Held(active) + Latest(jobs)
  }

  ghost predicate OutlookOk(st: State) { !st.closed ==> Outlook(st.ran, st.active, st.jobs) == ReplayLog(st.log) }

  lemma ReplayAppend(items: seq<Item>, x: Item)
    ensures Replay(items + [x]) == Replay(items)[x.key := x.id]
  {
    assert (items + [x])[..|items|] == items;
  }

  lemma EnqueueKeepsOutlook(st: State, key: Key, front: bool)
    requires OutlookOk(st)
    ensures OutlookOk(Enqueue(st, key, front))
  {
    assert (st.log + [key])[..|st.log|] == st.log;
    assert Latest(Compact(st.jobs, key, |st.log|)) == Latest(st.jobs)[key := |st.log|];
  }

  lemma TakeKeepsOutlook(ran: seq<Item>, jobs: map<Key, Job>, key: Key)
    requires key in jobs
    ensures Outlook(ran, Some(Work(key, jobs[key], false)), jobs - {key}) == Outlook(ran, None, jobs)
  {
    assert Held(Some(Work(key, jobs[key], false))) + Latest(jobs - {key}) == Latest(jobs);
    assert Held(None) == map[];
  }

  lemma BeginKeepsOutlook(ran: seq<Item>, w: Work, jobs: map<Key, Job>)
    requires !w.begun
    ensures Outlook(ran + [Item(w.key, w.job.op)], Some(w.(begun := true)), jobs) == Outlook(ran, Some(w), jobs)
  {
    ReplayAppend(ran, Item(w.key, w.job.op));
    assert Replay(ran)[w.key := w.job.op] + map[] == Replay(ran) + map[w.key := w.job.op];
  }

  lemma StepKeepsOutlook(st: State, a: Step)
    requires OutlookOk(st) && Enabled(st, a)
    ensures OutlookOk(Apply(st, a))
  {
    match a
    case DoEnqueue(key, front) => EnqueueKeepsOutlook(st, key, front);
    case DoTake => TakeKeepsOutlook(st.ran, st.jobs, st.list[0]);
    case DoBegin => BeginKeepsOutlook(st.ran, st.active.value, st.jobs);
    case _ =>
  }

  // --- No future is lost ---

  /** The job's futures are enqueues for its key in order, and its operation is the last of them. */
  ghost predicate JobOk(log: seq<Key>, k: Key, job: Job) {
    && job.futures != [] && job.op == job.futures[|job.futures| - 1]
    && (forall a :: 0 <= a < |job.futures| ==> job.futures[a] < |log| && log[job.futures[a]] == k)
    && (forall a, b :: 0 <= a < b < |job.futures| ==> job.futures[a] < job.futures[b])
  }

  ghost predicate JobsOk(log: seq<Key>, jobs: map<Key, Job>) { forall k :: k in jobs ==> JobOk(log, k, jobs[k]) }

  /** The worker's job is older than the one queued for the same key. */
  ghost predicate ActiveOk(log: seq<Key>, jobs: map<Key, Job>, active: Option<Work>) {
    active.Some? ==>
      && JobOk(log, active.value.key, active.value.job)
      && (active.value.key in jobs && jobs[active.value.key].futures != [] ==>
            active.value.job.op < jobs[active.value.key].futures[0])
  }

  predicate IsQueued(st: State, i: nat)
    requires i < |st.log|
  {
    st.log[i] in st.jobs && i in st.jobs[st.log[i]].futures
  }

  predicate IsActive(st: State, i: nat) { st.active.Some? && i in st.active.value.job.futures }

  /**
   An unresolved future is queued or active. One with an outcome is neither, and has the outcome of an operation
   that covers it. Only a cancelled future may still be listed: whoever cancels it does not take it out of its job.
   */
  ghost predicate FutureOk(st: State, i: nat)
    requires i < |st.log| && |st.futures| == |st.log|
  {
    match st.futures[i]
    case Waiting => IsQueued(st, i) || IsActive(st, i)
    case Done(op, _) =>
      && !IsQueued(st, i) && !IsActive(st, i)
      && i <= op < |st.log| && st.log[op] == st.log[i] && Item(st.log[op], op) in st.ran
    case Cancelled => true
  }

  ghost predicate BegunOk(st: State) {
    st.active.Some? && st.active.value.begun ==> Item(st.active.value.key, st.active.value.job.op) in st.ran
  }

  ghost predicate FuturesOk(st: State) {
    && |st.futures| == |st.log|
    && JobsOk(st.log, st.jobs) && ActiveOk(st.log, st.jobs, st.active) && BegunOk(st)
    && forall i :: 0 <= i < |st.log| ==> FutureOk(st, i)
  }

  /** A future is never both queued and active. */
  lemma QueuedOrActive(st: State, i: nat)
    requires FuturesOk(st) && i < |st.log| && IsQueued(st, i)
    ensures !IsActive(st, i)
  {
  }

  lemma JobGrows(log: seq<Key>, k: Key, job: Job, added: Key)
    requires JobOk(log, k, job)
    ensures JobOk(log + [added], k, job)
  {
  }

  lemma CompactKeepsJobs(log: seq<Key>, jobs: map<Key, Job>, key: Key)
    requires JobsOk(log, jobs)
    ensures JobsOk(log + [key], Compact(jobs, key, |log|))
  {
    forall k | k in jobs ensures JobOk(log + [key], k, jobs[k]) { JobGrows(log, k, jobs[k], key); }
  }

  lemma CompactKeepsActive(log: seq<Key>, jobs: map<Key, Job>, active: Option<Work>, key: Key)
    requires JobsOk(log, jobs) && ActiveOk(log, jobs, active)
    ensures ActiveOk(log + [key], Compact(jobs, key, |log|), active)
  {
    if active.Some? { JobGrows(log, active.value.key, active.value.job, key); }
    if key in jobs { assert JobOk(log, key, jobs[key]); }
  }

  lemma EnqueueKeepsFutures(st: State, key: Key, front: bool)
    requires FuturesOk(st)
    ensures FuturesOk(Enqueue(st, key, front))
  {
    var t := Enqueue(st, key, front);
    CompactKeepsJobs(st.log, st.jobs, key);
    CompactKeepsActive(st.log, st.jobs, st.active, key);
    forall i | 0 <= i < |t.log| ensures FutureOk(t, i) {
      if i < |st.log| { assert FutureOk(st, i); }
    }
  }

  lemma TakeKeepsFutures(st: State)
    requires FuturesOk(st) && Enabled(st, DoTake)
    ensures FuturesOk(Take(st))
  {
    var t := Take(st);
    assert JobOk(st.log, st.list[0], st.jobs[st.list[0]]);
    forall i | 0 <= i < |t.log| ensures FutureOk(t, i) { assert FutureOk(st, i); }
  }

  lemma BeginKeepsFutures(st: State)
    requires FuturesOk(st) && Enabled(st, DoBegin)
    ensures FuturesOk(Begin(st))
  {
    var t := Begin(st);
    forall i | 0 <= i < |t.log| ensures FutureOk(t, i) { assert FutureOk(st, i); }
  }

  /** The worker is done with its job: every future of the job is resolved. */
  lemma EndKeepsFutures(st: State, s: Status)
    requires FuturesOk(st) && st.active.Some?
    requires s.Cancelled? || (s.Done? && st.active.value.begun && s.op == st.active.value.job.op)
    ensures FuturesOk(End(st, s))
  {
    var t := End(st, s);
    var ids := st.active.value.job.futures;
    forall i | 0 <= i < |t.log| ensures FutureOk(t, i) {
      assert FutureOk(st, i);
      if i in ids {
        var a :| 0 <= a < |ids| && ids[a] == i;
        assert ids[a] <= ids[|ids| - 1];
      }
    }
  }

  lemma CancelKeepsFutures(st: State, ids: seq<nat>)
    requires FuturesOk(st)
    ensures FuturesOk(st.(futures := Resolve(st.futures, ids, Cancelled)))
  {
    var t := st.(futures := Resolve(st.futures, ids, Cancelled));
    forall i | 0 <= i < |t.log| ensures FutureOk(t, i) { assert FutureOk(st, i); }
  }

  /** After shutdown has cleared the queue, every accepted future is done. */
  lemma ClearResolvesAll(st: State)
    requires FuturesOk(st)
    ensures FuturesOk(Clear(st)) && forall i :: 0 <= i < |st.log| ==> !Clear(st).futures[i].Waiting?
    ensures Clear(st).list == [] && Clear(st).jobs == map[]
  {
    var t := Clear(st);
    forall i | 0 <= i < |t.log| ensures FutureOk(t, i) && !t.futures[i].Waiting? {
      assert FutureOk(st, i);
      if IsQueued(st, i) { assert i in Queued(st.jobs); }
    }
  }

  ghost predicate Inv(st: State) { Refines(st.list, st.jobs, st.fifo) && FuturesOk(st) && OutlookOk(st) }

  lemma InitHolds()
    ensures Inv(Init())
  {
  }

  lemma StepKeepsInv(st: State, a: Step)
    requires Inv(st) && Enabled(st, a)
    ensures Inv(Apply(st, a))
  {
    StepKeepsOutlook(st, a);
    match a
    case DoEnqueue(key, front) => EnqueueRefines(st, key, front); EnqueueKeepsFutures(st, key, front);
    case DoTake => TakeRefines(st); TakeKeepsFutures(st);
    case DoBegin => BeginKeepsFutures(st);
    case DoEnd(returned) => EndKeepsFutures(st, Done(st.active.value.job.op, returned));
    case DoCancelOperation => EndKeepsFutures(st, Cancelled);
    case DoCancelFuture(i) => CancelKeepsFutures(st, [i]);
    case DoClear => ClearResolvesAll(st);
    case _ =>
      forall i | 0 <= i < |st.log| ensures FutureOk(Apply(st, a), i) { assert FutureOk(st, i); }
  }

  // --- Theorems ---

  lemma {:induction false} RunKeepsInv(st: State, run: seq<Step>)
    requires Inv(st) && Runnable(st, run)
    ensures Inv(Run(st, run))
    decreases |run|
  {
    if run != [] {
      StepKeepsInv(st, run[0]);
      RunKeepsInv(Apply(st, run[0]), run[1..]);
    }
  }

  /** The deque has no duplicates and has exactly the keys of the map. */
  lemma DequeMatchesMap(run: seq<Step>)
    requires Runnable(Init(), run)
    ensures var st := Run(Init(), run);
            && (forall a, b :: 0 <= a < b < |st.list| ==> st.list[a] != st.list[b])
            && (forall k :: k in st.list <==> k in st.jobs)
  {
    InitHolds();
    RunKeepsInv(Init(), run);
    var st := Run(Init(), run);
    FirstKeysDiffer(st.fifo);
    forall k ensures k in st.list <==> k in st.jobs {
      FirstKeysAre(st.fifo, k);
      assert JobIs(st.jobs, k, Only(st.fifo, k));
    }
  }

  /** Draining leaves what a plain FIFO would leave: the last operation run for each key is the last one enqueued. */
  lemma DrainEqualsFifo(run: seq<Step>)
    requires Runnable(Init(), run)
    requires var st := Run(Init(), run); !st.closed && st.list == [] && (st.active.Some? ==> st.active.value.begun)
    ensures Replay(Run(Init(), run).ran) == ReplayLog(Run(Init(), run).log)
  {
    InitHolds();
    RunKeepsInv(Init(), run);
    DequeMatchesMap(run);
    var st := Run(Init(), run);
    assert Outlook(st.ran, st.active, st.jobs) == Replay(st.ran);
  }

  /** The next job is that of the oldest enqueue in the plain queue, and stands for all that queue has for its key. */
  lemma TakesOldestFirst(run: seq<Step>)
    requires Runnable(Init(), run) && Enabled(Run(Init(), run), DoTake)
    ensures var st := Run(Init(), run);
            var w := Take(st).active.value;
            && st.fifo != [] && w.key == st.fifo[0].key
            && w.job.futures == Only(st.fifo, w.key)
            && w.job.op == w.job.futures[|w.job.futures| - 1]
  {
    InitHolds();
    RunKeepsInv(Init(), run);
    var st := Run(Init(), run);
    TakeRefines(st);
    assert JobIs(st.jobs, st.list[0], Only(st.fifo, st.list[0]));
  }

  /**
   An accepted future that was not cancelled is in exactly one of: queued, active, done with an outcome; and the
   outcome is that of a later operation for its key. A cancelled one is never both queued and active.
   */
  lemma FuturesAreAccountedFor(run: seq<Step>, i: nat)
    requires Runnable(Init(), run) && i < |Run(Init(), run).log|
    ensures var st := Run(Init(), run);
            && |st.futures| == |st.log|
            && !(IsQueued(st, i) && IsActive(st, i))
            && (!st.futures[i].Cancelled? ==> (st.futures[i].Done? <==> !IsQueued(st, i) && !IsActive(st, i)))
            && (st.futures[i].Done? ==> var op := st.futures[i].op;
                  i <= op < |st.log| && st.log[op] == st.log[i] && Item(st.log[op], op) in st.ran)
  {
    InitHolds();
    RunKeepsInv(Init(), run);
    assert FutureOk(Run(Init(), run), i);
    if IsQueued(Run(Init(), run), i) {
      QueuedOrActive(Run(Init(), run), i);
    }
  }

  // --- What is accepted, and what is done with it ---

  /** While the limiter runs every enqueue is accepted: it gets a future that waits with the job of its key. */
  lemma EnqueueIsAccepted(st: State, key: Key, front: bool)
    requires Inv(st)
    ensures var t := Apply(st, DoEnqueue(key, front)); var i := |st.log|;
            if st.running && !st.closed then
              && t.log == st.log + [key] && t.futures == st.futures + [Waiting] && IsQueued(t, i)
              && (key in st.list ==> t.list == st.list)
              && (key !in st.list ==> t.list == if front then [key] + st.list else st.list + [key])
            else t == st
  {
    FirstKeysAre(st.fifo, key);
    assert JobIs(st.jobs, key, Only(st.fifo, key));
  }

  /** From the close on nothing is accepted and nothing is taken, in any continuation. */
  lemma {:induction false} ClosedForGood(st: State, run: seq<Step>)
    requires Runnable(st, [DoClose] + run)
    ensures var t := Run(st, [DoClose] + run); t.closed && t.log == st.log && (st.active.None? ==> t.active.None?)
    decreases |run|
  {
    assert ([DoClose] + run)[1..] == run;
    StaysClosed(Apply(st, DoClose), run);
  }

  lemma {:induction false} StaysClosed(st: State, run: seq<Step>)
    requires st.closed && Runnable(st, run)
    ensures Run(st, run).closed && Run(st, run).log == st.log && (st.active.None? ==> Run(st, run).active.None?)
    decreases |run|
  {
    if run != [] {
      StaysClosed(Apply(st, run[0]), run[1..]);
    }
  }

  /** The worker runs between start and stop; a closed limiter is not started again. */
  lemma RunsFromStartToStop(st: State)
    ensures Enabled(st, DoStart) <==> !st.closed
    ensures Enabled(st, DoStart) ==> Apply(st, DoStart).running && !Apply(st, DoStart).closed
    ensures Enabled(st, DoStop) ==> !Apply(st, DoStop).running && Apply(st, DoStop).futures == st.futures
  {
  }

  /** A started limiter delivers: the operation is taken, run, and its outcome reported to the caller. */
  lemma OneSend(key: Key, front: bool, returned: bool)
    ensures var run := [DoStart, DoEnqueue(key, front), DoTake, DoBegin, DoEnd(returned)];
            && Runnable(Init(), run)
            && Run(Init(), run).futures == [Done(0, returned)]
            && Run(Init(), run).ran == [Item(key, 0)] && Run(Init(), run).list == [] && Run(Init(), run).active.None?
  {
    var run := [DoStart, DoEnqueue(key, front), DoTake, DoBegin, DoEnd(returned)];
    var s1 := Apply(Init(), DoStart);
    var s2 := Apply(s1, DoEnqueue(key, front));
    var s3 := Apply(s2, DoTake);
    var s4 := Apply(s3, DoBegin);
    Unrolled(s4, [DoEnd(returned)]);
    Unrolled(s3, [DoBegin, DoEnd(returned)]);
    Unrolled(s2, [DoTake, DoBegin, DoEnd(returned)]);
    Unrolled(s1, [DoEnqueue(key, front), DoTake, DoBegin, DoEnd(returned)]);
    Unrolled(Init(), run);
  }

  lemma Unrolled(st: State, run: seq<Step>)
    requires run != []
    ensures Runnable(st, run) <==> Enabled(st, run[0]) && Runnable(Apply(st, run[0]), run[1..])
    ensures Runnable(st, run) ==> Run(st, run) == Run(Apply(st, run[0]), run[1..])
  {
  }

  // --- Outcomes ---

  /** The worker ends operation `op` in this step, and it returned, or else it raised. */
  predicate Ends(st: State, a: Step, op: nat, returned: bool) {
    a == DoEnd(returned) && st.active.Some? && st.active.value.begun && st.active.value.job.op == op
  }

  /** Some step of the run ends operation `op` like this. */
  ghost predicate EndedAs(st: State, run: seq<Step>, op: nat, returned: bool)
    requires Runnable(st, run)
    decreases |run|
  {
    run != [] && (Ends(st, run[0], op, returned) || EndedAs(Apply(st, run[0]), run[1..], op, returned))
  }

  /** A step gives a waiting future an outcome exactly by ending its job, and then it is that of the operation. */
  lemma StepGivesOutcome(st: State, a: Step, i: nat, op: nat, returned: bool)
    requires FuturesOk(st) && Enabled(st, a) && i < |st.log|
    ensures i < |Apply(st, a).futures| && |st.futures| == |st.log|
    ensures Apply(st, a).futures[i] == Done(op, returned)
            <==> st.futures[i] == Done(op, returned)
                 || (st.futures[i].Waiting? && IsActive(st, i) && Ends(st, a, op, returned))
  {
  }

  /** A new future waits, so it has no outcome yet. */
  lemma NewFuturesWait(st: State, a: Step, i: nat)
    requires FuturesOk(st) && Enabled(st, a) && |st.log| <= i < |Apply(st, a).futures|
    ensures Apply(st, a).futures[i].Waiting?
  {
  }

  /** The operation is not in the queue or with the worker, so it does not end again. */
  ghost predicate IsOver(st: State, op: nat) {
    && op < |st.log|
    && (forall k :: k in st.jobs ==> op !in st.jobs[k].futures)
    && (st.active.Some? ==> op !in st.active.value.job.futures)
  }

  lemma OverIsNotActive(st: State, op: nat)
    requires FuturesOk(st) && IsOver(st, op)
    ensures st.active.Some? ==> st.active.value.job.op != op
  {
    if st.active.Some? { assert JobOk(st.log, st.active.value.key, st.active.value.job); }
  }

  lemma StaysOver(st: State, a: Step, op: nat)
    requires FuturesOk(st) && Enabled(st, a) && IsOver(st, op)
    ensures IsOver(Apply(st, a), op)
  {
  }

  lemma EndingIsOver(st: State, a: Step, op: nat, returned: bool)
    requires FuturesOk(st) && Enabled(st, a) && Ends(st, a, op, returned)
    ensures IsOver(Apply(st, a), op)
  {
    var w := st.active.value;
    assert JobOk(st.log, w.key, w.job) && IsActive(st, op);
    forall k | k in st.jobs ensures op !in st.jobs[k].futures {
      assert JobOk(st.log, k, st.jobs[k]);
      if op in st.jobs[k].futures { QueuedOrActive(st, op); }
    }
  }

  lemma {:induction false} NeverEndsAgain(st: State, run: seq<Step>, op: nat, returned: bool)
    requires Inv(st) && Runnable(st, run) && IsOver(st, op)
    ensures !EndedAs(st, run, op, returned)
    decreases |run|
  {
    if run != [] {
      OverIsNotActive(st, op);
      StaysOver(st, run[0], op);
      StepKeepsInv(st, run[0]);
      NeverEndsAgain(Apply(st, run[0]), run[1..], op, returned);
    }
  }

  /** Over any run an operation ends at most once, so it does not both return and raise. */
  lemma {:induction false} EndsOneWay(st: State, run: seq<Step>, op: nat)
    requires Inv(st) && Runnable(st, run)
    ensures !(EndedAs(st, run, op, true) && EndedAs(st, run, op, false))
    decreases |run|
  {
    if run != [] {
      StepKeepsInv(st, run[0]);
      var st' := Apply(st, run[0]);
      EndsOneWay(st', run[1..], op);
      forall returned: bool | Ends(st, run[0], op, returned)
        ensures !EndedAs(st', run[1..], op, !returned) && !Ends(st, run[0], op, !returned)
      {
        EndingIsOver(st, run[0], op, returned);
        NeverEndsAgain(st', run[1..], op, !returned);
      }
    }
  }

  lemma {:induction false} OutcomesHappened(st: State, run: seq<Step>, i: nat, op: nat, returned: bool)
    requires Inv(st) && Runnable(st, run) && i < |Run(st, run).futures| && Run(st, run).futures[i] == Done(op, returned)
    ensures (i < |st.futures| && st.futures[i] == Done(op, returned)) || EndedAs(st, run, op, returned)
    decreases |run|
  {
    if run != [] {
      StepKeepsInv(st, run[0]);
      OutcomesHappened(Apply(st, run[0]), run[1..], i, op, returned);
      if i < |st.log| {
        StepGivesOutcome(st, run[0], i, op, returned);
      } else if i < |Apply(st, run[0]).futures| {
        NewFuturesWait(st, run[0], i);
      }
    }
  }

  /**
   A caller is told what happened: over every run a future reports a return exactly if the operation it reports of,
   the last one that covers it, returned, and an exception exactly if that operation raised.
   */
  lemma OutcomesAreReported(run: seq<Step>, i: nat)
    requires Runnable(Init(), run) && i < |Run(Init(), run).futures| && Run(Init(), run).futures[i].Done?
    ensures var x := Run(Init(), run).futures[i];
            && (x.returned <==> EndedAs(Init(), run, x.op, true))
            && (!x.returned <==> EndedAs(Init(), run, x.op, false))
  {
    InitHolds();
    var x := Run(Init(), run).futures[i];
    OutcomesHappened(Init(), run, i, x.op, x.returned);
    EndsOneWay(Init(), run, x.op);
  }

  // --- Cancelled futures ---

  /** The future is cancelled, and still in the queue or with the worker. */
  ghost predicate Lingers(st: State, i: nat) {
    i < |st.log| && |st.futures| == |st.log| && st.futures[i].Cancelled? && (IsQueued(st, i) || IsActive(st, i))
  }

  /** Its caller cancels a future that waits, or a shutdown cancels one that the worker has. */
  ghost predicate LeavesListed(st: State, a: Step, i: nat) {
    i < |st.log| && i < |st.futures| && st.futures[i].Waiting?
    && (a == DoCancelFuture(i) || (a == DoClear && IsActive(st, i)))
  }

  /** The worker is done with the job of the future, or a shutdown drops that job from the queue. */
  ghost predicate Delists(st: State, a: Step, i: nat) {
    i < |st.log| && (((a.DoEnd? || a.DoCancelOperation?) && IsActive(st, i)) || (a.DoClear? && IsQueued(st, i)))
  }

  /** The exact exception to that split, for one step. */
  lemma StepLingers(st: State, a: Step, i: nat)
    requires FuturesOk(st) && Enabled(st, a)
    ensures Lingers(Apply(st, a), i) <==> if Lingers(st, i) then !Delists(st, a, i) else LeavesListed(st, a, i)
  {
    if i < |st.log| {
      assert FutureOk(st, i) && |st.futures| == |st.log|;
      if IsQueued(st, i) { QueuedOrActive(st, i); }
      match a
      case DoTake => TakeMovesFutures(st, i);
      case DoEnqueue(key, front) => EnqueueMovesNothing(st, key, front, i);
      case _ => hide FuturesOk; StepLists(st, a, i);
    }
  }

  /** What the other steps do to a future and its places. */
  lemma StepLists(st: State, a: Step, i: nat)
    requires Enabled(st, a) && !a.DoTake? && !a.DoEnqueue? && i < |st.log| == |st.futures|
    ensures var t := Apply(st, a);
            && t.log == st.log && |t.futures| == |st.futures|
            && (IsQueued(t, i) <==> IsQueued(st, i) && !a.DoClear?)
            && (IsActive(t, i) <==> IsActive(st, i) && !a.DoEnd? && !a.DoCancelOperation?)
            && (!st.futures[i].Waiting? ==> t.futures[i] == st.futures[i])
            && (a == DoCancelFuture(i) || (a.DoClear? && IsActive(st, i)) ==> !t.futures[i].Waiting?)
            && (st.futures[i].Waiting? && t.futures[i].Cancelled? ==>
                  a == DoCancelFuture(i) || a.DoClear? || (a.DoCancelOperation? && IsActive(st, i)))
            && (st.futures[i].Waiting? && (a == DoCancelFuture(i) || a.DoClear?) ==>
                  t.futures[i].Waiting? || t.futures[i].Cancelled?)
  {
  }

  lemma EnqueueMovesNothing(st: State, key: Key, front: bool, i: nat)
    requires FuturesOk(st) && i < |st.log|
    ensures var t := Enqueue(st, key, front);
            && |t.futures| == |t.log| >= |st.log| && t.futures[i] == st.futures[i]
            && (IsQueued(t, i) <==> IsQueued(st, i)) && (IsActive(t, i) <==> IsActive(st, i))
  {
  }

  lemma TakeMovesFutures(st: State, i: nat)
    requires FuturesOk(st) && Enabled(st, DoTake) && i < |st.log|
    ensures IsQueued(Take(st), i) || IsActive(Take(st), i) <==> IsQueued(st, i)
  {
    assert JobOk(st.log, st.list[0], st.jobs[st.list[0]]);
  }

  ghost predicate NeverDelists(st: State, run: seq<Step>, i: nat)
    requires Runnable(st, run)
    decreases |run|
  {
    run != [] ==> !Delists(st, run[0], i) && NeverDelists(Apply(st, run[0]), run[1..], i)
  }

  /** Some step of the run leaves the cancelled future listed, and no later one takes it off. */
  ghost predicate IsLeftListed(st: State, run: seq<Step>, i: nat)
    requires Runnable(st, run)
    decreases |run|
  {
    && run != []
    && ((LeavesListed(st, run[0], i) && NeverDelists(Apply(st, run[0]), run[1..], i))
        || IsLeftListed(Apply(st, run[0]), run[1..], i))
  }

  lemma {:induction false} LingeringRuns(st: State, run: seq<Step>, i: nat)
    requires Inv(st) && Runnable(st, run)
    ensures Lingers(Run(st, run), i)
            <==> (Lingers(st, i) && NeverDelists(st, run, i)) || IsLeftListed(st, run, i)
    decreases |run|
  {
    if run != [] {
      StepKeepsInv(st, run[0]);
      StepLingers(st, run[0], i);
      LingeringRuns(Apply(st, run[0]), run[1..], i);
      if Lingers(st, i) && Delists(st, run[0], i) { ResolvedStaysUnlisted(Apply(st, run[0]), run[1..], i); }
    }
  }

  /** A future that is resolved and off the list is never left listed again. */
  lemma {:induction false} ResolvedStaysUnlisted(st: State, run: seq<Step>, i: nat)
    requires Inv(st) && Runnable(st, run) && i < |st.log| && !st.futures[i].Waiting?
    ensures !IsLeftListed(st, run, i)
    decreases |run|
  {
    if run != [] {
      StepKeepsInv(st, run[0]);
      ResolvedStaysUnlisted(Apply(st, run[0]), run[1..], i);
    }
  }

  /**
   The exact exception to that split, over every run: a future is cancelled and still listed if and only if its
   caller cancelled it while it waited, or a shutdown did while the worker had it, and its job is not over since.
   */
  lemma LingersExactly(run: seq<Step>, i: nat)
    requires Runnable(Init(), run)
    ensures Lingers(Run(Init(), run), i) <==> IsLeftListed(Init(), run, i)
  {
    InitHolds();
    LingeringRuns(Init(), run, i);
  }

  /** In particular nothing else leaves a resolved future listed. */
  lemma {:induction false} OnlyCallersAndShutdownLinger(st: State, run: seq<Step>, i: nat)
    requires Inv(st) && Runnable(st, run) && !Lingers(st, i) && Lingers(Run(st, run), i)
    ensures DoCancelFuture(i) in run || DoClear in run
    decreases |run|
  {
    if run != [] {
      StepKeepsInv(st, run[0]);
      if Lingers(Apply(st, run[0]), i) {
        StepLingers(st, run[0], i);
      } else {
        OnlyCallersAndShutdownLinger(Apply(st, run[0]), run[1..], i);
      }
    }
  }

  /** It does occur: the cancelled future stays with the queued job. */
  lemma CancelledFutureStaysListed()
    ensures var run := [DoStart, DoEnqueue("k", false), DoCancelFuture(0)];
            && Runnable(Init(), run)
            && |Run(Init(), run).log| == 1
            && Run(Init(), run).futures == [Cancelled]
            && IsQueued(Run(Init(), run), 0)
  {
    var run := [DoStart, DoEnqueue("k", false), DoCancelFuture(0)];
    var started := Apply(Init(), DoStart);
    var queued := Apply(started, DoEnqueue("k", false));
    assert run[1..] == [DoEnqueue("k", false), DoCancelFuture(0)] && run[1..][1..] == [DoCancelFuture(0)];
    assert Runnable(Apply(queued, DoCancelFuture(0)), run[1..][1..][1..]);
    assert Runnable(queued, run[1..][1..]) && Runnable(started, run[1..]);
  }

  /**
   Why the wait before an operation may fail by cancellation only: a worker that goes on to the next job
   without having resolved the one it took loses every future of it that still waits.
   */
  lemma SkippedJobIsLost(st: State, i: nat)
    requires FuturesOk(st) && i < |st.log| && st.futures[i].Waiting? && IsActive(st, i)
    requires st.list != [] && st.list[0] in st.jobs
    ensures var t := Take(st); t.futures[i].Waiting? && !IsQueued(t, i) && !IsActive(t, i)
  {
    if st.list[0] == st.log[i] {
      assert IsQueued(st, i) <==> i in st.jobs[st.list[0]].futures;
    } else {
      assert JobOk(st.log, st.list[0], st.jobs[st.list[0]]);
    }
    if IsQueued(st, i) {
      QueuedOrActive(st, i);
    }
  }

  /** Once a shutdown has cleared the queue, nothing is accepted any more and all futures stay done. */
  lemma {:induction false} NothingWaitsAfterShutdown(st: State, run: seq<Step>)
    requires Inv(st) && st.closed && Runnable(Clear(st), run)
    ensures var t := Run(Clear(st), run);
            |t.futures| == |st.log| && forall i :: 0 <= i < |t.futures| ==> !t.futures[i].Waiting?
  {
    ClearResolvesAll(st);
    StaysDone(Clear(st), run);
  }

  lemma {:induction false} StaysDone(st: State, run: seq<Step>)
    requires st.closed && Runnable(st, run) && forall i :: 0 <= i < |st.futures| ==> !st.futures[i].Waiting?
    ensures Run(st, run).futures == st.futures
    decreases |run|
  {
    if run != [] {
      var t := Apply(st, run[0]);
      assert t.futures == st.futures;
      StaysDone(t, run[1..]);
    }
  }
}
