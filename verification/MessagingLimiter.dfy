/** The limiter object of messaging/limiter.py; its sections refine the steps of the compacting queue. */
module MessagingLimiter {
  import opened Options
  import opened DeliveryQueue

  class MessagingRateLimiter {
    var queueList: seq<Key>
    var queueMap: map<Key, Job>
    var active: Option<Work>
    var closed: bool
    var running: bool
    var futures: seq<Status>
    ghost var log: seq<Key>
    ghost var ran: seq<Item>
    ghost var fifo: seq<Item>

    ghost function View(): State
      reads this
    {
      State(queueList, queueMap, active, closed, running, futures, log, ran, fifo)
    }

    ghost predicate Valid()
      reads this
    {
      Inv(View())
    }

    constructor ()
      ensures Valid() && View() == Init()
    {
      queueList, queueMap, active, closed, running, futures := [], map[], None, false, false, [];
      log, ran, fifo := [], [], [];
      new;
      InitHolds();
    }

    /** start: the worker runs. Returns false if the limiter is closed. */
    method Start() returns (started: bool)
      requires Valid()
      modifies `running
      ensures Valid() && (started <==> !closed) && (started ==> running)
      ensures View() == if started then Apply(old(View()), DoStart) else old(View())
    {
      started := !closed;
      if started {
        StepKeepsInv(View(), DoStart);
        running := true;
      }
    }

    /** The first statement of shutdown: nothing is accepted any more. */
    method Close()
      requires Valid()
      modifies `closed
      ensures Valid() && View() == Apply(old(View()), DoClose) && closed
    {
      StepKeepsInv(View(), DoClose);
      closed := true;
    }

    /** _enqueue_internal: the number of the new future, or None if the limiter is not running. */
    method Enqueue(key: Key, front: bool) returns (future: Option<nat>)
      requires Valid()
      modifies this
      ensures Valid() && View() == Apply(old(View()), DoEnqueue(key, front))
      ensures future == if !closed && running then Some(|old(futures)|) else None
      ensures future.Some? ==> futures == old(futures) + [Status.Waiting] && key in queueMap
      ensures future.Some? ==> queueMap[key].op == future.value && future.value in queueMap[key].futures
      ensures future.None? ==> View() == old(View())
    {
      ghost var before := View();
      future := None;
      if !closed && running {
        future := Some(|futures|);
        fifo := Queue(fifo, Item(key, |futures|), key !in queueMap && front);
        Merge(key, |futures|, front);
        futures, log := futures + [Status.Waiting], log + [key];
      }
      assert View() == DeliveryQueue.Enqueue(before, key, front);
      StepKeepsInv(before, DoEnqueue(key, front));
    }

    /** An earlier job for the key gets the new operation and keeps its place; otherwise the key is queued. */
    method Merge(key: Key, i: nat, front: bool)
      modifies `queueMap, `queueList
      ensures queueMap == Compact(old(queueMap), key, i)
      ensures queueList == if key in old(queueMap) then old(queueList)
                           else if front then [key] + old(queueList) else old(queueList) + [key]
    {
      if key in queueMap {
        queueMap := queueMap[key := Job(i, queueMap[key].futures + [i])];
      } else {
        queueMap := queueMap[key := Job(i, [i])];
        queueList := if front then [key] + queueList else queueList + [key];
      }
    }

    /** The worker's section, when it neither waits nor stops. */
    method TakeNext() returns (key: Key, job: Job)
      requires Valid() && running && !closed && active.None? && queueList != []
      modifies `queueList, `queueMap, `active, `fifo
      ensures Valid() && Enabled(old(View()), DoTake) && View() == Apply(old(View()), DoTake)
      ensures active == Some(Work(key, job, false)) && key == old(queueList[0]) && queueList == old(queueList[1..])
      ensures key in old(queueMap) && job == old(queueMap[key]) && queueMap == old(queueMap) - {key}
    {
      TakeRefines(View());
      StepKeepsInv(View(), DoTake);
      key := queueList[0];
      fifo := Without(fifo, key);
      queueList := queueList[1..];
      job := queueMap[key];
      queueMap := queueMap - {key};
      active := Some(Work(key, job, false));
    }

    method BeginOperation()
      requires Valid() && active.Some? && !active.value.begun
      modifies `active, `ran
      ensures Valid() && View() == Apply(old(View()), DoBegin) && active == Some(old(active.value).(begun := true))
    {
      StepKeepsInv(View(), DoBegin);
      ran := ran + [Item(active.value.key, active.value.job.op)];
      active := Some(active.value.(begun := true));
    }

    /** For each future, in order: if it is not done, resolve it. */
    method ResolveEach(ids: seq<nat>, s: Status)
      requires !s.Waiting?
      modifies `futures
      ensures futures == Resolve(old(futures), ids, s)
    {
      assert futures == Resolve(futures, ids[..0], s);
      for n := 0 to |ids|
        invariant futures == Resolve(old(futures), ids[..n], s)
      {
        if ids[n] < |futures| && futures[ids[n]].Waiting? {
          futures := futures[ids[n] := s];
        }
      }
      assert ids[..|ids|] == ids;
    }

    /** The operation returned or raised. */
    method EndOperation(returned: bool)
      requires Valid() && active.Some? && active.value.begun
      modifies `active, `futures
      ensures Valid() && View() == Apply(old(View()), DoEnd(returned)) && active.None?
      ensures forall i :: 0 <= i < |old(futures)| ==>
                futures[i] == if old(futures[i]).Waiting? && i in old(active.value).job.futures
                              then Done(old(active.value).job.op, returned) else old(futures[i])
    {
      StepKeepsInv(View(), DoEnd(returned));
      ResolveEach(active.value.job.futures, Done(active.value.job.op, returned));
      active := None;
    }

    /** The operation, or in a shutdown the worker, was cancelled. */
    method CancelOperation()
      requires Valid() && active.Some? && (closed || active.value.begun)
      modifies `active, `futures
      ensures Valid() && View() == Apply(old(View()), DoCancelOperation) && active.None?
      ensures forall i :: 0 <= i < |old(futures)| ==>
                futures[i] == if old(futures[i]).Waiting? && i in old(active.value).job.futures
                              then Status.Cancelled else old(futures[i])
    {
      StepKeepsInv(View(), DoCancelOperation);
      ResolveEach(active.value.job.futures, Status.Cancelled);
      active := None;
    }

    /** The futures of all queued jobs, in any order of the jobs. */
    method QueuedFutures() returns (ids: seq<nat>)
      ensures forall i :: i in ids <==> i in Queued(queueMap)
    {
      ids := [];
      var todo := queueMap.Keys;
      while todo != {}
        invariant todo <= queueMap.Keys
        invariant forall i :: i in ids <==> exists k :: k in queueMap.Keys - todo && i in queueMap[k].futures
      {
        var key :| key in todo;
        ids := ids + queueMap[key].futures;
        todo := todo - {key};
      }
    }

    /** The end of shutdown: the worker has stopped. */
    method Stop()
      requires Valid() && closed && active.None?
      modifies `running
      ensures Valid() && View() == Apply(old(View()), DoStop) && !running
    {
      StepKeepsInv(View(), DoStop);
      running := false;
    }

    /** The section of shutdown: nothing is queued any more, and no future waits. */
    method ClearQueue()
      requires Valid() && closed
      modifies `queueList, `queueMap, `futures, `fifo
      ensures Valid() && View() == Apply(old(View()), DoClear)
      ensures forall i :: 0 <= i < |futures| ==> !futures[i].Waiting?
      ensures queueList == [] && queueMap == map[]
    {
      ClearResolvesAll(View());
      StepKeepsInv(View(), DoClear);
      var ids := QueuedFutures();
      assert Drop(futures, Queued(queueMap)) == Resolve(futures, ids, Status.Cancelled);
      queueList, queueMap, fifo := [], map[], [];
      ResolveEach(ids, Status.Cancelled);
      ResolveEach(if active.Some? then active.value.job.futures else [], Status.Cancelled);
    }
  }
}
