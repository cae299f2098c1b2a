/**
 How one API request holds its generation lease: api/routes.py and api/response_streams.py.
 A step is the code between two awaits. What the environment decides is a parameter: whether the
 handler raises, which kind of response it returns, how often and when the response is closed,
 and how the body takes being closed.
 */
module ResponseLifetime {
  import opened Options

  /** An idempotent lease; `countdowns` is how often it counted its generation's users down. */
  class RuntimeLease {
    var released: bool
    ghost var countdowns: nat

    ghost predicate Valid()
      reads this
    {
      countdowns == if released then 1 else 0
    }

    constructor ()
      ensures Valid() && !released
    {
      released, countdowns := false, 0;
    }

    method Release()
      requires Valid()
      modifies this
      ensures Valid() && released
    {
      if !released {
        released := true;
        countdowns := countdowns + 1;
      }
    }
  }

  /** How `aclose` of a body ends. Only an Exception is swallowed; a cancellation, say, escapes. */
  datatype BodyClose = Closes | Raises | Escapes

  datatype Cleanup = NotStarted | Running | Finished

  /** What the cleanup does, in order. */
  datatype Action = BodyEnded(how: BodyClose) | LeaseReleased

  datatype Life = Life(bound: bool, cleanup: Cleanup, released: bool)

  // --- ManagedStreamingResponse ---

  class ManagedStreamingResponse {
    var release: RuntimeLease?
    var cleanup: Cleanup
    ghost var done: seq<Action>

    ghost predicate Valid()
      reads this, release
    {
      release != null ==> release.Valid()
    }

    ghost function View(): Life
      reads this, release
    {
      Life(release != null, cleanup, release != null && release.released)
    }

    constructor ()
      ensures Valid() && View() == Life(false, NotStarted, false)
    {
      release, cleanup, done := null, NotStarted, [];
    }

    /** Raises if a release is already bound, or the cleanup has started. */
    method BindRelease(lease: RuntimeLease) returns (raised: bool)
      requires Valid() && lease.Valid()
      modifies this`release
      ensures Valid() && (raised <==> old(release) != null || !cleanup.NotStarted?)
      ensures release == if raised then old(release) else lease
    {
      raised := release != null || !cleanup.NotStarted?;
      if !raised {
        release := lease;
      }
    }

    /** `_close`, called by `aclose` and at the end of every ASGI call: all callers share one cleanup task. */
    method Close()
      requires Valid()
      modifies this`cleanup
      ensures Valid() && View() == Step(old(View()), DoClose)
    {
      if cleanup.NotStarted? {
        cleanup := Running;
      }
    }

    /** `_cleanup`: closes the body and, when that is over, releases. */
    method RunCleanup(body: BodyClose)
      requires Valid() && cleanup.Running?
      modifies this`cleanup, this`done, release
      ensures Valid() && View() == Step(old(View()), DoCleanup(body))
      ensures done == old(done) + [BodyEnded(body)] + if release != null && !body.Escapes? then [LeaseReleased] else []
    {
      cleanup, done := Finished, done + [BodyEnded(body)];
      if body.Escapes? {
        return;
      }
      if release != null {
        release.Release();
        done := done + [LeaseReleased];
      }
    }
  }

  datatype Event = DoClose | DoCleanup(body: BodyClose)

  function Step(x: Life, e: Event): Life {
    match e
    case DoClose => if x.cleanup.NotStarted? then x.(cleanup := Running) else x
    case DoCleanup(body) =>
      if !x.cleanup.Running? then x
      else Life(x.bound, Finished, x.released || (x.bound && !body.Escapes?))
  }

  function Run(x: Life, run: seq<Event>): Life
    decreases |run|
  {
    if run == [] then x else Run(Step(x, run[0]), run[1..])
  }

  /** How the body took being closed, in the one cleanup of the run. */
  function FirstCleanup(run: seq<Event>, started: bool): Option<BodyClose>
    decreases |run|
  {
    if run == [] then None
    else match run[0]
         case DoClose => FirstCleanup(run[1..], true)
         case DoCleanup(body) => if started then Some(body) else FirstCleanup(run[1..], false)
  }

  lemma {:induction false} RunShape(x: Life, run: seq<Event>)
    requires !x.cleanup.Finished?
    ensures var y := Run(x, run); var c := FirstCleanup(run, x.cleanup.Running?);
            && y.bound == x.bound
            && (y.cleanup.Finished? <==> c.Some?)
            && (y.released <==> x.released || (x.bound && c.Some? && c != Some(Escapes)))
    decreases |run|
  {
    if run != [] {
      var y := Step(x, run[0]);
      if y.cleanup.Finished? {
        FinishedIsFinal(y, run[1..]);
      } else {
        RunShape(y, run[1..]);
      }
    }
  }

  lemma {:induction false} FinishedIsFinal(x: Life, run: seq<Event>)
    requires x.cleanup.Finished?
    ensures Run(x, run) == x
    decreases |run|
  {
    if run != [] {
      FinishedIsFinal(x, run[1..]);
    }
  }

  /**
   However often a response is closed, and whatever else is called meanwhile: there is one cleanup,
   and when it has finished the lease is released unless the body's close let something escape.
   */
  lemma CleanupReleasesUnlessEscaped(run: seq<Event>)
    requires Run(Life(true, NotStarted, false), run).cleanup.Finished?
    ensures FirstCleanup(run, false).Some?
    ensures Run(Life(true, NotStarted, false), run).released <==> FirstCleanup(run, false) != Some(Escapes)
  {
    RunShape(Life(true, NotStarted, false), run);
  }

  // --- The routes ---

  /** What the handler returns. */
  datatype Response =
    | Managed(response: ManagedStreamingResponse)
    | Unmanaged(body: BodyClose)     // a StreamingResponse of another class
    | Plain

  datatype Created = ApplicationError | OtherError | Created(response: Response)

  datatype Reply = ErrorResponse | Reraised | Rejected | Answered(response: Response)

  /** bind_response_lifetime */
  method BindResponseLifetime(response: Response, lease: RuntimeLease) returns (reply: Reply)
    requires lease.Valid() && !lease.released
    requires response.Managed? ==> response.response.Valid() && response.response.release != lease
    modifies lease, if response.Managed? then {response.response} else {}
    ensures lease.Valid()
    ensures response.Plain? ==> reply == Answered(response) && lease.released
    ensures response.Unmanaged? ==> reply == Rejected && lease.released
    ensures response.Managed? ==> !lease.released && response.response.Valid()
    ensures response.Managed? ==> response.response.cleanup == old(response.response.cleanup)
    ensures response.Managed? ==>
              && (reply == Answered(response) <==> old(response.response.View()) == Life(false, NotStarted, false))
              && (reply == Answered(response) ==> response.response.release == lease)
              && (reply != Answered(response) ==>
                    reply == Rejected && response.response.release == old(response.response.release))
  {
    match response
    case Managed(r) =>
      var raised := r.BindRelease(lease);
      reply := if raised then Rejected else Answered(response);
    case Unmanaged(body) =>
      // the body is closed and whatever that raises, the finally block releases
      lease.Release();
      reply := Rejected;
    case Plain =>
      lease.Release();
      reply := Answered(response);
  }

  /**
   _create_messages_response and _create_responses_response, from the acquired lease on. When the
   route ends, the lease was released, or is bound to the response it returns, unless the handler
   returned a response that was already bound or already closing.
   */
  method CreateResponse(lease: RuntimeLease, created: Created) returns (reply: Reply)
    requires lease.Valid() && !lease.released
    requires created.Created? && created.response.Managed? ==>
               created.response.response.Valid() && created.response.response.release != lease
    modifies lease, if created.Created? && created.response.Managed? then {created.response.response} else {}
    ensures lease.Valid()
    ensures created.ApplicationError? ==> reply == ErrorResponse && lease.released
    ensures created.OtherError? ==> reply == Reraised && lease.released
    ensures reply.Answered? ==> created == Created(reply.response)
    ensures lease.released <==> !(created.Created? && created.response.Managed?)
    ensures created.Created? && created.response.Managed? ==>
              var r := created.response.response;
              && (r.release == lease <==> old(r.View()) == Life(false, NotStarted, false))
              && (r.release == lease ==>
                    reply == Answered(created.response) && r.View() == Life(true, NotStarted, false))
              && (r.release != lease ==> reply == Rejected && r.release == old(r.release))
              && r.cleanup == old(r.cleanup)
  {
    match created
    case ApplicationError =>
      lease.Release();
      reply := ErrorResponse;
    case OtherError =>
      lease.Release();
      reply := Reraised;
    case Created(response) =>
      reply := BindResponseLifetime(response, lease);
  }

  /**
   A request from its lease to the end of its response: the events are what the server does with a
   response it was given. The lease is released exactly if the handler raised or returned no managed
   response, or returned a fresh one whose cleanup has run without an escape.
   */
  method ServeRequest(lease: RuntimeLease, created: Created, events: seq<Event>)
    requires lease.Valid() && !lease.released
    requires created.Created? && created.response.Managed? ==>
               var r := created.response.response; r.Valid() && r.release == null && r.cleanup.NotStarted?
    modifies lease, if created.Created? && created.response.Managed? then {created.response.response} else {}
    ensures lease.countdowns == if lease.released then 1 else 0
    ensures lease.released <==>
              (created.Created? && created.response.Managed?
               ==> FirstCleanup(events, false).Some? && FirstCleanup(events, false) != Some(Escapes))
  {
    var reply := CreateResponse(lease, created);
    if reply.Answered? && reply.response.Managed? {
      var response := reply.response.response;
      RunShape(Life(true, NotStarted, false), events);
      assert events[0..] == events;
      for i := 0 to |events|
        invariant response.Valid() && response.release == lease
        invariant Run(response.View(), events[i..]) == Run(Life(true, NotStarted, false), events)
      {
        assert events[i..][1..] == events[i + 1..];
        match events[i]
        case DoClose => response.Close();
        case DoCleanup(body) => if response.cleanup.Running? { response.RunCleanup(body); }
      }
    }
  }

  /** The exception: a response that is already bound keeps its release, and the new lease is never released. */
  method BoundTwice() returns (first: RuntimeLease, second: RuntimeLease)
    ensures first.released && !second.released
  {
    first := new RuntimeLease();
    second := new RuntimeLease();
    var response := new ManagedStreamingResponse();
    var reply := CreateResponse(first, Created(Managed(response)));
    reply := CreateResponse(second, Created(Managed(response)));
    response.Close();
    response.RunCleanup(Closes);
  }

  /** The other one: a cancellation escapes from closing the body, and the lease is never released. */
  method EscapingBody() returns (lease: RuntimeLease)
    ensures !lease.released
  {
    lease := new RuntimeLease();
    var response := new ManagedStreamingResponse();
    var reply := CreateResponse(lease, Created(Managed(response)));
    response.Close();
    response.RunCleanup(Escapes);
  }

  // --- _PrefetchedStream ---

  /** What one `anext` gives: a chunk, the end, an exception, or a cancellation. */
  datatype Pull = Chunk(text: string) | End | Failure(error: string) | Interrupted

  /** The stream that replays one prefetched chunk before the rest of its body. */
  class PrefetchedStream {
    const terminalFrame: Option<string -> string>
    var firstChunk: Option<string>
    var done: bool
    var closed: bool

    constructor (firstChunk: string, terminalFrame: Option<string -> string>)
      ensures this.firstChunk == Some(firstChunk) && this.terminalFrame == terminalFrame && !done && !closed
    {
      this.firstChunk, this.terminalFrame, done, closed := Some(firstChunk), terminalFrame, false, false;
    }

    /** `__anext__`; `pull` is what the body gives if it is asked, and `asked` says whether it was. */
    method Next(pull: Pull) returns (out: Pull, asked: bool)
      modifies `firstChunk, `done
      ensures asked <==> !closed && !old(done) && old(firstChunk).None?
      ensures closed || old(done) ==> out == End && firstChunk == old(firstChunk) && done == old(done)
      ensures !asked && !closed && !old(done) ==> out == Chunk(old(firstChunk).value) && firstChunk.None? && !done
      ensures asked ==> out == Shown(pull, terminalFrame) && firstChunk.None? && (done <==> Ends(pull, terminalFrame))
      ensures asked && pull.Failure? && terminalFrame.Some? ==> out == Chunk(terminalFrame.value(pull.error)) && done
      ensures asked && (!pull.Failure? || terminalFrame.None?) ==> out == pull && (done <==> pull.End?)
    {
      asked := false;
      if closed || done {
        return End, false;
      }
      if firstChunk.Some? {
        out := Chunk(firstChunk.value);
        firstChunk := None;
        return;
      }
      asked, out := true, pull;
      match pull
      case Chunk(_) =>
      case Interrupted =>
      case End => done := true;
      case Failure(error) =>
        if terminalFrame.Some? {
          done := true;
          out := Chunk(terminalFrame.value(error));
        }
    }

    method Close()
      modifies `closed, `done
      ensures closed && done
    {
      closed, done := true, true;
    }

    /** The client reads to the end: `body` is what successive pulls give. */
    method ReadAll(body: seq<Pull>) returns (texts: seq<string>, ending: Pull, pulls: nat)
      requires firstChunk.Some? && !done && !closed
      requires |body| > 0 && !body[|body| - 1].Chunk?
      modifies `firstChunk, `done
      ensures texts == [old(firstChunk.value)] + Rest(body, terminalFrame).0
      ensures ending == Rest(body, terminalFrame).1 && !ending.Chunk?
      ensures pulls <= |body| && forall i :: 0 <= i < pulls - 1 ==> body[i].Chunk?
    {
      ghost var first := firstChunk.value;
      var out, asked := Next(body[0]);
      texts, pulls := [out.text], 0;
      assert body[0..] == body && [first] + Rest(body, terminalFrame).0 == texts + Rest(body, terminalFrame).0;
      while true
        invariant pulls < |body| && firstChunk.None? && !done && !closed
        invariant forall i :: 0 <= i < pulls ==> body[i].Chunk?
        invariant texts + Rest(body[pulls..], terminalFrame).0 == [first] + Rest(body, terminalFrame).0
        invariant Rest(body[pulls..], terminalFrame).1 == Rest(body, terminalFrame).1
        decreases |body| - pulls
      {
        assert body[pulls..][1..] == body[pulls + 1..];
        var pull := body[pulls];
        out, asked := Next(pull);
        pulls := pulls + 1;
        if !out.Chunk? {
          return texts, out, pulls;
        }
        texts := texts + [out.text];
        if done {
          // the terminal frame was the last: the next read ends, without asking the body
          out, asked := Next(End);
          return texts, out, pulls;
        }
      }
    }
  }

  /** A failure of the body becomes the terminal frame, if the wire format has one. */
  function Shown(pull: Pull, terminalFrame: Option<string -> string>): Pull {
    if pull.Failure? && terminalFrame.Some? then Chunk(terminalFrame.value(pull.error)) else pull
  }

  predicate Ends(pull: Pull, terminalFrame: Option<string -> string>) {
    pull.End? || (pull.Failure? && terminalFrame.Some?)
  }

  /** What the client gets of the body: its chunks, then at most one terminal frame, and how it ends. */
  function Rest(body: seq<Pull>, terminalFrame: Option<string -> string>): (seq<string>, Pull)
  {
    if body == [] then ([], End)
    else match body[0]
         case Chunk(text) =>
           var rest := Rest(body[1..], terminalFrame);
           ([text] + rest.0, rest.1)
         case Failure(error) => if terminalFrame.Some? then ([terminalFrame.value(error)], End) else ([], body[0])
         case _ => ([], body[0])
  }

  function Chunks(texts: seq<string>): seq<Pull> { seq(|texts|, i requires 0 <= i < |texts| => Chunk(texts[i])) }

  /** The client gets all chunks; then a failure is shown in the terminal frame if there is one, and raised if not. */
  lemma {:induction false} RestIs(texts: seq<string>, last: Pull, terminalFrame: Option<string -> string>)
    requires !last.Chunk?
    ensures Rest(Chunks(texts) + [last], terminalFrame)
            == match last
               case Failure(error) =>
                 if terminalFrame.Some? then (texts + [terminalFrame.value(error)], End) else (texts, last)
               case _ => (texts, last)
    decreases |texts|
  {
    var body := Chunks(texts) + [last];
    if texts == [] {
      assert body == [last] && body[0] == last;
      assert texts == [];
      if last.Failure? && terminalFrame.Some? {
        var frame := terminalFrame.value(last.error);
        assert texts + [frame] == [frame];
      }
    } else {
      assert body[1..] == Chunks(texts[1..]) + [last];
      RestIs(texts[1..], last, terminalFrame);
      assert [texts[0]] + texts[1..] == texts;
      if last.Failure? && terminalFrame.Some? {
        var frame := terminalFrame.value(last.error);
        assert [texts[0]] + (texts[1..] + [frame]) == texts + [frame];
      }
    }
  }
}
