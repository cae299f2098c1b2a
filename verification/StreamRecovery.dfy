/** The commit boundary of providers/stream_recovery.py: a provider stream may restart unseen until it is committed. */
module StreamRecovery {
  import opened Options

  // --- Bytes ---

  newtype CodePoint = n: int | 0 <= n < 0x11_0000

  type Event = seq<CodePoint>

  /** Bytes of UTF-8; a lone surrogate can not be encoded and is replaced by a question mark. */
  function Width(c: CodePoint): nat {
    if c < 0x80 then 1 else if c < 0x800 then 2 else if 0xD800 <= c < 0xE000 then 1 else if c < 0x1_0000 then 3 else 4
  }

  /** The code points that fit in so many bytes, by RFC 3629, section 3. */
  function Capacity(bytes: nat): int {
    match bytes
    case 0 => 0
    case 1 => 0x80
    case 2 => 0x800
    case 3 => 0x1_0000
    case _ => 0x11_0000
  }

  /** Every code point takes the least number of bytes it fits in, but a surrogate takes one. */
  lemma WidthIsLeast(c: CodePoint)
    ensures 1 <= Width(c) <= 4
    ensures !(0xD800 <= c < 0xE000) ==> Capacity(Width(c) - 1) <= c as int < Capacity(Width(c))
    ensures 0xD800 <= c < 0xE000 ==> Width(c) == 1
  {
  }

  function EventBytes(e: Event): nat { if e == [] then 0 else Width(e[0]) + EventBytes(e[1..]) }

  function TotalBytes(es: seq<Event>): nat {
    if es == [] then 0 else TotalBytes(es[..|es| - 1]) + EventBytes(es[|es| - 1])
  }

  lemma OneMoreEvent(es: seq<Event>, e: Event)
    ensures TotalBytes(es + [e]) == TotalBytes(es) + EventBytes(e)
  {
    assert (es + [e])[..|es|] == es;
  }

  // --- The buffer ---

  const EARLY_HOLDBACK_SECONDS := 0.75
  const RECOVERY_BUFFER_MAX_BYTES := 65_536

  /** What the client has received, what is held back, and since when. */
  datatype Stream = Stream(client: seq<Event>, held: seq<Event>, startedAt: Option<real>, committed: bool)

  function Fresh(): Stream { Stream([], [], None, false) }

  /** The buffer must be released: it is full, or its first event has waited long enough. */
  predicate Due(held: seq<Event>, startedAt: real, now: real) {
    TotalBytes(held) >= RECOVERY_BUFFER_MAX_BYTES || now - startedAt >= EARLY_HOLDBACK_SECONDS
  }

  function Flushed(s: Stream): Stream {
    if s.committed then s else Stream(s.client + s.held, [], None, true)
  }

  /** The clock reads `first` when an empty buffer starts its wait, and `now` when the wait is checked. */
  function Pushed(s: Stream, e: Event, first: real, now: real): Stream {
    if s.committed then s.(client := s.client + [e])
    else
      var startedAt := if s.startedAt.Some? then s.startedAt.value else first;
      var held := s.held + [e];
      if Due(held, startedAt, now) then Flushed(s.(held := held, startedAt := Some(startedAt)))
      else s.(held := held, startedAt := Some(startedAt))
  }

  function Discarded(s: Stream): Stream { s.(held := [], startedAt := None) }

  ghost predicate Inv(s: Stream) {
    && (s.committed ==> s.held == [])
    && (!s.committed ==> s.client == [] && TotalBytes(s.held) < RECOVERY_BUFFER_MAX_BYTES)
    && (s.held == [] <==> s.startedAt.None?)
  }

  class RecoveryHoldbackBuffer {
    var events: seq<Event>
    var bytes: nat
    var startedAt: Option<real>
    var committed: bool
    ghost var released: seq<Event>

    ghost function View(): Stream
      reads this
    {
      Stream(released, events, startedAt, committed)
    }

    ghost predicate Valid()
      reads this
    {
      bytes == TotalBytes(events) && Inv(View())
    }

    constructor ()
      ensures Valid() && View() == Fresh()
    {
      events, bytes, startedAt, committed, released := [], 0, None, false, [];
    }

    method Flush() returns (out: seq<Event>)
      requires bytes == TotalBytes(events)
      modifies this
      ensures bytes == TotalBytes(events) && View() == Flushed(old(View())) && released == old(released) + out
      ensures committed && out == if old(committed) then [] else old(events)
      ensures Inv(old(View())) ==> Valid()
    {
      if committed {
        return [];
      }
      committed := true;
      out := events;
      events, bytes, startedAt := [], 0, None;
      released := released + out;
    }

    method Push(event: Event, first: real, now: real) returns (out: seq<Event>)
      requires Valid()
      modifies this
      ensures Valid() && View() == Pushed(old(View()), event, first, now) && released == old(released) + out
      ensures committed <==> old(committed) || TotalBytes(old(events) + [event]) >= RECOVERY_BUFFER_MAX_BYTES
                             || now - (if old(startedAt).Some? then old(startedAt.value) else first)
                                >= EARLY_HOLDBACK_SECONDS
      ensures out == if committed then old(events) + [event] else []
    {
      ghost var before := View();
      if committed {
        released := released + [event];
        out := [event];
      } else {
        out := Hold(event, first, now);
      }
      ApplyKeepsInv(before, DoPush(event, first, now));
    }

    /** The event joins what is held back, and all of it goes out if it is time. */
    method Hold(event: Event, first: real, now: real) returns (out: seq<Event>)
      requires !committed && bytes == TotalBytes(events)
      modifies this
      ensures bytes == TotalBytes(events)
      ensures View() == Pushed(old(View()), event, first, now) && released == old(released) + out
      ensures committed <==> TotalBytes(old(events) + [event]) >= RECOVERY_BUFFER_MAX_BYTES
                             || now - (if old(startedAt).Some? then old(startedAt.value) else first)
                                >= EARLY_HOLDBACK_SECONDS
      ensures out == if committed then old(events) + [event] else []
    {
      hide TotalBytes, EventBytes, Inv;
      if startedAt.None? {
        startedAt := Some(first);
      }
      OneMoreEvent(events, event);
      events := events + [event];
      bytes := bytes + EventBytes(event);
      out := [];
      if bytes >= RECOVERY_BUFFER_MAX_BYTES || now - startedAt.value >= EARLY_HOLDBACK_SECONDS {
        out := Flush();
      }
    }

    method Discard()
      requires Valid()
      modifies this
      ensures Valid() && View() == Discarded(old(View()))
      ensures events == [] && committed == old(committed) && released == old(released)
    {
      events, bytes, startedAt := [], 0, None;
    }
  }

  // --- Failures ---

  datatype Action = EarlyRetry | MidstreamRecovery | FinalError

  datatype Decision = Decision(action: Action, retryable: bool, committed: bool, hasBuffered: bool)

  /** What advance_failure is told; `retryable` is the override, or the classification of the error. */
  datatype Failure =
    Failure(retryable: bool, streamOpened: bool, generatedOutput: bool, toolSalvageable: bool, attemptsRemaining: int)

  predicate RetriesEarly(f: Failure, committed: bool) {
    && f.retryable && f.attemptsRemaining > 0 && f.streamOpened && !committed && !f.toolSalvageable
    && !(f.generatedOutput && f.attemptsRemaining == 1)
  }

  function Decide(f: Failure, s: Stream): Decision {
    if RetriesEarly(f, s.committed) then Decision(EarlyRetry, true, false, s.held != [])
    else if f.retryable && f.generatedOutput && (f.attemptsRemaining > 0 || f.toolSalvageable) then
      Decision(MidstreamRecovery, true, s.committed, s.held != [])
    else Decision(FinalError, f.retryable, s.committed, s.held != [])
  }

  /**
   What becomes of a failure, whatever the buffer holds: without a retryable error it is final; a committed stream
   is not restarted; and once there is output the last attempt is kept for its recovery, which is chosen exactly
   if there is output, and an attempt or a complete tool call to recover with, and no restart instead.
   */
  lemma FailuresAreDecided(f: Failure, s: Stream)
    ensures var action := Decide(f, s).action; var means := f.attemptsRemaining > 0 || f.toolSalvageable;
            && (!f.retryable ==> action == FinalError)
            && (s.committed ==> action != EarlyRetry)
            && (f.retryable && f.generatedOutput && means ==> action != FinalError)
            && (action == MidstreamRecovery <==> f.retryable && f.generatedOutput && means && action != EarlyRetry)
            && (action == EarlyRetry <==> f.retryable && f.streamOpened && !s.committed && !f.toolSalvageable
                                          && f.attemptsRemaining > if f.generatedOutput then 1 else 0)
    ensures Decide(f, s).retryable == f.retryable && Decide(f, s).committed == s.committed
    ensures Decide(f, s).hasBuffered <==> s.held != []
  {
  }

  class RecoveryController {
    var holdback: RecoveryHoldbackBuffer
    ghost var client: seq<Event>

    ghost predicate Valid()
      reads this, holdback
    {
      holdback.Valid() && client == holdback.released
    }

    constructor ()
      ensures Valid() && fresh(holdback) && holdback.View() == Fresh()
    {
      holdback := new RecoveryHoldbackBuffer();
      client := [];
    }

    method Push(event: Event, first: real, now: real) returns (out: seq<Event>)
      requires Valid()
      modifies this`client, holdback
      ensures Valid() && holdback.View() == Pushed(old(holdback.View()), event, first, now)
      ensures client == old(client) + out
    {
      out := holdback.Push(event, first, now);
      client := client + out;
    }

    method Flush() returns (out: seq<Event>)
      requires Valid()
      modifies this`client, holdback
      ensures Valid() && holdback.View() == Flushed(old(holdback.View())) && client == old(client) + out
      ensures holdback.committed && out == if old(holdback.committed) then [] else old(holdback.events)
    {
      out := holdback.Flush();
      client := client + out;
    }

    method FlushUncommitted(decision: Decision) returns (out: seq<Event>)
      requires Valid()
      modifies this`client, holdback
      ensures Valid() && client == old(client) + out
      ensures holdback.View() == if !decision.committed && decision.hasBuffered
                                 then Flushed(old(holdback.View())) else old(holdback.View())
      ensures out == if !decision.committed && decision.hasBuffered && !old(holdback.committed)
                     then old(holdback.events) else []
    {
      out := [];
      if !decision.committed && decision.hasBuffered {
        out := Flush();
      }
    }

    /** An early retry gets a new buffer, and the client has seen nothing of the attempt it abandons. */
    method AdvanceFailure(f: Failure) returns (decision: Decision)
      requires Valid()
      modifies this`holdback, holdback
      ensures Valid() && decision == Decide(f, old(holdback.View())) && client == old(client)
      ensures decision.action.EarlyRetry? <==>
                && f.retryable && f.attemptsRemaining > 0 && f.streamOpened && !old(holdback.committed)
                && !f.toolSalvageable && !(f.generatedOutput && f.attemptsRemaining == 1)
      ensures decision.action.MidstreamRecovery? <==>
                && f.retryable && f.generatedOutput && (f.attemptsRemaining > 0 || f.toolSalvageable)
                && !decision.action.EarlyRetry?
      ensures decision.retryable == f.retryable && decision.committed == old(holdback.committed)
      ensures decision.hasBuffered <==> old(holdback.events) != []
      ensures decision.action.EarlyRetry? ==> fresh(holdback) && holdback.View() == Fresh() && client == []
      ensures !decision.action.EarlyRetry? ==> holdback == old(holdback) && holdback.View() == old(holdback.View())
    {
      var hasBuffered := holdback.events != [];
      if RetriesEarly(f, holdback.committed) {
        holdback.Discard();
        holdback := new RecoveryHoldbackBuffer();
        decision := Decision(EarlyRetry, true, false, hasBuffered);
      } else if f.retryable && f.generatedOutput && (f.attemptsRemaining > 0 || f.toolSalvageable) {
        decision := Decision(MidstreamRecovery, true, holdback.committed, hasBuffered);
      } else {
        decision := Decision(FinalError, f.retryable, holdback.committed, hasBuffered);
      }
    }
  }

  // --- Whole streams ---

  datatype Act = DoPush(event: Event, first: real, now: real) | DoFlush | DoDiscard | DoFail(failure: Failure)

  function Apply(s: Stream, a: Act): Stream {
    match a
    case DoPush(e, first, now) => Pushed(s, e, first, now)
    case DoFlush => Flushed(s)
    case DoDiscard => Discarded(s)
    case DoFail(f) => if RetriesEarly(f, s.committed) then Stream(s.client, [], None, false) else s
  }

  function Run(s: Stream, acts: seq<Act>): Stream
    decreases |acts|
  {
    if acts == [] then s else Run(Apply(s, acts[0]), acts[1..])
  }

  /**
   What the upstream attempt that survives has produced: its events since the last early retry, except
   those discarded while they were still held back. It does not mention the buffer.
   */
  function Attempt(s: Stream, acts: seq<Act>, soFar: seq<Event>): seq<Event>
    decreases |acts|
  {
    if acts == [] then soFar
    else
      var t := Apply(s, acts[0]);
      match acts[0]
      case DoPush(e, _, _) => Attempt(t, acts[1..], soFar + [e])
      case DoFlush => Attempt(t, acts[1..], soFar)
      case DoDiscard => Attempt(t, acts[1..], if s.committed then soFar else [])
      case DoFail(f) => Attempt(t, acts[1..], if RetriesEarly(f, s.committed) then [] else soFar)
  }

  lemma ApplyKeepsInv(s: Stream, a: Act)
    requires Inv(s)
    ensures Inv(Apply(s, a))
  {
  }

  /** Nothing is lost, repeated or reordered: what the attempt produced is what the client has, then what is held. */
  lemma {:induction false} NothingIsLost(s: Stream, acts: seq<Act>, soFar: seq<Event>)
    requires Inv(s) && soFar == s.client + s.held
    ensures Inv(Run(s, acts))
    ensures Attempt(s, acts, soFar) == Run(s, acts).client + Run(s, acts).held
    decreases |acts|
  {
    if acts != [] {
      var t := Apply(s, acts[0]);
      ApplyKeepsInv(s, acts[0]);
      match acts[0]
      case DoPush(e, _, _) =>
        assert soFar + [e] == t.client + t.held;
        NothingIsLost(t, acts[1..], soFar + [e]);
      case DoFlush => NothingIsLost(t, acts[1..], soFar);
      case DoDiscard => NothingIsLost(t, acts[1..], if s.committed then soFar else []);
      case DoFail(f) => NothingIsLost(t, acts[1..], if RetriesEarly(f, s.committed) then [] else soFar);
    }
  }

  /**
   Early retries are invisible. However many attempts a stream abandons, the client has a prefix of what
   the surviving attempt produced, and nothing at all before the commit; after a flush it has everything.
   */
  lemma EarlyRetriesAreInvisible(acts: seq<Act>)
    ensures var s := Run(Fresh(), acts); var produced := Attempt(Fresh(), acts, []);
            && s.client <= produced
            && (!s.committed ==> s.client == [] && TotalBytes(s.held) < RECOVERY_BUFFER_MAX_BYTES)
            && (s.committed ==> s.client == produced)
            && Flushed(s).client == produced
  {
    NothingIsLost(Fresh(), acts, []);
  }

  /** No event is held back once its buffer is full or its first event has waited long enough. */
  lemma HeldBackBriefly(s: Stream, e: Event, first: real, now: real)
    requires Inv(s)
    ensures var t := Pushed(s, e, first, now); var since := if s.startedAt.Some? then s.startedAt.value else first;
            && (t.committed <==> s.committed || TotalBytes(s.held + [e]) >= 65_536 || now - since >= 0.75)
            && (!t.committed ==> t.held == s.held + [e] && t.startedAt == Some(since) && t.client == s.client)
            && (t.committed ==> t.client == s.client + s.held + [e] && t.held == [])
  {
  }

  /**
   Over any continuation: after a commit, a retryable failure with output is recovered in midstream as long as an
   attempt is left, without anything the client has seen being taken back.
   */
  lemma CommittedOutputIsRecovered(acts: seq<Act>, more: seq<Act>, f: Failure)
    requires Run(Fresh(), acts).committed
    requires f.retryable && f.generatedOutput && (f.attemptsRemaining > 0 || f.toolSalvageable)
    ensures var s := Run(Run(Fresh(), acts), more);
            && Decide(f, s).action == MidstreamRecovery
            && Apply(s, DoFail(f)) == s && Run(Fresh(), acts).client <= s.client
  {
    NothingIsLost(Fresh(), acts, []);
    CommitIsFinal(Run(Fresh(), acts), more);
  }

  /** The commit is final: from then on no failure restarts the stream, and each event goes out at once. */
  lemma {:induction false} CommitIsFinal(s: Stream, acts: seq<Act>)
    requires Inv(s) && s.committed
    ensures Run(s, acts).committed && s.client <= Run(s, acts).client && Run(s, acts).held == []
    decreases |acts|
  {
    if acts != [] {
      ApplyKeepsInv(s, acts[0]);
      CommitIsFinal(Apply(s, acts[0]), acts[1..]);
    }
  }
}
