/**
 The protocol of messaging/voice.py as a transition system. A step is the code between two awaits,
 or one section of the registry's lock. Waits are kept until the operation that waits has ended,
 although the callback it waits for may be done before: that only adds edges to the wait-for graph.
 */
module VoiceModel {
  import opened MessageScopes
  import opened Options

  datatype PendingVoiceClaim = PendingVoiceClaim(scope: MessageScope, voiceMessageId: string, claimId: string)

  type Claim = PendingVoiceClaim

  datatype Key = Key(scope: MessageScope, id: string)

  /** The fields of one _PendingVoice; the claim identifies the object. */
  datatype Entry = Entry(status: Option<string>, handoff: bool)

  /** A cancel in progress: the claim whose callback makes it, if any, and the claims whose callbacks it awaits. */
  datatype Op = Op(source: Option<Claim>, targets: set<Claim>)

  /** `entries` has every entry ever made, `pending` finds the live ones by voice and by status message. */
  datatype State = State(entries: map<Claim, Entry>, pending: map<Key, Claim>, active: map<Claim, nat>,
                         ops: map<nat, Op>)

  function VoiceKey(c: Claim): Key { Key(c.scope, c.voiceMessageId) }

  function StatusKey(c: Claim, status: string): Key { Key(c.scope, status) }

  predicate Finds(pending: map<Key, Claim>, k: Key, c: Claim) { k in pending && pending[k] == c }

  /** _entry_for_claim finds the entry. */
  predicate Live(st: State, c: Claim) { Finds(st.pending, VoiceKey(c), c) && c in st.entries }

  function Init(): State { State(map[], map[], map[], map[]) }

  // --- Reservation and handoff ---

  function Reserve(st: State, c: Claim): (State, bool) {
    if VoiceKey(c) in st.pending then (st, false)
    else (st.(pending := st.pending[VoiceKey(c) := c], entries := st.entries[c := Entry(None, false)]), true)
  }

  function BindStatus(st: State, c: Claim, status: string): (State, bool) {
    if !Live(st, c) then (st, false)
    else if st.entries[c].status.Some? then (st, st.entries[c].status == Some(status))
    else
      var k := StatusKey(c, status);
      if k in st.pending && st.pending[k] != c then (st, false)
      else
        var x := st.entries[c].(status := Some(status));
        (st.(entries := st.entries[c := x], pending := st.pending[k := c]), true)
  }

  /** The first section of handoff: false is REJECTED. */
  function Handoff(st: State, c: Claim): (State, bool) {
    if !Live(st, c) || st.entries[c].status.None? || st.entries[c].handoff then (st, false)
    else (st.(entries := st.entries[c := st.entries[c].(handoff := true)]), true)
  }

  /** _remove: drops the entry's keys, but never those of another entry. */
  function Remove(st: State, c: Claim): State
    requires c in st.entries
  {
    st.(pending := WithoutStatus(Without(st.pending, VoiceKey(c), c), c, st.entries[c].status))
  }

  function Without(pending: map<Key, Claim>, k: Key, c: Claim): map<Key, Claim> {
    if Finds(pending, k, c) then pending - {k} else pending
  }

  function WithoutStatus(pending: map<Key, Claim>, c: Claim, status: Option<string>): map<Key, Claim> {
    match status
    case None => pending
    case Some(s) => Without(pending, StatusKey(c, s), c)
  }

  /** _complete_if_owned, and discard up to its wait. */
  function Obtain(st: State, c: Claim): (State, bool) {
    if Live(st, c) then (Remove(st, c), true) else (st, false)
  }

  // --- Cancellation ---

  function Active(active: map<Claim, nat>, c: Claim): nat { if c in active then active[c] else 0 }

  function Protect(active: map<Claim, nat>, source: Option<Claim>): map<Claim, nat> {
    match source
    case None => active
    case Some(c) => active[c := Active(active, c) + 1]
  }

  function Unprotect(active: map<Claim, nat>, source: Option<Claim>): map<Claim, nat> {
    match source
    case None => active
    case Some(c) => if Active(active, c) <= 1 then active - {c} else active[c := active[c] - 1]
  }

  function BeginCancel(st: State, op: nat, source: Option<Claim>): State {
    st.(active := Protect(st.active, source), ops := st.ops[op := Op(source, {})])
  }

  predicate Excluded(st: State, c: Claim, source: Option<Claim>) {
    source == Some(c) || Active(st.active, c) > 0
  }

  /** The section of cancel: nothing is found, or the entry of the reply is removed and awaited. */
  function CancelOne(st: State, op: nat, k: Key): (State, Option<Claim>)
    requires op in st.ops
    requires k in st.pending ==> st.pending[k] in st.entries
  {
    if k !in st.pending || Excluded(st, st.pending[k], st.ops[op].source) then (st, None)
    else
      var c := st.pending[k];
      (Remove(st, c).(ops := st.ops[op := st.ops[op].(targets := st.ops[op].targets + {c})]), Some(c))
  }

  /** What cancel_scope cancels, or cancel_all if no scope is given. */
  function Matching(st: State, op: nat, scope: Option<MessageScope>): set<Claim>
    requires op in st.ops
  {
    set k | k in st.pending && (scope.None? || scope.value == k.scope)
            && !Excluded(st, st.pending[k], st.ops[op].source) :: st.pending[k]
  }

  /** Removing a set of entries in any order. */
  function RemoveAll(pending: map<Key, Claim>, cs: set<Claim>): map<Key, Claim> {
    map k | k in pending && pending[k] !in cs :: pending[k]
  }

  function CancelScope(st: State, op: nat, scope: Option<MessageScope>): State
    requires op in st.ops
  {
    var cs := Matching(st, op, scope);
    st.(pending := RemoveAll(st.pending, cs), ops := st.ops[op := st.ops[op].(targets := st.ops[op].targets + cs)])
  }

  /** The finally block of a cancel, however it ends. */
  function EndCancel(st: State, op: nat): State
    requires op in st.ops
  {
    st.(active := Unprotect(st.active, st.ops[op].source), ops := st.ops - {op})
  }

  // --- Runs ---

  datatype Step =
    | DoReserve(c: Claim)
    | DoBindStatus(c: Claim, status: string)
    | DoHandoff(c: Claim)
    | DoComplete(c: Claim)
    | DoDiscard(c: Claim)
    | DoBeginCancel(op: nat, source: Option<Claim>)
    | DoCancelOne(op: nat, k: Key)
    | DoCancelScope(op: nat, scope: Option<MessageScope>)
    | DoEndCancel(op: nat)

  /** A claim's id is new; a cancel acts once; a callback cancels only after its handoff began. */
  predicate Enabled(st: State, a: Step) {
    match a
    case DoReserve(c) => c !in st.entries
    case DoComplete(c) => c in st.entries && st.entries[c].handoff
    case DoBeginCancel(op, source) =>
      op !in st.ops && (source.Some? ==> source.value in st.entries && st.entries[source.value].handoff)
    case DoCancelOne(op, k) =>
      op in st.ops && st.ops[op].targets == {} && (k in st.pending ==> st.pending[k] in st.entries)
    case DoCancelScope(op, _) => op in st.ops && st.ops[op].targets == {}
    case DoEndCancel(op) => op in st.ops
    case _ => true
  }

  function Apply(st: State, a: Step): State
    requires Enabled(st, a)
  {
    match a
    case DoReserve(c) => Reserve(st, c).0
    case DoBindStatus(c, status) => BindStatus(st, c, status).0
    case DoHandoff(c) => Handoff(st, c).0
    case DoComplete(c) => Obtain(st, c).0
    case DoDiscard(c) => Obtain(st, c).0
    case DoBeginCancel(op, source) => BeginCancel(st, op, source)
    case DoCancelOne(op, k) => CancelOne(st, op, k).0
    case DoCancelScope(op, scope) => CancelScope(st, op, scope)
    case DoEndCancel(op) => EndCancel(st, op)
  }

  /** The step obtains the claim: it ends the claim's ownership, and reports success. */
  predicate Obtains(st: State, a: Step, c: Claim)
    requires Enabled(st, a)
  {
    match a
    case DoComplete(d) => d == c && Obtain(st, d).1
    case DoDiscard(d) => d == c && Obtain(st, d).1
    case DoCancelOne(op, k) => CancelOne(st, op, k).1 == Some(c)
    case DoCancelScope(op, scope) => c in Matching(st, op, scope)
    case _ => false
  }

  predicate Runnable(st: State, run: seq<Step>)
    decreases |run|
  {
    run == [] || (Enabled(st, run[0]) && Runnable(Apply(st, run[0]), run[1..]))
  }

  function Run(st: State, run: seq<Step>): State
    requires Runnable(st, run)
    decreases |run|
  {
    if run == [] then st else Run(Apply(st, run[0]), run[1..])
  }

  /** Runs grow at their end. */
  lemma {:induction false} RunGrows(st: State, run: seq<Step>, a: Step)
    requires Runnable(st, run) && Enabled(Run(st, run), a)
    ensures Runnable(st, run + [a]) && Run(st, run + [a]) == Apply(Run(st, run), a)
    decreases |run|
  {
    if run == [] {
      assert [a][1..] == [];
      assert run + [a] == [a];
    } else {
      assert (run + [a])[1..] == run[1..] + [a];
      RunGrows(Apply(st, run[0]), run[1..], a);
    }
  }
}
