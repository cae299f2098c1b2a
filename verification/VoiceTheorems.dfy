/** The voice index, the ownership of claims, and the wait-for graph, over every run. */
module VoiceTheorems {
  import opened MessageScopes
  import opened Options
  import opened VoiceModel

  // --- The index ---

  predicate StatusOf(st: State, k: Key, c: Claim)
    requires c in st.entries
  {
    st.entries[c].status.Some? && k == StatusKey(c, st.entries[c].status.value)
  }

  /** A key finds an entry it belongs to, and that entry is found under its voice key too. */
  predicate KeyOk(st: State, k: Key)
    requires k in st.pending
  {
    var c := st.pending[k];
    && c in st.entries
    && (k == VoiceKey(c) || StatusOf(st, k, c))
    && Finds(st.pending, VoiceKey(c), c)
  }

  /** A live entry with a bound status is found under it. */
  predicate EntryOk(st: State, c: Claim)
    requires c in st.entries
  {
    Live(st, c) && st.entries[c].status.Some? ==> Finds(st.pending, StatusKey(c, st.entries[c].status.value), c)
  }

  ghost predicate IndexOk(st: State) {
    (forall k :: k in st.pending ==> KeyOk(st, k)) && (forall c :: c in st.entries ==> EntryOk(st, c))
  }

  lemma ReserveKeepsIndex(st: State, c: Claim)
    requires IndexOk(st) && c !in st.entries
    ensures IndexOk(Reserve(st, c).0)
  {
    var t := Reserve(st, c).0;
    forall k | k in t.pending ensures KeyOk(t, k) { if k in st.pending { assert KeyOk(st, k); } }
    forall d | d in t.entries ensures EntryOk(t, d) {
      if d in st.entries && Live(t, d) { assert EntryOk(st, d); }
    }
  }

  lemma BindStatusKeepsIndex(st: State, c: Claim, status: string)
    requires IndexOk(st)
    ensures IndexOk(BindStatus(st, c, status).0)
  {
    var t := BindStatus(st, c, status).0;
    forall k | k in t.pending ensures KeyOk(t, k) { if k in st.pending { assert KeyOk(st, k); } }
    forall d | d in t.entries ensures EntryOk(t, d) {
      assert EntryOk(st, d);
    }
  }

  lemma HandoffKeepsIndex(st: State, c: Claim)
    requires IndexOk(st)
    ensures IndexOk(Handoff(st, c).0)
  {
    var t := Handoff(st, c).0;
    forall k | k in t.pending ensures KeyOk(t, k) { assert KeyOk(st, k); }
    forall d | d in t.entries ensures EntryOk(t, d) { assert EntryOk(st, d); }
  }

  lemma RemovesItsKeys(st: State, c: Claim, k: Key)
    requires IndexOk(st) && Live(st, c) && k in st.pending
    ensures k in Remove(st, c).pending <==> st.pending[k] != c
  {
    assert EntryOk(st, c) && KeyOk(st, k);
  }

  /** Removing an entry's own keys removes exactly the keys that find it. */
  lemma RemoveIsExact(st: State, c: Claim)
    requires IndexOk(st) && Live(st, c)
    ensures Remove(st, c).pending == RemoveAll(st.pending, {c})
  {
    hide IndexOk;
    forall k ensures k in Remove(st, c).pending <==> k in st.pending && st.pending[k] != c {
      if k in st.pending { RemovesItsKeys(st, c, k); }
    }
  }

  lemma RemoveAllKeepsIndex(st: State, cs: set<Claim>)
    requires IndexOk(st)
    ensures IndexOk(st.(pending := RemoveAll(st.pending, cs)))
  {
    var t := st.(pending := RemoveAll(st.pending, cs));
    forall k | k in t.pending ensures KeyOk(t, k) { assert KeyOk(st, k); }
    forall d | d in t.entries ensures EntryOk(t, d) { assert EntryOk(st, d); }
  }

  lemma IndexIgnoresOps(st: State, t: State)
    requires IndexOk(st) && t.entries == st.entries && t.pending == st.pending
    ensures IndexOk(t)
  {
    forall k | k in t.pending ensures KeyOk(t, k) { assert KeyOk(st, k); }
    forall d | d in t.entries ensures EntryOk(t, d) { assert EntryOk(st, d); }
  }

  lemma StepKeepsIndex(st: State, a: Step)
    requires IndexOk(st) && Enabled(st, a)
    ensures IndexOk(Apply(st, a))
  {
    match a
    case DoReserve(c) => ReserveKeepsIndex(st, c);
    case DoBindStatus(c, status) => BindStatusKeepsIndex(st, c, status);
    case DoHandoff(c) => HandoffKeepsIndex(st, c);
    case DoComplete(c) => if Live(st, c) { RemoveIsExact(st, c); RemoveAllKeepsIndex(st, {c}); }
    case DoDiscard(c) => if Live(st, c) { RemoveIsExact(st, c); RemoveAllKeepsIndex(st, {c}); }
    case DoBeginCancel(_, _) => IndexIgnoresOps(st, Apply(st, a));
    case DoCancelOne(op, k) =>
      if k in st.pending {
        assert KeyOk(st, k);
        RemoveIsExact(st, st.pending[k]);
        RemoveAllKeepsIndex(st, {st.pending[k]});
        IndexIgnoresOps(if CancelOne(st, op, k).1.None? then st else Remove(st, st.pending[k]), Apply(st, a));
      }
    case DoCancelScope(op, scope) =>
      RemoveAllKeepsIndex(st, Matching(st, op, scope));
      IndexIgnoresOps(st.(pending := Apply(st, a).pending), Apply(st, a));
    case DoEndCancel(_) => IndexIgnoresOps(st, Apply(st, a));
  }

  /** No operation gives the key of one entry to another. */
  lemma KeysAreNotTakenOver(st: State, a: Step, k: Key)
    requires Enabled(st, a) && k in st.pending && k in Apply(st, a).pending
    ensures Apply(st, a).pending[k] == st.pending[k]
  {
  }

  // --- Ownership ---

  /** A claim leaves, with all of its keys, exactly if the step obtains it: a completion, discard or cancel. */
  lemma ObtainingEndsOwnership(st: State, a: Step, c: Claim)
    requires IndexOk(st) && Enabled(st, a)
    ensures Obtains(st, a, c) ==> Live(st, c) && c !in Apply(st, a).pending.Values
    ensures Live(st, c) && !Obtains(st, a, c) ==> Live(Apply(st, a), c)
  {
    match a
    case DoComplete(d) => if Live(st, d) { RemoveIsExact(st, d); }
    case DoDiscard(d) => if Live(st, d) { RemoveIsExact(st, d); }
    case DoCancelOne(op, k) => if k in st.pending { assert KeyOk(st, k); RemoveIsExact(st, st.pending[k]); }
    case DoCancelScope(op, scope) =>
      forall k | k in st.pending ensures KeyOk(st, k) {}
      if Live(st, c) { assert VoiceKey(c) in st.pending; }
    case _ =>
  }

  // --- What the owner of a claim may do ---

  /** A reservation succeeds exactly if no voice or status message has the key; the claim is then live and unbound. */
  lemma ReservationOutcome(st: State, c: Claim)
    requires IndexOk(st) && Enabled(st, DoReserve(c))
    ensures var st' := Apply(st, DoReserve(c)); var free := forall d :: !Finds(st.pending, VoiceKey(c), d);
            && (Live(st', c) <==> free)
            && (free ==> st'.entries[c].status.None? && !st'.entries[c].handoff)
            && (!free ==> st' == st)
            && forall d :: d != c ==> (Live(st', d) <==> Live(st, d))
    ensures VoiceModel.Reserve(st, c).1 <==> Live(Apply(st, DoReserve(c)), c)
  {
    if VoiceKey(c) in st.pending {
      assert Finds(st.pending, VoiceKey(c), st.pending[VoiceKey(c)]) && KeyOk(st, VoiceKey(c));
    }
  }

  /** A live claim gets its status message if it has none and no other claim has that key; it keeps the one it has. */
  lemma BindingOutcome(st: State, c: Claim, status: string)
    requires IndexOk(st)
    ensures var (st', bound) := VoiceModel.BindStatus(st, c, status);
            var free := forall d :: Finds(st.pending, StatusKey(c, status), d) ==> d == c;
            && (bound <==> Live(st, c)
                           && (st.entries[c].status == Some(status) || (st.entries[c].status.None? && free)))
            && (bound ==> Live(st', c) && st'.entries[c] == Entry(Some(status), st.entries[c].handoff)
                          && Finds(st'.pending, StatusKey(c, status), c))
            && (!bound ==> st' == st)
    ensures Apply(st, DoBindStatus(c, status)) == VoiceModel.BindStatus(st, c, status).0
  {
    if Live(st, c) { assert EntryOk(st, c); }
    if StatusKey(c, status) in st.pending {
      assert Finds(st.pending, StatusKey(c, status), st.pending[StatusKey(c, status)]);
    }
  }

  /** A handoff starts exactly once, for a live claim with a status message; the claim stays live. */
  lemma HandoffOutcome(st: State, c: Claim)
    ensures var (st', started) := VoiceModel.Handoff(st, c);
            && (started <==> Live(st, c) && st.entries[c].status.Some? && !st.entries[c].handoff)
            && (started ==> Live(st', c) && st'.entries[c].handoff && !VoiceModel.Handoff(st', c).1)
            && (!started ==> st' == st)
    ensures Apply(st, DoHandoff(c)) == VoiceModel.Handoff(st, c).0
  {
  }

  /** A completion or a discard ends exactly the one claim, if it is live. */
  lemma EndOutcome(st: State, a: Step, c: Claim, d: Claim)
    requires IndexOk(st) && Enabled(st, a) && (a == DoComplete(c) || a == DoDiscard(c))
    ensures Obtains(st, a, c) <==> Live(st, c)
    ensures Live(Apply(st, a), d) <==> Live(st, d) && d != c
    ensures Apply(st, a).entries == st.entries && Apply(st, a).ops == st.ops && Apply(st, a).active == st.active
  {
    if Live(st, c) { RemoveIsExact(st, c); }
  }

  // --- What a cancel reaches ---

  /** A live claim the caller may cancel: not the one whose callback it is called from, nor one that is protected. */
  predicate Reachable(st: State, source: Option<Claim>, c: Claim) {
    Live(st, c) && source != Some(c) && Active(st.active, c) == 0
  }

  /** All keys of a claim are keys of its own chat. */
  lemma KeysAreOfTheChat(st: State, k: Key)
    requires IndexOk(st) && k in st.pending
    ensures k.scope == st.pending[k].scope && Live(st, st.pending[k])
  {
    assert KeyOk(st, k);
  }

  /** The claims with a key that finds them are the live ones. */
  lemma LiveIsPending(st: State, c: Claim)
    requires IndexOk(st)
    ensures Live(st, c) <==> c in st.pending.Values
  {
    if Live(st, c) { assert VoiceKey(c) in st.pending && st.pending[VoiceKey(c)] == c; }
    forall k | k in st.pending ensures Live(st, st.pending[k]) { KeysAreOfTheChat(st, k); }
  }

  /**
   cancel_scope obtains exactly the claims of its chat that it may cancel, and cancel_all those of every chat; every
   key of any other claim finds the same entry as before.
   */
  lemma ScopeIsCancelled(st: State, op: nat, scope: Option<MessageScope>, c: Claim)
    requires IndexOk(st) && Enabled(st, DoCancelScope(op, scope))
    ensures var st' := Apply(st, DoCancelScope(op, scope));
            var chosen := Reachable(st, st.ops[op].source, c) && (scope.None? || c.scope == scope.value);
            && (c in st'.ops[op].targets <==> chosen)
            && (Live(st', c) <==> Live(st, c) && !chosen)
            && forall k :: Finds(st'.pending, k, c) <==> Finds(st.pending, k, c) && !chosen
  {
    var st' := Apply(st, DoCancelScope(op, scope));
    forall k | k in st.pending ensures k.scope == st.pending[k].scope && Live(st, st.pending[k]) {
      KeysAreOfTheChat(st, k);
    }
    LiveIsPending(st, c);
    if Live(st, c) { assert VoiceKey(c) in st.pending && VoiceKey(c).scope == c.scope; }
  }

  /** cancel obtains the claim its reply finds if it may cancel it, and nothing otherwise. */
  lemma ReplyIsCancelled(st: State, op: nat, k: Key, c: Claim)
    requires IndexOk(st) && Enabled(st, DoCancelOne(op, k))
    ensures var st' := Apply(st, DoCancelOne(op, k));
            var chosen := Finds(st.pending, k, c) && Reachable(st, st.ops[op].source, c);
            && (c in st'.ops[op].targets <==> chosen)
            && (Live(st', c) <==> Live(st, c) && !chosen)
            && forall h :: Finds(st'.pending, h, c) <==> Finds(st.pending, h, c) && !chosen
  {
    if k in st.pending {
      KeysAreOfTheChat(st, k);
      RemoveIsExact(st, st.pending[k]);
    }
    LiveIsPending(st, c);
  }

  // --- Over whole runs ---

  /** An entry that is no longer live can not become live again. */
  lemma {:induction false} GoneForever(st: State, run: seq<Step>, c: Claim)
    requires IndexOk(st) && Runnable(st, run) && c in st.entries && !Live(st, c)
    ensures !Live(Run(st, run), c)
    ensures forall i :: 0 <= i < |run| ==> !ObtainedAt(st, run, i, c)
    decreases |run|
  {
    if run != [] {
      StepKeepsIndex(st, run[0]);
      ObtainingEndsOwnership(st, run[0], c);
      StaysGone(st, run[0], c);
      GoneForever(Apply(st, run[0]), run[1..], c);
      forall i | 0 <= i < |run| ensures !ObtainedAt(st, run, i, c) {
        if i > 0 { assert !ObtainedAt(Apply(st, run[0]), run[1..], i - 1, c); }
      }
    }
  }

  lemma StaysGone(st: State, a: Step, c: Claim)
    requires IndexOk(st) && Enabled(st, a) && c in st.entries && !Live(st, c)
    ensures c in Apply(st, a).entries && !Live(Apply(st, a), c)
  {
  }

  /** Step `i` of the run obtains the claim. */
  predicate ObtainedAt(st: State, run: seq<Step>, i: nat, c: Claim)
    requires Runnable(st, run) && i < |run|
    decreases i
  {
    if i == 0 then Obtains(st, run[0], c) else ObtainedAt(Apply(st, run[0]), run[1..], i - 1, c)
  }

  /** Over any run, at most one step obtains a claim, and from then on every operation rejects it. */
  lemma {:induction false} ObtainedAtMostOnce(st: State, run: seq<Step>, i: nat, j: nat, c: Claim)
    requires IndexOk(st) && Runnable(st, run) && i < j < |run|
    ensures !(ObtainedAt(st, run, i, c) && ObtainedAt(st, run, j, c))
    ensures ObtainedAt(st, run, i, c) ==> !Live(Run(st, run), c)
    decreases i
  {
    StepKeepsIndex(st, run[0]);
    if i == 0 {
      if Obtains(st, run[0], c) {
        ObtainingEndsOwnership(st, run[0], c);
        GoneForever(Apply(st, run[0]), run[1..], c);
        assert !ObtainedAt(Apply(st, run[0]), run[1..], j - 1, c);
      }
    } else {
      ObtainedAtMostOnce(Apply(st, run[0]), run[1..], i - 1, j - 1, c);
    }
  }

  /** What it means that a claim is rejected. */
  lemma DeadClaimsAreRejected(st: State, a: Step, c: Claim, status: string, op: nat, k: Key)
    requires IndexOk(st) && Enabled(st, a) && c in st.entries && !Live(st, c)
    ensures BindStatus(st, c, status) == (st, false) && Handoff(st, c) == (st, false) && Obtain(st, c) == (st, false)
    ensures c !in st.pending.Values && !Obtains(st, a, c)
  {
    ObtainingEndsOwnership(st, a, c);
    forall h | h in st.pending ensures st.pending[h] != c { assert KeyOk(st, h); }
  }

  lemma StepKeepsKeys(st: State, a: Step, k: Key, c: Claim)
    requires IndexOk(st) && Enabled(st, a) && Finds(st.pending, k, c) && Live(Apply(st, a), c)
    ensures Finds(Apply(st, a).pending, k, c)
  {
    assert KeyOk(st, k);
    ObtainingEndsOwnership(st, a, c);
    if k in Apply(st, a).pending { KeysAreNotTakenOver(st, a, k); }
    match a
    case DoComplete(d) => if Live(st, d) { RemoveIsExact(st, d); }
    case DoDiscard(d) => if Live(st, d) { RemoveIsExact(st, d); }
    case DoCancelOne(op, h) => if h in st.pending { assert KeyOk(st, h); RemoveIsExact(st, st.pending[h]); }
    case _ =>
  }

  /** Over any run a key goes on finding the entry it finds for as long as that entry lives. */
  lemma {:induction false} KeysStayWithTheirEntry(st: State, run: seq<Step>, k: Key, c: Claim)
    requires IndexOk(st) && Runnable(st, run) && Finds(st.pending, k, c) && Live(Run(st, run), c)
    ensures Finds(Run(st, run).pending, k, c)
    decreases |run|
  {
    if run != [] {
      var st' := Apply(st, run[0]);
      assert KeyOk(st, k);
      StepKeepsIndex(st, run[0]);
      if !Live(st', c) {
        assert c in st'.entries;
        GoneForever(st', run[1..], c);
      }
      StepKeepsKeys(st, run[0], k, c);
      KeysStayWithTheirEntry(st', run[1..], k, c);
    }
  }

  // --- Waiting ---

  function OpsOf(ops: map<nat, Op>, c: Claim): set<nat> { set op | op in ops && ops[op].source == Some(c) }

  /** The protection counts are exact. */
  ghost predicate CountsOk(st: State) {
    forall c: Claim :: Active(st.active, c) == |OpsOf(st.ops, c)|
  }

  lemma BeginCounts(st: State, op: nat, source: Option<Claim>, c: Claim)
    requires op !in st.ops && Active(st.active, c) == |OpsOf(st.ops, c)|
    ensures var t := BeginCancel(st, op, source); Active(t.active, c) == |OpsOf(t.ops, c)|
  {
    var t := BeginCancel(st, op, source);
    if source == Some(c) {
      assert OpsOf(t.ops, c) == OpsOf(st.ops, c) + {op};
    } else {
      assert OpsOf(t.ops, c) == OpsOf(st.ops, c);
    }
  }

  lemma BeginKeepsCounts(st: State, op: nat, source: Option<Claim>)
    requires CountsOk(st) && op !in st.ops
    ensures CountsOk(BeginCancel(st, op, source))
  {
    var t := BeginCancel(st, op, source);
    forall c: Claim ensures Active(t.active, c) == |OpsOf(t.ops, c)| {
      assert Active(st.active, c) == |OpsOf(st.ops, c)|;
      BeginCounts(st, op, source, c);
    }
  }

  lemma EndCounts(st: State, op: nat, c: Claim)
    requires op in st.ops && Active(st.active, c) == |OpsOf(st.ops, c)|
    ensures var t := EndCancel(st, op); Active(t.active, c) == |OpsOf(t.ops, c)|
  {
    var t := EndCancel(st, op);
    if st.ops[op].source == Some(c) {
      assert OpsOf(st.ops, c) == OpsOf(t.ops, c) + {op};
    } else {
      assert OpsOf(t.ops, c) == OpsOf(st.ops, c);
    }
  }

  lemma EndKeepsCounts(st: State, op: nat)
    requires CountsOk(st) && op in st.ops
    ensures CountsOk(EndCancel(st, op))
  {
    var t := EndCancel(st, op);
    forall c: Claim ensures Active(t.active, c) == |OpsOf(t.ops, c)| {
      assert Active(st.active, c) == |OpsOf(st.ops, c)|;
      EndCounts(st, op, c);
    }
  }

  lemma AimKeepsCounts(st: State, op: nat, targets: set<Claim>, pending: map<Key, Claim>)
    requires CountsOk(st) && op in st.ops
    ensures CountsOk(st.(pending := pending, ops := st.ops[op := st.ops[op].(targets := targets)]))
  {
    var t := st.(pending := pending, ops := st.ops[op := st.ops[op].(targets := targets)]);
    forall c: Claim ensures Active(t.active, c) == |OpsOf(t.ops, c)| {
      assert Active(st.active, c) == |OpsOf(st.ops, c)|;
      assert OpsOf(t.ops, c) == OpsOf(st.ops, c);
    }
  }

  /** The callback of `c` awaits the end of the callback of `d`. */
  ghost predicate Waits(ops: map<nat, Op>, c: Claim, d: Claim) {
    exists op :: op in ops && ops[op].source == Some(c) && d in ops[op].targets
  }

  ghost predicate Path(ops: map<nat, Op>, p: seq<Claim>) {
    forall i :: 0 <= i < |p| - 1 ==> Waits(ops, p[i], p[i + 1])
  }

  /** No callback waits for itself, however indirectly. */
  ghost predicate Acyclic(ops: map<nat, Op>) {
    forall p: seq<Claim> :: |p| > 1 && Path(ops, p) ==> p[0] != p[|p| - 1]
  }

  /** Only protected claims wait. */
  lemma WaitersAreProtected(st: State, c: Claim, d: Claim)
    requires CountsOk(st) && Waits(st.ops, c, d)
    ensures Active(st.active, c) > 0
  {
    var op :| op in st.ops && st.ops[op].source == Some(c) && d in st.ops[op].targets;
    assert op in OpsOf(st.ops, c);
  }

  /** Fewer waits, no new cycle. */
  lemma FewerWaits(ops: map<nat, Op>, ops': map<nat, Op>)
    requires Acyclic(ops)
    requires forall op :: op in ops' && ops'[op].targets != {} ==> op in ops && ops[op] == ops'[op]
    ensures Acyclic(ops')
  {
    forall p: seq<Claim> | |p| > 1 && Path(ops', p) ensures p[0] != p[|p| - 1] {
      forall i | 0 <= i < |p| - 1 ensures Waits(ops, p[i], p[i + 1]) {
        assert Waits(ops', p[i], p[i + 1]);
      }
      assert Path(ops, p);
    }
  }

  /** New waits that lead to claims which do not wait close no cycle. */
  lemma WaitingForSinks(ops: map<nat, Op>, op: nat, targets: set<Claim>)
    requires Acyclic(ops) && op in ops && ops[op].targets == {}
    requires forall c :: c in targets ==> ops[op].source != Some(c)
    requires forall c, d :: c in targets ==> !Waits(ops, c, d)
    ensures Acyclic(ops[op := ops[op].(targets := targets)])
  {
    var ops' := ops[op := ops[op].(targets := targets)];
    forall c, d | Waits(ops', c, d) ensures c !in targets && (d in targets || Waits(ops, c, d)) {
      var o :| o in ops' && ops'[o].source == Some(c) && d in ops'[o].targets;
      if o != op { assert Waits(ops, c, d) by { assert o in ops && ops[o].source == Some(c) && d in ops[o].targets; } }
    }
    forall p: seq<Claim> | |p| > 1 && Path(ops', p) ensures p[0] != p[|p| - 1] {
      assert Waits(ops', p[0], p[1]);
      forall i | 0 <= i < |p| - 1 ensures p[i] !in targets { assert Waits(ops', p[i], p[i + 1]); }
      if p[|p| - 1] !in targets {
        forall i | 0 <= i < |p| - 1 ensures Waits(ops, p[i], p[i + 1]) { assert Waits(ops', p[i], p[i + 1]); }
        assert Path(ops, p);
      }
    }
  }

  ghost predicate Inv(st: State) { IndexOk(st) && CountsOk(st) && Acyclic(st.ops) }

  lemma InitHolds()
    ensures Inv(Init())
  {
    forall c: Claim ensures Active(Init().active, c) == |OpsOf(Init().ops, c)| {
      assert OpsOf(Init().ops, c) == {};
    }
    forall p: seq<Claim> | |p| > 1 ensures !Path(Init().ops, p) {
      assert !Waits(Init().ops, p[0], p[1]);
    }
  }

  lemma AimKeepsInv(st: State, op: nat, targets: set<Claim>, pending: map<Key, Claim>)
    requires CountsOk(st) && Acyclic(st.ops) && op in st.ops && st.ops[op].targets == {}
    requires forall c :: c in targets ==> !Excluded(st, c, st.ops[op].source)
    ensures var t := st.(pending := pending, ops := st.ops[op := st.ops[op].(targets := targets)]);
            CountsOk(t) && Acyclic(t.ops)
  {
    AimKeepsCounts(st, op, targets, pending);
    forall c, d | c in targets ensures st.ops[op].source != Some(c) && !Waits(st.ops, c, d) {
      if Waits(st.ops, c, d) { WaitersAreProtected(st, c, d); }
    }
    WaitingForSinks(st.ops, op, targets);
  }

  lemma StepKeepsWaits(st: State, a: Step)
    requires CountsOk(st) && Acyclic(st.ops) && Enabled(st, a)
    ensures CountsOk(Apply(st, a)) && Acyclic(Apply(st, a).ops)
  {
    match a
    case DoBeginCancel(op, source) =>
      BeginKeepsCounts(st, op, source);
      FewerWaits(st.ops, Apply(st, a).ops);
    case DoCancelOne(op, k) =>
      if k in st.pending && !Excluded(st, st.pending[k], st.ops[op].source) {
        AimKeepsInv(st, op, {} + {st.pending[k]}, Apply(st, a).pending);
      }
    case DoCancelScope(op, scope) => AimKeepsInv(st, op, {} + Matching(st, op, scope), Apply(st, a).pending);
    case DoEndCancel(op) =>
      EndKeepsCounts(st, op);
      FewerWaits(st.ops, Apply(st, a).ops);
    case _ =>
  }

  /** In every reachable state the index is right and no callbacks that cancel each other wait in a cycle. */
  lemma {:induction false} RunKeepsInv(st: State, run: seq<Step>)
    requires Inv(st) && Runnable(st, run)
    ensures Inv(Run(st, run))
    decreases |run|
  {
    if run != [] {
      StepKeepsIndex(st, run[0]);
      StepKeepsWaits(st, run[0]);
      RunKeepsInv(Apply(st, run[0]), run[1..]);
    }
  }

  lemma NoCallbackDeadlock(run: seq<Step>, p: seq<Claim>)
    requires Runnable(Init(), run) && |p| > 1 && Path(Run(Init(), run).ops, p)
    ensures p[0] != p[|p| - 1]
  {
    InitHolds();
    RunKeepsInv(Init(), run);
  }

  // --- Results ---

  /** _cancellation_result: the messages to delete after a cancel that was asked for in a reply to `reply`. */
  function DeleteMessages(c: Claim, status: Option<string>, reply: Option<string>): set<string> {
    (if reply.Some? && reply.value != c.voiceMessageId then {} else {c.voiceMessageId})
    + (if status.Some? then {status.value} else {})
  }

  /** The message replied to is deleted, and a reply to the status message leaves the voice message alone. */
  lemma RepliesAreDeleted(st: State, k: Key)
    requires IndexOk(st) && k in st.pending && KeyOk(st, k)
    ensures var c := st.pending[k]; var gone := DeleteMessages(c, st.entries[c].status, Some(k.id));
            && k.id in gone
            && (c.voiceMessageId in gone <==> k.id == c.voiceMessageId)
  {
  }
}
