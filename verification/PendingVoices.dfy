/**
 The registry object of messaging/voice.py. `Coupled` ties it to the state of the transition system,
 `Valid` says that a recorded run leads to that state, and each section takes the step it names.
 */
module PendingVoices {
  import opened MessageScopes
  import opened Options
  import opened VoiceModel
  import Theorems = VoiceTheorems

  class PendingVoice {
    const claim: PendingVoiceClaim
    var statusMessageId: Option<string>
    var handoffTask: bool

    constructor (claim: PendingVoiceClaim)
      ensures this.claim == claim && View() == Entry(None, false)
    {
      this.claim := claim;
      statusMessageId, handoffTask := None, false;
    }

    ghost function View(): Entry
      reads this
    {
      Entry(statusMessageId, handoffTask)
    }
  }

  class PendingVoiceRegistry {
    var pending: map<Key, PendingVoice>
    var activeCancellations: map<PendingVoiceClaim, nat>
    ghost var objects: map<PendingVoiceClaim, PendingVoice>
    ghost var view: State
    ghost var history: seq<Step>

    ghost predicate Has(entry: PendingVoice)
      reads `objects
    {
      entry.claim in objects && objects[entry.claim] == entry
    }

    ghost predicate PendingCoupled(index: map<Key, Claim>)
      reads `pending, `objects
    {
      && pending.Keys == index.Keys
      && forall k :: k in pending ==> pending[k].claim == index[k] && Has(pending[k])
    }

    static ghost predicate EntriesCoupled(objects: map<Claim, PendingVoice>, entries: map<Claim, Entry>)
      reads objects.Values
    {
      && objects.Keys == entries.Keys
      && forall c :: c in objects ==> objects[c].claim == c && objects[c].View() == entries[c]
    }

    ghost predicate Coupled()
      reads `pending, `activeCancellations, `objects, `view, objects.Values
    {
      PendingCoupled(view.pending) && EntriesCoupled(objects, view.entries) && activeCancellations == view.active
    }

    /** The recorded run of the protocol leads to this state. */
    ghost predicate Reached(st: State)
      reads `history
    {
      Runnable(Init(), history) && st == Run(Init(), history)
    }

    ghost predicate Valid()
      reads this, objects.Values
    {
      Coupled() && Reached(view)
    }

    /** So everything proved of reachable states holds of the object. */
    lemma Reachable()
      requires Valid()
      ensures Theorems.Inv(view)
    {
      Theorems.InitHolds();
      Theorems.RunKeepsInv(Init(), history);
    }

    /** The registry has taken step `a`, and only that. */
    twostate predicate Took(new a: Step)
      reads this, objects.Values
    {
      && Valid()
      && Enabled(old(view), a)
      && view == Apply(old(view), a)
      && history == old(history) + [a]
    }

    ghost method Record(before: State, a: Step)
      requires Coupled() && Reached(before) && Enabled(before, a) && view == Apply(before, a)
      modifies `history
      ensures Valid() && history == old(history) + [a]
    {
      hide Coupled, Apply, Enabled;
      RunGrows(Init(), history, a);
      history := history + [a];
    }

    lemma Seen(entry: PendingVoice)
      requires Coupled() && Has(entry)
      ensures entry.claim in view.entries && view.entries[entry.claim] == entry.View()
    {
    }

    lemma EntriesSeen()
      requires Coupled()
      ensures objects.Keys == view.entries.Keys
    {
    }

    lemma KeySeen(k: Key)
      requires Coupled()
      ensures k in pending <==> k in view.pending
      ensures k in pending ==> Has(pending[k]) && view.pending[k] == pending[k].claim && view.pending[k] in view.entries
    {
    }

    constructor ()
      ensures Valid() && view == Init()
    {
      pending, activeCancellations, objects, view, history := map[], map[], map[], Init(), [];
    }

    // --- Reservation and handoff ---

    /** _entry_for_claim */
    method EntryForClaim(claim: PendingVoiceClaim) returns (entry: PendingVoice?)
      requires Coupled()
      ensures entry != null <==> Live(view, claim)
      ensures entry != null ==> Has(entry) && entry.claim == claim && pending[VoiceKey(claim)] == entry
    {
      entry := null;
      if VoiceKey(claim) in pending && pending[VoiceKey(claim)].claim == claim {
        entry := pending[VoiceKey(claim)];
      }
    }

    /** The claim's id comes from uuid4: it was never used before. */
    method Reserve(claim: PendingVoiceClaim) returns (reserved: bool)
      requires Valid() && claim !in view.entries
      modifies `pending, `objects, `view, `history
      ensures Took(DoReserve(claim)) && reserved == VoiceModel.Reserve(old(view), claim).1
    {
      hide Coupled, Reached;
      ghost var before := view;
      KeySeen(VoiceKey(claim));
      reserved := VoiceKey(claim) !in pending;
      if reserved {
        var entry := new PendingVoice(claim);
        Insert(entry);
      }
      Record(before, DoReserve(claim));
    }

    static lemma Added(objects: map<Claim, PendingVoice>, entries: map<Claim, Entry>, x: PendingVoice)
      requires EntriesCoupled(objects, entries) && x.claim !in objects
      ensures EntriesCoupled(objects[x.claim := x], entries[x.claim := x.View()])
    {
    }

    method Insert(entry: PendingVoice)
      requires Coupled() && entry.claim !in view.entries && VoiceKey(entry.claim) !in view.pending
      requires entry.View() == Entry(None, false)
      modifies `pending, `objects, `view
      ensures Coupled() && view == VoiceModel.Reserve(old(view), entry.claim).0
    {
      hide EntriesCoupled;
      EntriesSeen();
      Added(objects, view.entries, entry);
      pending := pending[VoiceKey(entry.claim) := entry];
      objects := objects[entry.claim := entry];
      view := VoiceModel.Reserve(view, entry.claim).0;
    }

    method BindStatus(claim: PendingVoiceClaim, status: string) returns (bound: bool)
      requires Valid()
      modifies `pending, `view, `history, objects.Values
      ensures Took(DoBindStatus(claim, status)) && bound == VoiceModel.BindStatus(old(view), claim, status).1
    {
      hide Coupled, Reached;
      ghost var before := view;
      var entry := EntryForClaim(claim);
      bound := false;
      if entry != null {
        bound := Bind(entry, status);
      }
      Record(before, DoBindStatus(claim, status));
    }

    method Bind(entry: PendingVoice, status: string) returns (bound: bool)
      requires Coupled() && Has(entry) && Live(view, entry.claim)
      modifies `pending, `view, entry
      ensures Coupled() && (view, bound) == VoiceModel.BindStatus(old(view), entry.claim, status)
    {
      if entry.statusMessageId.Some? {
        return entry.statusMessageId == Some(status);
      }
      var k := StatusKey(entry.claim, status);
      if k in pending && pending[k] != entry {
        return false;
      }
      entry.statusMessageId := Some(status);
      pending := pending[k := entry];
      bound := true;
      view := VoiceModel.BindStatus(view, entry.claim, status).0;
    }

    /** handoff, up to its first await: false is REJECTED. */
    method Handoff(claim: PendingVoiceClaim) returns (started: bool)
      requires Valid()
      modifies `view, `history, objects.Values
      ensures Took(DoHandoff(claim)) && started == VoiceModel.Handoff(old(view), claim).1
    {
      hide Coupled, Reached;
      ghost var before := view;
      var entry := EntryForClaim(claim);
      started := false;
      if entry != null {
        Seen(entry);
        started := entry.statusMessageId.Some? && !entry.handoffTask;
        if started {
          Start(entry);
        }
      }
      Record(before, DoHandoff(claim));
    }

    method Start(entry: PendingVoice)
      requires Coupled() && Has(entry)
      modifies `view, entry
      ensures Coupled()
      ensures var entries := old(view).entries;
              view == old(view).(entries := entries[entry.claim := entries[entry.claim].(handoff := true)])
    {
      view := view.(entries := view.entries[entry.claim := view.entries[entry.claim].(handoff := true)]);
      entry.handoffTask := true;
    }

    // --- Ownership ---

    method DropKey(k: Key, entry: PendingVoice)
      requires Coupled() && Has(entry)
      modifies `pending, `view
      ensures Coupled() && view == old(view).(pending := Without(old(view).pending, k, entry.claim))
    {
      view := view.(pending := Without(view.pending, k, entry.claim));
      if k in pending && pending[k] == entry {
        pending := pending - {k};
      }
    }

    /** _remove */
    method Remove(entry: PendingVoice)
      requires Coupled() && Has(entry)
      modifies `pending, `view
      ensures Coupled() && view == VoiceModel.Remove(old(view), entry.claim)
    {
      hide Coupled;
      Seen(entry);
      DropKey(VoiceKey(entry.claim), entry);
      if entry.statusMessageId.Some? {
        DropKey(StatusKey(entry.claim, entry.statusMessageId.value), entry);
      }
    }

    /** _complete_if_owned, at the end of a handoff: only the entry the registry still has is completed. */
    method CompleteIfOwned(entry: PendingVoice) returns (completed: bool)
      requires Valid() && Has(entry) && entry.handoffTask
      modifies `pending, `view, `history
      ensures Took(DoComplete(entry.claim)) && completed == Obtain(old(view), entry.claim).1
    {
      hide Coupled, Reached;
      ghost var before := view;
      Seen(entry);
      var current := EntryForClaim(entry.claim);
      completed := current == entry;
      if completed {
        Remove(entry);
      }
      Record(before, DoComplete(entry.claim));
    }

    /** discard, up to its wait. */
    method Discard(claim: PendingVoiceClaim) returns (discarded: bool)
      requires Valid()
      modifies `pending, `view, `history
      ensures Took(DoDiscard(claim)) && discarded == Obtain(old(view), claim).1
    {
      hide Coupled, Reached;
      ghost var before := view;
      var entry := EntryForClaim(claim);
      discarded := entry != null;
      if discarded {
        Remove(entry);
      }
      Record(before, DoDiscard(claim));
    }

    // --- Cancellation ---

    /** The callback of an entry may make a cancel, and so may anyone else. */
    ghost predicate Caller(currentClaim: Option<PendingVoiceClaim>)
      reads `view
    {
      currentClaim.Some? ==> currentClaim.value in view.entries && view.entries[currentClaim.value].handoff
    }

    /** The cancel is in progress and has not acted. */
    ghost predicate Acts(op: nat, currentClaim: Option<PendingVoiceClaim>)
      reads `view
    {
      op in view.ops && view.ops[op] == Op(currentClaim, {})
    }

    /** _protect_claim */
    method BeginCancel(ghost op: nat, currentClaim: Option<PendingVoiceClaim>)
      requires Valid() && op !in view.ops && Caller(currentClaim)
      modifies `activeCancellations, `view, `history
      ensures Took(DoBeginCancel(op, currentClaim)) && Acts(op, currentClaim)
    {
      hide PendingCoupled, EntriesCoupled, Reached;
      ghost var before := view;
      if currentClaim.Some? {
        var c := currentClaim.value;
        activeCancellations := activeCancellations[c := Active(activeCancellations, c) + 1];
      }
      view := VoiceModel.BeginCancel(view, op, currentClaim);
      Record(before, DoBeginCancel(op, currentClaim));
    }

    /** What this cancel protects is counted. */
    lemma Protected(op: nat)
      requires Valid() && op in view.ops && view.ops[op].source.Some?
      ensures Active(view.active, view.ops[op].source.value) > 0
    {
      Reachable();
      var c := view.ops[op].source.value;
      assert Active(view.active, c) == |Theorems.OpsOf(view.ops, c)| && op in Theorems.OpsOf(view.ops, c);
    }

    /** _unprotect_claim: it never meets a claim that has no count. */
    method EndCancel(ghost op: nat, currentClaim: Option<PendingVoiceClaim>)
      requires Valid() && op in view.ops && view.ops[op].source == currentClaim
      modifies `activeCancellations, `view, `history
      ensures Took(DoEndCancel(op))
    {
      hide PendingCoupled, EntriesCoupled, Reached;
      ghost var before := view;
      if currentClaim.Some? {
        Protected(op);
        var c := currentClaim.value;
        var remaining := activeCancellations[c] - 1;
        if remaining != 0 {
          activeCancellations := activeCancellations[c := remaining];
        } else {
          activeCancellations := activeCancellations - {c};
        }
      }
      view := VoiceModel.EndCancel(view, op);
      Record(before, DoEndCancel(op));
    }

    /** _is_excluded */
    method IsExcluded(entry: PendingVoice, currentClaim: Option<PendingVoiceClaim>) returns (excluded: bool)
      requires Coupled()
      ensures excluded <==> Excluded(view, entry.claim, currentClaim)
    {
      excluded := Some(entry.claim) == currentClaim || Active(activeCancellations, entry.claim) > 0;
    }

    /** The cancel now waits for these claims. */
    ghost method Await(op: nat, claims: set<Claim>)
      requires Coupled() && op in view.ops
      modifies `view
      ensures Coupled()
      ensures var ops := old(view).ops;
              view == old(view).(ops := ops[op := ops[op].(targets := ops[op].targets + claims)])
    {
      view := view.(ops := view.ops[op := view.ops[op].(targets := view.ops[op].targets + claims)]);
    }

    /** The section of cancel; the result is the entry to wait for. */
    method CancelOne(ghost op: nat, currentClaim: Option<PendingVoiceClaim>, k: Key) returns (entry: PendingVoice?)
      requires Valid() && Acts(op, currentClaim)
      modifies `pending, `view, `history
      ensures Took(DoCancelOne(op, k))
      ensures (if entry == null then None else Some(entry.claim)) == VoiceModel.CancelOne(old(view), op, k).1
    {
      hide Coupled, Reached;
      ghost var before := view;
      KeySeen(k);
      entry := null;
      if k in pending {
        var excluded := IsExcluded(pending[k], currentClaim);
        if !excluded {
          entry := pending[k];
          Remove(entry);
          Await(op, {entry.claim});
        }
      }
      Record(before, DoCancelOne(op, k));
    }

    static ghost function Claims(entries: set<PendingVoice>): set<Claim> {
      set e | e in entries :: e.claim
    }

    ghost predicate AllLive(entries: set<PendingVoice>)
      reads `objects, `view
    {
      forall e :: e in entries ==> Has(e) && Live(view, e.claim)
    }

    /** Every entry that some key of the scope finds, once, unless it is excluded. */
    method Collect(ghost op: nat, currentClaim: Option<PendingVoiceClaim>, scope: Option<MessageScope>)
      returns (entries: set<PendingVoice>)
      requires Coupled() && Theorems.IndexOk(view) && op in view.ops && view.ops[op].source == currentClaim
      ensures Claims(entries) == Matching(view, op, scope)
      ensures AllLive(entries)
    {
      entries := set k | k in pending && (scope.None? || scope.value == k.scope)
                         && Some(pending[k].claim) != currentClaim
                         && Active(activeCancellations, pending[k].claim) == 0 :: pending[k];
      forall e | e in entries ensures Has(e) && Live(view, e.claim) {
        var k :| k in pending && pending[k] == e;
        assert Theorems.KeyOk(view, k);
      }
    }

    /** Removing a live entry removes exactly the keys that find it. */
    method RemoveLive(entry: PendingVoice, ghost rest: set<PendingVoice>)
      requires Coupled() && Theorems.IndexOk(view) && AllLive(rest + {entry}) && entry !in rest
      modifies `pending, `view
      ensures Coupled() && Theorems.IndexOk(view) && AllLive(rest)
      ensures view == old(view).(pending := RemoveAll(old(view).pending, {entry.claim}))
    {
      hide Coupled, Theorems.IndexOk;
      Theorems.RemoveIsExact(view, entry.claim);
      Theorems.RemoveAllKeepsIndex(view, {entry.claim});
      Remove(entry);
    }

    method RemoveEach(entries: set<PendingVoice>)
      requires Coupled() && Theorems.IndexOk(view) && AllLive(entries)
      modifies `pending, `view
      ensures Coupled() && view == old(view).(pending := RemoveAll(old(view).pending, Claims(entries)))
    {
      hide Coupled, Theorems.IndexOk, AllLive;
      ghost var before := view;
      var todo := entries;
      ghost var done := {};
      RemoveNone(before.pending);
      while todo != {}
        invariant Coupled() && Theorems.IndexOk(view) && AllLive(todo) && todo + done == entries
        invariant view == before.(pending := RemoveAll(before.pending, Claims(done)))
      {
        var entry :| entry in todo;
        RemoveAlso(before.pending, done, entry);
        assert todo - {entry} + {entry} == todo;
        RemoveLive(entry, todo - {entry});
        todo, done := todo - {entry}, done + {entry};
      }
    }

    static lemma RemoveNone(index: map<Key, Claim>)
      ensures RemoveAll(index, Claims({})) == index
    {
    }

    static lemma RemoveAlso(index: map<Key, Claim>, done: set<PendingVoice>, entry: PendingVoice)
      ensures RemoveAll(RemoveAll(index, Claims(done)), {entry.claim}) == RemoveAll(index, Claims(done + {entry}))
    {
      assert Claims(done + {entry}) == Claims(done) + {entry.claim};
    }

    /** The section of cancel_scope, and of cancel_all if no scope is given. */
    method CancelScope(ghost op: nat, currentClaim: Option<PendingVoiceClaim>, scope: Option<MessageScope>)
      returns (entries: set<PendingVoice>)
      requires Valid() && Acts(op, currentClaim)
      modifies `pending, `view, `history
      ensures Took(DoCancelScope(op, scope)) && Claims(entries) == Matching(old(view), op, scope)
      ensures forall c :: c in Claims(entries) <==>
                Theorems.Reachable(old(view), currentClaim, c) && (scope.None? || c.scope == scope.value)
    {
      hide Coupled, Reached;
      ghost var before := view;
      Reachable();
      forall c ensures c in Matching(view, op, scope) <==>
                         Theorems.Reachable(view, currentClaim, c) && (scope.None? || c.scope == scope.value)
      {
        Theorems.ScopeIsCancelled(view, op, scope, c);
      }
      entries := Collect(op, currentClaim, scope);
      RemoveEach(entries);
      Await(op, Claims(entries));
      Record(before, DoCancelScope(op, scope));
    }
  }
}
