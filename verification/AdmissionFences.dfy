/**
 The stop and clear fences of messaging/workflow.py. Sections under `_state_lock` exclude one another
 even where they await, so a section is one step; turns also leave at any time by themselves. The tree
 queue is the set of its live turns: an operation of it may fail, having removed any of them.
 */
module AdmissionFences {
  import opened MessageScopes

  datatype AdmissionToken = AdmissionToken(stopGeneration: nat, clearGeneration: nat)

  /** One incoming message, with the token captured when it was received. */
  datatype Turn = Turn(scope: MessageScope, token: AdmissionToken)

  /** `turns` has every message ever received; `live` those admitted, and neither finished nor cancelled. */
  datatype State = State(stopGeneration: nat, clearGenerations: map<MessageScope, nat>, turns: map<nat, Turn>,
                         live: set<nat>)

  function Init(): State { State(0, map[], map[], {}) }

  function ClearGeneration(clears: map<MessageScope, nat>, scope: MessageScope): nat {
    if scope in clears then clears[scope] else 0
  }

  function CurrentToken(st: State, scope: MessageScope): AdmissionToken {
    AdmissionToken(st.stopGeneration, ClearGeneration(st.clearGenerations, scope))
  }

  predicate CanAdmit(st: State, t: nat) {
    t in st.turns && st.turns[t].token == CurrentToken(st, st.turns[t].scope)
  }

  /** How the tree queue fares: what it was asked to do is done, or it raised with some turns left. */
  datatype Outcome = Completed | Failed(left: set<nat>)

  function OfScope(st: State, scope: MessageScope): set<nat> {
    set t | t in st.live && t in st.turns && st.turns[t].scope == scope
  }

  datatype Step =
    | DoReceive(t: nat, scope: MessageScope)
    | DoAdmit(t: nat, accepted: bool)              // the tree queue may refuse or raise
    | DoLeave(t: nat)                              // it finishes, or is cancelled by a reply
    | DoStop(outcome: Outcome)
    | DoClearFails(scope: MessageScope)            // a read before the boundary raises
    | DoClear(scope: MessageScope, outcome: Outcome)

  predicate Enabled(st: State, a: Step) { a.DoReceive? ==> a.t !in st.turns }

  function Stop(st: State, outcome: Outcome): State {
    st.(stopGeneration := st.stopGeneration + 1, live := if outcome.Completed? then {} else st.live * outcome.left)
  }

  function Clear(st: State, scope: MessageScope, outcome: Outcome): State {
    var gone := OfScope(st, scope);
    st.(clearGenerations := st.clearGenerations[scope := ClearGeneration(st.clearGenerations, scope) + 1],
        live := st.live - if outcome.Completed? then gone else gone - outcome.left)
  }

  function Apply(st: State, a: Step): State {
    match a
    case DoReceive(t, scope) => st.(turns := st.turns[t := Turn(scope, CurrentToken(st, scope))])
    case DoAdmit(t, accepted) => if CanAdmit(st, t) && accepted then st.(live := st.live + {t}) else st
    case DoLeave(t) => st.(live := st.live - {t})
    case DoStop(outcome) => Stop(st, outcome)
    case DoClearFails(_) => st
    case DoClear(scope, outcome) => Clear(st, scope, outcome)
  }

  predicate Runnable(st: State, run: seq<Step>)
    decreases |run|
  {
    run == [] || (Enabled(st, run[0]) && Runnable(Apply(st, run[0]), run[1..]))
  }

  function Run(st: State, run: seq<Step>): State
    decreases |run|
  {
    if run == [] then st else Run(Apply(st, run[0]), run[1..])
  }

  // --- Theorems ---

  /** Tokens are never ahead of the generations, and only received turns are live. */
  ghost predicate Inv(st: State) {
    && st.live <= st.turns.Keys
    && forall t :: t in st.turns ==> Behind(st, st.turns[t])
  }

  predicate Behind(st: State, turn: Turn) {
    && turn.token.stopGeneration <= st.stopGeneration
    && turn.token.clearGeneration <= ClearGeneration(st.clearGenerations, turn.scope)
  }

  lemma StepKeepsInv(st: State, a: Step)
    requires Inv(st) && Enabled(st, a)
    ensures Inv(Apply(st, a))
  {
    var y := Apply(st, a);
    forall t | t in y.turns ensures Behind(y, y.turns[t]) {
      if t in st.turns { assert Behind(st, st.turns[t]); }
    }
  }

  /** The step closes the fence in front of the scope: a stop, completed or not, or a clear of it past its boundary. */
  predicate Fences(a: Step, scope: MessageScope) { a.DoStop? || (a.DoClear? && a.scope == scope) }

  /** A turn can be admitted exactly if no stop and no clear of its chat happened since it was received. */
  lemma {:induction false} AdmissibleIffUnfenced(st: State, run: seq<Step>, t: nat)
    requires Inv(st) && Runnable(st, run) && t in st.turns
    ensures t in Run(st, run).turns && Run(st, run).turns[t] == st.turns[t]
    ensures CanAdmit(Run(st, run), t)
            <==> CanAdmit(st, t) && forall i :: 0 <= i < |run| ==> !Fences(run[i], st.turns[t].scope)
    decreases |run|
  {
    if run != [] {
      var y := Apply(st, run[0]);
      StepKeepsInv(st, run[0]);
      assert Behind(st, st.turns[t]);
      AdmissibleIffUnfenced(y, run[1..], t);
      assert forall i :: 0 <= i < |run| - 1 ==> run[1..][i] == run[i + 1];
      assert forall i :: 0 < i < |run| ==> run[i] == run[1..][i - 1];
    }
  }

  /** From its receipt on: a new turn is not live, and can be admitted until the first stop, or clear of its chat. */
  lemma ReceivedIsAdmissible(st: State, t: nat, scope: MessageScope, run: seq<Step>)
    requires Inv(st) && Runnable(st, [DoReceive(t, scope)] + run)
    ensures var st' := Run(st, [DoReceive(t, scope)] + run);
            && t in st'.turns && st'.turns[t].scope == scope
            && (CanAdmit(st', t) <==> forall i :: 0 <= i < |run| ==> !Fences(run[i], scope))
    ensures t !in Apply(st, DoReceive(t, scope)).live
  {
    assert ([DoReceive(t, scope)] + run)[1..] == run;
    StepKeepsInv(st, DoReceive(t, scope));
    AdmissibleIffUnfenced(Apply(st, DoReceive(t, scope)), run, t);
  }

  /** Whatever happens between receipt and admission: a turn that is neither live nor admissible never gets live. */
  lemma {:induction false} FencedForever(st: State, run: seq<Step>, t: nat)
    requires Inv(st) && Runnable(st, run) && t in st.turns && t !in st.live && !CanAdmit(st, t)
    ensures t !in Run(st, run).live
    decreases |run|
  {
    if run != [] {
      StepKeepsInv(st, run[0]);
      AdmissibleIffUnfenced(st, [run[0]], t);
      assert [run[0]][1..] == [];
      FencedForever(Apply(st, run[0]), run[1..], t);
    }
  }

  /** After a completed stop every live turn, in any continuation, was received after it. */
  lemma StopIsAFence(st: State, run: seq<Step>, t: nat)
    requires Inv(st) && Runnable(Stop(st, Completed), run) && t in Run(Stop(st, Completed), run).live
    ensures t !in st.turns
  {
    if t in st.turns {
      var y := Stop(st, Completed);
      StepKeepsInv(st, DoStop(Completed));
      assert Behind(st, st.turns[t]);
      FencedForever(y, run, t);
    }
  }

  /** After a completed clear every live turn of that chat was received after it. */
  lemma ClearIsAFence(st: State, scope: MessageScope, run: seq<Step>, t: nat)
    requires Inv(st) && Runnable(Clear(st, scope, Completed), run)
    requires var y := Run(Clear(st, scope, Completed), run); t in y.live && t in y.turns && y.turns[t].scope == scope
    ensures t !in st.turns
  {
    if t in st.turns {
      var y := Clear(st, scope, Completed);
      StepKeepsInv(st, DoClear(scope, Completed));
      assert Behind(st, st.turns[t]);
      AdmissibleIffUnfenced(y, run, t);
      FencedForever(y, run, t);
    }
  }

  /** A clear concerns no other chat: its turns stay live, and those on their way can still be admitted. */
  lemma ClearIsLocal(st: State, scope: MessageScope, outcome: Outcome, t: nat)
    requires Inv(st) && t in st.turns && st.turns[t].scope != scope
    ensures t in Clear(st, scope, outcome).live <==> t in st.live
    ensures CanAdmit(Clear(st, scope, outcome), t) <==> CanAdmit(st, t)
  {
  }

  /** A stop whose cancellation fails has still fenced what was not yet admitted: only turns live before it survive. */
  lemma FailedStopStillFences(st: State, left: set<nat>, run: seq<Step>, t: nat)
    requires Inv(st) && Runnable(Stop(st, Failed(left)), run) && t in Run(Stop(st, Failed(left)), run).live
    ensures t in st.turns ==> t in st.live && t in left
  {
    if t in st.turns && !(t in st.live && t in left) {
      StepKeepsInv(st, DoStop(Failed(left)));
      assert Behind(st, st.turns[t]);
      FencedForever(Stop(st, Failed(left)), run, t);
    }
  }

  /** The same for a clear whose tree queue fails after the boundary: of that chat only turns live before it survive. */
  lemma FailedClearStillFences(st: State, scope: MessageScope, left: set<nat>, run: seq<Step>, t: nat)
    requires Inv(st) && Runnable(Clear(st, scope, Failed(left)), run)
    requires t in Run(Clear(st, scope, Failed(left)), run).live && t in st.turns && st.turns[t].scope == scope
    ensures t in st.live && t in left
  {
    if !(t in st.live && t in left) {
      StepKeepsInv(st, DoClear(scope, Failed(left)));
      assert Behind(st, st.turns[t]);
      FencedForever(Clear(st, scope, Failed(left)), run, t);
    }
  }

  // --- Chats do not interfere ---

  /** The two states are the same as far as this chat is concerned. */
  ghost predicate Agree(st: State, other: State, scope: MessageScope) {
    && st.stopGeneration == other.stopGeneration
    && ClearGeneration(st.clearGenerations, scope) == ClearGeneration(other.clearGenerations, scope)
    && st.turns.Keys == other.turns.Keys
    && forall t :: t in st.turns ==> TurnAgrees(st, other, scope, t)
  }

  ghost predicate TurnAgrees(st: State, other: State, scope: MessageScope, t: nat)
    requires t in st.turns && t in other.turns
  {
    && st.turns[t].scope == other.turns[t].scope
    && (st.turns[t].scope == scope ==> st.turns[t] == other.turns[t] && (t in st.live <==> t in other.live))
  }

  predicate ClearsElsewhere(a: Step, scope: MessageScope) { (a.DoClear? || a.DoClearFails?) && a.scope != scope }

  function WithoutClearsElsewhere(run: seq<Step>, scope: MessageScope): seq<Step> {
    if run == [] then []
    else (if ClearsElsewhere(run[0], scope) then [] else [run[0]]) + WithoutClearsElsewhere(run[1..], scope)
  }

  /** What a step does to a turn of the chat. */
  lemma StepOnTurn(st: State, a: Step, t: nat)
    requires Enabled(st, a) && t in st.turns
    ensures t in Apply(st, a).turns && Apply(st, a).turns[t] == st.turns[t]
    ensures t in Apply(st, a).live
            <==> match a
                 case DoAdmit(u, accepted) => t in st.live || (u == t && accepted && CanAdmit(st, t))
                 case DoLeave(u) => t in st.live && u != t
                 case DoStop(outcome) => t in st.live && outcome.Failed? && t in outcome.left
                 case DoClear(scope, outcome) =>
                   t in st.live && (st.turns[t].scope != scope || (outcome.Failed? && t in outcome.left))
                 case _ => t in st.live
  {
  }

  lemma TurnStaysAgreed(st: State, other: State, scope: MessageScope, a: Step, t: nat)
    requires Agree(st, other, scope) && Enabled(st, a) && t in st.turns
    ensures t in Apply(st, a).turns && t in Apply(other, a).turns
    ensures TurnAgrees(Apply(st, a), Apply(other, a), scope, t)
    ensures ClearsElsewhere(a, scope) ==> TurnAgrees(Apply(st, a), other, scope, t)
  {
    assert TurnAgrees(st, other, scope, t);
    StepOnTurn(st, a, t);
    StepOnTurn(other, a, t);
  }

  lemma NewTurnAgrees(st: State, other: State, scope: MessageScope, a: Step)
    requires Agree(st, other, scope) && Enabled(st, a) && a.DoReceive?
    requires a.t !in st.live && a.t !in other.live
    ensures TurnAgrees(Apply(st, a), Apply(other, a), scope, a.t)
  {
  }

  lemma GenerationsAgree(st: State, other: State, scope: MessageScope, a: Step)
    requires Agree(st, other, scope)
    ensures var y, z := Apply(st, a), Apply(other, a);
            && y.stopGeneration == z.stopGeneration && y.turns.Keys == z.turns.Keys
            && ClearGeneration(y.clearGenerations, scope) == ClearGeneration(z.clearGenerations, scope)
            && y.turns.Keys == st.turns.Keys + (if a.DoReceive? then {a.t} else {})
            && (ClearsElsewhere(a, scope) ==>
                  && y.stopGeneration == other.stopGeneration && y.turns.Keys == other.turns.Keys
                  && ClearGeneration(y.clearGenerations, scope) == ClearGeneration(other.clearGenerations, scope))
  {
  }

  lemma StepAgrees(st: State, other: State, scope: MessageScope, a: Step)
    requires Inv(st) && Inv(other) && Agree(st, other, scope) && Enabled(st, a)
    ensures Enabled(other, a) && Agree(Apply(st, a), Apply(other, a), scope)
    ensures ClearsElsewhere(a, scope) ==> Agree(Apply(st, a), other, scope)
  {
    hide Apply, TurnAgrees;
    GenerationsAgree(st, other, scope, a);
    if a.DoReceive? { NewTurnAgrees(st, other, scope, a); }
    var y, z := Apply(st, a), Apply(other, a);
    forall t | t in y.turns
      ensures TurnAgrees(y, z, scope, t)
      ensures ClearsElsewhere(a, scope) ==> TurnAgrees(y, other, scope, t)
    {
      if t in st.turns { TurnStaysAgreed(st, other, scope, a, t); }
    }
  }

  /** Leaving out every clear of other chats makes no difference to a chat: the same turns are live and admissible. */
  lemma {:induction false} OtherClearsDoNotMatter(st: State, other: State, scope: MessageScope, run: seq<Step>)
    requires Inv(st) && Inv(other) && Agree(st, other, scope) && Runnable(st, run)
    ensures Runnable(other, WithoutClearsElsewhere(run, scope))
    ensures Agree(Run(st, run), Run(other, WithoutClearsElsewhere(run, scope)), scope)
    decreases |run|
  {
    if run != [] {
      var a, rest := run[0], WithoutClearsElsewhere(run[1..], scope);
      StepAgrees(st, other, scope, a);
      StepKeepsInv(st, a);
      StepKeepsInv(other, a);
      if ClearsElsewhere(a, scope) {
        OtherClearsDoNotMatter(Apply(st, a), other, scope, run[1..]);
        assert [] + rest == rest;
      } else {
        OtherClearsDoNotMatter(Apply(st, a), Apply(other, a), scope, run[1..]);
        assert ([a] + rest)[1..] == rest;
      }
    }
  }

  // --- The workflow ---

  class MessagingWorkflow {
    var stopGeneration: nat
    var clearGenerations: map<MessageScope, nat>
    var live: set<nat>
    ghost var turns: map<nat, Turn>

    ghost function View(): State
      reads this
    {
      State(stopGeneration, clearGenerations, turns, live)
    }

    ghost predicate Valid()
      reads this
    {
      Inv(View())
    }

    constructor ()
      ensures Valid() && View() == Init()
    {
      stopGeneration, clearGenerations, live, turns := 0, map[], {}, map[];
    }

    method Token(scope: MessageScope) returns (token: AdmissionToken)
      ensures token == CurrentToken(View(), scope)
    {
      token := AdmissionToken(stopGeneration, if scope in clearGenerations then clearGenerations[scope] else 0);
    }

    /** handle_message captures the token before anything else. */
    method Receive(t: nat, scope: MessageScope) returns (token: AdmissionToken)
      requires Valid() && t !in turns
      modifies `turns
      ensures Valid() && View() == Apply(old(View()), DoReceive(t, scope)) && turns[t] == Turn(scope, token)
    {
      StepKeepsInv(View(), DoReceive(t, scope));
      token := Token(scope);
      turns := turns[t := Turn(scope, token)];
    }

    /** _admit_if_current; the tree queue admits the turn if `accepted`. */
    method AdmitIfCurrent(t: nat, scope: MessageScope, token: AdmissionToken, accepted: bool) returns (admitted: bool)
      requires Valid() && t in turns && turns[t] == Turn(scope, token)
      modifies `live
      ensures Valid() && View() == Apply(old(View()), DoAdmit(t, accepted))
      ensures admitted <==> accepted && CanAdmit(View(), t)
    {
      StepKeepsInv(View(), DoAdmit(t, accepted));
      var current := Token(scope);
      admitted := token == current && accepted;
      if admitted {
        live := live + {t};
      }
    }

    /** _stop_all_tasks after it has cancelled the pending voices; `survivors` is what the tree queue leaves live. */
    method StopAllTasks(survivors: set<nat>, raised: bool)
      requires Valid()
      requires if raised then survivors <= live else survivors == {}
      modifies `stopGeneration, `live
      ensures Valid() && View() == Apply(old(View()), DoStop(if raised then Failed(survivors) else Completed))
    {
      StepKeepsInv(View(), DoStop(if raised then Failed(survivors) else Completed));
      stopGeneration := stopGeneration + 1;
      live := survivors;
    }

    /** _clear_chat after it has cancelled the chat's voices; `readsFail` if a read before the boundary raises. */
    method ClearChat(scope: MessageScope, readsFail: bool, ghost outcome: Outcome, survivors: set<nat>)
      requires Valid()
      requires survivors == Clear(View(), scope, outcome).live
      modifies `clearGenerations, `live
      ensures Valid()
      ensures View() == Apply(old(View()), if readsFail then DoClearFails(scope) else DoClear(scope, outcome))
    {
      if readsFail {
        return;
      }
      StepKeepsInv(View(), DoClear(scope, outcome));
      var generation := if scope in clearGenerations then clearGenerations[scope] else 0;
      clearGenerations := clearGenerations[scope := generation + 1];
      live := survivors;
    }
  }
}
