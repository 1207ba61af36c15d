/** The names the framework gives its durable steps, and what follows from their being apart: a
    finished effect is never rewritten. */
module Keys {
  import opened Ledger
  import opened LedgerLaws

  const TOOL := "tool:"
  const AFTER := "after:"
  const SUSPEND := "suspend:"
  const MODEL := "agent:model:"
  const PENDING_ROUND := "agent:pending-round"
  const ACTIVE_SUSPENSION := "agent:active-suspension"

  function StepKey(callId: string): Key { TOOL + callId }

  function AfterKey(callId: string): Key { AFTER + callId }

  function SuspendKey(callId: string): Key { SUSPEND + callId }

  function ModelKey(digest: string): Key { MODEL + digest }

  predicate Starts(k: Key, prefix: string) {
    |prefix| <= |k| && k[..|prefix|] == prefix
  }

  /** Steps whose result is immutable: tool calls and model requests. */
  predicate IsEffectKey(k: Key) {
    Starts(k, TOOL) || Starts(k, MODEL)
  }

  /** Steps the framework overwrites: projections, the park index, the round and the continuation. */
  predicate IsControlKey(k: Key) {
    Starts(k, AFTER) || Starts(k, SUSPEND) || k == PENDING_ROUND || k == ACTIVE_SUSPENSION
  }

  lemma StartsAt(k: Key, p: string, i: nat)
    ensures Starts(k, p) && i < |p| ==> k[i] == p[i]
  {
    if Starts(k, p) && i < |p| { assert k[i] == k[..|p|][i]; }
  }

  lemma PrefixesDiffer(k: Key, p: string, q: string, i: nat)
    requires i < |p| && i < |q| && p[i] != q[i] && Starts(k, p)
    ensures !Starts(k, q)
  {
    StartsAt(k, p, i);
    StartsAt(k, q, i);
  }

  /** No key names both an effect and control state, and the control keys are pairwise apart. */
  lemma FamiliesAreApart(k: Key)
    ensures !(IsEffectKey(k) && IsControlKey(k))
    ensures !(Starts(k, TOOL) && Starts(k, MODEL))
    ensures !(Starts(k, AFTER) && Starts(k, SUSPEND))
    ensures k == PENDING_ROUND || k == ACTIVE_SUSPENSION ==> !Starts(k, AFTER) && !Starts(k, SUSPEND)
    ensures PENDING_ROUND != ACTIVE_SUSPENSION
  {
    assert PENDING_ROUND[6] == 'p' && ACTIVE_SUSPENSION[6] == 'a' && MODEL[6] == 'm';
    if Starts(k, TOOL) {
      PrefixesDiffer(k, TOOL, MODEL, 0);
      PrefixesDiffer(k, TOOL, AFTER, 0);
      PrefixesDiffer(k, TOOL, SUSPEND, 0);
      assert k[0] == k[..|TOOL|][0] == 't';
    }
    if Starts(k, MODEL) {
      PrefixesDiffer(k, MODEL, AFTER, 1);
      PrefixesDiffer(k, MODEL, SUSPEND, 0);
      assert k[6] == k[..|MODEL|][6] == 'm';
    }
    if Starts(k, AFTER) {
      PrefixesDiffer(k, AFTER, SUSPEND, 0);
      assert k[1] == k[..|AFTER|][1] == 'f';
    }
    if Starts(k, SUSPEND) {
      assert k[0] == k[..|SUSPEND|][0] == 's';
    }
  }

  lemma Prefixed(prefix: string, id: string)
    ensures Starts(prefix + id, prefix) && (prefix + id)[|prefix|..] == id
  {
  }

  /** Within a family, different calls and different requests have different keys. */
  lemma KeysAreInjective(a: string, b: string)
    ensures StepKey(a) == StepKey(b) ==> a == b
    ensures AfterKey(a) == AfterKey(b) ==> a == b
    ensures SuspendKey(a) == SuspendKey(b) ==> a == b
    ensures ModelKey(a) == ModelKey(b) ==> a == b
  {
    Prefixed(TOOL, a);    Prefixed(TOOL, b);
    Prefixed(AFTER, a);   Prefixed(AFTER, b);
    Prefixed(SUSPEND, a); Prefixed(SUSPEND, b);
    Prefixed(MODEL, a);   Prefixed(MODEL, b);
  }

  lemma KeysAreFiled(id: string)
    ensures IsEffectKey(StepKey(id)) && IsEffectKey(ModelKey(id))
    ensures IsControlKey(AfterKey(id)) && IsControlKey(SuspendKey(id))
  {
    Prefixed(TOOL, id);
    Prefixed(MODEL, id);
    Prefixed(AFTER, id);
    Prefixed(SUSPEND, id);
  }

  /** The operations the framework performs: effects are started, finished, forgotten and resolved
      under effect keys; everything it overwrites, alone or in a park, lies under control keys. */
  ghost predicate FrameworkOp(op: Op) {
    match op
    case StartOp(k, _) => IsEffectKey(k)
    case FinishOp(k, _, _) => IsEffectKey(k)
    case ForgetOp(k, _) => IsEffectKey(k)
    case ResolveOp(k, _, _, _) => IsEffectKey(k)
    case ControlOp(k, _, _) => IsControlKey(k)
    case CommitOp(t, _) => t.effects == [] && forall k :: k in t.controls ==> IsControlKey(k)
    case _ => true
  }

  /** The framework treats every effect key as an effect, so conservation covers all of them. */
  lemma FrameworkKeepsEffects(op: Op, k: Key)
    requires FrameworkOp(op) && IsEffectKey(k)
    ensures AsEffect(op, k) && !WritesAsControl(op, k)
  {
    FamiliesAreApart(k);
    match op
    case ControlOp(key, _, _) => FamiliesAreApart(key);
    case CommitOp(t, _) => assert k in t.controls ==> IsControlKey(k);
    case _ =>
  }

  /** Once a tool or model step is done, nothing the framework does afterwards changes its status,
      its result or its version. */
  lemma {:induction false} FinishedEffectsAreImmutable(s: BranchState, ops: seq<Op>, k: Key)
    requires IsEffectKey(k) && Get(s, k).status == Done
    requires forall i :: 0 <= i < |ops| ==> FrameworkOp(ops[i])
    ensures Get(Run(s, ops), k) == Get(s, k)
  {
    forall i | 0 <= i < |ops| ensures !WritesAsControl(ops[i], k) {
      FrameworkKeepsEffects(ops[i], k);
    }
    DoneStays(s, ops, k);
  }

  /** Conservation for every effect the framework runs. */
  lemma {:induction false} FrameworkConserves(ops: seq<Op>, k: Key)
    requires IsEffectKey(k)
    requires forall i :: 0 <= i < |ops| ==> FrameworkOp(ops[i])
    ensures Balanced(TallyOf(EMPTY, ops, k), Get(Run(EMPTY, ops), k))
  {
    forall i | 0 <= i < |ops| ensures AsEffect(ops[i], k) {
      FrameworkKeepsEffects(ops[i], k);
    }
    Conservation(ops, k);
  }
}
