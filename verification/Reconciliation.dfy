/** Reconciling effects in doubt: what a host is shown, and what its decision makes of the next
    attempt. */
module Reconciliation {
  import opened Wrappers
  import opened Values
  import opened Ledger
  import opened Keys
  import opened DecisionLaws
  import opened Selection
  import opened MemoryStore
  import opened JournalProgram

  /** A call whose effect began and never reported, with the version a decision must name. */
  datatype Doubt = Doubt(call: Call, version: nat)

  /** The calls of the latest round that are in doubt, in the model's order. */
  function Doubts(s: BranchState, calls: seq<Call>): (r: seq<Doubt>)
    ensures forall d :: d in r <==>
      d.call in calls && Get(s, StepKey(d.call.id)) == Step(Status.Running, Get(s, StepKey(d.call.id)).value, d.version)
  {
    if calls == [] then [] else
    var n := |calls| - 1;
    assert calls == calls[..n] + [calls[n]];
    var step := Get(s, StepKey(calls[n].id));
    Doubts(s, calls[..n]) + if step.status == Status.Running then [Doubt(calls[n], step.version)] else []
  }

  function LatestRound(s: BranchState): seq<Call> {
    var pending := Get(s, PENDING_ROUND);
    if pending.status == Done && pending.value.Round? then pending.value.calls else []
  }

  /** The calls whose step is running, where they stand, with the version a decision must name. */
  function Running(s: BranchState, calls: seq<Call>): seq<Option<Doubt>> {
    seq(|calls|, i requires 0 <= i < |calls| =>
      if Get(s, StepKey(calls[i].id)).status == Status.Running
      then Some(Doubt(calls[i], Get(s, StepKey(calls[i].id)).version)) else None)
  }

  lemma {:induction false} DoubtsAreRunning(s: BranchState, calls: seq<Call>)
    ensures Takes(Running(s, calls), Doubts(s, calls))
  {
    if calls != [] {
      var n := |calls| - 1;
      DoubtsAreRunning(s, calls[..n]);
      var step := Get(s, StepKey(calls[n].id));
      var offer := if step.status == Status.Running then Some(Doubt(calls[n], step.version)) else None;
      TakesNext(Running(s, calls[..n]), Doubts(s, calls[..n]), offer);
      assert Running(s, calls) == Running(s, calls[..n]) + [offer];
    }
  }

  method UnresolvedEffects(store: MemorySteps, branch: string) returns (unresolved: seq<Doubt>)
    requires store.Valid()
    ensures unresolved == Doubts(store.View(branch), LatestRound(store.View(branch)))
    ensures var round := Get(store.View(branch), PENDING_ROUND);
      if round.status == Done && round.value.Round? then Takes(Running(store.View(branch), round.value.calls), unresolved)
      else unresolved == []
  {
    hide MemorySteps.Valid, MemorySteps.View;
    unresolved := [];
    var pending := store.Read(branch, PENDING_ROUND);
    if pending.status != Done || !pending.value.Round? { return; }
    var calls := pending.value.calls;
    assert calls[..0] == [];
    for i := 0 to |calls|
      invariant unresolved == Doubts(store.View(branch), calls[..i])
    {
      assert calls[..i + 1][..i] == calls[..i];
      var record := store.Read(branch, StepKey(calls[i].id));
      if record.status == Status.Running { unresolved := unresolved + [Doubt(calls[i], record.version)]; }
    }
    assert calls[..|calls|] == calls;
    DoubtsAreRunning(store.View(branch), calls);
  }

  lemma StepKeysHaveText(c: string)
    ensures HasText(StepKey(c))
  {
    assert StepKey(c)[0] == 't' && !IsSpace('t');
  }

  /** What is listed as in doubt can be decided, and the decision settles the next attempt: a confirmed
      result is answered without running the handler, and a retry runs it once more, from a fresh
      start. Deciding again under the same id changes nothing. */
  lemma DecisionsSettleTheNextAttempt(s: BranchState, calls: seq<Call>, d: Doubt, r: Resolution, token: int,
                                      later: int, retry: bool, record: Option<Value>, clears: bool)
    requires d in Doubts(s, calls) && WellMade(r) && r.expectedVersion == d.version
    requires r.decisionId !in s.decisions && !Stale(s, token) && !Stale(s, later)
    ensures var k := StepKey(d.call.id);
      var (next, reply) := Resolve(s, k, r, true, token);
      var attempt := Execute(next, k, later, retry, record, clears);
      && reply == Success(Get(next, k))
      && (r.action == Complete ==> attempt == Attempt(next, Answered(r.value), false))
      && (r.action == Retry ==> attempt.ran)
      && Resolve(next, k, r, true, token) == (next, Success(Get(next, k)))
      && Resolve(attempt.state, k, r, true, token).0 == attempt.state
  {
    StepKeysHaveText(d.call.id);
    DecisionAcceptedExactlyWhen(s, StepKey(d.call.id), r, true, token);
    hide StepKey, HasText;
  }

  /** In a branch the framework made, every step in doubt has a version a decision can name. */
  lemma DoubtsHaveVersions(ops: seq<Op>, calls: seq<Call>, d: Doubt)
    requires forall i :: 0 <= i < |ops| ==> FrameworkOp(ops[i])
    requires d in Doubts(Run(EMPTY, ops), calls)
    ensures d.version >= 1
  {
    KeysAreFiled(d.call.id);
    FrameworkConserves(ops, StepKey(d.call.id));
  }
}
