/** Finishing a parked round, and what becomes of one in which somebody said no. */
module RefusedRound {
  import opened Values
  import opened Ledger
  import opened Keys
  import opened MemoryStore
  import opened Suspension
  import opened SuspensionWords
  import opened SuspensionProgram
  import opened Inputs
  import opened Requests
  import opened Boundary

  /** The continuation was marked as being finished and then closed under the ids of its calls, and no other
      step of the branch changed. */
  ghost predicate RoundClosed(s: BranchState, r: BranchState, parked: seq<ParkedCall>) {
    var before, after := Get(s, ACTIVE_SUSPENSION), Get(r, ACTIVE_SUSPENSION);
    && after.status == Done && after.version == before.version + 2 && after.value.Finished?
    && |after.value.callIds| == |parked| && (forall i :: 0 <= i < |parked| ==> after.value.callIds[i] == parked[i].callId)
    && forall k :: k != ACTIVE_SUSPENSION ==> Get(r, k) == Get(s, k)
  }

  /** Finish an answered round: the answers decide whether the attempt is a cancelled one; whatever nodes the
      agent's graph then makes of it, each is gone through in its turn, and no model request is sent when
      any answer refused. Then the round is closed. A replaced worker does nothing at all. */
  method FinishRound(park: ParkedBranch, session: InputSession, active: Value, nodes: seq<Node>)
    returns (sent: seq<Request>, approvals: map<string, Consent>, done: nat, fenced: bool)
    requires park.store.Valid() && active.Parked? && Decided(active)
    requires session.store == park.store && session.branch == park.branch && session.token == park.token
    modifies session, park.store
    ensures park.store.Valid()
    ensures forall x :: x in active.parked ==> x.callId in approvals && approvals[x.callId] == active.answers[x.callId]
    ensures fenced <==> Stale(old(park.View()), park.token)
    ensures fenced ==> sent == [] && park.View() == old(park.View())
    ensures SomebodyRefused(active) ==> sent == []
    ensures !fenced ==> done <= |nodes| && AskedInTurn(nodes[..done], sent)
    ensures !fenced && done < |nodes| ==> nodes[done].AskModel? && (SomebodyRefused(active) || nodes[done].controls.Some?)
    ensures !fenced ==> RoundClosed(old(park.View()), park.View(), active.parked)
    ensures forall b :: b != park.branch ==> park.store.View(b) == old(park.store.View(b))
  {
    hide MemorySteps.Valid, MemorySteps.View, SomebodyRefused, Decided, AskedInTurn;
    ghost var s := park.View();
    park.store.Stored(park.branch);
    var cancelled: bool;
    var begun: SuspensionProgram.Outcome;
    begun, approvals, cancelled := park.Finalize(active);
    if begun == Lost { return [], approvals, 0, true; }
    ghost var resuming := park.View();
    park.store.Stored(park.branch);
    var boundary := new ExecutionBoundary(session, cancelled);
    sent, done, fenced := boundary.RunNodes(nodes);
    ghost var settled := park.View();
    park.store.Stored(park.branch);
    assert forall k :: Get(settled, k) == Get(resuming, k);
    var _ := park.Complete(active);
    ClosedTwice(s, resuming, settled, park.View(), active);
  }

  lemma ClosedTwice(s: BranchState, resuming: BranchState, settled: BranchState, r: BranchState, active: Value)
    requires active.Parked?
    requires OnlyWrites(s, resuming, ACTIVE_SUSPENSION, Parked(Resuming, active.parked, active.answers))
    requires forall k :: Get(settled, k) == Get(resuming, k)
    requires Closed(settled, r, active.parked)
    ensures RoundClosed(s, r, active.parked)
  {
  }
}
