/** Who gets a lease, how long it is kept, and whom a takeover fences off. */
module LeaseLaws {
  import opened Wrappers
  import opened Values
  import opened Ledger
  import opened LedgerLaws

  // ---- the fence ------------------------------------------------------------------------------

  lemma {:induction false} CompletionsAreNotFenced(s: BranchState, effects: seq<Completion>)
    ensures CompleteEach(s, effects) != Failure(Fenced)
  {
    if effects != [] { CompletionsAreNotFenced(s, effects[..|effects| - 1]); }
  }

  /** An operation is refused at the fence exactly when it presents a token, other than the unleased zero,
      that is older than the last one issued. A refusal, there or anywhere else, changes nothing. */
  lemma FencedExactlyWhen(s: BranchState, op: Op)
    requires QueueOk(s)
    ensures Answer(s, op) == Refused(Fenced) <==> Presented(op).Some? && Presented(op).value != 0 && Presented(op).value < s.issued
    ensures Answer(s, op).Refused? ==> Next(s, op) == s
  {
    if op.CommitOp? { CompletionsAreNotFenced(s, op.transition.effects); }
  }

  // ---- keeping a lease ------------------------------------------------------------------------

  /** The operation neither gives the owner's lease up nor finds that it has run out. */
  predicate Spares(op: Op, owner: Owner) {
    (op.ReleaseOp? ==> op.owner != owner) && (op.AcquireOp? && op.owner != owner ==> !op.expired)
  }

  /** A lease that is not given up and does not run out stays with its owner, who may renew it any number
      of times under the same token; everybody else who asks is turned away. */
  lemma {:induction false} LiveLeaseIsKept(s: BranchState, ops: seq<Op>, owner: Owner, token: nat)
    requires s.lease == Some(Lease(owner, token))
    requires forall i :: 0 <= i < |ops| ==> Spares(ops[i], owner)
    ensures Run(s, ops).lease == s.lease && Run(s, ops).issued == s.issued
    ensures forall i: nat :: i < |ops| && ops[i].AcquireOp? ==>
      Acquire(StateAt(s, ops, i), ops[i].owner, ops[i].expired).1 == if ops[i].owner == owner then token else 0
  {
    if ops != [] {
      var n := |ops| - 1;
      var init := ops[..n];
      assert forall i :: 0 <= i < n ==> init[i] == ops[i];
      LiveLeaseIsKept(s, init, owner, token);
      OtherTables(Run(s, init), ops[n]);
      forall i: nat | i < n ensures StateAt(s, ops, i) == StateAt(s, init, i) { assert init[..i] == ops[..i]; }
    }
  }

  // ---- taking one over ------------------------------------------------------------------------

  /** A lease nobody has, or whose time ran out, goes to whoever asks, under a token newer than all before:
      from then on every older token is stale. Steps, inputs and decisions stay as they are. */
  lemma TakeoverFencesOff(s: BranchState, owner: Owner, expired: bool)
    requires s.lease.None? || (s.lease.value.owner != owner && expired)
    ensures var (r, token) := Acquire(s, owner, expired);
      && r == s.(lease := Some(Lease(owner, token)), issued := token)
      && token == s.issued + 1 && !Stale(r, token)
      && forall older: nat :: 0 < older <= s.issued ==> Stale(r, older)
  {
  }

  /** Only its holder gives a lease up. The token stays the last one issued, so the holder may still write,
      and whoever comes next fences it off. */
  lemma OnlyTheHolderReleases(s: BranchState, owner: Owner, other: Owner, next: Owner)
    requires LeaseOk(s) && s.lease.Some? && s.lease.value.owner == owner && other != owner && next != ""
    ensures Release(s, other) == s
    ensures var r := Release(s, owner);
      && r == s.(lease := Some(Lease("", s.lease.value.token))) && !Stale(r, s.issued)
      && Acquire(r, next, false) == (r, 0)
      && Acquire(r, next, true).1 == s.issued + 1 && Stale(Acquire(r, next, true).0, s.issued)
  {
  }

  // ---- the queue ------------------------------------------------------------------------------

  /** A new input is listed once, behind all others and waiting; a known one changes no listing. */
  lemma ListingGrowsAtTheEnd(s: BranchState, id: InputId, v: Value)
    requires QueueOk(s)
    ensures var r := Enqueue(s, id, v).0;
      QueueOk(r) && ListInputs(r) == ListInputs(s) + if id in s.inputs then [] else [Listed(id, Pending, v)]
  {
    if id !in s.inputs {
      assert id !in s.order;
    }
  }
}
