/** What becomes of every claimed input at a model boundary that proceeds. */
module BoundaryLaws {
  import opened Wrappers
  import opened Values
  import opened Ledger
  import Transitions
  import opened LedgerLaws
  import opened Inputs
  import opened Requests

  /** The screen rewrites and drops: it keeps ids it was given, each at most once. */
  ghost predicate RewritesOrDrops(offered: seq<PendingInput>, kept: seq<PendingInput>) {
    EachOnce(Origins(kept)) && forall id :: id in Origins(kept) ==> id in Origins(offered)
  }

  /** Submitted inputs carry the id they are queued under, which is never empty. */
  ghost predicate Tagged(s: BranchState) {
    forall id :: id in s.inputs ==> id != "" && Decode(s.inputs[id].value).origin == Some(id)
  }

  predicate Open(s: BranchState, id: InputId) {
    id in s.inputs && s.inputs[id].status !in {Admitted, Discarded}
  }

  /** What an earlier claim of this attempt left to deliver. */
  ghost predicate Prefetched(s: BranchState, prefetched: seq<PendingInput>, seen: set<InputId>) {
    && (forall i :: i in prefetched ==> i.origin.Some? && Open(s, i.origin.value) && i.origin.value in seen)
    && EachOnce(Origins(prefetched))
  }

  predicate Submitted(id: InputId, v: Value) {
    id != "" && Decode(v).origin == Some(id)
  }

  /** Inputs are submitted encoded, under the nonempty id they name. */
  predicate SubmitsTagged(op: Op) {
    match op
    case EnqueueOp(id, v) => Submitted(id, v)
    case CommitOp(t, _) => forall i :: 0 <= i < |t.inputs| ==> Submitted(t.inputs[i].0, t.inputs[i].1)
    case _ => true
  }

  /** What is submitted encoded stays readable under its id, whatever happens to the queue. */
  lemma QueueStaysTagged(s: BranchState, op: Op)
    requires Tagged(s) && SubmitsTagged(op)
    ensures Tagged(Next(s, op))
  {
    OnwardStep(s, op);
    match op
    case AdmitOp(ids, _) => AdmitEachFrame(s, ids);
    case DiscardOp(ids, _) => DiscardEachFrame(s, ids);
    case CommitOp(t, token) =>
      Transitions.CommitAllOrNothing(s, t, token);
      if Commit(s, t, token).1.Success? { CommittedAreTagged(s, t, token); }
    case _ =>
  }

  lemma CommittedAreTagged(s: BranchState, t: Transition, token: int)
    requires Tagged(s) && SubmitsTagged(CommitOp(t, token))
    requires Commit(s, t, token).1.Success?
    requires Transitions.InputsApplied(s, t, Commit(s, t, token).0, Commit(s, t, token).1.value)
    ensures Tagged(Commit(s, t, token).0)
  {
    var r := Commit(s, t, token).0;
    hide Commit;
    forall id | id in r.inputs ensures id != "" && Decode(r.inputs[id].value).origin == Some(id) {
      if id !in s.inputs {
        assert Transitions.FirstGiven(t.inputs, id, r.inputs[id].value);
        var i :| 0 <= i < |t.inputs| && t.inputs[i] == (id, r.inputs[id].value);
        assert Submitted(t.inputs[i].0, t.inputs[i].1);
      }
    }
  }

  /** A submitted item comes back as it was encoded. */
  lemma EncodedIsTagged(item: PendingInput, id: InputId)
    requires item.origin == Some(id) && id != ""
    ensures Decode(Encode(item)) == item && SubmitsTagged(EnqueueOp(id, Encode(item)))
  {
  }

  // ---- what the queue operations do to one input ----------------------------------------------

  lemma {:induction false} AdmitEachMeans(s: BranchState, ids: seq<InputId>, id: InputId)
    requires id in s.inputs
    ensures id in AdmitEach(s, ids).inputs
    ensures AdmitEach(s, ids).inputs[id] ==
      if id in ids && s.inputs[id].status != Discarded then s.inputs[id].(status := Admitted) else s.inputs[id]
  {
    if ids != [] {
      AdmitEachMeans(s, ids[..|ids| - 1], id);
      assert ids == ids[..|ids| - 1] + [ids[|ids| - 1]];
    }
  }

  lemma {:induction false} DiscardEachMeans(s: BranchState, ids: seq<InputId>, id: InputId)
    requires id in s.inputs
    ensures id in DiscardEach(s, ids).inputs
    ensures DiscardEach(s, ids).inputs[id] == if id in ids then s.inputs[id].(status := Discarded) else s.inputs[id]
  {
    if ids != [] {
      DiscardEachMeans(s, ids[..|ids| - 1], id);
      assert ids == ids[..|ids| - 1] + [ids[|ids| - 1]];
    }
  }

  /** Whoever is fenced claims nothing. */
  lemma {:induction false} StaleClaims(s: BranchState, ids: seq<InputId>, token: int)
    ensures ClaimEach(s, ids, token).issued == s.issued
    ensures Stale(s, token) ==> ClaimEach(s, ids, token) == s
  {
    if ids != [] { StaleClaims(s, ids[..|ids| - 1], token); }
  }

  lemma {:induction false} ClaimEachMeans(s: BranchState, ids: seq<InputId>, token: int, id: InputId)
    requires id in s.inputs
    ensures id in ClaimEach(s, ids, token).inputs
    ensures ClaimEach(s, ids, token).inputs[id] ==
      if id in ids && Open(s, id) && !Stale(s, token) then s.inputs[id].(status := Claimed) else s.inputs[id]
  {
    StaleClaims(s, ids, token);
    if !Stale(s, token) { LiveClaims(s, ids, token, id); }
  }

  lemma {:induction false} LiveClaims(s: BranchState, ids: seq<InputId>, token: int, id: InputId)
    requires id in s.inputs && !Stale(s, token)
    ensures id in ClaimEach(s, ids, token).inputs
    ensures ClaimEach(s, ids, token).inputs[id] ==
      if id in ids && Open(s, id) then s.inputs[id].(status := Claimed) else s.inputs[id]
  {
    if ids != [] {
      LiveClaims(s, ids[..|ids| - 1], token, id);
      ClaimKeepsTokens(s, ids[..|ids| - 1], token);
      assert ids == ids[..|ids| - 1] + [ids[|ids| - 1]];
    }
  }

  // ---- the ids of a group ---------------------------------------------------------------------

  lemma {:induction false} OriginsJoin(a: seq<PendingInput>, b: seq<PendingInput>)
    ensures Origins(a + b) == Origins(a) + Origins(b)
  {
    if b == [] {
      assert a + b == a;
    } else {
      var n := |b| - 1;
      OriginsJoin(a, b[..n]);
      assert (a + b)[..|a + b| - 1] == a + b[..n];
    }
  }

  lemma {:induction false} UsersAreUnnamed(parts: seq<Part>)
    ensures Origins(Users(parts)) == []
  {
    if parts != [] {
      UsersAreUnnamed(parts[..|parts| - 1]);
      OriginsJoin(Users(parts[..|parts| - 1]), if parts[|parts| - 1].UserPrompt? then [PendingInput("user", parts[|parts| - 1], None)] else []);
    }
  }

  lemma {:induction false} LostAre(pending: seq<PendingInput>, kept: seq<PendingInput>, id: InputId)
    ensures id in Origins(Lost(pending, kept)) <==> id in Origins(pending) && id != "" && id !in Origins(kept)
  {
    if pending != [] {
      var n := |pending| - 1;
      LostAre(pending[..n], kept, id);
      var more := if pending[n].origin.Some? && pending[n].origin.value != "" && pending[n].origin.value !in Origins(kept)
                  then [pending[n]] else [];
      OriginsJoin(Lost(pending[..n], kept), more);
    }
  }

  lemma {:induction false} ItemsName(s: BranchState, due: seq<Listed>)
    requires Tagged(s) && forall r :: r in due ==> r.id in s.inputs && r.value == s.inputs[r.id].value
    ensures Origins(Items(due)) == Ids(due)
  {
    if due != [] {
      var n := |due| - 1;
      ItemsName(s, due[..n]);
      assert due[n] in due;
      OriginsJoin(Items(due[..n]), [Decode(due[n].value)]);
      assert Items(due) == Items(due[..n]) + [Decode(due[n].value)];
      assert Ids(due) == Ids(due[..n]) + [due[n].id];
    }
  }

  lemma JoinEachOnce(a: seq<InputId>, b: seq<InputId>)
    requires EachOnce(a) && EachOnce(b) && forall id :: id in a ==> id !in b
    ensures EachOnce(a + b)
  {
    forall i, j | 0 <= i < j < |a + b| ensures (a + b)[i] != (a + b)[j] {
      if i < |a| <= j { assert a[i] in a && b[j - |a|] in b; }
    }
  }

  lemma ListedAre(s: BranchState)
    requires QueueOk(s)
    ensures forall r :: r in ListInputs(s) ==>
      r.id in s.inputs && r.value == s.inputs[r.id].value && r.status == s.inputs[r.id].status
  {
  }

  lemma DueIsOpen(s: BranchState, represented: set<InputId>, seen: set<InputId>)
    requires QueueOk(s)
    ensures var due := Due(ListInputs(s), represented, seen);
      && EachOnce(Ids(due))
      && (forall r :: r in due ==> r.id in s.inputs && r.value == s.inputs[r.id].value)
      && (forall id :: id in Ids(due) ==> id !in seen && Open(s, id))
  {
    DueIsEverythingOpen(ListInputs(s), represented, seen);
    ListedAre(s);
    hide Due, ListInputs, QueueOk, EachOnce, IdSet, Ids;
    var due := Due(ListInputs(s), represented, seen);
    forall r | r in due ensures r.id !in seen && Open(s, r.id) { assert Wanted(r, represented, seen); }
    hide Wanted, Open;
    forall id | id in Ids(due) ensures id !in seen && Open(s, id) { var r := IdIsListed(due, id); }
  }

  lemma IdIsListed(due: seq<Listed>, id: InputId) returns (r: Listed)
    requires id in Ids(due)
    ensures r in due && r.id == id
  {
    var i :| 0 <= i < |due| && id == Ids(due)[i];
    r := due[i];
  }

  /** Everything a boundary gathers is open in the queue, under its own id, and each id once. */
  lemma GatheredIsOpen(s: BranchState, prefetched: seq<PendingInput>, represented: set<InputId>, seen: set<InputId>)
    requires QueueOk(s) && Tagged(s) && Prefetched(s, prefetched, seen)
    ensures var due := Due(ListInputs(s), represented, seen);
      var ids := Origins(Gathered(prefetched, s, represented, seen));
      && ids == Origins(prefetched) + Ids(due) && EachOnce(ids)
      && (forall id :: id in ids ==> id != "" && Open(s, id))
      && (forall id :: id in Ids(due) ==> id in ids)
  {
    var due := Due(ListInputs(s), represented, seen);
    DueIsOpen(s, represented, seen);
    ItemsName(s, due);
    OriginsJoin(prefetched, Items(due));
    forall id | id in Origins(prefetched) ensures id in seen && Open(s, id) { OriginsAre(prefetched, id); }
    hide Due, ListInputs, Origins;
    JoinEachOnce(Origins(prefetched), Ids(due));
  }

  /** Every gathered input is settled one way and one way only, and no other input changes. */
  ghost predicate SplitsExactly(s: BranchState, r: BranchState, gathered: seq<InputId>, kept: seq<InputId>) {
    && (forall id :: id in kept ==> id in gathered)
    && (forall id :: id in s.inputs ==> id in r.inputs)
    && (forall id :: id in s.inputs ==> r.inputs[id] == s.inputs[id].(status :=
          if id !in gathered then s.inputs[id].status else if id in kept then Admitted else Discarded))
  }

  /** Exact split. Where the screen only rewrites or drops, every input the boundary gathered, prefetched
      or fresh, ends admitted or discarded, never both and never neither, and no other input changes. */
  lemma GatheredSplitsExactly(s: BranchState, prefetched: seq<PendingInput>, represented: set<InputId>, seen: set<InputId>,
                              request: Request, kept: seq<PendingInput>, token: int)
    requires QueueOk(s) && Tagged(s) && Prefetched(s, prefetched, seen)
    requires RewritesOrDrops(Users(request.parts) + Gathered(prefetched, s, represented, seen), kept)
    ensures var pending := Gathered(prefetched, s, represented, seen);
      SplitsExactly(s, Delivered(s, Due(ListInputs(s), represented, seen), Lost(pending, kept), kept, token),
                    Origins(pending), Origins(kept))
  {
    var pending := Gathered(prefetched, s, represented, seen);
    var due := Due(ListInputs(s), represented, seen);
    GatheredIsOpen(s, prefetched, represented, seen);
    UsersAreUnnamed(request.parts);
    OriginsJoin(Users(request.parts), pending);
    hide Due, Gathered, Lost, Origins, Users, ListInputs, QueueOk, Tagged, Prefetched, Delivered;
    forall id | id in s.inputs
      ensures var r := Delivered(s, due, Lost(pending, kept), kept, token);
        id in r.inputs && r.inputs[id] == s.inputs[id].(status :=
          if id !in Origins(pending) then s.inputs[id].status else if id in Origins(kept) then Admitted else Discarded)
    {
      LostAre(pending, kept, id);
      DeliveredMeans(s, due, Lost(pending, kept), kept, token, id);
    }
  }

  /** Whoever is fenced at the end changed nothing before: it had nothing to claim and nothing to discard. */
  lemma FencedChangedNothing(s: BranchState, due: seq<Listed>, lost: seq<PendingInput>, token: int)
    ensures Stale(ClaimEach(s, Ids(due), token), token) == Stale(s, token)
    ensures Stale(Screened(s, due, lost, token), token) == Stale(s, token)
    ensures Stale(s, token) ==> ClaimEach(s, Ids(due), token) == s
    ensures Screened(s, due, [], token) == ClaimEach(s, Ids(due), token)
  {
    StaleClaims(s, Ids(due), token);
    DiscardEachFrame(ClaimEach(s, Ids(due), token), Origins(lost));
  }

  lemma {:induction false} LostAreNamed(pending: seq<PendingInput>, kept: seq<PendingInput>)
    ensures Lost(pending, kept) != [] ==> Origins(Lost(pending, kept)) != []
  {
    if pending != [] {
      var n := |pending| - 1;
      LostAreNamed(pending[..n], kept);
      var more := if pending[n].origin.Some? && pending[n].origin.value != "" && pending[n].origin.value !in Origins(kept)
                  then [pending[n]] else [];
      OriginsJoin(Lost(pending[..n], kept), more);
    }
  }

  lemma DeliveredMeans(s: BranchState, due: seq<Listed>, lost: seq<PendingInput>, kept: seq<PendingInput>, token: int, id: InputId)
    requires id in s.inputs
    requires id in Ids(due) || id in Origins(lost) || id in Origins(kept) ==> Open(s, id)
    requires id in Ids(due) ==> id in Origins(lost) || id in Origins(kept)
    requires id in Origins(lost) ==> id !in Origins(kept)
    ensures var r := Delivered(s, due, lost, kept, token);
      id in r.inputs && r.inputs[id] == s.inputs[id].(status :=
        if id in Origins(kept) then Admitted else if id in Origins(lost) then Discarded else s.inputs[id].status)
  {
    hide Origins;
    var claimed := ClaimEach(s, Ids(due), token);
    ClaimEachMeans(s, Ids(due), token, id);
    DiscardEachMeans(claimed, Origins(lost), id);
    AdmitEachMeans(DiscardEach(claimed, Origins(lost)), Origins(kept), id);
  }

  /** Without a screen nothing is lost. */
  lemma {:induction false} NoneLost(pending: seq<PendingInput>, kept: seq<PendingInput>)
    requires forall id :: id in Origins(pending) ==> id in Origins(kept)
    ensures Lost(pending, kept) == []
  {
    if pending != [] {
      var n := |pending| - 1;
      OriginsJoin(pending[..n], [pending[n]]);
      assert pending[..n] + [pending[n]] == pending;
      NoneLost(pending[..n], kept);
    }
  }

  /** What a finishing turn claims ahead is a proper start for the next boundary. */
  lemma LateIsPrefetched(s: BranchState, represented: set<InputId>, seen: set<InputId>, token: int)
    requires QueueOk(s) && Tagged(s) && !Stale(s, token)
    ensures var due := Due(ListInputs(s), represented, seen);
      Prefetched(ClaimEach(s, Ids(due), token), Items(due), seen + IdSet(due))
  {
    var due := Due(ListInputs(s), represented, seen);
    DueIsOpen(s, represented, seen);
    ItemsName(s, due);
    hide Due, ListInputs, QueueOk, Ids, IdSet;
    forall i | i in Items(due)
      ensures i.origin.Some? && Open(ClaimEach(s, Ids(due), token), i.origin.value) && i.origin.value in seen + IdSet(due)
    {
      var id := LateIsOpen(s, due, i);
      ClaimEachMeans(s, Ids(due), token, id);
    }
  }

  lemma LateIsOpen(s: BranchState, due: seq<Listed>, i: PendingInput) returns (id: InputId)
    requires Tagged(s) && i in Items(due)
    requires forall r :: r in due ==> r.id in s.inputs && r.value == s.inputs[r.id].value
    requires forall id :: id in Ids(due) ==> Open(s, id)
    ensures i.origin == Some(id) && id in Ids(due) && Open(s, id) && id in IdSet(due)
  {
    var k :| 0 <= k < |due| && i == Decode(due[k].value);
    assert due[k] in due && Ids(due)[k] == due[k].id;
    id := due[k].id;
  }
}
