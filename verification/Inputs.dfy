/** One attempt at the input queue: which inputs are due to it, and what claiming, admitting and
    discarding them leaves. */
module Inputs {
  import opened Wrappers
  import opened Values
  import opened Ledger
  import opened MemoryStore

  /** One external input; a queued one names the id it was submitted under. */
  datatype PendingInput = PendingInput(kind: string, part: Part, origin: Option<InputId>)

  function Encode(item: PendingInput): Value {
    Queued(item.kind, item.part, item.origin)
  }

  function Decode(v: Value): PendingInput {
    if v.Queued? then PendingInput(v.kind, v.part, v.origin) else PendingInput("", OtherPart(""), None)
  }

  /** The ids the items name, in order. */
  function Origins(items: seq<PendingInput>): seq<InputId> {
    if items == [] then [] else
    var n := |items| - 1;
    Origins(items[..n]) + if items[n].origin.Some? then [items[n].origin.value] else []
  }

  lemma {:induction false} OriginsAre(items: seq<PendingInput>, id: InputId)
    ensures id in Origins(items) <==> PendingFor(items, id)
  {
    if items != [] {
      var n := |items| - 1;
      OriginsAre(items[..n], id);
      assert items == items[..n] + [items[n]];
    }
  }

  predicate PendingFor(items: seq<PendingInput>, id: InputId) {
    exists i :: i in items && i.origin == Some(id)
  }

  // ---- claiming -------------------------------------------------------------------------------

  function Ids(listed: seq<Listed>): seq<InputId> {
    seq(|listed|, i requires 0 <= i < |listed| => listed[i].id)
  }

  function Items(listed: seq<Listed>): seq<PendingInput> {
    seq(|listed|, i requires 0 <= i < |listed| => Decode(listed[i].value))
  }

  predicate Wanted(r: Listed, represented: set<InputId>, seen: set<InputId>) {
    r.status !in {Discarded, Admitted} && r.id !in represented && r.id !in seen
  }

  /** The records an attempt claims: not settled, not in its history, and not claimed by it before. */
  function Due(listed: seq<Listed>, represented: set<InputId>, seen: set<InputId>): seq<Listed> {
    if listed == [] then [] else
    var n := |listed| - 1;
    var due := Due(listed[..n], represented, seen);
    due + if Wanted(listed[n], represented, seen + IdSet(due)) then [listed[n]] else []
  }

  function IdSet(listed: seq<Listed>): set<InputId> {
    set r | r in listed :: r.id
  }

  predicate EachOnce(ids: seq<InputId>) {
    forall i, j :: 0 <= i < j < |ids| ==> ids[i] != ids[j]
  }

  /** Claiming finds every input that is still open and that the history does not hold, each once:
      nothing that was not delivered is lost, and nothing is claimed twice. */
  lemma {:induction false} DueIsEverythingOpen(listed: seq<Listed>, represented: set<InputId>, seen: set<InputId>)
    ensures EachOnce(Ids(Due(listed, represented, seen)))
    ensures forall r :: r in Due(listed, represented, seen) ==> r in listed && Wanted(r, represented, seen)
    ensures forall r :: r in listed && Wanted(r, represented, seen) ==> r.id in IdSet(Due(listed, represented, seen))
  {
    if listed != [] {
      var n := |listed| - 1;
      var due := Due(listed[..n], represented, seen);
      DueIsEverythingOpen(listed[..n], represented, seen);
      assert listed == listed[..n] + [listed[n]];
      var all := Due(listed, represented, seen);
      forall r | r in listed && Wanted(r, represented, seen) ensures r.id in IdSet(all) {
        if r.id in IdSet(due) {
          var d :| d in due && d.id == r.id;
          assert d in all;
        } else {
          assert r == listed[n] && r in all;
        }
      }
      forall i, j | 0 <= i < j < |all| ensures Ids(all)[i] != Ids(all)[j] {
        assert all[i] in due && all[i] == due[i];
        if j < |due| { assert Ids(due)[i] != Ids(due)[j]; } else { assert due[i].id in IdSet(due); }
      }
    }
  }

  function ClaimEach(s: BranchState, ids: seq<InputId>, token: int): BranchState {
    if ids == [] then s else Ledger.ClaimInput(ClaimEach(s, ids[..|ids| - 1], token), ids[|ids| - 1], token).0
  }

  /** One attempt's dealings with the queue: what it claimed so far it does not claim again. */
  class InputSession {
    const store: MemorySteps
    const branch: string
    const token: int
    var seen: set<InputId>

    constructor (store: MemorySteps, branch: string, token: int)
      ensures this.store == store && this.branch == branch && this.token == token && seen == {}
    {
      this.store, this.branch, this.token, seen := store, branch, token, {};
    }

    ghost function View(): BranchState
      reads this, store
    {
      store.View(branch)
    }

    /** All that is due is claimed and returned, or, when the lease was lost, nothing is. */
    method Claim(represented: set<InputId>) returns (claimed: seq<PendingInput>, fenced: bool)
      requires store.Valid()
      modifies this, store`inputs, store`views
      ensures store.Valid() && QueueOk(old(View()))
      ensures var due := Due(Ledger.ListInputs(old(View())), represented, old(seen));
        && (fenced <==> due != [] && Stale(old(View()), token))
        && View() == (if fenced then old(View()) else ClaimEach(old(View()), Ids(due), token))
        && (!fenced ==> claimed == Items(due) && seen == old(seen) + IdSet(due))
      ensures forall b :: b != branch ==> store.View(b) == old(store.View(b))
    {
      hide MemorySteps.Valid, MemorySteps.View;
      var records := store.ListInputs(branch);
      hide QueueOk, Ledger.ListInputs;
      ghost var s, listed, before := View(), Strip(records), seen;
      claimed, fenced := [], false;
      ProgressStarts(s, listed, represented, before, token);
      for i := 0 to |records|
        invariant store.Valid()
        invariant Progress(s, listed, i, represented, before, token, seen, claimed, View())
        invariant forall b :: b != branch ==> store.View(b) == old(store.View(b))
      {
        hide Progress, QueueOk, Ledger.ListInputs, Due, Items, Ids, IdSet, ClaimEach;
        var record := records[i];
        ProgressSteps(s, listed, i, represented, before, token, seen, claimed, View());
        if record.status in {Discarded, Admitted} || record.id in represented || record.id in seen { continue; }
        var r := store.ClaimInput(branch, record.id, token);
        if r.Failure? {
          fenced := true;
          return;
        }
        seen := seen + {record.id};
        claimed := claimed + [Decode(record.value)];
      }
      assert listed[..|records|] == listed;
    }

    /** The named items are admitted, or, when the lease was lost, none is. */
    method Admit(items: seq<PendingInput>) returns (fenced: bool)
      requires store.Valid()
      modifies store`inputs, store`views
      ensures store.Valid()
      ensures fenced <==> Origins(items) != [] && Stale(old(View()), token)
      ensures View() == (if fenced then old(View()) else AdmitEach(old(View()), Origins(items)))
      ensures forall b :: b != branch ==> store.View(b) == old(store.View(b))
    {
      var ids := Origins(items);
      if ids == [] { return false; }
      var r := store.AdmitInputs(branch, ids, token);
      fenced := r.Failure?;
    }

    /** The named items are discarded, or, when the lease was lost, none is. */
    method Discard(items: seq<PendingInput>) returns (fenced: bool)
      requires store.Valid()
      modifies store`inputs, store`views
      ensures store.Valid()
      ensures fenced <==> Origins(items) != [] && Stale(old(View()), token)
      ensures View() == (if fenced then old(View()) else DiscardEach(old(View()), Origins(items)))
      ensures forall b :: b != branch ==> store.View(b) == old(store.View(b))
    {
      var ids := Origins(items);
      if ids == [] { return false; }
      var r := store.DiscardInputs(branch, ids, token);
      fenced := r.Failure?;
    }
  }

  /** How far a claim has come after the first `i` records. */
  ghost predicate Progress(s: BranchState, listed: seq<Listed>, i: nat, represented: set<InputId>, before: set<InputId>,
                           token: int, seen: set<InputId>, claimed: seq<PendingInput>, now: BranchState)
  {
    i <= |listed| &&
    var due := Due(listed[..i], represented, before);
    && claimed == Items(due) && seen == before + IdSet(due)
    && now == ClaimEach(s, Ids(due), token) && (due != [] ==> !Stale(s, token))
  }

  lemma ProgressStarts(s: BranchState, listed: seq<Listed>, represented: set<InputId>, before: set<InputId>, token: int)
    ensures Progress(s, listed, 0, represented, before, token, before, [], s)
  {
    assert listed[..0] == [];
  }

  lemma ProgressSteps(s: BranchState, listed: seq<Listed>, i: nat, represented: set<InputId>, before: set<InputId>,
                      token: int, seen: set<InputId>, claimed: seq<PendingInput>, now: BranchState)
    requires i < |listed| && Progress(s, listed, i, represented, before, token, seen, claimed, now)
    ensures !Wanted(listed[i], represented, seen) ==>
      Progress(s, listed, i + 1, represented, before, token, seen, claimed, now)
    ensures Wanted(listed[i], represented, seen) ==>
      var (next, reply) := Ledger.ClaimInput(now, listed[i].id, token);
      && (reply.Success? ==> Progress(s, listed, i + 1, represented, before, token,
                                      seen + {listed[i].id}, claimed + [Decode(listed[i].value)], next))
      && (reply.Failure? ==> next == s && Stale(s, token) && Due(listed, represented, before) != [])
  {
    hide Wanted, Items, Ids, IdSet, ClaimEach;
    var due := Due(listed[..i], represented, before);
    DueNext(listed, represented, before, i);
    ClaimMore(s, due, listed[i], token);
    ClaimKeepsTokens(s, Ids(due), token);
    DueStays(listed, represented, before, i + 1);
    NoClaims(s, token);
    assert due + [] == due;
  }

  lemma NoClaims(s: BranchState, token: int)
    ensures ClaimEach(s, Ids([]), token) == s
  {
  }

  lemma DueNext(listed: seq<Listed>, represented: set<InputId>, seen: set<InputId>, i: nat)
    requires i < |listed|
    ensures var due := Due(listed[..i], represented, seen);
      Due(listed[..i + 1], represented, seen) == due + if Wanted(listed[i], represented, seen + IdSet(due)) then [listed[i]] else []
  {
    assert listed[..i + 1][..i] == listed[..i];
  }

  lemma {:induction false} DueStays(listed: seq<Listed>, represented: set<InputId>, seen: set<InputId>, i: nat)
    requires i <= |listed|
    ensures Due(listed[..i], represented, seen) <= Due(listed, represented, seen)
    decreases |listed| - i
  {
    if i < |listed| {
      DueNext(listed, represented, seen, i);
      DueStays(listed, represented, seen, i + 1);
    } else {
      assert listed[..i] == listed;
    }
  }

  lemma {:induction false} ClaimKeepsTokens(s: BranchState, ids: seq<InputId>, token: int)
    ensures ClaimEach(s, ids, token).issued == s.issued
  {
    if ids != [] { ClaimKeepsTokens(s, ids[..|ids| - 1], token); }
  }

  lemma ClaimMore(s: BranchState, due: seq<Listed>, r: Listed, token: int)
    ensures Ids(due + [r]) == Ids(due) + [r.id]
    ensures Items(due + [r]) == Items(due) + [Decode(r.value)]
    ensures IdSet(due + [r]) == IdSet(due) + {r.id}
    ensures ClaimEach(s, Ids(due + [r]), token) == Ledger.ClaimInput(ClaimEach(s, Ids(due), token), r.id, token).0
  {
    assert Ids(due + [r])[..|due|] == Ids(due);
  }
}
