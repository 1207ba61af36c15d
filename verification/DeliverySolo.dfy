/** The actions of `Delivery`, taken by one attempt with nobody in between, are one boundary of
    `Boundary`: the same inputs claimed, dropped, recorded and admitted. */
module DeliverySolo {
  import opened Ledger
  import opened LedgerLaws
  import opened Inputs
  import opened Requests
  import opened BoundaryLaws
  import opened Delivery

  // ---- one action -----------------------------------------------------------------------------

  ghost predicate Live(w: World, a: Attempt) {
    QueueOk(w.store) && a in w.holders && !Stale(w.store, w.holders[a].token)
  }

  ghost predicate Became(w: World, r: World, a: Attempt, store: BranchState, h: Holder, active: seq<seq<InputId>>) {
    r.store == store && r.holders == w.holders[a := h] && r.active == active
  }

  lemma Begins(w: World, a: Attempt)
    requires Live(w, a) && w.holders[a].stage.Resting?
    ensures Became(w, Do(w, BeginClaim(a, false)), a, w.store,
                   w.holders[a].(stage := Claiming(ListInputs(w.store), [], false)), w.active)
  {
    hide QueueOk, ListInputs, Stale;
  }

  lemma ClaimsNext(w: World, a: Attempt)
    requires Live(w, a) && w.holders[a].stage.Claiming? && w.holders[a].stage.todo != []
    ensures var h := w.holders[a];
      var (r, rest) := (h.stage.todo[0], h.stage.todo[1..]);
      if Wanted(r, Represented(h), h.seen)
      then Became(w, Do(w, ClaimOne(a)), a, Ledger.ClaimInput(w.store, r.id, h.token).0,
                  h.(seen := h.seen + {r.id}, stage := h.stage.(todo := rest, got := h.stage.got + [r.id])), w.active)
      else Became(w, Do(w, ClaimOne(a)), a, w.store, h.(stage := h.stage.(todo := rest)), w.active)
  {
    hide QueueOk, Stale, Represented, Wanted, Ledger.ClaimInput;
  }

  lemma EndsClaim(w: World, a: Attempt)
    requires Live(w, a) && w.holders[a].stage.Claiming? && w.holders[a].stage.todo == [] && !w.holders[a].stage.late
    ensures var h := w.holders[a];
      Became(w, Do(w, EndClaim(a)), a, w.store, h.(prefetched := [], stage := Screening(h.prefetched + h.stage.got)), w.active)
  {
    hide QueueOk, Stale;
  }

  lemma Screens(w: World, a: Attempt, keep: seq<InputId>)
    requires Live(w, a) && w.holders[a].stage.Screening? && Keepable(w.holders[a].stage.offered, keep)
    ensures var h := w.holders[a];
      Became(w, Do(w, Screen(a, keep)), a, DiscardEach(w.store, Without(h.stage.offered, keep)), h.(stage := Recording(keep)), w.active)
  {
    hide QueueOk, Keepable, Without;
  }

  lemma Records(w: World, a: Attempt)
    requires Live(w, a) && w.holders[a].stage.Recording?
    ensures var h := w.holders[a];
      Became(w, Do(w, Record(a)), a, w.store,
             h.(carried := h.carried + [h.stage.keep], stage := Admitting(h.stage.keep)), h.carried + [h.stage.keep])
  {
    hide QueueOk, Stale, Flat;
  }

  lemma Admits(w: World, a: Attempt)
    requires Live(w, a) && w.holders[a].stage.Admitting?
    ensures var h := w.holders[a];
      Became(w, Do(w, Admit(a)), a, AdmitEach(w.store, h.stage.keep), h.(stage := Resting), w.active)
  {
    hide QueueOk;
  }

  lemma ClaimStaysLive(s: BranchState, id: InputId, token: int)
    requires QueueOk(s)
    ensures QueueOk(Ledger.ClaimInput(s, id, token).0) && Ledger.ClaimInput(s, id, token).0.issued == s.issued
  {
    QueueStep(s, ClaimOp(id, token));
  }

  lemma DiscardStaysLive(s: BranchState, ids: seq<InputId>)
    requires QueueOk(s)
    ensures QueueOk(DiscardEach(s, ids)) && DiscardEach(s, ids).issued == s.issued
  {
    QueueStep(s, DiscardOp(ids, 0));
    DiscardEachFrame(s, ids);
  }

  // ---- all of them ----------------------------------------------------------------------------

  lemma PlayOn(w: World, actions: seq<Action>, x: Action)
    requires QueueOk(Play(w, actions).store)
    ensures Play(w, actions + [x]) == Do(Play(w, actions), x)
  {
    assert (actions + [x])[..|actions|] == actions;
  }

  function Claims(a: Attempt, n: nat): seq<Action> {
    seq(n, i => ClaimOne(a))
  }

  /** Where the attempt stands after `i` of the listed records. */
  ghost predicate Claimed(w: World, r: World, a: Attempt, i: nat)
    requires a in w.holders && w.holders[a].stage.Claiming? && i <= |w.holders[a].stage.todo|
  {
    var h := w.holders[a];
    var due := Due(h.stage.todo[..i], Represented(h), h.seen);
    QueueOk(r.store) && Became(w, r, a, ClaimEach(w.store, Ids(due), h.token),
      h.(seen := h.seen + IdSet(due), stage := Claiming(h.stage.todo[i..], Ids(due), h.stage.late)), w.active)
  }

  lemma ClaimStep(w: World, r: World, a: Attempt, i: nat)
    requires Live(w, a) && w.holders[a].stage.Claiming? && i < |w.holders[a].stage.todo|
    requires Claimed(w, r, a, i)
    ensures Claimed(w, Do(r, ClaimOne(a)), a, i + 1)
  {
    hide Do, QueueOk, Wanted, ClaimEach, Ids, IdSet, Represented, Ledger.ClaimInput;
    var h := w.holders[a];
    var todo := h.stage.todo;
    var due := Due(todo[..i], Represented(h), h.seen);
    DueNext(todo, Represented(h), h.seen, i);
    hide Due;
    ClaimMore(w.store, due, todo[i], h.token);
    ClaimKeepsTokens(w.store, Ids(due), h.token);
    assert todo[i..][0] == todo[i] && todo[i..][1..] == todo[i + 1..];
    assert due + [] == due;
    SameRepresented(r.holders[a], h);
    ClaimsNext(r, a);
    ClaimStaysLive(r.store, todo[i].id, h.token);
    assert h.seen + (IdSet(due) + {todo[i].id}) == (h.seen + IdSet(due)) + {todo[i].id};
    assert Do(r, ClaimOne(a)).holders == w.holders[a := Do(r, ClaimOne(a)).holders[a]];
  }

  lemma SameRepresented(g: Holder, h: Holder)
    requires g.carried == h.carried
    ensures Represented(g) == Represented(h)
  {
  }

  lemma NothingClaimed(w: World, a: Attempt)
    requires Live(w, a) && w.holders[a].stage.Claiming? && w.holders[a].stage.got == []
    ensures Claimed(w, w, a, 0)
  {
    var h := w.holders[a];
    assert h.stage.todo[..0] == [] && h.stage.todo[0..] == h.stage.todo;
    assert Ids([]) == [] && IdSet([]) == {} && h.seen + {} == h.seen;
    hide QueueOk;
  }

  lemma {:induction false} ClaimsGo(w: World, a: Attempt, i: nat)
    requires Live(w, a) && w.holders[a].stage.Claiming? && w.holders[a].stage.got == []
    requires i <= |w.holders[a].stage.todo|
    ensures Claimed(w, Play(w, Claims(a, i)), a, i)
  {
    hide Do, QueueOk, Due, ClaimEach, Stale;
    if i == 0 {
      NothingClaimed(w, a);
    } else {
      ClaimsGo(w, a, i - 1);
      assert Claims(a, i) == Claims(a, i - 1) + [ClaimOne(a)];
      PlayOn(w, Claims(a, i - 1), ClaimOne(a));
      hide Claimed;
      ClaimStep(w, Play(w, Claims(a, i - 1)), a, i - 1);
    }
  }

  ghost function DueFor(w: World, a: Attempt): seq<Listed>
    requires a in w.holders && QueueOk(w.store)
  {
    Due(ListInputs(w.store), Represented(w.holders[a]), w.holders[a].seen)
  }

  /** The ids of a boundary: what is still held from before, and what is due. */
  ghost function IdsAt(w: World, a: Attempt): seq<InputId>
    requires a in w.holders && QueueOk(w.store)
  {
    w.holders[a].prefetched + Ids(DueFor(w, a))
  }

  lemma {:induction false} PlayApart(w: World, first: seq<Action>, more: seq<Action>)
    ensures Play(w, first + more) == Play(Play(w, first), more)
  {
    hide Do, QueueOk;
    if more == [] {
      assert first + more == first;
    } else {
      var n := |more| - 1;
      PlayApart(w, first, more[..n]);
      assert (first + more)[..|first + more| - 1] == first + more[..n];
    }
  }

  lemma PlayOne(w: World, x: Action)
    requires QueueOk(w.store)
    ensures Play(w, [x]) == Do(w, x)
  {
    assert [x][..0] == [];
  }

  /** The actions of one whole boundary. */
  ghost function Script(w: World, a: Attempt, keep: seq<InputId>): seq<Action> {
    ClaimScript(w, a) + [Screen(a, keep)] + [Record(a)] + [Admit(a)]
  }

  ghost function ClaimScript(w: World, a: Attempt): seq<Action> {
    [BeginClaim(a, false)] + Claims(a, |w.store.order|) + [EndClaim(a)]
  }

  lemma AllListed(s: BranchState)
    requires QueueOk(s)
    ensures |ListInputs(s)| == |s.order|
    ensures ListInputs(s)[..|s.order|] == ListInputs(s) && ListInputs(s)[|s.order|..] == []
  {
    assert |ListInputs(s)| == |s.order|;
  }

  /** Claiming is done: the attempt holds the ids of the boundary, and the queue shows them claimed. */
  lemma ClaimsAll(w: World, a: Attempt)
    requires Live(w, a) && w.holders[a].stage.Resting?
    ensures var r := Play(w, ClaimScript(w, a));
      var h := w.holders[a];
      && QueueOk(r.store) && r.store == ClaimEach(w.store, Ids(DueFor(w, a)), h.token) && r.active == w.active
      && a in r.holders && r.holders[a].stage == Screening(IdsAt(w, a))
      && r.holders[a].token == h.token && r.holders[a].carried == h.carried
  {
    hide Do, Play, QueueOk, Stale, Due, ClaimEach, Ids, IdSet, Represented, ListInputs, Claims;
    var h := w.holders[a];
    var n := |w.store.order|;
    var b := Do(w, BeginClaim(a, false));
    Begins(w, a);
    SameRepresented(b.holders[a], h);
    AllListed(w.store);
    ClaimsGo(b, a, n);
    var c := Play(b, Claims(a, n));
    PlayOne(w, BeginClaim(a, false));
    PlayApart(w, [BeginClaim(a, false)], Claims(a, n));
    PlayOn(w, [BeginClaim(a, false)] + Claims(a, n), EndClaim(a));
    StillLive(w.store, Ids(DueFor(w, a)), h.token);
    EndsClaim(c, a);
  }

  lemma StillLive(s: BranchState, ids: seq<InputId>, token: int)
    ensures Stale(ClaimEach(s, ids, token), token) == Stale(s, token)
  {
    StaleClaims(s, ids, token);
  }

  /** With nobody in between, the actions of an attempt claim what is due, discard what its screen dropped
      and admit what it kept, and the transcript shows the request with exactly the kept ids. */
  lemma {:induction false} ActionsAreTheBoundary(w: World, a: Attempt, keep: seq<InputId>)
    requires Live(w, a) && w.holders[a].stage.Resting? && Keepable(IdsAt(w, a), keep)
    ensures var r := Play(w, Script(w, a, keep));
      var h := w.holders[a];
      && r.store == AdmitEach(DiscardEach(ClaimEach(w.store, Ids(DueFor(w, a)), h.token), Without(IdsAt(w, a), keep)), keep)
      && r.active == h.carried + [keep]
      && a in r.holders && r.holders[a].stage.Resting? && r.holders[a].carried == h.carried + [keep]
  {
    hide Do, Play, QueueOk, DueFor, IdsAt, ClaimEach, DiscardEach, AdmitEach, Keepable, Without, ClaimScript, Stale;
    var h := w.holders[a];
    var first := ClaimScript(w, a);
    ClaimsAll(w, a);
    StaleClaims(w.store, Ids(DueFor(w, a)), h.token);
    StillLiveAt(w, Play(w, first), a);
    var c := Play(w, first);
    Screens(c, a, keep);
    DiscardStaysLive(c.store, Without(IdsAt(w, a), keep));
    PlayOn(w, first, Screen(a, keep));
    var d := Do(c, Screen(a, keep));
    StillLiveAt(c, d, a);
    Records(d, a);
    PlayOn(w, first + [Screen(a, keep)], Record(a));
    var e := Do(d, Record(a));
    StillLiveAt(d, e, a);
    Admits(e, a);
    PlayOn(w, first + [Screen(a, keep)] + [Record(a)], Admit(a));
  }

  lemma StillLiveAt(w: World, r: World, a: Attempt)
    requires Live(w, a) && QueueOk(r.store) && a in r.holders && r.holders[a].token == w.holders[a].token
    requires r.store.issued == w.store.issued
    ensures Live(r, a)
  {
    hide QueueOk;
  }

  // ---- the program's own terms ----------------------------------------------------------------

  lemma WithoutLast(ids: seq<InputId>, id: InputId, keep: seq<InputId>)
    ensures Without(ids + [id], keep) == Without(ids, keep) + if id in keep then [] else [id]
  {
    assert (ids + [id])[..|ids|] == ids;
  }

  lemma {:induction false} LostAreWithout(pending: seq<PendingInput>, kept: seq<PendingInput>)
    requires "" !in Origins(pending)
    ensures Origins(Lost(pending, kept)) == Without(Origins(pending), Origins(kept))
  {
    if pending != [] {
      var n := |pending| - 1;
      var last := pending[n];
      var more := if last.origin.Some? && last.origin.value != "" && last.origin.value !in Origins(kept) then [last] else [];
      assert Lost(pending, kept) == Lost(pending[..n], kept) + more;
      assert pending[..n] + [last] == pending;
      OriginsJoin(pending[..n], [last]);
      OriginsJoin(Lost(pending[..n], kept), more);
      OriginsOne(last);
      assert Origins([]) == [];
      hide Origins, Lost, Without;
      assert forall id :: id in Origins(pending[..n]) ==> id in Origins(pending);
      LostAreWithout(pending[..n], kept);
      if last.origin.Some? {
        assert last.origin.value in Origins(pending);
        WithoutLast(Origins(pending[..n]), last.origin.value, Origins(kept));
      } else {
        assert Origins(pending) == Origins(pending[..n]);
      }
    }
  }

  lemma OriginsOne(item: PendingInput)
    ensures Origins([item]) == if item.origin.Some? then [item.origin.value] else []
  {
    assert [item][..0] == [];
  }

  /** And that is what a boundary of the program leaves of the queue, for the items behind those ids. */
  lemma {:induction false} ActionsAreTheProgram(w: World, a: Attempt, prefetched: seq<PendingInput>, kept: seq<PendingInput>)
    requires Live(w, a) && w.holders[a].stage.Resting? && Tagged(w.store)
    requires Prefetched(w.store, prefetched, w.holders[a].seen) && Origins(prefetched) == w.holders[a].prefetched
    requires RewritesOrDrops(Gathered(prefetched, w.store, Represented(w.holders[a]), w.holders[a].seen), kept)
    ensures var h := w.holders[a];
      var pending := Gathered(prefetched, w.store, Represented(h), h.seen);
      Play(w, Script(w, a, Origins(kept))).store
        == Delivered(w.store, Due(ListInputs(w.store), Represented(h), h.seen), Lost(pending, kept), kept, h.token)
  {
    hide Do, Play, QueueOk, Due, ClaimEach, DiscardEach, AdmitEach, Origins, Ids, Represented, ListInputs, Lost, Gathered,
      Tagged, Prefetched, Without, Stale, Script;
    var h := w.holders[a];
    GatheredIsOpen(w.store, prefetched, Represented(h), h.seen);
    var pending := Gathered(prefetched, w.store, Represented(h), h.seen);
    LostAreWithout(pending, kept);
    ActionsAreTheBoundary(w, a, Origins(kept));
  }
}
