/** Input delivery by any number of attempts at one conversation, each with its own chain of
    requests, with a crash possible between any two of: each claim, the screen, the record in the
    transcript, and the admission. The transcript takes a record whether or not the lease is lost. */
module Delivery {
  import opened Wrappers
  import opened Ledger
  import Transitions
  import opened LedgerLaws
  import opened Inputs

  type Attempt = string

  datatype Stage =
    | Resting
    | Claiming(todo: seq<Listed>, got: seq<InputId>, late: bool)
    | Screening(offered: seq<InputId>)
    | Recording(keep: seq<InputId>)
    | Admitting(keep: seq<InputId>)

  /** One attempt: the input ids each request of its history carried, what it claimed ahead, and what
      it has claimed at all. */
  datatype Holder = Holder(token: int, carried: seq<seq<InputId>>, prefetched: seq<InputId>, seen: set<InputId>, stage: Stage)

  datatype World = World(
    store: BranchState,
    active: seq<seq<InputId>>,      // the active history, as a reader of the transcript finds it
    holders: map<Attempt, Holder>,
    recorded: set<InputId>)         // ids that ever entered a history

  datatype Action =
    | Open(a: Attempt, token: int, given: Option<seq<seq<InputId>>>)
    | BeginClaim(a: Attempt, late: bool)
    | ClaimOne(a: Attempt)
    | EndClaim(a: Attempt)
    | Screen(a: Attempt, keep: seq<InputId>)
    | Record(a: Attempt)
    | Admit(a: Attempt)
    | Republish(a: Attempt)         // the attempt aligns the transcript with its own history
    | Stop(a: Attempt)              // a crash, a halt, a lost lease, or the end
    | Elsewhere(op: Op)

  const START := World(EMPTY, [], map[], {})

  /** The history an attempt goes on from: the active one, or one it was given (a stored continuation, a
      caller's, a fork's) that carries no input twice. */
  ghost function Opening(w: World, given: Option<seq<seq<InputId>>>): seq<seq<InputId>> {
    if given.Some? && OnceOnly(given.value) then given.value else w.active
  }

  function Flat(history: seq<seq<InputId>>): seq<InputId> {
    if history == [] then [] else Flat(history[..|history| - 1]) + history[|history| - 1]
  }

  function Represented(h: Holder): set<InputId> {
    set id | id in Flat(h.carried)
  }

  /** No id occurs at two places of the history. */
  predicate OnceOnly(history: seq<seq<InputId>>) {
    forall r, i, q, j :: 0 <= r < |history| && 0 <= i < |history[r]| && 0 <= q < |history| && 0 <= j < |history[q]| ==>
      (history[r][i] == history[q][j] ==> r == q && i == j)
  }

  lemma {:induction false} FlatAt(history: seq<seq<InputId>>, r: nat, i: nat)
    requires r < |history| && i < |history[r]|
    ensures |Flat(history[..r])| + i < |Flat(history)| && Flat(history)[|Flat(history[..r])| + i] == history[r][i]
    ensures |Flat(history[..r + 1])| == |Flat(history[..r])| + |history[r]| <= |Flat(history)|
    decreases |history|
  {
    var n := |history| - 1;
    if r < n {
      FlatAt(history[..n], r, i);
      assert history[..n][..r] == history[..r] && history[..n][..r + 1] == history[..r + 1];
    } else {
      assert history[..r] == history[..n] && history[..r + 1] == history;
    }
  }

  lemma {:induction false} FlatRises(history: seq<seq<InputId>>, r: nat, q: nat)
    requires r <= q <= |history|
    ensures |Flat(history[..r])| <= |Flat(history[..q])|
  {
    if r < q {
      FlatRises(history, r, q - 1);
      assert history[..q][..q - 1] == history[..q - 1];
    }
  }

  /** A history repeats no id exactly when reading it through meets no id twice. */
  lemma OnceOnlyIsEachOnce(history: seq<seq<InputId>>)
    requires EachOnce(Flat(history))
    ensures OnceOnly(history)
  {
    forall r, i, q, j | 0 <= r < |history| && 0 <= i < |history[r]| && 0 <= q < |history| && 0 <= j < |history[q]|
      && history[r][i] == history[q][j]
      ensures r == q && i == j
    {
      FlatAt(history, r, i);
      FlatAt(history, q, j);
      if r < q { FlatRises(history, r + 1, q); }
      if q < r { FlatRises(history, q + 1, r); }
    }
  }

  lemma {:induction false} EachOnceIfOnceOnly(history: seq<seq<InputId>>)
    requires OnceOnly(history)
    ensures EachOnce(Flat(history))
  {
    if history != [] {
      var n := |history| - 1;
      var init, last := history[..n], history[n];
      assert forall r :: 0 <= r < n ==> init[r] == history[r];
      EachOnceIfOnceOnly(init);
      forall i, j | 0 <= i < j < |Flat(history)| ensures Flat(history)[i] != Flat(history)[j] {
        if j >= |Flat(init)| {
          if i < |Flat(init)| {
            var r, k := FlatFrom(init, i);
            assert history[r][k] != last[j - |Flat(init)|];
          } else {
            assert last[i - |Flat(init)|] != last[j - |Flat(init)|] by {
              assert history[n][i - |Flat(init)|] == last[i - |Flat(init)|];
            }
          }
        }
      }
    }
  }

  lemma {:induction false} FlatFrom(history: seq<seq<InputId>>, i: nat) returns (r: nat, k: nat)
    requires i < |Flat(history)|
    ensures r < |history| && k < |history[r]| && history[r][k] == Flat(history)[i]
  {
    var n := |history| - 1;
    if i < |Flat(history[..n])| { r, k := FlatFrom(history[..n], i); } else { r, k := n, i - |Flat(history[..n])|; }
  }

  /** A screen that only rewrites or drops. */
  ghost predicate Keepable(offered: seq<InputId>, keep: seq<InputId>) {
    EachOnce(keep) && forall id :: id in keep ==> id in offered
  }

  function Without(offered: seq<InputId>, keep: seq<InputId>): (lost: seq<InputId>)
    ensures forall id :: id in lost <==> id in offered && id !in keep
  {
    if offered == [] then [] else
    var n := |offered| - 1;
    assert offered == offered[..n] + [offered[n]];
    Without(offered[..n], keep) + if offered[n] in keep then [] else [offered[n]]
  }

  /** Whoever else is at work on the branch: it submits, claims and discards, but does not admit. */
  predicate Foreign(op: Op) {
    !op.AdmitOp?
  }

  ghost function OpOf(w: World, x: Action): Option<Op> {
    if x.Elsewhere? then if Foreign(x.op) then Some(x.op) else None
    else if x.a !in w.holders then None
    else
      var h := w.holders[x.a];
      match x
      case ClaimOne(_) =>
        if h.stage.Claiming? && h.stage.todo != [] && Wanted(h.stage.todo[0], Represented(h), h.seen)
        then Some(ClaimOp(h.stage.todo[0].id, h.token)) else None
      case Screen(_, keep) =>
        if h.stage.Screening? && Keepable(h.stage.offered, keep) && Without(h.stage.offered, keep) != []
        then Some(DiscardOp(Without(h.stage.offered, keep), h.token)) else None
      case Admit(_) => if h.stage.Admitting? && h.stage.keep != [] then Some(AdmitOp(h.stage.keep, h.token)) else None
      case _ => None
  }

  /** Where an action leaves the attempt it moves; a refused write ends the attempt. */
  ghost function HolderAfter(w: World, x: Action): Option<Holder>
    requires !x.Elsewhere? && x.a in w.holders && !x.Open? && !x.Stop?
    requires QueueOk(w.store)
  {
    var h := w.holders[x.a];
    var refused := OpOf(w, x).Some? && Stale(w.store, h.token);
    if refused then None else
    match x
    case BeginClaim(_, late) =>
      Some(if h.stage.Resting? then h.(stage := Claiming(ListInputs(w.store), [], late)) else h)
    case ClaimOne(_) =>
      if !h.stage.Claiming? || h.stage.todo == [] then Some(h)
      else
        var r, rest := h.stage.todo[0], h.stage.todo[1..];
        Some(if Wanted(r, Represented(h), h.seen)
             then h.(seen := h.seen + {r.id}, stage := h.stage.(todo := rest, got := h.stage.got + [r.id]))
             else h.(stage := h.stage.(todo := rest)))
    case EndClaim(_) =>
      if !h.stage.Claiming? || h.stage.todo != [] then Some(h)
      else if !h.stage.late then Some(h.(prefetched := [], stage := Screening(h.prefetched + h.stage.got)))
      else if h.stage.got == [] then Some(h.(stage := Resting))
      else Some(h.(prefetched := h.stage.got, stage := Resting))
    case Screen(_, keep) =>
      Some(if h.stage.Screening? && Keepable(h.stage.offered, keep) then h.(stage := Recording(keep)) else h)
    case Record(_) =>
      Some(if h.stage.Recording? then h.(carried := h.carried + [h.stage.keep], stage := Admitting(h.stage.keep)) else h)
    case Admit(_) => Some(if h.stage.Admitting? then h.(stage := Resting) else h)
    case Republish(_) => Some(h)
  }

  ghost function HoldersAfter(w: World, x: Action): map<Attempt, Holder>
    requires QueueOk(w.store)
  {
    if x.Elsewhere? then w.holders
    else if x.Open? then w.holders[x.a := Holder(x.token, Opening(w, x.given), [], {}, Resting)]
    else if x.a !in w.holders then w.holders
    else if x.Stop? then w.holders - {x.a}
    else match HolderAfter(w, x) case Some(h) => w.holders[x.a := h] case None => w.holders - {x.a}
  }

  /** The history an action puts into the transcript, if it does that: opening aligns the transcript with
      the history it goes on from, and a record adds a request to it. */
  ghost function Publishes(w: World, x: Action): Option<seq<seq<InputId>>> {
    if x.Open? then Some(Opening(w, x.given))
    else if x.Elsewhere? || x.a !in w.holders then None
    else
      var h := w.holders[x.a];
      if x.Record? && h.stage.Recording? then Some(h.carried + [h.stage.keep])
      else if x.Republish? && h.stage.Resting? then Some(h.carried)
      else None
  }

  ghost function Do(w: World, x: Action): World
    requires QueueOk(w.store)
  {
    World(
      if OpOf(w, x).Some? then Next(w.store, OpOf(w, x).value) else w.store,
      if Publishes(w, x).Some? then Publishes(w, x).value else w.active,
      HoldersAfter(w, x),
      w.recorded + (if Publishes(w, x).Some? then set id | id in Flat(Publishes(w, x).value) else {}))
  }

  // ---- what every run keeps -------------------------------------------------------------------

  /** The ids an attempt has claimed and not yet put into its history. */
  function Held(h: Holder): seq<InputId> {
    match h.stage
    case Resting => h.prefetched
    case Claiming(_, got, _) => h.prefetched + got
    case Screening(offered) => offered
    case Recording(keep) => keep
    case Admitting(_) => []
  }

  /** Its history and what it holds repeat no id, and it remembers what it holds. */
  ghost predicate HolderOk(h: Holder) {
    && EachOnce(Flat(h.carried) + Held(h))
    && (forall id :: id in Held(h) ==> id in h.seen)
    && (h.stage.Screening? || h.stage.Recording? || h.stage.Admitting? ==> h.prefetched == [])
    && (h.stage.Admitting? ==> forall id :: id in h.stage.keep ==> id in Flat(h.carried))
  }

  ghost predicate Sound(w: World) {
    && QueueOk(w.store)
    && EachOnce(Flat(w.active)) && (forall id :: id in Flat(w.active) ==> id in w.recorded)
    && (forall a :: a in w.holders ==> HolderOk(w.holders[a]))
    && (forall a, id :: a in w.holders && id in Flat(w.holders[a].carried) ==> id in w.recorded)
    && (forall id :: id in w.store.inputs && w.store.inputs[id].status == Admitted ==> id in w.recorded)
  }

  lemma FlatMore(history: seq<seq<InputId>>, ids: seq<InputId>)
    ensures Flat(history + [ids]) == Flat(history) + ids
  {
    assert (history + [ids])[..|history|] == history;
  }

  lemma OnceMore(ids: seq<InputId>, id: InputId)
    requires EachOnce(ids) && id !in ids
    ensures EachOnce(ids + [id])
  {
  }

  lemma OncePart(a: seq<InputId>, b: seq<InputId>)
    requires EachOnce(a + b)
    ensures EachOnce(a) && EachOnce(b)
  {
    forall i, j | 0 <= i < j < |a| ensures a[i] != a[j] { assert (a + b)[i] != (a + b)[j]; }
    forall i, j | 0 <= i < j < |b| ensures b[i] != b[j] { assert (a + b)[|a| + i] != (a + b)[|a| + j]; }
  }

  /** Replacing the tail by some of its ids, each once, keeps a sequence free of repeats. */
  lemma OnceKeep(a: seq<InputId>, b: seq<InputId>, keep: seq<InputId>)
    requires EachOnce(a + b) && EachOnce(keep) && forall id :: id in keep ==> id in b
    ensures EachOnce(a + keep)
  {
    OncePart(a, b);
    forall i, j | 0 <= i < j < |a + keep| ensures (a + keep)[i] != (a + keep)[j] {
      if i < |a| <= j {
        assert keep[j - |a|] in b;
        var k :| 0 <= k < |b| && b[k] == keep[j - |a|];
        assert (a + b)[i] != (a + b)[|a| + k];
      }
    }
  }

  lemma ClaimedIsOk(h: Holder)
    requires HolderOk(h) && h.stage.Claiming? && h.stage.todo != []
    requires Wanted(h.stage.todo[0], Represented(h), h.seen)
    ensures HolderOk(h.(seen := h.seen + {h.stage.todo[0].id},
                        stage := h.stage.(todo := h.stage.todo[1..], got := h.stage.got + [h.stage.todo[0].id])))
  {
    var id := h.stage.todo[0].id;
    OnceMore(Flat(h.carried) + Held(h), id);
    assert Flat(h.carried) + (h.prefetched + (h.stage.got + [id])) == (Flat(h.carried) + Held(h)) + [id];
  }

  lemma EndedIsOk(h: Holder)
    requires HolderOk(h) && h.stage.Claiming?
    ensures HolderOk(h.(prefetched := [], stage := Screening(h.prefetched + h.stage.got)))
    ensures HolderOk(h.(stage := Resting)) && HolderOk(h.(prefetched := h.stage.got, stage := Resting))
  {
    var flat := Flat(h.carried);
    assert flat + (h.prefetched + h.stage.got) == (flat + h.prefetched) + h.stage.got;
    OncePart(flat + h.prefetched, h.stage.got);
    OnceKeep(flat, h.prefetched + h.stage.got, h.stage.got);
  }

  lemma ScreenedIsOk(h: Holder, keep: seq<InputId>)
    requires HolderOk(h) && h.stage.Screening? && Keepable(h.stage.offered, keep)
    ensures HolderOk(h.(stage := Recording(keep)))
  {
    OnceKeep(Flat(h.carried), h.stage.offered, keep);
  }

  lemma RecordedIsOk(h: Holder)
    requires HolderOk(h) && h.stage.Recording?
    ensures HolderOk(h.(carried := h.carried + [h.stage.keep], stage := Admitting(h.stage.keep)))
    ensures EachOnce(Flat(h.carried + [h.stage.keep]))
  {
    FlatMore(h.carried, h.stage.keep);
    assert Flat(h.carried + [h.stage.keep]) + [] == Flat(h.carried) + h.stage.keep;
  }

  lemma BegunIsOk(h: Holder, todo: seq<Listed>, late: bool)
    requires HolderOk(h) && h.stage.Resting?
    ensures HolderOk(h.(stage := Claiming(todo, [], late)))
  {
    assert h.prefetched + [] == h.prefetched;
  }

  lemma HolderStaysOk(w: World, x: Action)
    requires Sound(w) && !x.Elsewhere? && x.a in w.holders && !x.Open? && !x.Stop?
    ensures HolderAfter(w, x).Some? ==> HolderOk(HolderAfter(w, x).value)
  {
    hide HolderOk, Keepable, Represented, ListInputs, Wanted, Flat, Without;
    var h := w.holders[x.a];
    match x
    case BeginClaim(_, late) => if h.stage.Resting? { BegunIsOk(h, ListInputs(w.store), late); }
    case ClaimOne(_) =>
      if h.stage.Claiming? && h.stage.todo != [] {
        if Wanted(h.stage.todo[0], Represented(h), h.seen) { ClaimedIsOk(h); } else { SkippedIsOk(h); }
      }
    case EndClaim(_) => if h.stage.Claiming? { EndedIsOk(h); }
    case Screen(_, keep) => if h.stage.Screening? && Keepable(h.stage.offered, keep) { ScreenedIsOk(h, keep); }
    case Record(_) => if h.stage.Recording? { RecordedIsOk(h); }
    case Admit(_) => if h.stage.Admitting? { AdmittedIsOk(h); }
    case Republish(_) =>
  }

  lemma SkippedIsOk(h: Holder)
    requires HolderOk(h) && h.stage.Claiming? && h.stage.todo != []
    ensures HolderOk(h.(stage := h.stage.(todo := h.stage.todo[1..])))
  {
  }

  lemma AdmittedIsOk(h: Holder)
    requires HolderOk(h) && h.stage.Admitting?
    ensures HolderOk(h.(stage := Resting))
  {
  }

  lemma OpeningRepeatsNothing(w: World, given: Option<seq<seq<InputId>>>)
    requires Sound(w)
    ensures EachOnce(Flat(Opening(w, given)))
  {
    if given.Some? && OnceOnly(given.value) { EachOnceIfOnceOnly(given.value); }
  }

  /** What an attempt publishes repeats no id. */
  lemma PublishedOnce(w: World, x: Action)
    requires Sound(w) && Publishes(w, x).Some?
    ensures EachOnce(Flat(Publishes(w, x).value))
  {
    if x.Open? {
      OpeningRepeatsNothing(w, x.given);
    } else {
      var h := w.holders[x.a];
      if x.Record? { RecordedIsOk(h); } else { OncePart(Flat(h.carried), Held(h)); }
    }
  }

  /** Whatever a history carries was recorded. */
  lemma CarriedIsRecorded(w: World, x: Action, a: Attempt, id: InputId)
    requires Sound(w) && a in Do(w, x).holders && id in Flat(Do(w, x).holders[a].carried)
    ensures id in Do(w, x).recorded
  {
    hide QueueOk, HolderOk, OpOf, Keepable, Represented, ListInputs, Wanted, Next, EachOnce;
  }

  lemma {:induction false} AdmitEachOnly(s: BranchState, ids: seq<InputId>)
    ensures var r := AdmitEach(s, ids);
      forall id :: id in r.inputs && r.inputs[id].status == Admitted ==>
        id in ids || (id in s.inputs && s.inputs[id].status == Admitted)
  {
    if ids != [] {
      AdmitEachOnly(s, ids[..|ids| - 1]);
      assert ids == ids[..|ids| - 1] + [ids[|ids| - 1]];
    }
  }

  /** Only an admission admits. */
  lemma OthersDoNotAdmit(s: BranchState, op: Op, id: InputId)
    requires !op.AdmitOp? && id in Next(s, op).inputs && Next(s, op).inputs[id].status == Admitted
    ensures id in s.inputs && s.inputs[id].status == Admitted
  {
    match op
    case DiscardOp(ids, _) => DiscardEachOnly(s, ids);
    case CommitOp(t, token) => Transitions.CommitAllOrNothing(s, t, token);
    case _ =>
  }

  lemma {:induction false} DiscardEachOnly(s: BranchState, ids: seq<InputId>)
    ensures var r := DiscardEach(s, ids);
      forall id :: id in r.inputs && r.inputs[id].status == Admitted ==> id in s.inputs && s.inputs[id].status == Admitted
  {
    if ids != [] { DiscardEachOnly(s, ids[..|ids| - 1]); }
  }

  /** Admission comes after the record. */
  lemma AdmittedIsRecorded(w: World, x: Action, id: InputId)
    requires Sound(w) && id in Do(w, x).store.inputs && Do(w, x).store.inputs[id].status == Admitted
    ensures id in Do(w, x).recorded
  {
    hide QueueOk, Keepable, Represented, ListInputs, Wanted, Next, EachOnce, HoldersAfter, Publishes, Held, Flat;
    var op := OpOf(w, x);
    if op.Some? {
      if op.value.AdmitOp? {
        AdmitsOwn(w, x);
        AdmitIs(w.store, op.value);
        AdmitEachOnly(w.store, op.value.ids);
      } else {
        OthersDoNotAdmit(w.store, op.value, id);
      }
    }
  }

  lemma AdmitIs(s: BranchState, op: Op)
    requires op.AdmitOp?
    ensures Next(s, op) == s || Next(s, op) == AdmitEach(s, op.ids)
  {
  }

  lemma AdmitsOwn(w: World, x: Action)
    requires Sound(w) && OpOf(w, x).Some? && OpOf(w, x).value.AdmitOp?
    ensures forall id :: id in OpOf(w, x).value.ids ==> id in w.recorded
  {
    hide QueueOk, Keepable, Represented, ListInputs, Wanted, EachOnce, Held, Flat;
    assert x.Admit? && x.a in w.holders && HolderOk(w.holders[x.a]);
  }

  lemma HoldersStayOk(w: World, x: Action, a: Attempt)
    requires Sound(w) && a in Do(w, x).holders
    ensures HolderOk(Do(w, x).holders[a])
  {
    hide HolderAfter, OpOf, Next, Publishes, HolderOk, Flat;
    if x.Open? && x.a == a {
      OpenedIsOk(w, x.token, x.given);
    } else if !x.Elsewhere? && !x.Open? && !x.Stop? && x.a in w.holders {
      HolderStaysOk(w, x);
    }
  }

  lemma OpenedIsOk(w: World, token: int, given: Option<seq<seq<InputId>>>)
    requires Sound(w)
    ensures HolderOk(Holder(token, Opening(w, given), [], {}, Resting))
  {
    OpeningRepeatsNothing(w, given);
    assert Flat(Opening(w, given)) + [] == Flat(Opening(w, given));
  }

  lemma StaysSound(w: World, x: Action)
    requires Sound(w)
    ensures Sound(Do(w, x))
  {
    var r := Do(w, x);
    forall a | a in r.holders ensures HolderOk(r.holders[a]) { HoldersStayOk(w, x, a); }
    forall a, id | a in r.holders && id in Flat(r.holders[a].carried) ensures id in r.recorded { CarriedIsRecorded(w, x, a, id); }
    forall id | id in r.store.inputs && r.store.inputs[id].status == Admitted ensures id in r.recorded { AdmittedIsRecorded(w, x, id); }
    if OpOf(w, x).Some? { QueueStep(w.store, OpOf(w, x).value); }
    if Publishes(w, x).Some? { PublishedOnce(w, x); }
    hide QueueOk, HolderOk, HoldersAfter, HolderAfter, OpOf, Publishes, Next, Flat, EachOnce;
  }

  ghost function Play(w: World, actions: seq<Action>): World {
    if actions == [] then w else
    var before := Play(w, actions[..|actions| - 1]);
    if QueueOk(before.store) then Do(before, actions[|actions| - 1]) else before
  }

  /** At most once. Whatever attempts claim, screen, record and admit, in any interleaving, stalled,
      crashed or replaced anywhere in between: no queued input occurs twice in the active history, and
      an input is only ever admitted after it entered a history. */
  lemma {:induction false} InputsAreDeliveredOnce(actions: seq<Action>)
    ensures var w := Play(START, actions);
      && Sound(w) && OnceOnly(w.active)
      && forall id :: id in w.store.inputs && w.store.inputs[id].status == Admitted ==> id in w.recorded
  {
    hide Do, HolderOk, Flat, EachOnce, QueueOk, OnceOnly;
    if actions == [] {
      StartIsSound();
    } else {
      InputsAreDeliveredOnce(actions[..|actions| - 1]);
      StaysSound(Play(START, actions[..|actions| - 1]), actions[|actions| - 1]);
    }
    OnceOnlyIsEachOnce(Play(START, actions).active);
  }

  /** The id is at some place of the history. */
  predicate Holds(history: seq<seq<InputId>>, id: InputId) {
    exists r, i :: 0 <= r < |history| && 0 <= i < |history[r]| && history[r][i] == id
  }

  lemma FlatHolds(history: seq<seq<InputId>>, id: InputId)
    requires id in Flat(history)
    ensures Holds(history, id)
  {
    var k :| 0 <= k < |Flat(history)| && Flat(history)[k] == id;
    var r, i := FlatFrom(history, k);
  }

  /** Whatever counts as recorded was in the active history at some moment of the run. */
  lemma {:induction false} RecordedWasActive(actions: seq<Action>, id: InputId)
    requires id in Play(START, actions).recorded
    ensures exists n: nat :: n <= |actions| && Holds(Play(START, actions[..n]).active, id)
  {
    hide HoldersAfter, OpOf, Next, Holds, QueueOk, Flat;
    if actions != [] {
      var m := |actions| - 1;
      var w := Play(START, actions[..m]);
      if id in w.recorded {
        RecordedWasActive(actions[..m], id);
        var n: nat :| n <= m && Holds(Play(START, actions[..m][..n]).active, id);
        assert actions[..m][..n] == actions[..n];
      } else {
        FlatHolds(Play(START, actions).active, id);
        assert actions[..|actions|] == actions;
      }
    }
  }

  /** An input is admitted only after it was in the active history. */
  lemma {:induction false} AdmittedWasActive(actions: seq<Action>, id: InputId)
    requires id in Play(START, actions).store.inputs && Play(START, actions).store.inputs[id].status == Admitted
    ensures exists n: nat :: n <= |actions| && Holds(Play(START, actions[..n]).active, id)
  {
    hide Play, Sound, Holds;
    InputsAreDeliveredOnce(actions);
    RecordedWasActive(actions, id);
  }

  lemma StartIsSound()
    ensures Sound(START)
  {
  }

  /** And nothing is lost on the way: an input that is still open, and that the history an attempt goes
      on from does not hold, is among those its next claim goes through. */
  lemma OpenInputsAreClaimedAgain(w: World, a: Attempt, token: int, given: Option<seq<seq<InputId>>>, id: InputId)
    requires Sound(w) && id in w.store.inputs && w.store.inputs[id].status !in {Admitted, Discarded}
    requires id !in Flat(Opening(w, given))
    ensures var h := Do(w, Open(a, token, given)).holders[a];
      var due := Due(ListInputs(w.store), Represented(h), h.seen);
      h.carried == Opening(w, given) && id in IdSet(due)
  {
    var h := Holder(token, Opening(w, given), [], {}, Resting);
    DueIsEverythingOpen(ListInputs(w.store), Represented(h), {});
    var i :| 0 <= i < |w.store.order| && w.store.order[i] == id;
    assert ListInputs(w.store)[i] in ListInputs(w.store) && Wanted(ListInputs(w.store)[i], Represented(h), {});
  }
}
