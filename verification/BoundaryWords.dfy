/** What a boundary says to the screen and to the model, word for word: every part where it came from, in
    its order. */
module BoundaryWords {
  import opened Wrappers
  import opened Values
  import opened Ledger
  import opened Selection
  import opened Inputs
  import opened Requests
  import opened BoundaryLaws
  import opened Boundary

  // ---- what is offered where, place by place --------------------------------------------------

  /** The ids a list of items names, in order. */
  function Named(items: seq<PendingInput>): seq<Option<InputId>> {
    seq(|items|, i requires 0 <= i < |items| => items[i].origin)
  }

  /** The parts of a request that are no user prompts. */
  function Standing(parts: seq<Part>): seq<Option<Part>> {
    seq(|parts|, i requires 0 <= i < |parts| => if parts[i].UserPrompt? then None else Some(parts[i]))
  }

  /** Its user prompts, as the screen is offered them. */
  function Asked(parts: seq<Part>): seq<Option<PendingInput>> {
    seq(|parts|, i requires 0 <= i < |parts| =>
      if parts[i].UserPrompt? then Some(PendingInput("user", parts[i], None)) else None)
  }

  lemma {:induction false} OriginsAreNamed(items: seq<PendingInput>)
    ensures Takes(Named(items), Origins(items))
  {
    if items != [] {
      var n := |items| - 1;
      OriginsAreNamed(items[..n]);
      TakesNext(Named(items[..n]), Origins(items[..n]), items[n].origin);
      assert Named(items) == Named(items[..n]) + [items[n].origin];
    }
  }

  lemma {:induction false} NonUsersStand(parts: seq<Part>)
    ensures Takes(Standing(parts), NonUsers(parts))
  {
    if parts != [] {
      var n := |parts| - 1;
      NonUsersStand(parts[..n]);
      var last := if parts[n].UserPrompt? then None else Some(parts[n]);
      TakesNext(Standing(parts[..n]), NonUsers(parts[..n]), last);
      assert Standing(parts) == Standing(parts[..n]) + [last];
    }
  }

  lemma {:induction false} UsersAreAsked(parts: seq<Part>)
    ensures Takes(Asked(parts), Users(parts))
  {
    if parts != [] {
      var n := |parts| - 1;
      UsersAreAsked(parts[..n]);
      var last := if parts[n].UserPrompt? then Some(PendingInput("user", parts[n], None)) else None;
      TakesNext(Asked(parts[..n]), Users(parts[..n]), last);
      assert Asked(parts) == Asked(parts[..n]) + [last];
    }
  }

  // ---- what the screen is shown ---------------------------------------------------------------

  /** A listed input, if it is open, not in the history, and not claimed before. */
  function Claims(r: Listed, represented: set<InputId>, seen: set<InputId>): Option<Listed> {
    if (r.status == Pending || r.status == Claimed) && r.id !in represented && r.id !in seen then Some(r) else None
  }

  function Claimable(listed: seq<Listed>, represented: set<InputId>, seen: set<InputId>): seq<Option<Listed>> {
    seq(|listed|, i requires 0 <= i < |listed| => Claims(listed[i], represented, seen))
  }

  lemma LastIsNew(listed: seq<Listed>, represented: set<InputId>, seen: set<InputId>)
    requires listed != [] && forall i, j :: 0 <= i < j < |listed| ==> listed[i].id != listed[j].id
    ensures listed[|listed| - 1].id !in IdSet(Due(listed[..|listed| - 1], represented, seen))
  {
    var n := |listed| - 1;
    DueIsEverythingOpen(listed[..n], represented, seen);
    hide Due, Wanted, EachOnce;
    forall d | d in Due(listed[..n], represented, seen) ensures d.id != listed[n].id {
      var k :| 0 <= k < n && listed[..n][k] == d;
      assert listed[k].id != listed[n].id;
    }
  }

  lemma ClaimableNext(listed: seq<Listed>, represented: set<InputId>, seen: set<InputId>)
    requires listed != []
    ensures var n := |listed| - 1;
      Claimable(listed, represented, seen)
        == Claimable(listed[..n], represented, seen) + [Claims(listed[n], represented, seen)]
  {
  }

  lemma DueNext(listed: seq<Listed>, represented: set<InputId>, seen: set<InputId>)
    requires listed != [] && forall i, j :: 0 <= i < j < |listed| ==> listed[i].id != listed[j].id
    ensures var n := |listed| - 1; var offer := Claims(listed[n], represented, seen);
      Due(listed, represented, seen)
        == Due(listed[..n], represented, seen) + if offer.Some? then [offer.value] else []
  {
    LastIsNew(listed, represented, seen);
    match listed[|listed| - 1].status { case Pending => case Claimed => case Admitted => case Discarded => }
  }

  /** What is due is all of them, in the order of the queue. */
  lemma {:induction false} DueIsClaimable(listed: seq<Listed>, represented: set<InputId>, seen: set<InputId>)
    requires forall i, j :: 0 <= i < j < |listed| ==> listed[i].id != listed[j].id
    ensures Takes(Claimable(listed, represented, seen), Due(listed, represented, seen))
  {
    if listed != [] {
      var n := |listed| - 1;
      DueIsClaimable(listed[..n], represented, seen);
      DueNext(listed, represented, seen);
      ClaimableNext(listed, represented, seen);
      TakesNext(Claimable(listed[..n], represented, seen), Due(listed[..n], represented, seen),
                Claims(listed[n], represented, seen));
      hide Due, Claimable, Claims, Takes;
    }
  }

  /** The screen is shown every user prompt of the request, in order, then what was prefetched, then every
      input of the queue that is open and new to the attempt, in the order of the queue, as submitted. */
  lemma WhatTheScreenSees(v: Visit)
    requires Met(v)
    ensures exists users: seq<PendingInput>, due: seq<Listed>, shown: seq<PendingInput> ::
      && Takes(Asked(v.request.parts), users)
      && Takes(Claimable(ListInputs(v.queue), v.represented, v.seen), due)
      && |shown| == |due| && (forall i :: 0 <= i < |due| ==> shown[i] == Decode(due[i].value))
      && OfferedAt(v) == users + v.prefetched + shown
  {
    UsersAreAsked(v.request.parts);
    EachListedOnce(v.queue);
    DueIsClaimable(ListInputs(v.queue), v.represented, v.seen);
    var users, due := Users(v.request.parts), DueAt(v);
    var shown := Items(due);
    hide Due, ListInputs, Users, QueueOk, Decode, Takes, Claimable, Asked;
    assert OfferedAt(v) == users + v.prefetched + shown;
  }

  lemma EachListedOnce(s: BranchState)
    requires QueueOk(s)
    ensures forall i, j :: 0 <= i < j < |ListInputs(s)| ==> ListInputs(s)[i].id != ListInputs(s)[j].id
  {
  }

  // ---- what the model is asked ----------------------------------------------------------------

  /** What the screen let through, said without the boundary: nothing is screened where there is no screen
      or nothing to show it. */
  ghost predicate LetThrough(v: Visit, kept: seq<PendingInput>)
    requires QueueOk(v.queue)
  {
    if v.controls.Some? && OfferedAt(v) != [] then v.controls.value.screen(OfferedAt(v)) == Keeps(kept)
    else kept == OfferedAt(v)
  }

  /** The request as it is sent: the parts that were no user prompts, in order; then one part for each item
      the screen let through, in the screen's order; then the steers. Its metadata names exactly the ids
      of those items, or, where there are none, what it named before. */
  ghost predicate SpeltOut(request: Request, kept: seq<PendingInput>, steers: seq<Part>, sent: Request) {
    exists standing: seq<Part>, ids: seq<InputId> ::
      && Takes(Standing(request.parts), standing) && Takes(Named(kept), ids)
      && |sent.parts| == |standing| + |kept| + |steers|
      && sent.parts[..|standing|] == standing
      && (forall i :: 0 <= i < |kept| ==> sent.parts[|standing| + i] == kept[i].part)
      && sent.parts[|standing| + |kept|..] == steers
      && sent.inputIds == (if ids != [] then ids else request.inputIds)
  }

  lemma SentIsSpeltOut(request: Request, kept: seq<PendingInput>, steers: seq<Part>)
    ensures SpeltOut(request, kept, steers, Sent(request, kept, steers))
  {
    NonUsersStand(request.parts);
    OriginsAreNamed(kept);
    var standing, ids := NonUsers(request.parts), Origins(kept);
    var sent := Sent(request, kept, steers);
    hide NonUsers, Origins, Takes;
    assert sent.parts == standing + PartsOf(kept) + steers;
    assert sent.parts[..|standing|] == standing && sent.parts[|standing| + |kept|..] == steers;
  }

  /** Whatever a boundary sends is spelt out by what it was given: nothing is lost, added or moved. */
  lemma WhatTheModelIsAsked(v: Visit, next: BranchState, sent: Request)
    requires Met(v) && Boundary.Asks(v, next, sent)
    ensures v.controls.Some? ==> v.controls.value.steering.Steer?
    ensures exists kept ::
      && LetThrough(v, kept)
      && SpeltOut(v.request, kept, if v.controls.Some? then v.controls.value.steering.parts else [], sent)
  {
    hide OfferedAt, SpeltOut, Sent, Delivered, SplitsExactly, RewritesOrDrops;
    var kept := Surviving(v.controls, OfferedAt(v)).items;
    SentIsSpeltOut(v.request, kept, Steered(v.controls).parts);
    assert LetThrough(v, kept);
  }

  // ---- what follows ---------------------------------------------------------------------------

  /** One more part goes to the one side or the other. */
  lemma OneMore(others: seq<Part>, ours: seq<Part>, parts: seq<Part>, more: seq<Part>, mine: seq<Part>, whole: seq<Part>)
    requires whole != [] && parts == whole[..|whole| - 1]
    requires var last := whole[|whole| - 1];
      && more == (others + if last.UserPrompt? then [] else [last])
      && mine == (ours + if last.UserPrompt? then [last] else [])
    requires multiset(others) + multiset(ours) == multiset(parts)
    ensures multiset(more) + multiset(mine) == multiset(whole)
  {
    var last := whole[|whole| - 1];
    assert whole == parts + [last];
    assert multiset(whole) == multiset(parts) + multiset{last};
    if last.UserPrompt? {
      assert more == others;
      assert multiset(mine) == multiset(ours) + multiset{last};
    } else {
      assert mine == ours;
      assert multiset(more) == multiset(others) + multiset{last};
    }
  }

  lemma NonUsersNext(parts: seq<Part>)
    requires parts != []
    ensures var n := |parts| - 1;
      NonUsers(parts) == NonUsers(parts[..n]) + if parts[n].UserPrompt? then [] else [parts[n]]
  {
  }

  lemma UserPartsNext(parts: seq<Part>)
    requires parts != []
    ensures var n := |parts| - 1;
      PartsOf(Users(parts)) == PartsOf(Users(parts[..n])) + if parts[n].UserPrompt? then [parts[n]] else []
  {
    var n := |parts| - 1;
    var users := Users(parts[..n]);
    assert Users(parts) == users + if parts[n].UserPrompt? then [PendingInput("user", parts[n], None)] else [];
    hide Users;
  }

  lemma {:induction false} PartsComeBack(parts: seq<Part>)
    ensures multiset(NonUsers(parts)) + multiset(PartsOf(Users(parts))) == multiset(parts)
  {
    if parts != [] {
      hide NonUsers, PartsOf, Users;
      var n := |parts| - 1;
      PartsComeBack(parts[..n]);
      NonUsersNext(parts);
      UserPartsNext(parts);
      OneMore(NonUsers(parts[..n]), PartsOf(Users(parts[..n])), parts[..n], NonUsers(parts), PartsOf(Users(parts)), parts);
    }
  }

  /** Without controls and with nothing waiting, the model is asked exactly what the request says, if in
      another order. */
  lemma PlainRequestsAreKept(request: Request)
    ensures var sent := Sent(request, Users(request.parts), []);
      multiset(sent.parts) == multiset(request.parts)
  {
    PartsComeBack(request.parts);
    assert NonUsers(request.parts) + PartsOf(Users(request.parts)) + []
      == NonUsers(request.parts) + PartsOf(Users(request.parts));
  }

  /** A user prompt reaches the model only if the screen kept an item that says it, or a steer says it. */
  lemma PromptsAreScreened(request: Request, kept: seq<PendingInput>, steers: seq<Part>, part: Part)
    requires part.UserPrompt? && part in Sent(request, kept, steers).parts
    ensures part in steers || exists item :: item in kept && item.part == part
  {
    NoUsersLeft(request.parts);
    var others, ours := NonUsers(request.parts), PartsOf(kept);
    assert Sent(request, kept, steers).parts == others + ours + steers;
    if part in ours {
      var i :| 0 <= i < |ours| && ours[i] == part;
      assert kept[i] in kept && kept[i].part == part;
    }
  }

  lemma {:induction false} NoUsersLeft(parts: seq<Part>)
    ensures forall part :: part in NonUsers(parts) ==> !part.UserPrompt?
  {
    if parts != [] { NoUsersLeft(parts[..|parts| - 1]); }
  }

  /** A queued input says to the screen what was submitted, and to the model too where the screen keeps it. */
  lemma SubmittedIsShown(v: Visit, item: PendingInput, id: InputId)
    requires Met(v) && id in v.queue.inputs && v.queue.inputs[id].value == Encode(item)
    requires v.queue.inputs[id].status == Pending || v.queue.inputs[id].status == Claimed
    requires id !in v.represented && id !in v.seen
    ensures item in OfferedAt(v)
  {
    var listed := ListInputs(v.queue);
    var due := DueAt(v);
    DueIsEverythingOpen(listed, v.represented, v.seen);
    var k :| 0 <= k < |v.queue.order| && v.queue.order[k] == id;
    assert listed[k] in listed && Wanted(listed[k], v.represented, v.seen);
    ListedAre(v.queue);
    var d :| d in due && d.id == id;
    var i :| 0 <= i < |due| && due[i] == d;
    assert Items(due)[i] == Decode(d.value) == item;
    assert Items(due)[i] in Items(due);
  }
}
