/** The model boundary of one attempt, over the in-memory ledger. */
module Boundary {
  import opened Wrappers
  import opened Ledger
  import opened MemoryStore
  import opened Inputs
  import opened Requests
  import opened BoundaryLaws

  /** What an attempt brings to a boundary, and what the boundary is asked. */
  datatype Visit = Visit(
    queue: BranchState,
    seen: set<InputId>,
    prefetched: seq<PendingInput>,
    represented: set<InputId>,
    request: Request,
    controls: Option<Controls>,
    token: int)

  ghost predicate Met(v: Visit) {
    QueueOk(v.queue)
  }

  ghost function DueAt(v: Visit): seq<Listed>
    requires Met(v)
  {
    Due(ListInputs(v.queue), v.represented, v.seen)
  }

  ghost function PendingAt(v: Visit): seq<PendingInput>
    requires Met(v)
  {
    Gathered(v.prefetched, v.queue, v.represented, v.seen)
  }

  ghost function OfferedAt(v: Visit): seq<PendingInput>
    requires Met(v)
  {
    Users(v.request.parts) + PendingAt(v)
  }

  /** The model is asked: with exactly what the screen kept, and with every gathered input settled. */
  ghost predicate Asks(v: Visit, next: BranchState, sent: Request)
    requires Met(v)
  {
    var screened := Surviving(v.controls, OfferedAt(v));
    screened.Keeps? && Steered(v.controls).Steer? &&
    var kept := screened.items;
    && sent == Sent(v.request, kept, Steered(v.controls).parts)
    && next == Delivered(v.queue, DueAt(v), Lost(PendingAt(v), kept), kept, v.token)
    && (Tagged(v.queue) && Prefetched(v.queue, v.prefetched, v.seen) && RewritesOrDrops(OfferedAt(v), kept) ==>
          SplitsExactly(v.queue, next, Origins(PendingAt(v)), Origins(kept)))
  }

  /** The attempt ends at the boundary, for the reason the screen or the steering gives: nothing is admitted,
      and only what a screen dropped is settled. */
  ghost predicate Ends(v: Visit, next: BranchState, reason: string)
    requires Met(v)
  {
    v.controls.Some? &&
    var screened := Surviving(v.controls, OfferedAt(v));
    if screened.Halts? then reason == screened.reason && next == ClaimEach(v.queue, Ids(DueAt(v)), v.token)
    else
      && v.controls.value.steering == Stop(reason)
      && next == Screened(v.queue, DueAt(v), Lost(PendingAt(v), screened.items), v.token)
  }

  lemma AsksSplit(v: Visit, next: BranchState, kept: seq<PendingInput>)
    requires Met(v) && Surviving(v.controls, OfferedAt(v)) == Keeps(kept) && Steered(v.controls).Steer?
    requires next == Delivered(v.queue, DueAt(v), Lost(PendingAt(v), kept), kept, v.token)
    ensures Asks(v, next, Sent(v.request, kept, Steered(v.controls).parts))
  {
    hide Delivered, Due, Gathered, Lost, Origins, Users, ListInputs, QueueOk, SplitsExactly, Sent;
    if Tagged(v.queue) && Prefetched(v.queue, v.prefetched, v.seen) && RewritesOrDrops(OfferedAt(v), kept) {
      GatheredSplitsExactly(v.queue, v.prefetched, v.represented, v.seen, v.request, kept, v.token);
    }
  }

  /** An attempt without controls keeps everything it was offered. */
  lemma UncontrolledKeepsAll(v: Visit)
    requires Met(v) && (v.controls.None? || OfferedAt(v) == [])
    ensures Lost(PendingAt(v), OfferedAt(v)) == []
  {
    hide Due, Gathered, ListInputs, QueueOk, Lost;
    OriginsJoin(Users(v.request.parts), PendingAt(v));
    NoneLost(PendingAt(v), OfferedAt(v));
  }

  /** How a boundary comes out, for the queue and for the transcript. */
  ghost predicate Passes(v: Visit, r: Outcome, next: BranchState, before: seq<Request>, recorded: seq<Request>) {
    Met(v) &&
    match r
    case Proceeds(sent) => Asks(v, next, sent) && recorded == before + [sent]
    case Halted(reason) => Ends(v, next, reason) && recorded == before
    case FencedOut => Stale(v.queue, v.token) && next == v.queue && before <= recorded
  }

  /** What was lost by the time the steering is asked. */
  ghost predicate LostSoFar(v: Visit, kept: seq<PendingInput>, lost: seq<PendingInput>)
    requires Met(v)
  {
    if v.controls.None? || OfferedAt(v) == [] then kept == OfferedAt(v) && lost == []
    else v.controls.value.screen(OfferedAt(v)) == Keeps(kept) && lost == Lost(PendingAt(v), kept)
  }

  lemma LostIs(v: Visit, kept: seq<PendingInput>, lost: seq<PendingInput>)
    requires Met(v) && LostSoFar(v, kept, lost)
    ensures Surviving(v.controls, OfferedAt(v)) == Keeps(kept) && lost == Lost(PendingAt(v), kept)
  {
    hide Due, Gathered, ListInputs, QueueOk, Lost, Users;
    if v.controls.None? || OfferedAt(v) == [] { UncontrolledKeepsAll(v); }
  }

  lemma HaltEnds(v: Visit, reason: string)
    requires Met(v) && Surviving(v.controls, OfferedAt(v)) == Halts(reason)
    ensures Ends(v, ClaimEach(v.queue, Ids(DueAt(v)), v.token), reason)
  {
  }

  lemma StopEnds(v: Visit, kept: seq<PendingInput>, lost: seq<PendingInput>)
    requires Met(v) && LostSoFar(v, kept, lost) && Steered(v.controls).Stop?
    ensures Ends(v, Screened(v.queue, DueAt(v), lost, v.token), Steered(v.controls).reason)
  {
    hide Due, Gathered, ListInputs, QueueOk, Lost, Users, ClaimEach, DiscardEach;
    LostIs(v, kept, lost);
  }

  lemma KeptAsks(v: Visit, kept: seq<PendingInput>, lost: seq<PendingInput>)
    requires Met(v) && LostSoFar(v, kept, lost) && Steered(v.controls).Steer?
    ensures Asks(v, Delivered(v.queue, DueAt(v), lost, kept, v.token), Sent(v.request, kept, Steered(v.controls).parts))
  {
    hide Due, Gathered, ListInputs, QueueOk, Lost, Users, ClaimEach, DiscardEach, AdmitEach, Asks, Sent;
    LostIs(v, kept, lost);
    AsksSplit(v, Delivered(v.queue, DueAt(v), lost, kept, v.token), kept);
  }

  lemma PassesRecords(v: Visit, r: Outcome, next: BranchState, before: seq<Request>, recorded: seq<Request>, cancelled: bool)
    requires !cancelled ==> Passes(v, r, next, before, recorded)
    requires cancelled ==> !r.Proceeds? && recorded == before
    ensures before <= recorded && (r.Proceeds? ==> recorded == before + [r.request])
    ensures r.Halted? ==> cancelled || v.controls.Some?
  {
  }

  /** A node of the agent's graph: a model request, or a round of tool calls that may end the turn. */
  datatype Node =
    | AskModel(request: Request, represented: set<InputId>, controls: Option<Controls>)
    | RunTools(finishes: bool, represented: set<InputId>)

  /** Every model node was asked in its turn, each request as its own boundary lets it through, and nothing
      else was sent. */
  ghost predicate AskedInTurn(nodes: seq<Node>, sent: seq<Request>) {
    if nodes == [] then sent == [] else
    var n := |nodes| - 1;
    match nodes[n]
    case RunTools(_, _) => AskedInTurn(nodes[..n], sent)
    case AskModel(_, _, _) =>
      sent != [] && AskedInTurn(nodes[..n], sent[..|sent| - 1]) && AskedAt(nodes[n], sent[|sent| - 1])
  }

  ghost predicate AskedAt(node: Node, sent: Request)
    requires node.AskModel?
  {
    exists v: Visit, next: BranchState :: Met(v) && Asks(v, next, sent)
      && v.request == node.request && v.represented == node.represented && v.controls == node.controls
  }

  lemma NothingAsked(nodes: seq<Node>)
    ensures AskedInTurn(nodes[..0], [])
  {
  }

  lemma AskedNext(nodes: seq<Node>, i: nat, sent: seq<Request>, more: seq<Request>)
    requires i < |nodes| && AskedInTurn(nodes[..i], sent)
    requires if nodes[i].RunTools? then more == [] else |more| == 1 && AskedAt(nodes[i], more[0])
    ensures AskedInTurn(nodes[..i + 1], sent + more)
  {
    hide AskedAt;
    assert nodes[..i + 1][..i] == nodes[..i];
    if more == [] { assert sent + more == sent; } else { assert (sent + more)[..|sent|] == sent; }
  }

  lemma PassedIsAsked(v: Visit, node: Node, r: Outcome, next: BranchState, before: seq<Request>, recorded: seq<Request>)
    requires Passes(v, r, next, before, recorded) && r.Proceeds?
    requires node.AskModel? && v.request == node.request && v.represented == node.represented && v.controls == node.controls
    ensures AskedAt(node, r.request)
  {
    hide Asks;
  }

  class ExecutionBoundary {
    const session: InputSession
    const cancelled: bool
    var prefetched: seq<PendingInput>
    var stopReason: Option<string>
    var recorded: seq<Request>

    constructor (session: InputSession, cancelled: bool)
      ensures this.session == session && this.cancelled == cancelled
      ensures prefetched == [] && stopReason == None && recorded == []
    {
      this.session, this.cancelled, prefetched, stopReason, recorded := session, cancelled, [], None, [];
    }

    ghost function Now(request: Request, represented: set<InputId>, controls: Option<Controls>): Visit
      reads this, session, session.store
    {
      Visit(session.View(), session.seen, prefetched, represented, request, controls, session.token)
    }

    /** Run one model node. An attempt that finishes a refused round ends here instead: it asks no model
        and touches no input. */
    method RunModelNode(request: Request, represented: set<InputId>, controls: Option<Controls>) returns (r: Outcome)
      requires session.store.Valid()
      modifies this, session, session.store`inputs, session.store`views
      ensures session.store.Valid()
      ensures forall b :: b != session.branch ==> session.store.View(b) == old(session.store.View(b))
      ensures cancelled ==> r == Halted("aborted") && recorded == old(recorded) && session.View() == old(session.View())
      ensures !cancelled ==> Passes(old(Now(request, represented, controls)), r, session.View(), old(recorded), recorded)
      ensures r.Halted? ==> stopReason == Some(r.reason)
    {
      if cancelled {
        stopReason := Some("aborted");
        return Halted("aborted");
      }
      r := Admit(request, represented, controls);
    }

    /** Any run of nodes the agent's graph may make, up to the first that ends the attempt: every model node
        before that one was asked in its turn, every request that was sent had been recorded, an attempt
        that finishes a refused round sends none, and only a stop or a lost lease ends it early. */
    method RunNodes(nodes: seq<Node>) returns (sent: seq<Request>, done: nat, fenced: bool)
      requires session.store.Valid()
      modifies this, session, session.store`inputs, session.store`views
      ensures session.store.Valid()
      ensures forall b :: b != session.branch ==> session.store.View(b) == old(session.store.View(b))
      ensures cancelled ==> sent == [] && recorded == old(recorded)
      ensures old(recorded) + sent <= recorded
      ensures done <= |nodes| && AskedInTurn(nodes[..done], sent)
      ensures done < |nodes| ==> fenced || (nodes[done].AskModel? && stopReason.Some?)
      ensures done < |nodes| && !fenced ==> cancelled || nodes[done].controls.Some?
      ensures fenced ==> done < |nodes| && Stale(session.View(), session.token)
    {
      hide MemorySteps.Valid, Passes, InputSession.View, AskedInTurn, AskedAt, Stale;
      sent, done, fenced := [], 0, false;
      NothingAsked(nodes);
      while done < |nodes|
        invariant done <= |nodes| && !fenced
        invariant session.store.Valid()
        invariant forall b :: b != session.branch ==> session.store.View(b) == old(session.store.View(b))
        invariant cancelled ==> sent == []
        invariant recorded == old(recorded) + sent
        invariant AskedInTurn(nodes[..done], sent)
        decreases |nodes| - done
      {
        match nodes[done] {
          case AskModel(request, represented, controls) =>
            ghost var before := recorded;
            ghost var v := Now(request, represented, controls);
            var r := RunModelNode(request, represented, controls);
            PassesRecords(v, r, session.View(), before, recorded, cancelled);
            if !r.Proceeds? {
              fenced := r.FencedOut?;
              return;
            }
            PassedIsAsked(v, nodes[done], r, session.View(), before, recorded);
            AskedNext(nodes, done, sent, [r.request]);
            sent := sent + [r.request];
          case RunTools(finishes, represented) =>
            if finishes {
              var _, out := ClaimLate(represented);
              if out {
                fenced := true;
                return;
              }
            }
            AskedNext(nodes, done, sent, []);
            assert sent + [] == sent;
        }
        done := done + 1;
      }
    }

    /** One boundary. Where the model is asked: the request carries exactly what the screen kept, it was
        recorded before anything was admitted, and the gathered inputs are split exactly. Where the
        attempt ends first: nothing was recorded, and at most what the screen dropped is settled. Where
        the lease was lost: the queue is as it was. */
    method Admit(request: Request, represented: set<InputId>, controls: Option<Controls>) returns (r: Outcome)
      requires session.store.Valid()
      modifies this, session, session.store`inputs, session.store`views
      ensures session.store.Valid() && prefetched == []
      ensures forall b :: b != session.branch ==> session.store.View(b) == old(session.store.View(b))
      ensures Passes(old(Now(request, represented, controls)), r, session.View(), old(recorded), recorded)
      ensures !r.FencedOut? ==> session.seen == old(session.seen) + IdSet(DueAt(old(Now(request, represented, controls))))
      ensures r.Halted? ==> stopReason == Some(r.reason)
    {
      ghost var v := Now(request, represented, controls);
      hide MemorySteps.Valid, MemorySteps.View, Due, ClaimEach, AdmitEach, DiscardEach, ListInputs, QueueOk, Asks, Ends;
      var pending := prefetched;
      prefetched := [];
      var claimed, fenced := session.Claim(represented);
      FencedChangedNothing(v.queue, DueAt(v), [], v.token);
      if fenced { return FencedOut; }
      pending := pending + claimed;
      assert pending == PendingAt(v);
      var inputs := Users(request.parts) + pending;
      var steers := [];
      ghost var lost: seq<PendingInput> := [];
      if controls.Some? {
        if inputs != [] {
          var screened := controls.value.screen(inputs);
          if screened.Halts? {
            stopReason := Some(screened.reason);
            HaltEnds(v, screened.reason);
            return Halted(screened.reason);
          }
          var dropped := Lost(pending, screened.items);
          if dropped != [] {
            LostAreNamed(pending, screened.items);
            var out := session.Discard(dropped);
            if out { return FencedOut; }
          }
          lost, inputs := dropped, screened.items;
        }
        if controls.value.steering.Stop? {
          stopReason := Some(controls.value.steering.reason);
          StopEnds(v, inputs, lost);
          return Halted(controls.value.steering.reason);
        }
        steers := controls.value.steering.parts;
      }
      FencedChangedNothing(v.queue, DueAt(v), lost, v.token);
      var sent := Sent(request, inputs, steers);
      recorded := recorded + [sent];
      var out := session.Admit(inputs);
      if out { return FencedOut; }
      KeptAsks(v, inputs, lost);
      r := Proceeds(sent);
    }

    /** What is due when a turn would finish is held for the next boundary, and then there is one. */
    method ClaimLate(represented: set<InputId>) returns (again: bool, fenced: bool)
      requires session.store.Valid()
      modifies this, session, session.store`inputs, session.store`views
      ensures session.store.Valid() && QueueOk(old(session.View()))
      ensures forall b :: b != session.branch ==> session.store.View(b) == old(session.store.View(b))
      ensures recorded == old(recorded)
      ensures var due := Due(Ledger.ListInputs(old(session.View())), represented, old(session.seen));
        && (again <==> due != [] && !fenced)
        && prefetched == (if again then Items(due) else old(prefetched))
        && (fenced <==> due != [] && Stale(old(session.View()), session.token))
        && (!fenced ==> session.seen == old(session.seen) + IdSet(due))
        && session.View() == if fenced then old(session.View()) else ClaimEach(old(session.View()), Ids(due), session.token)
    {
      var late, out := session.Claim(represented);
      if out { return false, true; }
      if late != [] {
        prefetched := late;
        return true, false;
      }
      again, fenced := false, false;
    }
  }
}
