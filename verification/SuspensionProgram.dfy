/** Parking, answering and finishing a round as the calls one leased worker makes on the in-memory
    ledger. What each call does to the branch is the operation `Suspension` gives its action. */
module SuspensionProgram {
  import opened Wrappers
  import opened Values
  import opened Ledger
  import opened Keys
  import opened MemoryStore
  import opened Suspension
  import opened SuspensionWords

  /** How a call of this protocol ends. */
  datatype Outcome =
    | Suspended(pending: seq<ParkedCall>)   // the still undecided calls are announced
    | NotFound                              // no active suspension has this external id
    | Reused                                // two calls of the round share an external id
    | Empty                                 // the round parks no call at all
    | External                              // a call was deferred to the outside without a gate
    | Objected                              // policy objected to the suspension
    | Mismatch                              // the history owes a call the recorded round does not have
    | Lost                                  // the lease was lost
    | ToFinish(active: Value)                  // every call is answered; the round can be finished
    | Fresh                                 // nothing is parked; the attempt runs from the history
    | Written

  /** The call an answer for this external id is for, if the live park has one. */
  function Routed(s: BranchState, pendingId: string): Option<string> {
    if ActiveOf(s).None? || !ActiveOf(s).value.Parked? then None else Route(ActiveOf(s).value.parked, pendingId)
  }

  /** The round waits for its undecided calls, or can be finished. */
  function Standing(active: Value): Outcome
    requires active.Parked?
  {
    if Decided(active) then ToFinish(active) else Suspended(Undecided(active.parked, active.answers))
  }

  /** The history owes an answer to a call that is not of the recorded round. */
  predicate OwesOther(s: BranchState, unanswered: seq<string>) {
    var recorded := Get(s, PENDING_ROUND);
    recorded.status == Done && recorded.value.Round?
    && exists c :: c in unanswered && c !in (set x | x in recorded.value.calls :: x.id)
  }

  /** What a worker says of a round: that it can be finished, or which calls it still waits for. */
  ghost predicate Stands(r: Outcome, active: Value) {
    || (r == ToFinish(active) && Announces(None, active))
    || (r.Suspended? && Announces(Some(r.pending), active))
  }

  lemma StandingIsTold(active: Value)
    requires active.Parked?
    ensures Stands(Standing(active), active)
  {
    UndecidedIsAnnounced(active);
    hide Announces;
  }

  /** Some call the history owes is none of the round's. */
  predicate Strays(unanswered: seq<string>, calls: seq<Call>) {
    exists i :: 0 <= i < |unanswered| && forall j :: 0 <= j < |calls| ==> calls[j].id != unanswered[i]
  }

  lemma OwingIsStraying(unanswered: seq<string>, calls: seq<Call>)
    ensures Strays(unanswered, calls) <==> exists c :: c in unanswered && c !in (set x | x in calls :: x.id)
  {
    if Strays(unanswered, calls) {
      var i :| 0 <= i < |unanswered| && forall j :: 0 <= j < |calls| ==> calls[j].id != unanswered[i];
      assert unanswered[i] in unanswered;
    }
    if c :| c in unanswered && c !in (set x | x in calls :: x.id) {
      var i :| 0 <= i < |unanswered| && unanswered[i] == c;
      forall j | 0 <= j < |calls| ensures calls[j].id != unanswered[i] { assert calls[j] in calls; }
    }
  }

  class ParkedBranch {
    const store: MemorySteps
    const branch: string
    const token: int

    constructor (store: MemorySteps, branch: string, token: int)
      ensures this.store == store && this.branch == branch && this.token == token
    {
      this.store, this.branch, this.token := store, branch, token;
    }

    ghost function View(): BranchState
      reads this, store
    {
      store.View(branch)
    }

    method Active() returns (active: Option<Value>)
      requires store.Valid()
      ensures active == ActiveOf(View()) && (active.Some? ==> active.value.Parked?)
    {
      var record := store.Read(branch, ACTIVE_SUSPENSION);
      active := if record.status == Done && record.value.Parked? then Some(record.value) else None;
    }

    /** A park is all or nothing: the index of every call and the continuation are written together, or
        a round that cannot be parked (deferred outside, sharing an external id, objected to by policy,
        empty) leaves the branch as it was. */
    method Park(parked: seq<ParkedCall>, deferred: seq<string>, objects: ParkedCall -> bool) returns (r: Outcome)
      requires store.Valid()
      modifies store`entries, store`inputs, store`inputSequence, store`views
      ensures store.Valid()
      ensures r.Suspended? || r == Lost <==>
        deferred == [] && !ReusesPending(parked) && parked != [] && forall x :: x in parked ==> !objects(x)
      ensures r.Suspended? || r == Lost ==>
        && r == (if Stale(old(View()), token) then Lost else Suspended(parked))
        && View() == Next(old(View()), CommitOp(Transition([], ParkWrites(parked), []), token))
      ensures !r.Suspended? ==> View() == old(View())
      ensures r.Suspended? ==> r.pending == parked && ApartPending(parked) && RoundParked(old(View()), View(), parked)
      ensures forall b :: b != branch ==> store.View(b) == old(store.View(b))
    {
      hide MemorySteps.Valid, MemorySteps.View, ParkWrites;
      if deferred != [] { return External; }
      var reused := Reuses(parked);
      if reused { return Reused; }
      for i := 0 to |parked|
        invariant forall j :: 0 <= j < i ==> !objects(parked[j])
      {
        if objects(parked[i]) { return Objected; }
      }
      if parked == [] { return Empty; }
      ParkIsWritten(View(), parked, token);
      ReuseIsNotApart(parked);
      var reply := store.CommitTransition(branch, Transition([], ParkWrites(parked), []), token);
      r := if reply.Success? then Suspended(parked) else Lost;
    }

    /** Whether two calls of the round share an external id. */
    method Reuses(parked: seq<ParkedCall>) returns (reused: bool)
      ensures reused <==> ReusesPending(parked)
    {
      var ids: set<string> := {};
      for i := 0 to |parked|
        invariant forall j :: 0 <= j < i ==> parked[j].pendingId in ids
        invariant forall id :: id in ids ==> exists j :: 0 <= j < i && parked[j].pendingId == id
        invariant ApartPending(parked[..i])
      {
        if parked[i].pendingId in ids { return true; }
        ids := ids + {parked[i].pendingId};
      }
      assert parked[..|parked|] == parked;
      reused := false;
    }

    /** One more answer: refused when it is for no call of the park, and otherwise stored before anything
        else happens. Only the last one yields a round to finish. */
    method Answer(pendingId: string, answer: Consent) returns (r: Outcome)
      requires store.Valid()
      modifies store`entries, store`views
      ensures store.Valid()
      ensures Routed(old(View()), pendingId).None? ==> r == NotFound && View() == old(View())
      ensures Routed(old(View()), pendingId).Some? ==>
        var next := WithAnswer(ActiveOf(old(View())).value, Routed(old(View()), pendingId).value, answer);
        && View() == Next(old(View()), ControlOp(ACTIVE_SUSPENSION, next, token))
        && r == (if Stale(old(View()), token) then Lost else Standing(next))
      ensures !Awaits(old(View()), pendingId) ==> r == NotFound && View() == old(View())
      ensures Awaits(old(View()), pendingId) && Stale(old(View()), token) ==> r == Lost && View() == old(View())
      ensures Awaits(old(View()), pendingId) && !Stale(old(View()), token) ==>
        exists next :: AnswerTaken(old(View()), View(), pendingId, answer, next) && Stands(r, next)
      ensures forall b :: b != branch ==> store.View(b) == old(store.View(b))
    {
      AnswerIsTaken(View(), pendingId, answer, token);
      hide MemorySteps.Valid, MemorySteps.View, Undecided, Awaits, AnswerTaken, Stands;
      var active := Active();
      if active.None? { return NotFound; }
      var call: Option<string> := None;
      assert active.value.parked[..0] == [];
      for i := 0 to |active.value.parked|
        invariant call == Route(active.value.parked[..i], pendingId)
      {
        assert active.value.parked[..i + 1][..i] == active.value.parked[..i];
        if active.value.parked[i].pendingId == pendingId { call := Some(active.value.parked[i].callId); }
      }
      assert active.value.parked[..|active.value.parked|] == active.value.parked;
      if call.None? { return NotFound; }
      var next := WithAnswer(active.value, call.value, answer);
      var reply := store.WriteControl(branch, ACTIVE_SUSPENSION, next, token);
      if reply.Failure? { return Lost; }
      StandingIsTold(next);
      var undecided := Undecided(next.parked, next.answers);
      r := if undecided != [] then Suspended(undecided) else ToFinish(next);
    }

    /** What a recovering worker finds: a round that waits or can be finished; otherwise a history that
        does not belong to the recorded round, or one to go on from. */
    method Recover(unanswered: seq<string>) returns (r: Outcome)
      requires store.Valid()
      ensures ActiveOf(View()).Some? ==> r == Standing(ActiveOf(View()).value)
      ensures ActiveOf(View()).None? ==> r == if OwesOther(View(), unanswered) then Mismatch else Fresh
      ensures Live(View()) ==> Stands(r, Get(View(), ACTIVE_SUSPENSION).value)
      ensures !Live(View()) ==>
        var round := Get(View(), PENDING_ROUND);
        r == if round.status == Done && round.value.Round? && Strays(unanswered, round.value.calls) then Mismatch else Fresh
    {
      hide MemorySteps.Valid, MemorySteps.View, Undecided;
      var active := Active();
      if active.Some? {
        StandingIsTold(active.value);
        var undecided := Undecided(active.value.parked, active.value.answers);
        return if undecided != [] then Suspended(undecided) else ToFinish(active.value);
      }
      var recorded := store.Read(branch, PENDING_ROUND);
      if recorded.status == Done && recorded.value.Round? {
        var ids := set c | c in recorded.value.calls :: c.id;
        OwingIsStraying(unanswered, recorded.value.calls);
        hide Strays;
        for i := 0 to |unanswered|
          invariant forall j :: 0 <= j < i ==> unanswered[j] in ids
        {
          if unanswered[i] !in ids {
            assert unanswered[i] in unanswered;
            return Mismatch;
          }
        }
      }
      r := Fresh;
    }

    /** What finishing a round begins with: each call's answer becomes an approval or a denial, one
        denial makes the attempt a cancelled one, and the continuation says that it is being finished. */
    method Finalize(active: Value) returns (r: Outcome, approvals: map<string, Consent>, cancelled: bool)
      requires store.Valid() && active.Parked? && Decided(active)
      modifies store`entries, store`views
      ensures store.Valid()
      ensures cancelled <==> SomebodyRefused(active)
      ensures forall x :: x in active.parked ==> x.callId in approvals && approvals[x.callId] == active.answers[x.callId]
      ensures View() == Next(old(View()), ControlOp(ACTIVE_SUSPENSION, WithState(active, Resuming), token))
      ensures r == Written ==>
        OnlyWrites(old(View()), View(), ACTIVE_SUSPENSION, Parked(Resuming, active.parked, active.answers))
      ensures r == if Stale(old(View()), token) then Lost else Written
      ensures forall b :: b != branch ==> store.View(b) == old(store.View(b))
    {
      hide MemorySteps.Valid, MemorySteps.View;
      approvals, cancelled := map[], false;
      forall x | x in active.parked ensures x.callId in active.answers { assert x !in Undecided(active.parked, active.answers); }
      for i := 0 to |active.parked|
        invariant cancelled <==> exists j :: 0 <= j < i && active.answers[active.parked[j].callId].Refuse?
        invariant forall j :: 0 <= j < i ==> active.parked[j].callId in approvals
        invariant forall j :: 0 <= j < i ==> approvals[active.parked[j].callId] == active.answers[active.parked[j].callId]
      {
        var call := active.parked[i].callId;
        if active.answers[call].Refuse? { cancelled := true; }
        approvals := approvals[call := active.answers[call]];
      }
      DeniedIsRefused(active);
      if !Stale(View(), token) { ResumingIsWritten(View(), active, token); }
      var reply := store.WriteControl(branch, ACTIVE_SUSPENSION, WithState(active, Resuming), token);
      r := if reply.Success? then Written else Lost;
    }

    method Complete(active: Value) returns (r: Outcome)
      requires store.Valid() && active.Parked?
      modifies store`entries, store`views
      ensures store.Valid()
      ensures View() == Next(old(View()), ControlOp(ACTIVE_SUSPENSION, Finished(CallIds(active.parked)), token))
      ensures r == Written ==> Closed(old(View()), View(), active.parked)
      ensures r == if Stale(old(View()), token) then Lost else Written
      ensures forall b :: b != branch ==> store.View(b) == old(store.View(b))
    {
      if !Stale(View(), token) { ClosedIsWritten(View(), active.parked, token); }
      hide MemorySteps.Valid, MemorySteps.View, Closed;
      var reply := store.WriteControl(branch, ACTIVE_SUSPENSION, Finished(CallIds(active.parked)), token);
      r := if reply.Success? then Written else Lost;
    }
  }
}
