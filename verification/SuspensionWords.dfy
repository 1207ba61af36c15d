/** What parking, answering and finishing write and say, word for word. */
module SuspensionWords {
  import opened Wrappers
  import opened Values
  import opened Ledger
  import opened Transitions
  import opened Keys
  import opened Selection
  import opened Suspension

  /** The branch holds a continuation of a round that is neither closed nor absent. */
  predicate Live(s: BranchState) {
    Get(s, ACTIVE_SUSPENSION).status == Done && Get(s, ACTIVE_SUSPENSION).value.Parked?
  }

  /** Every call of the round has an answer. */
  predicate AllAnswered(active: Value) {
    active.Parked? && forall i :: 0 <= i < |active.parked| ==> active.parked[i].callId in active.answers
  }

  /** The calls of a round that have no answer, where they stand. */
  function Unanswered(parked: seq<ParkedCall>, answers: map<string, Consent>): seq<Option<ParkedCall>> {
    seq(|parked|, i requires 0 <= i < |parked| => if parked[i].callId in answers then None else Some(parked[i]))
  }

  /** Exactly one step changed: it is done, says this, and is one version on. */
  ghost predicate OnlyWrites(s: BranchState, r: BranchState, k: Key, v: Value) {
    && r == s.(entries := r.entries)
    && Get(r, k) == Step(Done, v, Get(s, k).version + 1)
    && forall other :: other != k ==> Get(r, other) == Get(s, other)
  }

  lemma ControlOnlyWrites(s: BranchState, k: Key, v: Value, token: int)
    ensures var r := Next(s, ControlOp(k, v, token));
      if Stale(s, token) then r == s else OnlyWrites(s, r, k, v)
  {
  }

  // ---- functions and what they mean -----------------------------------------------------------

  lemma ActiveIsLive(s: BranchState)
    ensures ActiveOf(s) == if Live(s) then Some(Get(s, ACTIVE_SUSPENSION).value) else None
  {
  }

  lemma {:induction false} UndecidedAreUnanswered(parked: seq<ParkedCall>, answers: map<string, Consent>)
    ensures Takes(Unanswered(parked, answers), Undecided(parked, answers))
  {
    if parked != [] {
      var n := |parked| - 1;
      UndecidedAreUnanswered(parked[..n], answers);
      var offer := if parked[n].callId in answers then None else Some(parked[n]);
      TakesNext(Unanswered(parked[..n], answers), Undecided(parked[..n], answers), offer);
      assert Unanswered(parked, answers) == Unanswered(parked[..n], answers) + [offer];
    }
  }

  /** Nothing is undecided exactly when every call has its answer. */
  lemma DecidedIsAllAnswered(active: Value)
    ensures Decided(active) <==> AllAnswered(active)
  {
    if active.Parked? && !AllAnswered(active) {
      var i :| 0 <= i < |active.parked| && active.parked[i].callId !in active.answers;
      assert active.parked[i] in Undecided(active.parked, active.answers);
    }
    if active.Parked? && !Decided(active) {
      var x := Undecided(active.parked, active.answers)[0];
      assert x in Undecided(active.parked, active.answers);
    }
  }

  lemma {:induction false} RouteFindsAny(parked: seq<ParkedCall>, pendingId: string)
    ensures Route(parked, pendingId).Some? <==> exists i :: 0 <= i < |parked| && parked[i].pendingId == pendingId
    ensures Route(parked, pendingId).Some? ==>
      exists i :: 0 <= i < |parked| && parked[i] == ParkedCall(Route(parked, pendingId).value, pendingId)
  {
    if parked != [] {
      var n := |parked| - 1;
      RouteFindsAny(parked[..n], pendingId);
      if parked[n].pendingId != pendingId {
        forall i | 0 <= i < |parked| && parked[i].pendingId == pendingId ensures parked[..n][i].pendingId == pendingId { }
        if Route(parked, pendingId).Some? {
          var i :| 0 <= i < n && parked[..n][i] == ParkedCall(Route(parked[..n], pendingId).value, pendingId);
          assert parked[i] == parked[..n][i];
        }
      } else {
        assert parked[n] == ParkedCall(Route(parked, pendingId).value, pendingId);
      }
    }
  }

  /** A round reuses an external id exactly when its calls are not apart. */
  lemma ReuseIsNotApart(parked: seq<ParkedCall>)
    ensures ReusesPending(parked) <==> !ApartPending(parked)
  {
  }

  // ---- one park -------------------------------------------------------------------------------

  predicate Indexed(s: BranchState, r: BranchState, callId: string, first: string) {
    Get(r, SuspendKey(callId)) == Step(Done, SuspendIndex(first), Get(s, SuspendKey(callId)).version + 1)
  }

  /** A park writes, for every call of the round, where its continuation is to be found, and the waiting
      continuation without an answer; and nothing else. */
  ghost predicate RoundParked(s: BranchState, r: BranchState, parked: seq<ParkedCall>)
    requires parked != []
  {
    && r == s.(entries := r.entries)
    && (forall x :: x in parked ==> Indexed(s, r, x.callId, parked[0].callId))
    && Get(r, ACTIVE_SUSPENSION) == Step(Done, Parked(Waiting, parked, map[]), Get(s, ACTIVE_SUSPENSION).version + 1)
    && forall k :: k != ACTIVE_SUSPENSION && (forall x :: x in parked ==> k != SuspendKey(x.callId)) ==> Get(r, k) == Get(s, k)
  }

  lemma ParkIsWritten(s: BranchState, parked: seq<ParkedCall>, token: int)
    requires parked != []
    ensures var r := Next(s, CommitOp(Transition([], ParkWrites(parked), []), token));
      if Stale(s, token) then r == s else RoundParked(s, r, parked)
  {
    var controls := ParkWrites(parked);
    WriteEachMeaning(s, controls);
    if !Stale(s, token) {
      forall x | x in parked ensures SuspendKey(x.callId) in controls && SuspendKey(x.callId) != ACTIVE_SUSPENSION {
        KeysAreFiled(x.callId);
        Prefixed(SUSPEND, x.callId);
        FamiliesAreApart(SuspendKey(x.callId));
      }
    }
  }

  // ---- one answer -----------------------------------------------------------------------------

  /** How a round stands: it can be finished, or exactly its unanswered calls are announced, in order. */
  ghost predicate Announces(announced: Option<seq<ParkedCall>>, active: Value) {
    active.Parked? &&
    if AllAnswered(active) then announced.None?
    else announced.Some? && Takes(Unanswered(active.parked, active.answers), announced.value)
  }

  lemma UndecidedIsAnnounced(active: Value)
    requires active.Parked?
    ensures Announces(if Decided(active) then None else Some(Undecided(active.parked, active.answers)), active)
  {
    DecidedIsAllAnswered(active);
    UndecidedAreUnanswered(active.parked, active.answers);
  }

  /** One answer, taken: it is for a call of the live round with this external id, and the continuation now
      holds it beside the answers it had. */
  ghost predicate AnswerTaken(s: BranchState, r: BranchState, pendingId: string, answer: Consent, next: Value)
    requires Live(s)
  {
    var active := Get(s, ACTIVE_SUSPENSION).value;
    OnlyWrites(s, r, ACTIVE_SUSPENSION, next) && (exists i ::
      0 <= i < |active.parked| && active.parked[i].pendingId == pendingId &&
      next == Parked(active.state, active.parked, active.answers[active.parked[i].callId := answer]))
  }

  /** The live round has a call with this external id. */
  predicate Awaits(s: BranchState, pendingId: string) {
    Live(s) && (exists i ::
      0 <= i < |Get(s, ACTIVE_SUSPENSION).value.parked| && Get(s, ACTIVE_SUSPENSION).value.parked[i].pendingId == pendingId)
  }

  lemma AnswerIsTaken(s: BranchState, pendingId: string, answer: Consent, token: int)
    ensures Awaits(s, pendingId) <==> ActiveOf(s).Some? && Route(ActiveOf(s).value.parked, pendingId).Some?
    ensures Awaits(s, pendingId) && !Stale(s, token) ==>
      var next := WithAnswer(ActiveOf(s).value, Route(ActiveOf(s).value.parked, pendingId).value, answer);
      AnswerTaken(s, Next(s, ControlOp(ACTIVE_SUSPENSION, next, token)), pendingId, answer, next)
  {
    if Live(s) {
      var active := Get(s, ACTIVE_SUSPENSION).value;
      RouteFindsAny(active.parked, pendingId);
      if Awaits(s, pendingId) && !Stale(s, token) {
        var call := Route(active.parked, pendingId).value;
        var next := WithAnswer(active, call, answer);
        ControlOnlyWrites(s, ACTIVE_SUSPENSION, next, token);
        hide OnlyWrites, Next, Route;
        var i :| 0 <= i < |active.parked| && active.parked[i] == ParkedCall(call, pendingId);
        assert next == Parked(active.state, active.parked, active.answers[active.parked[i].callId := answer]);
      }
    }
  }

  // ---- finishing ------------------------------------------------------------------------------

  /** Somebody said no to a call of the round. */
  predicate SomebodyRefused(active: Value) {
    active.Parked? && (exists i ::
      0 <= i < |active.parked| && active.parked[i].callId in active.answers && active.answers[active.parked[i].callId].Refuse?)
  }

  lemma DeniedIsRefused(active: Value)
    ensures Denied(active) <==> SomebodyRefused(active)
  {
  }

  /** The continuation says that it is being finished, and keeps the round and its answers. */
  lemma ResumingIsWritten(s: BranchState, active: Value, token: int)
    requires active.Parked? && !Stale(s, token)
    ensures OnlyWrites(s, Next(s, ControlOp(ACTIVE_SUSPENSION, WithState(active, Resuming), token)),
                       ACTIVE_SUSPENSION, Parked(Resuming, active.parked, active.answers))
  {
    ControlOnlyWrites(s, ACTIVE_SUSPENSION, WithState(active, Resuming), token);
  }

  /** The closed continuation names each of its calls, in order. */
  ghost predicate Closed(s: BranchState, r: BranchState, parked: seq<ParkedCall>) {
    exists ids: seq<string> :: |ids| == |parked| && (forall i :: 0 <= i < |parked| ==> ids[i] == parked[i].callId)
      && OnlyWrites(s, r, ACTIVE_SUSPENSION, Finished(ids))
  }

  lemma ClosedIsWritten(s: BranchState, parked: seq<ParkedCall>, token: int)
    requires !Stale(s, token)
    ensures Closed(s, Next(s, ControlOp(ACTIVE_SUSPENSION, Finished(CallIds(parked)), token)), parked)
  {
    ControlOnlyWrites(s, ACTIVE_SUSPENSION, Finished(CallIds(parked)), token);
    hide OnlyWrites, Next;
  }
}
