/** The actions of `Suspension`, taken by one worker with nobody in between, are the calls of
    `SuspensionProgram`: they write the same words and lead where those calls lead. */
module SuspensionSolo {
  import opened Wrappers
  import opened Values
  import opened Ledger
  import opened Keys
  import opened Workers
  import opened Suspension
  import opened SuspensionWords
  import opened SuspensionLaws

  /** `resume`: an answer for no call of a live round changes nothing, and otherwise it is taken; with the
      last answer the worker goes on to finish the round. */
  lemma ResumeTakesTheAnswer(w: World, p: Worker, pendingId: string, answer: Consent)
    requires p in w.tokens && At(w, p).Away?
    ensures var r := Do(Do(w, Resume(p, pendingId, answer)), WriteAnswer(p));
      if !Awaits(w.store, pendingId) || Stale(w.store, w.tokens[p])
      then r.store == w.store && At(r, p).Away? && r.accepted == w.accepted
      else exists next ::
        AnswerTaken(w.store, r.store, pendingId, answer, next)
        && At(r, p) == (if AllAnswered(next) then Finalizing(next) else Away)
  {
    var w1 := Do(w, Resume(p, pendingId, answer));
    AnswerIsTaken(w.store, pendingId, answer, w.tokens[p]);
    Resumed(w, p, pendingId, answer);
    hide Awaits, AnswerTaken, AllAnswered, Do, Route, Next;
    if Awaits(w.store, pendingId) {
      var next := WithAnswer(ActiveOf(w.store).value, Route(ActiveOf(w.store).value.parked, pendingId).value, answer);
      AnswerWritten(w1, p);
      DecidedIsAllAnswered(next);
    } else {
      NothingWritten(w1, p);
    }
  }

  lemma Resumed(w: World, p: Worker, pendingId: string, answer: Consent)
    requires p in w.tokens && At(w, p).Away?
    ensures var r := Do(w, Resume(p, pendingId, answer));
      && r.store == w.store && r.tokens == w.tokens && r.accepted == w.accepted
      && At(r, p) == if ActiveOf(w.store).Some? && Route(ActiveOf(w.store).value.parked, pendingId).Some?
                     then Answering(ActiveOf(w.store).value, Route(ActiveOf(w.store).value.parked, pendingId).value, answer)
                     else Away
  {
    hide Route;
  }

  lemma NothingWritten(w: World, p: Worker)
    requires At(w, p).Away?
    ensures var r := Do(w, WriteAnswer(p)); r.store == w.store && At(r, p).Away? && r.accepted == w.accepted
  {
  }

  lemma AnswerWritten(w: World, p: Worker)
    requires p in w.tokens && At(w, p).Answering?
    ensures var r := Do(w, WriteAnswer(p));
      var next := WithAnswer(At(w, p).active, At(w, p).callId, At(w, p).answer);
      && r.store == Next(w.store, ControlOp(ACTIVE_SUSPENSION, next, w.tokens[p]))
      && At(r, p) == (if Stale(w.store, w.tokens[p]) || !Decided(next) then Away else Finalizing(next))
      && (Stale(w.store, w.tokens[p]) ==> r.store == w.store && r.accepted == w.accepted)
  {
    hide Undecided, WithAnswer;
  }

  /** `recover`: nothing parked, a round that waits, or one to finish. */
  lemma RecoverLooksFirst(w: World, p: Worker)
    requires p in w.tokens && At(w, p).Away?
    ensures var r := Do(w, Recover(p));
      && r.store == w.store && r.accepted == w.accepted
      && (!Live(w.store) ==> At(r, p) == Attempting(None, {}))
      && (Live(w.store) ==>
            var active := Get(w.store, ACTIVE_SUSPENSION).value;
            At(r, p) == if AllAnswered(active) then Finalizing(active) else Away)
  {
    ActiveIsLive(w.store);
    if Live(w.store) { DecidedIsAllAnswered(Get(w.store, ACTIVE_SUSPENSION).value); }
    hide Undecided, AllAnswered;
  }

  /** Finishing begins with the continuation saying so, and goes on from the round as it was read. */
  lemma FinishingSaysSo(w: World, p: Worker)
    requires p in w.tokens && At(w, p).Finalizing? && At(w, p).active.Parked?
    ensures var r := Do(w, WriteResuming(p));
      var active := At(w, p).active;
      if Stale(w.store, w.tokens[p]) then r.store == w.store && At(r, p).Away?
      else
        && OnlyWrites(w.store, r.store, ACTIVE_SUSPENSION, Parked(Resuming, active.parked, active.answers))
        && At(r, p) == Attempting(Some(Parked(Resuming, active.parked, active.answers)), {})
  {
    if !Stale(w.store, w.tokens[p]) { ResumingIsWritten(w.store, At(w, p).active, w.tokens[p]); }
    hide OnlyWrites;
  }

  /** `_park`: a round without calls, or with two under one external id, is not parked; any other is written
      whole. The attempt ends. */
  lemma ParkingWritesTheRound(w: World, p: Worker, parked: seq<ParkedCall>)
    requires p in w.tokens && At(w, p).Attempting? && At(w, p).started == {}
    ensures var r := Do(w, Park(p, parked));
      && At(r, p).Away?
      && (parked == [] || !ApartPending(parked) || Stale(w.store, w.tokens[p]) ==> r.store == w.store)
      && (parked != [] && ApartPending(parked) && !Stale(w.store, w.tokens[p]) ==>
            RoundParked(w.store, r.store, parked) && r.accepted == map[])
  {
    ReuseIsNotApart(parked);
    SeatsOf(w, Park(p, parked), p);
    if parked != [] { ParkIsWritten(w.store, parked, w.tokens[p]); }
    hide RoundParked, ApartPending, ReusesPending, Next, ParkWrites;
  }

  /** A finished round is closed under the ids of its calls. */
  lemma CompletingClosesTheRound(w: World, p: Worker)
    requires p in w.tokens && Completes(At(w, p))
    ensures var r := Do(w, Action.Complete(p));
      && At(r, p).Away?
      && (if Stale(w.store, w.tokens[p]) then r.store == w.store
          else Closed(w.store, r.store, At(w, p).work.value.parked) && r.accepted == map[])
  {
    if !Stale(w.store, w.tokens[p]) { ClosedIsWritten(w.store, At(w, p).work.value.parked, w.tokens[p]); }
    hide Closed, CallIds;
  }

  /** A call of the attempt is started exactly as the ledger starts it. */
  lemma StartingStarts(w: World, p: Worker, c: string)
    requires p in w.tokens && At(w, p).Attempting?
    ensures var r := Do(w, StartCall(p, c));
      var (store, reply) := Start(w.store, StepKey(c), w.tokens[p]);
      && r.store == store
      && At(r, p) == if reply == Success(true) then At(w, p).(started := At(w, p).started + {c}) else Away
  {
    hide StepKey;
  }

  /** Every call of a live round can be answered, apart from every other. */
  lemma EveryWaitingCallIsReachable(w: World, i: nat)
    requires Safe(w) && ActiveOf(w.store).Some? && i < |ActiveOf(w.store).value.parked|
    ensures var parked := ActiveOf(w.store).value.parked;
      Route(parked, parked[i].pendingId) == Some(parked[i].callId)
  {
    hide TokensOk, SeatOk;
    var parked := ActiveOf(w.store).value.parked;
    ReuseIsNotApart(parked);
    EveryCallIsRouted(parked, i);
  }
}
