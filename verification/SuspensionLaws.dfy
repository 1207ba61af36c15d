/** What parking, answering and recovering keep, whatever crashes and takeovers come between. */
module SuspensionLaws {
  import opened Wrappers
  import opened Values
  import opened Ledger
  import opened Transitions
  import opened LedgerLaws
  import opened Keys
  import opened Workers
  import opened Suspension

  ghost predicate Holds(s: BranchState, active: Value) {
    active.Parked? && ActiveOf(s) == Some(active)
  }

  /** What a worker that can still write carries along is what the store holds. */
  ghost predicate SeatOk(w: World, p: Worker) {
    p in w.tokens && w.tokens[p] == w.store.issued ==>
      match At(w, p)
      case Away => true
      case Answering(active, c, _) => Holds(w.store, active) && exists x :: x in active.parked && x.callId == c
      case Finalizing(active) => Holds(w.store, active) && Decided(active)
      case Attempting(Some(active), _) => Holds(w.store, active) && Decided(active)
      case Attempting(None, _) => ActiveOf(w.store).None?
  }

  /** The stored answers are the accepted ones, all for calls of the round, and every call of the
      round can be answered apart from the others. */
  ghost predicate AnswersKept(w: World) {
    ActiveOf(w.store).Some? ==>
      var active := ActiveOf(w.store).value;
      && active.answers == w.accepted
      && (forall c :: c in w.accepted ==> exists x :: x in active.parked && x.callId == c)
      && active.parked != [] && !ReusesPending(active.parked)
  }

  ghost predicate Safe(w: World) {
    && TokensOk(w.store, w.tokens)
    && (forall p :: p in w.seats && !w.seats[p].Away? ==> p in w.tokens)
    && (forall p :: SeatOk(w, p))
    && AnswersKept(w)
  }

  /** An unread `run` takes effect: its worker is free, leased, and can write. */
  predicate RunsUnread(w: World, a: Action) {
    a.RunUnread? && At(w, a.p).Away? && a.p in w.tokens && !Stale(w.store, w.tokens[a.p])
  }

  /** A `run` that takes effect meets no live continuation at the moment it has its lease. */
  predicate Guarded(w: World, a: Action) {
    RunsUnread(w, a) ==> ActiveOf(w.store).None?
  }

  ghost predicate AllGuarded(w: World, actions: seq<Action>) {
    forall i :: 0 <= i < |actions| ==> Guarded(Play(w, actions[..i]), actions[i])
  }

  lemma GuardedInit(w: World, actions: seq<Action>)
    requires AllGuarded(w, actions) && actions != []
    ensures var n := |actions| - 1;
      AllGuarded(w, actions[..n]) && Guarded(Play(w, actions[..n]), actions[n])
  {
    hide Guarded, Play;
    var n := |actions| - 1;
    forall i | 0 <= i < n ensures Guarded(Play(w, actions[..n][..i]), actions[..n][i]) {
      assert actions[..n][..i] == actions[..i];
    }
  }

  /** Parks, resumes and recoveries alone are guarded from the start. */
  lemma WithoutRunsGuarded(w: World, actions: seq<Action>)
    requires forall i :: 0 <= i < |actions| ==> !actions[i].RunUnread?
    ensures AllGuarded(w, actions)
  {
    hide Play;
  }

  // ---- one action -----------------------------------------------------------------------------

  lemma TokensGrow(w: World, a: Action)
    requires TokensOk(w.store, w.tokens)
    ensures Grown(w.store, w.tokens, Do(w, a).store, Do(w, a).tokens)
  {
    hide SeatAfter, Grown, TokensOk, Join, AcceptedAfter, Next;
    match a
    case Enter(p, expired) => EnterGrows(w, a);
    case Renew(p, expired) => if p in w.tokens { RenewIs(w, a); RenewGrows(w.store, w.tokens, p, expired); } else { Still(w); }
    case Leave(p) => if p in w.tokens { LeaveIs(w, a); LeaveGrows(w.store, w.tokens, p); } else { Still(w); }
    case _ => PlainGrows(w, a);
  }

  lemma EnterGrows(w: World, a: Action)
    requires TokensOk(w.store, w.tokens) && a.Enter?
    ensures Grown(w.store, w.tokens, Do(w, a).store, Do(w, a).tokens)
  {
    hide Grown, TokensOk, Join;
    JoinGrows(w.store, w.tokens, a.p, a.expired);
    Still(w);
  }

  lemma RenewIs(w: World, a: Action)
    requires a.Renew? && a.p in w.tokens
    ensures Do(w, a).store == Acquire(w.store, a.p, a.expired).0 && Do(w, a).tokens == w.tokens
  {
  }

  lemma LeaveIs(w: World, a: Action)
    requires a.Leave? && a.p in w.tokens
    ensures Do(w, a).store == Release(w.store, a.p) && Do(w, a).tokens == w.tokens
  {
  }

  lemma Still(w: World)
    requires TokensOk(w.store, w.tokens)
    ensures Grown(w.store, w.tokens, w.store, w.tokens)
  {
  }

  lemma PlainGrows(w: World, a: Action)
    requires TokensOk(w.store, w.tokens) && !a.Enter? && !a.Renew? && !a.Leave?
    ensures Grown(w.store, w.tokens, Do(w, a).store, Do(w, a).tokens)
  {
    hide SeatAfter, Grown, TokensOk, AcceptedAfter, Next, OpOf;
    Still(w);
    var op := OpOf(w, a);
    if op.Some? {
      PlainOp(w, a);
      OpGrows(w.store, w.tokens, op.value);
    }
  }

  lemma PlainOp(w: World, a: Action)
    requires OpOf(w, a).Some? && !a.Enter? && !a.Renew? && !a.Leave?
    ensures !OpOf(w, a).value.AcquireOp? && !OpOf(w, a).value.ReleaseOp?
  {
  }

  /** The action writes the continuation. */
  predicate WritesActive(w: World, a: Action) {
    match a
    case WriteAnswer(p) => At(w, p).Answering?
    case WriteResuming(p) => At(w, p).Finalizing?
    case Park(p, parked) => Parks(At(w, p), parked)
    case Complete(p) => Completes(At(w, p))
    case _ => false
  }

  lemma ActiveUntouched(w: World, a: Action)
    requires !WritesActive(w, a)
    ensures ActiveOf(Do(w, a).store) == ActiveOf(w.store)
  {
    hide SeatAfter, AcceptedAfter, Next, Join;
    var op := OpOf(w, a);
    if op.Some? {
      NotActive(w, a);
      OtherSteps(w.store, op.value, ACTIVE_SUSPENSION);
    }
  }

  lemma NotActive(w: World, a: Action)
    requires OpOf(w, a).Some? && !WritesActive(w, a)
    ensures ACTIVE_SUSPENSION !in Writes(OpOf(w, a).value)
  {
    hide Join, Next;
    if a.StartCall? {
      Prefixed(TOOL, a.callId);
      FamiliesAreApart(ACTIVE_SUSPENSION);
      assert ACTIVE_SUSPENSION[0] == 'a' && StepKey(a.callId)[0] == 't';
    }
  }

  /** What an action that writes the continuation leaves there. */
  ghost function Writing(w: World, a: Action): Value
    requires WritesActive(w, a)
  {
    match a
    case WriteAnswer(p) => WithAnswer(At(w, p).active, At(w, p).callId, At(w, p).answer)
    case WriteResuming(p) => WithState(At(w, p).active, Resuming)
    case Park(p, parked) => Parked(Waiting, parked, map[])
    case Complete(p) => Finished(CallIds(At(w, p).work.value.parked))
  }

  lemma ActiveWritten(w: World, a: Action)
    requires WritesActive(w, a)
    ensures Stale(w.store, TokenOf(w, a.p)) ==> Do(w, a).store == w.store
    ensures !Stale(w.store, TokenOf(w, a.p)) ==>
      Do(w, a).store.issued == w.store.issued
      && Get(Do(w, a).store, ACTIVE_SUSPENSION).status == Done
      && Get(Do(w, a).store, ACTIVE_SUSPENSION).value == Writing(w, a)
  {
    hide SeatAfter, AcceptedAfter, WithAnswer, WithState, ParkWrites;
    if a.Park? { ParkWritten(w.store, a.parked, TokenOf(w, a.p)); }
  }

  lemma ParkWritten(s: BranchState, parked: seq<ParkedCall>, token: int)
    requires parked != []
    ensures var r := Next(s, CommitOp(Transition([], ParkWrites(parked), []), token));
      if Stale(s, token) then r == s else (
        && r.issued == s.issued && Get(r, ACTIVE_SUSPENSION).status == Done
        && Get(r, ACTIVE_SUSPENSION).value == Parked(Waiting, parked, map[]))
  {
    var controls := ParkWrites(parked);
    assert controls[ACTIVE_SUSPENSION] == Parked(Waiting, parked, map[]);
    hide ParkWrites;
    WriteEachMeaning(s, controls);
  }

  /** A worker nobody moved keeps its place, and stays in step with the store or is fenced. */
  lemma OthersStaySeated(w: World, a: Action, p: Worker)
    requires Safe(w) && Mover(a) != Some(p)
    ensures SeatOk(Do(w, a), p)
  {
    hide Do, TokensOk, Grown, Holds, AnswersKept, OpOf;
    SeatsOf(w, a, p);
    TokensGrow(w, a);
    GrownMeans(w.store, w.tokens, Do(w, a).store, Do(w, a).tokens, p);
    assert SeatOk(w, p);
    if p in w.tokens {
      if WritesActive(w, a) { OthersAreFenced(w, a, p); } else { ActiveUntouched(w, a); StillHolds(w, Do(w, a)); }
    } else {
      assert At(w, p).Away?;
    }
  }

  lemma SeatsOf(w: World, a: Action, p: Worker)
    ensures At(Do(w, a), p) == if Mover(a) == Some(p) then SeatAfter(w, a) else At(w, p)
  {
    hide OpOf, SeatAfter, AcceptedAfter;
  }

  lemma StillHolds(w: World, r: World)
    requires ActiveOf(r.store) == ActiveOf(w.store)
    ensures forall v :: Holds(w.store, v) == Holds(r.store, v)
  {
  }

  /** An accepted write of the continuation leaves nobody else able to write. */
  lemma OthersAreFenced(w: World, a: Action, p: Worker)
    requires Safe(w) && WritesActive(w, a) && a.p != p && SeatOk(w, p)
    requires At(Do(w, a), p) == At(w, p) && p in w.tokens
    ensures SeatOk(Do(w, a), p)
  {
    hide Do, TokensOk, Grown, AnswersKept, SeatAfter;
    ActiveWritten(w, a);
    SameTokens(w, a);
    if !Stale(w.store, TokenOf(w, a.p)) {
      MoverIsIn(w, a);
      OnlyTheLatestWrites(w.store, w.tokens, a.p);
    }
  }

  lemma SameTokens(w: World, a: Action)
    requires !a.Enter?
    ensures Do(w, a).tokens == w.tokens
  {
  }

  lemma MoverIsIn(w: World, a: Action)
    requires Safe(w) && WritesActive(w, a)
    ensures a.p in w.tokens
  {
    hide Do, TokensOk, Next, SeatOk;
    assert !At(w, a.p).Away?;
  }

  /** The worker that moved is again in step with the store. */
  lemma MoverIsSeated(w: World, a: Action)
    requires Safe(w) && Guarded(w, a) && Mover(a).Some?
    ensures SeatOk(Do(w, a), Mover(a).value)
  {
    hide Do, TokensOk, OpOf, ParkWrites, Route, StepKey, AcceptedAfter;
    var p := Mover(a).value;
    SeatsOf(w, a, p);
    SameTokens(w, a);
    assert SeatOk(w, p);
    match a
    case WriteAnswer(_) => if At(w, p).Answering? { WriterIsSeated(w, a); } else { Quiet(w, a); }
    case WriteResuming(_) => if At(w, p).Finalizing? { WriterIsSeated(w, a); } else { Quiet(w, a); }
    case Park(_, _) => if !At(w, p).Attempting? || At(w, p).started != {} { Quiet(w, a); }
    case Complete(_) => if !At(w, p).Attempting? || At(w, p).started != {} { Quiet(w, a); }
    case Resume(_, id, _) => Quiet(w, a); if ActiveOf(w.store).Some? && Route(ActiveOf(w.store).value.parked, id).Some? { RoutedIsParked(ActiveOf(w.store).value.parked, id); }
    case _ => Quiet(w, a);
  }

  /** Without a write of the continuation nobody's token turns current. */
  lemma Quiet(w: World, a: Action)
    requires TokensOk(w.store, w.tokens) && !WritesActive(w, a)
    ensures ActiveOf(Do(w, a).store) == ActiveOf(w.store)
    ensures forall p :: p in w.tokens && Do(w, a).tokens == w.tokens && w.tokens[p] == Do(w, a).store.issued ==> w.tokens[p] == w.store.issued
  {
    hide Do, WritesActive, Grown;
    ActiveUntouched(w, a);
    TokensGrow(w, a);
    forall p | p in w.tokens && Do(w, a).tokens == w.tokens && w.tokens[p] == Do(w, a).store.issued ensures w.tokens[p] == w.store.issued {
      GrownMeans(w.store, w.tokens, Do(w, a).store, Do(w, a).tokens, p);
    }
  }

  lemma WriterIsSeated(w: World, a: Action)
    requires Safe(w) && WritesActive(w, a) && (a.WriteAnswer? || a.WriteResuming?)
    ensures SeatOk(Do(w, a), a.p)
  {
    hide Do, TokensOk, OpOf;
    SeatsOf(w, a, a.p);
    SameTokens(w, a);
    MoverIsIn(w, a);
    ActiveWritten(w, a);
    assert SeatOk(w, a.p);
    if !Stale(w.store, TokenOf(w, a.p)) { OnlyTheLatestWrites(w.store, w.tokens, a.p); }
  }

  lemma AnswersAreKept(w: World, a: Action)
    requires Safe(w)
    ensures AnswersKept(Do(w, a))
  {
    hide Do, TokensOk, OpOf, ParkWrites, Route, SeatAfter, Undecided;
    AcceptedIs(w, a);
    if !WritesActive(w, a) {
      ActiveUntouched(w, a);
    } else {
      ActiveWritten(w, a);
      if !Stale(w.store, TokenOf(w, a.p)) {
        MoverIsIn(w, a);
        OnlyTheLatestWrites(w.store, w.tokens, a.p);
        assert SeatOk(w, a.p);
      }
    }
  }

  lemma AcceptedIs(w: World, a: Action)
    ensures Do(w, a).accepted == AcceptedAfter(w, a)
  {
  }

  lemma SafeKept(w: World, a: Action)
    requires Safe(w) && Guarded(w, a)
    ensures Safe(Do(w, a))
  {
    hide SeatOk, AnswersKept, OpOf, Grown, TokensOk, AcceptedAfter;
    TokensGrow(w, a);
    GrownIsOk(w, a);
    AnswersAreKept(w, a);
    forall p ensures SeatOk(Do(w, a), p) {
      if Mover(a) == Some(p) { MoverIsSeated(w, a); } else { OthersStaySeated(w, a, p); }
    }
    forall p ensures p in w.tokens ==> p in Do(w, a).tokens {
      GrownMeans(w.store, w.tokens, Do(w, a).store, Do(w, a).tokens, p);
    }
  }

  lemma GrownIsOk(w: World, a: Action)
    requires Grown(w.store, w.tokens, Do(w, a).store, Do(w, a).tokens)
    ensures TokensOk(Do(w, a).store, Do(w, a).tokens)
  {
    hide Do;
  }

  lemma {:induction false} RunsStaySafe(w: World, actions: seq<Action>)
    requires Safe(w) && AllGuarded(w, actions)
    ensures Safe(Play(w, actions))
  {
    hide Safe, Do, AllGuarded, Guarded;
    if actions != [] {
      var n := |actions| - 1;
      GuardedInit(w, actions);
      RunsStaySafe(w, actions[..n]);
      SafeKept(Play(w, actions[..n]), actions[n]);
    }
  }

  /** Every interleaving of parks, resumes, recoveries and runs in which no run meets a live continuation
      under its lease, with crashes and takeovers anywhere, keeps the stored answers equal to the
      accepted ones and every live worker in step with the store. */
  lemma {:induction false} EveryRunIsSafe(actions: seq<Action>)
    requires AllGuarded(START, actions)
    ensures Safe(Play(START, actions))
  {
    hide AllGuarded, Safe, Play;
    StartIsSafe();
    RunsStaySafe(START, actions);
  }

  lemma StartIsSafe()
    ensures Safe(START)
  {
  }

  // ---- what that means for answers and calls --------------------------------------------------

  /** A round is never completed or parked over while one of its calls waits for an answer. */
  lemma ClosesOnlyDecided(actions: seq<Action>, a: Action)
    requires AllGuarded(START, actions)
    ensures var w := Play(START, actions);
      Closes(w, a) && ActiveOf(w.store).Some? ==> Decided(ActiveOf(w.store).value)
  {
    hide Play, OpOf, TokensOk, AnswersKept, AllGuarded;
    EveryRunIsSafe(actions);
    var w := Play(START, actions);
    if Closes(w, a) && ActiveOf(w.store).Some? {
      MoverIsIn(w, a);
      OnlyTheLatestWrites(w.store, w.tokens, a.p);
      assert SeatOk(w, a.p);
    }
  }

  /** No step of a run closes the round, or answers call `c` again. */
  ghost predicate Untouched(w: World, more: seq<Action>, c: string) {
    forall i :: 0 <= i < |more| ==>
      var r := Play(w, more[..i]);
      !Closes(r, more[i]) && (Answers(r, more[i]) ==> At(r, more[i].p).callId != c)
  }

  ghost predicate Keeps(r: World, parked: seq<ParkedCall>, c: string, answer: Consent) {
    && ActiveOf(r.store).Some? && ActiveOf(r.store).value.Parked?
    && c in ActiveOf(r.store).value.answers && ActiveOf(r.store).value.answers[c] == answer
    && ActiveOf(r.store).value.parked == parked
  }

  /** No accepted answer is lost: in any reachable world it stays in the stored continuation until
      the round is closed, and only an accepted answer to the same call replaces it. */
  lemma {:induction false} AnswerStays(w: World, more: seq<Action>, c: string)
    requires Safe(w) && AllGuarded(w, more) && Untouched(w, more, c)
    requires c in w.accepted && ActiveOf(w.store).Some?
    ensures ActiveOf(w.store).value.Parked?
    ensures Keeps(Play(w, more), ActiveOf(w.store).value.parked, c, w.accepted[c])
  {
    hide Do, Safe, Closes, Answers, AllGuarded, Guarded;
    KeptIs(w);
    if more != [] {
      var n := |more| - 1;
      GuardedInit(w, more);
      assert forall i :: 0 <= i < n ==> more[..n][i] == more[i] && more[..n][..i] == more[..i];
      AnswerStays(w, more[..n], c);
      RunsStaySafe(w, more[..n]);
      AnswerStaysOne(Play(w, more[..n]), more[n], c, ActiveOf(w.store).value.parked, w.accepted[c]);
    }
  }

  lemma KeptIs(w: World)
    requires Safe(w)
    ensures ActiveOf(w.store).Some? ==> ActiveOf(w.store).value.Parked? && ActiveOf(w.store).value.answers == w.accepted
  {
  }

  lemma AnswerStaysOne(w: World, a: Action, c: string, parked: seq<ParkedCall>, answer: Consent)
    requires Safe(w) && !Closes(w, a) && (Answers(w, a) ==> At(w, a.p).callId != c)
    requires Keeps(w, parked, c, answer)
    ensures Keeps(Do(w, a), parked, c, answer)
  {
    hide Do, TokensOk, OpOf, ParkWrites, SeatAfter, AnswersKept, Undecided;
    if !WritesActive(w, a) {
      ActiveUntouched(w, a);
    } else {
      ActiveWritten(w, a);
      if !Stale(w.store, TokenOf(w, a.p)) {
        MoverIsIn(w, a);
        OnlyTheLatestWrites(w.store, w.tokens, a.p);
        assert SeatOk(w, a.p);
      }
    }
  }

  /** A worker finishing a round that can still write works from exactly the accepted answers, one
      for every call of the round. */
  lemma FinishesWithEveryAnswer(actions: seq<Action>, p: Worker)
    requires AllGuarded(START, actions)
    ensures var w := Play(START, actions);
      At(w, p).Attempting? && At(w, p).work.Some? && p in w.tokens && w.tokens[p] == w.store.issued ==>
        var active := At(w, p).work.value;
        && active.Parked? && active.answers == w.accepted && ActiveOf(w.store) == Some(active)
        && forall x :: x in active.parked ==> x.callId in w.accepted
  {
    hide Play, TokensOk, AllGuarded;
    EveryRunIsSafe(actions);
    var w := Play(START, actions);
    assert SeatOk(w, p);
    if At(w, p).Attempting? && At(w, p).work.Some? && p in w.tokens && w.tokens[p] == w.store.issued {
      var active := At(w, p).work.value;
      forall x | x in active.parked ensures x.callId in w.accepted {
        assert x !in Undecided(active.parked, active.answers);
      }
    }
  }

  /** No call is started while a call of the parked round waits: a start the store accepts finds no
      live park, or one whose every call is answered. */
  lemma {:induction false} NoStartBeforeEveryAnswer(actions: seq<Action>, p: Worker, c: string)
    requires AllGuarded(START, actions)
    ensures var w := Play(START, actions);
      At(w, p).Attempting? && !Stale(w.store, TokenOf(w, p)) && ActiveOf(w.store).Some? ==>
        Decided(ActiveOf(w.store).value)
    ensures var w := Play(START, actions);
      Begins(w, p, c) && ActiveOf(w.store).Some? && !Decided(ActiveOf(w.store).value) ==>
        Stale(w.store, TokenOf(w, p))
  {
    hide Play, TokensOk, AnswersKept, Undecided, AllGuarded;
    EveryRunIsSafe(actions);
    var w := Play(START, actions);
    if At(w, p).Attempting? && !Stale(w.store, TokenOf(w, p)) {
      assert p in w.seats && p in w.tokens;
      OnlyTheLatestWrites(w.store, w.tokens, p);
      assert SeatOk(w, p);
    }
  }

  /** Parking, answering and finishing a round only ever overwrite control state, so they fall under
      the laws of effects that the framework keeps. */
  lemma SuspensionKeepsToControls(w: World, a: Action)
    requires OpOf(w, a).Some? && !a.Elsewhere?
    ensures FrameworkOp(OpOf(w, a).value)
  {
    hide Join, Next, IsEffectKey, IsControlKey;
    FamilyOfActive();
    match a
    case StartCall(_, c) => KeysAreFiled(c);
    case Park(_, parked) =>
      forall k | k in ParkWrites(parked) ensures IsControlKey(k) {
        if k != ACTIVE_SUSPENSION {
          var c :| c in parked && k == SuspendKey(c.callId);
          KeysAreFiled(c.callId);
        }
      }
    case _ =>
  }

  lemma FamilyOfActive()
    ensures IsControlKey(ACTIVE_SUSPENSION)
  {
  }
}
