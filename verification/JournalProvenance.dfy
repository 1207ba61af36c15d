/** Where a committed result comes from when every worker writes under the lease it was given, and
    why a late write of a replaced worker lands nowhere. */
module JournalProvenance {
  import opened Wrappers
  import opened Values
  import opened Ledger
  import opened LedgerLaws
  import opened Keys
  import opened Workers
  import opened Journal
  import opened JournalBound

  /** The worker's own start is behind it and it has not given up the attempt. */
  predicate Active(pc: Pc) {
    pc.Started? || pc.InHandler? || pc.Forgetting? || pc.Finishing? || pc.Copying?
  }

  /** The action asks the store for a start: an attempt's own, or the intent a fork copies. */
  predicate AsksToStart(w: World, a: Action) {
    (a.StartStep? && At(w, a.p, a.e).ToStart?) || (a.CopyIntent? && MayCopy(w, a.p, a.callId, a.known))
  }

  predicate Leased(a: Action) {
    !a.EnterUnleased?
  }

  /** A worker that can still write owns the running step its own start produced. */
  ghost predicate Owns(w: World, p: Worker, e: Effect) {
    Active(At(w, p, e)) && p in w.tokens && w.tokens[p] == w.store.issued ==>
      Get(w.store, KeyOf(e)) == Step(Running, Null, At(w, p, e).at)
  }

  ghost predicate Orderly(w: World) {
    && Linked(w)
    && TokensOk(w.store, w.tokens)
    && (forall x :: x in w.pcs && !w.pcs[x].Idle? ==> x.0 in w.tokens)
    && (forall p, e :: Owns(w, p, e))
  }

  // ---- one action -----------------------------------------------------------------------------

  lemma TokensKept(w: World, a: Action)
    requires TokensOk(w.store, w.tokens) && Leased(a)
    ensures Grown(w.store, w.tokens, Do(w, a).store, Do(w, a).tokens)
  {
    hide KeyOf, AfterKey, PcAfter, FrameworkOp, IsEffectKey, Foreign, Grown, TokensOk, Join;
    match a
    case Enter(p, expired) => JoinGrows(w.store, w.tokens, p, expired);
    case Renew(p, expired) => if p in w.tokens { RenewGrows(w.store, w.tokens, p, expired); } else { SameGrows(w); }
    case Leave(p) => if p in w.tokens { LeaveGrows(w.store, w.tokens, p); } else { SameGrows(w); }
    case _ => PlainGrows(w, a);
  }

  lemma PlainGrows(w: World, a: Action)
    requires TokensOk(w.store, w.tokens) && !a.Enter? && !a.EnterUnleased? && !a.Renew? && !a.Leave?
    ensures Grown(w.store, w.tokens, Do(w, a).store, Do(w, a).tokens)
  {
    hide KeyOf, AfterKey, PcAfter, OpOf, Grown, TokensOk;
    SameGrows(w);
    var op := OpOf(w, a);
    if op.Some? {
      PlainOp(w, a);
      OpGrows(w.store, w.tokens, op.value);
    }
  }

  lemma SameGrows(w: World)
    requires TokensOk(w.store, w.tokens)
    ensures Grown(w.store, w.tokens, w.store, w.tokens)
  {
  }

  lemma PlainOp(w: World, a: Action)
    requires OpOf(w, a).Some? && !a.Enter? && !a.Renew? && !a.Leave?
    ensures !OpOf(w, a).value.AcquireOp? && !OpOf(w, a).value.ReleaseOp?
  {
    hide KeyOf, AfterKey, FrameworkOp, IsEffectKey;
  }

  /** Whoever moves is on the roster; whoever is not stands idle. */
  lemma RosterKept(w: World, a: Action)
    requires TokensOk(w.store, w.tokens) && Leased(a)
    requires forall x :: x in w.pcs && !w.pcs[x].Idle? ==> x.0 in w.tokens
    ensures forall x :: x in Do(w, a).pcs && !Do(w, a).pcs[x].Idle? ==> x.0 in Do(w, a).tokens
  {
    hide KeyOf, AfterKey, OpOf, Next, TokensOk, Stale, Start, FinishEffect, TokensAfter, AfterRead, Grown;
    TokensKept(w, a);
    forall p ensures p in w.tokens ==> p in Do(w, a).tokens {
      GrownMeans(w.store, w.tokens, Do(w, a).store, Do(w, a).tokens, p);
    }
  }

  /** Off a start of its own, a worker stays with the attempt it had. */
  lemma LocalPc(w: World, a: Action)
    requires Walks(a).Some? && Active(PcAfter(w, a)) && !AsksToStart(w, a)
    ensures var (p, e) := Walks(a).value; Active(At(w, p, e)) && At(w, p, e).at == PcAfter(w, a).at
  {
    hide KeyOf, AfterKey, Stale, Start, FinishEffect;
  }

  /** The worker that touches an effect. */
  function Toucher(a: Action): Worker {
    if a.Decide? then a.p else if Walks(a).Some? then Walks(a).value.0 else ""
  }

  /** The operation of an action that touches an effect's step carries its worker's token. */
  lemma TouchingToken(w: World, a: Action, e: Effect)
    requires Touches(w, a, e)
    ensures Presented(OpOf(w, a).value) == Some(TokenOf(w, Toucher(a)))
    ensures Stale(w.store, TokenOf(w, Toucher(a))) ==> Do(w, a).store == w.store
    ensures a.Decide? || Walks(a) == Some((Toucher(a), e))
    ensures a.Decide? ==> a.e == e && At(w, a.p, e).Idle?
  {
    TouchedBy(w, a, e);
    hide AfterKey, Join, FrameworkOp, PcAfter, TokensAfter;
    match a
    case Decide(_, f, _, _) => KeysApart(e, f);
    case Elsewhere(op) => EffectIsFiled(e);
    case _ =>
  }

  lemma StartTouches(w: World, a: Action)
    requires AsksToStart(w, a)
    ensures Walks(a).Some? && Touches(w, a, Walks(a).value.1)
  {
    hide KeyOf;
  }

  lemma StepUntouched(w: World, a: Action, e: Effect)
    requires !Touches(w, a, e)
    ensures Get(Do(w, a).store, KeyOf(e)) == Get(w.store, KeyOf(e))
  {
    hide OpOf, Next, PcAfter;
    if OpOf(w, a).Some? { OtherSteps(w.store, OpOf(w, a).value, KeyOf(e)); }
  }

  /** An attempt that survives an action it did not start in was there before, under the same token. */
  lemma SameAttempt(w: World, a: Action, p: Worker, e: Effect)
    requires Active(At(Do(w, a), p, e)) && !(AsksToStart(w, a) && Walks(a) == Some((p, e)))
    ensures Active(At(w, p, e)) && At(w, p, e).at == At(Do(w, a), p, e).at
  {
    hide OpOf, TokensAfter, PcAfter;
    if Walks(a) == Some((p, e)) { LocalPc(w, a); }
  }

  lemma OwnsUntouched(w: World, a: Action, p: Worker, e: Effect)
    requires Orderly(w) && Leased(a) && !Touches(w, a, e)
    ensures Owns(Do(w, a), p, e)
  {
    hide KeyOf, OpOf, Next, TokensOk, Linked, PcAfter, TokensAfter, Touches, Grown, Do;
    assert Owns(w, p, e);
    TokensKept(w, a);
    GrownMeans(w.store, w.tokens, Do(w, a).store, Do(w, a).tokens, p);
    StepUntouched(w, a, e);
    if AsksToStart(w, a) { StartTouches(w, a); }
    if Active(At(Do(w, a), p, e)) { SameAttempt(w, a, p, e); }
  }

  /** A write by somebody else that the store accepts fences this worker for good. */
  lemma OwnsTouchedByOther(w: World, a: Action, p: Worker, e: Effect)
    requires Orderly(w) && Leased(a) && Touches(w, a, e) && Toucher(a) != p && Toucher(a) in w.tokens
    ensures Owns(Do(w, a), p, e)
  {
    hide KeyOf, OpOf, Next, Linked, PcAfter, TokensAfter, Touches, Grown, Do, TokensOk;
    assert Owns(w, p, e);
    TokensKept(w, a);
    GrownMeans(w.store, w.tokens, Do(w, a).store, Do(w, a).tokens, p);
    TouchingToken(w, a, e);
    if Active(At(Do(w, a), p, e)) {
      SameAttempt(w, a, p, e);
      if !Stale(w.store, w.tokens[Toucher(a)]) { OnlyTheLatestWrites(w.store, w.tokens, Toucher(a)); }
    }
  }

  /** A worker's own write on the step either starts an attempt it owns, or ends the one it had. */
  lemma OwnsTouchedBySelf(w: World, a: Action, e: Effect)
    requires Touches(w, a, e)
    ensures Owns(Do(w, a), Toucher(a), e)
  {
    hide AfterKey, Join, FrameworkOp, TokensAfter, KeyOf, Touches;
    TouchedBy(w, a, e);
    TouchingToken(w, a, e);
    if a.StartStep? { OwnsStarted(w, a); } else if a.CopyIntent? { OwnsIntent(w, a); } else { EndsAttempt(w, a, e); }
  }

  lemma OwnsStarted(w: World, a: Action)
    requires a.StartStep? && Touches(w, a, a.e)
    ensures Owns(Do(w, a), a.p, a.e)
  {
    hide AfterKey, KeyOf;
  }

  lemma OwnsIntent(w: World, a: Action)
    requires a.CopyIntent? && Touches(w, a, Tool(a.callId))
    ensures Owns(Do(w, a), a.p, Tool(a.callId))
  {
    hide AfterKey, KeyOf;
  }

  lemma EndsAttempt(w: World, a: Action, e: Effect)
    requires Touches(w, a, e) && !a.StartStep? && !a.CopyIntent?
    requires a.Decide? ==> a.e == e && At(w, a.p, e).Idle?
    requires a.Decide? || Walks(a) == Some((Toucher(a), e))
    ensures !Active(At(Do(w, a), Toucher(a), e))
  {
    hide AfterKey, Join, FrameworkOp, TokensAfter, KeyOf, Stale, FinishEffect, Get, Next;
  }

  lemma TouchersAreLeased(w: World, a: Action, e: Effect)
    requires Orderly(w) && Touches(w, a, e)
    ensures Toucher(a) in w.tokens
  {
    TouchedBy(w, a, e);
    hide AfterKey, Join, FrameworkOp, TokensAfter, KeyOf, TokensOk, Linked, Owns, Next;
    if !a.Decide? && !a.CopyIntent? {
      var x := Walks(a).value;
      assert x in w.pcs && !w.pcs[x].Idle?;
    }
  }

  lemma OrderlyKept(w: World, a: Action)
    requires Orderly(w) && Leased(a)
    ensures Orderly(Do(w, a))
  {
    hide Linked, TokensOk, Owns, Do, Touches, Grown;
    DoLinked(w, a);
    TokensKept(w, a);
    GrownIsOk(w.store, w.tokens, Do(w, a).store, Do(w, a).tokens);
    RosterKept(w, a);
    forall p, e ensures Owns(Do(w, a), p, e) {
      if !Touches(w, a, e) {
        OwnsUntouched(w, a, p, e);
      } else {
        TouchersAreLeased(w, a, e);
        if Toucher(a) == p { OwnsTouchedBySelf(w, a, e); } else { OwnsTouchedByOther(w, a, p, e); }
      }
    }
  }

  lemma GrownIsOk(s: BranchState, tokens: Tokens, r: BranchState, next: Tokens)
    requires Grown(s, tokens, r, next)
    ensures TokensOk(r, next)
  {
  }

  predicate AllLeased(actions: seq<Action>) {
    forall i :: 0 <= i < |actions| ==> Leased(actions[i])
  }

  lemma {:induction false} PlayOrderly(w: World, actions: seq<Action>)
    requires Orderly(w) && AllLeased(actions)
    ensures Orderly(Play(w, actions))
  {
    hide Orderly, Do;
    if actions != [] {
      var n := |actions| - 1;
      assert forall i :: 0 <= i < n ==> actions[..n][i] == actions[i];
      PlayOrderly(w, actions[..n]);
      OrderlyKept(Play(w, actions[..n]), actions[n]);
    }
  }

  lemma StartOrderly()
    ensures Orderly(START)
  {
  }

  /** A late write lands nowhere: whatever a worker sends about an effect's step (a result, a forget, a
      copied result, the forget before a rerun), if it changes the store at all, the worker holds the last
      token issued and the step is running. A write that ends an attempt moreover finds the very version
      this worker's own start produced. Renewals do not help a replaced worker, since its attempt keeps
      the token it began with. */
  lemma LateWritesMiss(w: World, a: Action)
    requires Orderly(w) && (a.FinishStep? || a.ForgetStep? || a.CopyResult? || a.ReopenStep?) && Do(w, a).store != w.store
    ensures var e := Walks(a).value.1;
      && a.p in w.tokens && w.tokens[a.p] == w.store.issued && Get(w.store, KeyOf(e)).status == Running
      && (!a.ReopenStep? ==>
            && Active(At(w, a.p, e)) && Get(w.store, KeyOf(e)) == Step(Running, Null, At(w, a.p, e).at)
            && History(w, e).latest == At(w, a.p, e).at)
  {
    var e := Walks(a).value.1;
    assert Touches(w, a, e);
    TouchersAreLeased(w, a, e);
    TouchingToken(w, a, e);
    hide TokensOk;
    OnlyTheLatestWrites(w.store, w.tokens, a.p);
    if a.ReopenStep? { ReopenFindsRunning(w, a); } else { OwnWriteHits(w, a); }
  }

  lemma ReopenFindsRunning(w: World, a: Action)
    requires a.ReopenStep? && Do(w, a).store != w.store
    ensures Get(w.store, KeyOf(a.e)).status == Running
  {
    hide KeyOf;
  }

  lemma OwnWriteHits(w: World, a: Action)
    requires Orderly(w) && (a.FinishStep? || a.ForgetStep? || a.CopyResult?) && OpOf(w, a).Some?
    requires a.p in w.tokens && w.tokens[a.p] == w.store.issued
    ensures var e := Walks(a).value.1;
      && Active(At(w, a.p, e)) && Get(w.store, KeyOf(e)) == Step(Running, Null, At(w, a.p, e).at)
      && History(w, e).latest == At(w, a.p, e).at
  {
    var e := Walks(a).value.1;
    WritersAreActive(w, a);
    hide KeyOf, OpOf, Linked, TokensOk, History;
    assert Owns(w, a.p, e);
    HistoryBalanced(w, e);
  }

  lemma WritersAreActive(w: World, a: Action)
    requires (a.FinishStep? || a.ForgetStep? || a.CopyResult?) && OpOf(w, a).Some?
    ensures Active(At(w, a.p, Walks(a).value.1))
  {
    hide KeyOf;
  }

  // ---- where a result comes from --------------------------------------------------------------

  /** A host's decision bound to version `at` gave this result. */
  ghost predicate Decided(s: BranchState, k: Key, at: int, v: Value) {
    exists d :: d in s.decisions && s.decisions[d].key == k && s.decisions[d].action == Complete
      && s.decisions[d].expectedVersion == at && s.decisions[d].value == v
  }

  /** The result of a finished effect is what the handler of the start before it returned, what a fork
      read in its source and committed that start for, or what a decision about that very start says. */
  ghost predicate Sourced(w: World, e: Effect) {
    var step := Get(w.store, KeyOf(e));
    step.status == Done ==>
      step.version >= 1 &&
      ((e, step.version - 1, step.value) in w.returned || (e, step.version - 1, step.value) in w.copied
       || Decided(w.store, KeyOf(e), step.version - 1, step.value))
  }

  /** What a worker is about to commit, its handler has returned or its fork has read. */
  ghost predicate Backed(w: World, x: (Worker, Effect)) {
    x in w.pcs ==>
      && (w.pcs[x].Finishing? ==> (x.1, w.pcs[x].at, w.pcs[x].out) in w.returned)
      && (w.pcs[x].Copying? ==> (x.1, w.pcs[x].at, w.pcs[x].known) in w.copied)
  }

  ghost predicate Traced(w: World) {
    && (forall x :: Backed(w, x))
    && (forall e :: Sourced(w, e))
  }

  lemma DecidedStays(s: BranchState, op: Op, k: Key, at: int, v: Value)
    requires Decided(s, k, at, v)
    ensures Decided(Next(s, op), k, at, v)
  {
    var d :| d in s.decisions && s.decisions[d].key == k && s.decisions[d].action == Complete
      && s.decisions[d].expectedVersion == at && s.decisions[d].value == v;
    hide Next;
    DecisionStep(s, op, d);
  }

  lemma SourcedUnchanged(w: World, a: Action, e: Effect)
    requires Sourced(w, e) && Get(Do(w, a).store, KeyOf(e)) == Get(w.store, KeyOf(e))
    ensures Sourced(Do(w, a), e)
  {
    hide OpOf, Next, KeyOf, PcAfter, Decided, TokensAfter;
    var step := Get(w.store, KeyOf(e));
    if Decided(w.store, KeyOf(e), step.version - 1, step.value) && OpOf(w, a).Some? {
      DecidedStays(w.store, OpOf(w, a).value, KeyOf(e), step.version - 1, step.value);
    }
  }

  lemma SourcedFinish(w: World, a: Action)
    requires Orderly(w) && (a.FinishStep? || a.CopyResult?) && Do(w, a).store != w.store
    requires Backed(w, Walks(a).value)
    ensures Sourced(Do(w, a), Walks(a).value.1)
  {
    LateWritesMiss(w, a);
    hide AfterKey, FrameworkOp, KeyOf, Linked, TokensOk, History, PcAfter, Owns, TokensAfter, Decided;
  }

  lemma SourcedDecide(w: World, a: Action)
    requires a.Decide? && Do(w, a).store != w.store
    ensures Sourced(Do(w, a), a.e)
  {
    hide AfterKey, FrameworkOp, KeyOf, PcAfter, TokensAfter;
    var r := a.resolution;
    var token := w.tokens[a.p];
    DecisionTargets(w.store, KeyOf(a.e), r, a.workersStopped, token);
    assert r.decisionId in Do(w, a).store.decisions;
  }

  lemma SourcedTouched(w: World, a: Action, e: Effect)
    requires Orderly(w) && Traced(w) && Touches(w, a, e)
    ensures Sourced(Do(w, a), e)
  {
    assert Sourced(w, e);
    if Get(Do(w, a).store, KeyOf(e)) == Get(w.store, KeyOf(e)) {
      SourcedUnchanged(w, a, e);
    } else {
      TouchedBy(w, a, e);
      TouchingToken(w, a, e);
      match a
      case FinishStep(p, _) => assert Backed(w, (p, e)); SourcedFinish(w, a);
      case CopyResult(p, _) => assert Backed(w, (p, e)); SourcedFinish(w, a);
      case Decide(_, _, _, _) => SourcedDecide(w, a);
      case _ => NotDone(w, a, e);
    }
  }

  lemma NotDone(w: World, a: Action, e: Effect)
    requires a.StartStep? || a.ReopenStep? || a.ForgetStep? || a.CopyIntent?
    requires Walks(a).value.1 == e
    requires Get(Do(w, a).store, KeyOf(e)) != Get(w.store, KeyOf(e))
    ensures Get(Do(w, a).store, KeyOf(e)).status != Done
  {
    hide KeyOf, PcAfter, TokensAfter;
  }

  lemma BackedKept(w: World, a: Action, x: (Worker, Effect))
    requires Backed(w, x)
    ensures Backed(Do(w, a), x)
  {
    hide KeyOf, AfterKey, OpOf, Next, TokensAfter, PcAfter;
    if Walks(a) == Some(x) { BackedMoved(w, a, x); }
  }

  lemma BackedMoved(w: World, a: Action, x: (Worker, Effect))
    requires Walks(a) == Some(x)
    ensures PcAfter(w, a).Finishing? ==>
      PcAfter(w, a) == At(w, x.0, x.1) || (x.1, PcAfter(w, a).at, PcAfter(w, a).out) in Returns(w, a)
    ensures PcAfter(w, a).Copying? ==>
      PcAfter(w, a) == At(w, x.0, x.1) || (x.1, PcAfter(w, a).at, PcAfter(w, a).known) in Carries(w, a)
  {
    hide KeyOf, AfterKey, Stale, Start, FinishEffect;
  }

  lemma TracedKept(w: World, a: Action)
    requires Orderly(w) && Traced(w)
    ensures Traced(Do(w, a))
  {
    hide Do, Orderly, Sourced, Touches, Backed;
    forall x ensures Backed(Do(w, a), x) { BackedKept(w, a, x); }
    forall e ensures Sourced(Do(w, a), e) {
      if Touches(w, a, e) {
        SourcedTouched(w, a, e);
      } else {
        assert Sourced(w, e);
        StepUntouched(w, a, e);
        SourcedUnchanged(w, a, e);
      }
    }
  }

  lemma {:induction false} PlayTraced(actions: seq<Action>)
    requires AllLeased(actions)
    ensures Orderly(Play(START, actions)) && Traced(Play(START, actions))
  {
    hide Orderly, Do, Traced;
    if actions == [] {
      StartOrderly();
      StartTraced();
    } else {
      var n := |actions| - 1;
      assert forall i :: 0 <= i < n ==> actions[..n][i] == actions[i];
      PlayTraced(actions[..n]);
      OrderlyKept(Play(START, actions[..n]), actions[n]);
      TracedKept(Play(START, actions[..n]), actions[n]);
    }
  }

  lemma StartTraced()
    ensures Traced(START)
  {
  }

  /** A committed result answers for the latest start: its handler returned it, its fork read it, or a
      decision bound to that very start says so. */
  ghost predicate Accounted(w: World, e: Effect) {
    var step := Get(w.store, KeyOf(e));
    var latest := History(w, e).latest;
    step.status == Done ==>
      step.version == latest + 1 &&
      ((e, latest, step.value) in w.returned || (e, latest, step.value) in w.copied
       || Decided(w.store, KeyOf(e), latest, step.value))
  }

  /** Result provenance. When every worker writes under the lease it was given, then in every
      interleaving a committed result is what the handler of the latest successful start returned,
      what a fork read in its source when it committed that start, or what a decision bound to that
      very start says. */
  lemma {:induction false} ResultProvenance(actions: seq<Action>, e: Effect)
    requires AllLeased(actions)
    ensures Accounted(Play(START, actions), e)
  {
    hide Play, Orderly, History, KeyOf, Decided, Backed;
    PlayTraced(actions);
    PlayLinked(actions);
    var w := Play(START, actions);
    assert Sourced(w, e);
    HistoryBalanced(w, e);
  }
}
