/** How often a handler can run: a started effect is never guessed at. */
module JournalBound {
  import opened Wrappers
  import opened Ledger
  import opened LedgerLaws
  import opened DecisionLaws
  import opened Keys
  import opened Workers
  import opened Journal

  type Pcs = map<(Worker, Effect), Pc>

  /** Attempts at `e` whose intent is committed and whose handler has not been entered. */
  ghost function Poised(pcs: Pcs, e: Effect): set<(Worker, Effect)> {
    set x | x in pcs && x.1 == e && pcs[x].Started?
  }

  /** Attempts at `e` that are about to clear their intent because nothing happened. */
  ghost function Owing(pcs: Pcs, e: Effect): set<(Worker, Effect)> {
    set x | x in pcs && x.1 == e && pcs[x].Forgetting?
  }

  ghost function Was(pcs: Pcs, p: Worker, e: Effect): Pc {
    if (p, e) in pcs then pcs[(p, e)] else Idle
  }

  lemma OneMoved<T>(before: set<T>, after: set<T>, x: T)
    requires forall y :: y != x ==> (y in before <==> y in after)
    ensures |after| == |before| + B(x in after) - B(x in before)
  {
    assert before - {x} == after - {x};
    assert x in after ==> after == (after - {x}) + {x};
    assert x in before ==> before == (before - {x}) + {x};
    assert x !in after ==> after == after - {x};
    assert x !in before ==> before == before - {x};
  }

  lemma MovedPoised(pcs: Pcs, p: Worker, e: Effect, pc: Pc)
    ensures |Poised(pcs[(p, e) := pc], e)| == |Poised(pcs, e)| + B(pc.Started?) - B(Was(pcs, p, e).Started?)
  {
    OneMoved(Poised(pcs, e), Poised(pcs[(p, e) := pc], e), (p, e));
  }

  lemma MovedOwing(pcs: Pcs, p: Worker, e: Effect, pc: Pc)
    ensures |Owing(pcs[(p, e) := pc], e)| == |Owing(pcs, e)| + B(pc.Forgetting?) - B(Was(pcs, p, e).Forgetting?)
  {
    OneMoved(Owing(pcs, e), Owing(pcs[(p, e) := pc], e), (p, e));
  }

  lemma UnmovedSets(pcs: Pcs, p: Worker, e: Effect, pc: Pc, f: Effect)
    requires e != f
    ensures Poised(pcs[(p, e) := pc], f) == Poised(pcs, f) && Owing(pcs[(p, e) := pc], f) == Owing(pcs, f)
  {
  }

  /** Handler runs are covered by starts, and applied forgets by the runs that asked for one. */
  ghost predicate Covered(w: World, e: Effect) {
    && w.begun[e] + |Poised(w.pcs, e)| + w.intents[e] <= History(w, e).starts
    && History(w, e).forgets + |Owing(w.pcs, e)| <= w.quiet[e] + w.reopened[e]
  }

  lemma KeysApart(e: Effect, f: Effect)
    ensures KeyOf(e) == KeyOf(f) ==> e == f
  {
    EffectIsFiled(e);
    EffectIsFiled(f);
    match e
    case Tool(a) =>
      match f { case Tool(b) => KeysAreInjective(a, b); case Model(d) => Prefixed(TOOL, a); Prefixed(MODEL, d); FamiliesAreApart(KeyOf(e)); }
    case Model(a) =>
      match f { case Tool(b) => Prefixed(MODEL, a); Prefixed(TOOL, b); FamiliesAreApart(KeyOf(e)); case Model(d) => KeysAreInjective(a, d); }
  }

  /** The action is an operation of the journal on effect `e` itself. */
  ghost predicate Touches(w: World, a: Action, e: Effect) {
    OpOf(w, a).Some? && KeyOf(e) in Writes(OpOf(w, a).value)
  }

  /** An action of another effect, or on another key, leaves the history of `e` as it is. */
  lemma UntouchedHistory(w: World, a: Action, e: Effect)
    requires Linked(w) && !Touches(w, a, e)
    ensures History(Do(w, a), e) == History(w, e)
  {
    hide OpOf, Next, FrameworkOp, TallyOf;
    DoHistory(w, a, e);
    if OpOf(w, a).Some? { OtherSteps(w.store, OpOf(w, a).value, KeyOf(e)); }
  }

  /** The only actions that touch an effect's step are its own and a host's decision about it. */
  lemma TouchedBy(w: World, a: Action, e: Effect)
    requires Touches(w, a, e)
    ensures a.Decide? || (Walks(a).Some? && Walks(a).value.1 == e)
    ensures !a.WriteMarker?
  {
    hide Next, Join, IsControlKey;
    EffectIsFiled(e);
    match a
    case ReopenStep(_, f) => KeysApart(e, f);
    case StartStep(_, f) => KeysApart(e, f);
    case FinishStep(_, f) => KeysApart(e, f);
    case ForgetStep(_, f) => KeysApart(e, f);
    case Decide(_, f, _, _) => KeysApart(e, f);
    case CopyIntent(_, c, _) => KeysApart(e, Tool(c));
    case CopyResult(_, c) => KeysApart(e, Tool(c));
    case WriteMarker(_, c) => KeysAreFiled(c); FamiliesAreApart(KeyOf(e));
    case _ =>
  }

  lemma CoveredByOthers(w: World, a: Action, e: Effect)
    requires Linked(w) && Covered(w, e)
    requires Walks(a).None? || Walks(a).value.1 != e
    requires !Touches(w, a, e)
    ensures Covered(Do(w, a), e)
  {
    hide OpOf, TallyOf, Poised, Owing, Touches, PcAfter, Linked, History;
    UntouchedHistory(w, a, e);
    if Walks(a).Some? { UnmovedSets(w.pcs, Walks(a).value.0, Walks(a).value.1, PcAfter(w, a), e); }
  }

  lemma CoveredByDecision(w: World, a: Action, e: Effect)
    requires Linked(w) && Covered(w, e) && a.Decide?
    ensures Covered(Do(w, a), e)
  {
    hide TallyOf, Poised, Owing, Next, KeyOf;
    DoHistory(w, a, e);
  }

  /** Off the store, a handler run uses up a start, and a worker comes to owe a forget only by a signal. */
  lemma LocalBalance(w: World, a: Action, p: Worker, e: Effect)
    requires Walks(a) == Some((p, e)) && !Touches(w, a, e)
    ensures Begins(w, a)[e] + B(PcAfter(w, a).Started?) <= B(Was(w.pcs, p, e).Started?)
    ensures B(PcAfter(w, a).Forgetting?) <= B(Was(w.pcs, p, e).Forgetting?) + GoesQuiet(w, a)[e]
    ensures Intends(w, a)[e] == 0
  {
    hide KeyOf, AfterKey, FrameworkOp, Next;
  }

  /** A step that serves no operation, or one on another key, changes neither starts nor forgets. */
  lemma CoveredByLocal(w: World, a: Action, p: Worker, e: Effect)
    requires Linked(w) && Covered(w, e) && Walks(a) == Some((p, e)) && !Touches(w, a, e)
    ensures Covered(Do(w, a), e)
  {
    hide TallyOf, Poised, Owing, Linked, History, OpOf, PcAfter, TokensAfter, Touches, Begins, GoesQuiet, Reopens, Intends;
    UntouchedHistory(w, a, e);
    LocalBalance(w, a, p, e);
    MovedPoised(w.pcs, p, e, PcAfter(w, a));
    MovedOwing(w.pcs, p, e, PcAfter(w, a));
  }

  /** A start that succeeds adds a start; a forget that is applied settles a run that asked for it. */
  lemma CoveredByOwn(w: World, a: Action, p: Worker, e: Effect)
    requires Linked(w) && Covered(w, e) && Walks(a) == Some((p, e)) && Touches(w, a, e)
    ensures Covered(Do(w, a), e)
  {
    TouchedBy(w, a, e);
    hide TallyOf, Poised, Owing, KeyOf, AfterKey, Join, FrameworkOp, Linked, PcAfter, Do, History;
    match a
    case StartStep(_, _) => CoveredByStart(w, a);
    case FinishStep(_, _) => CoveredByFinish(w, a);
    case CopyIntent(_, _, _) => CoveredByIntent(w, a);
    case CopyResult(_, _) => CoveredByCopy(w, a);
    case _ => CoveredByForget(w, a);
  }

  /** A start a fork commits is never a handler run to come. */
  lemma CoveredByIntent(w: World, a: Action)
    requires a.CopyIntent? && Linked(w) && Covered(w, Tool(a.callId)) && Touches(w, a, Tool(a.callId))
    ensures Covered(Do(w, a), Tool(a.callId))
  {
    hide TallyOf, Poised, Owing, KeyOf, FrameworkOp, Linked, Touches;
    DoHistory(w, a, Tool(a.callId));
    MovedPoised(w.pcs, a.p, Tool(a.callId), PcAfter(w, a));
    MovedOwing(w.pcs, a.p, Tool(a.callId), PcAfter(w, a));
  }

  lemma CoveredByCopy(w: World, a: Action)
    requires a.CopyResult? && Linked(w) && Covered(w, Tool(a.callId)) && Touches(w, a, Tool(a.callId))
    ensures Covered(Do(w, a), Tool(a.callId))
  {
    hide TallyOf, Poised, Owing, KeyOf, FrameworkOp, Linked, FinishEffect;
    DoHistory(w, a, Tool(a.callId));
    MovedPoised(w.pcs, a.p, Tool(a.callId), PcAfter(w, a));
    MovedOwing(w.pcs, a.p, Tool(a.callId), PcAfter(w, a));
  }

  lemma CoveredByStart(w: World, a: Action)
    requires a.StartStep? && Linked(w) && Covered(w, a.e) && Touches(w, a, a.e)
    ensures Covered(Do(w, a), a.e)
  {
    hide TallyOf, Poised, Owing, KeyOf, FrameworkOp, Linked, Touches;
    DoHistory(w, a, a.e);
    MovedPoised(w.pcs, a.p, a.e, PcAfter(w, a));
    MovedOwing(w.pcs, a.p, a.e, PcAfter(w, a));
  }

  lemma CoveredByFinish(w: World, a: Action)
    requires a.FinishStep? && Linked(w) && Covered(w, a.e) && Touches(w, a, a.e)
    ensures Covered(Do(w, a), a.e)
  {
    hide TallyOf, Poised, Owing, KeyOf, FrameworkOp, Linked, FinishEffect;
    DoHistory(w, a, a.e);
    MovedPoised(w.pcs, a.p, a.e, PcAfter(w, a));
    MovedOwing(w.pcs, a.p, a.e, PcAfter(w, a));
  }

  lemma CoveredByForget(w: World, a: Action)
    requires (a.ForgetStep? || a.ReopenStep?) && Linked(w) && Covered(w, a.e) && Touches(w, a, a.e)
    ensures Covered(Do(w, a), a.e)
  {
    hide TallyOf, Poised, Owing, KeyOf, FrameworkOp, Linked;
    DoHistory(w, a, a.e);
    MovedPoised(w.pcs, a.p, a.e, PcAfter(w, a));
    MovedOwing(w.pcs, a.p, a.e, PcAfter(w, a));
  }

  lemma CoveredKept(w: World, a: Action, e: Effect)
    requires Linked(w) && Covered(w, e)
    ensures Covered(Do(w, a), e)
  {
    hide Do, OpOf, TallyOf, Poised, Owing, Covered, Walks, Touches, Linked;
    if Walks(a).Some? && Walks(a).value.1 == e {
      if Touches(w, a, e) { CoveredByOwn(w, a, Walks(a).value.0, e); } else { CoveredByLocal(w, a, Walks(a).value.0, e); }
    } else if a.Decide? {
      CoveredByDecision(w, a, e);
    } else if Touches(w, a, e) {
      TouchedBy(w, a, e);
    } else {
      CoveredByOthers(w, a, e);
    }
  }

  lemma StartCovered(e: Effect)
    ensures Covered(START, e)
  {
    assert Poised(START.pcs, e) == {} && Owing(START.pcs, e) == {};
  }

  lemma {:induction false} PlayCovered(actions: seq<Action>, e: Effect)
    ensures Covered(Play(START, actions), e)
  {
    hide Do, TallyOf;
    if actions == [] {
      StartCovered(e);
    } else {
      PlayCovered(actions[..|actions| - 1], e);
      PlayLinked(actions[..|actions| - 1]);
      CoveredKept(Play(START, actions[..|actions| - 1]), actions[|actions| - 1], e);
    }
  }

  predicate NeverReopens(actions: seq<Action>) {
    forall i :: 0 <= i < |actions| ==> actions[i].ReadStep? ==> !actions[i].retryRunning
  }

  ghost predicate NoneReopening(w: World) {
    w.reopened == multiset{} && forall x :: x in w.pcs ==> !w.pcs[x].Reopening?
  }

  lemma StillNoneReopening(w: World, a: Action)
    requires NoneReopening(w) && (a.ReadStep? ==> !a.retryRunning)
    ensures NoneReopening(Do(w, a))
  {
    hide OpOf, Next, Start, FinishEffect, Stale, Get, KeyOf, AfterKey;
  }

  lemma {:induction false} NothingReopened(actions: seq<Action>)
    requires NeverReopens(actions)
    ensures NoneReopening(Play(START, actions))
  {
    hide Do;
    if actions != [] {
      var n := |actions| - 1;
      assert forall i :: 0 <= i < n ==> actions[..n][i] == actions[i];
      NothingReopened(actions[..n]);
      StillNoneReopening(Play(START, actions[..n]), actions[n]);
    }
  }

  /** In every interleaving of any number of workers, with crashes, stalls and takeovers between any
      two steps, the handler of one effect runs at most once more than it was released for a retry,
      not counting runs that signalled that nothing happened. Workers that may rerun running steps
      add one run for each they cleared; every intent a fork committed for the effect takes one off. */
  lemma {:induction false} HandlerRunsAreBounded(actions: seq<Action>, e: Effect)
    ensures var w := Play(START, actions);
      w.begun[e] + w.intents[e] <= w.quiet[e] + 1 + History(w, e).retries + w.reopened[e]
  {
    hide Play, TallyOf, Poised, Owing;
    PlayCovered(actions, e);
    PlayLinked(actions);
    HistoryBalanced(Play(START, actions), e);
  }

  /** Where nobody may rerun a running step, nothing but a host's decision to retry, each counted once by
      its id, allows another run. */
  lemma {:induction false} OnlyRetriesAllowMoreRuns(actions: seq<Action>, e: Effect)
    requires NeverReopens(actions)
    ensures var w := Play(START, actions);
      w.begun[e] + w.intents[e] <= w.quiet[e] + 1 + |RetriesOf(w.store, KeyOf(e))|
  {
    hide Play, RetriesOf, TallyOf;
    HandlerRunsAreBounded(actions, e);
    PlayLinked(actions);
    RetriesAreDecisions(Play(START, actions).ops, KeyOf(e));
    NothingReopened(actions);
  }
}
