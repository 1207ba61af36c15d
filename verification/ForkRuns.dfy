/** Forks among other workers: the copy loop one `await` at a time, while the source goes on changing
    and the target may change hands. */
module ForkRuns {
  import opened Wrappers
  import opened Ledger
  import opened LedgerLaws
  import opened Keys
  import opened Workers
  import opened Journal
  import opened JournalBound
  import opened JournalProvenance
  import opened JournalSolo
  import opened Forking
  import opened ForkLaws

  // ---- forks among other workers --------------------------------------------------------------

  /** The call's step is begun, and whoever is on the way to it, or to clearing it, is fenced. */
  ghost predicate FencedOff(w: World, e: Effect) {
    && Get(w.store, KeyOf(e)).status in {Running, Done}
    && forall p :: OnTheWay(At(w, p, e)) ==> p in w.tokens && w.tokens[p] < w.store.issued
  }

  /** Runs of the handler so far, and runs a start already accepted may still bring. */
  ghost function Runs(w: World, e: Effect): nat {
    w.begun[e] + |Poised(w.pcs, e)|
  }

  lemma FencedWriteMisses(w: World, a: Action, e: Effect)
    requires TokensOk(w.store, w.tokens) && FencedOff(w, e) && NoAuthority(a, e) && Touches(w, a, e)
    ensures Get(Do(w, a).store, KeyOf(e)).status in {Running, Done}
  {
    TouchedBy(w, a, e);
    TouchingToken(w, a, e);
    hide AfterKey, Join, FrameworkOp, TokensAfter;
    if Walks(a).Some? && OnTheWay(At(w, Walks(a).value.0, e)) {
      var p := Walks(a).value.0;
      assert Stale(w.store, w.tokens[p]);
    } else {
      BegunWrite(w, a, e);
    }
  }

  lemma BegunWrite(w: World, a: Action, e: Effect)
    requires Get(w.store, KeyOf(e)).status in {Running, Done} && NoAuthority(a, e) && Touches(w, a, e)
    requires a.Decide? || (Walks(a).Some? && Walks(a).value.1 == e && !OnTheWay(At(w, Walks(a).value.0, e)))
    requires a.Decide? ==> a.e == e
    ensures Get(Do(w, a).store, KeyOf(e)).status in {Running, Done}
  {
    hide KeyOf, AfterKey, Join, FrameworkOp, PcAfter, TokensAfter;
  }

  lemma FencedMover(w: World, a: Action, p: Worker, e: Effect)
    requires Get(w.store, KeyOf(e)).status in {Running, Done} && NoAuthority(a, e) && Walks(a) == Some((p, e))
    ensures OnTheWay(PcAfter(w, a)) ==> OnTheWay(At(w, p, e))
    ensures Journal.Begins(w, a)[e] + B(PcAfter(w, a).Started?) <= B(At(w, p, e).Started?)
  {
    hide KeyOf, AfterKey, Stale, FinishEffect;
  }

  lemma RunsKept(w: World, a: Action, e: Effect)
    requires Get(w.store, KeyOf(e)).status in {Running, Done} && NoAuthority(a, e)
    ensures Runs(Do(w, a), e) <= Runs(w, e)
  {
    hide OpOf, PcAfter, TokensAfter, KeyOf, Next, Poised;
    if Walks(a).Some? {
      var (p, f) := Walks(a).value;
      if f == e {
        FencedMover(w, a, p, e);
        MovedPoised(w.pcs, p, e, PcAfter(w, a));
      } else {
        UnmovedSets(w.pcs, p, f, PcAfter(w, a), e);
      }
    }
  }

  lemma FencedOffKept(w: World, a: Action, e: Effect)
    requires TokensOk(w.store, w.tokens) && Leased(a) && FencedOff(w, e) && NoAuthority(a, e)
    ensures FencedOff(Do(w, a), e)
  {
    hide OpOf, PcAfter, TokensAfter, KeyOf, Next, OnTheWay, TokensOk, Grown, NoAuthority, Touches;
    if Touches(w, a, e) { FencedWriteMisses(w, a, e); } else { StepUntouched(w, a, e); }
    TokensKept(w, a);
    forall p | OnTheWay(At(Do(w, a), p, e)) ensures p in Do(w, a).tokens && Do(w, a).tokens[p] < Do(w, a).store.issued {
      if Walks(a) == Some((p, e)) { FencedMover(w, a, p, e); } else { assert At(Do(w, a), p, e) == At(w, p, e); }
      GrownMeans(w.store, w.tokens, Do(w, a).store, Do(w, a).tokens, p);
      IssuedRises(w, a);
    }
  }

  lemma IssuedRises(w: World, a: Action)
    requires Grown(w.store, w.tokens, Do(w, a).store, Do(w, a).tokens)
    ensures w.store.issued <= Do(w, a).store.issued
  {
    hide Do;
  }

  /** A copied intent the store accepts fences everybody who was still on the way to that call. */
  lemma IntentFencesOff(w: World, a: Action)
    requires Orderly(w) && a.CopyIntent? && Copies(w, a.p, a.callId, a.known)
    ensures FencedOff(Do(w, a), Tool(a.callId))
  {
    var e := Tool(a.callId);
    hide Linked, TokensOk, Owns, KeyOf;
    OnlyTheLatestWrites(w.store, w.tokens, a.p);
    forall q | OnTheWay(At(Do(w, a), q, e)) ensures q in w.tokens && w.tokens[q] < w.store.issued {
      assert q != a.p && (q, e) in w.pcs && !w.pcs[(q, e)].Idle?;
    }
  }

  /** Once a fork's intent for a call was accepted, everybody else on the way to it is fenced, and stays
      so while nobody brings new authority. */
  lemma {:induction false} CopiedIsFencedOff(w: World, since: seq<Action>, e: Effect)
    requires Orderly(w) && AllLeased(since) && NoAuthorityIn(since, e) && Play(w, since).intents[e] > w.intents[e]
    ensures Orderly(Play(w, since)) && FencedOff(Play(w, since), e)
  {
    hide FencedOff, Orderly, Do, NoAuthority;
    PlayOrderly(w, since);
    if since != [] {
      var n := |since| - 1;
      var r := Play(w, since[..n]);
      assert forall i :: 0 <= i < n ==> since[..n][i] == since[i];
      PlayOrderly(w, since[..n]);
      if r.intents[e] > w.intents[e] {
        CopiedIsFencedOff(w, since[..n], e);
        FencedStep(r, since[n], e);
      } else {
        NextIntent(r, since[n], e);
      }
    }
  }

  lemma FencedStep(w: World, a: Action, e: Effect)
    requires Orderly(w) && Leased(a) && FencedOff(w, e) && NoAuthority(a, e)
    ensures FencedOff(Do(w, a), e)
  {
    hide FencedOff, Do, NoAuthority;
    FencedOffKept(w, a, e);
  }

  lemma NextIntent(w: World, a: Action, e: Effect)
    requires Orderly(w) && Do(w, a).intents[e] > w.intents[e]
    ensures FencedOff(Do(w, a), e)
  {
    hide FencedOff, Orderly, OpOf, PcAfter, TokensAfter, Copies;
    IntentFencesOff(w, a);
  }

  /** From then on, without new authority, no start of that call is accepted: its handler is entered at
      most by workers whose own start came before. */
  lemma {:induction false} NoNewRuns(w: World, more: seq<Action>, e: Effect)
    requires Orderly(w) && FencedOff(w, e) && AllLeased(more) && NoAuthorityIn(more, e)
    ensures Runs(Play(w, more), e) <= Runs(w, e)
    ensures Orderly(Play(w, more)) && FencedOff(Play(w, more), e)
  {
    hide FencedOff, Orderly, Do, NoAuthority, Runs;
    if more != [] {
      var n := |more| - 1;
      assert forall i :: 0 <= i < n ==> more[..n][i] == more[i];
      NoNewRuns(w, more[..n], e);
      PlayOrderly(w, more);
      FencedStep(Play(w, more[..n]), more[n], e);
      BegunNow(Play(w, more[..n]), e);
      RunsKept(Play(w, more[..n]), more[n], e);
    }
  }

  lemma BegunNow(w: World, e: Effect)
    requires FencedOff(w, e)
    ensures Get(w.store, KeyOf(e)).status in {Running, Done}
  {
  }

  lemma {:induction false} PlayApart(w: World, first: seq<Action>, more: seq<Action>)
    ensures Play(w, first + more) == Play(Play(w, first), more)
  {
    hide Do;
    if more == [] {
      assert first + more == first;
    } else {
      var n := |more| - 1;
      PlayApart(w, first, more[..n]);
      assert (first + more)[..|first + more| - 1] == first + more[..n];
    }
  }

  /** A copied call is not run again. In every interleaving of leased workers, with the source changing
      and the target changing hands between any two copies: where a fork's intent for a call was
      accepted since some moment, and since then nobody brought new authority to run it, its handler is
      entered from there on at most by workers whose start was accepted before; and where only forks
      ever started the call, nobody enters it. What authority there was before that moment is no matter. */
  lemma {:induction false} CopiedCallsAreNotRerun(past: seq<Action>, since: seq<Action>, more: seq<Action>, e: Effect)
    requires AllLeased(past) && AllLeased(since) && AllLeased(more)
    requires NoAuthorityIn(since, e) && NoAuthorityIn(more, e)
    requires Play(START, past + since).intents[e] > Play(START, past).intents[e]
    ensures var w := Play(START, past + since);
      && Play(w, more).begun[e] <= Runs(w, e)
      && (History(w, e).starts == w.intents[e] ==> Play(w, more).begun[e] == 0)
  {
    hide FencedOff, Orderly, Do, NoAuthority, Play, History, Poised;
    StartOrderly();
    PlayOrderly(START, past);
    PlayApart(START, past, since);
    CopiedIsFencedOff(Play(START, past), since, e);
    NoNewRuns(Play(START, past + since), more, e);
    PlayCovered(past + since, e);
  }

  /** Exactly which calls of a forked branch are safe, however its copies were interleaved, cut short or
      taken over: where only forks started the call, nobody brought authority to run it since before the
      first of them, and a worker is at hand, no continuation without new authority enters its handler
      if and only if a fork's intent for it was accepted. */
  lemma {:induction false} ForkedCallsAreSafeExactlyWhenCopied(past: seq<Action>, since: seq<Action>, p: Worker, e: Effect)
    requires AllLeased(past) && AllLeased(since) && NoAuthorityIn(since, e) && Play(START, past).intents[e] == 0
    requires OnlyForked(Play(START, past + since), e) && AtHand(Play(START, past + since), p, e)
    ensures var w := Play(START, past + since);
      (forall more :: AllLeased(more) && NoAuthorityIn(more, e) ==> Play(w, more).begun[e] == 0) <==> w.intents[e] > 0
  {
    hide Play, NoAuthorityIn, AllLeased, History, Script, KeyOf, Stale;
    var w := Play(START, past + since);
    if w.intents[e] > 0 {
      forall more | AllLeased(more) && NoAuthorityIn(more, e) ensures Play(w, more).begun[e] == 0 {
        CopiedCallsAreNotRerun(past, since, more, e);
      }
    } else {
      PlayLinked(past + since);
      HistoryBalanced(w, e);
      StatusIsOne(Get(w.store, KeyOf(e)));
      FreeStepIsRun(w, p, e);
    }
  }

  /** Every start of the call was an intent some fork copied. */
  ghost predicate OnlyForked(w: World, e: Effect) {
    History(w, e).starts == w.intents[e]
  }

  /** A worker that can write is free to take the call up. */
  predicate AtHand(w: World, p: Worker, e: Effect) {
    p in w.tokens && !Stale(w.store, w.tokens[p]) && At(w, p, e).Idle?
  }

  // ---- the copy loop is these actions ---------------------------------------------------------

  /** The actions of one undisturbed copy of a source that stands still. */
  function CopyScript(p: Worker, source: BranchState, calls: seq<string>): seq<Action> {
    if calls == [] then [] else
    var n := |calls| - 1;
    CopyScript(p, source, calls[..n])
    + [CopyIntent(p, calls[n], Get(source, StepKey(calls[n]))), CopyResult(p, calls[n])]
  }

  lemma IntentIs(w: World, p: Worker, c: string, known: Step)
    requires p in w.tokens && At(w, p, Tool(c)).Idle? && known.status != Absent
    ensures var r := Do(w, CopyIntent(p, c, known));
      var (started, reply) := Start(w.store, StepKey(c), w.tokens[p]);
      && r.store == started && r.tokens == w.tokens
      && (forall d :: d != c ==> At(r, p, Tool(d)) == At(w, p, Tool(d)))
      && At(r, p, Tool(c)) == (if reply == Success(true) && known.status == Done
                               then Pc.Copying(Get(w.store, StepKey(c)).version + 1, known.value) else Idle)
  {
    hide StepKey;
  }

  lemma ResultIs(w: World, p: Worker, c: string)
    requires p in w.tokens
    ensures var r := Do(w, CopyResult(p, c));
      && r.tokens == w.tokens && (forall d :: d != c ==> At(r, p, Tool(d)) == At(w, p, Tool(d)))
      && (At(w, p, Tool(c)).Copying? ==>
            r.store == FinishEffect(w.store, StepKey(c), At(w, p, Tool(c)).known, w.tokens[p]).0 && At(r, p, Tool(c)).Idle?)
      && (!At(w, p, Tool(c)).Copying? ==> r.store == w.store && At(r, p, Tool(c)) == At(w, p, Tool(c)))
  {
    hide StepKey, FinishEffect;
  }

  lemma NothingIs(w: World, p: Worker, c: string, known: Step)
    requires known.status == Absent && At(w, p, Tool(c)).Idle?
    ensures var r := Do(w, CopyIntent(p, c, known));
      r.store == w.store && r.tokens == w.tokens && forall d :: At(r, p, Tool(d)) == At(w, p, Tool(d))
  {
  }

  lemma CopiesOne(w: World, p: Worker, source: BranchState, at: Copying, c: string)
    requires p in w.tokens && At(w, p, Tool(c)).Idle? && w.store == at.target
    requires at.refused ==> Stale(w.store, w.tokens[p])
    ensures var r := Do(Do(w, CopyIntent(p, c, Get(source, StepKey(c)))), CopyResult(p, c));
      var next := CopyCall(source, at, c, w.tokens[p]);
      && r.store == next.target && r.tokens == w.tokens
      && (next.refused ==> Stale(r.store, r.tokens[p]))
      && (forall d :: At(r, p, Tool(d)) == At(w, p, Tool(d)))
  {
    hide StepKey, Do;
    var known := Get(source, StepKey(c));
    if known.status == Absent { NothingIs(w, p, c, known); } else { IntentIs(w, p, c, known); }
    ResultIs(Do(w, CopyIntent(p, c, known)), p, c);
  }

  /** With nobody in between and a source that stands still, the actions are the loop: they make of the
      target exactly what `Forking.Copy` is proved to make of it. */
  lemma {:induction false} CopyActionsAreTheLoop(w: World, p: Worker, source: BranchState, calls: seq<string>)
    requires p in w.tokens && forall c :: c in calls ==> At(w, p, Tool(c)).Idle?
    ensures var r := Play(w, CopyScript(p, source, calls));
      var done := CopyEach(source, w.store, calls, w.tokens[p]);
      && r.store == done.target && r.tokens == w.tokens && (done.refused ==> Stale(r.store, r.tokens[p]))
      && (forall d :: At(r, p, Tool(d)) == At(w, p, Tool(d)))
  {
    hide Do, CopyCall, StepKey;
    if calls != [] {
      var n := |calls| - 1;
      assert calls == calls[..n] + [calls[n]];
      CopyActionsAreTheLoop(w, p, source, calls[..n]);
      var before := CopyScript(p, source, calls[..n]);
      var a, b := CopyIntent(p, calls[n], Get(source, StepKey(calls[n]))), CopyResult(p, calls[n]);
      assert (before + [a, b])[..|before| + 1] == before + [a] && (before + [a])[..|before|] == before;
      CopiesOne(Play(w, before), p, source, CopyEach(source, w.store, calls[..n], w.tokens[p]), calls[n]);
    }
  }

  /** What a fork read as finished is the source's record for good: whatever the source run does while
      it is copied and afterwards, its step still says the same. */
  lemma {:induction false} CopiedIsTheSourcesRecord(s: BranchState, ops: seq<Op>, c: string)
    requires Get(s, StepKey(c)).status == Done
    requires forall i :: 0 <= i < |ops| ==> FrameworkOp(ops[i])
    ensures Get(Run(s, ops), StepKey(c)) == Get(s, StepKey(c))
  {
    KeysAreFiled(c);
    FinishedEffectsAreImmutable(s, ops, StepKey(c));
  }
}
