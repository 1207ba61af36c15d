/** What the model sees of a call: once its marker is written, every later attempt sees the same. */
module JournalProjection {
  import opened Values
  import opened Ledger
  import opened LedgerLaws
  import opened Keys
  import opened Workers
  import opened Journal
  import opened JournalProvenance

  /** A worker that may still write the marker of its call. */
  predicate MayMark(pc: Pc) {
    pc.Projecting? || pc.Marking?
  }

  /** The call's projection is settled: whoever has yet to write a marker is already fenced. */
  ghost predicate Settled(w: World, c: string) {
    Get(w.store, AfterKey(c)).status == Done ==>
      forall p :: MayMark(At(w, p, Tool(c))) ==> p in w.tokens && w.tokens[p] < w.store.issued
  }

  /** Only a worker about to mark this very call writes its marker. */
  lemma MarkerUntouched(w: World, a: Action, c: string)
    requires !(a.WriteMarker? && a.callId == c && At(w, a.p, Tool(c)).Marking? && !Stale(w.store, TokenOf(w, a.p)))
    ensures Get(Do(w, a).store, AfterKey(c)) == Get(w.store, AfterKey(c))
  {
    hide Next, OpOf, PcAfter, TokensAfter, Presented, Writes;
    var op := OpOf(w, a);
    if op.Some? {
      if AfterKey(c) in Writes(op.value) {
        MarkerWriter(w, a, c);
      } else {
        OtherSteps(w.store, op.value, AfterKey(c));
      }
    }
  }

  lemma MarkerWriter(w: World, a: Action, c: string)
    requires OpOf(w, a).Some? && AfterKey(c) in Writes(OpOf(w, a).value)
    ensures a.WriteMarker? && a.callId == c && At(w, a.p, Tool(c)).Marking?
    ensures Stale(w.store, TokenOf(w, a.p)) ==> Do(w, a).store == w.store
  {
    hide Join, KeyOf, PcAfter, TokensAfter;
    KeysAreFiled(c);
    Prefixed(AFTER, c);
    match a
    case ReopenStep(_, f) => EffectIsFiled(f); FamiliesAreApart(KeyOf(f));
    case StartStep(_, f) => EffectIsFiled(f); FamiliesAreApart(KeyOf(f));
    case FinishStep(_, f) => EffectIsFiled(f); FamiliesAreApart(KeyOf(f));
    case ForgetStep(_, f) => EffectIsFiled(f); FamiliesAreApart(KeyOf(f));
    case Decide(_, f, _, _) => EffectIsFiled(f); FamiliesAreApart(KeyOf(f));
    case CopyIntent(_, d, _) => EffectIsFiled(Tool(d)); FamiliesAreApart(KeyOf(Tool(d)));
    case CopyResult(_, d) => EffectIsFiled(Tool(d)); FamiliesAreApart(KeyOf(Tool(d)));
    case WriteMarker(_, d) => KeysAreInjective(c, d);
    case _ =>
  }

  /** A worker comes to projecting only when it finds no marker. */
  lemma ComesToMark(w: World, a: Action, p: Worker, c: string)
    requires MayMark(At(Do(w, a), p, Tool(c)))
    ensures MayMark(At(w, p, Tool(c))) || Get(w.store, AfterKey(c)).status != Done
    ensures a == WriteMarker(p, c) && At(w, p, Tool(c)).Marking? ==> false
  {
    hide OpOf, Next, KeyOf, AfterKey, Stale, Start, FinishEffect, TokensAfter;
  }

  lemma SettledKept(w: World, a: Action, c: string)
    requires Orderly(w) && Leased(a) && Settled(w, c)
    ensures Settled(Do(w, a), c)
  {
    hide Do, Linked, TokensOk, Owns, AfterKey, Grown, Stale, MayMark;
    var r := Do(w, a);
    if Get(r.store, AfterKey(c)).status == Done {
      forall p | MayMark(At(r, p, Tool(c))) ensures p in r.tokens && r.tokens[p] < r.store.issued {
        ComesToMark(w, a, p, c);
        TokensKept(w, a);
        GrownMeans(w.store, w.tokens, r.store, r.tokens, p);
        if Get(w.store, AfterKey(c)).status != Done { FirstMark(w, a, p, c); }
        TokensRise(w, a);
      }
    }
  }

  lemma TokensRise(w: World, a: Action)
    requires TokensOk(w.store, w.tokens) && Leased(a)
    ensures w.store.issued <= Do(w, a).store.issued
  {
    hide Do, TokensOk;
    TokensKept(w, a);
  }

  /** The write that settles a call fences everybody else who is about to mark it. */
  lemma FirstMark(w: World, a: Action, p: Worker, c: string)
    requires Orderly(w) && Leased(a)
    requires Get(w.store, AfterKey(c)).status != Done && Get(Do(w, a).store, AfterKey(c)).status == Done
    requires MayMark(At(Do(w, a), p, Tool(c)))
    ensures p in w.tokens && w.tokens[p] < w.store.issued
  {
    hide Do, Linked, TokensOk, Owns, AfterKey, Grown, OpOf;
    if !(a.WriteMarker? && a.callId == c && At(w, a.p, Tool(c)).Marking? && !Stale(w.store, TokenOf(w, a.p))) {
      MarkerUntouched(w, a, c);
      assert false;
    }
    assert (a.p, Tool(c)) in w.pcs && !w.pcs[(a.p, Tool(c))].Idle?;
    ComesToMark(w, a, p, c);
    MarkMoves(w, a, p, c);
    OnlyTheLatestWrites(w.store, w.tokens, a.p);
  }

  lemma MarkMoves(w: World, a: Action, p: Worker, c: string)
    requires a.WriteMarker? && a.callId == c && MayMark(At(Do(w, a), p, Tool(c))) && At(w, a.p, Tool(c)).Marking?
    ensures p != a.p && At(Do(w, a), p, Tool(c)) == At(w, p, Tool(c))
    ensures At(w, p, Tool(c)) != Idle
  {
    hide OpOf, Next, KeyOf, AfterKey, Stale, Start, FinishEffect, TokensAfter, AfterRead;
  }

  lemma {:induction false} PlaySettled(actions: seq<Action>, c: string)
    requires AllLeased(actions)
    ensures Orderly(Play(START, actions)) && Settled(Play(START, actions), c)
  {
    hide Orderly, Do, Settled;
    if actions == [] {
      StartOrderly();
      StartSettled(c);
    } else {
      var n := |actions| - 1;
      assert forall i :: 0 <= i < n ==> actions[..n][i] == actions[i];
      PlaySettled(actions[..n], c);
      OrderlyKept(Play(START, actions[..n]), actions[n]);
      SettledKept(Play(START, actions[..n]), actions[n], c);
    }
  }

  lemma StartSettled(c: string)
    ensures Settled(START, c)
  {
  }

  /** What a step after the marker leaves alone, and what it lets the model see. */
  ghost predicate Stable(w: World, r: World, c: string) {
    && Get(r.store, AfterKey(c)) == Get(w.store, AfterKey(c))
    && (Get(w.store, StepKey(c)).status == Done ==> Get(r.store, StepKey(c)) == Get(w.store, StepKey(c)))
    && r.asked[c] == w.asked[c]
    && forall p :: At(r, p, Tool(c)).Returned? ==>
         At(r, p, Tool(c)) == At(w, p, Tool(c)) || Get(w.store, AfterKey(c)).value == Marker(At(r, p, Tool(c)).shown)
  }

  lemma NoMarkerNow(w: World, a: Action, c: string)
    requires Orderly(w) && Settled(w, c) && Get(w.store, AfterKey(c)).status == Done
    ensures Get(Do(w, a).store, AfterKey(c)) == Get(w.store, AfterKey(c))
    ensures a.WriteMarker? && a.callId == c && At(w, a.p, Tool(c)).Marking? ==> Stale(w.store, TokenOf(w, a.p))
  {
    hide Do, Linked, TokensOk, Owns, AfterKey;
    if a.WriteMarker? && a.callId == c && At(w, a.p, Tool(c)).Marking? {
      assert MayMark(At(w, a.p, Tool(c)));
      PositiveToken(w, a.p);
    }
    MarkerUntouched(w, a, c);
  }

  lemma PositiveToken(w: World, p: Worker)
    requires TokensOk(w.store, w.tokens) && p in w.tokens && w.tokens[p] < w.store.issued
    ensures Stale(w.store, w.tokens[p])
  {
  }

  lemma NotAskedAgain(w: World, a: Action, c: string)
    requires Get(w.store, AfterKey(c)).status == Done
    ensures Do(w, a).asked[c] == w.asked[c]
  {
    hide OpOf, Next, PcAfter, TokensAfter, AfterKey;
  }

  lemma ReturnsTheMarker(w: World, a: Action, p: Worker, c: string)
    requires Get(w.store, AfterKey(c)).status == Done
    requires a.WriteMarker? && a.callId == c && At(w, a.p, Tool(c)).Marking? ==> Stale(w.store, TokenOf(w, a.p))
    requires At(Do(w, a), p, Tool(c)).Returned?
    ensures At(Do(w, a), p, Tool(c)) == At(w, p, Tool(c))
         || Get(w.store, AfterKey(c)).value == Marker(At(Do(w, a), p, Tool(c)).shown)
  {
    hide OpOf, Next, KeyOf, AfterKey, Stale, Start, FinishEffect, TokensAfter;
  }

  lemma DoneToolStays(w: World, a: Action, c: string)
    requires Get(w.store, StepKey(c)).status == Done
    ensures Get(Do(w, a).store, StepKey(c)) == Get(w.store, StepKey(c))
  {
    hide OpOf, Next, PcAfter, TokensAfter, FrameworkOp;
    FrameworkServes(w, a);
    KeysAreFiled(c);
    if OpOf(w, a).Some? {
      FrameworkKeepsEffects(OpOf(w, a).value, StepKey(c));
      DoneStep(w.store, OpOf(w, a).value, StepKey(c));
    }
  }

  lemma StableStep(w: World, a: Action, c: string)
    requires Orderly(w) && Settled(w, c) && Get(w.store, AfterKey(c)).status == Done
    ensures Stable(w, Do(w, a), c)
  {
    hide Do, Orderly, Settled, AfterKey, StepKey;
    NoMarkerNow(w, a, c);
    NotAskedAgain(w, a, c);
    if Get(w.store, StepKey(c)).status == Done { DoneToolStays(w, a, c); }
    forall p | At(Do(w, a), p, Tool(c)).Returned?
      ensures At(Do(w, a), p, Tool(c)) == At(w, p, Tool(c))
           || Get(w.store, AfterKey(c)).value == Marker(At(Do(w, a), p, Tool(c)).shown)
    {
      ReturnsTheMarker(w, a, p, c);
    }
  }

  /** Stable projection. Once the marker of a call is written, then whatever leased workers do next,
      with crashes and takeovers wherever they fall: the marker and the finished raw record stay as
      they are, post-tool policy is not asked again, and every attempt that comes to show the call to
      the model shows what the marker holds. */
  lemma {:induction false} ProjectionIsStable(past: seq<Action>, more: seq<Action>, c: string)
    requires AllLeased(past) && AllLeased(more)
    requires Get(Play(START, past).store, AfterKey(c)).status == Done
    ensures Stable(Play(START, past), Play(START, past + more), c)
  {
    hide Orderly, Settled, Do, AfterKey, StepKey;
    if more == [] {
      assert past + more == past;
    } else {
      var n := |more| - 1;
      assert AllLeased(more[..n]) by { assert forall i :: 0 <= i < n ==> more[..n][i] == more[i]; }
      ProjectionIsStable(past, more[..n], c);
      var mid := past + more[..n];
      assert (past + more)[..|past + more| - 1] == mid && (past + more)[|past + more| - 1] == more[n];
      PlaySettled(mid, c);
      StableStep(Play(START, mid), more[n], c);
    }
  }
}
