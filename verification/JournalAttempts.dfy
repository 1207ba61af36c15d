/** One attempt, one result: a start belongs to one worker, and yields one result at most. */
module JournalAttempts {
  import opened Wrappers
  import opened Values
  import opened Ledger
  import opened LedgerLaws
  import opened Keys
  import opened Workers
  import opened Journal
  import opened JournalProvenance

  /** What attempts had to commit: what handlers returned, and what forks read. */
  function Results(w: World): set<(Effect, nat, Value)> {
    w.returned + w.copied
  }

  ghost predicate ResultAt(w: World, e: Effect, at: nat) {
    exists v :: (e, at, v) in Results(w)
  }

  /** Attempts are told apart by the version their start produced, and each has one result at most. */
  ghost predicate Singular(w: World, e: Effect) {
    var now := Get(w.store, KeyOf(e)).version;
    && (forall p :: Active(At(w, p, e)) ==> At(w, p, e).at <= now)
    && (forall p, q :: Active(At(w, p, e)) && Active(At(w, q, e)) && At(w, p, e).at == At(w, q, e).at ==> p == q)
    && (forall p :: At(w, p, e).Started? || At(w, p, e).InHandler? ==> !ResultAt(w, e, At(w, p, e).at))
    && (forall at: nat, v :: (e, at, v) in Results(w) ==> at <= now)
    && (forall at, u, v :: (e, at, u) in Results(w) && (e, at, v) in Results(w) ==> u == v)
  }

  /** What a step can do to the attempts at `e`: nothing, or move one of them. */
  ghost predicate Moved(w: World, r: World, p: Worker, e: Effect) {
    var now := Get(w.store, KeyOf(e)).version;
    && (forall q :: q != p ==> At(r, q, e) == At(w, q, e))
    && now <= Get(r.store, KeyOf(e)).version
    && (|| (Results(r) == Results(w) && !Active(At(r, p, e)))
        || (Results(r) == Results(w) && Active(At(r, p, e)) && Active(At(w, p, e))
            && At(r, p, e).at == At(w, p, e).at
            && (At(r, p, e).Started? || At(r, p, e).InHandler? ==> At(w, p, e).Started? || At(w, p, e).InHandler?))
        || (Results(r) == Results(w) && At(r, p, e) == Started(now + 1) && Get(r.store, KeyOf(e)).version == now + 1)
        || (At(w, p, e).InHandler? && At(r, p, e).Finishing? && At(r, p, e).at == At(w, p, e).at
            && Results(r) == Results(w) + {(e, At(w, p, e).at, At(r, p, e).out)})
        || (At(r, p, e).Copying? && At(r, p, e).at == now + 1 && Get(r.store, KeyOf(e)).version == now + 1
            && Results(r) == Results(w) + {(e, now + 1, At(r, p, e).known)}))
  }

  lemma MovedStaysSingular(w: World, r: World, p: Worker, e: Effect)
    requires Singular(w, e) && Moved(w, r, p, e)
    ensures Singular(r, e)
  {
    hide KeyOf, Results;
    var more := if Results(r) == Results(w) then None
                else Some(if At(r, p, e).Copying? then (At(r, p, e).at, At(r, p, e).known) else (At(r, p, e).at, At(r, p, e).out));
    if more.None? {
      forall at: nat ensures ResultAt(r, e, at) == ResultAt(w, e, at) { }
    } else {
      forall at: nat ensures ResultAt(r, e, at) == (ResultAt(w, e, at) || at == more.value.0) {
        if at == more.value.0 { assert (e, at, more.value.1) in Results(r); }
      }
    }
  }

  lemma OwnMove(w: World, a: Action, p: Worker, e: Effect)
    requires Walks(a) == Some((p, e))
    ensures Moved(w, Do(w, a), p, e)
  {
    if AsksToStart(w, a) {
      if a.StartStep? { StartMove(w, a); } else { IntentMove(w, a); }
    } else if a.HandlerReturns? {
      ReturnMove(w, a);
    } else {
      LocalMove(w, a, p, e);
    }
  }

  lemma ReturnMove(w: World, a: Action)
    requires a.HandlerReturns?
    ensures Moved(w, Do(w, a), a.p, a.e)
  {
    hide KeyOf;
    assert Results(Do(w, a)) == Results(w) + Returns(w, a);
  }

  lemma LocalMove(w: World, a: Action, p: Worker, e: Effect)
    requires Walks(a) == Some((p, e)) && !AsksToStart(w, a) && !a.HandlerReturns?
    ensures Moved(w, Do(w, a), p, e)
  {
    hide KeyOf, AfterKey, Stale, FinishEffect, Start, TokensAfter, OpOf, Next;
    StepRises(w, a, e);
    assert Results(Do(w, a)) == Results(w);
  }

  lemma StartMove(w: World, a: Action)
    requires a.StartStep? && At(w, a.p, a.e).ToStart?
    ensures Moved(w, Do(w, a), a.p, a.e)
  {
    hide KeyOf;
  }

  lemma IntentMove(w: World, a: Action)
    requires a.CopyIntent? && MayCopy(w, a.p, a.callId, a.known)
    ensures Moved(w, Do(w, a), a.p, Tool(a.callId))
  {
    hide KeyOf;
    var r := Do(w, a);
    assert Results(r) == Results(w) + Carries(w, a);
  }

  lemma StepRises(w: World, a: Action, e: Effect)
    ensures Get(w.store, KeyOf(e)).version <= Get(Do(w, a).store, KeyOf(e)).version
  {
    hide KeyOf, OpOf, Next, PcAfter, TokensAfter;
    if OpOf(w, a).Some? { VersionsRise(w.store, OpOf(w, a).value, KeyOf(e)); }
  }

  lemma OtherMove(w: World, a: Action, e: Effect)
    requires Singular(w, e) && (Walks(a).None? || Walks(a).value.1 != e)
    ensures Singular(Do(w, a), e)
  {
    hide KeyOf, OpOf, Next, PcAfter, TokensAfter;
    StepRises(w, a, e);
    forall at: nat, v: Value ensures (e, at, v) in Results(Do(w, a)) <==> (e, at, v) in Results(w) { }
    forall p ensures At(Do(w, a), p, e) == At(w, p, e) { }
    forall at: nat ensures ResultAt(Do(w, a), e, at) == ResultAt(w, e, at) { }
  }

  /** In every interleaving, whatever tokens are presented, an attempt belongs to one worker and has
      at most one result: one its handler returned, or one its fork read, and never both. */
  lemma {:induction false} AttemptsReturnOnce(actions: seq<Action>, e: Effect)
    ensures Singular(Play(START, actions), e)
  {
    hide Do, Moved, Singular;
    if actions == [] {
      StartSingular(e);
    } else {
      var n := |actions| - 1;
      AttemptsReturnOnce(actions[..n], e);
      var w, a := Play(START, actions[..n]), actions[n];
      if Walks(a).Some? && Walks(a).value.1 == e {
        OwnMove(w, a, Walks(a).value.0, e);
        MovedStaysSingular(w, Do(w, a), Walks(a).value.0, e);
      } else {
        OtherMove(w, a, e);
      }
    }
  }

  lemma StartSingular(e: Effect)
    ensures Singular(START, e)
  {
  }
}
