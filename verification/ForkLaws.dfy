/** A fork carries what the source knows, and no authority to run anything again. */
module ForkLaws {
  import opened Wrappers
  import opened Values
  import opened Ledger
  import opened Keys
  import opened Workers
  import opened Journal
  import opened JournalBound
  import opened JournalProvenance
  import opened JournalProgram
  import opened JournalSolo
  import opened Forking

  /** What copying makes of one step of the target, given the source's step. */
  function Carried(source: Step, before: Step): Step {
    if source.status == Absent || before.status !in {Absent, Ready} then before
    else if source.status == Done then Step(Done, source.value, before.version + 2)
    else Step(Running, Null, before.version + 1)
  }

  predicate CopiesAsDone(source: Step, before: Step) {
    source.status == Done && before.status in {Absent, Ready}
  }

  function Last(calls: seq<string>): string
    requires calls != []
  {
    calls[|calls| - 1]
  }

  lemma CopyCallMeaning(source: BranchState, at: Copying, c: string, token: int)
    requires !at.refused && !Stale(at.target, token)
    ensures var r := CopyCall(source, at, c, token);
      && !r.refused && r.target == at.target.(entries := r.target.entries)
      && Get(r.target, StepKey(c)) == Carried(Get(source, StepKey(c)), Get(at.target, StepKey(c)))
      && (forall k :: k != StepKey(c) ==> Get(r.target, k) == Get(at.target, k))
      && r.copied == at.copied + (if CopiesAsDone(Get(source, StepKey(c)), Get(at.target, StepKey(c))) then [c] else [])
  {
    hide StepKey;
  }

  /** A copy nobody fences gives every call of the history what the source knows about it, leaves
      every other step of the target alone, and reports exactly the calls it copied as finished. */
  lemma {:induction false} CopyMeaning(source: BranchState, target: BranchState, calls: seq<string>, token: int)
    requires !Stale(target, token)
    ensures var r := CopyEach(source, target, calls, token);
      && !r.refused && r.target == target.(entries := r.target.entries)
      && (forall c :: c in calls ==> Get(r.target, StepKey(c)) == Carried(Get(source, StepKey(c)), Get(target, StepKey(c))))
      && (forall k :: (forall c :: c in calls ==> k != StepKey(c)) ==> Get(r.target, k) == Get(target, k))
      && (forall c :: c in r.copied <==> c in calls && CopiesAsDone(Get(source, StepKey(c)), Get(target, StepKey(c))))
  {
    hide CopyCall, Stale;
    if calls != [] {
      var init, c := calls[..|calls| - 1], Last(calls);
      assert calls == init + [c];
      CopyMeaning(source, target, init, token);
      var at := CopyEach(source, target, init, token);
      StaleSame(target, at.target, token);
      CopyCallMeaning(source, at, c, token);
      forall d | d in calls
        ensures Get(CopyCall(source, at, c, token).target, StepKey(d)) == Carried(Get(source, StepKey(d)), Get(target, StepKey(d)))
      {
        KeysAreInjective(c, d);
      }
      if c !in init {
        forall d | d in init ensures StepKey(c) != StepKey(d) { KeysAreInjective(c, d); }
      }
    }
  }

  lemma StaleSame(s: BranchState, r: BranchState, token: int)
    requires r == s.(entries := r.entries)
    ensures Stale(r, token) == Stale(s, token)
  {
  }

  /** On a target that holds nothing about a call: done is copied as done with the same value,
      started or released as started, and what the source never began stays absent. */
  lemma FreshTarget(source: BranchState, target: BranchState, calls: seq<string>, token: int, c: string)
    requires !Stale(target, token) && c in calls && Get(target, StepKey(c)) == NO_STEP
    ensures var (known, learned) := (Get(source, StepKey(c)), Get(CopyEach(source, target, calls, token).target, StepKey(c)));
      && (known.status == Done ==> learned.status == Done && learned.value == known.value)
      && (known.status in {Running, Ready} ==> learned.status == Running)
      && (known.status == Absent ==> learned == NO_STEP)
  {
    CopyMeaning(source, target, calls, token);
  }

  // ---- a copy that is cut short ---------------------------------------------------------------

  /** What a copy leaves behind when it stops after `i` calls, with the intent of the next one committed
      or not. */
  function Cut(source: BranchState, target: BranchState, calls: seq<string>, i: nat, committed: bool, token: int): BranchState
    requires i <= |calls| && (committed ==> i < |calls|)
  {
    var at := CopyEach(source, target, calls[..i], token).target;
    if committed then CopyStart(source, at, calls[i], token).0 else at
  }

  /** The copy came as far as committing the intent of call `c`. */
  predicate Reached(calls: seq<string>, i: nat, committed: bool, c: string)
    requires i <= |calls| && (committed ==> i < |calls|)
  {
    c in calls[..i] || (committed && c == calls[i])
  }

  /** A copy into a fresh target, cut short anywhere, leaves exactly this: the source's result where it
      got so far, doubt where only the intent was committed, and nothing at all for a call it did not
      reach, even one the source finished. */
  lemma CutLeaves(source: BranchState, target: BranchState, calls: seq<string>, i: nat, committed: bool, token: int, c: string)
    requires i <= |calls| && (committed ==> i < |calls|)
    requires !Stale(target, token) && Get(target, StepKey(c)) == NO_STEP
    ensures var known := Get(source, StepKey(c));
      Get(Cut(source, target, calls, i, committed, token), StepKey(c)) ==
        if known.status == Absent || !Reached(calls, i, committed, c) then NO_STEP
        else if known.status == Done && c in calls[..i] then Step(Done, known.value, 2)
        else Step(Running, Null, 1)
  {
    hide CopyEach, StepKey;
    CopyMeaning(source, target, calls[..i], token);
    if c !in calls[..i] {
      forall d | d in calls[..i] ensures StepKey(c) != StepKey(d) { KeysAreInjective(c, d); }
    }
    if committed { StartLeaves(source, CopyEach(source, target, calls[..i], token).target, calls[i], token, c); }
  }

  lemma StartLeaves(source: BranchState, at: BranchState, d: string, token: int, c: string)
    requires !Stale(at, token)
    ensures Get(CopyStart(source, at, d, token).0, StepKey(c)) ==
      if c == d && Get(source, StepKey(c)).status != Absent && Get(at, StepKey(c)).status in {Absent, Ready}
      then Step(Running, Null, Get(at, StepKey(c)).version + 1) else Get(at, StepKey(c))
  {
    KeysAreInjective(c, d);
    hide StepKey;
  }

  /** Whatever the target held before, and however often an earlier copy was cut short, a copy that ends
      leaves every call the source began started or finished in the target. */
  lemma BegunIsKnown(source: BranchState, target: BranchState, calls: seq<string>, token: int, c: string)
    requires !Stale(target, token) && c in calls && Get(source, StepKey(c)).status != Absent
    ensures Get(CopyEach(source, target, calls, token).target, StepKey(c)).status in {Running, Done}
  {
    CopyMeaning(source, target, calls, token);
    match Get(target, StepKey(c)).status { case Absent => case Ready => case Running => case Done => }
  }

  // ---- who runs a call without new authority --------------------------------------------------

  /** The worker is on its way to a handler run or in one, or is about to clear the step. */
  predicate OnTheWay(pc: Pc) {
    pc.Started? || pc.InHandler? || pc.Forgetting? || pc.Reopening?
  }

  /** The call's step is begun, and nobody is about to run it or clear it. */
  ghost predicate Settled(w: World, e: Effect) {
    && Get(w.store, KeyOf(e)).status in {Running, Done}
    && forall p :: !OnTheWay(At(w, p, e))
  }

  /** The action brings no new authority to run `e` again: neither a retry decision about it, nor a
      worker that may rerun running steps. */
  predicate NoAuthority(a: Action, e: Effect) {
    && (a.Decide? && a.e == e ==> a.resolution.action != Retry)
    && (a.ReadStep? && a.e == e ==> !a.retryRunning)
  }

  lemma SettledMover(w: World, a: Action, p: Worker, e: Effect)
    requires Settled(w, e) && NoAuthority(a, e) && Walks(a) == Some((p, e))
    ensures !OnTheWay(PcAfter(w, a)) && Begins(w, a)[e] == 0
  {
    hide KeyOf, AfterKey, Stale, FinishEffect;
    assert !OnTheWay(At(w, p, e));
  }

  lemma SettledStep(w: World, a: Action, e: Effect)
    requires Settled(w, e) && NoAuthority(a, e)
    ensures Get(Do(w, a).store, KeyOf(e)).status in {Running, Done}
  {
    if Touches(w, a, e) {
      TouchedBy(w, a, e);
      TouchingToken(w, a, e);
      SettledWrite(w, a, e);
    } else {
      hide Touches, KeyOf, Do;
      StepUntouched(w, a, e);
    }
  }

  lemma SettledWrite(w: World, a: Action, e: Effect)
    requires Settled(w, e) && NoAuthority(a, e) && Touches(w, a, e)
    requires a.Decide? || (Walks(a).Some? && Walks(a).value.1 == e)
    requires a.Decide? ==> a.e == e
    ensures Get(Do(w, a).store, KeyOf(e)).status in {Running, Done}
  {
    hide KeyOf, AfterKey, Join, FrameworkOp, PcAfter, TokensAfter;
    if Walks(a).Some? { assert !OnTheWay(At(w, Walks(a).value.0, e)); }
  }

  lemma SettledKept(w: World, a: Action, e: Effect)
    requires Settled(w, e) && NoAuthority(a, e)
    ensures Settled(Do(w, a), e) && Do(w, a).begun[e] == w.begun[e]
  {
    hide OpOf, PcAfter, TokensAfter, KeyOf, Next, OnTheWay;
    SettledStep(w, a, e);
    forall p | Walks(a) != Some((p, e)) ensures At(Do(w, a), p, e) == At(w, p, e) { }
    if Walks(a).Some? && Walks(a).value.1 == e { SettledMover(w, a, Walks(a).value.0, e); }
  }

  predicate NoAuthorityIn(actions: seq<Action>, e: Effect) {
    forall i :: 0 <= i < |actions| ==> NoAuthority(actions[i], e)
  }

  /** A step left in doubt stays in doubt or is answered from a record: without new authority no
      worker ever runs its handler, in any interleaving. */
  lemma {:induction false} DoubtIsNotRerun(w: World, actions: seq<Action>, e: Effect)
    requires Settled(w, e) && NoAuthorityIn(actions, e)
    ensures Settled(Play(w, actions), e) && Play(w, actions).begun[e] == w.begun[e]
  {
    hide Settled, Do, NoAuthority;
    if actions != [] {
      var n := |actions| - 1;
      assert forall i :: 0 <= i < n ==> actions[..n][i] == actions[i];
      DoubtIsNotRerun(w, actions[..n], e);
      SettledKept(Play(w, actions[..n]), actions[n], e);
    }
  }

  /** A worker that finds the step absent or released runs its handler, and needs no new authority. */
  lemma FreeStepIsRun(w: World, p: Worker, e: Effect)
    requires p in w.tokens && !Stale(w.store, w.tokens[p]) && At(w, p, e).Idle?
    requires Get(w.store, KeyOf(e)).status in {Absent, Ready}
    ensures var run := Script(p, e, false, None, false);
      AllLeased(run) && NoAuthorityIn(run, e) && Play(w, run).begun[e] == w.begun[e] + 1
  {
    hide Play, Stale, Execute, Script, Do, KeyOf;
    AttemptIsTheProgram(w, p, e, false, None, false);
    FreeStepStarts(w.store, KeyOf(e), w.tokens[p]);
    ScriptIsPlain(p, e);
  }

  lemma FreeStepStarts(s: BranchState, k: Key, token: int)
    requires !Stale(s, token) && Get(s, k).status in {Absent, Ready}
    ensures Execute(s, k, token, false, None, false).ran
  {
  }

  lemma ScriptIsPlain(p: Worker, e: Effect)
    ensures AllLeased(Script(p, e, false, None, false)) && NoAuthorityIn(Script(p, e, false, None, false), e)
  {
  }

  lemma StatusIsOne(step: Step)
    ensures step.status in {Running, Done} <==> step.status !in {Absent, Ready}
  {
    match step.status case Absent => case Ready => case Running => case Done =>
  }

  /** Exactly when a call is safe: with nobody on the way to it and a worker at hand, no continuation
      without new authority runs its handler if and only if its step is running or done. */
  lemma {:induction false} SafeExactlyWhenBegun(w: World, p: Worker, e: Effect)
    requires p in w.tokens && !Stale(w.store, w.tokens[p]) && At(w, p, e).Idle?
    requires forall q :: !OnTheWay(At(w, q, e))
    ensures (forall more :: NoAuthorityIn(more, e) ==> Play(w, more).begun[e] == w.begun[e])
      <==> Get(w.store, KeyOf(e)).status in {Running, Done}
  {
    hide Play, KeyOf, NoAuthorityIn, Script;
    StatusIsOne(Get(w.store, KeyOf(e)));
    if Get(w.store, KeyOf(e)).status in {Running, Done} {
      forall more | NoAuthorityIn(more, e) ensures Play(w, more).begun[e] == w.begun[e] { DoubtIsNotRerun(w, more, e); }
    } else {
      FreeStepIsRun(w, p, e);
    }
  }

  /** A fork carries knowledge, never authority, as far as it got. Wherever a copy into a fresh target
      is cut short, a call the source began is run by no continuation without new authority if and
      only if the copy had committed its intent: the calls it did not reach run again. */
  lemma {:induction false} CutIsSafeExactlyWhenReached(
    source: BranchState, target: BranchState, calls: seq<string>, i: nat, committed: bool, token: int,
    w: World, p: Worker, c: string)
    requires i <= |calls| && (committed ==> i < |calls|)
    requires !Stale(target, token) && Get(target, StepKey(c)) == NO_STEP && Get(source, StepKey(c)).status != Absent
    requires Get(w.store, StepKey(c)) == Get(Cut(source, target, calls, i, committed, token), StepKey(c))
    requires p in w.tokens && !Stale(w.store, w.tokens[p]) && At(w, p, Tool(c)).Idle?
    requires forall q :: !OnTheWay(At(w, q, Tool(c)))
    ensures (forall more :: NoAuthorityIn(more, Tool(c)) ==> Play(w, more).begun[Tool(c)] == w.begun[Tool(c)])
      <==> Reached(calls, i, committed, c)
  {
    hide Play, NoAuthorityIn, Cut, StepKey, Stale, OnTheWay;
    CutLeaves(source, target, calls, i, committed, token, c);
    SafeExactlyWhenBegun(w, p, Tool(c));
  }

  /** The same for a copy that ran to its end: no continuation without new authority runs a call the
      source began. Asking the gate again (`regate`) plays no part: it is asked before any of these
      actions and can only forbid them. */
  lemma {:induction false} ForkNeverReruns(source: BranchState, target: BranchState, calls: seq<string>, token: int,
                                           w: World, more: seq<Action>, c: string)
    requires !Stale(target, token) && c in calls && Get(source, StepKey(c)).status != Absent
    requires w.store == CopyEach(source, target, calls, token).target
    requires forall p :: !OnTheWay(At(w, p, Tool(c)))
    requires NoAuthorityIn(more, Tool(c))
    ensures Play(w, more).begun[Tool(c)] == w.begun[Tool(c)]
  {
    BegunIsKnown(source, target, calls, token, c);
    DoubtIsNotRerun(w, more, Tool(c));
  }

  /** A fork that crashes before it reaches a call the source finished: the next attempt on the new
      branch runs that call again, with no authority but its own lease. */
  lemma CrashBeforeTheCopyRunsAgain(c: string, out: Value)
    ensures var source := EMPTY.(entries := map[StepKey(c) := Step(Done, out, 2)]);
      var w := START.(tokens := map["w" := 1], store := Acquire(EMPTY, "w", true).0);
      && Get(w.store, StepKey(c)) == Get(Cut(source, EMPTY, [c], 0, false, 1), StepKey(c))
      && exists more :: NoAuthorityIn(more, Tool(c)) && Play(w, more).begun[Tool(c)] == 1
  {
    var w := START.(tokens := map["w" := 1], store := Acquire(EMPTY, "w", true).0);
    assert [c][..0] == [];
    hide Play, NoAuthorityIn, Script;
    FreeStepIsRun(w, "w", Tool(c));
  }
}
