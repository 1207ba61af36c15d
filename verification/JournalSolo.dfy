/** The actions of `Journal`, taken by one worker with nobody in between, are the program of
    `JournalProgram`; and what that program promises a caller. */
module JournalSolo {
  import opened Wrappers
  import opened Values
  import opened Ledger
  import opened LedgerLaws
  import opened Keys
  import opened Workers
  import opened Journal
  import opened JournalProgram

  /** What a worker sees of the world while it attends to one effect, and what the world has counted. */
  datatype Spot = Spot(store: BranchState, pc: Pc, token: int, tally: Counts)

  datatype Counts = Counts(begun: nat, quiet: nat, reopened: nat, returned: set<(Effect, nat, Value)>)

  function CountsOf(w: World, e: Effect): Counts {
    Counts(w.begun[e], w.quiet[e], w.reopened[e], w.returned)
  }

  function SpotOf(w: World, p: Worker, e: Effect): Spot {
    Spot(w.store, At(w, p, e), TokenOf(w, p), CountsOf(w, e))
  }

  lemma Reads(w: World, p: Worker, e: Effect, retry: bool)
    requires p in w.tokens && At(w, p, e).Idle?
    ensures SpotOf(Do(w, ReadStep(p, e, retry)), p, e) == SpotOf(w, p, e).(pc := AfterRead(Get(w.store, KeyOf(e)), retry))
    ensures Do(w, ReadStep(p, e, retry)).tokens == w.tokens
  {
    hide KeyOf, AfterRead;
  }

  lemma Reopened(w: World, p: Worker, e: Effect)
    ensures var was := SpotOf(w, p, e);
      SpotOf(Do(w, ReopenStep(p, e)), p, e) == if !was.pc.Reopening? then was else
        was.(store := Ledger.Forget(was.store, KeyOf(e), was.token).0, pc := if Stale(was.store, was.token) then Idle else ToStart,
             tally := was.tally.(reopened := was.tally.reopened +
               if !Stale(was.store, was.token) && Get(was.store, KeyOf(e)).status == Running then 1 else 0))
    ensures Do(w, ReopenStep(p, e)).tokens == w.tokens
  {
    hide KeyOf;
  }

  lemma AsksStore(w: World, p: Worker, e: Effect)
    ensures var was := SpotOf(w, p, e);
      var (r, reply) := Ledger.Start(was.store, KeyOf(e), was.token);
      SpotOf(Do(w, StartStep(p, e)), p, e) == if !was.pc.ToStart? then was else
        was.(store := r, pc := if reply == Success(true) then Started(Get(was.store, KeyOf(e)).version + 1) else Idle)
    ensures Do(w, StartStep(p, e)).tokens == w.tokens
  {
    hide KeyOf;
  }

  lemma Runs(w: World, p: Worker, e: Effect)
    ensures var was := SpotOf(w, p, e);
      SpotOf(Do(w, RunHandler(p, e)), p, e) == if !was.pc.Started? then was else
        was.(pc := InHandler(was.pc.at), tally := was.tally.(begun := was.tally.begun + 1))
    ensures Do(w, RunHandler(p, e)).tokens == w.tokens
  {
  }

  lemma HandsOver(w: World, p: Worker, e: Effect, out: Value)
    ensures var was := SpotOf(w, p, e);
      SpotOf(Do(w, HandlerReturns(p, e, out)), p, e) == (if was.pc.InHandler?
        then was.(pc := Finishing(was.pc.at, out), tally := was.tally.(returned := was.tally.returned + {(e, was.pc.at, out)})) else was)
    ensures Do(w, HandlerReturns(p, e, out)).tokens == w.tokens
  {
  }

  lemma DoesNothing(w: World, p: Worker, e: Effect)
    ensures var was := SpotOf(w, p, e);
      SpotOf(Do(w, HandlerDidNothing(p, e)), p, e) == (if was.pc.InHandler?
        then was.(pc := Forgetting(was.pc.at), tally := was.tally.(quiet := was.tally.quiet + 1)) else was)
    ensures Do(w, HandlerDidNothing(p, e)).tokens == w.tokens
  {
  }

  lemma Commits(w: World, p: Worker, e: Effect)
    ensures var was := SpotOf(w, p, e);
      SpotOf(Do(w, FinishStep(p, e)), p, e) == if !was.pc.Finishing? then was else
        was.(store := Ledger.FinishEffect(was.store, KeyOf(e), was.pc.out, was.token).0,
             pc := if Ledger.FinishEffect(was.store, KeyOf(e), was.pc.out, was.token).1.Success? then HasRecord(was.pc.out) else Idle)
  {
    hide KeyOf, Ledger.FinishEffect;
  }

  lemma Clears(w: World, p: Worker, e: Effect)
    ensures var was := SpotOf(w, p, e);
      SpotOf(Do(w, ForgetStep(p, e)), p, e) == if !was.pc.Forgetting? then was else
        was.(store := Ledger.Forget(was.store, KeyOf(e), was.token).0, pc := Idle)
  {
    hide KeyOf, Ledger.Forget;
  }

  /** The actions of one whole attempt at an effect. */
  function Script(p: Worker, e: Effect, retry: bool, record: Option<Value>, clears: bool): seq<Action> {
    [ReadStep(p, e, retry), ReopenStep(p, e), StartStep(p, e), RunHandler(p, e)]
    + if record.Some? then [HandlerReturns(p, e, record.value), FinishStep(p, e)]
      else if clears then [HandlerDidNothing(p, e), ForgetStep(p, e)]
      else []
  }

  lemma {:induction false} PlayFirst(w: World, a: Action, more: seq<Action>)
    ensures Play(w, [a] + more) == Play(Do(w, a), more)
  {
    hide Do;
    if more == [] {
      assert ([a] + more)[..0] == [] && [a] + more == [a];
    } else {
      var n := |more| - 1;
      PlayFirst(w, a, more[..n]);
      assert ([a] + more)[..n + 1] == [a] + more[..n];
    }
  }

  ghost function PlayTwo(w: World, a: Action, b: Action): World {
    Do(Do(w, a), b)
  }

  lemma Handled(w: World, p: Worker, e: Effect, record: Option<Value>, clears: bool)
    ensures var was := SpotOf(w, p, e);
      var r := if record.Some? then PlayTwo(w, HandlerReturns(p, e, record.value), FinishStep(p, e))
               else if clears then PlayTwo(w, HandlerDidNothing(p, e), ForgetStep(p, e))
               else w;
      && CountsOf(r, e) == (if !was.pc.InHandler? then was.tally
           else if record.Some? then was.tally.(returned := was.tally.returned + {(e, was.pc.at, record.value)})
           else if clears then was.tally.(quiet := was.tally.quiet + 1) else was.tally)
      && (was.pc.InHandler? ==> r.store == AfterHandler(was.store, KeyOf(e), was.token, record, clears).state)
      && (!was.pc.InHandler? && !was.pc.Finishing? && !was.pc.Forgetting? ==> r.store == was.store)
  {
    hide Do, KeyOf, Ledger.FinishEffect, Ledger.Forget;
    var out := if record.Some? then record.value else Null;
    HandsOver(w, p, e, out);
    DoesNothing(w, p, e);
    Commits(Do(w, HandlerReturns(p, e, out)), p, e);
    Clears(Do(w, HandlerDidNothing(p, e)), p, e);
  }

  /** What one attempt adds to the counts: a run of the handler, and what came of it. */
  ghost function Counted(t: Counts, s: BranchState, e: Effect, token: int, retry: bool, record: Option<Value>, clears: bool): Counts {
    var step := Get(s, KeyOf(e));
    var a := Execute(s, KeyOf(e), token, retry, record, clears);
    Counts(
      t.begun + (if a.ran then 1 else 0),
      t.quiet + (if a.ran && record.None? && clears then 1 else 0),
      t.reopened + (if step.status == Running && retry && !Stale(s, token) then 1 else 0),
      t.returned + (if a.ran && record.Some? then {(e, StartedAt(step), record.value)} else {}))
  }

  /** With nobody in between, the actions of an attempt do to the store exactly what the program does, and
      the world counts exactly the handler run, the signal that nothing happened, the rerun that was
      allowed and the result of that attempt. */
  lemma {:induction false} AttemptIsTheProgram(w: World, p: Worker, e: Effect, retry: bool, record: Option<Value>, clears: bool)
    requires p in w.tokens && At(w, p, e).Idle?
    ensures var r := Play(w, Script(p, e, retry, record, clears));
      && r.store == Execute(w.store, KeyOf(e), w.tokens[p], retry, record, clears).state
      && CountsOf(r, e) == Counted(CountsOf(w, e), w.store, e, w.tokens[p], retry, record, clears)
  {
    hide Do, KeyOf, Ledger.FinishEffect, Stale, Play, AfterHandler, CountsOf;
    var w1 := Do(w, ReadStep(p, e, retry));
    var w2 := Do(w1, ReopenStep(p, e));
    var w3 := Do(w2, StartStep(p, e));
    var w4 := Do(w3, RunHandler(p, e));
    Unrolled(w, p, e, retry, record, clears);
    Reads(w, p, e, retry);
    Reopened(w1, p, e);
    AsksStore(w2, p, e);
    Runs(w3, p, e);
    Handled(w4, p, e, record, clears);
    HandlerRan(w3.store, KeyOf(e), w.tokens[p], record, clears);
    forall t: set<(Effect, nat, Value)> ensures t + {} == t { }
  }

  lemma HandlerRan(s: BranchState, k: Key, token: int, record: Option<Value>, clears: bool)
    ensures AfterHandler(s, k, token, record, clears).ran
  {
  }

  lemma PlayTwoMore(w: World, a: Action, b: Action, more: seq<Action>)
    ensures Play(w, [a, b] + more) == Play(PlayTwo(w, a, b), more)
  {
    hide Do, Play;
    assert [a, b] + more == [a] + ([b] + more);
    PlayFirst(w, a, [b] + more);
    PlayFirst(Do(w, a), b, more);
  }

  lemma PlayNone(w: World)
    ensures Play(w, []) == w
  {
  }

  lemma Unrolled(w: World, p: Worker, e: Effect, retry: bool, record: Option<Value>, clears: bool)
    ensures var w4 := PlayTwo(PlayTwo(w, ReadStep(p, e, retry), ReopenStep(p, e)), StartStep(p, e), RunHandler(p, e));
      Play(w, Script(p, e, retry, record, clears)) ==
        if record.Some? then PlayTwo(w4, HandlerReturns(p, e, record.value), FinishStep(p, e))
        else if clears then PlayTwo(w4, HandlerDidNothing(p, e), ForgetStep(p, e))
        else w4
  {
    hide Do, Play, PlayTwo;
    var w2 := PlayTwo(w, ReadStep(p, e, retry), ReopenStep(p, e));
    var w4 := PlayTwo(w2, StartStep(p, e), RunHandler(p, e));
    var last := if record.Some? then [HandlerReturns(p, e, record.value), FinishStep(p, e)]
                else if clears then [HandlerDidNothing(p, e), ForgetStep(p, e)] else [];
    assert Script(p, e, retry, record, clears)
      == [ReadStep(p, e, retry), ReopenStep(p, e)] + ([StartStep(p, e), RunHandler(p, e)] + last);
    PlayTwoMore(w, ReadStep(p, e, retry), ReopenStep(p, e), [StartStep(p, e), RunHandler(p, e)] + last);
    PlayTwoMore(w2, StartStep(p, e), RunHandler(p, e), last);
    if last != [] { PlayTwoMore(w4, last[0], last[1], []); assert last == [last[0], last[1]] + []; }
    PlayNone(w4);
    if last != [] { PlayNone(PlayTwo(w4, last[0], last[1])); }
  }

  // ---- showing a call to the model ------------------------------------------------------------

  lemma LooksForMarker(w: World, p: Worker, c: string, policy: bool)
    requires At(w, p, Tool(c)).HasRecord?
    ensures var r := Do(w, ReadMarker(p, c, policy));
      var marker := Get(w.store, AfterKey(c));
      && r.store == w.store && r.tokens == w.tokens
      && At(r, p, Tool(c)) == (
           if marker.status == Done then if marker.value.Marker? then Returned(marker.value.shown) else Idle
           else if policy then Projecting(At(w, p, Tool(c)).record) else Returned(At(w, p, Tool(c)).record))
      && r.asked[c] == w.asked[c] + if policy && marker.status != Done then 1 else 0
  {
    hide KeyOf, AfterKey;
  }

  lemma PolicyEnds(w: World, p: Worker, c: string, shown: Value)
    ensures var r := Do(w, PolicyDone(p, c, shown));
      var pc := At(w, p, Tool(c));
      && r.store == w.store && r.tokens == w.tokens && r.asked == w.asked
      && At(r, p, Tool(c)) == if pc.Projecting? then Marking(shown) else pc
  {
    hide KeyOf, AfterKey;
  }

  lemma MarkerIsWritten(w: World, p: Worker, c: string)
    requires p in w.tokens
    ensures var r := Do(w, WriteMarker(p, c));
      var pc := At(w, p, Tool(c));
      && r.store == (if pc.Marking? then Ledger.WriteControl(w.store, AfterKey(c), Marker(pc.shown), w.tokens[p]).0 else w.store)
      && r.asked == w.asked
      && At(r, p, Tool(c)) == if !pc.Marking? then pc else if Stale(w.store, w.tokens[p]) then Idle else Returned(pc.shown)
  {
    hide KeyOf, AfterKey;
  }

  /** The actions that show one call to the model. */
  function ShowScript(p: Worker, c: string, record: Value, project: Option<Value -> Value>): seq<Action> {
    [ReadMarker(p, c, project.Some?),
     PolicyDone(p, c, if project.Some? then project.value(record) else Null),
     WriteMarker(p, c)]
  }

  /** With nobody in between, these actions leave the store and show the model what the program leaves and
      answers, and policy is asked exactly when the program asks it. */
  lemma {:induction false} ProjectionIsTheProgram(w: World, p: Worker, c: string, project: Option<Value -> Value>)
    requires p in w.tokens && At(w, p, Tool(c)).HasRecord?
    ensures var record := At(w, p, Tool(c)).record;
      var r := Play(w, ShowScript(p, c, record, project));
      var (store, outcome) := Projected(w.store, c, record, w.tokens[p], project);
      && r.store == store
      && (outcome.Answered? ==> At(r, p, Tool(c)) == Returned(outcome.record))
      && (!outcome.Answered? ==> At(r, p, Tool(c)) == Idle)
      && r.asked[c] == w.asked[c] + if project.Some? && Get(w.store, AfterKey(c)).status != Done then 1 else 0
  {
    hide Do, AfterKey, Play;
    var record := At(w, p, Tool(c)).record;
    var shown := if project.Some? then project.value(record) else Null;
    var w1 := Do(w, ReadMarker(p, c, project.Some?));
    var w2 := Do(w1, PolicyDone(p, c, shown));
    LooksForMarker(w, p, c, project.Some?);
    PolicyEnds(w1, p, c, shown);
    MarkerIsWritten(w2, p, c);
    PlayTwoMore(w, ReadMarker(p, c, project.Some?), PolicyDone(p, c, shown), [WriteMarker(p, c)]);
    PlayFirst(w2, WriteMarker(p, c), []);
    PlayNone(Do(w2, WriteMarker(p, c)));
    assert ShowScript(p, c, record, project)
      == [ReadMarker(p, c, project.Some?), PolicyDone(p, c, shown)] + [WriteMarker(p, c)];
    assert [WriteMarker(p, c)] + [] == [WriteMarker(p, c)];
  }

  // ---- what the program promises --------------------------------------------------------------

  /** The handler runs only from a step nobody began, or one that was released, or one the caller said
      may rerun; a finished step is answered from its record and changes nothing; a step left running
      is reported with its version and changes nothing. */
  lemma NeverGuessed(s: BranchState, k: Key, token: int, retry: bool, record: Option<Value>, clears: bool)
    ensures var r := Execute(s, k, token, retry, record, clears);
      && (r.ran ==> Get(s, k).status in {Absent, Ready} || (retry && Get(s, k).status == Running))
      && (Get(s, k).status == Done ==> r == Attempt(s, Answered(Get(s, k).value), false))
      && (Get(s, k).status == Running && !retry ==> r == Attempt(s, Outcome.Indeterminate(Get(s, k).version), false))
      && (r.outcome.Answered? ==> Get(r.state, k).status == Done && Get(r.state, k).value == r.outcome.record)
      && (r.ran && record.None? && !clears ==> Get(r.state, k).status == Running)
  {
  }

  /** An answer once given is given again: whatever the framework did since, with any token and any
      policy about reruns, a later attempt returns the same record without running the handler. */
  lemma {:induction false} AnswersAreRepeated(s: BranchState, k: Key, token: int, retry: bool, record: Option<Value>, clears: bool,
                           ops: seq<Op>, token2: int, retry2: bool, record2: Option<Value>, clears2: bool)
    requires IsEffectKey(k) && Execute(s, k, token, retry, record, clears).outcome.Answered?
    requires forall i :: 0 <= i < |ops| ==> FrameworkOp(ops[i])
    ensures var first := Execute(s, k, token, retry, record, clears);
      var later := Run(first.state, ops);
      Execute(later, k, token2, retry2, record2, clears2) == Attempt(later, first.outcome, false)
  {
    NeverGuessed(s, k, token, retry, record, clears);
    FinishedEffectsAreImmutable(Execute(s, k, token, retry, record, clears).state, ops, k);
  }

  /** An interrupted attempt is not run again: until somebody releases, clears or settles the step, every
      later attempt without leave to rerun reports it and stays away. */
  lemma {:induction false} InterruptedIsReported(s: BranchState, k: Key, token: int, retry: bool,
                                                 ops: seq<Op>, later: int, record: Option<Value>, clears: bool)
    requires MayBegin(Get(s, k), retry) && !Stale(s, token)
    requires forall i :: 0 <= i < |ops| ==> k !in Writes(ops[i])
    ensures var interrupted := Execute(s, k, token, retry, None, false);
      var after := Run(interrupted.state, ops);
      && interrupted.ran && Get(interrupted.state, k) == Step(Running, Null, StartedAt(Get(s, k)))
      && Execute(after, k, later, false, record, clears)
           == Attempt(after, Outcome.Indeterminate(StartedAt(Get(s, k))), false)
  {
    AttemptBegins(s, k, token, retry, None, false);
    Unwritten(Execute(s, k, token, retry, None, false).state, ops, k);
    hide Run;
  }

  lemma {:induction false} Unwritten(s: BranchState, ops: seq<Op>, k: Key)
    requires forall i :: 0 <= i < |ops| ==> k !in Writes(ops[i])
    ensures Get(Run(s, ops), k) == Get(s, k)
  {
    hide Next, Writes;
    if ops != [] {
      var n := |ops| - 1;
      assert forall i :: 0 <= i < n ==> ops[..n][i] == ops[i];
      Unwritten(s, ops[..n], k);
      OtherSteps(Run(s, ops[..n]), ops[n], k);
    }
  }

  /** What may come after a call was shown: anything that does not write its marker, and further attempts
      to show it, under any token and any policy. */
  datatype Later = Served(op: Op) | ShownAgain(record: Value, token: int, project: Option<Value -> Value>)

  function AfterAll(s: BranchState, c: string, later: seq<Later>): BranchState {
    if later == [] then s else
    var before := AfterAll(s, c, later[..|later| - 1]);
    match later[|later| - 1]
    case Served(op) => Next(before, op)
    case ShownAgain(record, token, project) => Projected(before, c, record, token, project).0
  }

  lemma {:induction false} MarkerStays(s: BranchState, c: string, later: seq<Later>)
    requires Get(s, AfterKey(c)).status == Done
    requires forall i :: 0 <= i < |later| && later[i].Served? ==> AfterKey(c) !in Writes(later[i].op)
    ensures Get(AfterAll(s, c, later), AfterKey(c)) == Get(s, AfterKey(c))
  {
    hide Next, Writes, AfterKey;
    if later != [] {
      var n := |later| - 1;
      assert forall i :: 0 <= i < n ==> later[..n][i] == later[i];
      MarkerStays(s, c, later[..n]);
      if later[n].Served? { OtherSteps(AfterAll(s, c, later[..n]), later[n].op, AfterKey(c)); }
    }
  }

  /** What was shown once is shown again. After an attempt that marked the call, or met its marker, every
      later attempt shows the same record and changes nothing, whatever record, token and policy it
      brings and whatever came in between. */
  lemma {:induction false} ShownIsShownAgain(
    s: BranchState, c: string, record: Value, token: int, project: Option<Value -> Value>, later: seq<Later>,
    record2: Value, token2: int, project2: Option<Value -> Value>)
    requires Projected(s, c, record, token, project).1.Answered?
    requires project.Some? || Get(s, AfterKey(c)).status == Done
    requires forall i :: 0 <= i < |later| && later[i].Served? ==> AfterKey(c) !in Writes(later[i].op)
    ensures var (first, outcome) := Projected(s, c, record, token, project);
      var after := AfterAll(first, c, later);
      Projected(after, c, record2, token2, project2) == (after, outcome)
  {
    MarkerStays(Projected(s, c, record, token, project).0, c, later);
    hide AfterAll, AfterKey, Writes;
  }
}
