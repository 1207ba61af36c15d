/** The effect journal as the program one worker runs, over the in-memory ledger: and why the actions
    of `Journal` are that program, one `await` at a time. */
module JournalProgram {
  import opened Wrappers
  import opened Values
  import opened Ledger
  import opened Keys
  import opened MemoryStore

  /** How a handler ends: with a result, with an exception, with a signal that nothing happened, or
      with a signal of the runtime or a cancellation, which leave the effect in doubt. */
  datatype Ending =
    | Yields(value: string)
    | Raises(error: string)
    | NothingHappened
    | Interrupted

  /** How an attempt at an effect ends. */
  datatype Outcome =
    | Answered(record: Value)
    | Indeterminate(version: nat)
    | Refusal(error: Error)
    | Malformed                      // a marker that holds no record
    | PassedOn                       // the handler's own signal goes on to the caller

  /** What one undisturbed attempt does, and whether it runs the handler. */
  datatype Attempt = Attempt(state: BranchState, outcome: Outcome, ran: bool)

  function Committed(s: BranchState, k: Key, v: Value, token: int): Attempt {
    var (r, reply) := FinishEffect(s, k, v, token);
    Attempt(r, if reply.Success? then Answered(v) else Refusal(reply.error), true)
  }

  /** What a tool's exception or result is recorded as, if it is recorded. */
  function ToolRecord(ending: Ending): Option<Value> {
    match ending
    case Yields(v) => Some(Record(true, v))
    case Raises(e) => Some(Record(false, e))
    case _ => None
  }

  /** A model's response is recorded; any exception clears the intent. */
  function ModelRecord(ending: Ending): Option<Value> {
    match ending case Yields(v) => Some(Text(v)) case _ => None
  }

  predicate ToolClears(ending: Ending) {
    ending.NothingHappened?
  }

  predicate ModelClears(ending: Ending) {
    ending.NothingHappened? || ending.Raises?
  }

  function AfterHandler(s: BranchState, k: Key, token: int, record: Option<Value>, clears: bool): Attempt {
    if record.Some? then Committed(s, k, record.value, token)
    else if !clears then Attempt(s, PassedOn, true)
    else
      var (r, reply) := Forget(s, k, token);
      Attempt(r, if reply.Success? then PassedOn else Refusal(reply.error), true)
  }

  function Begin(s: BranchState, k: Key, token: int, record: Option<Value>, clears: bool): Attempt {
    var (r, reply) := Start(s, k, token);
    if reply.Failure? then Attempt(r, Refusal(reply.error), false)
    else if !reply.value then Attempt(r, Indeterminate(Get(r, k).version), false)
    else AfterHandler(r, k, token, record, clears)
  }

  function Execute(s: BranchState, k: Key, token: int, retryRunning: bool, record: Option<Value>, clears: bool): Attempt {
    var step := Get(s, k);
    if step.status == Done then Attempt(s, Answered(step.value), false)
    else if step.status == Running then
      if !retryRunning then Attempt(s, Indeterminate(step.version), false)
      else
        var (r, reply) := Forget(s, k, token);
        if reply.Failure? then Attempt(r, Refusal(reply.error), false) else Begin(r, k, token, record, clears)
    else Begin(s, k, token, record, clears)
  }

  /** The step may be started: nobody began it, or it was released, or the caller may rerun it. */
  predicate MayBegin(step: Step, retryRunning: bool) {
    step.status == Absent || step.status == Ready || (step.status == Running && retryRunning)
  }

  /** An attempt that may not begin runs nothing and changes nothing: it answers a finished step from its
      record, reports a running one with its version, and gives way when it was replaced. */
  ghost predicate GivesWay(s: BranchState, k: Key, token: int, retryRunning: bool, a: Attempt) {
    !a.ran && a.state == s &&
    match Get(s, k).status
    case Done => a.outcome == Answered(Get(s, k).value)
    case Running => a.outcome == if retryRunning then Refusal(Fenced) else Indeterminate(Get(s, k).version)
    case _ => a.outcome == Refusal(Fenced)
  }

  /** An attempt that begins runs the handler once and leaves every other step alone. */
  ghost predicate BeginsOnce(s: BranchState, k: Key, a: Attempt) {
    a.ran && forall other :: other != k ==> Get(a.state, other) == Get(s, other)
  }

  /** The version the attempt's own start produces. */
  function StartedAt(step: Step): nat {
    if step.status == Running then step.version + 2 else step.version + 1
  }

  /** How a tool call comes out: by how its handler ends, and by nothing else. */
  ghost predicate ToolSettles(s: BranchState, k: Key, token: int, retryRunning: bool, ending: Ending, a: Attempt) {
    var at := StartedAt(Get(s, k));
    if !MayBegin(Get(s, k), retryRunning) || Stale(s, token) then GivesWay(s, k, token, retryRunning, a) else
    && BeginsOnce(s, k, a)
    && match ending
       case Interrupted => a.outcome == PassedOn && Get(a.state, k) == Step(Running, Null, at)
       case NothingHappened => a.outcome == PassedOn && Get(a.state, k) == Step(Absent, Null, at + 1)
       case Raises(e) => a.outcome == Answered(Record(false, e)) && Get(a.state, k) == Step(Done, Record(false, e), at + 1)
       case Yields(v) => a.outcome == Answered(Record(true, v)) && Get(a.state, k) == Step(Done, Record(true, v), at + 1)
  }

  /** How a model request comes out: there an exception clears the intent too. */
  ghost predicate ModelSettles(s: BranchState, k: Key, token: int, retryRunning: bool, ending: Ending, a: Attempt) {
    var at := StartedAt(Get(s, k));
    if !MayBegin(Get(s, k), retryRunning) || Stale(s, token) then GivesWay(s, k, token, retryRunning, a) else
    && BeginsOnce(s, k, a)
    && match ending
       case Interrupted => a.outcome == PassedOn && Get(a.state, k) == Step(Running, Null, at)
       case NothingHappened => a.outcome == PassedOn && Get(a.state, k) == Step(Absent, Null, at + 1)
       case Raises(_) => a.outcome == PassedOn && Get(a.state, k) == Step(Absent, Null, at + 1)
       case Yields(v) => a.outcome == Answered(Text(v)) && Get(a.state, k) == Step(Done, Text(v), at + 1)
  }

  /** What the end of a tool's handler makes of the running step. */
  ghost predicate Ends(was: Step, ending: Ending, outcome: Outcome, now: Step) {
    match ending
    case Interrupted => outcome == PassedOn && now == was
    case NothingHappened => outcome == PassedOn && now == Step(Absent, Null, was.version + 1)
    case Raises(e) => outcome == Answered(Record(false, e)) && now == Step(Done, Record(false, e), was.version + 1)
    case Yields(v) => outcome == Answered(Record(true, v)) && now == Step(Done, Record(true, v), was.version + 1)
  }

  lemma AttemptGivesWay(s: BranchState, k: Key, token: int, retryRunning: bool, record: Option<Value>, clears: bool)
    requires !MayBegin(Get(s, k), retryRunning) || Stale(s, token)
    ensures GivesWay(s, k, token, retryRunning, Execute(s, k, token, retryRunning, record, clears))
  {
  }

  lemma AttemptBegins(s: BranchState, k: Key, token: int, retryRunning: bool, record: Option<Value>, clears: bool)
    requires MayBegin(Get(s, k), retryRunning) && !Stale(s, token)
    ensures var a := Execute(s, k, token, retryRunning, record, clears);
      var at := StartedAt(Get(s, k));
      && BeginsOnce(s, k, a)
      && (record.Some? ==> a.outcome == Answered(record.value) && Get(a.state, k) == Step(Done, record.value, at + 1))
      && (record.None? ==> a.outcome == PassedOn)
      && (record.None? ==> Get(a.state, k) == if clears then Step(Absent, Null, at + 1) else Step(Running, Null, at))
  {
    var cleared := if Get(s, k).status == Running then Ledger.Forget(s, k, token).0 else s;
    assert !Stale(cleared, token) && Get(cleared, k).status in {Absent, Ready};
    assert Execute(s, k, token, retryRunning, record, clears) == Begin(cleared, k, token, record, clears);
    var started := Ledger.Start(cleared, k, token).0;
    assert Get(started, k) == Step(Running, Null, StartedAt(Get(s, k))) && !Stale(started, token);
  }

  lemma ToolEnds(s: BranchState, k: Key, token: int, ending: Ending)
    requires Get(s, k).status == Running && !Stale(s, token)
    ensures var a := AfterHandler(s, k, token, ToolRecord(ending), ToolClears(ending));
      Ends(Get(s, k), ending, a.outcome, Get(a.state, k))
  {
  }

  lemma ToolComesOut(s: BranchState, k: Key, token: int, retryRunning: bool, ending: Ending)
    ensures ToolSettles(s, k, token, retryRunning, ending,
                        Execute(s, k, token, retryRunning, ToolRecord(ending), ToolClears(ending)))
  {
    hide Execute, Stale, BeginsOnce, GivesWay;
    if MayBegin(Get(s, k), retryRunning) && !Stale(s, token) {
      AttemptBegins(s, k, token, retryRunning, ToolRecord(ending), ToolClears(ending));
    } else {
      AttemptGivesWay(s, k, token, retryRunning, ToolRecord(ending), ToolClears(ending));
    }
  }

  lemma ModelComesOut(s: BranchState, k: Key, token: int, retryRunning: bool, ending: Ending)
    ensures ModelSettles(s, k, token, retryRunning, ending,
                         Execute(s, k, token, retryRunning, ModelRecord(ending), ModelClears(ending)))
  {
    hide Execute, Stale, BeginsOnce, GivesWay;
    if MayBegin(Get(s, k), retryRunning) && !Stale(s, token) {
      AttemptBegins(s, k, token, retryRunning, ModelRecord(ending), ModelClears(ending));
    } else {
      AttemptGivesWay(s, k, token, retryRunning, ModelRecord(ending), ModelClears(ending));
    }
  }

  /** What one attempt shows of a call. A marker settles it; without one, what policy made of the record is
      marked before it is shown, and nothing else changes; without a policy the record itself is shown. */
  ghost predicate Shows(s: BranchState, callId: string, record: Value, token: int, project: Option<Value -> Value>,
                        outcome: Outcome, r: BranchState)
  {
    var marker := Get(s, AfterKey(callId));
    if marker.status == Done then
      r == s && outcome == if marker.value.Marker? then Answered(marker.value.shown) else Malformed
    else if project.None? then r == s && outcome == Answered(record)
    else if Stale(s, token) then r == s && outcome == Refusal(Fenced)
    else
      && outcome == Answered(project.value(record))
      && Get(r, AfterKey(callId)) == Step(Done, Marker(project.value(record)), marker.version + 1)
      && r == s.(entries := r.entries) && forall k :: k != AfterKey(callId) ==> Get(r, k) == Get(s, k)
  }

  lemma ProjectionShows(s: BranchState, callId: string, record: Value, token: int, project: Option<Value -> Value>)
    ensures var (r, outcome) := Projected(s, callId, record, token, project);
      Shows(s, callId, record, token, project, outcome, r)
  {
    hide AfterKey;
  }

  class EffectJournal {
    const store: MemorySteps
    const branch: string
    const token: int
    const retryRunning: bool

    constructor (store: MemorySteps, branch: string, token: int, retryRunning: bool)
      ensures this.store == store && this.branch == branch && this.token == token && this.retryRunning == retryRunning
    {
      this.store, this.branch, this.token, this.retryRunning := store, branch, token, retryRunning;
    }

    method Recorded(callId: string) returns (done: bool)
      requires store.Valid()
      ensures done <==> Get(store.View(branch), StepKey(callId)).status == Done
    {
      var step := store.Read(branch, StepKey(callId));
      done := step.status == Done;
    }

    /** One attempt at a tool call: the outcome, the branch it leaves, and whether the handler ran. */
    method Tool(callId: string, ending: Ending) returns (outcome: Outcome, ran: bool)
      requires store.Valid()
      modifies store`entries, store`views
      ensures store.Valid()
      ensures Attempt(store.View(branch), outcome, ran)
        == Execute(old(store.View(branch)), StepKey(callId), token, retryRunning, ToolRecord(ending), ToolClears(ending))
      ensures ToolSettles(old(store.View(branch)), StepKey(callId), token, retryRunning, ending, Attempt(store.View(branch), outcome, ran))
      ensures forall b :: b != branch ==> store.View(b) == old(store.View(b))
    {
      ToolComesOut(store.View(branch), StepKey(callId), token, retryRunning, ending);
      hide MemorySteps.Valid, MemorySteps.View, Ledger.Start, Ledger.Forget, Ledger.FinishEffect, ToolSettles;
      var key := StepKey(callId);
      var step := store.Read(branch, key);
      if step.status == Done { return Answered(step.value), false; }
      if step.status == Running {
        if !retryRunning { return Indeterminate(step.version), false; }
        var cleared := store.Forget(branch, key, token);
        if cleared.Failure? { return Refusal(cleared.error), false; }
      }
      var started := store.Start(branch, key, token);
      if started.Failure? { return Refusal(started.error), false; }
      if !started.value {
        var current := store.Read(branch, key);
        return Indeterminate(current.version), false;
      }
      outcome := FinishTool(key, ending);
      ran := true;
    }

    /** Run the handler and commit what it leaves: an exception becomes the call's recorded result, a
        signal that nothing happened clears the intent, and an interruption leaves it in doubt. */
    method FinishTool(key: Key, ending: Ending) returns (outcome: Outcome)
      requires store.Valid()
      modifies store`entries, store`views
      ensures store.Valid()
      ensures Attempt(store.View(branch), outcome, true)
        == AfterHandler(old(store.View(branch)), key, token, ToolRecord(ending), ToolClears(ending))
      ensures Get(old(store.View(branch)), key).status == Running && !Stale(old(store.View(branch)), token) ==>
        Ends(Get(old(store.View(branch)), key), ending, outcome, Get(store.View(branch), key))
      ensures forall b :: b != branch ==> store.View(b) == old(store.View(b))
    {
      if Get(store.View(branch), key).status == Running && !Stale(store.View(branch), token) {
        ToolEnds(store.View(branch), key, token, ending);
      }
      hide MemorySteps.Valid, MemorySteps.View, Ledger.Start, Ledger.Forget, Ledger.FinishEffect, Ends;
      var record: Value;
      match ending {
        case NothingHappened =>
          var cleared := store.Forget(branch, key, token);
          return if cleared.Success? then PassedOn else Refusal(cleared.error);
        case Interrupted => return PassedOn;
        case Raises(error) => record := Record(false, error);
        case Yields(value) => record := Record(true, value);
      }
      var finished := store.FinishEffect(branch, key, record, token);
      outcome := if finished.Success? then Answered(record) else Refusal(finished.error);
    }

    /** One attempt at a model request, where any exception of the handler clears the intent again. */
    method Model(digest: string, ending: Ending) returns (outcome: Outcome, ran: bool)
      requires store.Valid()
      modifies store`entries, store`views
      ensures store.Valid()
      ensures Attempt(store.View(branch), outcome, ran)
        == Execute(old(store.View(branch)), ModelKey(digest), token, retryRunning, ModelRecord(ending), ModelClears(ending))
      ensures ModelSettles(old(store.View(branch)), ModelKey(digest), token, retryRunning, ending, Attempt(store.View(branch), outcome, ran))
      ensures forall b :: b != branch ==> store.View(b) == old(store.View(b))
    {
      ModelComesOut(store.View(branch), ModelKey(digest), token, retryRunning, ending);
      hide MemorySteps.Valid, MemorySteps.View, Ledger.Start, Ledger.Forget, Ledger.FinishEffect, ModelSettles;
      var key := ModelKey(digest);
      var step := store.Read(branch, key);
      if step.status == Done { return Answered(step.value), false; }
      if step.status == Running {
        if !retryRunning { return Indeterminate(step.version), false; }
        var cleared := store.Forget(branch, key, token);
        if cleared.Failure? { return Refusal(cleared.error), false; }
      }
      var started := store.Start(branch, key, token);
      if started.Failure? { return Refusal(started.error), false; }
      if !started.value {
        var current := store.Read(branch, key);
        return Indeterminate(current.version), false;
      }
      outcome := FinishModel(key, ending);
      ran := true;
    }

    /** What the end of a model request leaves: a response is recorded, an interruption leaves the intent,
        and anything else clears it. */
    method FinishModel(key: Key, ending: Ending) returns (outcome: Outcome)
      requires store.Valid()
      modifies store`entries, store`views
      ensures store.Valid()
      ensures Attempt(store.View(branch), outcome, true)
        == AfterHandler(old(store.View(branch)), key, token, ModelRecord(ending), ModelClears(ending))
      ensures forall b :: b != branch ==> store.View(b) == old(store.View(b))
    {
      hide MemorySteps.Valid, MemorySteps.View, Ledger.Start, Ledger.Forget, Ledger.FinishEffect;
      match ending {
        case Interrupted => outcome := PassedOn;
        case Yields(value) =>
          var finished := store.FinishEffect(branch, key, Text(value), token);
          outcome := if finished.Success? then Answered(Text(value)) else Refusal(finished.error);
        case _ =>
          var cleared := store.Forget(branch, key, token);
          outcome := if cleared.Success? then PassedOn else Refusal(cleared.error);
      }
    }

    /** An existing marker settles what the model sees; without one, policy's verdict is marked first. */
    method ProjectOnce(callId: string, record: Value, project: Option<Value -> Value>) returns (outcome: Outcome)
      requires store.Valid()
      modifies store`entries, store`views
      ensures store.Valid()
      ensures (store.View(branch), outcome) == Projected(old(store.View(branch)), callId, record, token, project)
      ensures Shows(old(store.View(branch)), callId, record, token, project, outcome, store.View(branch))
      ensures forall b :: b != branch ==> store.View(b) == old(store.View(b))
    {
      ProjectionShows(store.View(branch), callId, record, token, project);
      hide MemorySteps.Valid, MemorySteps.View, Ledger.WriteControl, Shows;
      var journal := store.Read(branch, AfterKey(callId));
      if journal.status == Done { return if journal.value.Marker? then Answered(journal.value.shown) else Malformed; }
      if project.None? { return Answered(record); }
      var projected := project.value(record);
      var written := store.WriteControl(branch, AfterKey(callId), Marker(projected), token);
      outcome := if written.Success? then Answered(projected) else Refusal(written.error);
    }
  }

  function Projected(s: BranchState, callId: string, record: Value, token: int, project: Option<Value -> Value>): (BranchState, Outcome) {
    var journal := Get(s, AfterKey(callId));
    if journal.status == Done then (s, if journal.value.Marker? then Answered(journal.value.shown) else Malformed)
    else if project.None? then (s, Answered(record))
    else
      var (r, reply) := WriteControl(s, AfterKey(callId), Marker(project.value(record)), token);
      (r, if reply.Success? then Answered(project.value(record)) else Refusal(reply.error))
  }
}
