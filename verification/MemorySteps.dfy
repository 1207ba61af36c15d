/** The in-memory step ledger, proved against the meaning of one branch. */
module MemoryStore {
  import opened Wrappers
  import opened Values
  import opened Ledger
  import opened Transitions
  import opened Views

  /** A held lease and the moment it runs out. */
  datatype Held = Held(owner: Owner, token: nat, deadline: int)

  datatype InputRecord = InputRecord(id: InputId, status: InputStatus, value: Value, sequence: nat)

  // ---- how the tables and the branches hang together ------------------------------------------

  ghost predicate StepsOf(entries: map<Id, Step>, b: string, s: BranchState) {
    forall k :: ((b, k) in entries <==> k in s.entries) && ((b, k) in entries ==> entries[(b, k)] == s.entries[k])
  }

  ghost predicate DecisionsOf(decisions: map<Id, Payload>, b: string, s: BranchState) {
    forall d :: ((b, d) in decisions <==> d in s.decisions) && ((b, d) in decisions ==> decisions[(b, d)] == s.decisions[d])
  }

  ghost predicate LeaseOf(leases: map<string, Held>, tokens: map<string, nat>, b: string, s: BranchState) {
    && (b in leases <==> s.lease.Some?)
    && (b in leases ==> s.lease.value == Lease(leases[b].owner, leases[b].token))
    && (b in leases ==> b in tokens && tokens[b] == leases[b].token)
    && s.issued == if b in tokens then tokens[b] else 0
  }

  /** The records of a branch are its queue, numbered from zero in submission order. */
  ghost predicate InputsOf(inputs: map<Id, InputRecord>, inputSequence: map<string, nat>, b: string, s: BranchState) {
    && |s.order| == (if b in inputSequence then inputSequence[b] else 0)
    && (forall id :: (b, id) in inputs <==> id in s.inputs)
    && (forall id :: (b, id) in inputs ==>
          var r := inputs[(b, id)];
          r.id == id && Input(r.status, r.value) == s.inputs[id] && r.sequence < |s.order| && s.order[r.sequence] == id)
    && (forall i: nat :: i < |s.order| ==> (b, s.order[i]) in inputs && inputs[(b, s.order[i])].sequence == i)
  }

  /** The tables of the store at one moment. */
  datatype Tables = Tables(
    entries: map<Id, Step>,
    leases: map<string, Held>,
    tokens: map<string, nat>,
    inputs: map<Id, InputRecord>,
    inputSequence: map<string, nat>,
    decisions: map<Id, Payload>)

  ghost predicate BranchOf(t: Tables, b: string, s: BranchState) {
    && StepsOf(t.entries, b, s)
    && LeaseOf(t.leases, t.tokens, b, s)
    && InputsOf(t.inputs, t.inputSequence, b, s)
    && DecisionsOf(t.decisions, b, s)
  }

  ghost predicate Tied(t: Tables, views: Views) {
    forall b :: BranchOf(t, b, Of(views, b))
  }

  // Each table of a branch depends only on its own part of the branch's state.

  lemma SameSteps(t: Tables, b: string, s: BranchState, r: BranchState)
    requires StepsOf(t.entries, b, s) && r.entries == s.entries
    ensures StepsOf(t.entries, b, r)
  {
  }

  lemma SameLease(t: Tables, b: string, s: BranchState, r: BranchState)
    requires LeaseOf(t.leases, t.tokens, b, s) && r.lease == s.lease && r.issued == s.issued
    ensures LeaseOf(t.leases, t.tokens, b, r)
  {
  }

  lemma SameInputs(t: Tables, b: string, s: BranchState, r: BranchState)
    requires InputsOf(t.inputs, t.inputSequence, b, s) && r.inputs == s.inputs && r.order == s.order
    ensures InputsOf(t.inputs, t.inputSequence, b, r)
  {
  }

  lemma SameDecisions(t: Tables, b: string, s: BranchState, r: BranchState)
    requires DecisionsOf(t.decisions, b, s) && r.decisions == s.decisions
    ensures DecisionsOf(t.decisions, b, r)
  {
  }

  // A write to one table changes the branch it belongs to as the ledger says, and no other branch.

  lemma PutSteps(entries: map<Id, Step>, b: string, k: Key, step: Step, c: string, s: BranchState)
    requires StepsOf(entries, c, s)
    ensures StepsOf(entries[(b, k) := step], c, if c == b then Ledger.Put(s, k, step) else s)
  {
  }

  lemma PutTied(t: Tables, views: Views, b: string, k: Key, step: Step)
    requires Tied(t, views)
    ensures Tied(t.(entries := t.entries[(b, k) := step]), views[b := Ledger.Put(Of(views, b), k, step)])
  {
    hide StepsOf, LeaseOf, InputsOf, DecisionsOf;
    var next := t.(entries := t.entries[(b, k) := step]);
    var seen := views[b := Ledger.Put(Of(views, b), k, step)];
    forall c ensures BranchOf(next, c, Of(seen, c)) {
      assert BranchOf(t, c, Of(views, c));
      PutSteps(t.entries, b, k, step, c, Of(views, c));
      SameLease(t, c, Of(views, c), Of(seen, c));
      SameInputs(t, c, Of(views, c), Of(seen, c));
      SameDecisions(t, c, Of(views, c), Of(seen, c));
    }
  }

  ghost function Remembered(s: BranchState, d: string, p: Payload): BranchState {
    s.(decisions := s.decisions[d := p])
  }

  lemma RememberDecision(decisions: map<Id, Payload>, b: string, d: string, p: Payload, c: string, s: BranchState)
    requires DecisionsOf(decisions, c, s)
    ensures DecisionsOf(decisions[(b, d) := p], c, if c == b then Remembered(s, d, p) else s)
  {
  }

  lemma RememberTied(t: Tables, views: Views, b: string, d: string, p: Payload)
    requires Tied(t, views)
    ensures Tied(t.(decisions := t.decisions[(b, d) := p]), views[b := Remembered(Of(views, b), d, p)])
  {
    hide StepsOf, LeaseOf, InputsOf, DecisionsOf;
    var next := t.(decisions := t.decisions[(b, d) := p]);
    var seen := views[b := Remembered(Of(views, b), d, p)];
    forall c ensures BranchOf(next, c, Of(seen, c)) {
      assert BranchOf(t, c, Of(views, c));
      RememberDecision(t.decisions, b, d, p, c, Of(views, c));
      SameSteps(t, c, Of(views, c), Of(seen, c));
      SameLease(t, c, Of(views, c), Of(seen, c));
      SameInputs(t, c, Of(views, c), Of(seen, c));
    }
  }

  ghost function HeldBy(s: BranchState, h: Held): BranchState {
    s.(lease := Some(Lease(h.owner, h.token)), issued := h.token)
  }

  lemma HoldLease(leases: map<string, Held>, tokens: map<string, nat>, b: string, h: Held, c: string, s: BranchState)
    requires LeaseOf(leases, tokens, c, s)
    ensures LeaseOf(leases[b := h], tokens[b := h.token], c, if c == b then HeldBy(s, h) else s)
  {
  }

  lemma HoldTied(t: Tables, views: Views, b: string, h: Held)
    requires Tied(t, views)
    ensures Tied(t.(leases := t.leases[b := h], tokens := t.tokens[b := h.token]), views[b := HeldBy(Of(views, b), h)])
  {
    hide StepsOf, LeaseOf, InputsOf, DecisionsOf;
    var next := t.(leases := t.leases[b := h], tokens := t.tokens[b := h.token]);
    var seen := views[b := HeldBy(Of(views, b), h)];
    forall c ensures BranchOf(next, c, Of(seen, c)) {
      assert BranchOf(t, c, Of(views, c));
      HoldLease(t.leases, t.tokens, b, h, c, Of(views, c));
      SameSteps(t, c, Of(views, c), Of(seen, c));
      SameInputs(t, c, Of(views, c), Of(seen, c));
      SameDecisions(t, c, Of(views, c), Of(seen, c));
    }
  }

  ghost function Appended(s: BranchState, id: InputId, v: Value): BranchState {
    s.(inputs := s.inputs[id := Input(Pending, v)], order := s.order + [id])
  }

  function Inserted(t: Tables, b: string, id: InputId, v: Value): Tables {
    var n := if b in t.inputSequence then t.inputSequence[b] else 0;
    t.(inputs := t.inputs[(b, id) := InputRecord(id, Pending, v, n)], inputSequence := t.inputSequence[b := n + 1])
  }

  lemma InsertInput(t: Tables, b: string, id: InputId, v: Value, s: BranchState)
    requires InputsOf(t.inputs, t.inputSequence, b, s) && (b, id) !in t.inputs
    ensures InputsOf(Inserted(t, b, id, v).inputs, Inserted(t, b, id, v).inputSequence, b, Appended(s, id, v))
  {
  }

  lemma InsertElsewhere(t: Tables, b: string, id: InputId, v: Value, c: string, s: BranchState)
    requires InputsOf(t.inputs, t.inputSequence, c, s) && c != b
    ensures InputsOf(Inserted(t, b, id, v).inputs, Inserted(t, b, id, v).inputSequence, c, s)
  {
  }

  lemma InsertTied(t: Tables, views: Views, b: string, id: InputId, v: Value)
    requires Tied(t, views) && (b, id) !in t.inputs
    ensures Tied(Inserted(t, b, id, v), views[b := Appended(Of(views, b), id, v)])
  {
    hide StepsOf, LeaseOf, InputsOf, DecisionsOf;
    var next := Inserted(t, b, id, v);
    var seen := views[b := Appended(Of(views, b), id, v)];
    forall c ensures BranchOf(next, c, Of(seen, c)) {
      assert BranchOf(t, c, Of(views, c));
      if c == b { InsertInput(t, b, id, v, Of(views, c)); } else { InsertElsewhere(t, b, id, v, c, Of(views, c)); }
      SameSteps(t, c, Of(views, c), Of(seen, c));
      SameLease(t, c, Of(views, c), Of(seen, c));
      SameDecisions(t, c, Of(views, c), Of(seen, c));
    }
  }

  function Restated(inputs: map<Id, InputRecord>, b: string, id: InputId, status: InputStatus): map<Id, InputRecord>
    requires (b, id) in inputs
  {
    inputs[(b, id) := inputs[(b, id)].(status := status)]
  }

  lemma RestateInput(inputs: map<Id, InputRecord>, seqs: map<string, nat>, b: string, id: InputId, status: InputStatus,
                     c: string, s: BranchState)
    requires InputsOf(inputs, seqs, c, s) && (b, id) in inputs
    ensures c == b ==> id in s.inputs
    ensures InputsOf(Restated(inputs, b, id, status), seqs, c, if c == b then Ledger.SetStatus(s, id, status) else s)
  {
  }

  lemma StatusTied(t: Tables, views: Views, b: string, id: InputId, status: InputStatus)
    requires Tied(t, views) && (b, id) in t.inputs
    ensures id in Of(views, b).inputs
    ensures Tied(t.(inputs := Restated(t.inputs, b, id, status)), views[b := Ledger.SetStatus(Of(views, b), id, status)])
  {
    hide StepsOf, LeaseOf, InputsOf, DecisionsOf;
    assert BranchOf(t, b, Of(views, b));
    RestateInput(t.inputs, t.inputSequence, b, id, status, b, Of(views, b));
    var next := t.(inputs := Restated(t.inputs, b, id, status));
    var seen := views[b := Ledger.SetStatus(Of(views, b), id, status)];
    forall c ensures BranchOf(next, c, Of(seen, c)) {
      assert BranchOf(t, c, Of(views, c));
      RestateInput(t.inputs, t.inputSequence, b, id, status, c, Of(views, c));
      SameSteps(t, c, Of(views, c), Of(seen, c));
      SameLease(t, c, Of(views, c), Of(seen, c));
      SameDecisions(t, c, Of(views, c), Of(seen, c));
    }
  }

  ghost function Strip(records: seq<InputRecord>): seq<Listed> {
    seq(|records|, i requires 0 <= i < |records| => Listed(records[i].id, records[i].status, records[i].value))
  }

  /** The records of a branch from sequence number `n` on. */
  ghost function Later(inputs: map<Id, InputRecord>, b: string, n: nat): set<Id> {
    set id | id in inputs && id.0 == b && inputs[id].sequence >= n
  }

  lemma NextInLine(inputs: map<Id, InputRecord>, seqs: map<string, nat>, b: string, s: BranchState, n: nat)
    requires InputsOf(inputs, seqs, b, s) && Later(inputs, b, n) != {}
    ensures n < |s.order| && (b, s.order[n]) in Later(inputs, b, n)
    ensures forall id :: id in Later(inputs, b, n) ==> inputs[id].sequence >= inputs[(b, s.order[n])].sequence
    ensures forall id :: id in Later(inputs, b, n) && inputs[id].sequence <= inputs[(b, s.order[n])].sequence ==> id == (b, s.order[n])
    ensures Later(inputs, b, n) - {(b, s.order[n])} == Later(inputs, b, n + 1)
  {
    var any :| any in Later(inputs, b, n);
    assert any == (b, any.1);
    forall id | id in Later(inputs, b, n) && inputs[id].sequence == n ensures id == (b, s.order[n]) {
      assert id == (b, id.1);
    }
  }

  lemma StillInLine(inputs: map<Id, InputRecord>, seqs: map<string, nat>, b: string, s: BranchState, n: nat)
    requires InputsOf(inputs, seqs, b, s)
    ensures QueueOk(s)
    ensures n < |s.order| ==> Later(inputs, b, n) != {}
  {
    if n < |s.order| {
      assert (b, s.order[n]) in Later(inputs, b, n);
    }
  }

  /** The records of one branch in submission order. */
  method SortedRecords(rows: map<Id, InputRecord>, ghost seqs: map<string, nat>, b: string, ghost s: BranchState)
    returns (records: seq<InputRecord>)
    requires InputsOf(rows, seqs, b, s)
    ensures QueueOk(s) && Strip(records) == Ledger.ListInputs(s)
  {
    records := [];
    var todo := set id | id in rows && id.0 == b;
    while todo != {}
      invariant |records| <= |s.order|
      invariant todo == Later(rows, b, |records|)
      invariant forall j :: 0 <= j < |records| ==> records[j] == rows[(b, s.order[j])]
      decreases todo
    {
      NextInLine(rows, seqs, b, s, |records|);
      var first :| first in todo && forall other :: other in todo ==> rows[first].sequence <= rows[other].sequence;
      records := records + [rows[first]];
      todo := todo - {first};
    }
    StillInLine(rows, seqs, b, s, |records|);
    assert Strip(records) == Ledger.ListInputs(s);
  }

  // ---- judging a transition before writing it -------------------------------------------------

  ghost function Written(s: BranchState, completed: seq<(Key, Step)>): BranchState {
    if completed == [] then s else
    var n := |completed| - 1;
    Ledger.Put(Written(s, completed[..n]), completed[n].0, completed[n].1)
  }

  lemma WrittenLast(s: BranchState, completed: seq<(Key, Step)>, last: (Key, Step))
    ensures Written(s, completed + [last]) == Ledger.Put(Written(s, completed), last.0, last.1)
  {
    assert (completed + [last])[..|completed|] == completed;
  }

  /** What the original state says about effect `i`. */
  function Judgement(s: BranchState, e: Completion, seen: set<Key>): Result<Option<Step>, Error> {
    var step := Get(s, e.key);
    if e.key in seen then Failure(Invalid)
    else if step.status == Done then if step.value == e.value then Success(None) else Failure(Conflict)
    else if step.status == Wanted(e) then Success(Some(Step(Done, e.value, step.version + 1)))
    else Failure(Conflict)
  }

  function PutIf(s: BranchState, k: Key, step: Option<Step>): BranchState {
    if step.None? then s else Ledger.Put(s, k, step.value)
  }

  /** Judging effect `i` against the original state gives the verdict of the sequential form. */
  lemma JudgeNext(s: BranchState, effects: seq<Completion>, i: nat)
    requires i < |effects| && CompleteEach(s, effects[..i]).Success?
    ensures EffectKeys(effects[..i + 1]) == EffectKeys(effects[..i]) + {effects[i].key}
    ensures var before := CompleteEach(s, effects[..i]).value;
      var judged := Judgement(s, effects[i], EffectKeys(effects[..i]));
      && (judged.Failure? ==> CompleteEach(s, effects) == Failure(judged.error))
      && (judged.Success? ==> CompleteEach(s, effects[..i + 1]) == Success(PutIf(before, effects[i].key, judged.value)))
  {
    CompleteNext(s, effects, i);
    CompleteEachFrame(s, effects[..i]);
    if Judgement(s, effects[i], EffectKeys(effects[..i])).Failure? { FirstRefusalStands(s, effects, i + 1); }
  }

  lemma NothingJudged(s: BranchState, effects: seq<Completion>)
    ensures CompleteEach(s, effects[..0]) == Success(s) && Written(s, []) == s && EffectKeys(effects[..0]) == {}
  {
  }

  class MemorySteps {
    var entries: map<Id, Step>
    var leases: map<string, Held>
    var tokens: map<string, nat>
    var inputs: map<Id, InputRecord>
    var inputSequence: map<string, nat>
    var decisions: map<Id, Payload>

    /** What each branch means; `Valid` ties it to the tables above. */
    ghost var views: Views

    ghost predicate Valid()
      reads this
    {
      Tied(Now(), views)
    }

    ghost function Now(): Tables
      reads this
    {
      Tables(entries, leases, tokens, inputs, inputSequence, decisions)
    }

    ghost function View(b: string): BranchState
      reads this
    {
      Of(views, b)
    }

    constructor ()
      ensures Valid()
      ensures forall b :: View(b) == EMPTY
    {
      entries, leases, tokens, inputs, inputSequence, decisions := map[], map[], map[], map[], map[], map[];
      views := map[];
    }

    /** Whether the clock says the lease on `b` has run out. */
    predicate Expired(b: string, now: int)
      reads this
    {
      b in leases && leases[b].deadline <= now
    }

    /** Steps and tokens are where the tables have them. */
    lemma Stored(b: string)
      requires Valid()
      ensures forall k :: Get(View(b), k) == if (b, k) in entries then entries[(b, k)] else NO_STEP
      ensures View(b).issued == if b in tokens then tokens[b] else 0
    {
      assert BranchOf(Now(), b, View(b));
    }

    function Entry(b: string, k: Key): (step: Step)
      requires Valid()
      reads this
      ensures step == Get(View(b), k)
    {
      assert BranchOf(Now(), b, View(b));
      if (b, k) in entries then entries[(b, k)] else NO_STEP
    }

    predicate Fences(b: string, token: int)
      requires Valid()
      reads this
      ensures Fences(b, token) <==> Stale(View(b), token)
    {
      assert BranchOf(Now(), b, View(b));
      token != 0 && token < if b in tokens then tokens[b] else 0
    }

    method Read(b: string, k: Key) returns (step: Step)
      requires Valid()
      ensures step == Get(View(b), k)
    {
      step := Entry(b, k);
    }

    method Put(b: string, k: Key, step: Step)
      requires Valid()
      modifies this`entries, this`views
      ensures Valid()
      ensures View(b) == Ledger.Put(old(View(b)), k, step)
      ensures forall c :: c != b ==> View(c) == old(View(c))
    {
      ghost var next := Ledger.Put(View(b), k, step);
      hide BranchOf;
      PutTied(Now(), views, b, k, step);
      entries, views := entries[(b, k) := step], views[b := next];
    }

    method Start(b: string, k: Key, token: int) returns (r: Result<bool, Error>)
      requires Valid()
      modifies this`entries, this`views
      ensures Valid()
      ensures View(b) == Ledger.Start(old(View(b)), k, token).0 && r == Ledger.Start(old(View(b)), k, token).1
      ensures forall c :: c != b ==> View(c) == old(View(c))
    {
      if Fences(b, token) { return Failure(Fenced); }
      var step := Entry(b, k);
      if step.status !in {Absent, Ready} { return Success(false); }
      Put(b, k, Step(Running, Null, step.version + 1));
      r := Success(true);
    }

    method FinishEffect(b: string, k: Key, v: Value, token: int) returns (r: Result<(), Error>)
      requires Valid()
      modifies this`entries, this`views
      ensures Valid()
      ensures View(b) == Ledger.FinishEffect(old(View(b)), k, v, token).0
      ensures r == Ledger.FinishEffect(old(View(b)), k, v, token).1
      ensures forall c :: c != b ==> View(c) == old(View(c))
    {
      hide BranchOf;
      if Fences(b, token) { return Failure(Fenced); }
      var step := Entry(b, k);
      if step.status == Done {
        return if step.value == v then Success(()) else Failure(Conflict);
      }
      if step.status != Running { return Failure(Conflict); }
      Put(b, k, Step(Done, v, step.version + 1));
      r := Success(());
    }

    method Remember(b: string, decisionId: string, payload: Payload)
      requires Valid()
      modifies this`decisions, this`views
      ensures Valid()
      ensures View(b) == Remembered(old(View(b)), decisionId, payload)
      ensures forall c :: c != b ==> View(c) == old(View(c))
    {
      ghost var next := Remembered(View(b), decisionId, payload);
      hide BranchOf;
      RememberTied(Now(), views, b, decisionId, payload);
      decisions, views := decisions[(b, decisionId) := payload], views[b := next];
    }

    function Decision(b: string, d: string): (r: Option<Payload>)
      requires Valid()
      reads this
      ensures r == if d in View(b).decisions then Some(View(b).decisions[d]) else None
    {
      assert BranchOf(Now(), b, View(b));
      if (b, d) in decisions then Some(decisions[(b, d)]) else None
    }

    method ResolveEffect(b: string, k: Key, resolution: Resolution, workersStopped: bool, token: int)
      returns (r: Result<Step, Error>)
      requires Valid()
      modifies this`entries, this`decisions, this`views
      ensures Valid()
      ensures View(b) == Resolve(old(View(b)), k, resolution, workersStopped, token).0
      ensures r == Resolve(old(View(b)), k, resolution, workersStopped, token).1
      ensures forall c :: c != b ==> View(c) == old(View(c))
    {
      if Fences(b, token) { return Failure(Fenced); }
      var validated := ResolutionPayload(k, resolution, workersStopped);
      if validated.Failure? { return Failure(validated.error); }
      var payload := validated.value;
      hide BranchOf;
      var previous := Decision(b, resolution.decisionId);
      if previous.Some? {
        if previous.value != payload { return Failure(Conflict); }
        return Success(Entry(b, k));
      }
      var step := Entry(b, k);
      if step.status != Running || step.version != resolution.expectedVersion { return Failure(Conflict); }
      var updated := if resolution.action == Complete then Step(Done, resolution.value, step.version + 1)
                     else Step(Ready, Null, step.version + 1);
      Put(b, k, updated);
      Remember(b, resolution.decisionId, payload);
      r := Success(updated);
    }

    method WriteControl(b: string, k: Key, v: Value, token: int) returns (r: Result<(), Error>)
      requires Valid()
      modifies this`entries, this`views
      ensures Valid()
      ensures View(b) == Ledger.WriteControl(old(View(b)), k, v, token).0
      ensures r == Ledger.WriteControl(old(View(b)), k, v, token).1
      ensures forall c :: c != b ==> View(c) == old(View(c))
    {
      hide BranchOf;
      if Fences(b, token) { return Failure(Fenced); }
      Put(b, k, Step(Done, v, Entry(b, k).version + 1));
      r := Success(());
    }

    method Forget(b: string, k: Key, token: int) returns (r: Result<(), Error>)
      requires Valid()
      modifies this`entries, this`views
      ensures Valid()
      ensures View(b) == Ledger.Forget(old(View(b)), k, token).0
      ensures r == Ledger.Forget(old(View(b)), k, token).1
      ensures forall c :: c != b ==> View(c) == old(View(c))
    {
      hide BranchOf;
      if Fences(b, token) { return Failure(Fenced); }
      var step := Entry(b, k);
      if step.status == Running {
        Put(b, k, Step(Absent, Null, step.version + 1));
      }
      r := Success(());
    }

    /** Write the lease of `b`, whose token becomes the last one issued. */
    method Hold(b: string, held: Held)
      requires Valid()
      modifies this`leases, this`tokens, this`views
      ensures Valid()
      ensures leases == old(leases)[b := held]
      ensures View(b) == HeldBy(old(View(b)), held)
      ensures forall c :: c != b ==> View(c) == old(View(c))
    {
      ghost var next := HeldBy(View(b), held);
      hide BranchOf;
      HoldTied(Now(), views, b, held);
      leases, tokens, views := leases[b := held], tokens[b := held.token], views[b := next];
    }

    method Acquire(b: string, owner: Owner, ttl: int, now: int) returns (token: nat)
      requires Valid()
      modifies this`leases, this`tokens, this`views
      ensures Valid()
      ensures View(b) == Ledger.Acquire(old(View(b)), owner, old(Expired(b, now))).0
      ensures token == Ledger.Acquire(old(View(b)), owner, old(Expired(b, now))).1
      ensures token != 0 ==> b in leases && leases[b].deadline == now + ttl
      ensures forall c :: c != b ==> View(c) == old(View(c))
    {
      assert BranchOf(Now(), b, View(b));
      if b in leases && leases[b].owner == owner {
        token := leases[b].token;
      } else if b in leases && leases[b].deadline > now {
        return 0;
      } else {
        token := (if b in tokens then tokens[b] else 0) + 1;
      }
      Hold(b, Held(owner, token, now + ttl));
    }

    method Release(b: string, owner: Owner, now: int)
      requires Valid()
      modifies this`leases, this`tokens, this`views
      ensures Valid()
      ensures View(b) == Ledger.Release(old(View(b)), owner)
      ensures old(b in leases && leases[b].owner == owner) ==> forall later :: now <= later ==> Expired(b, later)
      ensures forall c :: c != b ==> View(c) == old(View(c))
    {
      assert BranchOf(Now(), b, View(b));
      if b in leases && leases[b].owner == owner {
        Hold(b, Held("", leases[b].token, now));
      }
    }

    /** Add an input that is not there yet under the branch's next sequence number. */
    method Insert(b: string, id: InputId, v: Value, sequence: nat)
      requires Valid() && (b, id) !in inputs
      requires sequence == if b in inputSequence then inputSequence[b] else 0
      modifies this`inputs, this`inputSequence, this`views
      ensures Valid()
      ensures View(b) == Appended(old(View(b)), id, v)
      ensures forall c :: c != b ==> View(c) == old(View(c))
    {
      ghost var next := Appended(View(b), id, v);
      hide BranchOf;
      InsertTied(Now(), views, b, id, v);
      inputs, inputSequence, views := inputs[(b, id) := InputRecord(id, Pending, v, sequence)], inputSequence[b := sequence + 1], views[b := next];
    }

    method EnqueueInput(b: string, id: InputId, v: Value) returns (added: bool)
      requires Valid()
      modifies this`inputs, this`inputSequence, this`views
      ensures Valid()
      ensures View(b) == Enqueue(old(View(b)), id, v).0 && added == Enqueue(old(View(b)), id, v).1
      ensures forall c :: c != b ==> View(c) == old(View(c))
    {
      hide BranchOf;
      if StatusOf(b, id).Some? { return false; }
      var sequence := if b in inputSequence then inputSequence[b] else 0;
      Insert(b, id, v, sequence);
      added := true;
    }

    /** The status of an input, if the branch has it. */
    function StatusOf(b: string, id: InputId): (r: Option<InputStatus>)
      requires Valid()
      reads this
      ensures r.Some? <==> id in View(b).inputs
      ensures r.Some? ==> (b, id) in inputs && r.value == View(b).inputs[id].status
    {
      assert BranchOf(Now(), b, View(b));
      if (b, id) in inputs then Some(inputs[(b, id)].status) else None
    }

    method SetStatus(b: string, id: InputId, status: InputStatus)
      requires Valid() && (b, id) in inputs
      modifies this`inputs, this`views
      ensures Valid()
      ensures id in old(View(b)).inputs && View(b) == Ledger.SetStatus(old(View(b)), id, status)
      ensures inputs.Keys == old(inputs.Keys)
      ensures forall c :: c != b ==> View(c) == old(View(c))
    {
      hide BranchOf;
      StatusTied(Now(), views, b, id, status);
      ghost var next := Ledger.SetStatus(View(b), id, status);
      inputs, views := Restated(inputs, b, id, status), views[b := next];
    }

    method ClaimInput(b: string, id: InputId, token: int) returns (r: Result<(), Error>)
      requires Valid()
      modifies this`inputs, this`views
      ensures Valid()
      ensures View(b) == Ledger.ClaimInput(old(View(b)), id, token).0
      ensures r == Ledger.ClaimInput(old(View(b)), id, token).1
      ensures forall c :: c != b ==> View(c) == old(View(c))
    {
      if Fences(b, token) { return Failure(Fenced); }
      hide BranchOf;
      var status := StatusOf(b, id);
      if status.Some? && status.value !in {Admitted, Discarded} {
        SetStatus(b, id, Claimed);
      }
      r := Success(());
    }

    method AdmitInputs(b: string, ids: seq<InputId>, token: int) returns (r: Result<(), Error>)
      requires Valid()
      modifies this`inputs, this`views
      ensures Valid()
      ensures View(b) == Ledger.AdmitInputs(old(View(b)), ids, token).0
      ensures r == Ledger.AdmitInputs(old(View(b)), ids, token).1
      ensures forall c :: c != b ==> View(c) == old(View(c))
    {
      hide BranchOf;
      if Fences(b, token) { return Failure(Fenced); }
      for i := 0 to |ids|
        invariant Valid()
        invariant View(b) == AdmitEach(old(View(b)), ids[..i])
        invariant forall c :: c != b ==> View(c) == old(View(c))
      {
        assert ids[..i + 1][..i] == ids[..i];
        var status := StatusOf(b, ids[i]);
        if status.Some? && status.value != Discarded {
          SetStatus(b, ids[i], Admitted);
        }
      }
      assert ids[..|ids|] == ids;
      r := Success(());
    }

    method DiscardInputs(b: string, ids: seq<InputId>, token: int) returns (r: Result<(), Error>)
      requires Valid()
      modifies this`inputs, this`views
      ensures Valid()
      ensures View(b) == Ledger.DiscardInputs(old(View(b)), ids, token).0
      ensures r == Ledger.DiscardInputs(old(View(b)), ids, token).1
      ensures forall c :: c != b ==> View(c) == old(View(c))
    {
      hide BranchOf;
      if Fences(b, token) { return Failure(Fenced); }
      for i := 0 to |ids|
        invariant Valid()
        invariant View(b) == DiscardEach(old(View(b)), ids[..i])
        invariant forall c :: c != b ==> View(c) == old(View(c))
      {
        assert ids[..i + 1][..i] == ids[..i];
        if StatusOf(b, ids[i]).Some? {
          SetStatus(b, ids[i], Discarded);
        }
      }
      assert ids[..|ids|] == ids;
      r := Success(());
    }

    method ListInputs(b: string) returns (records: seq<InputRecord>)
      requires Valid()
      ensures QueueOk(View(b)) && Strip(records) == Ledger.ListInputs(View(b))
    {
      assert BranchOf(Now(), b, View(b));
      records := SortedRecords(inputs, inputSequence, b, View(b));
    }

    /** The first pass of a transition: find a reason to refuse it, or the steps it will write. */
    method Judge(b: string, effects: seq<Completion>) returns (r: Result<seq<(Key, Step)>, Error>, seen: set<Key>)
      requires Valid()
      ensures r.Failure? ==> CompleteEach(View(b), effects) == Failure(r.error)
      ensures r.Success? ==> CompleteEach(View(b), effects) == Success(Written(View(b), r.value))
      ensures r.Success? ==> seen == EffectKeys(effects)
    {
      NothingJudged(View(b), effects);
      hide BranchOf, CompleteEach, EffectKeys, Written, Tied, MemorySteps.View;
      var completed: seq<(Key, Step)> := [];
      seen := {};
      for i := 0 to |effects|
        invariant CompleteEach(View(b), effects[..i]) == Success(Written(View(b), completed))
        invariant seen == EffectKeys(effects[..i])
      {
        var effect := effects[i];
        JudgeNext(View(b), effects, i);
        if effect.key in seen { return Failure(Invalid), seen; }
        seen := seen + {effect.key};
        var record := Entry(b, effect.key);
        if record.status == Done {
          if record.value != effect.value { return Failure(Conflict), seen; }
        } else if record.status != Wanted(effect) {
          return Failure(Conflict), seen;
        } else {
          var next := (effect.key, Step(Done, effect.value, record.version + 1));
          WrittenLast(View(b), completed, next);
          completed := completed + [next];
        }
      }
      assert effects[..|effects|] == effects;
      r := Success(completed);
    }

    method WriteAll(b: string, controls: map<Key, Value>)
      requires Valid()
      modifies this`entries, this`views
      ensures Valid()
      ensures View(b) == WriteEach(old(View(b)), controls)
      ensures forall c :: c != b ==> View(c) == old(View(c))
    {
      hide BranchOf;
      ghost var s := View(b);
      var todo := controls.Keys;
      ghost var done: set<Key> := {};
      WriteNone(s, controls);
      while todo != {}
        invariant Valid()
        invariant todo + done == controls.Keys && todo !! done
        invariant View(b) == WriteEach(s, Restrict(controls, done))
        invariant forall c :: c != b ==> View(c) == old(View(c))
        decreases todo
      {
        var k :| k in todo;
        WriteOneMore(s, done, k, controls);
        var _ := WriteControl(b, k, controls[k], 0);
        todo, done := todo - {k}, done + {k};
      }
      assert Restrict(controls, done) == controls;
    }

    method EnqueueAll(b: string, more: seq<(InputId, Value)>) returns (inserted: set<InputId>)
      requires Valid()
      modifies this`inputs, this`inputSequence, this`views
      ensures Valid()
      ensures (View(b), inserted) == EnqueueEach(old(View(b)), more)
      ensures forall c :: c != b ==> View(c) == old(View(c))
    {
      hide BranchOf;
      inserted := {};
      for i := 0 to |more|
        invariant Valid()
        invariant (View(b), inserted) == EnqueueEach(old(View(b)), more[..i])
        invariant forall c :: c != b ==> View(c) == old(View(c))
      {
        assert more[..i + 1][..i] == more[..i];
        var added := EnqueueInput(b, more[i].0, more[i].1);
        if added { inserted := inserted + {more[i].0}; }
      }
      assert more[..|more|] == more;
    }

    method PutAll(b: string, completed: seq<(Key, Step)>)
      requires Valid()
      modifies this`entries, this`views
      ensures Valid()
      ensures View(b) == Written(old(View(b)), completed)
      ensures forall c :: c != b ==> View(c) == old(View(c))
    {
      hide BranchOf;
      for i := 0 to |completed|
        invariant Valid()
        invariant View(b) == Written(old(View(b)), completed[..i])
        invariant forall c :: c != b ==> View(c) == old(View(c))
      {
        assert completed[..i + 1][..i] == completed[..i];
        Put(b, completed[i].0, completed[i].1);
      }
      assert completed[..|completed|] == completed;
    }

    /** Judge every effect against the state as it is, and only then write. */
    method CommitTransition(b: string, transition: Transition, token: int) returns (r: Result<set<InputId>, Error>)
      requires Valid()
      modifies this`entries, this`inputs, this`inputSequence, this`views
      ensures Valid()
      ensures View(b) == Commit(old(View(b)), transition, token).0
      ensures r == Commit(old(View(b)), transition, token).1
      ensures forall c :: c != b ==> View(c) == old(View(c))
    {
      hide BranchOf;
      if Fences(b, token) { return Failure(Fenced); }
      var judged, seen := Judge(b, transition.effects);
      if judged.Failure? { return Failure(judged.error); }
      if seen * transition.controls.Keys != {} { return Failure(Invalid); }
      PutAll(b, judged.value);
      WriteAll(b, transition.controls);
      var inserted := EnqueueAll(b, transition.inputs);
      r := Success(inserted);
    }
  }
}
