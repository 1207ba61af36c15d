/** The PostgreSQL step ledger: every method is one transaction over rows, proved against the same
    meaning of a branch as the in-memory ledger. */
module PostgresStore {
  import opened Wrappers
  import opened Values
  import opened Ledger
  import opened Transitions
  import opened Views

  datatype StepRow = StepRow(status: Status, value: Value, version: nat)
  datatype DecisionRow = DecisionRow(key: Key, payload: Payload)
  datatype LeaseRow = LeaseRow(owner: Owner, token: nat, expiresAt: int)
  datatype InputRow = InputRow(sequence: nat, status: InputStatus, value: Value)

  ghost function AsStep(row: StepRow): Step {
    Step(row.status, row.value, row.version)
  }

  // ---- how the rows and the branches hang together --------------------------------------------

  predicate Clean(row: StepRow) {
    row.status != Done ==> row.value == Null
  }

  ghost predicate StepsOf(rows: map<Id, StepRow>, b: string, s: BranchState) {
    && (forall k :: (b, k) in rows <==> k in s.entries)
    && (forall k :: (b, k) in rows ==> AsStep(rows[(b, k)]) == s.entries[k] && Clean(rows[(b, k)]))
  }

  ghost predicate DecisionsOf(rows: map<Id, DecisionRow>, b: string, s: BranchState) {
    && (forall d :: (b, d) in rows <==> d in s.decisions)
    && (forall d :: (b, d) in rows ==> rows[(b, d)] == DecisionRow(s.decisions[d].key, s.decisions[d]))
    && (forall d :: d in s.decisions ==> s.decisions[d].key in s.entries)
  }

  ghost predicate LeaseOf(rows: map<string, LeaseRow>, b: string, s: BranchState) {
    && s.lease == (if b in rows then Some(Lease(rows[b].owner, rows[b].token)) else None)
    && s.issued == (if b in rows then rows[b].token else 0)
  }

  /** The rows of a branch are its queue, under rising but not consecutive sequence numbers. */
  ghost predicate InputsOf(rows: map<Id, InputRow>, serial: nat, b: string, s: BranchState) {
    && (forall id :: (b, id) in rows <==> id in s.inputs)
    && (forall id :: (b, id) in rows ==>
          Input(rows[(b, id)].status, rows[(b, id)].value) == s.inputs[id] && rows[(b, id)].sequence < serial)
    && (forall id :: id in s.inputs <==> id in s.order)
    && (forall i, j :: 0 <= i < j < |s.order| ==> rows[(b, s.order[i])].sequence < rows[(b, s.order[j])].sequence)
  }

  /** The tables of the database at one moment. */
  datatype Tables = Tables(
    steps: map<Id, StepRow>,
    decisions: map<Id, DecisionRow>,
    leases: map<string, LeaseRow>,
    inputs: map<Id, InputRow>,
    serial: nat)

  ghost predicate BranchOf(t: Tables, b: string, s: BranchState) {
    && StepsOf(t.steps, b, s)
    && DecisionsOf(t.decisions, b, s)
    && LeaseOf(t.leases, b, s)
    && InputsOf(t.inputs, t.serial, b, s)
  }

  ghost predicate Tied(t: Tables, views: Views) {
    forall b :: BranchOf(t, b, Of(views, b))
  }

  // Each table of a branch depends only on its own part of the branch's state.

  lemma SameSteps(t: Tables, b: string, s: BranchState, r: BranchState)
    requires StepsOf(t.steps, b, s) && r.entries == s.entries
    ensures StepsOf(t.steps, b, r)
  {
  }

  lemma SameDecisions(t: Tables, b: string, s: BranchState, r: BranchState)
    requires DecisionsOf(t.decisions, b, s) && r.decisions == s.decisions && s.entries.Keys <= r.entries.Keys
    ensures DecisionsOf(t.decisions, b, r)
  {
  }

  lemma SameLease(t: Tables, b: string, s: BranchState, r: BranchState)
    requires LeaseOf(t.leases, b, s) && r.lease == s.lease && r.issued == s.issued
    ensures LeaseOf(t.leases, b, r)
  {
  }

  lemma SameInputs(t: Tables, b: string, s: BranchState, r: BranchState)
    requires InputsOf(t.inputs, t.serial, b, s) && r.inputs == s.inputs && r.order == s.order
    ensures InputsOf(t.inputs, t.serial, b, r)
  {
  }

  // A write to one table changes the branch it belongs to as the ledger says, and no other branch.

  lemma PutSteps(rows: map<Id, StepRow>, b: string, k: Key, row: StepRow, c: string, s: BranchState)
    requires StepsOf(rows, c, s) && Clean(row)
    ensures StepsOf(rows[(b, k) := row], c, if c == b then Ledger.Put(s, k, AsStep(row)) else s)
  {
  }

  lemma PutTied(t: Tables, views: Views, b: string, k: Key, row: StepRow)
    requires Tied(t, views) && Clean(row)
    ensures Tied(t.(steps := t.steps[(b, k) := row]), views[b := Ledger.Put(Of(views, b), k, AsStep(row))])
  {
    hide StepsOf, LeaseOf, InputsOf, DecisionsOf;
    var next := t.(steps := t.steps[(b, k) := row]);
    var seen := views[b := Ledger.Put(Of(views, b), k, AsStep(row))];
    forall c ensures BranchOf(next, c, Of(seen, c)) {
      assert BranchOf(t, c, Of(views, c));
      PutSteps(t.steps, b, k, row, c, Of(views, c));
      SameLease(t, c, Of(views, c), Of(seen, c));
      SameInputs(t, c, Of(views, c), Of(seen, c));
      SameDecisions(t, c, Of(views, c), Of(seen, c));
    }
  }

  ghost function Decided(s: BranchState, d: string, p: Payload): BranchState {
    s.(decisions := s.decisions[d := p])
  }

  lemma DecideRow(rows: map<Id, DecisionRow>, b: string, d: string, p: Payload, c: string, s: BranchState)
    requires DecisionsOf(rows, c, s) && (c == b ==> p.key in s.entries)
    ensures DecisionsOf(rows[(b, d) := DecisionRow(p.key, p)], c, if c == b then Decided(s, d, p) else s)
  {
  }

  lemma DecideTied(t: Tables, views: Views, b: string, d: string, p: Payload)
    requires Tied(t, views) && p.key in Of(views, b).entries
    ensures Tied(t.(decisions := t.decisions[(b, d) := DecisionRow(p.key, p)]), views[b := Decided(Of(views, b), d, p)])
  {
    hide StepsOf, LeaseOf, InputsOf, DecisionsOf;
    var next := t.(decisions := t.decisions[(b, d) := DecisionRow(p.key, p)]);
    var seen := views[b := Decided(Of(views, b), d, p)];
    forall c ensures BranchOf(next, c, Of(seen, c)) {
      assert BranchOf(t, c, Of(views, c));
      DecideRow(t.decisions, b, d, p, c, Of(views, c));
      SameSteps(t, c, Of(views, c), Of(seen, c));
      SameLease(t, c, Of(views, c), Of(seen, c));
      SameInputs(t, c, Of(views, c), Of(seen, c));
    }
  }

  ghost function HeldBy(s: BranchState, row: LeaseRow): BranchState {
    s.(lease := Some(Lease(row.owner, row.token)), issued := row.token)
  }

  lemma HoldTied(t: Tables, views: Views, b: string, row: LeaseRow)
    requires Tied(t, views)
    ensures Tied(t.(leases := t.leases[b := row]), views[b := HeldBy(Of(views, b), row)])
  {
    hide StepsOf, InputsOf, DecisionsOf;
    var next := t.(leases := t.leases[b := row]);
    var seen := views[b := HeldBy(Of(views, b), row)];
    forall c ensures BranchOf(next, c, Of(seen, c)) {
      assert BranchOf(t, c, Of(views, c));
      SameSteps(t, c, Of(views, c), Of(seen, c));
      SameInputs(t, c, Of(views, c), Of(seen, c));
      SameDecisions(t, c, Of(views, c), Of(seen, c));
    }
  }

  ghost function Appended(s: BranchState, id: InputId, v: Value): BranchState {
    s.(inputs := s.inputs[id := Input(Pending, v)], order := s.order + [id])
  }

  lemma InsertRow(rows: map<Id, InputRow>, serial: nat, b: string, s: BranchState, id: InputId, v: Value)
    requires InputsOf(rows, serial, b, s) && (b, id) !in rows
    ensures InputsOf(rows[(b, id) := InputRow(serial, Pending, v)], serial + 1, b, Appended(s, id, v))
  {
    var next := rows[(b, id) := InputRow(serial, Pending, v)];
    var r := Appended(s, id, v);
    forall i, j | 0 <= i < j < |r.order| ensures next[(b, r.order[i])].sequence < next[(b, r.order[j])].sequence {
      assert r.order[i] == s.order[i] && r.order[i] in s.inputs;
      if j < |s.order| { assert r.order[j] == s.order[j] && r.order[j] in s.inputs; }
    }
  }

  lemma InsertElsewhere(rows: map<Id, InputRow>, serial: nat, b: string, id: InputId, v: Value, c: string, s: BranchState)
    requires InputsOf(rows, serial, c, s) && c != b
    ensures InputsOf(rows[(b, id) := InputRow(serial, Pending, v)], serial + 1, c, s)
  {
    forall i | 0 <= i < |s.order| ensures s.order[i] in s.inputs { }
  }

  lemma InsertTied(t: Tables, views: Views, b: string, id: InputId, v: Value)
    requires Tied(t, views) && (b, id) !in t.inputs
    ensures Tied(t.(inputs := t.inputs[(b, id) := InputRow(t.serial, Pending, v)], serial := t.serial + 1),
                 views[b := Appended(Of(views, b), id, v)])
  {
    hide StepsOf, LeaseOf, InputsOf, DecisionsOf;
    var next := t.(inputs := t.inputs[(b, id) := InputRow(t.serial, Pending, v)], serial := t.serial + 1);
    var seen := views[b := Appended(Of(views, b), id, v)];
    forall c ensures BranchOf(next, c, Of(seen, c)) {
      assert BranchOf(t, c, Of(views, c));
      if c == b { InsertRow(t.inputs, t.serial, b, Of(views, c), id, v); }
      else { InsertElsewhere(t.inputs, t.serial, b, id, v, c, Of(views, c)); }
      SameSteps(t, c, Of(views, c), Of(seen, c));
      SameLease(t, c, Of(views, c), Of(seen, c));
      SameDecisions(t, c, Of(views, c), Of(seen, c));
    }
  }

  lemma SkipSerial(rows: map<Id, InputRow>, serial: nat, c: string, s: BranchState)
    requires InputsOf(rows, serial, c, s)
    ensures InputsOf(rows, serial + 1, c, s)
  {
  }

  lemma SerialTied(t: Tables, views: Views)
    requires Tied(t, views)
    ensures Tied(t.(serial := t.serial + 1), views)
  {
    hide StepsOf, LeaseOf, InputsOf, DecisionsOf;
    forall c ensures BranchOf(t.(serial := t.serial + 1), c, Of(views, c)) {
      assert BranchOf(t, c, Of(views, c));
      SkipSerial(t.inputs, t.serial, c, Of(views, c));
    }
  }

  function Restated(rows: map<Id, InputRow>, b: string, id: InputId, status: InputStatus): map<Id, InputRow>
    requires (b, id) in rows
  {
    rows[(b, id) := rows[(b, id)].(status := status)]
  }

  lemma RestateRow(rows: map<Id, InputRow>, serial: nat, b: string, id: InputId, status: InputStatus, c: string, s: BranchState)
    requires InputsOf(rows, serial, c, s) && (b, id) in rows
    ensures c == b ==> id in s.inputs
    ensures InputsOf(Restated(rows, b, id, status), serial, c, if c == b then Ledger.SetStatus(s, id, status) else s)
  {
    forall i | 0 <= i < |s.order| ensures s.order[i] in s.inputs { }
  }

  lemma StatusTied(t: Tables, views: Views, b: string, id: InputId, status: InputStatus)
    requires Tied(t, views) && (b, id) in t.inputs
    ensures id in Of(views, b).inputs
    ensures Tied(t.(inputs := Restated(t.inputs, b, id, status)), views[b := Ledger.SetStatus(Of(views, b), id, status)])
  {
    hide StepsOf, LeaseOf, InputsOf, DecisionsOf;
    assert BranchOf(t, b, Of(views, b));
    RestateRow(t.inputs, t.serial, b, id, status, b, Of(views, b));
    var next := t.(inputs := Restated(t.inputs, b, id, status));
    var seen := views[b := Ledger.SetStatus(Of(views, b), id, status)];
    forall c ensures BranchOf(next, c, Of(seen, c)) {
      assert BranchOf(t, c, Of(views, c));
      RestateRow(t.inputs, t.serial, b, id, status, c, Of(views, c));
      SameSteps(t, c, Of(views, c), Of(seen, c));
      SameLease(t, c, Of(views, c), Of(seen, c));
      SameDecisions(t, c, Of(views, c), Of(seen, c));
    }
  }

  // ---- listing --------------------------------------------------------------------------------

  ghost function Strip(rows: map<Id, InputRow>, b: string, ids: seq<InputId>): seq<Listed>
    requires forall i :: 0 <= i < |ids| ==> (b, ids[i]) in rows
  {
    seq(|ids|, i requires 0 <= i < |ids| => Listed(ids[i], rows[(b, ids[i])].status, rows[(b, ids[i])].value))
  }

  /** The ids of a branch from place `n` of its queue on. */
  ghost function Later(s: BranchState, n: nat): set<InputId> {
    set i | n <= i < |s.order| :: s.order[i]
  }

  lemma AllRows(rows: map<Id, InputRow>, serial: nat, b: string, s: BranchState, ids: set<InputId>)
    requires InputsOf(rows, serial, b, s) && ids == set id | id in rows && id.0 == b :: id.1
    ensures ids == Later(s, 0)
  {
    forall id ensures id in ids <==> id in s.order {
      if id in s.order { assert (b, id) in rows && (b, id).0 == b && (b, id).1 == id; }
      if id in ids { assert (b, id) in rows; }
    }
  }

  lemma NextInLine(rows: map<Id, InputRow>, serial: nat, b: string, s: BranchState, n: nat)
    requires InputsOf(rows, serial, b, s) && Later(s, n) != {}
    ensures n < |s.order| && s.order[n] in Later(s, n)
    ensures forall id :: id in Later(s, n) ==> (b, id) in rows && rows[(b, s.order[n])].sequence <= rows[(b, id)].sequence
    ensures forall id :: id in Later(s, n) && rows[(b, id)].sequence <= rows[(b, s.order[n])].sequence ==> id == s.order[n]
    ensures Later(s, n) - {s.order[n]} == Later(s, n + 1)
  {
    forall id | id in Later(s, n)
      ensures (b, id) in rows && rows[(b, s.order[n])].sequence <= rows[(b, id)].sequence
      ensures rows[(b, id)].sequence <= rows[(b, s.order[n])].sequence ==> id == s.order[n]
    {
      var i :| n <= i < |s.order| && s.order[i] == id;
    }
  }

  lemma StillInLine(s: BranchState, n: nat)
    ensures n < |s.order| ==> Later(s, n) != {}
  {
    if n < |s.order| { assert s.order[n] in Later(s, n); }
  }

  /** The ids of one branch ordered by sequence number. */
  method SortedIds(rows: map<Id, InputRow>, ghost serial: nat, b: string, ghost s: BranchState) returns (ids: seq<InputId>)
    requires InputsOf(rows, serial, b, s)
    ensures ids == s.order
  {
    ids := [];
    var todo := set id | id in rows && id.0 == b :: id.1;
    AllRows(rows, serial, b, s, todo);
    ghost var n := 0;
    while todo != {}
      invariant n <= |s.order| && ids == s.order[..n] && todo == Later(s, n)
      decreases |s.order| - n
    {
      NextInLine(rows, serial, b, s, n);
      var first := FirstOf(rows, b, todo, s.order[n]);
      ids := ids + [first];
      todo := todo - {first};
      n := n + 1;
    }
    StillInLine(s, n);
  }

  /** The row of `todo` with the least sequence number, which is `least`. */
  method FirstOf(rows: map<Id, InputRow>, b: string, todo: set<InputId>, ghost least: InputId) returns (first: InputId)
    requires least in todo && forall id :: id in todo ==> (b, id) in rows
    requires forall id :: id in todo ==> rows[(b, least)].sequence <= rows[(b, id)].sequence
    requires forall id :: id in todo && rows[(b, id)].sequence <= rows[(b, least)].sequence ==> id == least
    ensures first == least
  {
    first :| first in todo && forall other :: other in todo ==> rows[(b, first)].sequence <= rows[(b, other)].sequence;
  }

  lemma QueueIsOk(rows: map<Id, InputRow>, serial: nat, b: string, s: BranchState)
    requires InputsOf(rows, serial, b, s)
    ensures QueueOk(s)
  {
  }

  /** What PostgreSQL answers to an empty batch: it returns before it looks at the fence. */
  function Batched(s: BranchState, ids: seq<InputId>, full: (BranchState, Result<(), Error>)): (BranchState, Result<(), Error>) {
    if ids == [] then (s, Success(())) else full
  }

  /** The two stores disagree about a batch exactly when it is empty and its token is stale: the
      in-memory ledger refuses it, PostgreSQL does not look. The branch does not change in either. */
  lemma EmptyBatchDisagrees(s: BranchState, ids: seq<InputId>, token: int)
    ensures Batched(s, ids, Ledger.AdmitInputs(s, ids, token)).0 == Ledger.AdmitInputs(s, ids, token).0
    ensures Batched(s, ids, Ledger.AdmitInputs(s, ids, token)).1 == Ledger.AdmitInputs(s, ids, token).1
      <==> !(ids == [] && Stale(s, token))
    ensures Batched(s, ids, Ledger.DiscardInputs(s, ids, token)).0 == Ledger.DiscardInputs(s, ids, token).0
    ensures Batched(s, ids, Ledger.DiscardInputs(s, ids, token)).1 == Ledger.DiscardInputs(s, ids, token).1
      <==> !(ids == [] && Stale(s, token))
  {
  }

  /** Both accept, with the same answer, or both refuse. */
  predicate Agree<T(==)>(a: Result<T, Error>, b: Result<T, Error>) {
    if a.Success? then b == a else b.Failure?
  }

  class PostgresSteps {
    var steps: map<Id, StepRow>
    var decisions: map<Id, DecisionRow>
    var leases: map<string, LeaseRow>
    var inputs: map<Id, InputRow>
    var serial: nat

    /** What each branch means; `Valid` ties it to the tables above. */
    ghost var views: Views

    ghost predicate Valid()
      reads this
    {
      Tied(Now(), views)
    }

    ghost function Now(): Tables
      reads this
    {
      Tables(steps, decisions, leases, inputs, serial)
    }

    ghost function View(b: string): BranchState
      reads this
    {
      Of(views, b)
    }

    constructor ()
      ensures Valid()
      ensures forall b :: View(b) == EMPTY
    {
      steps, decisions, leases, inputs, serial := map[], map[], map[], map[], 0;
      views := map[];
    }

    predicate Expired(b: string, now: int)
      reads this
    {
      b in leases && leases[b].expiresAt < now
    }

    predicate Fences(b: string, token: int)
      requires Valid()
      reads this
      ensures Fences(b, token) <==> Stale(View(b), token)
    {
      assert BranchOf(Now(), b, View(b));
      token != 0 && token < if b in leases then leases[b].token else 0
    }

    method Read(b: string, k: Key) returns (step: Step)
      requires Valid()
      ensures step == Get(View(b), k)
    {
      assert BranchOf(Now(), b, View(b));
      if (b, k) !in steps { return NO_STEP; }
      var row := steps[(b, k)];
      step := Step(row.status, if row.status == Done then row.value else Null, row.version);
    }

    /** The row of a step; no row reads as absent at version zero, which is where an insert counts from. */
    function Row(b: string, k: Key): (row: StepRow)
      requires Valid()
      reads this
      ensures AsStep(row) == Get(View(b), k) && Clean(row)
    {
      assert BranchOf(Now(), b, View(b));
      if (b, k) in steps then steps[(b, k)] else StepRow(Absent, Null, 0)
    }

    /** Insert or update the row of one step. */
    method Upsert(b: string, k: Key, row: StepRow)
      requires Valid() && Clean(row)
      modifies this`steps, this`views
      ensures Valid()
      ensures View(b) == Ledger.Put(old(View(b)), k, AsStep(row))
      ensures forall c :: c != b ==> View(c) == old(View(c))
    {
      ghost var next := Ledger.Put(View(b), k, AsStep(row));
      hide BranchOf;
      PutTied(Now(), views, b, k, row);
      steps, views := steps[(b, k) := row], views[b := next];
    }

    method Start(b: string, k: Key, token: int) returns (r: Result<bool, Error>)
      requires Valid()
      modifies this`steps, this`views
      ensures Valid()
      ensures View(b) == Ledger.Start(old(View(b)), k, token).0 && r == Ledger.Start(old(View(b)), k, token).1
      ensures forall c :: c != b ==> View(c) == old(View(c))
    {
      if Fences(b, token) { return Failure(Fenced); }
      var row := Row(b, k);
      if row.status !in {Absent, Ready} { return Success(false); }
      Upsert(b, k, StepRow(Running, Null, row.version + 1));
      r := Success(true);
    }

    /** One conditional completion: an insert or update that may match no row, then a look at why. */
    method CompleteEffect(b: string, k: Key, v: Value, expected: Expected) returns (r: Result<(), Error>)
      requires Valid()
      modifies this`steps, this`views
      ensures Valid()
      ensures View(b) == CompleteFrom(old(View(b)), k, v, expected).0
      ensures r == CompleteFrom(old(View(b)), k, v, expected).1
      ensures forall c :: c != b ==> View(c) == old(View(c))
    {
      hide BranchOf;
      var row := Row(b, k);
      if row.status == if expected == FromAbsent then Absent else Running {
        Upsert(b, k, StepRow(Done, v, row.version + 1));
        return Success(());
      }
      r := if row.status == Done && row.value == v then Success(()) else Failure(Conflict);
    }

    method FinishEffect(b: string, k: Key, v: Value, token: int) returns (r: Result<(), Error>)
      requires Valid()
      modifies this`steps, this`views
      ensures Valid()
      ensures View(b) == Ledger.FinishEffect(old(View(b)), k, v, token).0
      ensures r == Ledger.FinishEffect(old(View(b)), k, v, token).1
      ensures forall c :: c != b ==> View(c) == old(View(c))
    {
      hide BranchOf;
      if Fences(b, token) { return Failure(Fenced); }
      r := CompleteEffect(b, k, v, FromRunning);
    }

    method Decide(b: string, d: string, payload: Payload)
      requires Valid() && payload.key in View(b).entries
      modifies this`decisions, this`views
      ensures Valid()
      ensures View(b) == Decided(old(View(b)), d, payload)
      ensures forall c :: c != b ==> View(c) == old(View(c))
    {
      ghost var next := Decided(View(b), d, payload);
      hide BranchOf;
      DecideTied(Now(), views, b, d, payload);
      decisions, views := decisions[(b, d) := DecisionRow(payload.key, payload)], views[b := next];
    }

    method Apply(b: string, k: Key, row: StepRow, d: string, payload: Payload)
      requires Valid() && Clean(row) && payload.key == k
      modifies this`steps, this`decisions, this`views
      ensures Valid()
      ensures View(b) == Decided(Ledger.Put(old(View(b)), k, AsStep(row)), d, payload)
      ensures forall c :: c != b ==> View(c) == old(View(c))
    {
      hide BranchOf;
      Upsert(b, k, row);
      Decide(b, d, payload);
    }

    method ResolveEffect(b: string, k: Key, resolution: Resolution, workersStopped: bool, token: int)
      returns (r: Result<Step, Error>)
      requires Valid()
      modifies this`steps, this`decisions, this`views
      ensures Valid()
      ensures View(b) == Resolve(old(View(b)), k, resolution, workersStopped, token).0
      ensures Agree(Resolve(old(View(b)), k, resolution, workersStopped, token).1, r)
      ensures forall c :: c != b ==> View(c) == old(View(c))
    {
      var validated := ResolutionPayload(k, resolution, workersStopped);
      if validated.Failure? { return Failure(validated.error); }
      var payload := validated.value;
      if Fences(b, token) { return Failure(Fenced); }
      assert BranchOf(Now(), b, View(b));
      if (b, k) !in steps { return Failure(Conflict); }
      var row := Row(b, k);
      if (b, resolution.decisionId) in decisions {
        var previous := decisions[(b, resolution.decisionId)];
        if previous.key != k || previous.payload != payload { return Failure(Conflict); }
        return Success(Step(row.status, row.value, row.version));
      }
      if row.status != Running || row.version != resolution.expectedVersion { return Failure(Conflict); }
      var status, value := if resolution.action == Complete then Done else Ready,
                           if resolution.action == Complete then resolution.value else Null;
      Apply(b, k, StepRow(status, value, row.version + 1), resolution.decisionId, payload);
      r := Success(Step(status, value, row.version + 1));
    }

    method WriteControl(b: string, k: Key, v: Value, token: int) returns (r: Result<(), Error>)
      requires Valid()
      modifies this`steps, this`views
      ensures Valid()
      ensures View(b) == Ledger.WriteControl(old(View(b)), k, v, token).0
      ensures r == Ledger.WriteControl(old(View(b)), k, v, token).1
      ensures forall c :: c != b ==> View(c) == old(View(c))
    {
      hide BranchOf;
      if Fences(b, token) { return Failure(Fenced); }
      Upsert(b, k, StepRow(Done, v, Row(b, k).version + 1));
      r := Success(());
    }

    method Forget(b: string, k: Key, token: int) returns (r: Result<(), Error>)
      requires Valid()
      modifies this`steps, this`views
      ensures Valid()
      ensures View(b) == Ledger.Forget(old(View(b)), k, token).0
      ensures r == Ledger.Forget(old(View(b)), k, token).1
      ensures forall c :: c != b ==> View(c) == old(View(c))
    {
      hide BranchOf;
      if Fences(b, token) { return Failure(Fenced); }
      var row := Row(b, k);
      if row.status == Running {
        Upsert(b, k, StepRow(Absent, Null, row.version + 1));
      }
      r := Success(());
    }

    method Hold(b: string, row: LeaseRow)
      requires Valid()
      modifies this`leases, this`views
      ensures Valid()
      ensures leases == old(leases)[b := row]
      ensures View(b) == HeldBy(old(View(b)), row)
      ensures forall c :: c != b ==> View(c) == old(View(c))
    {
      ghost var next := HeldBy(View(b), row);
      hide BranchOf;
      HoldTied(Now(), views, b, row);
      leases, views := leases[b := row], views[b := next];
    }

    method Acquire(b: string, owner: Owner, ttl: int, now: int) returns (token: nat)
      requires Valid()
      modifies this`leases, this`views
      ensures Valid()
      ensures View(b) == Ledger.Acquire(old(View(b)), owner, old(Expired(b, now))).0
      ensures token == Ledger.Acquire(old(View(b)), owner, old(Expired(b, now))).1
      ensures forall c :: c != b ==> View(c) == old(View(c))
    {
      assert BranchOf(Now(), b, View(b));
      if b !in leases {
        token := 1;
      } else if leases[b].owner == owner || leases[b].expiresAt < now {
        token := leases[b].token + if leases[b].owner != owner then 1 else 0;
      } else {
        return 0;
      }
      Hold(b, LeaseRow(owner, token, now + ttl));
    }

    method Release(b: string, owner: Owner)
      requires Valid()
      modifies this`leases, this`views
      ensures Valid()
      ensures View(b) == Ledger.Release(old(View(b)), owner)
      ensures old(b in leases && leases[b].owner == owner) ==> forall later :: 0 < later ==> Expired(b, later)
      ensures forall c :: c != b ==> View(c) == old(View(c))
    {
      assert BranchOf(Now(), b, View(b));
      if b in leases && leases[b].owner == owner {
        Hold(b, LeaseRow("", leases[b].token, 0));
      }
    }

    /** `on conflict do nothing` still uses up a sequence number. */
    method EnqueueInput(b: string, id: InputId, v: Value) returns (added: bool)
      requires Valid()
      modifies this`inputs, this`serial, this`views
      ensures Valid()
      ensures View(b) == Enqueue(old(View(b)), id, v).0 && added == Enqueue(old(View(b)), id, v).1
      ensures forall c :: c != b ==> View(c) == old(View(c))
    {
      hide BranchOf;
      if StatusOf(b, id).Some? {
        SerialTied(Now(), views);
        serial := serial + 1;
        return false;
      }
      Insert(b, id, v);
      added := true;
    }

    method Insert(b: string, id: InputId, v: Value)
      requires Valid() && (b, id) !in inputs
      modifies this`inputs, this`serial, this`views
      ensures Valid()
      ensures View(b) == Appended(old(View(b)), id, v)
      ensures forall c :: c != b ==> View(c) == old(View(c))
    {
      ghost var next := Appended(View(b), id, v);
      hide BranchOf;
      InsertTied(Now(), views, b, id, v);
      inputs, serial, views := inputs[(b, id) := InputRow(serial, Pending, v)], serial + 1, views[b := next];
    }

    /** The status of an input, if the branch has it. */
    function StatusOf(b: string, id: InputId): (r: Option<InputStatus>)
      requires Valid()
      reads this
      ensures r.Some? <==> id in View(b).inputs
      ensures r.Some? ==> (b, id) in inputs && r.value == View(b).inputs[id].status
    {
      assert BranchOf(Now(), b, View(b));
      if (b, id) in inputs then Some(inputs[(b, id)].status) else None
    }

    method SetStatus(b: string, id: InputId, status: InputStatus)
      requires Valid() && (b, id) in inputs
      modifies this`inputs, this`views
      ensures Valid()
      ensures id in old(View(b)).inputs && View(b) == Ledger.SetStatus(old(View(b)), id, status)
      ensures forall c :: c != b ==> View(c) == old(View(c))
    {
      hide BranchOf;
      StatusTied(Now(), views, b, id, status);
      ghost var next := Ledger.SetStatus(View(b), id, status);
      inputs, views := Restated(inputs, b, id, status), views[b := next];
    }

    method ListInputs(b: string) returns (records: seq<Listed>)
      requires Valid()
      ensures QueueOk(View(b)) && records == Ledger.ListInputs(View(b))
    {
      assert BranchOf(Now(), b, View(b));
      var rows := inputs;
      var ids := SortedIds(rows, serial, b, View(b));
      QueueIsOk(rows, serial, b, View(b));
      records := seq(|ids|, i requires 0 <= i < |ids| => Listed(ids[i], rows[(b, ids[i])].status, rows[(b, ids[i])].value));
    }

    method ClaimInput(b: string, id: InputId, token: int) returns (r: Result<(), Error>)
      requires Valid()
      modifies this`inputs, this`views
      ensures Valid()
      ensures View(b) == Ledger.ClaimInput(old(View(b)), id, token).0
      ensures r == Ledger.ClaimInput(old(View(b)), id, token).1
      ensures forall c :: c != b ==> View(c) == old(View(c))
    {
      if Fences(b, token) { return Failure(Fenced); }
      hide BranchOf;
      var status := StatusOf(b, id);
      if status.Some? && status.value !in {Admitted, Discarded} {
        SetStatus(b, id, Claimed);
      }
      r := Success(());
    }

    /** One update over all rows whose id is in the batch, taken row by row. */
    method AdmitInputs(b: string, ids: seq<InputId>, token: int) returns (r: Result<(), Error>)
      requires Valid()
      modifies this`inputs, this`views
      ensures Valid()
      ensures View(b) == Batched(old(View(b)), ids, Ledger.AdmitInputs(old(View(b)), ids, token)).0
      ensures r == Batched(old(View(b)), ids, Ledger.AdmitInputs(old(View(b)), ids, token)).1
      ensures forall c :: c != b ==> View(c) == old(View(c))
    {
      hide BranchOf;
      if ids == [] { return Success(()); }
      if Fences(b, token) { return Failure(Fenced); }
      for i := 0 to |ids|
        invariant Valid()
        invariant View(b) == AdmitEach(old(View(b)), ids[..i])
        invariant forall c :: c != b ==> View(c) == old(View(c))
      {
        assert ids[..i + 1][..i] == ids[..i];
        var status := StatusOf(b, ids[i]);
        if status.Some? && status.value != Discarded {
          SetStatus(b, ids[i], Admitted);
        }
      }
      assert ids[..|ids|] == ids;
      r := Success(());
    }

    method DiscardInputs(b: string, ids: seq<InputId>, token: int) returns (r: Result<(), Error>)
      requires Valid()
      modifies this`inputs, this`views
      ensures Valid()
      ensures View(b) == Batched(old(View(b)), ids, Ledger.DiscardInputs(old(View(b)), ids, token)).0
      ensures r == Batched(old(View(b)), ids, Ledger.DiscardInputs(old(View(b)), ids, token)).1
      ensures forall c :: c != b ==> View(c) == old(View(c))
    {
      hide BranchOf;
      if ids == [] { return Success(()); }
      if Fences(b, token) { return Failure(Fenced); }
      for i := 0 to |ids|
        invariant Valid()
        invariant View(b) == DiscardEach(old(View(b)), ids[..i])
        invariant forall c :: c != b ==> View(c) == old(View(c))
      {
        assert ids[..i + 1][..i] == ids[..i];
        if StatusOf(b, ids[i]).Some? {
          SetStatus(b, ids[i], Discarded);
        }
      }
      assert ids[..|ids|] == ids;
      r := Success(());
    }

    /** Complete the effects one statement at a time; a refusal leaves the rest to the rollback. */
    method CompleteAll(b: string, effects: seq<Completion>) returns (r: Result<(), Error>)
      requires Valid() && Distinct(effects)
      modifies this`steps, this`views
      ensures Valid()
      ensures r.Success? <==> CompleteEach(old(View(b)), effects).Success?
      ensures r.Success? ==> View(b) == CompleteEach(old(View(b)), effects).value
      ensures forall c :: c != b ==> View(c) == old(View(c))
    {
      hide BranchOf;
      for i := 0 to |effects|
        invariant Valid()
        invariant CompleteEach(old(View(b)), effects[..i]) == Success(View(b))
        invariant forall c :: c != b ==> View(c) == old(View(c))
      {
        DistinctSoFar(effects, i);
        CompleteNext(old(View(b)), effects, i);
        r := CompleteEffect(b, effects[i].key, effects[i].value, effects[i].expected);
        if r.Failure? {
          FirstRefusalStands(old(View(b)), effects, i + 1);
          return;
        }
      }
      assert effects[..|effects|] == effects;
      r := Success(());
    }

    method WriteAll(b: string, controls: map<Key, Value>)
      requires Valid()
      modifies this`steps, this`views
      ensures Valid()
      ensures View(b) == WriteEach(old(View(b)), controls)
      ensures forall c :: c != b ==> View(c) == old(View(c))
    {
      hide BranchOf;
      ghost var s := View(b);
      var todo := controls.Keys;
      ghost var done: set<Key> := {};
      WriteNone(s, controls);
      while todo != {}
        invariant Valid()
        invariant todo + done == controls.Keys && todo !! done
        invariant View(b) == WriteEach(s, Restrict(controls, done))
        invariant forall c :: c != b ==> View(c) == old(View(c))
        decreases todo
      {
        var k :| k in todo;
        WriteOneMore(s, done, k, controls);
        var _ := WriteControl(b, k, controls[k], 0);
        todo, done := todo - {k}, done + {k};
      }
      assert Restrict(controls, done) == controls;
    }

    method EnqueueAll(b: string, more: seq<(InputId, Value)>) returns (inserted: set<InputId>)
      requires Valid()
      modifies this`inputs, this`serial, this`views
      ensures Valid()
      ensures (View(b), inserted) == EnqueueEach(old(View(b)), more)
      ensures forall c :: c != b ==> View(c) == old(View(c))
    {
      hide BranchOf;
      inserted := {};
      for i := 0 to |more|
        invariant Valid()
        invariant (View(b), inserted) == EnqueueEach(old(View(b)), more[..i])
        invariant forall c :: c != b ==> View(c) == old(View(c))
      {
        assert more[..i + 1][..i] == more[..i];
        var added := EnqueueInput(b, more[i].0, more[i].1);
        if added { inserted := inserted + {more[i].0}; }
      }
      assert more[..|more|] == more;
    }

    /** Write as it goes; a refusal rolls the transaction back. */
    method CommitTransition(b: string, transition: Transition, token: int) returns (r: Result<set<InputId>, Error>)
      requires Valid()
      modifies this`steps, this`inputs, this`serial, this`views
      ensures Valid()
      ensures View(b) == Commit(old(View(b)), transition, token).0
      ensures Agree(Commit(old(View(b)), transition, token).1, r)
      ensures forall c :: c != b ==> View(c) == old(View(c))
    {
      hide BranchOf;
      CommitAllOrNothing(View(b), transition, token);
      if Fences(b, token) { return Failure(Fenced); }
      var clash := KeysClash(transition.effects, transition.controls.Keys);
      if clash { return Failure(Invalid); }
      r := CompleteAndWrite(b, transition);
    }

    method CompleteAndWrite(b: string, transition: Transition) returns (r: Result<set<InputId>, Error>)
      requires Valid() && Distinct(transition.effects)
      requires EffectKeys(transition.effects) !! transition.controls.Keys
      modifies this`steps, this`inputs, this`serial, this`views
      ensures Valid()
      ensures View(b) == Commit(old(View(b)), transition, 0).0
      ensures Agree(Commit(old(View(b)), transition, 0).1, r)
      ensures forall c :: c != b ==> View(c) == old(View(c))
    {
      hide BranchOf;
      var savedSteps := steps;
      ghost var savedViews := views;
      var completed := CompleteAll(b, transition.effects);
      if completed.Failure? {
        steps, views := savedSteps, savedViews;
        return Failure(completed.error);
      }
      WriteAll(b, transition.controls);
      var inserted := EnqueueAll(b, transition.inputs);
      r := Success(inserted);
    }
  }

  lemma DistinctSoFar(effects: seq<Completion>, i: nat)
    requires i < |effects| && Distinct(effects)
    ensures effects[i].key !in EffectKeys(effects[..i])
  {
    EffectKeysAre(effects[..i]);
    assert forall j :: 0 <= j < i ==> effects[..i][j] == effects[j];
  }

  lemma KeysSoFar(effects: seq<Completion>, i: nat)
    requires i < |effects| && Distinct(effects[..i])
    ensures EffectKeys(effects[..i + 1]) == EffectKeys(effects[..i]) + {effects[i].key}
    ensures effects[i].key !in EffectKeys(effects[..i]) ==> Distinct(effects[..i + 1])
    ensures effects[i].key in EffectKeys(effects[..i]) ==> !Distinct(effects)
  {
    assert effects[..i + 1][..i] == effects[..i];
    EffectKeysAre(effects[..i]);
    assert forall j :: 0 <= j < i ==> effects[..i][j] == effects[j];
    if effects[i].key in EffectKeys(effects[..i]) {
      var j :| 0 <= j < i && effects[..i][j].key == effects[i].key;
      assert effects[j].key == effects[i].key;
    }
  }

  lemma Meet(a: set<Key>, b: set<Key>)
    ensures a * b == {} <==> a !! b
  {
    assert forall k :: k in a && k in b <==> k in a * b;
  }

  /** Whether two effects, or an effect and a control, name the same key. */
  method KeysClash(effects: seq<Completion>, controls: set<Key>) returns (clash: bool)
    ensures clash <==> !(Distinct(effects) && EffectKeys(effects) !! controls)
  {
    assert EffectKeys(effects[..0]) == {};
    hide EffectKeys;
    var seen: set<Key> := {};
    for i := 0 to |effects|
      invariant seen == EffectKeys(effects[..i])
      invariant Distinct(effects[..i])
    {
      KeysSoFar(effects, i);
      hide Distinct;
      if effects[i].key in seen { return true; }
      seen := seen + {effects[i].key};
    }
    assert effects[..|effects|] == effects;
    clash := seen * controls != {};
    Meet(seen, controls);
  }
}
