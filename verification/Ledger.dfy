/** What one branch of the step ledger means: its state and the effect of every operation.

    Both stores keep all branches in one set of tables; this module describes the part that belongs
    to one branch, and `MemorySteps` and `PostgresSteps` are proved against it. An operation returns
    the next state together with its reply; a refusal (the source's exception) leaves the state as
    it was. */
module Ledger {
  import opened Wrappers
  import opened Values

  type Key = string
  type InputId = string
  type Owner = string

  datatype Status = Absent | Ready | Running | Done
  datatype Step = Step(status: Status, value: Value, version: nat)

  const NO_STEP := Step(Absent, Null, 0)

  datatype Error = Fenced | Conflict | Invalid

  datatype Verdict = Complete | Retry

  /** What a host says about an effect that never reported. */
  datatype Resolution = Resolution(
    action: Verdict,
    decisionId: string,
    expectedVersion: int,
    reason: string,
    value: Value,
    providerKey: Option<string>)

  /** The canonical form a decision is remembered in. */
  datatype Payload = Payload(
    key: Key,
    action: Verdict,
    expectedVersion: int,
    reason: string,
    value: Value,
    providerKey: Option<string>)

  datatype InputStatus = Pending | Claimed | Admitted | Discarded
  datatype Input = Input(status: InputStatus, value: Value)
  datatype Listed = Listed(id: InputId, status: InputStatus, value: Value)

  datatype Expected = FromAbsent | FromRunning
  datatype Completion = Completion(key: Key, value: Value, expected: Expected)

  datatype Transition = Transition(
    effects: seq<Completion>,
    controls: map<Key, Value>,
    inputs: seq<(InputId, Value)>)

  datatype Lease = Lease(owner: Owner, token: nat)

  /** One branch: its steps, its lease and the last fencing token issued, its input queue in
      submission order, and the decisions that were applied. */
  datatype BranchState = BranchState(
    entries: map<Key, Step>,
    lease: Option<Lease>,
    issued: nat,
    inputs: map<InputId, Input>,
    order: seq<InputId>,
    decisions: map<string, Payload>)

  const EMPTY := BranchState(map[], None, 0, map[], [], map[])

  function Get(s: BranchState, k: Key): Step {
    if k in s.entries then s.entries[k] else NO_STEP
  }

  function Put(s: BranchState, k: Key, step: Step): BranchState {
    s.(entries := s.entries[k := step])
  }

  /** A write is refused when it presents a token older than the last one issued; zero is unleased. */
  predicate Stale(s: BranchState, token: int) {
    token != 0 && token < s.issued
  }

  // ---- steps ----------------------------------------------------------------------------------

  function Start(s: BranchState, k: Key, token: int): (BranchState, Result<bool, Error>) {
    if Stale(s, token) then (s, Failure(Fenced))
    else if Get(s, k).status in {Absent, Ready} then
      (Put(s, k, Step(Running, Null, Get(s, k).version + 1)), Success(true))
    else (s, Success(false))
  }

  /** Done, from the one state the caller expects; done already is fine if the result is the same. */
  function CompleteFrom(s: BranchState, k: Key, v: Value, expected: Expected): (BranchState, Result<(), Error>) {
    var step := Get(s, k);
    if step.status == Done then
      (s, if step.value == v then Success(()) else Failure(Conflict))
    else if step.status == (if expected == FromAbsent then Absent else Running) then
      (Put(s, k, Step(Done, v, step.version + 1)), Success(()))
    else (s, Failure(Conflict))
  }

  function FinishEffect(s: BranchState, k: Key, v: Value, token: int): (BranchState, Result<(), Error>) {
    if Stale(s, token) then (s, Failure(Fenced)) else CompleteFrom(s, k, v, FromRunning)
  }

  function WriteControl(s: BranchState, k: Key, v: Value, token: int): (BranchState, Result<(), Error>) {
    if Stale(s, token) then (s, Failure(Fenced))
    else (Put(s, k, Step(Done, v, Get(s, k).version + 1)), Success(()))
  }

  function Forget(s: BranchState, k: Key, token: int): (BranchState, Result<(), Error>) {
    if Stale(s, token) then (s, Failure(Fenced))
    else if Get(s, k).status == Running then
      (Put(s, k, Step(Absent, Null, Get(s, k).version + 1)), Success(()))
    else (s, Success(()))
  }

  // ---- decisions ------------------------------------------------------------------------------

  /** The characters `str.strip` removes. */
  predicate IsSpace(c: char) {
    var n := c as int;
    9 <= n <= 13 || 28 <= n <= 32 || n == 0x85 || n == 0xA0 || n == 0x1680 || 0x2000 <= n <= 0x200A
    || n == 0x2028 || n == 0x2029 || n == 0x202F || n == 0x205F || n == 0x3000
  }

  predicate Blank(text: string) {
    forall i :: 0 <= i < |text| ==> IsSpace(text[i])
  }

  /** The form a well-made decision is compared and remembered in; an ill-made one has none. */
  function ResolutionPayload(k: Key, r: Resolution, workersStopped: bool): Result<Payload, Error> {
    if !workersStopped || Blank(k) || Blank(r.decisionId) || r.expectedVersion < 1 || Blank(r.reason)
       || (r.action == Retry && r.value != Null)
       || (r.providerKey.Some? && Blank(r.providerKey.value))
    then Failure(Invalid)
    else Success(Payload(k, r.action, r.expectedVersion, r.reason, r.value, r.providerKey))
  }

  function Resolve(s: BranchState, k: Key, r: Resolution, workersStopped: bool, token: int)
    : (BranchState, Result<Step, Error>)
  {
    if Stale(s, token) then (s, Failure(Fenced)) else
    match ResolutionPayload(k, r, workersStopped)
    case Failure(e) => (s, Failure(e))
    case Success(payload) =>
      if r.decisionId in s.decisions then
        (s, if s.decisions[r.decisionId] == payload then Success(Get(s, k)) else Failure(Conflict))
      else
        var step := Get(s, k);
        if step.status != Running || step.version != r.expectedVersion then (s, Failure(Conflict))
        else
          var next := if r.action == Complete then Step(Done, r.value, step.version + 1)
                      else Step(Ready, Null, step.version + 1);
          (Put(s, k, next).(decisions := s.decisions[r.decisionId := payload]), Success(next))
  }

  // ---- leases ---------------------------------------------------------------------------------

  /** `expired` is the clock's verdict on a lease someone else holds; the holder renews whether or not it
      has run out. The reply is the caller's token, or zero when it is turned away. */
  function Acquire(s: BranchState, owner: Owner, expired: bool): (BranchState, nat) {
    if s.lease.Some? && s.lease.value.owner == owner then (s, s.lease.value.token)
    else if s.lease.Some? && !expired then (s, 0)
    else (s.(lease := Some(Lease(owner, s.issued + 1)), issued := s.issued + 1), s.issued + 1)
  }

  function Release(s: BranchState, owner: Owner): BranchState {
    if s.lease.Some? && s.lease.value.owner == owner
    then s.(lease := Some(Lease("", s.lease.value.token)))
    else s
  }

  // ---- inputs ---------------------------------------------------------------------------------

  function Enqueue(s: BranchState, id: InputId, v: Value): (BranchState, bool) {
    if id in s.inputs then (s, false)
    else (s.(inputs := s.inputs[id := Input(Pending, v)], order := s.order + [id]), true)
  }

  function SetStatus(s: BranchState, id: InputId, status: InputStatus): BranchState
    requires id in s.inputs
  {
    s.(inputs := s.inputs[id := s.inputs[id].(status := status)])
  }

  function ListInputs(s: BranchState): seq<Listed>
    requires forall i :: 0 <= i < |s.order| ==> s.order[i] in s.inputs
  {
    seq(|s.order|, i requires 0 <= i < |s.order| =>
      Listed(s.order[i], s.inputs[s.order[i]].status, s.inputs[s.order[i]].value))
  }

  function ClaimInput(s: BranchState, id: InputId, token: int): (BranchState, Result<(), Error>) {
    if Stale(s, token) then (s, Failure(Fenced))
    else if id in s.inputs && s.inputs[id].status !in {Admitted, Discarded} then
      (SetStatus(s, id, Claimed), Success(()))
    else (s, Success(()))
  }

  function AdmitOne(s: BranchState, id: InputId): BranchState {
    if id in s.inputs && s.inputs[id].status != Discarded then SetStatus(s, id, Admitted) else s
  }

  function AdmitEach(s: BranchState, ids: seq<InputId>): BranchState {
    if ids == [] then s else AdmitOne(AdmitEach(s, ids[..|ids| - 1]), ids[|ids| - 1])
  }

  function AdmitInputs(s: BranchState, ids: seq<InputId>, token: int): (BranchState, Result<(), Error>) {
    if Stale(s, token) then (s, Failure(Fenced)) else (AdmitEach(s, ids), Success(()))
  }

  function DiscardOne(s: BranchState, id: InputId): BranchState {
    if id in s.inputs then SetStatus(s, id, Discarded) else s
  }

  function DiscardEach(s: BranchState, ids: seq<InputId>): BranchState {
    if ids == [] then s else DiscardOne(DiscardEach(s, ids[..|ids| - 1]), ids[|ids| - 1])
  }

  function DiscardInputs(s: BranchState, ids: seq<InputId>, token: int): (BranchState, Result<(), Error>) {
    if Stale(s, token) then (s, Failure(Fenced)) else (DiscardEach(s, ids), Success(()))
  }

  // ---- transitions ----------------------------------------------------------------------------

  function EffectKeys(effects: seq<Completion>): set<Key> {
    if effects == [] then {} else EffectKeys(effects[..|effects| - 1]) + {effects[|effects| - 1].key}
  }

  /** Complete the effects one after the other; the first that is refused refuses all. */
  function CompleteEach(s: BranchState, effects: seq<Completion>): Result<BranchState, Error> {
    if effects == [] then Success(s) else
    var n := |effects| - 1;
    match CompleteEach(s, effects[..n])
    case Failure(e) => Failure(e)
    case Success(before) =>
      if effects[n].key in EffectKeys(effects[..n]) then Failure(Invalid) else
      var (after, reply) := CompleteFrom(before, effects[n].key, effects[n].value, effects[n].expected);
      if reply.Failure? then Failure(reply.error) else Success(after)
  }

  function WriteEach(s: BranchState, controls: map<Key, Value>): BranchState {
    s.(entries := map k | k in s.entries.Keys + controls.Keys ::
      if k in controls then Step(Done, controls[k], Get(s, k).version + 1) else s.entries[k])
  }

  function EnqueueEach(s: BranchState, inputs: seq<(InputId, Value)>): (BranchState, set<InputId>) {
    if inputs == [] then (s, {}) else
    var n := |inputs| - 1;
    var (before, ids) := EnqueueEach(s, inputs[..n]);
    var (after, added) := Enqueue(before, inputs[n].0, inputs[n].1);
    (after, if added then ids + {inputs[n].0} else ids)
  }

  function Commit(s: BranchState, t: Transition, token: int): (BranchState, Result<set<InputId>, Error>) {
    if Stale(s, token) then (s, Failure(Fenced)) else
    match CompleteEach(s, t.effects)
    case Failure(e) => (s, Failure(e))
    case Success(completed) =>
      if EffectKeys(t.effects) !! t.controls.Keys then
        var (next, ids) := EnqueueEach(WriteEach(completed, t.controls), t.inputs);
        (next, Success(ids))
      else (s, Failure(Invalid))
  }

  // ---- one branch under any sequence of operations --------------------------------------------

  datatype Op =
    | ReadOp(key: Key)
    | StartOp(key: Key, token: int)
    | FinishOp(key: Key, value: Value, token: int)
    | ControlOp(key: Key, value: Value, token: int)
    | ForgetOp(key: Key, token: int)
    | ResolveOp(key: Key, resolution: Resolution, workersStopped: bool, token: int)
    | AcquireOp(owner: Owner, expired: bool)
    | ReleaseOp(owner: Owner)
    | EnqueueOp(id: InputId, value: Value)
    | ListOp
    | ClaimOp(id: InputId, token: int)
    | AdmitOp(ids: seq<InputId>, token: int)
    | DiscardOp(ids: seq<InputId>, token: int)
    | CommitOp(transition: Transition, token: int)

  datatype Reply =
    | Refused(error: Error)
    | Accepted
    | Flag(flag: bool)
    | Found(step: Step)
    | Token(token: nat)
    | Inserted(ids: set<InputId>)
    | Listing(records: seq<Listed>)

  function Plain(r: Result<(), Error>): Reply {
    match r case Success(_) => Accepted case Failure(e) => Refused(e)
  }

  function Flagged(r: Result<bool, Error>): Reply {
    match r case Success(b) => Flag(b) case Failure(e) => Refused(e)
  }

  function Stepped(r: Result<Step, Error>): Reply {
    match r case Success(step) => Found(step) case Failure(e) => Refused(e)
  }

  function Inserting(r: Result<set<InputId>, Error>): Reply {
    match r case Success(ids) => Inserted(ids) case Failure(e) => Refused(e)
  }

  /** The queue lists each input once, and only inputs that exist. */
  ghost predicate QueueOk(s: BranchState) {
    && (forall i :: 0 <= i < |s.order| ==> s.order[i] in s.inputs)
    && (forall id :: id in s.inputs ==> id in s.order)
    && (forall i, j :: 0 <= i < j < |s.order| ==> s.order[i] != s.order[j])
  }

  function Next(s: BranchState, op: Op): BranchState {
    match op
    case ReadOp(_) => s
    case StartOp(k, t) => Start(s, k, t).0
    case FinishOp(k, v, t) => FinishEffect(s, k, v, t).0
    case ControlOp(k, v, t) => WriteControl(s, k, v, t).0
    case ForgetOp(k, t) => Forget(s, k, t).0
    case ResolveOp(k, r, w, t) => Resolve(s, k, r, w, t).0
    case AcquireOp(o, x) => Acquire(s, o, x).0
    case ReleaseOp(o) => Release(s, o)
    case EnqueueOp(id, v) => Enqueue(s, id, v).0
    case ListOp => s
    case ClaimOp(id, t) => ClaimInput(s, id, t).0
    case AdmitOp(ids, t) => AdmitInputs(s, ids, t).0
    case DiscardOp(ids, t) => DiscardInputs(s, ids, t).0
    case CommitOp(tr, t) => Commit(s, tr, t).0
  }

  function Answer(s: BranchState, op: Op): Reply
    requires QueueOk(s)
  {
    match op
    case ReadOp(k) => Found(Get(s, k))
    case StartOp(k, t) => Flagged(Start(s, k, t).1)
    case FinishOp(k, v, t) => Plain(FinishEffect(s, k, v, t).1)
    case ControlOp(k, v, t) => Plain(WriteControl(s, k, v, t).1)
    case ForgetOp(k, t) => Plain(Forget(s, k, t).1)
    case ResolveOp(k, r, w, t) => Stepped(Resolve(s, k, r, w, t).1)
    case AcquireOp(o, x) => Token(Acquire(s, o, x).1)
    case ReleaseOp(_) => Accepted
    case EnqueueOp(id, v) => Flag(Enqueue(s, id, v).1)
    case ListOp => Listing(ListInputs(s))
    case ClaimOp(id, t) => Plain(ClaimInput(s, id, t).1)
    case AdmitOp(ids, t) => Plain(AdmitInputs(s, ids, t).1)
    case DiscardOp(ids, t) => Plain(DiscardInputs(s, ids, t).1)
    case CommitOp(tr, t) => Inserting(Commit(s, tr, t).1)
  }

  /** The state after a whole sequence of operations. */
  function Run(s: BranchState, ops: seq<Op>): BranchState {
    if ops == [] then s else Next(Run(s, ops[..|ops| - 1]), ops[|ops| - 1])
  }

  /** The state before operation `i` of a sequence. */
  function StateAt(s: BranchState, ops: seq<Op>, i: nat): BranchState
    requires i <= |ops|
  {
    Run(s, ops[..i])
  }
}
