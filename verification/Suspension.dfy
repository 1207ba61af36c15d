/** Parking a round, answering it, and finishing it: `_park`, `resume`, `recover` and `_finalize` as
    programs of any number of workers over one branch of the ledger. As in `Journal`, each `await`
    is one action and anything may come between two of them. */
module Suspension {
  import opened Wrappers
  import opened Values
  import opened Ledger
  import opened LedgerLaws
  import opened Keys
  import opened Workers

  // ---- the continuation -----------------------------------------------------------------------

  /** The parked calls without an answer, in model order. */
  function Undecided(parked: seq<ParkedCall>, answers: map<string, Consent>): (r: seq<ParkedCall>)
    ensures forall c :: c in r <==> c in parked && c.callId !in answers
  {
    if parked == [] then [] else
    var n := |parked| - 1;
    assert parked == parked[..n] + [parked[n]];
    Undecided(parked[..n], answers) + if parked[n].callId in answers then [] else [parked[n]]
  }

  /** The call an external id routes its answer to. */
  function Route(parked: seq<ParkedCall>, pendingId: string): Option<string> {
    if parked == [] then None
    else if parked[|parked| - 1].pendingId == pendingId then Some(parked[|parked| - 1].callId)
    else Route(parked[..|parked| - 1], pendingId)
  }

  ghost predicate ApartPending(parked: seq<ParkedCall>) {
    forall i, j :: 0 <= i < j < |parked| ==> parked[i].pendingId != parked[j].pendingId
  }

  /** Under distinct external ids every parked call can be answered, apart from every other. */
  lemma {:induction false} EveryCallIsRouted(parked: seq<ParkedCall>, i: nat)
    requires ApartPending(parked) && i < |parked|
    ensures Route(parked, parked[i].pendingId) == Some(parked[i].callId)
  {
    var n := |parked| - 1;
    if i < n {
      assert ApartPending(parked[..n]) by { assert forall j :: 0 <= j < n ==> parked[..n][j] == parked[j]; }
      EveryCallIsRouted(parked[..n], i);
      assert parked[n].pendingId != parked[i].pendingId;
    }
  }

  /** An answer only ever goes to a call of the round. */
  lemma {:induction false} RoutedIsParked(parked: seq<ParkedCall>, pendingId: string)
    requires Route(parked, pendingId).Some?
    ensures exists c :: c in parked && c.pendingId == pendingId && c.callId == Route(parked, pendingId).value
  {
    var n := |parked| - 1;
    if parked[n].pendingId == pendingId {
      assert parked[n] in parked;
    } else {
      RoutedIsParked(parked[..n], pendingId);
      assert forall c :: c in parked[..n] ==> c in parked;
    }
  }

  function CallIds(parked: seq<ParkedCall>): seq<string> {
    seq(|parked|, i requires 0 <= i < |parked| => parked[i].callId)
  }

  /** What waits to be answered or finished: the stored continuation, unless it is absent or closed. */
  function ActiveOf(s: BranchState): Option<Value> {
    var record := Get(s, ACTIVE_SUSPENSION);
    if record.status == Done && record.value.Parked? then Some(record.value) else None
  }

  /** Somebody said no to a call of the round. */
  predicate Denied(active: Value) {
    active.Parked? && exists x :: x in active.parked && x.callId in active.answers && active.answers[x.callId].Refuse?
  }

  predicate Decided(active: Value) {
    active.Parked? && Undecided(active.parked, active.answers) == []
  }

  function WithAnswer(active: Value, callId: string, answer: Consent): Value {
    if active.Parked? then active.(answers := active.answers[callId := answer]) else active
  }

  function WithState(active: Value, state: ParkState): Value {
    if active.Parked? then active.(state := state) else active
  }

  predicate ReusesPending(parked: seq<ParkedCall>) {
    exists i, j :: 0 <= i < j < |parked| && parked[i].pendingId == parked[j].pendingId
  }

  /** Everything a park writes: where each call's answer is kept, and the continuation itself. */
  function ParkWrites(parked: seq<ParkedCall>): map<Key, Value>
    requires parked != []
  {
    var indexed := set c | c in parked :: SuspendKey(c.callId);
    (map k | k in indexed :: SuspendIndex(parked[0].callId))[ACTIVE_SUSPENSION := Parked(Waiting, parked, map[])]
  }

  // ---- the workers ----------------------------------------------------------------------------

  /** Where a worker stands. What it read from the store it carries along. */
  datatype Seat =
    | Away
    | Answering(active: Value, callId: string, answer: Consent)   // the park is found, the answer not written
    | Finalizing(active: Value)                                  // every call is answered
    | Attempting(work: Option<Value>, started: set<string>)      // the agent runs, finishing a park or not

  datatype World = World(
    store: BranchState,
    tokens: Tokens,
    seats: map<Worker, Seat>,
    accepted: map<string, Consent>)  // answers the store took since the round was parked

  datatype Action =
    | Enter(p: Worker, expired: bool)
    | Renew(p: Worker, expired: bool)
    | Leave(p: Worker)
    | Resume(p: Worker, pendingId: string, answer: Consent)
    | WriteAnswer(p: Worker)
    | Recover(p: Worker)
    | RunUnread(p: Worker)               // `run`: its look at the continuation came before its lease
    | WriteResuming(p: Worker)
    | StartCall(p: Worker, callId: string)
    | BeginHandler(p: Worker, callId: string)
    | Park(p: Worker, parked: seq<ParkedCall>)
    | Complete(p: Worker)
    | Stop(p: Worker)                    // a crash, an exception, or the end
    | Elsewhere(op: Op)

  const START := World(EMPTY, map[], map[], map[])

  function At(w: World, p: Worker): Seat {
    if p in w.seats then w.seats[p] else Away
  }

  function TokenOf(w: World, p: Worker): int {
    if p in w.tokens then w.tokens[p] else 0
  }

  /** What the rest of the framework does meanwhile: it neither parks nor starts tool calls. */
  ghost predicate Foreign(op: Op) {
    && !op.AcquireOp? && !op.ReleaseOp? && ACTIVE_SUSPENSION !in Writes(op)
    && (op.StartOp? ==> !Starts(op.key, TOOL))
  }

  /** The round is over and may be parked: every call it started has run. */
  predicate Parks(seat: Seat, parked: seq<ParkedCall>) {
    seat.Attempting? && seat.started == {} && parked != [] && !ReusesPending(parked)
  }

  predicate Completes(seat: Seat) {
    seat.Attempting? && seat.started == {} && seat.work.Some? && seat.work.value.Parked?
  }

  function Mover(a: Action): Option<Worker> {
    match a
    case Enter(_, _) => None
    case Renew(_, _) => None
    case Leave(_) => None
    case Elsewhere(_) => None
    case _ => Some(a.p)
  }

  ghost function OpOf(w: World, a: Action): Option<Op> {
    match a
    case Enter(p, expired) => if Join(w.store, w.tokens, p, expired).1 == w.tokens then None else Some(AcquireOp(p, expired))
    case Renew(p, expired) => if p in w.tokens then Some(AcquireOp(p, expired)) else None
    case Leave(p) => if p in w.tokens then Some(ReleaseOp(p)) else None
    case WriteAnswer(p) =>
      if At(w, p).Answering?
      then Some(ControlOp(ACTIVE_SUSPENSION, WithAnswer(At(w, p).active, At(w, p).callId, At(w, p).answer), TokenOf(w, p)))
      else None
    case WriteResuming(p) =>
      if At(w, p).Finalizing? then Some(ControlOp(ACTIVE_SUSPENSION, WithState(At(w, p).active, Resuming), TokenOf(w, p)))
      else None
    case StartCall(p, c) => if At(w, p).Attempting? then Some(StartOp(StepKey(c), TokenOf(w, p))) else None
    case Park(p, parked) =>
      if Parks(At(w, p), parked) then Some(CommitOp(Transition([], ParkWrites(parked), []), TokenOf(w, p))) else None
    case Complete(p) =>
      if Completes(At(w, p))
      then Some(ControlOp(ACTIVE_SUSPENSION, Finished(CallIds(At(w, p).work.value.parked)), TokenOf(w, p)))
      else None
    case Elsewhere(op) => if Foreign(op) then Some(op) else None
    case _ => None
  }

  /** A round with every answer goes on to be finished, any other leaves the worker with nothing to do. */
  function Judged(active: Value): Seat {
    if Decided(active) then Finalizing(active) else Away
  }

  function SeatAfter(w: World, a: Action): Seat
    requires Mover(a).Some?
  {
    var seat, stale := At(w, a.p), Stale(w.store, TokenOf(w, a.p));
    var active := ActiveOf(w.store);
    match a
    case Resume(p, pendingId, answer) =>
      if !seat.Away? || p !in w.tokens then seat
      else if active.Some? && active.value.Parked? && Route(active.value.parked, pendingId).Some?
      then Answering(active.value, Route(active.value.parked, pendingId).value, answer)
      else Away
    case WriteAnswer(_) =>
      if !seat.Answering? then seat
      else if stale then Away
      else Judged(WithAnswer(seat.active, seat.callId, seat.answer))
    case Recover(p) =>
      if !seat.Away? || p !in w.tokens then seat
      else if active.None? then Attempting(None, {})
      else Judged(active.value)
    case RunUnread(p) => if !seat.Away? || p !in w.tokens then seat else Attempting(None, {})
    case WriteResuming(_) =>
      if !seat.Finalizing? then seat
      else if stale then Away
      else Attempting(Some(WithState(seat.active, Resuming)), {})
    case StartCall(_, c) =>
      if !seat.Attempting? then seat
      else if stale then Away
      else if Start(w.store, StepKey(c), TokenOf(w, a.p)).1 == Success(true) then seat.(started := seat.started + {c})
      else Away
    case BeginHandler(_, c) => if seat.Attempting? then seat.(started := seat.started - {c}) else seat
    case Park(_, parked) => if seat.Attempting? && seat.started == {} then Away else seat
    case Complete(_) => if seat.Attempting? && seat.started == {} then Away else seat
    case Stop(_) => Away
  }

  /** The handler of a call is entered. */
  predicate Begins(w: World, p: Worker, callId: string) {
    At(w, p).Attempting? && callId in At(w, p).started
  }

  /** A round is parked anew or completed: its answers have served. */
  predicate Closes(w: World, a: Action) {
    && ((a.Park? && Parks(At(w, a.p), a.parked)) || (a.Complete? && Completes(At(w, a.p))))
    && !Stale(w.store, TokenOf(w, a.p))
  }

  /** The store takes an answer. */
  predicate Answers(w: World, a: Action) {
    a.WriteAnswer? && At(w, a.p).Answering? && !Stale(w.store, TokenOf(w, a.p))
  }

  function AcceptedAfter(w: World, a: Action): map<string, Consent> {
    if Closes(w, a) then map[]
    else if Answers(w, a) then w.accepted[At(w, a.p).callId := At(w, a.p).answer]
    else w.accepted
  }

  ghost function Do(w: World, a: Action): World {
    var op := OpOf(w, a);
    World(
      if op.Some? then Next(w.store, op.value) else w.store,
      if a.Enter? then Join(w.store, w.tokens, a.p, a.expired).1 else w.tokens,
      if Mover(a).Some? then w.seats[Mover(a).value := SeatAfter(w, a)] else w.seats,
      AcceptedAfter(w, a))
  }

  ghost function Play(w: World, actions: seq<Action>): World {
    if actions == [] then w else Do(Play(w, actions[..|actions| - 1]), actions[|actions| - 1])
  }
}
