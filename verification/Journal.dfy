/** The effect journal as programs of any number of workers over one branch of the ledger.

    Each `await` of the journal is one action, so other workers, hosts, lease renewals and crashes
    come between any two of them. An action that is not enabled changes nothing. */
module Journal {
  import opened Wrappers
  import opened Values
  import opened Ledger
  import opened LedgerLaws
  import opened Keys
  import opened Workers

  datatype Effect = Tool(callId: string) | Model(digest: string)

  function KeyOf(e: Effect): Key {
    match e case Tool(id) => StepKey(id) case Model(d) => ModelKey(d)
  }

  /** Where a worker stands with one effect. `at` is the version its own start produced. */
  datatype Pc =
    | Idle
    | Reopening                          // found it running, and was told running steps may rerun
    | ToStart                            // found it absent or ready
    | Started(at: nat)                   // intent committed, handler not entered
    | InHandler(at: nat)
    | Forgetting(at: nat)                // the handler signalled that nothing happened
    | Finishing(at: nat, out: Value)     // the handler returned
    | HasRecord(record: Value)           // replayed or committed
    | Projecting(record: Value)          // post-tool policy is running
    | Marking(shown: Value)              // post-tool policy is done, the marker not written
    | Returned(shown: Value)             // what the model sees
    | Copying(at: nat, known: Value)     // a fork's intent committed, the result it read not copied yet

  datatype World = World(
    store: BranchState,
    ops: seq<Op>,                        // every operation the store has served
    tokens: Tokens,
    pcs: map<(Worker, Effect), Pc>,
    begun: multiset<Effect>,             // handler runs
    quiet: multiset<Effect>,             // handler runs that ended in a nothing-happened signal
    reopened: multiset<Effect>,          // running steps cleared because rerunning was allowed
    returned: set<(Effect, nat, Value)>, // what the handler of an attempt returned
    intents: multiset<Effect>,           // starts a fork committed for calls another branch began
    copied: set<(Effect, nat, Value)>,   // the finished results those starts were to copy
    asked: multiset<string>)             // times post-tool policy was asked about a call

  datatype Action =
    | Enter(p: Worker, expired: bool)
    | EnterUnleased(p: Worker)
    | Renew(p: Worker, expired: bool)
    | Leave(p: Worker)
    | ReadStep(p: Worker, e: Effect, retryRunning: bool)
    | ReopenStep(p: Worker, e: Effect)
    | StartStep(p: Worker, e: Effect)
    | RunHandler(p: Worker, e: Effect)
    | HandlerReturns(p: Worker, e: Effect, out: Value)
    | HandlerDidNothing(p: Worker, e: Effect)
    | FinishStep(p: Worker, e: Effect)
    | ForgetStep(p: Worker, e: Effect)
    | ReadMarker(p: Worker, callId: string, policy: bool)
    | PolicyDone(p: Worker, callId: string, shown: Value)
    | WriteMarker(p: Worker, callId: string)
    | CopyIntent(p: Worker, callId: string, known: Step)  // `known` is the source's step as read then
    | CopyResult(p: Worker, callId: string)
    | Stop(p: Worker, e: Effect)         // a crash, a cancellation, a runtime signal, or the end
    | Decide(p: Worker, e: Effect, resolution: Resolution, workersStopped: bool)
    | Elsewhere(op: Op)

  const START := World(EMPTY, [], map[], map[], multiset{}, multiset{}, multiset{}, {}, multiset{}, {}, multiset{})

  function At(w: World, p: Worker, e: Effect): Pc {
    if (p, e) in w.pcs then w.pcs[(p, e)] else Idle
  }

  /** Framework operations on other steps: rounds, parks, inputs. */
  ghost predicate Foreign(op: Op) {
    && FrameworkOp(op) && !op.AcquireOp? && !op.ReleaseOp?
    && forall k :: k in Writes(op) ==> !IsEffectKey(k) && !Starts(k, AFTER)
  }

  /** The worker an action moves, and the effect it moves it through. */
  function Walks(a: Action): Option<(Worker, Effect)> {
    match a
    case ReadStep(p, e, _) => Some((p, e))
    case ReopenStep(p, e) => Some((p, e))
    case StartStep(p, e) => Some((p, e))
    case RunHandler(p, e) => Some((p, e))
    case HandlerReturns(p, e, _) => Some((p, e))
    case HandlerDidNothing(p, e) => Some((p, e))
    case FinishStep(p, e) => Some((p, e))
    case ForgetStep(p, e) => Some((p, e))
    case ReadMarker(p, c, _) => Some((p, Tool(c)))
    case PolicyDone(p, c, _) => Some((p, Tool(c)))
    case WriteMarker(p, c) => Some((p, Tool(c)))
    case CopyIntent(p, c, _) => Some((p, Tool(c)))
    case CopyResult(p, c) => Some((p, Tool(c)))
    case Stop(p, e) => Some((p, e))
    case _ => None
  }

  /** The operation an action asks of the store, if it asks for one. */
  ghost function OpOf(w: World, a: Action): Option<Op> {
    match a
    case Enter(p, expired) => if Join(w.store, w.tokens, p, expired).1 == w.tokens then None else Some(AcquireOp(p, expired))
    case Renew(p, expired) => if p in w.tokens then Some(AcquireOp(p, expired)) else None
    case Leave(p) => if p in w.tokens then Some(ReleaseOp(p)) else None
    case ReopenStep(p, e) => if At(w, p, e).Reopening? then Some(ForgetOp(KeyOf(e), TokenOf(w, p))) else None
    case StartStep(p, e) => if At(w, p, e).ToStart? then Some(StartOp(KeyOf(e), TokenOf(w, p))) else None
    case FinishStep(p, e) =>
      if At(w, p, e).Finishing? then Some(FinishOp(KeyOf(e), At(w, p, e).out, TokenOf(w, p))) else None
    case ForgetStep(p, e) => if At(w, p, e).Forgetting? then Some(ForgetOp(KeyOf(e), TokenOf(w, p))) else None
    case WriteMarker(p, c) =>
      if At(w, p, Tool(c)).Marking? then Some(ControlOp(AfterKey(c), Marker(At(w, p, Tool(c)).shown), TokenOf(w, p))) else None
    case CopyIntent(p, c, known) =>
      if MayCopy(w, p, c, known) then Some(StartOp(KeyOf(Tool(c)), TokenOf(w, p))) else None
    case CopyResult(p, c) =>
      if At(w, p, Tool(c)).Copying? then Some(FinishOp(KeyOf(Tool(c)), At(w, p, Tool(c)).known, TokenOf(w, p))) else None
    case Decide(p, e, r, stopped) =>
      if p in w.tokens && At(w, p, e).Idle? then Some(ResolveOp(KeyOf(e), r, stopped, w.tokens[p])) else None
    case Elsewhere(op) => if Foreign(op) then Some(op) else None
    case _ => None
  }

  /** A fork carries over what the source began; what it never began it leaves alone. */
  predicate MayCopy(w: World, p: Worker, c: string, known: Step) {
    At(w, p, Tool(c)).Idle? && p in w.tokens && known.status != Absent
  }

  /** The store accepts the intent a fork copies. */
  predicate Copies(w: World, p: Worker, c: string, known: Step) {
    MayCopy(w, p, c, known) && Start(w.store, KeyOf(Tool(c)), TokenOf(w, p)).1 == Success(true)
  }

  function TokenOf(w: World, p: Worker): int {
    if p in w.tokens then w.tokens[p] else 0
  }

  function AfterRead(step: Step, retryRunning: bool): Pc {
    match step.status
    case Done => HasRecord(step.value)
    case Running => if retryRunning then Reopening else Idle
    case _ => ToStart
  }

  /** What finding a marker comes to: the record it holds is shown, and a marker without one is an error. */
  function Shown(marker: Step): Pc {
    if marker.value.Marker? then Returned(marker.value.shown) else Idle
  }

  /** Where an action leaves the worker it moves. A refused write raises, which ends the attempt. */
  function PcAfter(w: World, a: Action): Pc
    requires Walks(a).Some?
  {
    var (p, e) := Walks(a).value;
    var pc, k, token := At(w, p, e), KeyOf(e), TokenOf(w, p);
    match a
    case ReadStep(_, _, retryRunning) => if pc.Idle? && p in w.tokens then AfterRead(Get(w.store, k), retryRunning) else pc
    case ReopenStep(_, _) => if pc.Reopening? then if Stale(w.store, token) then Idle else ToStart else pc
    case StartStep(_, _) =>
      if !pc.ToStart? then pc
      else if Start(w.store, k, token).1 == Success(true) then Started(Get(w.store, k).version + 1)
      else Idle
    case RunHandler(_, _) => if pc.Started? then InHandler(pc.at) else pc
    case HandlerReturns(_, _, out) => if pc.InHandler? then Finishing(pc.at, out) else pc
    case HandlerDidNothing(_, _) => if pc.InHandler? then Forgetting(pc.at) else pc
    case FinishStep(_, _) =>
      if !pc.Finishing? then pc
      else if FinishEffect(w.store, k, pc.out, token).1.Success? then HasRecord(pc.out)
      else Idle
    case ForgetStep(_, _) => if pc.Forgetting? then Idle else pc
    case ReadMarker(_, c, policy) =>
      if !pc.HasRecord? then pc
      else if Get(w.store, AfterKey(c)).status == Done then Shown(Get(w.store, AfterKey(c)))
      else if policy then Projecting(pc.record)
      else Returned(pc.record)
    case PolicyDone(_, _, shown) => if pc.Projecting? then Marking(shown) else pc
    case WriteMarker(_, _) => if pc.Marking? then if Stale(w.store, token) then Idle else Returned(pc.shown) else pc
    case CopyIntent(_, c, known) =>
      if Copies(w, p, c, known) && known.status == Done then Copying(Get(w.store, k).version + 1, known.value) else pc
    case CopyResult(_, _) => if pc.Copying? then Idle else pc
    case Stop(_, _) => Idle
  }

  function One<T>(event: bool, x: T): multiset<T> {
    if event then multiset{x} else multiset{}
  }

  function Begins(w: World, a: Action): multiset<Effect> {
    if a.RunHandler? then One(At(w, a.p, a.e).Started?, a.e) else multiset{}
  }

  function GoesQuiet(w: World, a: Action): multiset<Effect> {
    if a.HandlerDidNothing? then One(At(w, a.p, a.e).InHandler?, a.e) else multiset{}
  }

  function Reopens(w: World, a: Action): multiset<Effect> {
    if a.ReopenStep? then
      One(At(w, a.p, a.e).Reopening? && !Stale(w.store, TokenOf(w, a.p)) && Get(w.store, KeyOf(a.e)).status == Running, a.e)
    else multiset{}
  }

  function Returns(w: World, a: Action): set<(Effect, nat, Value)> {
    if a.HandlerReturns? && At(w, a.p, a.e).InHandler? then {(a.e, At(w, a.p, a.e).at, a.out)} else {}
  }

  function Intends(w: World, a: Action): multiset<Effect> {
    if a.CopyIntent? then One(Copies(w, a.p, a.callId, a.known), Tool(a.callId)) else multiset{}
  }

  function Carries(w: World, a: Action): set<(Effect, nat, Value)> {
    if a.CopyIntent? && Copies(w, a.p, a.callId, a.known) && a.known.status == Done
    then {(Tool(a.callId), Get(w.store, KeyOf(Tool(a.callId))).version + 1, a.known.value)} else {}
  }

  function Asks(w: World, a: Action): multiset<string> {
    if a.ReadMarker? then
      One(a.policy && At(w, a.p, Tool(a.callId)).HasRecord? && Get(w.store, AfterKey(a.callId)).status != Done, a.callId)
    else multiset{}
  }

  function TokensAfter(w: World, a: Action): Tokens {
    match a
    case Enter(p, expired) => Join(w.store, w.tokens, p, expired).1
    case EnterUnleased(p) => if p == "" || p in w.tokens then w.tokens else w.tokens[p := 0]
    case _ => w.tokens
  }

  ghost function Do(w: World, a: Action): World {
    var op := OpOf(w, a);
    World(
      if op.Some? then Next(w.store, op.value) else w.store,
      if op.Some? then w.ops + [op.value] else w.ops,
      TokensAfter(w, a),
      if Walks(a).Some? then w.pcs[Walks(a).value := PcAfter(w, a)] else w.pcs,
      w.begun + Begins(w, a),
      w.quiet + GoesQuiet(w, a),
      w.reopened + Reopens(w, a),
      w.returned + Returns(w, a),
      w.intents + Intends(w, a),
      w.copied + Carries(w, a),
      w.asked + Asks(w, a))
  }

  ghost function Play(w: World, actions: seq<Action>): World {
    if actions == [] then w else Do(Play(w, actions[..|actions| - 1]), actions[|actions| - 1])
  }

  // ---- what every action does to the store ----------------------------------------------------

  lemma FrameworkServes(w: World, a: Action)
    ensures OpOf(w, a).Some? ==> FrameworkOp(OpOf(w, a).value)
  {
    hide Next, IsEffectKey, IsControlKey, KeyOf, AfterKey, Join;
    match a
    case ReopenStep(_, e) => EffectIsFiled(e);
    case StartStep(_, e) => EffectIsFiled(e);
    case FinishStep(_, e) => EffectIsFiled(e);
    case ForgetStep(_, e) => EffectIsFiled(e);
    case Decide(_, e, _, _) => EffectIsFiled(e);
    case CopyIntent(_, c, _) => EffectIsFiled(Tool(c));
    case CopyResult(_, c) => EffectIsFiled(Tool(c));
    case WriteMarker(_, c) => KeysAreFiled(c);
    case _ =>
  }

  lemma EffectIsFiled(e: Effect)
    ensures IsEffectKey(KeyOf(e))
  {
    match e case Tool(id) => KeysAreFiled(id); case Model(d) => KeysAreFiled(d);
  }

  /** The store is what the operations served so far make of an empty one, all of them the
      framework's. */
  ghost predicate Linked(w: World) {
    && w.store == Run(EMPTY, w.ops)
    && forall i :: 0 <= i < |w.ops| ==> FrameworkOp(w.ops[i])
  }

  lemma DoLinked(w: World, a: Action)
    requires Linked(w)
    ensures Linked(Do(w, a))
  {
    hide Next, OpOf, FrameworkOp;
    FrameworkServes(w, a);
    if OpOf(w, a).Some? {
      assert (w.ops + [OpOf(w, a).value])[..|w.ops|] == w.ops;
    }
  }

  lemma {:induction false} PlayLinked(actions: seq<Action>)
    ensures Linked(Play(START, actions))
  {
    if actions != [] {
      PlayLinked(actions[..|actions| - 1]);
      DoLinked(Play(START, actions[..|actions| - 1]), actions[|actions| - 1]);
    }
  }

  /** Every event is counted when it happens and at no other time: a handler that is entered, one that
      signals that nothing happened, one that returns, a running step that is cleared for a rerun, an
      intent a fork copies with the result it read, and a question to post-tool policy. */
  lemma EveryEventIsCounted(w: World, a: Action, e: Effect, c: string)
    ensures var r := Do(w, a);
      && r.begun[e] == w.begun[e] + (if a.RunHandler? && a.e == e && At(w, a.p, e).Started? then 1 else 0)
      && r.quiet[e] == w.quiet[e] + (if a.HandlerDidNothing? && a.e == e && At(w, a.p, e).InHandler? then 1 else 0)
      && r.returned == w.returned +
           (if a.HandlerReturns? && At(w, a.p, a.e).InHandler? then {(a.e, At(w, a.p, a.e).at, a.out)} else {})
      && r.asked[c] == w.asked[c] +
           (if a.ReadMarker? && a.callId == c && a.policy && At(w, a.p, Tool(c)).HasRecord?
               && Get(w.store, AfterKey(c)).status != Done then 1 else 0)
    ensures var r := Do(w, a);
      r.reopened[e] == w.reopened[e] +
        (if a.ReopenStep? && a.e == e && At(w, a.p, e).Reopening? && !Stale(w.store, TokenOf(w, a.p))
            && Get(w.store, KeyOf(e)).status == Running then 1 else 0)
  {
    hide OpOf, Next, PcAfter, TokensAfter, KeyOf, AfterKey, Stale;
  }

  lemma EveryCopyIsCounted(w: World, a: Action, e: Effect)
    ensures var r := Do(w, a);
      var copies := a.CopyIntent? && At(w, a.p, Tool(a.callId)).Idle? && a.p in w.tokens && a.known.status != Absent
        && Start(w.store, KeyOf(Tool(a.callId)), w.tokens[a.p]).1 == Success(true);
      && r.intents[e] == w.intents[e] + (if copies && Tool(a.callId) == e then 1 else 0)
      && r.copied == w.copied + (if copies && a.known.status == Done
           then {(Tool(a.callId), Get(w.store, KeyOf(Tool(a.callId))).version + 1, a.known.value)} else {})
  {
    hide OpOf, Next, PcAfter, TokensAfter, KeyOf, AfterKey, Start;
  }

  /** What the ledger's history says about an effect. */
  ghost function History(w: World, e: Effect): Tally {
    TallyOf(EMPTY, w.ops, KeyOf(e))
  }

  lemma DoHistory(w: World, a: Action, e: Effect)
    requires Linked(w)
    ensures History(Do(w, a), e) ==
      if OpOf(w, a).None? then History(w, e)
      else Count(History(w, e), Get(w.store, KeyOf(e)), OpOf(w, a).value, Get(Do(w, a).store, KeyOf(e)))
  {
    hide Next, OpOf, FrameworkOp, Count;
    if OpOf(w, a).Some? {
      assert (w.ops + [OpOf(w, a).value])[..|w.ops|] == w.ops;
    }
  }

  /** Every effect's step obeys the conservation law in every reachable world. */
  lemma HistoryBalanced(w: World, e: Effect)
    requires Linked(w)
    ensures Balanced(History(w, e), Get(w.store, KeyOf(e)))
  {
    hide FrameworkOp, IsEffectKey, Balanced;
    EffectIsFiled(e);
    FrameworkConserves(w.ops, KeyOf(e));
  }
}
