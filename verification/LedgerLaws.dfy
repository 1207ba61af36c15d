/** Laws of one branch over whole runs: what every sequence of operations keeps. */
module LedgerLaws {
  import opened Wrappers
  import opened Values
  import opened Ledger
  import opened Transitions

  // ---- frames ---------------------------------------------------------------------------------

  /** The keys whose step an operation may change. */
  function Writes(op: Op): set<Key> {
    match op
    case StartOp(k, _) => {k}
    case FinishOp(k, _, _) => {k}
    case ControlOp(k, _, _) => {k}
    case ForgetOp(k, _) => {k}
    case ResolveOp(k, _, _, _) => {k}
    case CommitOp(t, _) => EffectKeys(t.effects) + t.controls.Keys
    case _ => {}
  }

  lemma {:induction false} AdmitEachFrame(s: BranchState, ids: seq<InputId>)
    ensures AdmitEach(s, ids) == s.(inputs := AdmitEach(s, ids).inputs)
    ensures AdmitEach(s, ids).inputs.Keys == s.inputs.Keys
  {
    if ids != [] { AdmitEachFrame(s, ids[..|ids| - 1]); }
  }

  lemma {:induction false} DiscardEachFrame(s: BranchState, ids: seq<InputId>)
    ensures DiscardEach(s, ids) == s.(inputs := DiscardEach(s, ids).inputs)
    ensures DiscardEach(s, ids).inputs.Keys == s.inputs.Keys
  {
    if ids != [] { DiscardEachFrame(s, ids[..|ids| - 1]); }
  }

  /** An operation changes no step it does not name. */
  lemma OtherSteps(s: BranchState, op: Op, k: Key)
    requires k !in Writes(op)
    ensures Get(Next(s, op), k) == Get(s, k)
  {
    match op
    case AdmitOp(ids, _) => AdmitEachFrame(s, ids);
    case DiscardOp(ids, _) => DiscardEachFrame(s, ids);
    case CommitOp(t, token) => CommitAllOrNothing(s, t, token);
    case _ =>
  }

  /** Only `acquire` and `release` move the lease, only `acquire` issues tokens, and only
      `resolve_effect` adds decisions. */
  lemma OtherTables(s: BranchState, op: Op)
    ensures !op.AcquireOp? && !op.ReleaseOp? ==> Next(s, op).lease == s.lease
    ensures !op.AcquireOp? ==> Next(s, op).issued == s.issued
    ensures !op.ResolveOp? ==> Next(s, op).decisions == s.decisions
  {
    match op
    case AdmitOp(ids, _) => AdmitEachFrame(s, ids);
    case DiscardOp(ids, _) => DiscardEachFrame(s, ids);
    case CommitOp(t, token) => CommitAllOrNothing(s, t, token);
    case _ =>
  }

  // ---- versions -------------------------------------------------------------------------------

  /** Every change of a step raises its version, and an unchanged version is an unchanged step. */
  lemma VersionsRise(s: BranchState, op: Op, k: Key)
    ensures Get(Next(s, op), k) == Get(s, k) || Get(Next(s, op), k).version == Get(s, k).version + 1
  {
    if k !in Writes(op) {
      OtherSteps(s, op, k);
    } else if op.CommitOp? {
      var t := op.transition;
      CommitAllOrNothing(s, t, op.token);
      EffectKeysAre(t.effects);
      if Commit(s, t, op.token).1.Success? && k !in t.controls {
        var i :| 0 <= i < |t.effects| && t.effects[i].key == k;
        assert Get(Next(s, op), t.effects[i].key) == Completed(Get(s, t.effects[i].key), t.effects[i].value);
      }
    }
  }

  /** A finished step that no operation writes as control state never changes again. */
  lemma {:induction false} DoneStays(s: BranchState, ops: seq<Op>, k: Key)
    requires Get(s, k).status == Done
    requires forall i :: 0 <= i < |ops| ==> !WritesAsControl(ops[i], k)
    ensures Get(Run(s, ops), k) == Get(s, k)
  {
    if ops != [] {
      var n := |ops| - 1;
      assert forall i :: 0 <= i < n ==> ops[..n][i] == ops[i];
      DoneStays(s, ops[..n], k);
      DoneStep(Run(s, ops[..n]), ops[n], k);
    }
  }

  predicate WritesAsControl(op: Op, k: Key) {
    match op
    case ControlOp(key, _, _) => key == k
    case CommitOp(t, _) => k in t.controls
    case _ => false
  }

  lemma DoneStep(s: BranchState, op: Op, k: Key)
    requires Get(s, k).status == Done && !WritesAsControl(op, k)
    ensures Get(Next(s, op), k) == Get(s, k)
  {
    if k !in Writes(op) {
      OtherSteps(s, op, k);
    } else if op.CommitOp? {
      var t := op.transition;
      CommitAllOrNothing(s, t, op.token);
      EffectKeysAre(t.effects);
      if Commit(s, t, op.token).1.Success? {
        var i :| 0 <= i < |t.effects| && t.effects[i].key == k;
        assert Get(Next(s, op), t.effects[i].key) == Completed(Get(s, t.effects[i].key), t.effects[i].value);
      }
    }
  }

  // ---- conservation ---------------------------------------------------------------------------

  /** What happened to one key: how often it was started, forgotten, released for a retry and
      completed while running, and the version its latest start produced. */
  datatype Tally = Tally(starts: nat, forgets: nat, retries: nat, completions: nat, latest: nat)

  const NO_TALLY := Tally(0, 0, 0, 0, 0)

  function Count(t: Tally, before: Step, op: Op, after: Step): Tally {
    if before == after then t
    else if op.StartOp? then t.(starts := t.starts + 1, latest := after.version)
    else if op.ForgetOp? then t.(forgets := t.forgets + 1)
    else if op.ResolveOp? && after.status == Ready then t.(retries := t.retries + 1)
    else t.(completions := t.completions + 1)
  }

  function TallyOf(s: BranchState, ops: seq<Op>, k: Key): Tally {
    if ops == [] then NO_TALLY else
    var n := |ops| - 1;
    var before := Run(s, ops[..n]);
    Count(TallyOf(s, ops[..n], k), Get(before, k), ops[n], Get(Next(before, ops[n]), k))
  }

  /** The operation treats `k` as an effect: it neither writes it as control state nor completes it
      from absent. */
  predicate AsEffect(op: Op, k: Key) {
    match op
    case ControlOp(key, _, _) => key != k
    case CommitOp(t, _) =>
      k !in t.controls && forall i :: 0 <= i < |t.effects| && t.effects[i].key == k ==> t.effects[i].expected == FromRunning
    case _ => true
  }

  function B(b: bool): nat { if b then 1 else 0 }

  ghost predicate Balanced(t: Tally, step: Step) {
    && t.starts == t.forgets + t.retries + t.completions + B(step.status == Running)
    && step.version == t.starts + t.forgets + t.retries + t.completions
    && (step.status == Running <==> step.version % 2 == 1)
    && t.completions == B(step.status == Done)
    && (step.status == Running ==> step.version == t.latest)
    && (step.status == Done ==> step.version == t.latest + 1)
    && t.latest <= step.version
  }

  /** The only ways an effect's step changes. */
  ghost predicate Moves(before: Step, op: Op, after: Step) {
    || before == after
    || (op.StartOp? && before.status in {Absent, Ready} && after == Step(Running, Null, before.version + 1))
    || (op.ForgetOp? && before.status == Running && after == Step(Absent, Null, before.version + 1))
    || (op.ResolveOp? && before.status == Running && after == Step(Ready, Null, before.version + 1))
    || ((op.FinishOp? || op.ResolveOp? || op.CommitOp?) && before.status == Running
        && after == Step(Done, after.value, before.version + 1))
  }

  lemma EffectMoves(s: BranchState, op: Op, k: Key)
    requires AsEffect(op, k)
    ensures Moves(Get(s, k), op, Get(Next(s, op), k))
  {
    if k !in Writes(op) {
      OtherSteps(s, op, k);
    } else if op.CommitOp? {
      var t := op.transition;
      CommitAllOrNothing(s, t, op.token);
      EffectKeysAre(t.effects);
      if Commit(s, t, op.token).1.Success? {
        var i :| 0 <= i < |t.effects| && t.effects[i].key == k;
        assert Acceptable(Get(s, t.effects[i].key), t.effects[i]);
        assert Get(Next(s, op), t.effects[i].key) == Completed(Get(s, t.effects[i].key), t.effects[i].value);
      }
    }
  }

  lemma MovesBalance(t: Tally, before: Step, op: Op, after: Step)
    requires Balanced(t, before) && Moves(before, op, after)
    ensures Balanced(Count(t, before, op, after), after)
  {
  }

  /** Conservation. Over any sequence of operations that treats a key as an effect: every start is
      accounted for by a forget, a retry, a completion, or by running now; the version counts the
      changes; and the step is running exactly when its version is odd. */
  lemma {:induction false} Conservation(ops: seq<Op>, k: Key)
    requires forall i :: 0 <= i < |ops| ==> AsEffect(ops[i], k)
    ensures Balanced(TallyOf(EMPTY, ops, k), Get(Run(EMPTY, ops), k))
  {
    if ops != [] {
      var n := |ops| - 1;
      assert forall i :: 0 <= i < n ==> ops[..n][i] == ops[i];
      Conservation(ops[..n], k);
      var s := Run(EMPTY, ops[..n]);
      EffectMoves(s, ops[n], k);
      MovesBalance(TallyOf(EMPTY, ops[..n], k), Get(s, k), ops[n], Get(Next(s, ops[n]), k));
    }
  }

  // ---- retry authority ------------------------------------------------------------------------

  /** Operation `i` of a run applies decision `id`. */
  predicate Applies(s: BranchState, ops: seq<Op>, i: nat, id: string)
    requires i < |ops|
  {
    ops[i].ResolveOp? && ops[i].resolution.decisionId == id
    && id !in StateAt(s, ops, i).decisions && id in StateAt(s, ops, i + 1).decisions
  }

  lemma RunSplit(s: BranchState, ops: seq<Op>, i: nat)
    requires i < |ops|
    ensures StateAt(s, ops, i + 1) == Next(StateAt(s, ops, i), ops[i])
  {
    assert ops[..i + 1][..i] == ops[..i];
  }

  lemma DecisionStep(s: BranchState, op: Op, id: string)
    requires id in s.decisions
    ensures id in Next(s, op).decisions && Next(s, op).decisions[id] == s.decisions[id]
  {
    OtherTables(s, op);
  }

  /** A decision is never dropped and never bound to another payload. */
  lemma {:induction false} DecisionsBind(s: BranchState, ops: seq<Op>, i: nat, j: nat, id: string)
    requires i <= j <= |ops| && id in StateAt(s, ops, i).decisions
    ensures id in StateAt(s, ops, j).decisions && StateAt(s, ops, j).decisions[id] == StateAt(s, ops, i).decisions[id]
  {
    if i < j {
      DecisionsBind(s, ops, i, j - 1, id);
      RunSplit(s, ops, j - 1);
      DecisionStep(StateAt(s, ops, j - 1), ops[j - 1], id);
    }
  }

  /** Each decision id is applied at most once in any run. */
  lemma AppliedOnce(s: BranchState, ops: seq<Op>, i: nat, j: nat, id: string)
    requires i < |ops| && j < |ops| && Applies(s, ops, i, id) && Applies(s, ops, j, id)
    ensures i == j
  {
    if i < j { DecisionsBind(s, ops, i + 1, j, id); }
    if j < i { DecisionsBind(s, ops, j + 1, i, id); }
  }

  /** A decision changes a step only when it is applied, and then only the attempt whose start
      produced the version it names. */
  lemma DecisionTargets(s: BranchState, k: Key, r: Resolution, stopped: bool, token: int)
    ensures Resolve(s, k, r, stopped, token).0 != s ==>
      && Get(s, k) == Step(Running, Get(s, k).value, r.expectedVersion)
      && r.decisionId !in s.decisions
      && Resolve(s, k, r, stopped, token).0.decisions ==
           s.decisions[r.decisionId := Payload(k, r.action, r.expectedVersion, r.reason, r.value, r.providerKey)]
    ensures forall other :: other != k ==> Get(Resolve(s, k, r, stopped, token).0, other) == Get(s, other)
  {
  }

  /** Within a run that treats `k` as an effect, the version a decision names is the version the
      latest start of `k` produced, so it cannot reach an earlier or a later attempt. */
  lemma DecisionMeetsLatestStart(ops: seq<Op>, i: nat, k: Key)
    requires i < |ops| && ops[i].ResolveOp? && ops[i].key == k
    requires forall j :: 0 <= j < |ops| ==> AsEffect(ops[j], k)
    requires StateAt(EMPTY, ops, i + 1) != StateAt(EMPTY, ops, i)
    ensures ops[i].resolution.expectedVersion == TallyOf(EMPTY, ops[..i], k).latest
  {
    RunSplit(EMPTY, ops, i);
    var op := ops[i];
    DecisionTargets(StateAt(EMPTY, ops, i), k, op.resolution, op.workersStopped, op.token);
    assert forall j :: 0 <= j < i ==> ops[..i][j] == ops[j];
    Conservation(ops[..i], k);
  }

  predicate Replays(op: Op, s: BranchState) {
    op.ResolveOp? && op.resolution.decisionId in s.decisions
  }

  /** Replaying decisions that were already applied, any number of times and after any later
      history, changes nothing at all; in particular it permits no further start. */
  lemma {:induction false} ReplayIsInert(s: BranchState, history: seq<Op>, replay: seq<Op>)
    requires forall i :: 0 <= i < |replay| ==> Replays(replay[i], s)
    ensures Run(Run(s, history), replay) == Run(s, history)
  {
    if replay != [] {
      var n := |replay| - 1;
      assert forall i :: 0 <= i < n ==> replay[..n][i] == replay[i];
      ReplayIsInert(s, history, replay[..n]);
      var id := replay[n].resolution.decisionId;
      assert Replays(replay[n], s);
      DecisionsBind(s, history, 0, |history|, id);
      assert history[..0] == [] && history[..|history|] == history;
    }
  }

  // ---- fencing --------------------------------------------------------------------------------

  datatype Grant = Grant(owner: Owner, token: nat)

  function GrantOf(s: BranchState, op: Op): seq<Grant> {
    if op.AcquireOp? && Acquire(s, op.owner, op.expired).1 != 0
    then [Grant(op.owner, Acquire(s, op.owner, op.expired).1)] else []
  }

  /** Every token handed out in a run, in order: first grants, renewals and takeovers. */
  function Grants(s: BranchState, ops: seq<Op>): seq<Grant> {
    if ops == [] then [] else
    var n := |ops| - 1;
    Grants(s, ops[..n]) + GrantOf(Run(s, ops[..n]), ops[n])
  }

  /** The token a lease-protected write presents. */
  function Presented(op: Op): Option<int> {
    match op
    case StartOp(_, t) => Some(t)
    case FinishOp(_, _, t) => Some(t)
    case ControlOp(_, _, t) => Some(t)
    case ForgetOp(_, t) => Some(t)
    case ResolveOp(_, _, _, t) => Some(t)
    case ClaimOp(_, t) => Some(t)
    case AdmitOp(_, t) => Some(t)
    case DiscardOp(_, t) => Some(t)
    case CommitOp(_, t) => Some(t)
    case _ => None
  }

  function PassedOf(s: BranchState, op: Op): seq<int> {
    if Presented(op).Some? && Presented(op).value != 0 && !Stale(s, Presented(op).value)
    then [Presented(op).value] else []
  }

  /** The nonzero tokens of the writes that passed the fence, in order. */
  function Passed(s: BranchState, ops: seq<Op>): seq<int> {
    if ops == [] then [] else
    var n := |ops| - 1;
    Passed(s, ops[..n]) + PassedOf(Run(s, ops[..n]), ops[n])
  }

  predicate Named(op: Op) {
    op.AcquireOp? ==> op.owner != ""
  }

  /** The lease always carries the last token issued. */
  predicate LeaseOk(s: BranchState) {
    && (s.lease.None? ==> s.issued == 0)
    && (s.lease.Some? ==> s.lease.value.token == s.issued && s.issued > 0)
  }

  lemma LeaseStep(s: BranchState, op: Op)
    requires LeaseOk(s)
    ensures LeaseOk(Next(s, op)) && s.issued <= Next(s, op).issued
  {
    OtherTables(s, op);
  }

  ghost predicate GrantsOk(s: BranchState, grants: seq<Grant>) {
    && LeaseOk(s)
    && (forall i :: 0 <= i < |grants| ==> 0 < grants[i].token <= s.issued)
    && (forall i :: 0 <= i < |grants| && grants[i].token == s.issued && s.lease.Some? && s.lease.value.owner != "" ==>
          grants[i].owner == s.lease.value.owner)
    && (forall i, j :: 0 <= i <= j < |grants| ==> grants[i].token <= grants[j].token)
    && (forall i, j :: 0 <= i < |grants| && 0 <= j < |grants| && grants[i].token == grants[j].token ==>
          grants[i].owner == grants[j].owner)
  }

  lemma GrantAppended(r: BranchState, grants: seq<Grant>, g: Grant)
    requires LeaseOk(r) && r.lease == Some(Lease(g.owner, g.token))
    requires forall i :: 0 <= i < |grants| ==> 0 < grants[i].token <= g.token
    requires forall i :: 0 <= i < |grants| && grants[i].token == g.token ==> grants[i].owner == g.owner
    requires forall i, j :: 0 <= i <= j < |grants| ==> grants[i].token <= grants[j].token
    requires forall i, j :: 0 <= i < |grants| && 0 <= j < |grants| && grants[i].token == grants[j].token ==>
      grants[i].owner == grants[j].owner
    ensures GrantsOk(r, grants + [g])
  {
  }

  lemma AcquireKeepsGrants(s: BranchState, grants: seq<Grant>, owner: Owner, expired: bool)
    requires GrantsOk(s, grants) && owner != ""
    ensures GrantsOk(Acquire(s, owner, expired).0, grants + GrantOf(s, AcquireOp(owner, expired)))
  {
    var (r, token) := Acquire(s, owner, expired);
    if token == 0 {
      assert grants + GrantOf(s, AcquireOp(owner, expired)) == grants;
    } else {
      GrantAppended(r, grants, Grant(owner, token));
    }
  }

  lemma QuietKeepsGrants(s: BranchState, grants: seq<Grant>, r: BranchState)
    requires GrantsOk(s, grants) && r.issued == s.issued
    requires r.lease == s.lease || (s.lease.Some? && r.lease == Some(Lease("", s.lease.value.token)))
    ensures GrantsOk(r, grants)
  {
  }

  lemma GrantStep(s: BranchState, grants: seq<Grant>, op: Op)
    requires GrantsOk(s, grants) && Named(op)
    ensures GrantsOk(Next(s, op), grants + GrantOf(s, op))
  {
    if op.AcquireOp? {
      AcquireKeepsGrants(s, grants, op.owner, op.expired);
    } else {
      OtherTables(s, op);
      QuietKeepsGrants(s, grants, Next(s, op));
      assert grants + GrantOf(s, op) == grants;
    }
  }

  /** With nonempty owners, every token belongs to one owner and tokens never go back, across first
      grants, renewals, takeovers and releases. */
  lemma {:induction false} TokensBelong(ops: seq<Op>)
    requires forall i :: 0 <= i < |ops| ==> Named(ops[i])
    ensures GrantsOk(Run(EMPTY, ops), Grants(EMPTY, ops))
  {
    if ops != [] {
      var n := |ops| - 1;
      assert forall i :: 0 <= i < n ==> ops[..n][i] == ops[i];
      TokensBelong(ops[..n]);
      GrantStep(Run(EMPTY, ops[..n]), Grants(EMPTY, ops[..n]), ops[n]);
    }
  }

  /** The operation presents no token, or one that was handed out before it. */
  ghost predicate Honest(ops: seq<Op>, i: nat)
    requires i < |ops|
  {
    var t := Presented(ops[i]);
    t.None? || t.value == 0 || exists j :: 0 <= j < |Grants(EMPTY, ops[..i])| && Grants(EMPTY, ops[..i])[j].token == t.value
  }

  ghost predicate Rising(tokens: seq<int>) {
    forall i, j :: 0 <= i <= j < |tokens| ==> tokens[i] <= tokens[j]
  }

  /** When writers present tokens they were given, the tokens of accepted writes never go back: once
      a successor has written, no write of its predecessor is accepted. */
  lemma {:induction false} AcceptedTokensRise(ops: seq<Op>)
    requires forall i :: 0 <= i < |ops| ==> Named(ops[i])
    requires forall i :: 0 <= i < |ops| ==> Honest(ops, i)
    ensures Rising(Passed(EMPTY, ops))
    ensures forall i :: 0 <= i < |Passed(EMPTY, ops)| ==> Passed(EMPTY, ops)[i] <= Run(EMPTY, ops).issued
  {
    if ops != [] {
      var n := |ops| - 1;
      var init := ops[..n];
      forall i | 0 <= i < n ensures Named(init[i]) && Honest(init, i) {
        assert init[i] == ops[i] && init[..i] == ops[..i];
        assert Honest(ops, i);
      }
      AcceptedTokensRise(init);
      TokensBelong(init);
      var s := Run(EMPTY, init);
      LeaseStep(s, ops[n]);
      assert Honest(ops, n);
      var t := Presented(ops[n]);
      assert PassedOf(s, ops[n]) != [] ==> t.value == s.issued;
    }
  }

  /** Both provisos are needed. An empty owner renews a released lease under its predecessor's token,
      and a token nobody was given passes the fence before it is issued. */
  lemma FencingProvisosAreNeeded()
    ensures Grants(EMPTY, [AcquireOp("w", true), ReleaseOp("w"), AcquireOp("", true)]) == [Grant("w", 1), Grant("", 1)]
    ensures Passed(EMPTY, [ForgetOp("k", 9), ForgetOp("k", 5)]) == [9, 5]
  {
    var one := [AcquireOp("w", true)];
    var two := one + [ReleaseOp("w")];
    var three := two + [AcquireOp("", true)];
    assert three[..2] == two && two[..1] == one && one[..0] == [];
    assert Run(EMPTY, one) == Next(Run(EMPTY, []), one[0]);
    assert Run(EMPTY, two) == Next(Run(EMPTY, one), two[1]);
    var p := [ForgetOp("k", 9)];
    var q := p + [ForgetOp("k", 5)];
    assert q[..1] == p && p[..0] == [];
    assert Run(EMPTY, p) == EMPTY;
    assert three == [AcquireOp("w", true), ReleaseOp("w"), AcquireOp("", true)];
    assert q == [ForgetOp("k", 9), ForgetOp("k", 5)];
  }

  // ---- the queue ------------------------------------------------------------------------------

  function Rank(status: InputStatus): nat {
    match status case Pending => 0 case Claimed => 1 case Admitted => 2 case Discarded => 3
  }

  /** Every input of `s` is still queued in `r`, with its value, and its status has not gone back. */
  ghost predicate Onward(s: BranchState, r: BranchState) {
    && s.order <= r.order
    && forall id :: id in s.inputs ==>
         id in r.inputs && r.inputs[id].value == s.inputs[id].value
         && Rank(s.inputs[id].status) <= Rank(r.inputs[id].status)
  }

  lemma {:induction false} AdmitOnward(s: BranchState, ids: seq<InputId>)
    ensures Onward(s, AdmitEach(s, ids))
  {
    if ids != [] { AdmitOnward(s, ids[..|ids| - 1]); }
  }

  lemma {:induction false} DiscardOnward(s: BranchState, ids: seq<InputId>)
    ensures Onward(s, DiscardEach(s, ids))
  {
    if ids != [] { DiscardOnward(s, ids[..|ids| - 1]); }
  }

  lemma OnwardStep(s: BranchState, op: Op)
    ensures Onward(s, Next(s, op))
  {
    match op
    case AdmitOp(ids, _) => AdmitOnward(s, ids);
    case DiscardOp(ids, _) => DiscardOnward(s, ids);
    case CommitOp(t, token) => CommitAllOrNothing(s, t, token);
    case _ =>
  }

  /** No operation removes an input, changes what it says, moves it in the queue, or takes its
      status back from discarded, admitted or claimed. */
  lemma {:induction false} InputsOnlyAdvance(s: BranchState, ops: seq<Op>)
    ensures Onward(s, Run(s, ops))
  {
    if ops != [] {
      var n := |ops| - 1;
      InputsOnlyAdvance(s, ops[..n]);
      OnwardStep(Run(s, ops[..n]), ops[n]);
    }
  }

  lemma {:induction false} NewIdsOnce(known: set<InputId>, inputs: seq<(InputId, Value)>)
    ensures forall i, j :: 0 <= i < j < |NewIds(known, inputs)| ==> NewIds(known, inputs)[i] != NewIds(known, inputs)[j]
  {
    if inputs != [] { NewIdsOnce(known, inputs[..|inputs| - 1]); }
  }

  lemma QueueGrows(s: BranchState, r: BranchState, more: seq<InputId>)
    requires QueueOk(s) && r.order == s.order + more
    requires forall id :: id in r.inputs <==> id in s.inputs || id in more
    requires forall i :: 0 <= i < |more| ==> more[i] !in s.inputs
    requires forall i, j :: 0 <= i < j < |more| ==> more[i] != more[j]
    ensures QueueOk(r)
  {
    forall id | id in r.inputs ensures id in r.order { }
  }

  lemma QueueStep(s: BranchState, op: Op)
    requires QueueOk(s)
    ensures QueueOk(Next(s, op))
  {
    match op
    case AdmitOp(ids, _) => AdmitEachFrame(s, ids);
    case DiscardOp(ids, _) => DiscardEachFrame(s, ids);
    case EnqueueOp(id, v) =>
      if id !in s.inputs { QueueGrows(s, Next(s, op), [id]); }
    case CommitOp(t, token) =>
      CommitAllOrNothing(s, t, token);
      if Commit(s, t, token).1.Success? {
        NewIdsOnce(s.inputs.Keys, t.inputs);
        var more := NewIds(s.inputs.Keys, t.inputs);
        forall id ensures id in more <==> id in Commit(s, t, token).1.value { NewIdsAre(s.inputs.Keys, t.inputs, id); }
        QueueGrows(s, Next(s, op), more);
      }
    case _ =>
  }

  /** The queue of every reachable branch lists each of its inputs exactly once. */
  lemma {:induction false} QueueListsEachOnce(s: BranchState, ops: seq<Op>)
    requires QueueOk(s)
    ensures QueueOk(Run(s, ops))
  {
    if ops != [] {
      var n := |ops| - 1;
      QueueListsEachOnce(s, ops[..n]);
      QueueStep(Run(s, ops[..n]), ops[n]);
    }
  }
}
