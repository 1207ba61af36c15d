/** The two stores under the same operations: they accept and refuse alike, answer alike and stay
    in step, for any sequence of operations on any branches. */
module StoreAgreement {
  import opened Wrappers
  import opened Ledger
  import opened LedgerLaws
  import opened MemoryStore
  import opened PostgresStore
  import opened Views

  /** Two answers agree: both refuse, or both accept and say the same. */
  predicate SameReply(a: Reply, b: Reply) {
    if a.Refused? then b.Refused? else a == b
  }

  /** An answer tells its caller everything the store said: different outcomes never answer alike. */
  lemma AnswersTellApart(a: Result<(), Error>, b: Result<(), Error>, c: Result<bool, Error>, d: Result<bool, Error>,
                         e: Result<Step, Error>, f: Result<Step, Error>, g: Result<set<InputId>, Error>, h: Result<set<InputId>, Error>)
    ensures Plain(a) == Plain(b) ==> a == b
    ensures Flagged(c) == Flagged(d) ==> c == d
    ensures Stepped(e) == Stepped(f) ==> e == f
    ensures Inserting(g) == Inserting(h) ==> g == h
    ensures Plain(a).Refused? == a.Failure? && Flagged(c).Refused? == c.Failure?
    ensures Stepped(e).Refused? == e.Failure? && Inserting(g).Refused? == g.Failure?
  {
    if a.Success? && b.Success? { assert a.value == () && b.value == (); }
  }

  /** The calls the stores answer differently: an empty batch that presents a stale token. */
  predicate SilentBatch(s: BranchState, op: Op) {
    match op
    case AdmitOp(ids, token) => ids == [] && Stale(s, token)
    case DiscardOp(ids, token) => ids == [] && Stale(s, token)
    case _ => false
  }

  /** One operation on the in-memory ledger. The verdict on somebody else's lease is given, so a
      clock reading is chosen that yields it. */
  method PerformInMemory(m: MemorySteps, b: string, op: Op) returns (reply: Reply)
    requires m.Valid() && QueueOk(m.View(b))
    modifies m
    ensures m.Valid()
    ensures m.View(b) == Next(old(m.View(b)), op) && reply == Answer(old(m.View(b)), op)
    ensures forall c :: c != b ==> m.View(c) == old(m.View(c))
  {
    hide MemorySteps.Valid, MemorySteps.View, Get, Start, FinishEffect, WriteControl, Forget, Resolve, Acquire, Release,
      Enqueue, ClaimInput, AdmitInputs, DiscardInputs, Commit, ListInputs, QueueOk;
    match op
    case ReadOp(k) => var step := m.Read(b, k); reply := Found(step);
    case StartOp(k, t) => var r := m.Start(b, k, t); reply := Flagged(r);
    case FinishOp(k, v, t) => var r := m.FinishEffect(b, k, v, t); reply := Plain(r);
    case ControlOp(k, v, t) => var r := m.WriteControl(b, k, v, t); reply := Plain(r);
    case ForgetOp(k, t) => var r := m.Forget(b, k, t); reply := Plain(r);
    case ResolveOp(k, d, w, t) => var r := m.ResolveEffect(b, k, d, w, t); reply := Stepped(r);
    case AcquireOp(o, x) => reply := AcquireInMemory(m, b, o, x);
    case ReleaseOp(o) => m.Release(b, o, 0); reply := Accepted;
    case EnqueueOp(id, v) => var added := m.EnqueueInput(b, id, v); reply := Flag(added);
    case ListOp => var records := m.ListInputs(b); reply := Listing(Unnumbered(records));
    case ClaimOp(id, t) => var r := m.ClaimInput(b, id, t); reply := Plain(r);
    case AdmitOp(ids, t) => var r := m.AdmitInputs(b, ids, t); reply := Plain(r);
    case DiscardOp(ids, t) => var r := m.DiscardInputs(b, ids, t); reply := Plain(r);
    case CommitOp(tr, t) => var r := m.CommitTransition(b, tr, t); reply := Inserting(r);
  }

  function Unnumbered(records: seq<InputRecord>): (r: seq<Listed>)
    ensures r == MemoryStore.Strip(records)
  {
    seq(|records|, i requires 0 <= i < |records| => Listed(records[i].id, records[i].status, records[i].value))
  }

  method AcquireInMemory(m: MemorySteps, b: string, owner: Owner, expired: bool) returns (reply: Reply)
    requires m.Valid()
    modifies m
    ensures m.Valid()
    ensures m.View(b) == Acquire(old(m.View(b)), owner, expired).0
    ensures reply == Token(Acquire(old(m.View(b)), owner, expired).1)
    ensures forall c :: c != b ==> m.View(c) == old(m.View(c))
  {
    assert MemoryStore.BranchOf(m.Now(), b, m.View(b));
    var now := if b !in m.leases then 0 else if expired then m.leases[b].deadline else m.leases[b].deadline - 1;
    var token := m.Acquire(b, owner, 60, now);
    reply := Token(token);
  }

  /** The same operation on PostgreSQL. */
  method PerformInPostgres(p: PostgresSteps, b: string, op: Op) returns (reply: Reply)
    requires p.Valid() && QueueOk(p.View(b))
    modifies p
    ensures p.Valid()
    ensures p.View(b) == Next(old(p.View(b)), op)
    ensures SameReply(Answer(old(p.View(b)), op), reply) <==> !SilentBatch(old(p.View(b)), op)
    ensures forall c :: c != b ==> p.View(c) == old(p.View(c))
  {
    hide PostgresSteps.Valid, PostgresSteps.View, Get, Start, FinishEffect, WriteControl, Forget, Resolve, Acquire, Release,
      Enqueue, ClaimInput, Commit, ListInputs, QueueOk;
    match op
    case ReadOp(k) => var step := p.Read(b, k); reply := Found(step);
    case StartOp(k, t) => var r := p.Start(b, k, t); reply := Flagged(r);
    case FinishOp(k, v, t) => var r := p.FinishEffect(b, k, v, t); reply := Plain(r);
    case ControlOp(k, v, t) => var r := p.WriteControl(b, k, v, t); reply := Plain(r);
    case ForgetOp(k, t) => var r := p.Forget(b, k, t); reply := Plain(r);
    case ResolveOp(k, d, w, t) => var r := p.ResolveEffect(b, k, d, w, t); reply := Stepped(r);
    case AcquireOp(o, x) => reply := AcquireInPostgres(p, b, o, x);
    case ReleaseOp(o) => p.Release(b, o); reply := Accepted;
    case EnqueueOp(id, v) => var added := p.EnqueueInput(b, id, v); reply := Flag(added);
    case ListOp => var records := p.ListInputs(b); reply := Listing(records);
    case ClaimOp(id, t) => var r := p.ClaimInput(b, id, t); reply := Plain(r);
    case AdmitOp(ids, t) => EmptyBatchDisagrees(p.View(b), ids, t); var r := p.AdmitInputs(b, ids, t); reply := Plain(r);
    case DiscardOp(ids, t) => EmptyBatchDisagrees(p.View(b), ids, t); var r := p.DiscardInputs(b, ids, t); reply := Plain(r);
    case CommitOp(tr, t) => var r := p.CommitTransition(b, tr, t); reply := Inserting(r);
  }

  method AcquireInPostgres(p: PostgresSteps, b: string, owner: Owner, expired: bool) returns (reply: Reply)
    requires p.Valid()
    modifies p
    ensures p.Valid()
    ensures p.View(b) == Acquire(old(p.View(b)), owner, expired).0
    ensures reply == Token(Acquire(old(p.View(b)), owner, expired).1)
    ensures forall c :: c != b ==> p.View(c) == old(p.View(c))
  {
    assert PostgresStore.BranchOf(p.Now(), b, p.View(b));
    var now := if b !in p.leases then 0 else if expired then p.leases[b].expiresAt + 1 else p.leases[b].expiresAt;
    var token := p.Acquire(b, owner, 60, now);
    reply := Token(token);
  }

  ghost predicate InStep(m: MemorySteps, p: PostgresSteps)
    reads m, p
  {
    m.Valid() && p.Valid() && forall b :: m.View(b) == p.View(b) && QueueOk(m.View(b))
  }

  /** The store means what the views say. */
  ghost predicate Mirrors(m: MemorySteps, views: Views)
    reads m
  {
    forall b :: m.View(b) == Of(views, b)
  }

  /** One call on both stores: their answers agree unless it is an empty batch with a stale token,
      and they stay in step in any case. */
  method CallBoth(m: MemorySteps, p: PostgresSteps, ghost views: Views, b: string, op: Op) returns (here: Reply, there: Reply)
    requires InStep(m, p) && Mirrors(m, views)
    modifies m, p
    ensures InStep(m, p) && Mirrors(m, views[b := Next(Of(views, b), op)])
    ensures SameReply(here, there) <==> !SilentBatch(Of(views, b), op)
  {
    hide MemoryStore.BranchOf, PostgresStore.BranchOf;
    QueueStep(m.View(b), op);
    here := PerformInMemory(m, b, op);
    there := PerformInPostgres(p, b, op);
  }

  lemma ServedNone(views: Views, script: seq<(string, Op)>)
    ensures Served(views, script[..0]) == views && Verdicts(views, script[..0], [], [])
  {
  }

  /** The stores answered every call of the script alike, but for empty batches under tokens that were
      stale by then. */
  ghost predicate Verdicts(views: Views, script: seq<(string, Op)>, here: seq<Reply>, there: seq<Reply>) {
    |here| == |there| == |script| &&
    forall i: nat :: i < |script| ==>
      (SameReply(here[i], there[i]) <==> !SilentBatch(Of(Served(views, script[..i]), script[i].0), script[i].1))
  }

  lemma VerdictMore(views: Views, script: seq<(string, Op)>, n: nat, here: seq<Reply>, there: seq<Reply>, x: Reply, y: Reply)
    requires n < |script| && Verdicts(views, script[..n], here, there)
    requires SameReply(x, y) <==> !SilentBatch(Of(Served(views, script[..n]), script[n].0), script[n].1)
    ensures Verdicts(views, script[..n + 1], here + [x], there + [y])
  {
    hide SameReply, SilentBatch, Served;
    forall i: nat | i <= n ensures script[..n + 1][..i] == script[..i] && (i < n ==> script[..n][..i] == script[..i]) { }
  }

  /** Any script of calls, on any branches, against both stores. They stay in step, and they answer a
      call differently exactly when it is an empty batch under a token that is stale by then. */
  method Replay(m: MemorySteps, p: PostgresSteps, script: seq<(string, Op)>) returns (here: seq<Reply>, there: seq<Reply>)
    requires InStep(m, p)
    modifies m, p
    ensures InStep(m, p) && Mirrors(m, Served(old(m.views), script))
    ensures Verdicts(old(m.views), script, here, there)
  {
    ServedNone(m.views, script);
    assert Mirrors(m, m.views);
    hide MemorySteps.Valid, PostgresSteps.Valid, SilentBatch, SameReply, Served, Verdicts, InStep, Mirrors;
    here, there := [], [];
    for n := 0 to |script|
      invariant InStep(m, p) && Mirrors(m, Served(old(m.views), script[..n]))
      invariant Verdicts(old(m.views), script[..n], here, there)
    {
      ghost var views := Served(old(m.views), script[..n]);
      ServedNext(old(m.views), script, n);
      var x, y := CallBoth(m, p, views, script[n].0, script[n].1);
      VerdictMore(old(m.views), script, n, here, there, x, y);
      here, there := here + [x], there + [y];
    }
    assert script[..|script|] == script;
  }
}
