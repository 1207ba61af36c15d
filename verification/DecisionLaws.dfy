/** What a host's decision must bring, when it is accepted, and what each refusal says. */
module DecisionLaws {
  import opened Wrappers
  import opened Values
  import opened Ledger
  import opened LedgerLaws

  /** Something is left of the text when spaces are stripped. */
  predicate HasText(text: string) {
    exists i :: 0 <= i < |text| && !IsSpace(text[i])
  }

  /** Spaces, tabs and line ends count as nothing, and every visible character of ASCII counts. */
  lemma VisibleTextCounts(text: string, i: nat)
    ensures i < |text| && '!' <= text[i] <= '~' ==> HasText(text)
    ensures IsSpace(' ') && IsSpace('\t') && IsSpace('\n') && IsSpace('\r')
    ensures !HasText("") && !HasText(" \t\n")
  {
  }

  /** A decision names itself, its reason and a version, and a retry brings no result. */
  predicate WellMade(r: Resolution) {
    && HasText(r.decisionId) && HasText(r.reason)
    && r.expectedVersion >= 1
    && (r.action == Retry ==> r.value == Null)
    && (r.providerKey.Some? ==> HasText(r.providerKey.value))
  }

  /** It comes with a key, from a host that vouches for the old workers. */
  predicate Vouched(k: Key, r: Resolution, workersStopped: bool) {
    workersStopped && HasText(k) && WellMade(r)
  }

  /** Exactly when a decision is accepted: it passes the fence, it is well made, and it is either new and
      meets its running version, or was applied before with the very same parameters. */
  lemma DecisionAcceptedExactlyWhen(s: BranchState, k: Key, r: Resolution, workersStopped: bool, token: int)
    ensures Resolve(s, k, r, workersStopped, token).1.Success? <==>
      && !(token != 0 && token < s.issued)
      && workersStopped && HasText(k) && HasText(r.decisionId) && HasText(r.reason) && r.expectedVersion >= 1
      && (r.action == Retry ==> r.value == Null) && (r.providerKey.Some? ==> HasText(r.providerKey.value))
      && if r.decisionId in s.decisions
         then s.decisions[r.decisionId] == Payload(k, r.action, r.expectedVersion, r.reason, r.value, r.providerKey)
         else Get(s, k).status == Running && Get(s, k).version == r.expectedVersion
  {
  }

  /** What each refusal says: first the fence, then the form, and then, of a well-made decision, that its id
      stands for other parameters, or that the step is not the one it decides. A refusal changes nothing. */
  lemma EveryRefusalIsTold(s: BranchState, k: Key, r: Resolution, workersStopped: bool, token: int)
    ensures var (next, reply) := Resolve(s, k, r, workersStopped, token);
      && (reply == Failure(Fenced) <==> token != 0 && token < s.issued)
      && (reply == Failure(Invalid) <==> !(token != 0 && token < s.issued) && !Vouched(k, r, workersStopped))
      && (reply.Failure? ==> next == s)
      && (reply == Failure(Conflict) <==>
            && !(token != 0 && token < s.issued) && Vouched(k, r, workersStopped)
            && if r.decisionId in s.decisions
               then s.decisions[r.decisionId] != Payload(k, r.action, r.expectedVersion, r.reason, r.value, r.providerKey)
               else Get(s, k).status != Running || Get(s, k).version != r.expectedVersion)
  {
  }

  /** What an accepted decision does: applied before, nothing; new, it settles the step with the host's
      result or releases it, one version later, and remembers itself with every parameter. */
  lemma AcceptedDecisionDoes(s: BranchState, k: Key, r: Resolution, workersStopped: bool, token: int)
    requires Resolve(s, k, r, workersStopped, token).1.Success?
    ensures var (next, reply) := Resolve(s, k, r, workersStopped, token);
      && reply == Success(Get(next, k))
      && (r.decisionId in s.decisions ==> next == s)
      && (r.decisionId !in s.decisions ==>
            && Get(next, k) == Step(if r.action == Complete then Done else Ready,
                                    if r.action == Complete then r.value else Null, r.expectedVersion + 1)
            && next.decisions == s.decisions[r.decisionId :=
                 Payload(k, r.action, r.expectedVersion, r.reason, r.value, r.providerKey)]
            && next == s.(entries := next.entries, decisions := next.decisions)
            && forall other :: other != k ==> Get(next, other) == Get(s, other))
  {
  }

  /** Nothing a host says changes anything unless it vouches for the old workers and the decision is well
      made. */
  lemma DecisionsNeedAuthority(s: BranchState, k: Key, r: Resolution, workersStopped: bool, token: int)
    requires Resolve(s, k, r, workersStopped, token).0 != s
    ensures workersStopped && HasText(k) && HasText(r.decisionId) && HasText(r.reason) && r.expectedVersion >= 1
    ensures (r.action == Retry ==> r.value == Null) && (r.providerKey.Some? ==> HasText(r.providerKey.value))
  {
    DecisionAcceptedExactlyWhen(s, k, r, workersStopped, token);
    EveryRefusalIsTold(s, k, r, workersStopped, token);
  }

  // ---- how often a call was released ----------------------------------------------------------

  /** The remembered decisions that released a step. */
  ghost function RetriesOf(s: BranchState, k: Key): set<string> {
    set d | d in s.decisions && s.decisions[d].key == k && s.decisions[d].action == Retry
  }

  lemma RetriesApplied(s: BranchState, op: Op, k: Key)
    requires op.ResolveOp? && Next(s, op) != s
    ensures op.resolution.decisionId !in s.decisions
    ensures RetriesOf(Next(s, op), k) ==
      RetriesOf(s, k) + if op.key == k && op.resolution.action == Retry then {op.resolution.decisionId} else {}
    ensures Get(Next(s, op), k) == if op.key != k then Get(s, k) else
      Step(if op.resolution.action == Complete then Done else Ready,
           if op.resolution.action == Complete then op.resolution.value else Null, op.resolution.expectedVersion + 1)
    ensures op.key == k ==> Get(s, k).version == op.resolution.expectedVersion
  {
    var r := op.resolution;
    EveryRefusalIsTold(s, op.key, r, op.workersStopped, op.token);
    AcceptedDecisionDoes(s, op.key, r, op.workersStopped, op.token);
    DecisionAcceptedExactlyWhen(s, op.key, r, op.workersStopped, op.token);
    hide Resolve, HasText, WellMade, Vouched;
  }

  lemma RetriesStep(s: BranchState, op: Op, k: Key)
    ensures |RetriesOf(Next(s, op), k)| == |RetriesOf(s, k)| +
      if Get(Next(s, op), k) != Get(s, k) && op.ResolveOp? && Get(Next(s, op), k).status == Ready then 1 else 0
  {
    hide Next;
    if op.ResolveOp? && Next(s, op) != s {
      RetriesApplied(s, op, k);
    } else if !op.ResolveOp? {
      OtherTables(s, op);
      assert RetriesOf(Next(s, op), k) == RetriesOf(s, k);
    }
  }

  /** The retries a history counts are the decisions that released the step, each id once. */
  lemma {:induction false} RetriesAreDecisions(ops: seq<Op>, k: Key)
    ensures TallyOf(EMPTY, ops, k).retries == |RetriesOf(Run(EMPTY, ops), k)|
  {
    hide Next, RetriesOf;
    if ops == [] {
      NoRetries(k);
    } else {
      var n := |ops| - 1;
      RetriesAreDecisions(ops[..n], k);
      RetriesStep(Run(EMPTY, ops[..n]), ops[n], k);
    }
  }

  lemma NoRetries(k: Key)
    ensures RetriesOf(EMPTY, k) == {}
  {
  }
}
