/** Tool-policy decisions of one attempt: who may run, who waits for approval, and what a suspension
    does to the rest of its round. The gate and the resume policy are opaque: what they answer about
    a call is given with the question. */
module Policy {
  import opened Wrappers

  datatype Decision = Continue | Deny(result: string) | Suspend(pendingId: string)

  const NOT_EXECUTED :=
    "not executed: an earlier call in this round awaits approval; reissue it once that is decided"

  datatype ToolKind = Function | Unapproved | OtherKind
  datatype Tool = Tool(name: string, kind: ToolKind, concurrencySafe: bool, sequential: bool)

  /** One call to decide: what the model asked for, the arguments a person approved instead, and what the
      policies would answer: the gate, and the resume policy when the call was parked and policies are
      in force. */
  datatype Question = Question(
    id: string,
    tool: string,
    input: string,
    args: Option<string>,
    approved: bool,
    recorded: bool,
    gate: Option<Decision>,
    onResume: Option<Decision>)

  datatype Note = Note(id: string, tool: string, input: string, refused: bool)

  /** What the policy remembers during an attempt. */
  datatype Memory = Memory(regate: set<string>, approvalTools: set<string>, suspended: bool, made: seq<Note>)

  /** The call's result is on record and stands without asking the gate again. */
  predicate Stands(m: Memory, q: Question) {
    q.recorded && q.id !in m.regate
  }

  /** Neither on record nor approved: only the gate can let it run. */
  predicate Fresh(m: Memory, q: Question) {
    !Stands(m, q) && !q.approved
  }

  function Gated(m: Memory, q: Question): Decision {
    var asked := if q.gate.Some? then q.gate.value else Continue;
    var decision := if asked == Continue && q.tool in m.approvalTools then Suspend(q.id) else asked;
    if m.suspended && !decision.Suspend? then Deny(NOT_EXECUTED) else decision
  }

  /** The arguments the call is decided and noted with: an approved call may carry others. */
  function Effective(m: Memory, q: Question): string {
    if !Stands(m, q) && q.approved && q.args.Some? then q.args.value else q.input
  }

  /** A decision, or none for a suspension nobody could ever answer. */
  function Decide(m: Memory, q: Question): (Memory, Option<Decision>) {
    var decision :=
      if Stands(m, q) then Continue
      else if q.approved then (if q.onResume.Some? then q.onResume.value else Continue)
      else Gated(m, q);
    if decision.Suspend? && decision.pendingId == "" then (m, None)
    else
      (m.(suspended := m.suspended || decision.Suspend?, made := m.made + [Note(q.id, q.tool, Effective(m, q), decision != Continue)]),
       Some(decision))
  }

  /** The verdict on a call, case by case. A record that was not named for another look stands. An approved
      call is what the resume policy makes of it. Any other is what the gate makes of it, except that a
      tool that needs approval is not simply let through, and that behind a suspended call of the round
      only another suspension is left. */
  predicate Rules(m: Memory, q: Question, verdict: Decision) {
    if q.recorded && q.id !in m.regate then verdict == Continue
    else if q.approved then verdict == (match q.onResume case None => Continue case Some(d) => d)
    else
      match q.gate
      case Some(Suspend(id)) => verdict == Suspend(id)
      case Some(Deny(text)) => verdict == if m.suspended then Deny(NOT_EXECUTED) else Deny(text)
      case _ =>
        verdict == if q.tool in m.approvalTools then Suspend(q.id)
                   else if m.suspended then Deny(NOT_EXECUTED) else Continue
  }

  /** What deciding a call comes to. A suspension nobody could answer is an error and leaves no trace; any
      other verdict is given, noted with the arguments it was reached on, and marks the round if it
      suspends. */
  ghost predicate Decides(m: Memory, q: Question, next: Memory, decision: Option<Decision>) {
    exists verdict :: Rules(m, q, verdict) &&
      if verdict == Suspend("") then decision == None && next == m
      else
        var input := if !(q.recorded && q.id !in m.regate) && q.approved && q.args.Some? then q.args.value else q.input;
        && decision == Some(verdict)
        && next == Memory(m.regate, m.approvalTools, m.suspended || verdict.Suspend?,
                          m.made + [Note(q.id, q.tool, input, verdict != Continue)])
  }

  lemma GateRules(m: Memory, q: Question)
    requires !(q.recorded && q.id !in m.regate) && !q.approved
    ensures Rules(m, q, Gated(m, q))
  {
  }

  lemma DecideDecides(m: Memory, q: Question)
    ensures Decides(m, q, Decide(m, q).0, Decide(m, q).1)
  {
    var verdict :=
      if Stands(m, q) then Continue
      else if q.approved then (if q.onResume.Some? then q.onResume.value else Continue)
      else Gated(m, q);
    if Fresh(m, q) { GateRules(m, q); }
    assert Rules(m, q, verdict);
    hide Rules, Gated;
  }

  class PolicyRunner {
    const regate: set<string>
    var approvalTools: set<string>
    var suspendedThisRound: bool
    var callsMade: seq<Note>

    ghost function Remembered(): Memory
      reads this
    {
      Memory(regate, approvalTools, suspendedThisRound, callsMade)
    }

    constructor (regate: set<string>)
      ensures Remembered() == Memory(regate, {}, false, [])
    {
      this.regate, approvalTools, suspendedThisRound, callsMade := regate, {}, false, [];
    }

    /** No tool is left to be deferred before a gate is asked, and only a tool declared safe keeps the
        order it came with. */
    method PrepareTools(tools: seq<Tool>) returns (prepared: seq<Tool>)
      modifies this`approvalTools
      ensures |prepared| == |tools|
      ensures forall i :: 0 <= i < |tools| ==>
        && prepared[i].name == tools[i].name
        && prepared[i].kind == (if tools[i].kind == Unapproved then Function else tools[i].kind)
        && (prepared[i].sequential <==> tools[i].sequential || !tools[i].concurrencySafe)
        && prepared[i].concurrencySafe == tools[i].concurrencySafe
      ensures forall n :: n in approvalTools <==>
        n in old(approvalTools) || exists i :: 0 <= i < |tools| && tools[i].kind == Unapproved && tools[i].name == n
    {
      prepared := [];
      for i := 0 to |tools|
        invariant |prepared| == i
        invariant forall j :: 0 <= j < i ==>
          && prepared[j].name == tools[j].name
          && prepared[j].kind == (if tools[j].kind == Unapproved then Function else tools[j].kind)
          && (prepared[j].sequential <==> tools[j].sequential || !tools[j].concurrencySafe)
          && prepared[j].concurrencySafe == tools[j].concurrencySafe
        invariant forall n :: n in approvalTools <==>
          n in old(approvalTools) || exists j :: 0 <= j < i && tools[j].kind == Unapproved && tools[j].name == n
      {
        var tool := tools[i];
        if tool.kind == Unapproved {
          approvalTools := approvalTools + {tool.name};
          tool := tool.(kind := Function);
        }
        if !tool.concurrencySafe { tool := tool.(sequential := true); }
        prepared := prepared + [tool];
      }
    }

    method BeginToolRound()
      modifies this`suspendedThisRound
      ensures Remembered() == old(Remembered()).(suspended := false)
    {
      suspendedThisRound := false;
    }

    method Gate(q: Question) returns (decision: Decision)
      ensures decision == Gated(Remembered(), q)
    {
      decision := if q.gate.Some? then q.gate.value else Continue;
      if decision == Continue && q.tool in approvalTools { decision := Suspend(q.id); }
      if suspendedThisRound && !decision.Suspend? { decision := Deny(NOT_EXECUTED); }
    }

    /** The decision and the memory it leaves. Without a decision the suspension carried no id, and
        nothing is remembered. */
    method DecideTool(q: Question) returns (decision: Option<Decision>)
      modifies this`suspendedThisRound, this`callsMade
      ensures (Remembered(), decision) == Decide(old(Remembered()), q)
      ensures Decides(old(Remembered()), q, Remembered(), decision)
    {
      DecideDecides(Remembered(), q);
      hide Decides;
      var made: Decision;
      var input := q.input;
      if q.id !in regate && q.recorded {
        made := Continue;
      } else if q.approved {
        if q.args.Some? { input := q.args.value; }
        made := if q.onResume.Some? then q.onResume.value else Continue;
      } else {
        made := Gate(q);
      }
      if made.Suspend? {
        if made.pendingId == "" { return None; }
        suspendedThisRound := true;
      }
      callsMade := callsMade + [Note(q.id, q.tool, input, made != Continue)];
      decision := Some(made);
    }
  }

  // ---- a round decided in order ---------------------------------------------------------------

  /** The policy's memory before question `i` of a round. */
  function Before(m: Memory, round: seq<Question>, i: nat): Memory
    requires i <= |round|
  {
    if i == 0 then m.(suspended := false) else Decide(Before(m, round, i - 1), round[i - 1]).0
  }

  function Answer(m: Memory, round: seq<Question>, i: nat): Option<Decision>
    requires i < |round|
  {
    Decide(Before(m, round, i), round[i]).1
  }

  predicate Suspends(m: Memory, round: seq<Question>, i: nat)
    requires i < |round|
  {
    Answer(m, round, i).Some? && Answer(m, round, i).value.Suspend?
  }

  /** The batch marker is set exactly when an earlier call of this round suspended. */
  lemma {:induction false} MarkerMeans(m: Memory, round: seq<Question>, i: nat)
    requires i <= |round|
    ensures var at := Before(m, round, i);
      && at.regate == m.regate && at.approvalTools == m.approvalTools
      && (at.suspended <==> exists j: nat :: j < i && Suspends(m, round, j))
  {
    if i > 0 {
      MarkerMeans(m, round, i - 1);
      assert Suspends(m, round, i - 1) <==> (Answer(m, round, i - 1).Some? && Answer(m, round, i - 1).value.Suspend?);
    }
  }

  /** The gate agrees that the call runs now. */
  predicate GatePasses(m: Memory, q: Question) {
    (q.gate.None? || q.gate.value == Continue) && q.tool !in m.approvalTools
  }

  /** Serial batch safety. In a round decided in order, a fresh call is let through exactly when the
      gate passes it and no earlier call of the round suspended; after the first suspension every
      fresh call is suspended too, or told that it was not executed. */
  lemma FreshCallsRunBeforeTheFirstSuspension(m: Memory, round: seq<Question>, j: nat)
    requires j < |round| && Fresh(m, round[j])
    ensures Answer(m, round, j) == Some(Continue) <==>
      GatePasses(m, round[j]) && !exists i: nat :: i < j && Suspends(m, round, i)
    ensures (exists i: nat :: i < j && Suspends(m, round, i)) && Answer(m, round, j).Some? ==>
      Answer(m, round, j).value.Suspend? || Answer(m, round, j).value == Deny(NOT_EXECUTED)
  {
    MarkerMeans(m, round, j);
  }

  /** A call copied from another branch is gated again exactly when it was named for it: otherwise
      its record stands whatever the round did before it. */
  lemma RegateAsksAgain(m: Memory, round: seq<Question>, j: nat)
    requires j < |round| && round[j].recorded && !round[j].approved
    ensures round[j].id !in m.regate ==> Answer(m, round, j) == Some(Continue)
    ensures round[j].id in m.regate ==>
      (Answer(m, round, j) == Some(Continue) <==>
        GatePasses(m, round[j]) && !exists i: nat :: i < j && Suspends(m, round, i))
  {
    MarkerMeans(m, round, j);
  }
}
