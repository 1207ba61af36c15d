/** Forking a run: which calls a history still owes, and what the new branch learns about them. */
module Forking {
  import opened Wrappers
  import opened Ledger
  import opened Keys
  import opened Selection
  import opened MemoryStore

  // ---- what a history owes --------------------------------------------------------------------

  /** A message, as far as tool calls go: the model's calls, or the results that answer some. */
  datatype Turn = Response(calls: seq<string>) | Request(answers: seq<string>)

  /** The calls answered from message `i` on. */
  ghost function AnsweredFrom(history: seq<Turn>, i: nat): set<string> {
    set c, j | i <= j < |history| && history[j].Request? && c in history[j].answers :: c
  }

  lemma AnsweredNext(history: seq<Turn>, i: nat)
    requires i < |history|
    ensures history[i].Request? ==>
      AnsweredFrom(history, i) == AnsweredFrom(history, i + 1) + set c | c in history[i].answers
  {
  }

  predicate Latest(history: seq<Turn>, i: nat) {
    i < |history| && history[i].Response? && forall j :: i < j < |history| ==> history[j].Request?
  }

  function Keep(calls: seq<string>, answered: set<string>): (r: seq<string>)
    ensures forall c :: c in r <==> c in calls && c !in answered
  {
    if calls == [] then [] else
    var n := |calls| - 1;
    assert calls == calls[..n] + [calls[n]];
    Keep(calls[..n], answered) + if calls[n] in answered then [] else [calls[n]]
  }

  /** The calls of a response that nothing after it answers, where they stand. */
  ghost function Unanswered(history: seq<Turn>, i: nat): seq<Option<string>>
    requires i < |history| && history[i].Response?
  {
    seq(|history[i].calls|, k requires 0 <= k < |history[i].calls| =>
      if exists j :: i < j < |history| && history[j].Request? && history[i].calls[k] in history[j].answers
      then None else Some(history[i].calls[k]))
  }

  /** The calls that are not answered, where they stand. */
  function Left(calls: seq<string>, answered: set<string>): seq<Option<string>> {
    seq(|calls|, k requires 0 <= k < |calls| => if calls[k] in answered then None else Some(calls[k]))
  }

  lemma {:induction false} KeepTakes(calls: seq<string>, answered: set<string>)
    ensures Takes(Left(calls, answered), Keep(calls, answered))
  {
    if calls != [] {
      var n := |calls| - 1;
      KeepTakes(calls[..n], answered);
      var offer := if calls[n] in answered then None else Some(calls[n]);
      TakesNext(Left(calls[..n], answered), Keep(calls[..n], answered), offer);
      assert Left(calls, answered) == Left(calls[..n], answered) + [offer];
    }
  }

  lemma KeepIsUnanswered(history: seq<Turn>, i: nat)
    requires i < |history| && history[i].Response?
    ensures Takes(Unanswered(history, i), Keep(history[i].calls, AnsweredFrom(history, i + 1)))
  {
    KeepTakes(history[i].calls, AnsweredFrom(history, i + 1));
    hide Takes;
    assert Unanswered(history, i) == Left(history[i].calls, AnsweredFrom(history, i + 1));
  }

  /** The calls of the latest response that no later message answers, in model order. */
  method UnansweredToolCalls(history: seq<Turn>) returns (calls: seq<string>)
    ensures forall i: nat :: Latest(history, i) ==> Takes(Unanswered(history, i), calls)
    ensures forall i: nat :: Latest(history, i) ==> calls == Keep(history[i].calls, AnsweredFrom(history, i + 1))
    ensures (forall i :: 0 <= i < |history| ==> history[i].Request?) ==> calls == []
  {
    hide Takes, Unanswered, Keep;
    var answered: set<string> := {};
    var index := |history|;
    assert answered == AnsweredFrom(history, index);
    hide AnsweredFrom;
    while index > 0
      invariant 0 <= index <= |history|
      invariant forall j :: index <= j < |history| ==> history[j].Request?
      invariant answered == AnsweredFrom(history, index)
    {
      index := index - 1;
      AnsweredNext(history, index);
      match history[index]
      case Response(made) =>
        KeepIsUnanswered(history, index);
        return Keep(made, answered);
      case Request(answers) =>
        answered := answered + set c | c in answers;
    }
    calls := [];
  }

  // ---- copying what the source knows ----------------------------------------------------------

  /** A copy in progress: the target branch, the calls copied as finished, and whether it was fenced. */
  datatype Copying = Copying(target: BranchState, copied: seq<string>, refused: bool)

  /** The target after the intent of call `c` is committed, if the source ever began it. */
  function CopyStart(source: BranchState, target: BranchState, c: string, token: int): (BranchState, Result<bool, Error>) {
    if Get(source, StepKey(c)).status == Absent then (target, Success(false)) else Start(target, StepKey(c), token)
  }

  function CopyCall(source: BranchState, at: Copying, c: string, token: int): Copying {
    var (started, reply) := CopyStart(source, at.target, c, token);
    if at.refused then at
    else if reply.Failure? then at.(refused := true)
    else if !reply.value then at
    else if Get(source, StepKey(c)).status != Done then at.(target := started)
    else
      var (finished, accepted) := FinishEffect(started, StepKey(c), Get(source, StepKey(c)).value, token);
      if accepted.Failure? then at.(target := finished, refused := true)
      else at.(target := finished, copied := at.copied + [c])
  }

  function CopyEach(source: BranchState, target: BranchState, calls: seq<string>, token: int): Copying {
    if calls == [] then Copying(target, [], false)
    else CopyCall(source, CopyEach(source, target, calls[..|calls| - 1], token), calls[|calls| - 1], token)
  }

  lemma CopyNext(source: BranchState, target: BranchState, calls: seq<string>, token: int, i: nat)
    requires i < |calls|
    ensures CopyEach(source, target, calls[..i + 1], token)
      == CopyCall(source, CopyEach(source, target, calls[..i], token), calls[i], token)
  {
    assert calls[..i + 1][..i] == calls[..i];
  }

  lemma {:induction false} CopyStops(source: BranchState, target: BranchState, calls: seq<string>, token: int, i: nat)
    requires i <= |calls| && CopyEach(source, target, calls[..i], token).refused
    ensures CopyEach(source, target, calls, token) == CopyEach(source, target, calls[..i], token)
    decreases |calls| - i
  {
    hide CopyCall, CopyEach;
    if i < |calls| {
      CopyNext(source, target, calls, token, i);
      RefusedStays(source, CopyEach(source, target, calls[..i], token), calls[i], token);
      CopyStops(source, target, calls, token, i + 1);
    } else {
      assert calls[..i] == calls;
    }
  }

  lemma RefusedStays(source: BranchState, at: Copying, c: string, token: int)
    requires at.refused
    ensures CopyCall(source, at, c, token) == at
  {
  }

  /** What a copy of a branch onto itself has changed so far: released steps are begun, nothing else. */
  ghost predicate SelfCopied(source: BranchState, now: BranchState) {
    forall k :: Get(now, k) == Get(source, k) || (Get(source, k).status == Ready && Get(now, k).status == Running)
  }

  /** Copying a call of a branch onto itself does the same whether its record is read now or was read
      before the copy began. */
  lemma SelfCopyOne(source: BranchState, at: Copying, c: string, token: int)
    requires SelfCopied(source, at.target) && !at.refused
    ensures CopyCall(at.target, at, c, token) == CopyCall(source, at, c, token)
    ensures SelfCopied(source, CopyCall(source, at, c, token).target)
  {
    hide StepKey;
  }

  /** Copy the record of every call from one branch of the store into another, or into itself. */
  method Copy(store: MemorySteps, src: string, dst: string, calls: seq<string>, token: int)
    returns (copied: seq<string>, refused: bool)
    requires store.Valid()
    modifies store`entries, store`views
    ensures store.Valid()
    ensures Copying(store.View(dst), copied, refused) == CopyEach(old(store.View(src)), old(store.View(dst)), calls, token)
    ensures forall b :: b != dst ==> store.View(b) == old(store.View(b))
  {
    ghost var source, target := store.View(src), store.View(dst);
    hide MemorySteps.Valid, MemorySteps.View, CopyCall;
    copied, refused := [], false;
    assert calls[..0] == [];
    for i := 0 to |calls|
      invariant store.Valid() && !refused
      invariant Copying(store.View(dst), copied, refused) == CopyEach(source, target, calls[..i], token)
      invariant src == dst ==> SelfCopied(source, store.View(dst))
      invariant forall b :: b != dst ==> store.View(b) == old(store.View(b))
    {
      ghost var at := Copying(store.View(dst), copied, refused);
      CopyNext(source, target, calls, token, i);
      if src == dst { SelfCopyOne(source, at, calls[i], token); }
      copied, refused := CopyOne(store, src, dst, calls[i], token, copied);
      if refused {
        CopyStops(source, target, calls, token, i + 1);
        return;
      }
    }
    assert calls[..|calls|] == calls;
  }

  /** Copy one call: what the source ever began is started in the target, and finished if it was. */
  method CopyOne(store: MemorySteps, src: string, dst: string, c: string, token: int, before: seq<string>)
    returns (copied: seq<string>, refused: bool)
    requires store.Valid()
    modifies store`entries, store`views
    ensures store.Valid()
    ensures Copying(store.View(dst), copied, refused)
      == CopyCall(old(store.View(src)), Copying(old(store.View(dst)), before, false), c, token)
    ensures forall b :: b != dst ==> store.View(b) == old(store.View(b))
  {
    hide MemorySteps.Valid, MemorySteps.View;
    var key := StepKey(c);
    var record := store.Read(src, key);
    if record.status == Absent { return before, false; }
    var started := store.Start(dst, key, token);
    if started.Failure? { return before, true; }
    if !started.value || record.status != Done { return before, false; }
    var finished := store.FinishEffect(dst, key, record.value, token);
    if finished.Failure? { return before, true; }
    copied, refused := before + [c], false;
  }
}
