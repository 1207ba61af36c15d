/** What an accepted `commit_transition` does, when it is accepted, and what repeating it does. */
module Transitions {
  import opened Wrappers
  import opened Values
  import opened Ledger

  predicate Distinct(effects: seq<Completion>) {
    forall i, j :: 0 <= i < j < |effects| ==> effects[i].key != effects[j].key
  }

  function Wanted(c: Completion): Status {
    if c.expected == FromAbsent then Absent else Running
  }

  /** The step authorizes the completion, or already holds exactly its result. */
  predicate Acceptable(step: Step, c: Completion) {
    (step.status == Done && step.value == c.value) || step.status == Wanted(c)
  }

  function Completed(step: Step, v: Value): Step {
    if step.status == Done then step else Step(Done, v, step.version + 1)
  }

  lemma {:induction false} EffectKeysAre(effects: seq<Completion>)
    ensures forall i :: 0 <= i < |effects| ==> effects[i].key in EffectKeys(effects)
    ensures forall k :: k in EffectKeys(effects) ==> exists i :: 0 <= i < |effects| && effects[i].key == k
  {
    if effects != [] {
      var n := |effects| - 1;
      EffectKeysAre(effects[..n]);
      forall k | k in EffectKeys(effects) ensures exists i :: 0 <= i < |effects| && effects[i].key == k {
        if k in EffectKeys(effects[..n]) {
          var i :| 0 <= i < n && effects[..n][i].key == k;
          assert effects[i].key == k;
        } else {
          assert effects[n].key == k;
        }
      }
      forall i | 0 <= i < |effects| ensures effects[i].key in EffectKeys(effects) {
        if i < n { assert effects[..n][i] == effects[i]; }
      }
    }
  }

  lemma CompleteFromMeaning(s: BranchState, c: Completion)
    ensures var (r, reply) := CompleteFrom(s, c.key, c.value, c.expected);
      && (reply.Success? <==> Acceptable(Get(s, c.key), c))
      && (reply.Success? ==> Get(r, c.key) == Completed(Get(s, c.key), c.value))
      && (forall k :: k != c.key ==> Get(r, k) == Get(s, k))
      && r == s.(entries := r.entries)
  {
  }

  /** Completing effects writes entries only, and only those of its keys. */
  lemma {:induction false} CompleteEachFrame(s: BranchState, effects: seq<Completion>)
    requires CompleteEach(s, effects).Success?
    ensures CompleteEach(s, effects).value == s.(entries := CompleteEach(s, effects).value.entries)
    ensures forall k :: k !in EffectKeys(effects) ==> Get(CompleteEach(s, effects).value, k) == Get(s, k)
  {
    if effects != [] {
      var n := |effects| - 1;
      CompleteEachFrame(s, effects[..n]);
      CompleteFromMeaning(CompleteEach(s, effects[..n]).value, effects[n]);
    }
  }

  predicate AllAcceptable(s: BranchState, effects: seq<Completion>) {
    forall i :: 0 <= i < |effects| ==> Acceptable(Get(s, effects[i].key), effects[i])
  }

  ghost predicate AllCompleted(s: BranchState, effects: seq<Completion>, r: BranchState) {
    forall i :: 0 <= i < |effects| ==> Get(r, effects[i].key) == Completed(Get(s, effects[i].key), effects[i].value)
  }

  /** The sequential form accepts exactly when every effect is acceptable in the state the transition
      started from, and then leaves each effect completed from that state. */
  lemma {:induction false} CompleteEachMeaning(s: BranchState, effects: seq<Completion>)
    ensures CompleteEach(s, effects).Success? <==> Distinct(effects) && AllAcceptable(s, effects)
    ensures CompleteEach(s, effects).Success? ==> AllCompleted(s, effects, CompleteEach(s, effects).value)
  {
    if effects != [] {
      var n := |effects| - 1;
      var init := effects[..n];
      CompleteEachMeaning(s, init);
      EffectKeysAre(init);
      assert forall i :: 0 <= i < n ==> init[i] == effects[i];
      if CompleteEach(s, init).Success? {
        CompleteEachFrame(s, init);
        CompleteFromMeaning(CompleteEach(s, init).value, effects[n]);
      }
      SplitLast(s, effects);
    }
  }

  lemma SplitLast(s: BranchState, effects: seq<Completion>)
    requires effects != []
    ensures var n := |effects| - 1;
      Distinct(effects) && AllAcceptable(s, effects) <==>
        && Distinct(effects[..n]) && AllAcceptable(s, effects[..n])
        && effects[n].key !in EffectKeys(effects[..n]) && Acceptable(Get(s, effects[n].key), effects[n])
  {
    var n := |effects| - 1;
    var init := effects[..n];
    EffectKeysAre(init);
    assert forall i :: 0 <= i < n ==> init[i] == effects[i];
  }

  /** The ids of `inputs` that are not known yet, in the order they first appear. */
  function NewIds(known: set<InputId>, inputs: seq<(InputId, Value)>): seq<InputId> {
    if inputs == [] then [] else
    var n := |inputs| - 1;
    var before := NewIds(known, inputs[..n]);
    if inputs[n].0 in known || inputs[n].0 in before then before else before + [inputs[n].0]
  }

  predicate Mentions(inputs: seq<(InputId, Value)>, id: InputId) {
    exists i :: 0 <= i < |inputs| && inputs[i].0 == id
  }

  /** The value an id is first given. */
  predicate FirstGiven(inputs: seq<(InputId, Value)>, id: InputId, v: Value) {
    exists i :: 0 <= i < |inputs| && inputs[i] == (id, v) && !Mentions(inputs[..i], id)
  }

  lemma MentionsLast(inputs: seq<(InputId, Value)>, id: InputId)
    requires inputs != []
    ensures Mentions(inputs, id) <==> Mentions(inputs[..|inputs| - 1], id) || inputs[|inputs| - 1].0 == id
  {
    var n := |inputs| - 1;
    assert forall i :: 0 <= i < n ==> inputs[..n][i] == inputs[i];
    if Mentions(inputs[..n], id) {
      var i :| 0 <= i < n && inputs[..n][i].0 == id;
      assert inputs[i].0 == id;
    }
  }

  lemma {:induction false} NewIdsAre(known: set<InputId>, inputs: seq<(InputId, Value)>, id: InputId)
    ensures id in NewIds(known, inputs) <==> Mentions(inputs, id) && id !in known
  {
    if inputs != [] {
      NewIdsAre(known, inputs[..|inputs| - 1], id);
      MentionsLast(inputs, id);
    }
  }

  lemma {:induction false} EnqueueEachFrame(s: BranchState, inputs: seq<(InputId, Value)>)
    ensures var (r, ids) := EnqueueEach(s, inputs);
      && r == s.(inputs := r.inputs, order := r.order)
      && r.order == s.order + NewIds(s.inputs.Keys, inputs)
      && (forall id :: id in ids <==> id in NewIds(s.inputs.Keys, inputs))
      && (forall id :: id in r.inputs <==> id in s.inputs || id in ids)
      && (forall id :: id in s.inputs ==> r.inputs[id] == s.inputs[id])
  {
    if inputs != [] {
      EnqueueEachFrame(s, inputs[..|inputs| - 1]);
    }
  }

  lemma {:induction false} EnqueueEachGives(s: BranchState, inputs: seq<(InputId, Value)>, id: InputId)
    requires id in EnqueueEach(s, inputs).1
    ensures id in EnqueueEach(s, inputs).0.inputs
    ensures EnqueueEach(s, inputs).0.inputs[id].status == Pending
    ensures FirstGiven(inputs, id, EnqueueEach(s, inputs).0.inputs[id].value)
  {
    EnqueueEachFrame(s, inputs);
    var n := |inputs| - 1;
    var init := inputs[..n];
    EnqueueEachFrame(s, init);
    if id in EnqueueEach(s, init).1 {
      EnqueueEachGives(s, init, id);
      var v := EnqueueEach(s, init).0.inputs[id].value;
      var i :| 0 <= i < n && init[i] == (id, v) && !Mentions(init[..i], id);
      assert inputs[..i] == init[..i] && inputs[i] == (id, v);
    } else {
      NewIdsAre(s.inputs.Keys, init, id);
      assert inputs[n] == (id, EnqueueEach(s, inputs).0.inputs[id].value);
    }
  }

  /** When a transition is accepted. */
  predicate Admissible(s: BranchState, t: Transition, token: int) {
    !Stale(s, token) && Distinct(t.effects) && AllAcceptable(s, t.effects) && EffectKeys(t.effects) !! t.controls.Keys
  }

  /** The step changes of a transition, and no other. */
  ghost predicate StepsApplied(s: BranchState, t: Transition, r: BranchState) {
    && AllCompleted(s, t.effects, r)
    && (forall k :: k in t.controls ==> Get(r, k) == Step(Done, t.controls[k], Get(s, k).version + 1))
    && (forall k :: k !in t.controls && k !in EffectKeys(t.effects) ==> Get(r, k) == Get(s, k))
  }

  /** The queue changes of a transition, and no other. */
  ghost predicate InputsApplied(s: BranchState, t: Transition, r: BranchState, inserted: set<InputId>) {
    && (forall id :: id in inserted <==> Mentions(t.inputs, id) && id !in s.inputs)
    && r.order == s.order + NewIds(s.inputs.Keys, t.inputs)
    && (forall id :: id in r.inputs <==> id in s.inputs || id in inserted)
    && (forall id :: id in s.inputs ==> r.inputs[id] == s.inputs[id])
    && (forall id :: id in inserted ==> r.inputs[id].status == Pending && FirstGiven(t.inputs, id, r.inputs[id].value))
  }

  lemma WriteEachMeaning(s: BranchState, controls: map<Key, Value>)
    ensures var r := WriteEach(s, controls);
      && r == s.(entries := r.entries)
      && (forall k :: k in controls ==> Get(r, k) == Step(Done, controls[k], Get(s, k).version + 1))
      && (forall k :: k !in controls ==> Get(r, k) == Get(s, k))
  {
  }

  lemma StepsAreApplied(s: BranchState, t: Transition)
    requires CompleteEach(s, t.effects).Success?
    requires EffectKeys(t.effects) !! t.controls.Keys
    ensures StepsApplied(s, t, WriteEach(CompleteEach(s, t.effects).value, t.controls))
  {
    var completed := CompleteEach(s, t.effects).value;
    CompleteEachMeaning(s, t.effects);
    CompleteEachFrame(s, t.effects);
    WriteEachMeaning(completed, t.controls);
    EffectKeysAre(t.effects);
  }

  lemma InputsAreApplied(s: BranchState, t: Transition)
    ensures InputsApplied(s, t, EnqueueEach(s, t.inputs).0, EnqueueEach(s, t.inputs).1)
  {
    EnqueueEachFrame(s, t.inputs);
    forall id ensures id in NewIds(s.inputs.Keys, t.inputs) <==> Mentions(t.inputs, id) && id !in s.inputs {
      NewIdsAre(s.inputs.Keys, t.inputs, id);
    }
    forall id | id in EnqueueEach(s, t.inputs).1
      ensures EnqueueEach(s, t.inputs).0.inputs[id].status == Pending
      ensures FirstGiven(t.inputs, id, EnqueueEach(s, t.inputs).0.inputs[id].value)
    {
      EnqueueEachGives(s, t.inputs, id);
    }
  }

  /** All or nothing: a transition is accepted exactly when it is admissible; refused, it changes
      nothing; accepted, it makes every change it names, no other, and reports the new inputs. */
  lemma CommitAllOrNothing(s: BranchState, t: Transition, token: int)
    ensures Commit(s, t, token).1.Success? <==> Admissible(s, t, token)
    ensures Commit(s, t, token).1.Failure? ==> Commit(s, t, token).0 == s
    ensures Commit(s, t, token).1.Success? ==>
      && StepsApplied(s, t, Commit(s, t, token).0)
      && InputsApplied(s, t, Commit(s, t, token).0, Commit(s, t, token).1.value)
      && Commit(s, t, token).0.lease == s.lease
      && Commit(s, t, token).0.issued == s.issued
      && Commit(s, t, token).0.decisions == s.decisions
  {
    CompleteEachMeaning(s, t.effects);
    if Admissible(s, t, token) {
      CompleteEachFrame(s, t.effects);
      var completed := CompleteEach(s, t.effects).value;
      var written := WriteEach(completed, t.controls);
      StepsAreApplied(s, t);
      InputsAreApplied(written, t);
      EnqueueEachFrame(written, t.inputs);
      StepsOnlyEntries(s, t, written, Commit(s, t, token).0);
    }
  }

  lemma StepsOnlyEntries(s: BranchState, t: Transition, a: BranchState, b: BranchState)
    requires StepsApplied(s, t, a) && a.entries == b.entries
    ensures StepsApplied(s, t, b)
  {
    assert forall k :: Get(a, k) == Get(b, k);
  }

  lemma NothingNew(known: set<InputId>, inputs: seq<(InputId, Value)>)
    requires forall id :: Mentions(inputs, id) ==> id in known
    ensures NewIds(known, inputs) == []
  {
    if NewIds(known, inputs) != [] {
      NewIdsAre(known, inputs, NewIds(known, inputs)[0]);
    }
  }

  lemma StepsAppliedTwice(s: BranchState, t: Transition, r: BranchState, again: BranchState)
    requires StepsApplied(s, t, r) && StepsApplied(r, t, again)
    requires EffectKeys(t.effects) !! t.controls.Keys
    ensures forall k :: k !in t.controls ==> Get(again, k) == Get(r, k)
    ensures forall k :: k in t.controls ==> Get(again, k) == Get(r, k).(version := Get(r, k).version + 1)
  {
    EffectKeysAre(t.effects);
    forall k | k in EffectKeys(t.effects) ensures Get(again, k) == Get(r, k) {
      var i :| 0 <= i < |t.effects| && t.effects[i].key == k;
      assert Get(again, t.effects[i].key) == Completed(Get(r, t.effects[i].key), t.effects[i].value);
      assert Get(r, t.effects[i].key) == Completed(Get(s, t.effects[i].key), t.effects[i].value);
    }
  }

  lemma StillAcceptable(s: BranchState, t: Transition, r: BranchState)
    requires StepsApplied(s, t, r) && AllAcceptable(s, t.effects)
    ensures AllAcceptable(r, t.effects)
  {
    forall i | 0 <= i < |t.effects| ensures Acceptable(Get(r, t.effects[i].key), t.effects[i]) {
      assert Acceptable(Get(s, t.effects[i].key), t.effects[i]);
      assert Get(r, t.effects[i].key) == Completed(Get(s, t.effects[i].key), t.effects[i].value);
    }
  }

  lemma NoInputTwice(s: BranchState, t: Transition, r: BranchState, ids: set<InputId>,
                     again: BranchState, more: set<InputId>)
    requires InputsApplied(s, t, r, ids) && InputsApplied(r, t, again, more)
    ensures more == {} && again.inputs == r.inputs && again.order == r.order
  {
    assert forall id :: Mentions(t.inputs, id) ==> id in r.inputs.Keys;
    NothingNew(r.inputs.Keys, t.inputs);
    assert forall id :: id !in more;
  }

  /** Repeating an accepted transition is accepted, touches no effect and inserts no input; only its
      control writes count again. */
  lemma CommitRepeated(s: BranchState, t: Transition, token: int)
    requires Commit(s, t, token).1.Success?
    ensures var r := Commit(s, t, token).0;
      && Commit(r, t, token).1 == Success({})
      && var again := Commit(r, t, token).0;
      && (forall k :: k !in t.controls ==> Get(again, k) == Get(r, k))
      && (forall k :: k in t.controls ==> Get(again, k) == Get(r, k).(version := Get(r, k).version + 1))
      && again.inputs == r.inputs && again.order == r.order
  {
    CommitAllOrNothing(s, t, token);
    var (r, first) := Commit(s, t, token);
    StillAcceptable(s, t, r);
    CommitAllOrNothing(r, t, token);
    var (again, second) := Commit(r, t, token);
    StepsAppliedTwice(s, t, r, again);
    NoInputTwice(s, t, r, first.value, again, second.value);
  }

  /** Write the controls one by one in the order given. */
  function WriteInOrder(s: BranchState, keys: seq<Key>, controls: map<Key, Value>): BranchState
    requires forall i :: 0 <= i < |keys| ==> keys[i] in controls
  {
    if keys == [] then s else
    var n := |keys| - 1;
    WriteControl(WriteInOrder(s, keys[..n], controls), keys[n], controls[keys[n]], 0).0
  }

  function Restrict(controls: map<Key, Value>, keys: set<Key>): map<Key, Value> {
    map k | k in controls && k in keys :: controls[k]
  }

  lemma WriteOneMore(s: BranchState, keys: set<Key>, k: Key, controls: map<Key, Value>)
    requires k in controls && k !in keys
    ensures WriteControl(WriteEach(s, Restrict(controls, keys)), k, controls[k], 0).0
         == WriteEach(s, Restrict(controls, keys + {k}))
  {
    var before := WriteEach(s, Restrict(controls, keys));
    var after := WriteEach(s, Restrict(controls, keys + {k}));
    var step := Step(Done, controls[k], Get(s, k).version + 1);
    assert before.entries[k := step].Keys == after.entries.Keys;
    assert forall j :: j in after.entries ==> after.entries[j] == before.entries[k := step][j];
    assert after.entries == before.entries[k := step];
  }

  /** The order in which the control keys are written makes no difference. */
  lemma {:induction false} ControlsInAnyOrder(s: BranchState, keys: seq<Key>, controls: map<Key, Value>)
    requires forall i :: 0 <= i < |keys| ==> keys[i] in controls
    requires forall i, j :: 0 <= i < j < |keys| ==> keys[i] != keys[j]
    ensures WriteInOrder(s, keys, controls) == WriteEach(s, Restrict(controls, set k | k in keys))
  {
    if keys == [] {
      assert WriteEach(s, Restrict(controls, {})).entries == s.entries;
    } else {
      var n := |keys| - 1;
      ControlsInAnyOrder(s, keys[..n], controls);
      assert keys[n] !in keys[..n];
      WriteOneMore(s, (set k | k in keys[..n]), keys[n], controls);
      assert (set k | k in keys[..n]) + {keys[n]} == (set k | k in keys);
    }
  }

  lemma {:induction false} FirstRefusalStands(s: BranchState, effects: seq<Completion>, i: nat)
    requires i <= |effects| && CompleteEach(s, effects[..i]).Failure?
    ensures CompleteEach(s, effects) == CompleteEach(s, effects[..i])
  {
    if i == |effects| {
      assert effects[..i] == effects;
    } else {
      var n := |effects| - 1;
      assert effects[..n][..i] == effects[..i];
      FirstRefusalStands(s, effects[..n], i);
    }
  }

  lemma CompleteNext(s: BranchState, effects: seq<Completion>, i: nat)
    requires i < |effects| && CompleteEach(s, effects[..i]).Success?
    ensures EffectKeys(effects[..i + 1]) == EffectKeys(effects[..i]) + {effects[i].key}
    ensures CompleteEach(s, effects[..i + 1]) ==
      if effects[i].key in EffectKeys(effects[..i]) then Failure(Invalid) else
      var (after, reply) :=
        CompleteFrom(CompleteEach(s, effects[..i]).value, effects[i].key, effects[i].value, effects[i].expected);
      if reply.Failure? then Failure(reply.error) else Success(after)
  {
    assert effects[..i + 1][..i] == effects[..i];
  }

  lemma WriteNone(s: BranchState, controls: map<Key, Value>)
    ensures WriteEach(s, Restrict(controls, {})) == s
  {
    assert WriteEach(s, Restrict(controls, {})).entries == s.entries;
  }
}
