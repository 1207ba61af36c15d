/** Two runs that mark where the laws of suspension end. */
module SuspensionLimits {
  import opened Wrappers
  import opened Values
  import opened Ledger
  import opened LedgerLaws
  import opened Keys
  import opened Suspension
  import opened SuspensionLaws

  const ROUND := [ParkedCall("c", "ask")]

  function Kept(entries: map<Key, Step>, owner: Owner, token: nat): BranchState {
    BranchState(entries, Some(Lease(owner, token)), token, map[], [], map[])
  }

  const RUNNING: map<Key, Step> := map[StepKey("c") := Step(Running, Null, 1)]

  const ENTERED := World(Kept(map[], "old", 1), map["old" := 1], map[], map[])
  const TRYING := ENTERED.(seats := map["old" := Attempting(None, {})])
  const BEGUN := TRYING.(store := Kept(RUNNING, "old", 1), seats := map["old" := Attempting(None, {"c"})])
  const REPLACED := BEGUN.(store := Kept(RUNNING, "new", 2), tokens := map["old" := 1, "new" := 2])
  const TAKEN := REPLACED.(seats := REPLACED.seats["new" := Attempting(None, {})])

  lemma Entered() ensures Do(START, Enter("old", false)) == ENTERED { }

  lemma Trying() ensures Do(ENTERED, Recover("old")) == TRYING { }

  lemma Begun()
    ensures Do(TRYING, StartCall("old", "c")) == BEGUN
  {
    hide StepKey;
    var none: set<string> := {};
    assert none + {"c"} == {"c"};
    assert SeatAfter(TRYING, StartCall("old", "c")) == Attempting(None, {"c"});
  }

  lemma Replaced() ensures Do(BEGUN, Enter("new", true)) == REPLACED { hide StepKey; }

  lemma Taken()
    ensures Do(REPLACED, Recover("new")) == TAKEN
  {
    Prefixed(TOOL, "c");
    assert ACTIVE_SUSPENSION[0] == 'a' && StepKey("c")[0] == 't';
    hide StepKey;
  }

  ghost predicate Waits(w: World) {
    ActiveOf(w.store) == Some(Parked(Waiting, ROUND, map[])) && !Decided(ActiveOf(w.store).value)
  }

  lemma Parks()
    ensures var w := Do(TAKEN, Park("new", ROUND));
      Waits(w) && Begins(w, "old", "c") && w.store.lease == TAKEN.store.lease && w.store.issued == 2
      && w.tokens == TAKEN.tokens && w.seats == TAKEN.seats["new" := Away]
  {
    var a := Park("new", ROUND);
    assert Suspension.Parks(At(TAKEN, "new"), ROUND);
    assert ROUND[0] in Undecided(ROUND, map[]);
    hide ParkWrites, Undecided;
    ActiveWritten(TAKEN, a);
    OtherTables(TAKEN.store, OpOf(TAKEN, a).value);
  }

  lemma PlayOn(actions: seq<Action>, a: Action)
    ensures Play(START, actions + [a]) == Do(Play(START, actions), a)
  {
    assert (actions + [a])[..|actions|] == actions;
  }

  const TAKEOVER := [Enter("old", false), Recover("old"), StartCall("old", "c"), Enter("new", true), Recover("new")]

  lemma TakeoverPlays()
    ensures Play(START, TAKEOVER) == TAKEN
  {
    hide Do;
    Entered(); Trying(); Begun(); Replaced(); Taken();
    assert TAKEOVER[..0] == [];
    PlayOn(TAKEOVER[..0], TAKEOVER[0]); assert TAKEOVER[..1] == TAKEOVER[..0] + [TAKEOVER[0]];
    PlayOn(TAKEOVER[..1], TAKEOVER[1]); assert TAKEOVER[..2] == TAKEOVER[..1] + [TAKEOVER[1]];
    PlayOn(TAKEOVER[..2], TAKEOVER[2]); assert TAKEOVER[..3] == TAKEOVER[..2] + [TAKEOVER[2]];
    PlayOn(TAKEOVER[..3], TAKEOVER[3]); assert TAKEOVER[..4] == TAKEOVER[..3] + [TAKEOVER[3]];
    PlayOn(TAKEOVER[..4], TAKEOVER[4]); assert TAKEOVER[..5] == TAKEOVER[..4] + [TAKEOVER[4]];
    assert TAKEOVER[..5] == TAKEOVER;
  }

  /** The handler itself may begin under a park: a worker whose start was accepted, but which lost
      its lease before it entered the handler, enters it after its successor parked that very call.
      This is the only way: `NoStartBeforeEveryAnswer` says such a worker is fenced. */
  lemma LateHandlerUnderPark()
    ensures exists actions: seq<Action> ::
      AllGuarded(START, actions) && Waits(Play(START, actions)) && Begins(Play(START, actions), "old", "c")
  {
    hide Do, Waits, Begins;
    TakeoverPlays();
    Parks();
    PlayOn(TAKEOVER, Park("new", ROUND));
    WithoutRunsGuarded(START, TAKEOVER + [Park("new", ROUND)]);
  }

  /** A run that looked at the continuation before it held the lease, or did not look, can park over
      a round whose calls still wait. */
  lemma UnreadRunParksOver()
    ensures exists actions: seq<Action>, a ::
      Waits(Play(START, actions)) && Closes(Play(START, actions), a)
  {
    hide Waits, Do, Closes, Guarded, Begins;
    TakeoverPlays();
    Parks();
    var w := Do(TAKEN, Park("new", ROUND));
    var parks := TAKEOVER + [Park("new", ROUND)];
    PlayOn(TAKEOVER, Park("new", ROUND));
    PlayOn(parks, Enter("late", true));
    PlayOn(parks + [Enter("late", true)], RunUnread("late"));
    Overtakes(w);
    var actions := parks + [Enter("late", true)] + [RunUnread("late")];
    assert Waits(Play(START, actions)) && Closes(Play(START, actions), Park("late", ROUND));
  }

  lemma Overtakes(w: World)
    requires Waits(w) && w.store.issued == 2 && w.store.lease == Some(Lease("new", 2)) && "late" !in w.tokens
    requires At(w, "late").Away?
    ensures var r := Do(Do(w, Enter("late", true)), RunUnread("late"));
      Waits(r) && Closes(r, Park("late", ROUND))
  {
  }
}
