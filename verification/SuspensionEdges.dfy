/** Where the laws of suspension end, exactly: when a run that did not look may start, and when a handler
    can begin under a park. */
module SuspensionEdges {
  import opened Wrappers
  import opened Values
  import opened Ledger
  import opened LedgerLaws
  import opened Workers
  import opened Suspension
  import opened SuspensionLaws

  // ---- a run that did not look ----------------------------------------------------------------

  /** Whoever closes a live round is the worker that finishes this very round, as it stands. */
  predicate Carries(w: World, a: Action) {
    Closes(w, a) && ActiveOf(w.store).Some? ==> At(w, a.p).Attempting? && At(w, a.p).work == ActiveOf(w.store)
  }

  /** From here on, no round is closed but by a worker that finishes it. */
  ghost predicate RoundsAreCarried(w: World) {
    forall more, a :: AllGuarded(w, more) ==> Carries(Play(w, more), a)
  }

  lemma SafeCarries(w: World, a: Action)
    requires Safe(w)
    ensures Carries(w, a)
  {
    hide TokensOk, AnswersKept, Undecided;
    if Closes(w, a) && ActiveOf(w.store).Some? {
      assert !At(w, a.p).Away? && a.p in w.seats && a.p in w.tokens;
      OnlyTheLatestWrites(w.store, w.tokens, a.p);
      assert SeatOk(w, a.p);
    }
  }

  lemma SafeIsCarried(w: World)
    requires Safe(w)
    ensures RoundsAreCarried(w)
  {
    hide Safe, Play, AllGuarded, Carries;
    forall more, a | AllGuarded(w, more) ensures Carries(Play(w, more), a) {
      RunsStaySafe(w, more);
      SafeCarries(Play(w, more), a);
    }
  }

  /** Under no live continuation an unread run is a recovery. */
  lemma UnreadRunIsARecovery(w: World, p: Worker)
    requires ActiveOf(w.store).None?
    ensures Do(w, RunUnread(p)) == Do(w, Recover(p))
  {
  }

  lemma UnreadOverwrites(w: World, p: Worker)
    requires RunsUnread(w, RunUnread(p)) && ActiveOf(w.store).Some?
    ensures !Carries(Do(w, RunUnread(p)), Park(p, [ParkedCall("c", "ask")]))
  {
    hide Next;
  }

  /** Exactly when `run` keeps what the laws promise. A run that did not look under its lease leaves every
      live round to those who finish it, in every guarded continuation, if and only if there was no live
      round at the moment it had its lease, or its lease was lost already. */
  lemma {:induction false} UnreadRunIsSafeExactlyWhen(w: World, p: Worker)
    requires Safe(w) && p in w.tokens && At(w, p).Away?
    ensures RoundsAreCarried(Do(w, RunUnread(p))) <==> ActiveOf(w.store).None? || Stale(w.store, w.tokens[p])
  {
    hide Safe, Play, Carries, Do, AllGuarded, RoundsAreCarried;
    var r := Do(w, RunUnread(p));
    if ActiveOf(w.store).None? || Stale(w.store, w.tokens[p]) {
      SafeKept(w, RunUnread(p));
      SafeIsCarried(r);
    } else {
      UnreadOverwrites(w, p);
      NotCarried(r, Park(p, [ParkedCall("c", "ask")]));
    }
  }

  lemma NotCarried(w: World, a: Action)
    requires !Carries(w, a)
    ensures !RoundsAreCarried(w)
  {
    hide Carries, AllGuarded;
    var none: seq<Action> := [];
    assert Play(w, none) == w;
    assert AllGuarded(w, none) by { NothingToGuard(w); }
  }

  lemma NothingToGuard(w: World)
    ensures AllGuarded(w, [])
  {
  }

  // ---- a handler under a park -----------------------------------------------------------------

  /** The worker can enter the handler of call `c` now, while a parked call still waits. */
  predicate Early(w: World, p: Worker, c: string) {
    Begins(w, p, c) && ActiveOf(w.store).Some? && !Decided(ActiveOf(w.store).value)
  }

  /** The lease is the worker's own. */
  predicate Holding(w: World, p: Worker) {
    p in w.tokens && w.store.lease.Some? && w.store.lease.value.owner == p && w.store.lease.value.token == w.tokens[p]
  }

  /** The action leaves a lease the worker holds to it: nobody is told that it ran out, and the worker
      does not give it up. */
  predicate LeavesLease(a: Action, p: Worker) {
    && (a.Enter? ==> !a.expired)
    && (a.Renew? ==> !a.expired || a.p == p)
    && (a.Leave? ==> a.p != p)
  }

  predicate AllLeaveLease(actions: seq<Action>, p: Worker) {
    forall i :: 0 <= i < |actions| ==> LeavesLease(actions[i], p)
  }

  /** The worker can be replaced before it enters its handler: it does not hold the lease, or leases may
      run out under their holder. */
  predicate Replaceable(w: World, p: Worker, lapses: bool) {
    lapses || !Holding(w, p)
  }

  lemma LeaseStays(w: World, a: Action, p: Worker)
    requires Holding(w, p) && LeavesLease(a, p)
    ensures Holding(Do(w, a), p)
  {
    hide SeatAfter, AcceptedAfter, ParkWrites, Next;
    if a.Enter? || a.Renew? || a.Leave? {
      LeaseActions(w, a, p);
    } else if OpOf(w, a).Some? {
      PlainOp(w, a);
      OtherTables(w.store, OpOf(w, a).value);
    }
  }

  lemma LeaseActions(w: World, a: Action, p: Worker)
    requires Holding(w, p) && LeavesLease(a, p) && (a.Enter? || a.Renew? || a.Leave?)
    ensures Holding(Do(w, a), p)
  {
  }

  lemma {:induction false} LeaseStaysThrough(w: World, more: seq<Action>, p: Worker)
    requires Holding(w, p) && AllLeaveLease(more, p)
    ensures Holding(Play(w, more), p)
  {
    hide Do, Holding, LeavesLease;
    if more != [] {
      var n := |more| - 1;
      assert forall i :: 0 <= i < n ==> more[..n][i] == more[i];
      LeaseStaysThrough(w, more[..n], p);
      LeaseStays(Play(w, more[..n]), more[n], p);
    }
  }

  lemma HolderIsNotEarly(w: World, p: Worker, c: string)
    requires Safe(w) && Holding(w, p)
    ensures !Early(w, p, c)
  {
    hide AnswersKept, Undecided;
    assert SeatOk(w, p);
  }

  // Anybody new can take over from a worker that can be replaced, and park.

  lemma {:induction false} LongerThanAll(names: set<string>) returns (n: nat)
    ensures n > 0 && forall name :: name in names ==> |name| < n
  {
    n := 1;
    if names != {} {
      var some :| some in names;
      var m := LongerThanAll(names - {some});
      n := m + |some| + 1;
      forall name | name in names ensures |name| < n {
        if name != some { assert name in names - {some}; }
      }
    }
  }

  lemma NewName(w: World) returns (q: Worker)
    ensures q != "" && q !in w.tokens && q !in w.seats
  {
    var n := LongerThanAll(w.tokens.Keys + w.seats.Keys);
    q := seq(n, _ => 'w');
    assert |q| == n && q !in w.tokens.Keys + w.seats.Keys;
  }

  lemma TakesOver(w: World, q: Worker)
    requires Safe(w) && q != "" && q !in w.tokens && q !in w.seats
    ensures var r := Do(w, Enter(q, true));
      && q in r.tokens && r.tokens[q] == r.store.issued && r.seats == w.seats
      && ActiveOf(r.store) == ActiveOf(w.store)
  {
  }

  lemma ParksNow(w: World, q: Worker, parked: seq<ParkedCall>)
    requires TokensOk(w.store, w.tokens) && q in w.tokens && w.tokens[q] == w.store.issued
    requires Parks(At(w, q), parked)
    ensures ActiveOf(Do(w, Park(q, parked)).store) == Some(Parked(Waiting, parked, map[]))
    ensures forall p :: p != q ==> At(Do(w, Park(q, parked)), p) == At(w, p)
  {
    ActiveWritten(w, Park(q, parked));
    hide OpOf, ParkWrites, Next;
  }

  /** Where the continuation is absent or fully answered, a newcomer can park call `c`. */
  lemma NewcomerParks(w: World, p: Worker, c: string) returns (more: seq<Action>)
    requires Safe(w) && Begins(w, p, c) && !Early(w, p, c)
    ensures AllGuarded(w, more) && Early(Play(w, more), p, c)
  {
    hide Do, Play, TokensOk, AnswersKept, SeatOk, Undecided, AllGuarded;
    var parked := [ParkedCall(c, "ask")];
    var q := NewName(w);
    var w1 := Do(w, Enter(q, true));
    TakesOver(w, q);
    SafeKept(w, Enter(q, true));
    var w2 := Do(w1, Recover(q));
    SafeKept(w1, Recover(q));
    Recovers(w1, q);
    if ActiveOf(w.store).None? {
      more := [Enter(q, true), Recover(q), Park(q, parked)];
      ParksEarly(w2, p, q, c);
      PlayThree(w, more);
    } else {
      var w3 := Do(w2, WriteResuming(q));
      SafeKept(w2, WriteResuming(q));
      Resumes(w2, q);
      more := [Enter(q, true), Recover(q), WriteResuming(q), Park(q, parked)];
      ParksEarly(w3, p, q, c);
      PlayFour(w, more);
    }
    WithoutRunsGuarded(w, more);
  }

  lemma Recovers(w: World, q: Worker)
    requires q in w.tokens && At(w, q).Away? && (ActiveOf(w.store).Some? ==> Decided(ActiveOf(w.store).value))
    ensures var r := Do(w, Recover(q));
      && r.store == w.store && r.tokens == w.tokens
      && r.seats == w.seats[q := if ActiveOf(w.store).None? then Attempting(None, {}) else Finalizing(ActiveOf(w.store).value)]
  {
    hide Undecided;
  }

  lemma Resumes(w: World, q: Worker)
    requires TokensOk(w.store, w.tokens) && q in w.tokens && w.tokens[q] == w.store.issued && At(w, q).Finalizing?
    ensures var r := Do(w, WriteResuming(q));
      && r.tokens == w.tokens && r.store.issued == w.store.issued
      && r.seats == w.seats[q := Attempting(Some(WithState(At(w, q).active, Resuming)), {})]
  {
    ActiveWritten(w, WriteResuming(q));
    hide Next;
  }

  lemma ParksEarly(w: World, p: Worker, q: Worker, c: string)
    requires TokensOk(w.store, w.tokens) && q in w.tokens && w.tokens[q] == w.store.issued
    requires At(w, q).Attempting? && At(w, q).started == {} && p != q && Begins(w, p, c)
    ensures Early(Do(w, Park(q, [ParkedCall(c, "ask")])), p, c)
  {
    var parked := [ParkedCall(c, "ask")];
    ParksNow(w, q, parked);
    assert parked[0] in Undecided(parked, map[]);
    hide Do;
  }

  lemma PlayThree(w: World, more: seq<Action>)
    requires |more| == 3
    ensures Play(w, more) == Do(Do(Do(w, more[0]), more[1]), more[2])
  {
    hide Do;
    assert more[..2][..1] == more[..1] && more[..1][..0] == [];
    assert Play(w, more[..1]) == Do(w, more[0]);
    assert Play(w, more[..2]) == Do(Play(w, more[..1]), more[1]);
  }

  lemma PlayFour(w: World, more: seq<Action>)
    requires |more| == 4
    ensures Play(w, more) == Do(Do(Do(Do(w, more[0]), more[1]), more[2]), more[3])
  {
    hide Do;
    PlayThree(w, more[..3]);
  }

  /** Some guarded continuation, in which the lease is lost only if it can be, has the worker enter its
      handler under a park that waits. */
  ghost predicate MayBeLate(w: World, p: Worker, c: string, lapses: bool) {
    exists more :: AllGuarded(w, more) && (Replaceable(w, p, lapses) || AllLeaveLease(more, p)) && Early(Play(w, more), p, c)
  }

  /** Exactly when a handler can begin under a park. From any safe world in which a call's start was
      accepted, some guarded continuation has its worker enter the handler while a parked call waits, if
      and only if that worker can be replaced first. */
  lemma {:induction false} HandlerMayBeLateExactlyWhenReplaceable(w: World, p: Worker, c: string, lapses: bool)
    requires Safe(w) && Begins(w, p, c)
    ensures MayBeLate(w, p, c, lapses) <==> Replaceable(w, p, lapses)
  {
    hide Safe, Play, Begins, Early, AllGuarded, Holding, AllLeaveLease;
    if Replaceable(w, p, lapses) {
      var more: seq<Action> := [];
      if Early(w, p, c) {
        NothingToGuard(w);
        PlayNothing(w);
      } else {
        more := NewcomerParks(w, p, c);
      }
      assert AllGuarded(w, more) && Early(Play(w, more), p, c);
    } else if MayBeLate(w, p, c, lapses) {
      var more :| AllGuarded(w, more) && AllLeaveLease(more, p) && Early(Play(w, more), p, c);
      RunsStaySafe(w, more);
      LeaseStaysThrough(w, more, p);
      HolderIsNotEarly(Play(w, more), p, c);
      assert false;
    }
  }

  lemma PlayNothing(w: World)
    ensures Play(w, []) == w
  {
  }
}
