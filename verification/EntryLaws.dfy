/** What a reader makes of any log at all, said by the places of its entries. */
module EntryLaws {
  import opened Wrappers
  import opened Json
  import opened Selection
  import opened Entries

  /** The last place of the log that chains an entry under this id. */
  predicate LastChained(entries: Log, u: Uuid, i: nat) {
    && i < |entries| && entries[i].Chained? && entries[i].uuid == u
    && forall j :: i < j < |entries| ==> !(entries[j].Chained? && entries[j].uuid == u)
  }

  /** Under each id lies the last entry chained under it, and nothing lies under any other. */
  lemma {:induction false} ChainedMeans(entries: Log, u: Uuid)
    ensures u in ChainedOf(entries) <==> exists i: nat :: LastChained(entries, u, i)
    ensures forall i: nat :: LastChained(entries, u, i) ==> ChainedOf(entries)[u] == entries[i]
  {
    if entries != [] {
      var n := |entries| - 1;
      ChainedMeans(entries[..n], u);
      if entries[n].Chained? && entries[n].uuid == u {
        assert LastChained(entries, u, n);
      } else {
        forall i: nat ensures LastChained(entries, u, i) <==> LastChained(entries[..n], u, i) {
          if LastChained(entries[..n], u, i) { assert entries[i] == entries[..n][i]; }
          if LastChained(entries, u, i) { assert forall j :: i < j < n ==> entries[..n][j] == entries[j]; }
        }
      }
    }
  }

  /** Buried is what a tombstone names, and nothing else. */
  lemma {:induction false} BuriedMeans(entries: Log, u: Uuid)
    ensures u in BuriedIn(entries) <==> exists i :: 0 <= i < |entries| && entries[i].Tombstone? && entries[i].deleted == u
  {
    if entries != [] {
      var n := |entries| - 1;
      BuriedMeans(entries[..n], u);
      assert forall i :: 0 <= i < n ==> entries[..n][i] == entries[i];
      if u in BuriedIn(entries[..n]) {
        var i :| 0 <= i < n && entries[..n][i].Tombstone? && entries[..n][i].deleted == u;
        assert entries[i].Tombstone? && entries[i].deleted == u;
      }
    }
  }

  /** The place that decides the tip: the last entry that is chained or a leaf marker. */
  predicate Decisive(entries: Log, i: nat) {
    && i < |entries| && !entries[i].Tombstone?
    && forall j :: i < j < |entries| ==> entries[j].Tombstone?
  }

  /** The tip is the last chained entry, or what the last leaf marker points at if that came later. */
  lemma {:induction false} TipMeans(entries: Log)
    ensures forall i: nat :: Decisive(entries, i) ==>
      Tip(entries) == if entries[i].Chained? then Some(entries[i].uuid) else entries[i].leaf
    ensures (forall i :: 0 <= i < |entries| ==> entries[i].Tombstone?) ==> Tip(entries) == None
  {
    if entries != [] {
      var n := |entries| - 1;
      TipMeans(entries[..n]);
      if entries[n].Tombstone? {
        forall i: nat | Decisive(entries, i) ensures Decisive(entries[..n], i) { }
      }
    }
  }

  // ---- the walk -------------------------------------------------------------------------------

  /** The ids a walk from `tip` passes, in the order it passes them: each is held and not seen before, each
      next one is its parent, and the walk stops only where there is no further one. */
  ghost predicate Passes(chained: map<Uuid, Entry>, tip: Option<Uuid>, seen: set<Uuid>, path: seq<Uuid>)
    requires forall u :: u in chained ==> chained[u].Chained?
    decreases |path|
  {
    if path == [] then tip.None? || tip.value !in chained || tip.value in seen
    else
      && tip == Some(path[0]) && path[0] in chained && path[0] !in seen
      && Passes(chained, chained[path[0]].parent, seen + {path[0]}, path[1..])
  }

  /** What is shown of a path: its entries, oldest first, but for the buried ones. */
  function Visible(chained: map<Uuid, Entry>, buried: set<Uuid>, path: seq<Uuid>): seq<Option<Entry>>
    requires forall u :: u in path ==> u in chained
  {
    seq(|path|, i requires 0 <= i < |path| =>
      var u := path[|path| - 1 - i];
      assert u in path;
      if u in buried then None else Some(chained[u]))
  }

  /** On any log a walk passes such a path, and its branch is what is visible of it. */
  lemma {:induction false} WalkPasses(chained: map<Uuid, Entry>, buried: set<Uuid>, tip: Option<Uuid>, seen: set<Uuid>)
    returns (path: seq<Uuid>)
    requires forall u :: u in chained ==> chained[u].Chained?
    ensures Passes(chained, tip, seen, path) && forall u :: u in path ==> u in chained
    ensures Takes(Visible(chained, buried, path), Walk(chained, buried, tip, seen))
    decreases chained.Keys - seen
  {
    if tip.None? || tip.value !in chained || tip.value in seen {
      path := [];
    } else {
      var u := tip.value;
      assert u in chained.Keys - seen;
      var rest := WalkPasses(chained, buried, chained[u].parent, seen + {u});
      path := [u] + rest;
      assert path[1..] == rest;
      forall v | v in path ensures v in chained { if v != u { assert v in rest; } }
      var offer := if u in buried then None else Some(chained[u]);
      TakesNext(Visible(chained, buried, rest), Walk(chained, buried, chained[u].parent, seen + {u}), offer);
      hide Takes, Walk, Passes;
      assert Visible(chained, buried, path) == Visible(chained, buried, rest) + [offer];
    }
  }

  /** The messages of a branch, where they stand. */
  function Spoken(branch: seq<Entry>): seq<Option<Json>> {
    seq(|branch|, i requires 0 <= i < |branch| => if branch[i].Chained? then branch[i].message else None)
  }

  lemma {:induction false} BodiesAreSpoken(branch: seq<Entry>)
    ensures Takes(Spoken(branch), Bodies(branch))
  {
    if branch != [] {
      var n := |branch| - 1;
      BodiesAreSpoken(branch[..n]);
      var offer := if branch[n].Chained? then branch[n].message else None;
      TakesNext(Spoken(branch[..n]), Bodies(branch[..n]), offer);
      assert Spoken(branch) == Spoken(branch[..n]) + [offer];
    }
  }

  /** What is read at a cursor: an error exactly when the log chains no entry under it, and otherwise the
      messages of the visible entries from the first ancestor to it, in order. */
  lemma ReadingAtACursor(entries: Log, cursor: Option<Uuid>)
    ensures MessagesAt(entries, cursor).None? <==>
      cursor.Some? && !exists i :: 0 <= i < |entries| && entries[i].Chained? && entries[i].uuid == cursor.value
    ensures MessagesAt(entries, cursor).Some? ==> ReadsAt(entries, cursor, MessagesAt(entries, cursor).value)
  {
    if cursor.Some? { ChainedSomewhere(entries, cursor.value); }
    ChainedAreChained(entries);
    var chained, buried := ChainedOf(entries), BuriedIn(entries);
    var path := WalkPasses(chained, buried, cursor, {});
    BodiesAreSpoken(BranchAt(entries, cursor));
    hide Takes, Passes, ChainedOf, BuriedIn;
  }

  ghost predicate ReadsAt(entries: Log, cursor: Option<Uuid>, messages: seq<Json>) {
    ChainedAreChained(entries);
    exists path: seq<Uuid>, branch: seq<Entry> ::
      && (forall u :: u in path ==> u in ChainedOf(entries))
      && Passes(ChainedOf(entries), cursor, {}, path)
      && Takes(Visible(ChainedOf(entries), BuriedIn(entries), path), branch)
      && Takes(Spoken(branch), messages)
  }

  lemma ChainedSomewhere(entries: Log, u: Uuid)
    ensures u in ChainedOf(entries) <==> exists i :: 0 <= i < |entries| && entries[i].Chained? && entries[i].uuid == u
  {
    ChainedMeans(entries, u);
    if i :| 0 <= i < |entries| && entries[i].Chained? && entries[i].uuid == u { LastOf(entries, u, i); }
  }

  lemma LastOf(entries: Log, u: Uuid, i: nat)
    requires i < |entries| && entries[i].Chained? && entries[i].uuid == u
    ensures exists k: nat :: LastChained(entries, u, k)
    decreases |entries| - i
  {
    if j :| i < j < |entries| && entries[j].Chained? && entries[j].uuid == u {
      LastOf(entries, u, j);
    } else {
      assert LastChained(entries, u, i);
    }
  }
}
