/** Logs the writer makes: their branches are the parent chains their ids spell out, and a cursor
    never changes what it reads. */
module TranscriptLaws {
  import opened Wrappers
  import opened Json
  import opened Entries

  /** The log's store keeps one entry per id: an append of a known id changes nothing. */
  predicate Has(log: Log, u: Uuid) {
    exists i :: 0 <= i < |log| && log[i].uuid == u
  }

  function Appended(log: Log, e: Entry): Log {
    if Has(log, e.uuid) then log else log + [e]
  }

  /** The target of a link is a chained entry of the log. */
  predicate Anchored(log: Log, link: Option<Uuid>) {
    link.Some? ==> link.value in ChainedOf(log)
  }

  /** An entry as the writer makes it, linked to entries already there. Nothing is ever buried: the
      framework writes no tombstones. */
  ghost predicate Legal(log: Log, e: Entry) {
    match e
    case Chained(uuid, parent, message) =>
      message.Some? && uuid == Id(parent, Stripped(message.value)) && Anchored(log, parent)
    case Leaf(uuid, leaf) => uuid.LeafId? && uuid.target == leaf && Anchored(log, leaf)
    case Tombstone(_, _) => false
  }

  ghost predicate WellFormed(log: Log) {
    log == [] ||
    (var n := |log| - 1; WellFormed(log[..n]) && !Has(log[..n], log[n].uuid) && Legal(log[..n], log[n]))
  }

  // ---- what a well-formed log holds -----------------------------------------------------------

  /** Under each id lies a message that the id spells out, linked to the parent the id names. */
  ghost predicate Rooted(chained: map<Uuid, Entry>) {
    forall u :: u in chained ==>
      && chained[u].Chained? && chained[u].uuid == u && u.Id? && chained[u].parent == u.parent
      && chained[u].message.Some? && Stripped(chained[u].message.value) == u.body
      && (u.parent.Some? ==> u.parent.value in chained)
  }

  lemma {:induction false} ChainedAreHeld(log: Log, u: Uuid)
    requires u in ChainedOf(log)
    ensures Has(log, u)
  {
    var n := |log| - 1;
    if log[n].Chained? && log[n].uuid == u {
    } else {
      ChainedAreHeld(log[..n], u);
      var i :| 0 <= i < n && log[..n][i].uuid == u;
      assert log[i].uuid == u;
    }
  }

  lemma {:induction false} LogsAreRooted(log: Log)
    requires WellFormed(log)
    ensures Rooted(ChainedOf(log)) && BuriedIn(log) == {} && Anchored(log, Tip(log))
  {
    if log != [] { LogsAreRooted(log[..|log| - 1]); }
  }

  /** An id in the log is a leaf marker's or a chained entry's. */
  lemma {:induction false} HeldIsChained(log: Log, u: Uuid)
    requires WellFormed(log) && Has(log, u) && u.Id?
    ensures u in ChainedOf(log)
  {
    var n := |log| - 1;
    if log[n].uuid != u {
      var i :| 0 <= i < |log| && log[i].uuid == u;
      assert log[..n][i].uuid == u;
      HeldIsChained(log[..n], u);
    }
  }

  lemma AppendIsWellFormed(log: Log, e: Entry)
    requires WellFormed(log) && Legal(log, e)
    ensures WellFormed(Appended(log, e))
  {
    assert (log + [e])[..|log|] == log;
  }

  /** A crash keeps a prefix of the log, which is a log like any other. */
  lemma {:induction false} PrefixIsWellFormed(log: Log, n: nat)
    requires WellFormed(log) && n <= |log|
    ensures WellFormed(log[..n])
    decreases |log|
  {
    if n < |log| {
      PrefixIsWellFormed(log[..|log| - 1], n);
      assert log[..|log| - 1][..n] == log[..n];
    } else {
      assert log[..n] == log;
    }
  }

  // ---- the parent chain -----------------------------------------------------------------------

  /** The ids an id names as its ancestors, itself last. */
  function ChainOf(tip: Option<Uuid>): seq<Uuid> {
    if tip.Some? && tip.value.Id? then ChainOf(tip.value.parent) + [tip.value] else []
  }

  function Depth(u: Uuid): nat {
    if u.Id? && u.parent.Some? then Depth(u.parent.value) + 1 else 0
  }

  lemma {:induction false} AncestorsAreShallow(tip: Option<Uuid>, u: Uuid)
    requires u in ChainOf(tip)
    ensures tip.Some? && Depth(u) <= Depth(tip.value)
  {
    if u != tip.value { AncestorsAreShallow(tip.value.parent, u); }
  }

  /** An id is not among the ancestors it names. */
  lemma NoOwnAncestor(u: Uuid)
    requires u.Id?
    ensures u !in ChainOf(u.parent)
  {
    if u in ChainOf(u.parent) { AncestorsAreShallow(u.parent, u); }
  }

  lemma {:induction false} ChainIsStored(chained: map<Uuid, Entry>, tip: Option<Uuid>)
    requires Rooted(chained) && (tip.Some? ==> tip.value in chained)
    ensures forall u :: u in ChainOf(tip) ==> u in chained
  {
    if tip.Some? { ChainIsStored(chained, tip.value.parent); }
  }

  function Stored(chained: map<Uuid, Entry>, ids: seq<Uuid>): seq<Entry>
    requires forall u :: u in ids ==> u in chained
  {
    seq(|ids|, i requires 0 <= i < |ids| => chained[ids[i]])
  }

  /** On a log the writer made, walking parent links from a tip visits exactly the chain the tip's id
      spells out, whatever was seen off that chain: the guard against cycles never fires. */
  lemma {:induction false} WalkIsTheChain(chained: map<Uuid, Entry>, tip: Option<Uuid>, seen: set<Uuid>)
    requires Rooted(chained) && (tip.Some? ==> tip.value in chained)
    requires forall u :: u in ChainOf(tip) ==> u !in seen
    ensures forall u :: u in ChainOf(tip) ==> u in chained
    ensures Walk(chained, {}, tip, seen) == Stored(chained, ChainOf(tip))
  {
    ChainIsStored(chained, tip);
    if tip.Some? {
      var u := tip.value;
      NoOwnAncestor(u);
      assert forall v :: v in ChainOf(u.parent) ==> v in ChainOf(tip);
      WalkIsTheChain(chained, u.parent, seen + {u});
      assert u in ChainOf(tip);
      assert u in chained.Keys - seen;
      assert Stored(chained, ChainOf(tip)) == Stored(chained, ChainOf(u.parent)) + [chained[u]];
    }
  }

  // ---- what a reader gets ---------------------------------------------------------------------

  /** Two histories are the same to the model: equal up to fields that vary between replays. */
  ghost predicate SameHistory(a: seq<Json>, b: seq<Json>) {
    |a| == |b| && forall i :: 0 <= i < |a| ==> Stripped(a[i]) == Stripped(b[i])
  }

  /** The messages spell out the bodies of the ids. */
  ghost predicate Spells(messages: seq<Json>, ids: seq<Uuid>) {
    |messages| == |ids| && forall i :: 0 <= i < |ids| ==> ids[i].Id? && Stripped(messages[i]) == ids[i].body
  }

  lemma {:induction false} BodiesSpell(chained: map<Uuid, Entry>, ids: seq<Uuid>)
    requires Rooted(chained) && forall u :: u in ids ==> u in chained
    ensures Spells(Bodies(Stored(chained, ids)), ids)
  {
    if ids != [] {
      var n := |ids| - 1;
      assert Stored(chained, ids)[..n] == Stored(chained, ids[..n]);
      BodiesSpell(chained, ids[..n]);
      assert ids[n] in ids;
    }
  }

  /** Reading at a tip or a cursor yields the entries of its chain, and their messages spell its ids. */
  lemma BranchIsTheChain(log: Log, tip: Option<Uuid>)
    requires WellFormed(log) && Anchored(log, tip)
    ensures forall u :: u in ChainOf(tip) ==> u in ChainedOf(log)
    ensures BranchAt(log, tip) == Stored(ChainedOf(log), ChainOf(tip))
    ensures Spells(Bodies(BranchAt(log, tip)), ChainOf(tip))
  {
    LogsAreRooted(log);
    WalkIsTheChain(ChainedOf(log), tip, {});
    BodiesSpell(ChainedOf(log), ChainOf(tip));
  }

  // ---- cursors --------------------------------------------------------------------------------

  /** Later entries leave an earlier one as it is. */
  lemma {:induction false} ChainedStays(log: Log, more: Log, u: Uuid)
    requires WellFormed(log + more) && u in ChainedOf(log)
    ensures u in ChainedOf(log + more) && ChainedOf(log + more)[u] == ChainedOf(log)[u]
  {
    if more == [] {
      assert log + more == log;
    } else {
      var n := |more| - 1;
      var all := log + more;
      assert all[..|all| - 1] == log + more[..n];
      ChainedStays(log, more[..n], u);
      ChainedAreHeld(log + more[..n], u);
    }
  }

  /** Cursor stability: for an entry of the log, no later append, rewind or replace, by any number of
      writers, changes what is read at it; and at the active tip it is what the active branch reads. */
  lemma CursorsAreStable(log: Log, more: Log, cursor: Uuid)
    requires WellFormed(log + more) && cursor in ChainedOf(log)
    ensures MessagesAt(log, Some(cursor)).Some?
    ensures MessagesAt(log + more, Some(cursor)) == MessagesAt(log, Some(cursor))
    ensures MessagesAt(log, Tip(log)) == Some(MessagesOf(log))
  {
    assert (log + more)[..|log|] == log;
    PrefixIsWellFormed(log + more, |log|);
    LogsAreRooted(log);
    ChainedStays(log, more, cursor);
    BranchIsTheChain(log, Some(cursor));
    BranchIsTheChain(log + more, Some(cursor));
    forall u | u in ChainOf(Some(cursor)) ensures ChainedOf(log + more)[u] == ChainedOf(log)[u] {
      ChainedStays(log, more, u);
    }
    assert BranchAt(log, Some(cursor)) == BranchAt(log + more, Some(cursor));
  }
}
