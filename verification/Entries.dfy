/** Transcript entries, and how a reader finds the active branch among them. */
module Entries {
  import opened Wrappers
  import opened Json

  /** An entry's identity: a collision-free name built from the parent and the stable body, or from
      the time and the target of a leaf marker. `Named` is any other string a log may hold. */
  datatype Uuid =
    | Id(parent: Option<Uuid>, body: Json)
    | LeafId(stamp: nat, target: Option<Uuid>)
    | TombstoneId(deleted: Uuid)
    | Named(text: string)

  datatype Entry =
    | Chained(uuid: Uuid, parent: Option<Uuid>, message: Option<Json>)
    | Leaf(uuid: Uuid, leaf: Option<Uuid>)
    | Tombstone(uuid: Uuid, deleted: Uuid)

  type Log = seq<Entry>

  function MessageEntry(parent: Option<Uuid>, message: Json): Entry {
    Chained(Id(parent, Stripped(message)), parent, Some(message))
  }

  function LeafEntry(stamp: nat, leaf: Option<Uuid>): Entry {
    Leaf(LeafId(stamp, leaf), leaf)
  }

  /** The chained entry under each id; a later entry hides an earlier one. */
  function ChainedOf(entries: Log): map<Uuid, Entry> {
    if entries == [] then map[] else
    var n := |entries| - 1;
    if entries[n].Chained? then ChainedOf(entries[..n])[entries[n].uuid := entries[n]] else ChainedOf(entries[..n])
  }

  function BuriedIn(entries: Log): set<Uuid> {
    if entries == [] then {} else
    var n := |entries| - 1;
    if entries[n].Tombstone? then BuriedIn(entries[..n]) + {entries[n].deleted} else BuriedIn(entries[..n])
  }

  /** The active tip: what the last leaf marker points at, or the last chained entry after it. */
  function Tip(entries: Log): Option<Uuid> {
    if entries == [] then None else
    var n := |entries| - 1;
    match entries[n]
    case Chained(uuid, _, _) => Some(uuid)
    case Leaf(_, leaf) => leaf
    case Tombstone(_, _) => Tip(entries[..n])
  }

  /** The parent walk from a tip, oldest entry first; no entry is visited twice. */
  function Walk(chained: map<Uuid, Entry>, buried: set<Uuid>, tip: Option<Uuid>, seen: set<Uuid>): seq<Entry>
    requires forall u :: u in chained ==> chained[u].Chained?
    decreases chained.Keys - seen
  {
    if tip.None? || tip.value !in chained || tip.value in seen then [] else
    assert tip.value in chained.Keys - seen;
    Walk(chained, buried, chained[tip.value].parent, seen + {tip.value})
    + if tip.value in buried then [] else [chained[tip.value]]
  }

  lemma {:induction false} ChainedAreChained(entries: Log)
    ensures forall u :: u in ChainedOf(entries) ==> ChainedOf(entries)[u].Chained? && ChainedOf(entries)[u].uuid == u
  {
    if entries != [] { ChainedAreChained(entries[..|entries| - 1]); }
  }

  function BranchAt(entries: Log, tip: Option<Uuid>): seq<Entry> {
    ChainedAreChained(entries);
    Walk(ChainedOf(entries), BuriedIn(entries), tip, {})
  }

  /** The messages of the entries that have one. */
  function Bodies(branch: seq<Entry>): seq<Json> {
    if branch == [] then [] else
    var n := |branch| - 1;
    Bodies(branch[..n]) + if branch[n].Chained? && branch[n].message.Some? then [branch[n].message.value] else []
  }

  function MessagesOf(entries: Log): seq<Json> {
    Bodies(BranchAt(entries, Tip(entries)))
  }

  /** A cursor that names no entry is an error. */
  function MessagesAt(entries: Log, cursor: Option<Uuid>): Option<seq<Json>> {
    if cursor.Some? && cursor.value !in ChainedOf(entries) then None else Some(Bodies(BranchAt(entries, cursor)))
  }

  // ---- the loops of a reader ------------------------------------------------------------------

  function Reversed<T>(s: seq<T>): seq<T> {
    if s == [] then [] else [s[|s| - 1]] + Reversed(s[..|s| - 1])
  }

  lemma ReversedMore<T>(s: seq<T>, x: T)
    ensures Reversed(s + [x]) == [x] + Reversed(s)
  {
    assert (s + [x])[..|s|] == s;
  }

  lemma {:induction false} TipFound(entries: Log, start: nat, grown: Option<Uuid>)
    requires start <= |entries|
    requires forall j :: start <= j < |entries| ==> !entries[j].Leaf?
    requires start > 0 ==> entries[start - 1].Leaf?
    requires if grown.Some?
      then exists j :: start <= j < |entries| && entries[j].Chained? && entries[j].uuid == grown.value
             && forall i :: j < i < |entries| ==> !entries[i].Chained?
      else forall j :: start <= j < |entries| ==> !entries[j].Chained?
    ensures Tip(entries) == if grown.Some? then grown else if start > 0 then entries[start - 1].leaf else None
  {
    if start < |entries| && entries[|entries| - 1].Tombstone? {
      var n := |entries| - 1;
      assert forall j :: 0 <= j < n ==> entries[..n][j] == entries[j];
      if grown.Some? {
        var j :| start <= j < |entries| && entries[j].Chained? && entries[j].uuid == grown.value
             && forall i :: j < i < |entries| ==> !entries[i].Chained?;
        assert entries[..n][j].Chained?;
      }
      TipFound(entries[..n], start, grown);
    }
  }

  /** The tip as the reader computes it: the ids chained after the last marker, or its target. */
  method ActiveTip(entries: Log) returns (tip: Option<Uuid>)
    ensures tip == Tip(entries)
  {
    var mark: int := -1;
    for i := 0 to |entries|
      invariant -1 <= mark < i
      invariant mark >= 0 ==> entries[mark].Leaf?
      invariant forall j :: mark < j < i ==> !entries[j].Leaf?
    {
      if entries[i].Leaf? { mark := i; }
    }
    var grown: Option<Uuid> := None;
    for i := mark + 1 to |entries|
      invariant if grown.Some?
        then exists j :: mark < j < i && entries[j].Chained? && entries[j].uuid == grown.value
               && forall k :: j < k < i ==> !entries[k].Chained?
        else forall j :: mark < j < i ==> !entries[j].Chained?
    {
      if entries[i].Chained? { grown := Some(entries[i].uuid); }
    }
    TipFound(entries, mark + 1, grown);
    tip := if grown.Some? then grown else if mark >= 0 then entries[mark].leaf else None;
  }

  method Index(entries: Log) returns (chained: map<Uuid, Entry>, buried: set<Uuid>)
    ensures chained == ChainedOf(entries) && buried == BuriedIn(entries)
  {
    chained, buried := map[], {};
    assert entries[..0] == [];
    for i := 0 to |entries|
      invariant chained == ChainedOf(entries[..i]) && buried == BuriedIn(entries[..i])
    {
      assert entries[..i + 1][..i] == entries[..i];
      match entries[i]
      case Chained(uuid, _, _) => chained := chained[uuid := entries[i]];
      case Tombstone(_, deleted) => buried := buried + {deleted};
      case Leaf(_, _) =>
    }
    assert entries[..|entries|] == entries;
  }

  /** Follow parent links from a tip. The loop ends on any entries whatever, cyclic ones included:
      the links not seen yet run out. */
  method FollowParents(entries: Log, start: Option<Uuid>) returns (branch: seq<Entry>)
    ensures branch == BranchAt(entries, start)
  {
    var chained, buried := Index(entries);
    ChainedAreChained(entries);
    var tip, seen := start, {};
    branch := [];
    while tip.Some? && tip.value in chained && tip.value !in seen
      invariant Walk(chained, buried, start, {}) == Walk(chained, buried, tip, seen) + Reversed(branch)
      decreases chained.Keys - seen
    {
      var entry := chained[tip.value];
      assert tip.value in chained.Keys - seen;
      seen := seen + {tip.value};
      if tip.value !in buried {
        ReversedMore(branch, entry);
        branch := branch + [entry];
      }
      tip := entry.parent;
    }
    branch := Reversed(branch);
  }

  method ActiveBranch(entries: Log) returns (branch: seq<Entry>)
    ensures branch == BranchAt(entries, Tip(entries))
  {
    var tip := ActiveTip(entries);
    branch := FollowParents(entries, tip);
  }

  method MessagesAtCursor(entries: Log, cursor: Option<Uuid>) returns (messages: Option<seq<Json>>)
    ensures messages == MessagesAt(entries, cursor)
  {
    var branch := FollowParents(entries, cursor);
    var chained, _ := Index(entries);
    if cursor.Some? && cursor.value !in chained { return None; }
    messages := Some(Bodies(branch));
  }

  /** The entries of a branch are those the log holds under their ids, each once and none hidden. */
  ghost predicate EachOnce(branch: seq<Entry>, chained: map<Uuid, Entry>, hidden: set<Uuid>) {
    && (forall e :: e in branch ==> e.uuid !in hidden && e.uuid in chained && e == chained[e.uuid])
    && (forall i, j :: 0 <= i < j < |branch| ==> branch[i].uuid != branch[j].uuid)
  }

  /** Whatever the entries, a branch holds no entry twice, and nothing that is buried. */
  lemma {:induction false} WalkVisitsOnce(chained: map<Uuid, Entry>, buried: set<Uuid>, tip: Option<Uuid>, seen: set<Uuid>)
    requires forall u :: u in chained ==> chained[u].Chained? && chained[u].uuid == u
    ensures EachOnce(Walk(chained, buried, tip, seen), chained, seen + buried)
    decreases chained.Keys - seen
  {
    if tip.Some? && tip.value in chained && tip.value !in seen {
      assert tip.value in chained.Keys - seen;
      var entry := chained[tip.value];
      WalkVisitsOnce(chained, buried, entry.parent, seen + {tip.value});
      var rest := Walk(chained, buried, entry.parent, seen + {tip.value});
      var branch := Walk(chained, buried, tip, seen);
      assert branch == if tip.value in buried then rest else rest + [entry];
      forall e | e in branch ensures e.uuid !in seen + buried && e.uuid in chained && e == chained[e.uuid] {
        if e in rest { assert e.uuid !in seen + {tip.value} + buried; }
      }
      forall i, j | 0 <= i < j < |branch| ensures branch[i].uuid != branch[j].uuid {
        assert rest[i] in rest && branch[i] == rest[i];
      }
    }
  }
}
