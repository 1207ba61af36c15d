/** One attempt's view of a conversation, kept in step with the append-only log it writes to. */
module Branches {
  import opened Wrappers
  import opened Json
  import opened Entries
  import opened TranscriptLaws
  import opened TranscriptStore

  // ---- what the writer and the branch do, on values -------------------------------------------

  /** The log, the time, and where the attempt stands: the id it writes after, and the messages it
      holds with their ids. */
  datatype Desk = Desk(log: Log, now: nat, parent: Option<Uuid>, messages: seq<Json>, uuids: seq<Uuid>)

  /** Leaf markers are told apart by the time they were made. */
  function Marked(d: Desk, leaf: Option<Uuid>): Desk {
    d.(log := Appended(d.log, LeafEntry(d.now, leaf)), now := d.now + 1)
  }

  function Recorded(d: Desk, message: Json): Desk {
    var entry := MessageEntry(d.parent, message);
    var moved := d.(log := Appended(d.log, entry), parent := Some(entry.uuid));
    if Has(d.log, entry.uuid) then Marked(moved, Some(entry.uuid)) else moved
  }

  function Rewound(d: Desk, leaf: Option<Uuid>): Desk {
    Marked(d, leaf).(parent := leaf)
  }

  function Kept(d: Desk, message: Json): Desk {
    Recorded(d, message).(messages := d.messages + [message], uuids := d.uuids + [Id(d.parent, Stripped(message))])
  }

  function KeptAll(d: Desk, messages: seq<Json>): Desk {
    if messages == [] then d else Kept(KeptAll(d, messages[..|messages| - 1]), messages[|messages| - 1])
  }

  function Opened(log: Log, now: nat): Desk {
    var branch := BranchAt(log, Tip(log));
    Desk(log, now, if branch == [] then None else Some(branch[|branch| - 1].uuid), MessagesOf(log), IdsOf(branch))
  }

  /** The ids of the entries that hold a message. */
  function IdsOf(branch: seq<Entry>): seq<Uuid> {
    if branch == [] then [] else
    var n := |branch| - 1;
    IdsOf(branch[..n]) + if branch[n].Chained? && branch[n].message.Some? then [branch[n].uuid] else []
  }

  /** How many leading messages agree, up to fields that vary between replays. */
  function CommonFrom(a: seq<Json>, b: seq<Json>, i: nat): (n: nat)
    requires i <= |a| && i <= |b|
    ensures i <= n <= |a| && n <= |b|
    ensures forall j :: i <= j < n ==> Stripped(a[j]) == Stripped(b[j])
    ensures n < |a| && n < |b| ==> Stripped(a[n]) != Stripped(b[n])
    decreases |a| - i
  {
    if i < |a| && i < |b| && Stripped(a[i]) == Stripped(b[i]) then CommonFrom(a, b, i + 1) else i
  }

  function Trimmed(d: Desk, common: nat): Desk
    requires common <= |d.messages| == |d.uuids|
  {
    if common == |d.messages| then d
    else Rewound(d, if common > 0 then Some(d.uuids[common - 1]) else None)
           .(messages := d.messages[..common], uuids := d.uuids[..common])
  }

  function Replaced(d: Desk, desired: seq<Json>): Desk
    requires |d.messages| == |d.uuids|
  {
    var common := CommonFrom(d.messages, desired, 0);
    KeptAll(Trimmed(d, common), desired[common..])
  }

  // ---- the writer and the branch --------------------------------------------------------------

  /** A clock that never shows the same time twice. */
  class Clock {
    var now: nat

    constructor ()
    {
      now := 0;
    }

    method Tick() returns (stamp: nat)
      modifies this
      ensures stamp == old(now) && now == old(now) + 1
    {
      stamp := now;
      now := now + 1;
    }
  }

  class TranscriptWriter {
    const store: MemoryTranscript
    const clock: Clock
    const conversation: string
    var parentUuid: Option<Uuid>

    constructor (store: MemoryTranscript, clock: Clock, conversation: string, parentUuid: Option<Uuid>)
      ensures this.store == store && this.clock == clock && this.conversation == conversation
      ensures this.parentUuid == parentUuid
    {
      this.store, this.clock, this.conversation, this.parentUuid := store, clock, conversation, parentUuid;
    }

    ghost function Place(): Desk
      reads this, store, clock
    {
      Desk(store.Log(conversation), clock.now, parentUuid, [], [])
    }

    method AppendMarker(leaf: Option<Uuid>)
      requires store.Valid()
      modifies store, clock
      ensures store.Valid()
      ensures Place() == Marked(old(Place()), leaf)
      ensures forall c :: c != conversation ==> store.Log(c) == old(store.Log(c))
    {
      var stamp := clock.Tick();
      var _ := store.Append(conversation, LeafEntry(stamp, leaf));
    }

    /** The message is in the log once and the writer stands at it. A message that was there already
        costs a marker, so that readers find the writer's position. */
    method Record(message: Json) returns (appended: bool)
      requires store.Valid()
      modifies this, store, clock
      ensures store.Valid()
      ensures Place() == Recorded(old(Place()), message)
      ensures appended <==> !Has(old(store.Log(conversation)), Id(old(parentUuid), Stripped(message)))
      ensures forall c :: c != conversation ==> store.Log(c) == old(store.Log(c))
    {
      var entry := MessageEntry(parentUuid, message);
      appended := store.Append(conversation, entry);
      parentUuid := Some(entry.uuid);
      if !appended { AppendMarker(Some(entry.uuid)); }
    }

    method Rewind(leaf: Option<Uuid>)
      requires store.Valid()
      modifies this, store, clock
      ensures store.Valid()
      ensures Place() == Rewound(old(Place()), leaf)
      ensures forall c :: c != conversation ==> store.Log(c) == old(store.Log(c))
    {
      AppendMarker(leaf);
      parentUuid := leaf;
    }
  }

  class Branch {
    const writer: TranscriptWriter
    var messages: seq<Json>
    var uuids: seq<Uuid>

    constructor (writer: TranscriptWriter, messages: seq<Json>, uuids: seq<Uuid>)
      ensures this.writer == writer && this.messages == messages && this.uuids == uuids
    {
      this.writer, this.messages, this.uuids := writer, messages, uuids;
    }

    ghost function Place(): Desk
      reads this, writer, writer.store, writer.clock
    {
      writer.Place().(messages := messages, uuids := uuids)
    }

    /** The attempt holds what a reader of the log finds, and writes after the reader's tip. */
    static method Open(store: MemoryTranscript, clock: Clock, conversation: string) returns (branch: Branch)
      requires store.Valid()
      ensures fresh(branch) && fresh(branch.writer)
      ensures branch.writer.store == store && branch.writer.clock == clock && branch.writer.conversation == conversation
      ensures branch.Place() == Opened(store.Log(conversation), clock.now)
    {
      var entries := store.Read(conversation, None);
      var active := ActiveBranch(entries);
      var ids := [];
      assert active[..0] == [];
      for i := 0 to |active|
        invariant ids == IdsOf(active[..i])
      {
        assert active[..i + 1][..i] == active[..i];
        if active[i].Chained? && active[i].message.Some? { ids := ids + [active[i].uuid]; }
      }
      assert active[..|active|] == active;
      var writer := new TranscriptWriter(store, clock, conversation,
                                         if active == [] then None else Some(active[|active| - 1].uuid));
      branch := new Branch(writer, MessagesOf(entries), ids);
    }

    /** The attempt holds these messages too, each under the id it has in the log. */
    method Append(more: seq<Json>)
      requires writer.store.Valid()
      modifies this, writer, writer.store, writer.clock
      ensures writer.store.Valid()
      ensures Place() == KeptAll(old(Place()), more)
      ensures forall c :: c != writer.conversation ==> writer.store.Log(c) == old(writer.store.Log(c))
    {
      assert more[..0] == [];
      for i := 0 to |more|
        invariant writer.store.Valid()
        invariant Place() == KeptAll(old(Place()), more[..i])
        invariant forall c :: c != writer.conversation ==> writer.store.Log(c) == old(writer.store.Log(c))
      {
        assert more[..i + 1][..i] == more[..i];
        var _ := writer.Record(more[i]);
        messages := messages + [more[i]];
        uuids := uuids + [writer.parentUuid.value];
      }
      assert more[..|more|] == more;
    }

    /** The attempt holds the desired history; the log grew by a rewind and the part that differed. */
    method Replace(desired: seq<Json>)
      requires writer.store.Valid() && |messages| == |uuids|
      modifies this, writer, writer.store, writer.clock
      ensures writer.store.Valid()
      ensures Place() == Replaced(old(Place()), desired)
      ensures forall c :: c != writer.conversation ==> writer.store.Log(c) == old(writer.store.Log(c))
    {
      var common := 0;
      while common < |messages| && common < |desired| && Stripped(messages[common]) == Stripped(desired[common])
        invariant common <= |messages| && common <= |desired|
        invariant CommonFrom(messages, desired, 0) == CommonFrom(messages, desired, common)
      {
        common := common + 1;
      }
      if common < |messages| {
        writer.Rewind(if common > 0 then Some(uuids[common - 1]) else None);
        messages := messages[..common];
        uuids := uuids[..common];
      }
      assert Place() == Trimmed(old(Place()), common);
      Append(desired[common..]);
    }
  }
}
