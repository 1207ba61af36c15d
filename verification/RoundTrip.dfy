/** The transcript round trip: whatever was appended, replaced, cut short and reopened before, what a
    reader finds in the log is the history the attempt last wanted. */
module RoundTrip {
  import opened Wrappers
  import opened Json
  import opened Entries
  import opened TranscriptLaws
  import opened Branches

  /** Every leaf marker of the log was made before `now`. */
  ghost predicate Ahead(log: Log, now: nat) {
    forall i :: 0 <= i < |log| && log[i].uuid.LeafId? ==> log[i].uuid.stamp < now
  }

  /** The attempt and the log agree. */
  ghost predicate Aligned(d: Desk) {
    && WellFormed(d.log) && Ahead(d.log, d.now)
    && Anchored(d.log, d.parent) && Tip(d.log) == d.parent
    && d.uuids == ChainOf(d.parent) && Spells(d.messages, d.uuids)
  }

  // ---- one write ------------------------------------------------------------------------------

  /** A marker moves the tip exactly when its id is new, or the tip is there already. */
  lemma MarkerTakesEffectExactlyWhen(log: Log, now: nat, leaf: Option<Uuid>)
    ensures Tip(Appended(log, LeafEntry(now, leaf))) == leaf <==> !Has(log, LeafId(now, leaf)) || Tip(log) == leaf
  {
    var e := LeafEntry(now, leaf);
    if !Has(log, e.uuid) { assert (log + [e])[|log|] == e; }
  }

  lemma MarkedIs(d: Desk, leaf: Option<Uuid>)
    requires WellFormed(d.log) && Ahead(d.log, d.now) && Anchored(d.log, leaf)
    ensures var r := Marked(d, leaf);
      && WellFormed(r.log) && Ahead(r.log, r.now) && Tip(r.log) == leaf
      && r.log == d.log + [LeafEntry(d.now, leaf)] && ChainedOf(r.log) == ChainedOf(d.log)
  {
    var e := LeafEntry(d.now, leaf);
    assert !Has(d.log, e.uuid);
    AppendIsWellFormed(d.log, e);
    assert (d.log + [e])[..|d.log|] == d.log;
    forall i | 0 <= i < |d.log| + 1 && (d.log + [e])[i].uuid.LeafId? ensures (d.log + [e])[i].uuid.stamp < d.now + 1 {
      if i < |d.log| { assert (d.log + [e])[i] == d.log[i]; }
    }
  }

  lemma AppendedIs(d: Desk, message: Json)
    requires WellFormed(d.log) && Ahead(d.log, d.now) && Anchored(d.log, d.parent)
    ensures var entry := MessageEntry(d.parent, message);
      var log := Appended(d.log, entry);
      && WellFormed(log) && Ahead(log, d.now) && d.log <= log && entry.uuid in ChainedOf(log)
      && (!Has(d.log, entry.uuid) ==> Tip(log) == Some(entry.uuid))
  {
    var entry := MessageEntry(d.parent, message);
    AppendIsWellFormed(d.log, entry);
    if Has(d.log, entry.uuid) {
      HeldIsChained(d.log, entry.uuid);
    } else {
      assert (d.log + [entry])[..|d.log|] == d.log;
    }
  }

  /** Recording a message, new or replayed, keeps attempt and log agreed. */
  lemma KeptAligned(d: Desk, message: Json)
    requires Aligned(d)
    ensures Aligned(Kept(d, message)) && d.log <= Kept(d, message).log
  {
    var entry := MessageEntry(d.parent, message);
    AppendedIs(d, message);
    if Has(d.log, entry.uuid) {
      var moved := d.(log := Appended(d.log, entry), parent := Some(entry.uuid));
      MarkedIs(moved, Some(entry.uuid));
    }
    assert ChainOf(Some(entry.uuid)) == ChainOf(d.parent) + [entry.uuid];
  }

  lemma {:induction false} KeptAllAligned(d: Desk, more: seq<Json>)
    requires Aligned(d)
    ensures Aligned(KeptAll(d, more)) && d.log <= KeptAll(d, more).log
    ensures KeptAll(d, more).messages == d.messages + more
  {
    hide Aligned;
    if more != [] {
      var n := |more| - 1;
      KeptAllAligned(d, more[..n]);
      KeptAligned(KeptAll(d, more[..n]), more[n]);
      assert d.messages + more[..n] + [more[n]] == d.messages + more;
    }
  }

  lemma {:induction false} ChainsNest(tip: Option<Uuid>, i: nat)
    requires i < |ChainOf(tip)|
    ensures ChainOf(Some(ChainOf(tip)[i])) == ChainOf(tip)[..i + 1]
  {
    var parents := ChainOf(tip.value.parent);
    if i < |parents| {
      ChainsNest(tip.value.parent, i);
      assert ChainOf(tip)[..i + 1] == parents[..i + 1];
    } else {
      assert ChainOf(tip)[..i + 1] == ChainOf(tip);
    }
  }

  /** The id an attempt rewinds to spells exactly the ids it keeps. */
  lemma PrefixTip(d: Desk, common: nat)
    requires Aligned(d) && common < |d.messages|
    ensures var leaf := if common > 0 then Some(d.uuids[common - 1]) else None;
      Anchored(d.log, leaf) && ChainOf(leaf) == d.uuids[..common]
  {
    LogsAreRooted(d.log);
    ChainIsStored(ChainedOf(d.log), d.parent);
    hide WellFormed, ChainedOf, Rooted;
    if common > 0 {
      assert d.uuids[common - 1] in ChainOf(d.parent);
      ChainsNest(d.parent, common - 1);
    }
  }

  /** Rewinding to a common prefix keeps attempt and log agreed. */
  lemma TrimmedAligned(d: Desk, common: nat)
    requires Aligned(d) && common <= |d.messages|
    ensures Aligned(Trimmed(d, common)) && d.log <= Trimmed(d, common).log
    ensures Trimmed(d, common).messages == d.messages[..common]
  {
    if common < |d.messages| {
      PrefixTip(d, common);
      MarkedIs(d, if common > 0 then Some(d.uuids[common - 1]) else None);
      hide WellFormed, ChainedOf, ChainOf, Marked, Tip, Ahead;
    } else {
      assert d.messages[..common] == d.messages;
    }
  }

  /** After a replace the attempt holds the desired history, and the log agrees. */
  lemma ReplacedAligned(d: Desk, desired: seq<Json>)
    requires Aligned(d)
    ensures Aligned(Replaced(d, desired)) && d.log <= Replaced(d, desired).log
    ensures SameHistory(Replaced(d, desired).messages, desired)
  {
    var common := CommonFrom(d.messages, desired, 0);
    TrimmedAligned(d, common);
    KeptAllAligned(Trimmed(d, common), desired[common..]);
  }

  lemma {:induction false} IdsSpell(chained: map<Uuid, Entry>, ids: seq<Uuid>)
    requires Rooted(chained) && forall u :: u in ids ==> u in chained
    ensures IdsOf(Stored(chained, ids)) == ids
  {
    if ids != [] {
      var n := |ids| - 1;
      assert Stored(chained, ids)[..n] == Stored(chained, ids[..n]);
      IdsSpell(chained, ids[..n]);
      assert ids[n] in ids;
    }
  }

  /** Whatever log earlier attempts left behind, opening it gives an attempt that agrees with it. */
  lemma OpenedAligned(log: Log, now: nat)
    requires WellFormed(log) && Ahead(log, now)
    ensures Aligned(Opened(log, now))
  {
    LogsAreRooted(log);
    BranchIsTheChain(log, Tip(log));
    IdsSpell(ChainedOf(log), ChainOf(Tip(log)));
    var chain := ChainOf(Tip(log));
    if chain != [] { assert chain[|chain| - 1] == Tip(log).value; }
  }

  /** What a reader of the log finds is what the agreeing attempt holds. */
  lemma ReaderAgrees(d: Desk)
    requires Aligned(d)
    ensures SameHistory(MessagesOf(d.log), d.messages)
    ensures IdsOf(BranchAt(d.log, Tip(d.log))) == d.uuids == ChainOf(d.parent)
    ensures Tip(d.log) == d.parent
  {
    LogsAreRooted(d.log);
    BranchIsTheChain(d.log, d.parent);
    IdsSpell(ChainedOf(d.log), ChainOf(d.parent));
  }

  // ---- whole lives of a conversation ----------------------------------------------------------

  /** One attempt after the other works on the conversation. A crash may cut an append or a replace
      short after any of the entries it writes. */
  datatype Turn =
    | Open
    | Append(more: seq<Json>)
    | Replace(desired: seq<Json>)
    | CrashInAppend(cut: seq<Json>, written: nat)
    | CrashInReplace(meant: seq<Json>, written: nat)

  datatype Life = Life(desk: Desk, open: bool)

  const BORN := Life(Desk([], 0, None, [], []), false)

  /** Only the first `written` of the entries the attempt was writing reached the log. */
  function CutShort(before: Log, d: Desk, written: nat): Life {
    Life(d.(log := if |before| + written <= |d.log| then d.log[..|before| + written] else d.log), false)
  }

  /** An attempt is open, with one id for each of its messages. */
  predicate Ready(l: Life) {
    l.open && |l.desk.messages| == |l.desk.uuids|
  }

  function Live(l: Life, turn: Turn): Life {
    match turn
    case Open => Life(Opened(l.desk.log, l.desk.now), true)
    case Append(more) => if Ready(l) then Life(KeptAll(l.desk, more), true) else l
    case Replace(desired) => if Ready(l) then Life(Replaced(l.desk, desired), true) else l
    case CrashInAppend(more, n) => if Ready(l) then CutShort(l.desk.log, KeptAll(l.desk, more), n) else l
    case CrashInReplace(desired, n) => if Ready(l) then CutShort(l.desk.log, Replaced(l.desk, desired), n) else l
  }

  function LifeOf(turns: seq<Turn>): Life {
    if turns == [] then BORN else Live(LifeOf(turns[..|turns| - 1]), turns[|turns| - 1])
  }

  ghost predicate Sound(l: Life) {
    && WellFormed(l.desk.log) && Ahead(l.desk.log, l.desk.now)
    && (l.open ==> Aligned(l.desk))
  }

  lemma CutIsSound(before: Log, d: Desk, written: nat)
    requires WellFormed(d.log) && Ahead(d.log, d.now)
    ensures Sound(CutShort(before, d, written))
  {
    if |before| + written <= |d.log| { PrefixIsWellFormed(d.log, |before| + written); }
  }

  lemma LiveIsSound(l: Life, turn: Turn)
    requires Sound(l)
    ensures Sound(Live(l, turn))
    ensures l.open && turn.Replace? ==> SameHistory(Live(l, turn).desk.messages, turn.desired)
    ensures l.open && turn.Append? ==> Live(l, turn).desk.messages == l.desk.messages + turn.more
  {
    hide Replaced, KeptAll;
    match turn
    case Open => OpenedAligned(l.desk.log, l.desk.now);
    case Append(more) => if l.open { KeptAllAligned(l.desk, more); }
    case Replace(desired) => if l.open { ReplacedAligned(l.desk, desired); }
    case CrashInAppend(more, n) =>
      if l.open { KeptAllAligned(l.desk, more); CutIsSound(l.desk.log, KeptAll(l.desk, more), n); }
    case CrashInReplace(desired, n) =>
      if l.open { ReplacedAligned(l.desk, desired); CutIsSound(l.desk.log, Replaced(l.desk, desired), n); }
  }

  /** Every life of a conversation keeps the log well formed and any open attempt agreed with it. */
  lemma {:induction false} EveryLifeIsSound(turns: seq<Turn>)
    ensures Sound(LifeOf(turns))
  {
    hide Sound, Live;
    if turns == [] {
      BornIsSound();
    } else {
      EveryLifeIsSound(turns[..|turns| - 1]);
      LiveIsSound(LifeOf(turns[..|turns| - 1]), turns[|turns| - 1]);
    }
  }

  lemma BornIsSound()
    ensures Sound(BORN)
  {
  }

  /** The round trip. After any opens, appends, replaces and crashes, an open attempt and a reader who
      starts from nothing but the log agree on the messages, the tip and the chain of ids; and after a
      replace those messages are the desired history, up to fields that vary between replays. */
  lemma TranscriptRoundTrip(turns: seq<Turn>)
    ensures var l := LifeOf(turns);
      l.open ==>
        && SameHistory(MessagesOf(l.desk.log), l.desk.messages)
        && Tip(l.desk.log) == l.desk.parent
        && IdsOf(BranchAt(l.desk.log, Tip(l.desk.log))) == l.desk.uuids
        && l.desk.uuids == ChainOf(l.desk.parent)
    ensures forall desired ::
      LifeOf(turns).open ==> SameHistory(MessagesOf(LifeOf(turns + [Replace(desired)]).desk.log), desired)
    ensures forall more ::
      LifeOf(turns).open ==>
        SameHistory(MessagesOf(LifeOf(turns + [Append(more)]).desk.log), MessagesOf(LifeOf(turns).desk.log) + more)
  {
    hide Aligned, LifeOf, Replaced, KeptAll;
    EveryLifeIsSound(turns);
    var l := LifeOf(turns);
    if l.open {
      ReaderAgrees(l.desk);
      forall desired ensures SameHistory(MessagesOf(LifeOf(turns + [Replace(desired)]).desk.log), desired) {
        LifeOfMore(turns, Replace(desired));
        LiveIsSound(l, Replace(desired));
        ReaderAgrees(Live(l, Replace(desired)).desk);
      }
      forall more
        ensures SameHistory(MessagesOf(LifeOf(turns + [Append(more)]).desk.log), MessagesOf(LifeOf(turns).desk.log) + more)
      {
        LifeOfMore(turns, Append(more));
        LiveIsSound(l, Append(more));
        ReaderAgrees(Live(l, Append(more)).desk);
      }
    }
  }

  lemma LifeOfMore(turns: seq<Turn>, turn: Turn)
    ensures LifeOf(turns + [turn]) == Live(LifeOf(turns), turn)
    ensures Sound(LifeOf(turns)) && LifeOf(turns).open ==> Live(LifeOf(turns), turn).open == (turn.Open? || turn.Append? || turn.Replace?)
  {
    assert (turns + [turn])[..|turns|] == turns;
  }

  // ---- several writers ------------------------------------------------------------------------

  /** What one writer does to the shared log: record a message after its own position, or move. */
  datatype Write = Recording(message: Json) | Rewinding(leaf: Option<Uuid>)

  function Written(d: Desk, write: Write): Desk {
    match write case Recording(message) => Recorded(d, message) case Rewinding(leaf) => Rewound(d, leaf)
  }

  lemma MarkerIsLegal(log: Log, now: nat, leaf: Option<Uuid>, other: Option<Uuid>)
    requires WellFormed(log) && Anchored(log, leaf) && Anchored(log, other)
    ensures var r := Appended(log, LeafEntry(now, leaf));
      WellFormed(r) && log <= r && Anchored(r, leaf) && Anchored(r, other)
  {
    AppendIsWellFormed(log, LeafEntry(now, leaf));
    assert (log + [LeafEntry(now, leaf)])[..|log|] == log;
  }

  lemma MessageIsLegal(log: Log, parent: Option<Uuid>, message: Json, other: Option<Uuid>)
    requires WellFormed(log) && Anchored(log, parent) && Anchored(log, other)
    ensures var e := MessageEntry(parent, message);
      var r := Appended(log, e);
      WellFormed(r) && log <= r && Anchored(r, Some(e.uuid)) && Anchored(r, other)
  {
    var e := MessageEntry(parent, message);
    AppendIsWellFormed(log, e);
    assert (log + [e])[..|log|] == log;
    if Has(log, e.uuid) { HeldIsChained(log, e.uuid); }
  }

  lemma WriteIsLegal(d: Desk, write: Write, other: Option<Uuid>)
    requires WellFormed(d.log) && Anchored(d.log, d.parent) && Anchored(d.log, other)
    requires write.Rewinding? ==> Anchored(d.log, write.leaf)
    ensures var r := Written(d, write);
      WellFormed(r.log) && d.log <= r.log && Anchored(r.log, r.parent) && Anchored(r.log, other)
  {
    hide WellFormed, Anchored, Has;
    match write
    case Rewinding(leaf) => MarkerIsLegal(d.log, d.now, leaf, other);
    case Recording(message) =>
      var e := MessageEntry(d.parent, message);
      MessageIsLegal(d.log, d.parent, message, other);
      var log := Appended(d.log, e);
      MarkerIsLegal(log, d.now, Some(e.uuid), other);
  }

  /** One conversation and the writers at work on it, each at its own position. */
  datatype Shared = Shared(log: Log, positions: map<string, Option<Uuid>>)

  /** One write of one writer, whose clock need not agree with any other's. */
  datatype Act = Act(writer: string, now: nat, write: Write)

  /** A writer that was not there yet opens the conversation at its tip; nobody rewinds to an entry the
      log does not hold. */
  function Acted(sh: Shared, act: Act): Shared {
    var at := if act.writer in sh.positions then sh.positions[act.writer] else Tip(sh.log);
    if act.write.Rewinding? && !Anchored(sh.log, act.write.leaf) then sh
    else
      var r := Written(Desk(sh.log, act.now, at, [], []), act.write);
      Shared(r.log, sh.positions[act.writer := r.parent])
  }

  function ActedAll(sh: Shared, acts: seq<Act>): Shared {
    if acts == [] then sh else Acted(ActedAll(sh, acts[..|acts| - 1]), acts[|acts| - 1])
  }

  ghost predicate Standing(sh: Shared) {
    WellFormed(sh.log) && forall w :: w in sh.positions ==> Anchored(sh.log, sh.positions[w])
  }

  lemma ActKeepsTheLog(sh: Shared, act: Act)
    requires Standing(sh)
    ensures Standing(Acted(sh, act)) && sh.log <= Acted(sh, act).log
  {
    hide WellFormed, Anchored, Written;
    LogsAreRooted(sh.log);
    if !(act.write.Rewinding? && !Anchored(sh.log, act.write.leaf)) {
      var at := if act.writer in sh.positions then sh.positions[act.writer] else Tip(sh.log);
      var d := Desk(sh.log, act.now, at, [], []);
      WriteIsLegal(d, act.write, at);
      forall w | w in sh.positions ensures Anchored(Written(d, act.write).log, sh.positions[w]) {
        WriteIsLegal(d, act.write, sh.positions[w]);
      }
    }
  }

  /** Any number of writers, writing in any order with clocks that may agree, only ever extend the log,
      keep it well formed, and keep everybody's position on it. */
  lemma {:induction false} AnyWritersKeepTheLog(sh: Shared, acts: seq<Act>)
    requires Standing(sh)
    ensures Standing(ActedAll(sh, acts)) && sh.log <= ActedAll(sh, acts).log
  {
    hide Standing, Acted;
    if acts != [] {
      AnyWritersKeepTheLog(sh, acts[..|acts| - 1]);
      ActKeepsTheLog(ActedAll(sh, acts[..|acts| - 1]), acts[|acts| - 1]);
    }
  }

  /** Cursors are stable over whole runs: on a conversation that any writers made from nothing, whatever
      any writers do next, every entry there reads as it read before, and the active tip reads as the
      active branch. */
  lemma {:induction false} CursorsSurviveAnyWriters(acts: seq<Act>, more: seq<Act>, cursor: Uuid)
    requires cursor in ChainedOf(ActedAll(Shared([], map[]), acts).log)
    ensures var before := ActedAll(Shared([], map[]), acts);
      var after := ActedAll(before, more);
      && before.log <= after.log && cursor in ChainedOf(after.log)
      && MessagesAt(before.log, Some(cursor)).Some?
      && MessagesAt(after.log, Some(cursor)) == MessagesAt(before.log, Some(cursor))
      && MessagesAt(after.log, Tip(after.log)) == Some(MessagesOf(after.log))
  {
    hide ActedAll, WellFormed;
    AnyWritersKeepTheLog(Shared([], map[]), acts) by { NothingStands(); }
    var before := ActedAll(Shared([], map[]), acts);
    AnyWritersKeepTheLog(before, more);
    var after := ActedAll(before, more);
    var added := after.log[|before.log|..];
    assert after.log == before.log + added;
    CursorsAreStable(before.log, added, cursor);
    ChainedStays(before.log, added, cursor);
    assert after.log + [] == after.log;
    CursorsAreStable(after.log, [], cursor);
  }

  lemma NothingStands()
    ensures Standing(Shared([], map[]))
  {
  }

  // ---- what equal times would do --------------------------------------------------------------

  const FIRST := Id(None, Atom("first"))
  const SECOND := Id(Some(FIRST), Atom("second"))

  /** Back to the first message and forward again, all at time 0. */
  const THERE_AND_BACK: Log := [
    MessageEntry(None, Atom("first")), MessageEntry(Some(FIRST), Atom("second")),
    LeafEntry(0, Some(FIRST)), LeafEntry(0, Some(SECOND))]

  lemma ThereAndBackIsWellFormed()
    ensures WellFormed(THERE_AND_BACK)
  {
    var log := THERE_AND_BACK;
    assert log[..3][..2] == log[..2] && log[..2][..1] == log[..1] && log[..1][..0] == [];
    assert WellFormed(log[..0]);
    assert WellFormed(log[..1]);
    assert log[..2][0].uuid == FIRST && FIRST in ChainedOf(log[..1]);
    assert WellFormed(log[..2]);
    assert ChainedOf(log[..2]) == ChainedOf(log[..1])[SECOND := log[1]];
    assert WellFormed(log[..3]);
    assert ChainedOf(log[..3]) == ChainedOf(log[..2]);
  }

  /** That log is what a writer makes whose clock stands still: record, record, rewind, record again. */
  lemma MadeAtOneTime()
    ensures var d1 := Recorded(Desk([], 0, None, [], []), Atom("first"));
      var d2 := Recorded(d1, Atom("second"));
      var d3 := Rewound(d2, Some(FIRST)).(now := 0);
      var d4 := Recorded(d3, Atom("second")).(now := 0);
      d4.log == THERE_AND_BACK && d4.parent == Some(SECOND)
  {
    var log := THERE_AND_BACK;
    assert log[..1] == [log[0]] && log[..2] == log[..1] + [log[1]] && log[..3] == log[..2] + [log[2]] && log == log[..3] + [log[3]];
    assert Has(log[..3], SECOND) by { assert log[..3][1].uuid == SECOND; }
    hide WellFormed, Has;
    NotThere();
    assert log[0] == MessageEntry(None, Atom("first")) && log[0].uuid == FIRST;
    assert log[1] == MessageEntry(Some(FIRST), Atom("second")) && log[1].uuid == SECOND;
    var d1 := Recorded(Desk([], 0, None, [], []), Atom("first"));
    assert d1 == Desk(log[..1], 0, Some(FIRST), [], []);
    var d2 := Recorded(d1, Atom("second"));
    assert d2 == Desk(log[..2], 0, Some(SECOND), [], []);
    var d3 := Rewound(d2, Some(FIRST)).(now := 0);
    assert d3 == Desk(log[..3], 0, Some(FIRST), [], []);
  }

  lemma NotThere()
    ensures !Has([], FIRST) && !Has(THERE_AND_BACK[..1], SECOND)
    ensures !Has(THERE_AND_BACK[..2], LeafId(0, Some(FIRST))) && !Has(THERE_AND_BACK[..3], LeafId(0, Some(SECOND)))
  {
  }

  /** Were a clock to stand still, the second rewind to one entry would be dropped as a duplicate: the
      reader still finds the tip it rewound from, while the writer goes on from the first message. */
  lemma EqualTimesLoseARewind()
    ensures WellFormed(THERE_AND_BACK) && Tip(THERE_AND_BACK) == Some(SECOND)
    ensures var d := Desk(THERE_AND_BACK, 0, Some(SECOND), [Atom("first"), Atom("second")], [FIRST, SECOND]);
      var r := Trimmed(d, 1);
      r.parent == Some(FIRST) && Tip(r.log) == Some(SECOND) && !Aligned(r)
  {
    ThereAndBackIsWellFormed();
    var log := THERE_AND_BACK;
    assert log[2].uuid == LeafId(0, Some(FIRST));
    assert Has(log, LeafId(0, Some(FIRST)));
  }
}
