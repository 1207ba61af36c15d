/** The in-memory transcript: one deduplicated log per conversation, in arrival order. */
module TranscriptStore {
  import opened Wrappers
  import opened Entries
  import opened TranscriptLaws

  datatype Row = Row(sequence: nat, entry: Entry)

  function LogOf(rows: seq<Row>): Log {
    seq(|rows|, i requires 0 <= i < |rows| => rows[i].entry)
  }

  /** A slice `rows[start:]`, where a negative start counts from the end. */
  function Tail(log: Log, start: int): Log {
    if start >= |log| then [] else if start >= 0 then log[start..] else if |log| + start >= 0 then log[|log| + start..] else log
  }

  /** The newest entries a read with a limit returns. */
  function Window(log: Log, limit: Option<int>): Log {
    if limit.None? then log else if limit.value > 0 then Tail(log, |log| - limit.value) else []
  }

  function Newest(log: Log, limit: nat): Log {
    if limit >= |log| then log else log[|log| - limit..]
  }

  /** A limited read returns the newest entries up to the limit exactly when the limit is at most the
      length of the log, or at least twice it: in between, the start of the slice turns negative and
      counts from the end, and entries are lost. */
  lemma LimitedReadIsTheTail(log: Log, limit: nat)
    ensures Window(log, Some(limit)) == Newest(log, limit) <==> limit <= |log| || limit >= 2 * |log|
  {
    if |log| < limit < 2 * |log| {
      assert |Window(log, Some(limit))| == limit - |log|;
    }
  }

  /** How many of the newest entries a read returns: all without a limit; none for a limit of zero or less;
      up to the limit while the log is long enough; and beyond that only what the limit exceeds the log by,
      until it does so by the whole log. */
  function Returned(length: nat, limit: Option<int>): nat {
    if limit.None? then length
    else if limit.value <= 0 then 0
    else if limit.value <= length then limit.value
    else if limit.value - length <= length then limit.value - length
    else length
  }

  /** A read returns exactly that many of the newest entries, in arrival order. */
  lemma WindowIsTheNewest(log: Log, limit: Option<int>)
    ensures var n := Returned(|log|, limit);
      |Window(log, limit)| == n && Window(log, limit) == log[|log| - n..]
  {
  }

  class MemoryTranscript {
    var rows: map<string, seq<Row>>
    var seen: set<(string, Uuid)>
    var sequence: nat

    function Log(c: string): Entries.Log
      reads this
    {
      if c in rows then LogOf(rows[c]) else []
    }

    /** The ids seen are those of the rows, and rows are numbered in arrival order. */
    ghost predicate Valid()
      reads this
    {
      && (forall c, u :: (c, u) in seen <==> Has(Log(c), u))
      && (forall c, i :: c in rows && 0 <= i < |rows[c]| ==> rows[c][i].sequence <= sequence)
      && (forall c, i, j :: c in rows && 0 <= i < j < |rows[c]| ==> rows[c][i].sequence < rows[c][j].sequence)
    }

    constructor ()
      ensures Valid() && forall c :: Log(c) == []
    {
      rows, seen, sequence := map[], {}, 0;
    }

    /** The log of the conversation grows by the entry exactly when its id is new there. */
    method Append(c: string, entry: Entry) returns (inserted: bool)
      requires Valid()
      modifies this
      ensures Valid()
      ensures inserted <==> !Has(old(Log(c)), entry.uuid)
      ensures Log(c) == Appended(old(Log(c)), entry)
      ensures forall d :: d != c ==> Log(d) == old(Log(d))
    {
      if (c, entry.uuid) in seen { return false; }
      ghost var before := Log(c);
      seen := seen + {(c, entry.uuid)};
      sequence := sequence + 1;
      var held := if c in rows then rows[c] else [];
      rows := rows[c := held + [Row(sequence, entry)]];
      assert Log(c) == before + [entry];
      HasMore(before, entry);
      inserted := true;
    }

    method Read(c: string, limit: Option<int>) returns (entries: Entries.Log)
      ensures entries == Window(Log(c), limit)
    {
      entries := Window(Log(c), limit);
    }
  }

  lemma HasMore(log: Log, e: Entry)
    ensures forall u :: Has(log + [e], u) <==> Has(log, u) || u == e.uuid
  {
    forall u ensures Has(log + [e], u) <==> Has(log, u) || u == e.uuid {
      if Has(log, u) {
        var i :| 0 <= i < |log| && log[i].uuid == u;
        assert (log + [e])[i].uuid == u;
      }
      assert (log + [e])[|log|] == e;
    }
  }
}
