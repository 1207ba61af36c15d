/** What the whole store means, branch by branch. */
module Views {
  import opened Ledger

  /** The primary key of a table whose rows belong to a branch. */
  type Id = (string, string)

  /** The meaning of every branch; a branch nobody wrote is empty. */
  type Views = map<string, BranchState>

  function Of(views: Views, b: string): BranchState {
    if b in views then views[b] else EMPTY
  }

  /** Calls on any branches, in the order the store serves them. */
  function Served(views: Views, calls: seq<(string, Op)>): Views {
    if calls == [] then views else
    var n := |calls| - 1;
    var before := Served(views, calls[..n]);
    before[calls[n].0 := Next(Of(before, calls[n].0), calls[n].1)]
  }

  lemma ServedNext(views: Views, calls: seq<(string, Op)>, n: nat)
    requires n < |calls|
    ensures var before := Served(views, calls[..n]);
      Served(views, calls[..n + 1]) == before[calls[n].0 := Next(Of(before, calls[n].0), calls[n].1)]
  {
    assert calls[..n + 1][..n] == calls[..n];
  }
}
