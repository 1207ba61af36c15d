/** Who holds a branch: workers, the token each was given when it joined, and why at most one of
    them can still write. */
module Workers {
  import opened Ledger
  import opened LedgerLaws

  /** A worker is named by the lease owner it drew; it is never empty and never drawn twice. */
  type Worker = Owner

  /** The token each worker's own acquire returned. Its attempt presents that token for good: the
      renewal that runs beside it never hands over another. Zero is a worker without a lease. */
  type Tokens = map<Worker, int>

  function Join(s: BranchState, tokens: Tokens, p: Worker, expired: bool): (BranchState, Tokens) {
    if p == "" || p in tokens then (s, tokens) else
    var (r, token) := Acquire(s, p, expired);
    if token == 0 then (s, tokens) else (r, tokens[p := token])
  }

  /** Every worker holds a positive token of its own, and nobody outside holds the lease. */
  ghost predicate TokensOk(s: BranchState, tokens: Tokens) {
    && LeaseOk(s)
    && (forall p :: p in tokens ==> p != "" && 0 < tokens[p] <= s.issued)
    && (forall p, q :: p in tokens && q in tokens && tokens[p] == tokens[q] ==> p == q)
    && (s.lease.Some? ==> s.lease.value.owner == "" || s.lease.value.owner in tokens)
  }

  /** Tokens are handed out and never changed: either the roster is as it was, or one worker joined
      and holds the new last token. */
  ghost predicate Grown(s: BranchState, tokens: Tokens, r: BranchState, next: Tokens) {
    && TokensOk(r, next)
    && s.issued <= r.issued
    && (next == tokens || exists p :: p !in tokens && next == tokens[p := r.issued] && r.issued == s.issued + 1)
  }

  lemma JoinGrows(s: BranchState, tokens: Tokens, p: Worker, expired: bool)
    requires TokensOk(s, tokens)
    ensures Grown(s, tokens, Join(s, tokens, p, expired).0, Join(s, tokens, p, expired).1)
    ensures Join(s, tokens, p, expired).1 == tokens ==> Join(s, tokens, p, expired).0 == s
    ensures Join(s, tokens, p, expired).1 != tokens ==> Join(s, tokens, p, expired).0 == Acquire(s, p, expired).0
  {
    var (r, next) := Join(s, tokens, p, expired);
    if next != tokens {
      forall q | q in tokens ensures tokens[q] < r.issued { }
      assert p !in tokens && next == tokens[p := r.issued];
    }
  }

  lemma RenewGrows(s: BranchState, tokens: Tokens, p: Worker, expired: bool)
    requires TokensOk(s, tokens) && p in tokens
    ensures Grown(s, tokens, Acquire(s, p, expired).0, tokens)
  {
  }

  lemma LeaveGrows(s: BranchState, tokens: Tokens, p: Worker)
    requires TokensOk(s, tokens)
    ensures Grown(s, tokens, Release(s, p), tokens)
  {
  }

  lemma OpGrows(s: BranchState, tokens: Tokens, op: Op)
    requires TokensOk(s, tokens) && !op.AcquireOp? && !op.ReleaseOp?
    ensures Grown(s, tokens, Next(s, op), tokens) && Next(s, op).issued == s.issued
  {
    hide Next;
    OtherTables(s, op);
  }

  lemma GrownMeans(s: BranchState, tokens: Tokens, r: BranchState, next: Tokens, p: Worker)
    requires Grown(s, tokens, r, next)
    ensures p in tokens ==> p in next && next[p] == tokens[p]
    ensures p in next && p !in tokens ==> next[p] == r.issued
    ensures p in tokens && next[p] == r.issued && TokensOk(s, tokens) ==> r.issued == s.issued && next == tokens
  {
  }

  /** Whoever can still write holds the last token, and everybody else is fenced. */
  lemma OnlyTheLatestWrites(s: BranchState, tokens: Tokens, p: Worker)
    requires TokensOk(s, tokens) && p in tokens && !Stale(s, tokens[p])
    ensures tokens[p] == s.issued
    ensures forall q :: q in tokens && q != p ==> tokens[q] < s.issued && Stale(s, tokens[q])
  {
  }
}
