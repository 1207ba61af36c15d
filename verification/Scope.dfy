/** What it means to name a branch inside a conversation: the store sees one flat name, and names that
    differ do not interfere. */
module Scope {
  import opened Wrappers
  import opened Ledger
  import opened Views

  /** A branch as a caller names it: inside a conversation, or outside all of them. */
  datatype Scope = Scope(conversation: Option<string>, branch: string)

  /** The name the branch is stored under. */
  function Filed(at: Scope): string {
    match at.conversation
    case None => at.branch
    case Some(c) => c + "/" + at.branch
  }

  /** One branch id under two conversations and under none is three different branches. */
  lemma SameBranchApart(c: string, d: string, branch: string)
    ensures Filed(Scope(Some(c), branch)) != Filed(Scope(None, branch))
    ensures c != d ==> Filed(Scope(Some(c), branch)) != Filed(Scope(Some(d), branch))
  {
    var x, y := c + "/" + branch, d + "/" + branch;
    assert |x| > |branch|;
    if x == y {
      assert |c| == |d|;
      assert c == x[..|c|] && d == y[..|d|];
    }
  }

  predicate Slashless(text: string) {
    '/' !in text
  }

  /** Conversation ids without a slash, and branch ids without one where no conversation is named. */
  predicate WellNamed(at: Scope) {
    if at.conversation.Some? then Slashless(at.conversation.value) else Slashless(at.branch)
  }

  lemma Spelled(c: string, b: string, i: nat)
    ensures (c + "/" + b)[|c|] == '/' && (c + "/" + b)[..|c|] == c && (c + "/" + b)[|c| + 1..] == b
    ensures i < |c| ==> (c + "/" + b)[i] == c[i]
  {
  }

  lemma EqualParts(c: string, b: string, d: string, e: string)
    ensures c + "/" + b == d + "/" + e && |c| == |d| ==> c == d && b == e
  {
    Spelled(c, b, 0);
    Spelled(d, e, 0);
  }

  lemma FirstSlash(c: string, b: string, d: string, e: string)
    requires Slashless(c) && Slashless(d) && c + "/" + b == d + "/" + e
    ensures c == d && b == e
  {
    Spelled(c, b, |d|);
    Spelled(d, e, |c|);
    EqualParts(c, b, d, e);
  }

  /** Well-named branches are filed apart, whatever their conversations and ids. */
  lemma WellNamedApart(x: Scope, y: Scope)
    requires WellNamed(x) && WellNamed(y) && x != y
    ensures Filed(x) != Filed(y)
  {
    match (x.conversation, y.conversation)
    case (Some(c), Some(d)) => if Filed(x) == Filed(y) { FirstSlash(c, x.branch, d, y.branch); }
    case (Some(c), None) => assert Filed(x)[|c|] == '/';
    case (None, Some(d)) => assert Filed(y)[|d|] == '/';
    case (None, None) =>
  }

  /** `y` names what `x` names with part of its branch id moved into the conversation. */
  ghost predicate Slides(x: Scope, y: Scope) {
    y.conversation.Some? &&
    if x.conversation.None? then x.branch == y.conversation.value + "/" + y.branch
    else exists part: string ::
      y.conversation.value == x.conversation.value + "/" + part && x.branch == part + "/" + y.branch
  }

  lemma SlidesCollide(x: Scope, y: Scope)
    requires Slides(x, y)
    ensures Filed(x) == Filed(y)
  {
    if x.conversation.Some? {
      var part: string :| y.conversation.value == x.conversation.value + "/" + part && x.branch == part + "/" + y.branch;
      assert x.conversation.value + "/" + (part + "/" + y.branch) == (x.conversation.value + "/" + part) + "/" + y.branch;
    }
  }

  lemma CollisionSlides(x: Scope, y: Scope, c: string, d: string)
    requires x.conversation == Some(c) && y.conversation == Some(d) && |c| < |d| && Filed(x) == Filed(y)
    ensures Slides(x, y)
  {
    var name := Filed(x);
    assert d == name[..|d|] && c == name[..|c|] && name[|c|] == '/' && name[|d|] == '/';
    assert d[|c|] == '/';
    var part := d[|c| + 1..];
    assert d == c + "/" + part;
    assert x.branch == name[|c| + 1..] && y.branch == name[|d| + 1..];
    assert x.branch == part + "/" + y.branch;
  }

  /** Exactly when two scopes collide: one slides into the other across a slash. */
  lemma CollideExactlyWhen(x: Scope, y: Scope)
    requires x != y
    ensures Filed(x) == Filed(y) <==> Slides(x, y) || Slides(y, x)
  {
    if Slides(x, y) { SlidesCollide(x, y); }
    if Slides(y, x) { SlidesCollide(y, x); }
    if Filed(x) == Filed(y) {
      match (x.conversation, y.conversation)
      case (Some(c), Some(d)) =>
        EqualParts(c, x.branch, d, y.branch);
        if |c| < |d| { CollisionSlides(x, y, c, d); }
        else if |d| < |c| { CollisionSlides(y, x, d, c); }
      case (Some(c), None) =>
      case (None, Some(d)) =>
      case (None, None) =>
    }
  }

  /** The provisos are needed: these two callers share one branch. */
  lemma SlashesCollide()
    ensures Filed(Scope(Some("a"), "b/c")) == Filed(Scope(Some("a/b"), "c"))
  {
    assert "a" + "/" + "b/c" == "a/b" + "/" + "c";
  }

  // ---- non-interference -----------------------------------------------------------------------

  /** Calls from any scopes, in the order the store serves them. */
  function Serve(views: Views, calls: seq<(Scope, Op)>): Views {
    if calls == [] then views else
    var n := |calls| - 1;
    var before := Serve(views, calls[..n]);
    var b := Filed(calls[n].0);
    before[b := Next(Of(before, b), calls[n].1)]
  }

  /** The calls made from scope `at`, in order. */
  function Own(calls: seq<(Scope, Op)>, at: Scope): seq<Op> {
    if calls == [] then [] else
    var n := |calls| - 1;
    Own(calls[..n], at) + if calls[n].0 == at then [calls[n].1] else []
  }

  /** A scope sees a ledger of its own: whatever differently filed scopes do in between, its branch
      is what its own calls alone would have made it. */
  lemma {:induction false} ScopesDoNotInterfere(views: Views, calls: seq<(Scope, Op)>, at: Scope)
    requires forall i :: 0 <= i < |calls| ==> calls[i].0 == at || Filed(calls[i].0) != Filed(at)
    ensures Of(Serve(views, calls), Filed(at)) == Run(Of(views, Filed(at)), Own(calls, at))
  {
    if calls != [] {
      var n := |calls| - 1;
      assert forall i :: 0 <= i < n ==> calls[..n][i] == calls[i];
      ScopesDoNotInterfere(views, calls[..n], at);
      var own := Own(calls[..n], at);
      if calls[n].0 == at {
        assert (own + [calls[n].1])[..|own|] == own;
      } else {
        assert own + [] == own;
      }
    }
  }
}
