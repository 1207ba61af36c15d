/** JSON bodies, and what is left of one when the fields that vary between replays are dropped. */
module Json {
  import opened Wrappers

  datatype Json = JNull | Atom(text: string) | List(items: seq<Json>) | Object(fields: map<string, Json>)

  const VOLATILE: set<string> := {
    "timestamp", "run_id", "branch_id", "conversation_id", "usage", "provider_details",
    "provider_response_id", "provider_name", "provider_url", "finish_reason", "model_name"}

  function Stripped(value: Json): Json {
    match value
    case Object(fields) => Object(map k | k in fields && k !in VOLATILE :: Stripped(fields[k]))
    case List(items) => List(seq(|items|, i requires 0 <= i < |items| => Stripped(items[i])))
    case _ => value
  }

  /** No volatile field anywhere. */
  predicate Stable(value: Json) {
    match value
    case Object(fields) => forall k :: k in fields ==> k !in VOLATILE && Stable(fields[k])
    case List(items) => forall i :: 0 <= i < |items| ==> Stable(items[i])
    case _ => true
  }

  /** Stripping removes every volatile field, at any depth. */
  lemma {:induction false} StrippedIsStable(value: Json)
    ensures Stable(Stripped(value))
  {
    match value
    case Object(fields) =>
      forall k | k in Stripped(value).fields ensures k !in VOLATILE && Stable(Stripped(value).fields[k]) {
        StrippedIsStable(fields[k]);
      }
    case List(items) =>
      forall i | 0 <= i < |items| ensures Stable(Stripped(value).items[i]) { StrippedIsStable(items[i]); }
    case _ =>
  }

  /** And it removes nothing else. */
  lemma {:induction false} StableIsKept(value: Json)
    requires Stable(value)
    ensures Stripped(value) == value
  {
    match value
    case Object(fields) =>
      forall k | k in fields ensures Stripped(fields[k]) == fields[k] { StableIsKept(fields[k]); }
      assert Stripped(value).fields == fields;
    case List(items) =>
      forall i | 0 <= i < |items| ensures Stripped(items[i]) == items[i] { StableIsKept(items[i]); }
      assert Stripped(value).items == items;
    case _ =>
  }

  // ---- what stripping keeps, said by paths ----------------------------------------------------

  datatype Hop = Field(name: string) | Place(index: nat)

  /** What lies at a path, if anything does. */
  function Look(value: Json, path: seq<Hop>): Option<Json> {
    if path == [] then Some(value) else
    match (value, path[0])
    case (Object(fields), Field(name)) => if name in fields then Look(fields[name], path[1..]) else None
    case (List(items), Place(i)) => if i < |items| then Look(items[i], path[1..]) else None
    case (_, _) => None
  }

  /** The path goes through no field that varies between replays. */
  predicate Steady(path: seq<Hop>) {
    forall i :: 0 <= i < |path| && path[i].Field? ==> path[i].name !in VOLATILE
  }

  /** The same kind of value, and the same one if it has no parts. */
  predicate Alike(a: Json, b: Json) {
    (a.Object? && b.Object?) || (a.List? && b.List?) || (a.JNull? && a == b) || (a.Atom? && a == b)
  }

  predicate AlikeAt(a: Json, b: Json, path: seq<Hop>) {
    match (Look(a, path), Look(b, path))
    case (None, None) => true
    case (Some(x), Some(y)) => Alike(x, y)
    case (_, _) => false
  }

  /** The values agree wherever a path leads that goes through no volatile field. */
  ghost predicate Agree(a: Json, b: Json) {
    forall path :: Steady(path) ==> AlikeAt(a, b, path)
  }

  lemma SteadyTail(path: seq<Hop>)
    requires path != []
    ensures Steady(path) <==> (path[0].Field? ==> path[0].name !in VOLATILE) && Steady(path[1..])
  {
    var tail := path[1..];
    if Steady(path) {
      forall i | 0 <= i < |tail| && tail[i].Field? ensures tail[i].name !in VOLATILE { assert tail[i] == path[i + 1]; }
    }
    if (path[0].Field? ==> path[0].name !in VOLATILE) && Steady(tail) {
      forall i | 0 <= i < |path| && path[i].Field? ensures path[i].name !in VOLATILE {
        if i > 0 { assert path[i] == tail[i - 1]; }
      }
    }
  }

  /** Stripping removes nothing but volatile fields, in any value: along every steady path there is
      afterwards what was there before, and along no other path is there anything. */
  lemma {:induction false} StrippedAlongPaths(value: Json, path: seq<Hop>)
    ensures Steady(path) ==> AlikeAt(value, Stripped(value), path)
    ensures !Steady(path) ==> Look(Stripped(value), path).None?
    decreases |path|
  {
    if path != [] {
      SteadyTail(path);
      match (value, path[0])
      case (Object(fields), Field(name)) =>
        if name in fields { StrippedAlongPaths(fields[name], path[1..]); }
      case (List(items), Place(i)) =>
        if i < |items| { StrippedAlongPaths(items[i], path[1..]); }
      case (_, _) =>
    }
  }

  lemma LookDeeper(value: Json, hop: Hop, path: seq<Hop>)
    requires Look(value, [hop]).Some?
    ensures Look(value, [hop] + path) == Look(Look(value, [hop]).value, path)
  {
    assert [hop][1..] == [] && ([hop] + path)[1..] == path;
  }

  lemma AgreeBelow(a: Json, b: Json, hop: Hop)
    requires Agree(a, b) && (hop.Field? ==> hop.name !in VOLATILE)
    ensures Look(a, [hop]).Some? <==> Look(b, [hop]).Some?
    ensures Look(a, [hop]).Some? ==> Agree(Look(a, [hop]).value, Look(b, [hop]).value)
  {
    SteadyTail([hop]);
    assert Steady([]) && [hop][1..] == [];
    assert AlikeAt(a, b, [hop]);
    if Look(a, [hop]).Some? {
      forall path | Steady(path) ensures AlikeAt(Look(a, [hop]).value, Look(b, [hop]).value, path) {
        assert ([hop] + path)[1..] == path;
        SteadyTail([hop] + path);
        LookDeeper(a, hop, path);
        LookDeeper(b, hop, path);
        assert AlikeAt(a, b, [hop] + path);
      }
    }
  }

  lemma {:induction false} AgreeingStripAlike(a: Json, b: Json)
    requires Agree(a, b)
    ensures Stripped(a) == Stripped(b)
    decreases a
  {
    assert Steady([]) && AlikeAt(a, b, []);
    match a
    case Object(fields) =>
      forall k | k !in VOLATILE
        ensures k in fields <==> k in b.fields
        ensures k in fields ==> Stripped(fields[k]) == Stripped(b.fields[k])
      {
        AgreeBelow(a, b, Field(k));
        assert [Field(k)][1..] == [];
        if k in fields { AgreeingStripAlike(fields[k], b.fields[k]); }
      }
      assert Stripped(a).fields == Stripped(b).fields;
    case List(items) =>
      if |items| < |b.items| { AgreeBelow(a, b, Place(|items|)); }
      if |b.items| < |items| { AgreeBelow(a, b, Place(|b.items|)); }
      assert |items| == |b.items|;
      forall i | 0 <= i < |items| ensures Stripped(items[i]) == Stripped(b.items[i]) {
        AgreeBelow(a, b, Place(i));
        assert [Place(i)][1..] == [];
        AgreeingStripAlike(items[i], b.items[i]);
      }
      assert Stripped(a).items == Stripped(b).items;
    case _ =>
  }

  /** Two values strip to the same exactly when they agree along every steady path. */
  lemma {:induction false} SameStrippedExactlyWhen(a: Json, b: Json)
    ensures Stripped(a) == Stripped(b) <==> Agree(a, b)
  {
    if Stripped(a) == Stripped(b) {
      forall path | Steady(path) ensures AlikeAt(a, b, path) {
        StrippedAlongPaths(a, path);
        StrippedAlongPaths(b, path);
      }
    }
    if Agree(a, b) { AgreeingStripAlike(a, b); }
  }
}
