/** What it means to go through a list and keep some of it, in order: said place by place, for every list
    the framework filters. */
module Selection {
  import opened Wrappers

  /** How much is offered. */
  function Count<T>(offers: seq<Option<T>>): nat {
    if offers == [] then 0
    else Count(offers[..|offers| - 1]) + if offers[|offers| - 1].Some? then 1 else 0
  }

  /** `out` holds everything on offer and nothing else, each thing after exactly as many others as were
      offered before it. */
  ghost predicate Takes<T>(offers: seq<Option<T>>, out: seq<T>) {
    && |out| == Count(offers)
    && forall k: nat :: k < |offers| && offers[k].Some? ==>
         Count(offers[..k]) < |out| && out[Count(offers[..k])] == offers[k].value
  }

  lemma TakesNothing<T>()
    ensures Takes<T>([], [])
  {
  }

  lemma TakesNext<T>(offers: seq<Option<T>>, out: seq<T>, offer: Option<T>)
    requires Takes(offers, out)
    ensures Takes(offers + [offer], out + if offer.Some? then [offer.value] else [])
  {
    var more := offers + [offer];
    assert more[..|offers|] == offers;
    forall k: nat | k < |offers| ensures more[..k] == offers[..k] { }
  }

  lemma {:induction false} CountRises<T>(offers: seq<Option<T>>, k: nat)
    requires k <= |offers|
    ensures Count(offers[..k]) <= Count(offers)
    decreases |offers|
  {
    if k < |offers| {
      CountRises(offers[..|offers| - 1], k);
      assert offers[..|offers| - 1][..k] == offers[..k];
    } else {
      assert offers[..k] == offers;
    }
  }

  /** The offers determine what is taken. */
  lemma {:induction false} TakesOneWay<T>(offers: seq<Option<T>>, a: seq<T>, b: seq<T>)
    requires Takes(offers, a) && Takes(offers, b)
    ensures a == b
    decreases |offers|
  {
    if offers != [] {
      var n := |offers| - 1;
      var m := Count(offers[..n]);
      TakesInit(offers, a);
      TakesInit(offers, b);
      TakesOneWay(offers[..n], a[..m], b[..m]);
      assert a == a[..m] + a[m..] && b == b[..m] + b[m..];
    }
  }

  lemma TakesInit<T>(offers: seq<Option<T>>, out: seq<T>)
    requires offers != [] && Takes(offers, out)
    ensures var n := |offers| - 1;
      Count(offers[..n]) <= |out| && Takes(offers[..n], out[..Count(offers[..n])])
  {
    var n := |offers| - 1;
    forall k: nat | k < n && offers[k].Some?
      ensures Count(offers[..n][..k]) < Count(offers[..n]) && offers[..n][..k] == offers[..k]
    {
      assert offers[..n][..k] == offers[..k];
      assert offers[..n][..k + 1][..k] == offers[..k];
      CountRises(offers[..n], k + 1);
    }
  }
}
