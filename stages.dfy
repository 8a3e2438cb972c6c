/**
 * What the harambe orchestrators share between their stages: the
 * `list(set(urls))` deduplication of the listing stage, and the detail loop
 * that keeps, in order, the record each item yields and skips an item that
 * yields none.
 */
module Stages {
  import opened Wrappers
  import opened Text

  predicate Distinct(xs: seq<String>)
  {
    forall i, j :: 0 <= i < j < |xs| ==> xs[i] != xs[j]
  }

  /** `list(set(xs))`: no duplicates and the same elements (the order of a set is not promised). */
  method Dedup(xs: seq<String>) returns (ys: seq<String>)
    ensures Distinct(ys)
    ensures forall u :: u in ys <==> u in xs
  {
    ys := [];
    for i := 0 to |xs|
      invariant Distinct(ys)
      invariant forall u :: u in ys <==> u in xs[..i]
    {
      if xs[i] !in ys {
        ys := ys + [xs[i]];
      }
      assert xs[..i + 1] == xs[..i] + [xs[i]];
    }
    assert xs[..|xs|] == xs;
  }

  /** The records the items yield, in the items' order; an item that yields nothing is skipped. */
  function Kept<E, T>(xs: seq<E>, outcome: E -> Option<T>): (r: seq<T>)
    ensures |r| <= |xs|
  {
    if xs == [] then []
    else
      var y := outcome(xs[|xs| - 1]);
      Kept(xs[..|xs| - 1], outcome) + if y.Some? then [y.value] else []
  }

  /** Every record kept is what some item yields. */
  lemma {:induction false} KeptFrom<E, T>(xs: seq<E>, outcome: E -> Option<T>)
    ensures forall t :: t in Kept(xs, outcome) ==> exists k :: 0 <= k < |xs| && outcome(xs[k]) == Some(t)
  {
    if xs != [] {
      var init := xs[..|xs| - 1];
      KeptFrom(init, outcome);
      forall t | t in Kept(xs, outcome)
        ensures exists k :: 0 <= k < |xs| && outcome(xs[k]) == Some(t)
      {
        if t in Kept(init, outcome) {
          var k :| 0 <= k < |init| && outcome(init[k]) == Some(t);
          assert xs[k] == init[k];
        } else {
          assert outcome(xs[|xs| - 1]) == Some(t);
        }
      }
    }
  }

  /** Every record an item yields is kept. */
  lemma {:induction false} KeptHas<E, T>(xs: seq<E>, outcome: E -> Option<T>, k: nat)
    requires k < |xs| && outcome(xs[k]).Some?
    ensures outcome(xs[k]).value in Kept(xs, outcome)
  {
    if k < |xs| - 1 {
      assert xs[..|xs| - 1][k] == xs[k];
      KeptHas(xs[..|xs| - 1], outcome, k);
    }
  }

  /** When every item yields a record, nothing is skipped: one record per item, each at its item's place. */
  lemma {:induction false} KeptAll<E, T>(xs: seq<E>, outcome: E -> Option<T>)
    requires forall k :: 0 <= k < |xs| ==> outcome(xs[k]).Some?
    ensures |Kept(xs, outcome)| == |xs|
    ensures forall k :: 0 <= k < |xs| ==> Kept(xs, outcome)[k] == outcome(xs[k]).value
  {
    if xs != [] {
      var init := xs[..|xs| - 1];
      assert forall k :: 0 <= k < |init| ==> init[k] == xs[k];
      KeptAll(init, outcome);
    }
  }

  /** One more item adds its record, if any, at the end of what was saved before. */
  lemma KeptStep<E, T>(saved: seq<T>, xs: seq<E>, outcome: E -> Option<T>, i: nat)
    requires i < |xs|
    ensures saved + Kept(xs[..i + 1], outcome)
         == saved + Kept(xs[..i], outcome) + (if outcome(xs[i]).Some? then [outcome(xs[i]).value] else [])
  {
    assert xs[..i + 1][..i] == xs[..i];
  }

  /** The records of one more item: those before it, then its own, if any. */
  lemma KeptNext<E, T>(xs: seq<E>, outcome: E -> Option<T>, i: nat)
    requires i < |xs|
    ensures Kept(xs[..i + 1], outcome) == Kept(xs[..i], outcome) + (if outcome(xs[i]).Some? then [outcome(xs[i]).value] else [])
  {
    assert xs[..i + 1][..i] == xs[..i];
  }
}
