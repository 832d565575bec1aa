/** Sequences of full-size legs: who holds what after BUYs and SELLs that must alternate. */
module Alternation {
  import opened Common

  datatype Leg = Leg(side: Side, quantity: real)

  /** What a sequence of legs leaves behind. Broken: a BUY on top of a holding, a
      SELL without one, or a SELL of another quantity. */
  datatype Exposure = Flat | Long(quantity: real) | Broken

  function After(e: Exposure, leg: Leg): Exposure {
    if e.Flat? && leg.side == BUY && leg.quantity > 0.0 then Long(leg.quantity)
    else if e.Long? && leg.side == SELL && leg.quantity == e.quantity then Flat
    else Broken
  }

  function ExposureOf(legs: seq<Leg>): Exposure {
    if legs == [] then Flat else After(ExposureOf(legs[..|legs| - 1]), legs[|legs| - 1])
  }

  function Signed(leg: Leg): real {
    if leg.side == BUY then leg.quantity else -leg.quantity
  }

  /** Net base quantity: BUY minus SELL. */
  function Net(legs: seq<Leg>): real {
    if legs == [] then 0.0 else Net(legs[..|legs| - 1]) + Signed(legs[|legs| - 1])
  }

  function Held(e: Exposure): real {
    if e.Long? then e.quantity else 0.0
  }

  lemma ExposureSnoc(legs: seq<Leg>, leg: Leg)
    ensures ExposureOf(legs + [leg]) == After(ExposureOf(legs), leg)
    ensures Net(legs + [leg]) == Net(legs) + Signed(leg)
  {
    assert (legs + [leg])[..|legs|] == legs;
  }

  /** Strict alternation, spelled out by index: BUY, SELL, BUY, ... with every
      SELL closing exactly the BUY before it. */
  ghost predicate Alternates(legs: seq<Leg>) {
    forall i :: 0 <= i < |legs| ==> AlternatesAt(legs, i)
  }

  ghost predicate AlternatesAt(legs: seq<Leg>, i: nat)
    requires i < |legs|
  {
    && legs[i].quantity > 0.0
    && legs[i].side == (if i % 2 == 0 then BUY else SELL)
    && (i % 2 == 1 ==> legs[i].quantity == legs[i - 1].quantity)
  }

  /** The fold is not Broken exactly when the legs alternate, and then the net
      quantity is what is held: nothing, or the last BUY. */
  lemma {:induction false} UnbrokenMeansAlternating(legs: seq<Leg>)
    ensures ExposureOf(legs).Broken? <==> !Alternates(legs)
    ensures Alternates(legs) ==> Net(legs) == Held(ExposureOf(legs))
    ensures Alternates(legs) ==>
              ExposureOf(legs) == if |legs| % 2 == 0 then Flat else Long(legs[|legs| - 1].quantity)
  {
    if legs != [] {
      var front := legs[..|legs| - 1];
      UnbrokenMeansAlternating(front);
      var last := |legs| - 1;
      forall i | 0 <= i < last
        ensures AlternatesAt(front, i) == AlternatesAt(legs, i)
      {
      }
      if Alternates(legs) {
        forall i | 0 <= i < last ensures AlternatesAt(front, i) {
          assert AlternatesAt(legs, i);
        }
        assert AlternatesAt(legs, last);
      } else if Alternates(front) {
        forall i | 0 <= i < last ensures AlternatesAt(legs, i) {
          assert AlternatesAt(front, i);
        }
        assert !AlternatesAt(legs, last);
      } else {
        var i :| 0 <= i < |front| && !AlternatesAt(front, i);
        assert !AlternatesAt(legs, i);
      }
    }
  }
}
