/** Properties of the tier scan and of the price it produces, stated over
    every venue, cart and distance. None of them assumes the tier list is
    sorted unless it says so. */
module PricingProperties {
  import opened Wrappers
  import opened DataModel
  import opened Rounding
  import opened BusinessLogic

  /** The bound is exclusive: a distance exactly at a tier's `max` never
      chooses that tier. */
  lemma ExclusiveBound(ranges: seq<DistanceRange>, i: int, m: int)
    requires 0 <= i < |ranges| && ranges[i].max == Some(m)
    ensures SelectTier(ranges, m as real) != Some(i)
  {
  }

  /** Reaching an unbounded tier before any tier has admitted the distance
      ends the scan with nothing chosen, although the tier is there. */
  lemma UnboundedTierBlocks(ranges: seq<DistanceRange>, d: real, k: int)
    requires 0 <= k < |ranges| && ranges[k].max.None?
    requires forall j :: 0 <= j < k ==> !Admits(ranges[j], d)
    ensures SelectTier(ranges, d) == None
  {
  }

  /** With only bounded tiers, a distance at or beyond every bound is not deliverable. */
  lemma BeyondEveryBoundNotDeliverable(ranges: seq<DistanceRange>, d: real)
    requires forall i :: 0 <= i < |ranges| ==> Passes(ranges[i], d)
    ensures SelectTier(ranges, d) == None
  {
  }

  /** Deliverability is downward closed, and a shorter distance never chooses a
      later tier. This follows from the first-match scan alone, for any order
      of the tiers. */
  lemma {:induction false} DeliverableDownwardClosed(ranges: seq<DistanceRange>, d: real, d': real)
    requires d' <= d
    requires SelectTier(ranges, d).Some?
    ensures SelectTier(ranges, d').Some?
    ensures SelectTier(ranges, d').value <= SelectTier(ranges, d).value
  {
    var m := ranges[0].max.value;
    if d' < m as real {
      assert SelectTier(ranges, d') == Some(0);
    } else {
      assert !(d < m as real);
      assert SelectTier(ranges, d) == Some(SelectTier(ranges[1..], d).value + 1);
      DeliverableDownwardClosed(ranges[1..], d, d');
      assert SelectTier(ranges, d') == Some(SelectTier(ranges[1..], d').value + 1);
    }
  }

  /** The same for the engine: if an order is deliverable at `d`, it is at every shorter distance. */
  lemma PriceDownwardClosed(venue: Venue, cart: Money, d: real, d': real)
    requires d' <= d
    requires ComputeDeliveryOrderPrice(venue, cart, d).Some?
    ensures ComputeDeliveryOrderPrice(venue, cart, d').Some?
  {
    DeliverableDownwardClosed(venue.distanceRanges, d, d');
  }

  /** The small-order surcharge depends on the cart and the venue's minimum only,
      never on the distance. */
  lemma SurchargeIndependentOfDistance(venue: Venue, cart: Money, d1: real, d2: real)
    ensures ComputeDeliveryOrderPrice(venue, cart, d1).Some? && ComputeDeliveryOrderPrice(venue, cart, d2).Some? ==>
      ComputeDeliveryOrderPrice(venue, cart, d1).value.smallOrderSurcharge
        == ComputeDeliveryOrderPrice(venue, cart, d2).value.smallOrderSurcharge
  {
  }

  /** Tiers whose constants and multipliers never decrease along the list and
      whose multipliers are non-negative. The source states no such
      expectation (it only expects the tiers sorted by bound), and the engine
      never checks it; it is the extra assumption under which the fee grows
      with distance. */
  predicate NonDecreasingTiers(ranges: seq<DistanceRange>) {
    forall i, j :: 0 <= i <= j < |ranges| ==>
      && ranges[i].constant.amount <= ranges[j].constant.amount
      && 0 <= ranges[i].multiplier <= ranges[j].multiplier
  }

  /** Tiers sorted by bound are not enough for a monotone fee: with a larger
      constant on the nearer tier, 400 m costs 100 and 600 m costs 0. */
  lemma SortedBoundsFeeNotMonotone()
    ensures ComputeDeliveryOrderPrice(SortedVenue, Money(0), 400.0).Some?
    ensures ComputeDeliveryOrderPrice(SortedVenue, Money(0), 600.0).Some?
    ensures ComputeDeliveryOrderPrice(SortedVenue, Money(0), 400.0).value.delivery.fee == Money(100)
    ensures ComputeDeliveryOrderPrice(SortedVenue, Money(0), 600.0).value.delivery.fee == Money(0)
  {
    var ranges := SortedVenue.distanceRanges;
    assert Selects(ranges, 400.0, 0);
    assert Selects(ranges, 600.0, 1);
    FeeOfChosenTier(SortedVenue, Money(0), 400.0, 0);
    FeeOfChosenTier(SortedVenue, Money(0), 600.0, 1);
    DeliveryFeeParts(SortedVenue, ranges[0], 400.0);
    DeliveryFeeParts(SortedVenue, ranges[1], 600.0);
    RoundHalfEvenOfInt(0);
  }

  /** Two tiers sorted by bound, the nearer one with the larger constant. */
  const SortedVenue: Venue := Venue("sorted", GeoLocation(0.0, 0.0), Money(0), Money(0),
    [DistanceRange(Some(500), Money(100), 0), DistanceRange(Some(1000), Money(0), 0)])

  /** The fee of an order is what the chosen tier charges at that distance. */
  lemma FeeOfChosenTier(venue: Venue, cart: Money, d: real, i: int)
    requires Selects(venue.distanceRanges, d, i)
    ensures ComputeDeliveryOrderPrice(venue, cart, d).Some?
    ensures ComputeDeliveryOrderPrice(venue, cart, d).value.delivery.fee
         == DeliveryFeeFor(venue, venue.distanceRanges[i], d)
  {
    SelectTierComplete(venue.distanceRanges, d, i);
  }

  /** Under that arrangement, moving the customer closer never raises the delivery fee. */
  lemma FeeMonotone(venue: Venue, cart: Money, d: real, d': real)
    requires NonDecreasingTiers(venue.distanceRanges)
    requires 0.0 <= d' <= d
    requires ComputeDeliveryOrderPrice(venue, cart, d).Some?
    ensures ComputeDeliveryOrderPrice(venue, cart, d').Some?
    ensures ComputeDeliveryOrderPrice(venue, cart, d').value.delivery.fee.amount
         <= ComputeDeliveryOrderPrice(venue, cart, d).value.delivery.fee.amount
  {
    var ranges := venue.distanceRanges;
    DeliverableDownwardClosed(ranges, d, d');
    var i := SelectTier(ranges, d).value;
    var i' := SelectTier(ranges, d').value;
    assert ranges[i'].constant.amount <= ranges[i].constant.amount
      && 0 <= ranges[i'].multiplier <= ranges[i].multiplier by {
      assert 0 <= i' <= i < |ranges|;
    }
    TierFeeMonotone(venue, ranges[i'], ranges[i], d', d);
    FeeOfChosenTier(venue, cart, d, i);
    FeeOfChosenTier(venue, cart, d', i');
  }

  /** A tier with no larger constant and multiplier, at no larger distance,
      charges no larger fee. */
  lemma TierFeeMonotone(venue: Venue, t': DistanceRange, t: DistanceRange, d': real, d: real)
    requires t'.constant.amount <= t.constant.amount
    requires 0 <= t'.multiplier <= t.multiplier && 0.0 <= d' <= d
    ensures DeliveryFeeFor(venue, t', d').amount <= DeliveryFeeFor(venue, t, d).amount
  {
    var x', x := ScaledDistance(t'.multiplier, d'), ScaledDistance(t.multiplier, d);
    ScaledDistanceMonotone(t'.multiplier, t.multiplier, d', d);
    RoundHalfEvenMonotone(x', x);
    DeliveryFeeParts(venue, t, d);
    DeliveryFeeParts(venue, t', d');
  }

  lemma DeliveryFeeParts(venue: Venue, t: DistanceRange, d: real)
    ensures DeliveryFeeFor(venue, t, d).amount
         == venue.basePrice.amount + t.constant.amount + RoundHalfEven(ScaledDistance(t.multiplier, d))
  {
  }

  /** `multiplier * distance / 10` grows with both factors when they are non-negative. */
  lemma ScaledDistanceMonotone(m': int, m: int, d': real, d: real)
    requires 0 <= m' <= m && 0.0 <= d' <= d
    ensures ScaledDistance(m', d') <= ScaledDistance(m, d)
  {
    assert m' as real * d' <= m as real * d';
    assert m as real * d' <= m as real * d;
  }
}
