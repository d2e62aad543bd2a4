/** The pricing scenarios of the repository's own tests, for the Helsinki venue
    they all use, stated for the distance the scenario implies. */
module BusinessLogicTests {
  import opened Wrappers
  import opened DataModel
  import opened Rounding
  import opened BusinessLogic

  /** The four tiers of the test venue: 0-500 m, 500-1000 m, 1000-10000 m, and
      an unbounded last tier. */
  const TestTiers: seq<DistanceRange> := [
    DistanceRange(Some(500), Money(0), 1),
    DistanceRange(Some(1000), Money(100), 1),
    DistanceRange(Some(10000), Money(500), 2),
    DistanceRange(None, Money(0), 0)
  ]

  /** Every test tier passes the corrected validator; the unbounded one is
      exactly the tier the validator as written refuses. */
  lemma TestTiersConstructible()
    ensures forall t :: t in TestTiers ==> NewDistanceRange(t.max, t.constant, t.multiplier) == Success(t)
    ensures NewDistanceRangeAsWritten(TestTiers[3].max, TestTiers[3].constant, TestTiers[3].multiplier).Failure?
  {
  }

  function TestVenue(ranges: seq<DistanceRange>): Venue {
    Venue("pho-viet-helsinki", GeoLocation(60.16771, 24.93664), Money(1000), Money(190), ranges)
  }

  /** An empty tier list: never deliverable, whatever the cart and distance. */
  lemma EmptyDistanceRangeNotDeliverable(cart: Money, d: real)
    ensures ComputeDeliveryOrderPrice(TestVenue([]), cart, d) == None
  {
  }

  /** A cart of 1000 at 5961.3 m: the third tier, fee 190 + 500 + round(1192.26) = 1882,
      no surcharge, total 2882. */
  lemma BusinessLogicScenario()
    ensures ComputeDeliveryOrderPrice(TestVenue(TestTiers), Money(1000), 5961.3)
         == Some(DeliveryOrderPrice(Money(2882), Money(0), Money(1000), DeliveryFee(Money(1882), 5961.3)))
  {
  }

  /** The test venue delivers exactly below 10 km: the unbounded fourth tier
      ends the scan instead of catching the longer distances. */
  lemma TestVenueDeliverableIff(cart: Money, d: real)
    ensures ComputeDeliveryOrderPrice(TestVenue(TestTiers), cart, d).Some? <==> d < 10000.0
  {
    if d < 500.0 {
      assert Selects(TestTiers, d, 0);
    } else if d < 1000.0 {
      assert Selects(TestTiers, d, 1);
    } else if d < 10000.0 {
      assert Selects(TestTiers, d, 2);
    }
  }

  /** The customer at (82, 80) is thousands of kilometres away: not deliverable. */
  lemma UserTooFar(cart: Money, d: real)
    requires d >= 10000.0
    ensures ComputeDeliveryOrderPrice(TestVenue(TestTiers), cart, d) == None
  {
    TestVenueDeliverableIff(cart, d);
  }
}
