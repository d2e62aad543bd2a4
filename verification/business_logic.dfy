/** The pricing engine `compute_delivery_order_price`: small-order surcharge,
    first-match scan of the distance tiers, delivery fee and total price.
    The distance between venue and customer is an input (meters). */
module BusinessLogic {
  import opened Wrappers
  import opened DataModel
  import opened Rounding

  /** The scan moves past tier `t` at distance `d`: the tier is bounded and
      its bound does not exceed the distance. */
  predicate Passes(t: DistanceRange, d: real) {
    t.max.Some? && t.max.value as real <= d
  }

  /** Tier `t` admits distance `d`: the tier is bounded and `d` lies strictly
      below the bound (the bound is exclusive). */
  predicate Admits(t: DistanceRange, d: real) {
    t.max.Some? && d < t.max.value as real
  }

  /** Reference definition of the tier choice: tier `i` is chosen for `d` when
      it admits `d` and every earlier tier is bounded at or below `d`.
      No ordering of the list is assumed. */
  predicate Selects(ranges: seq<DistanceRange>, d: real, i: int) {
    && 0 <= i < |ranges|
    && Admits(ranges[i], d)
    && forall j :: 0 <= j < i ==> Passes(ranges[j], d)
  }

  /** The `for r in distance_ranges` loop: stop with no tier at the first
      unbounded tier, stop with tier `r` at the first `distance < r.max`.
      Returns the index of the chosen tier, or `None` (not deliverable). */
  function SelectTier(ranges: seq<DistanceRange>, d: real): (r: Option<nat>)
    ensures r.Some? ==> Selects(ranges, d, r.value)
    ensures r.None? ==> forall i :: !Selects(ranges, d, i)
  {
    if |ranges| == 0 then None
    else match ranges[0].max
      case None => None
      case Some(m) =>
        if d < m as real then Some(0)
        else
          var rest := SelectTier(ranges[1..], d);
          assert forall i :: Selects(ranges, d, i) ==> Selects(ranges[1..], d, i - 1) by {
            forall i | Selects(ranges, d, i)
              ensures Selects(ranges[1..], d, i - 1)
            {
              SelectsTail(ranges, d, i);
            }
          }
          match rest
          case None => None
          case Some(k) =>
            SelectsCons(ranges, d, k);
            Some(k + 1)
  }

  /** Dropping a passed first tier shifts the chosen index down by one. */
  lemma SelectsTail(ranges: seq<DistanceRange>, d: real, i: int)
    requires Selects(ranges, d, i)
    ensures i > 0 ==> Selects(ranges[1..], d, i - 1)
  {
  }

  /** Putting a passed tier in front shifts the chosen index up by one. */
  lemma SelectsCons(ranges: seq<DistanceRange>, d: real, k: int)
    requires |ranges| > 0 && Passes(ranges[0], d)
    requires Selects(ranges[1..], d, k)
    ensures Selects(ranges, d, k + 1)
  {
  }

  /** The scan chooses exactly the tier the reference definition names. */
  lemma SelectTierComplete(ranges: seq<DistanceRange>, d: real, i: int)
    requires Selects(ranges, d, i)
    ensures SelectTier(ranges, d) == Some(i)
  {
    SelectsUnique(ranges, d, i, SelectTier(ranges, d).value);
  }

  /** A scan that has passed the first `i` tiers and then meets an unbounded
      tier, or the end of the list, chooses nothing. */
  lemma ScanStops(ranges: seq<DistanceRange>, d: real, i: int)
    requires 0 <= i <= |ranges|
    requires forall j :: 0 <= j < i ==> Passes(ranges[j], d)
    requires i == |ranges| || ranges[i].max.None?
    ensures SelectTier(ranges, d) == None
  {
  }

  /** The same scan written as the source writes it, a loop with `break`. */
  method SelectTierLoop(ranges: seq<DistanceRange>, d: real) returns (r: Option<nat>)
    ensures r == SelectTier(ranges, d)
  {
    r := None;
    var i := 0;
    while i < |ranges|
      invariant 0 <= i <= |ranges|
      invariant forall j :: 0 <= j < i ==> Passes(ranges[j], d)
    {
      var t := ranges[i];
      if t.max.None? {
        break;
      }
      if d < t.max.value as real {
        r := Some(i);
        break;
      }
      i := i + 1;
    }
    if r.None? {
      ScanStops(ranges, d, i);
    } else {
      SelectTierComplete(ranges, d, r.value);
    }
  }

  /** At most one tier is ever chosen for a given distance. */
  lemma SelectsUnique(ranges: seq<DistanceRange>, d: real, i: int, j: int)
    requires Selects(ranges, d, i) && Selects(ranges, d, j)
    ensures i == j
  {
  }

  /** `max(order_minimum_no_surcharge - cart_value, 0)`: the least non-negative
      top-up that brings the cart up to the venue's minimum. */
  function SmallOrderSurcharge(minimum: Money, cart: Money): (s: Money)
    ensures s.amount >= 0
    ensures cart.amount + s.amount >= minimum.amount
    ensures s.amount == 0 <==> cart.amount >= minimum.amount
    ensures s.amount > 0 ==> cart.amount + s.amount == minimum.amount
  {
    Money(if minimum.amount - cart.amount > 0 then minimum.amount - cart.amount else 0)
  }

  /** `multiplier * distance / 10`: the distance-dependent part of a tier's fee
      before rounding, in cents: the division by 10 makes the multiplier, documented
      as cents per meter, effectively tenths of a cent per meter. */
  function ScaledDistance(multiplier: int, d: real): real {
    multiplier as real * d / 10.0
  }

  /** `fee` is what tier `t` charges at distance `d`: the venue's base price,
      the tier's constant, and `multiplier * d / 10` rounded half to even. */
  predicate FeeFor(venue: Venue, t: DistanceRange, d: real, fee: Money) {
    IsRoundHalfEven(ScaledDistance(t.multiplier, d), fee.amount - venue.basePrice.amount - t.constant.amount)
  }

  /** `base_price + rng.constant + Money(round(rng.multiplier * distance / 10))`. */
  function DeliveryFeeFor(venue: Venue, t: DistanceRange, d: real): (fee: Money)
    ensures FeeFor(venue, t, d, fee)
  {
    Plus(Plus(venue.basePrice, t.constant), Money(RoundHalfEven(ScaledDistance(t.multiplier, d))))
  }

  /** `compute_delivery_order_price`, with the great-arc distance from the venue
      to the customer given as `d`. `None` means the order is not deliverable. */
  function ComputeDeliveryOrderPrice(venue: Venue, cart: Money, d: real): (r: Option<DeliveryOrderPrice>)
    ensures r.None? <==> forall i :: !Selects(venue.distanceRanges, d, i)
    ensures |venue.distanceRanges| == 0 ==> r.None?
    ensures forall i :: Selects(venue.distanceRanges, d, i) ==>
      r.Some? && FeeFor(venue, venue.distanceRanges[i], d, r.value.delivery.fee)
    ensures r.Some? ==>
      && r.value.cartValue == cart
      && r.value.delivery.distance == d
      && r.value.smallOrderSurcharge == SmallOrderSurcharge(venue.orderMinimumNoSurcharge, cart)
      && r.value.totalPrice.amount
         == cart.amount + r.value.smallOrderSurcharge.amount + r.value.delivery.fee.amount
  {
    var surcharge := SmallOrderSurcharge(venue.orderMinimumNoSurcharge, cart);
    match SelectTier(venue.distanceRanges, d)
    case None => None
    case Some(i) =>
      var fee := DeliveryFeeFor(venue, venue.distanceRanges[i], d);
      assert forall k :: Selects(venue.distanceRanges, d, k) ==> k == i by {
        forall k | Selects(venue.distanceRanges, d, k)
          ensures k == i
        {
          SelectsUnique(venue.distanceRanges, d, k, i);
        }
      }
      Some(DeliveryOrderPrice(
        Plus(Plus(cart, surcharge), fee),
        surcharge,
        cart,
        DeliveryFee(fee, d)))
  }
}
