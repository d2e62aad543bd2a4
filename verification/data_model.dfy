/** The value types the pricing engine works on: money, locations, distance
    tiers, venues and the price breakdown it returns. All are immutable. */
module DataModel {
  import opened Wrappers

  /** An amount in the lowest denomination of the local currency (cents, öre, yen).
      One currency throughout; amounts are unbounded integers, as in Python. */
  datatype Money = Money(amount: int)

  /** `Money()`: the default amount is zero. */
  const ZeroMoney: Money := Money(0)

  /** `Money.__add__`: money plus money is money. */
  function Plus(a: Money, b: Money): (r: Money)
    ensures r.amount == a.amount + b.amount
  {
    Money(a.amount + b.amount)
  }

  lemma PlusZeroIdentity(a: Money)
    ensures Plus(a, ZeroMoney) == a
    ensures Plus(ZeroMoney, a) == a
  {
  }

  lemma PlusCommutative(a: Money, b: Money)
    ensures Plus(a, b) == Plus(b, a)
  {
  }

  lemma PlusAssociative(a: Money, b: Money, c: Money)
    ensures Plus(Plus(a, b), c) == Plus(a, Plus(b, c))
  {
  }

  /** A point given by latitude and longitude in degrees. The source does not
      validate the ranges and the great-arc distance is not part of this model. */
  datatype GeoLocation = GeoLocation(lat: real, lon: real)

  /** One tier of the distance-based pricing schedule.
      `max` is the exclusive upper bound in meters; `None` means that no delivery
      is offered from this tier on. The source documents `multiplier` in cents
      per meter, but the fee divides `multiplier * distance` by 10, so its
      effective unit is a tenth of a cent per meter. */
  datatype DistanceRange = DistanceRange(max: Option<int>, constant: Money, multiplier: int)

  /** Errors the value constructors raise. */
  datatype ConfigError =
    | NonPositiveMax(max: int)   // `ValueError("max cannot be zero")`
    | UnorderableNone            // `TypeError` from comparing `None <= 0`

  /** The bound a well-formed tier may carry: absent, or strictly positive. */
  predicate ValidMax(max: Option<int>) {
    max.None? || max.value > 0
  }

  /** `DistanceRange.__post_init__` with the bound check applied only when a
      bound is present, which is what the unbounded tiers of the tests need. */
  function NewDistanceRange(max: Option<int>, constant: Money, multiplier: int): (r: Result<DistanceRange, ConfigError>)
    ensures r.Success? <==> ValidMax(max)
    ensures r.Success? ==> r.value.max == max && r.value.constant == constant && r.value.multiplier == multiplier
    ensures r.Failure? ==> max.Some? && r.error == NonPositiveMax(max.value)
  {
    match max
    case Some(m) => if m <= 0 then Failure(NonPositiveMax(m)) else Success(DistanceRange(max, constant, multiplier))
    case None => Success(DistanceRange(max, constant, multiplier))
  }

  /** `DistanceRange.__post_init__` exactly as written: the guard `self.max <= 0`
      is evaluated for an absent bound as well, and Python 3 raises `TypeError`
      when ordering `None` against an int. */
  function NewDistanceRangeAsWritten(max: Option<int>, constant: Money, multiplier: int): (r: Result<DistanceRange, ConfigError>)
    ensures r.Success? <==> max.Some? && max.value > 0
    ensures r.Success? ==> r.value == DistanceRange(max, constant, multiplier)
  {
    match max
    case None => Failure(UnorderableNone)
    case Some(m) => if m <= 0 then Failure(NonPositiveMax(m)) else Success(DistanceRange(max, constant, multiplier))
  }

  /** The as-written validator rejects every unbounded tier, so the tier
      `DistanceRange(max=None, constant=Money(0), multiplier=0)` built by the
      pricing tests cannot be constructed; the corrected validator accepts it
      and agrees with the as-written one on every bounded tier. */
  lemma AsWrittenRejectsUnboundedTier(constant: Money, multiplier: int)
    ensures NewDistanceRangeAsWritten(None, constant, multiplier) == Failure(UnorderableNone)
    ensures NewDistanceRange(None, constant, multiplier) == Success(DistanceRange(None, constant, multiplier))
    ensures forall m: int :: NewDistanceRangeAsWritten(Some(m), constant, multiplier) == NewDistanceRange(Some(m), constant, multiplier)
  {
  }

  /** The fee and the distance that produced it. */
  datatype DeliveryFee = DeliveryFee(fee: Money, distance: real)

  /** The full price breakdown of a deliverable order. */
  datatype DeliveryOrderPrice = DeliveryOrderPrice(
    totalPrice: Money,
    smallOrderSurcharge: Money,
    cartValue: Money,
    delivery: DeliveryFee)

  /** A venue's configuration; the tier list is taken in the given order. */
  datatype Venue = Venue(
    id: string,
    location: GeoLocation,
    orderMinimumNoSurcharge: Money,
    basePrice: Money,
    distanceRanges: seq<DistanceRange>)
}
