# DOPC pricing engine in Dafny

A model of the delivery-order price calculator of DOPCService: given a venue's
configuration, a cart value and the distance from the venue to the customer,
`compute_delivery_order_price` either says the order is not deliverable or
returns the price breakdown. The breakdown has four parts:

- the small-order surcharge, `max(order_minimum_no_surcharge - cart_value, 0)`;
- the delivery fee, which is the base price, plus the chosen tier's constant,
  plus `round(multiplier * distance / 10)`;
- the total, which is the cart value plus the surcharge plus the fee;
- the cart value and the distance, echoed back.

The tier is chosen by scanning `distance_ranges` in list order:

- the first tier whose bound is strictly greater than the distance is chosen;
- a tier without a bound (`max = None`) ends the scan, and nothing is chosen.

So an unbounded tier is not a catch-all. It marks where delivery stops, as the
field's doc comment and the "user too far" test say. The model follows the code
here. It also keeps the distance unrounded: the test expects 5961.3 m.

Modules:

- `Wrappers` (`wrappers.dfy`): `Option` and `Result`.
- `DataModel` (`data_model.dfy`): `Money` and its addition, `GeoLocation`,
  `DistanceRange` and its validating constructor, `DeliveryFee`,
  `DeliveryOrderPrice`, `Venue`.
- `Rounding` (`rounding.dfy`): Python's `round`, which rounds half to even,
  written as `RoundHalfEven` on exact reals. It is characterised by the
  predicate `IsRoundHalfEven` ("within one half, and even on a tie").
- `BusinessLogic` (`business_logic.dfy`): the tier scan `SelectTier`, written
  both recursively and as the source's loop with `break`. It is checked against
  `Selects`, a reference definition that does not depend on how the scan runs.
  The module also holds the surcharge, the fee and `ComputeDeliveryOrderPrice`.
- `PricingProperties` (`pricing_properties.dfy`): properties over all venues,
  carts and distances.
- `BusinessLogicTests` (`business_logic_tests.dfy`): the three `_test_*`
  scenarios of `business_logic.py` as lemmas.

The distance is a parameter of type `real` (meters). Money is an unbounded
integer number of cents, and Python integers do not overflow either.

## Model

| member | source | states |
|---|---|---|
| DataModel.Plus | src/dopcservice/data_model.py:18-20 | the result's amount is the sum of the operands' amounts; this is the operation itself, and the three laws below carry its content |
| DataModel.PlusZeroIdentity | src/dopcservice/data_model.py:12-20 | the default `Money()` (amount 0) is a left and right identity for `+` |
| DataModel.PlusCommutative | src/dopcservice/data_model.py:18-20 | money addition is commutative |
| DataModel.PlusAssociative | src/dopcservice/data_model.py:18-20 | money addition is associative, so `base_price + constant + fee` is unambiguous |
| DataModel.NewDistanceRange | src/dopcservice/data_model.py:57-59 | construction succeeds exactly when the bound is absent or positive; on success the fields are those given; a present bound `<= 0` is rejected with that bound as the error |
| DataModel.NewDistanceRangeAsWritten | src/dopcservice/data_model.py:57-59 | the validator as written succeeds only for a present positive bound, because it also compares `None <= 0` |
| DataModel.AsWrittenRejectsUnboundedTier | src/dopcservice/data_model.py:57-59 | the as-written validator refuses every unbounded tier and the corrected one accepts it; both agree on every bounded tier |
| Rounding.RoundHalfEven | src/dopcservice/business_logic.py:31 | the result is within one half of the input, and even when exactly one half away |
| Rounding.RoundHalfEvenUnique | src/dopcservice/business_logic.py:31 | any integer within one half of `x` that is even on a tie equals `RoundHalfEven(x)` |
| Rounding.RoundHalfEvenNearest | src/dopcservice/business_logic.py:31 | away from a tie, the rounding is the integer strictly within one half |
| Rounding.RoundHalfEvenOfInt | src/dopcservice/business_logic.py:31 | integers round to themselves |
| Rounding.RoundHalfEvenTies | src/dopcservice/business_logic.py:31 | ties go to the even neighbour: 0.5 to 0, 1.5 to 2, 2.5 to 2, -1.5 to -2 |
| Rounding.RoundHalfEvenMonotone | src/dopcservice/business_logic.py:31 | rounding preserves order |
| BusinessLogic.SelectTier | src/dopcservice/business_logic.py:21-29 | a chosen tier admits the distance (bounded, distance below the bound), and every earlier tier is bounded at or below the distance; when nothing is chosen, no tier satisfies that |
| BusinessLogic.SelectTierLoop | src/dopcservice/business_logic.py:21-27 | the `for ... break` loop chooses the same tier as the recursive scan |
| BusinessLogic.SelectsUnique | src/dopcservice/business_logic.py:22-27 | at most one tier meets the choice condition for a given distance |
| BusinessLogic.SelectTierComplete | src/dopcservice/business_logic.py:22-27 | whenever a tier meets the choice condition, the scan returns exactly that tier |
| BusinessLogic.ScanStops | src/dopcservice/business_logic.py:22-29 | having passed the first `i` tiers, reaching an unbounded tier or the end of the list yields no tier |
| BusinessLogic.SmallOrderSurcharge | src/dopcservice/business_logic.py:19 | the surcharge is the least non-negative top-up that brings the cart to the minimum: never negative, zero exactly when the cart reaches the minimum, otherwise cart plus surcharge equals the minimum |
| BusinessLogic.DeliveryFeeFor | src/dopcservice/business_logic.py:31 | the fee minus base price and tier constant is the half-to-even rounding of `multiplier * distance / 10` |
| BusinessLogic.ComputeDeliveryOrderPrice | src/dopcservice/business_logic.py:4-39 | not deliverable exactly when no tier meets the choice condition, in particular for an empty tier list; otherwise the fee is the chosen tier's fee, the surcharge is the small-order surcharge, the total is cart + surcharge + fee, and cart value and distance echo the inputs |
| PricingProperties.ExclusiveBound | src/dopcservice/business_logic.py:25 | a distance exactly equal to a tier's bound never chooses that tier |
| PricingProperties.UnboundedTierBlocks | src/dopcservice/business_logic.py:23-29 | an unbounded tier reached before any tier admits the distance makes the order undeliverable |
| PricingProperties.BeyondEveryBoundNotDeliverable | src/dopcservice/business_logic.py:22-29 | if every tier is bounded at or below the distance, nothing is chosen |
| PricingProperties.DeliverableDownwardClosed | src/dopcservice/business_logic.py:22-29 | if distance `d` is deliverable, every `d' <= d` is too, with a tier no later in the list; no ordering of the list is assumed |
| PricingProperties.PriceDownwardClosed | src/dopcservice/business_logic.py:21-29 | a deliverable order stays deliverable when the customer is closer |
| PricingProperties.SurchargeIndependentOfDistance | src/dopcservice/business_logic.py:19 | two deliverable quotes for the same venue and cart carry the same surcharge, whatever the distances |
| PricingProperties.FeeOfChosenTier | src/dopcservice/business_logic.py:31 | the quoted fee is what the chosen tier charges at that distance |
| PricingProperties.FeeMonotone | src/dopcservice/business_logic.py:22-31 | under the extra assumption (not stated by the source) that tier constants and multipliers never decrease along the list and multipliers are non-negative, a shorter distance never costs a larger fee |
| PricingProperties.SortedBoundsFeeNotMonotone | src/dopcservice/business_logic.py:12-31 | a venue sorted by bound whose nearer tier has the larger constant charges 100 at 400 m and 0 at 600 m, so sorting alone does not give a monotone fee |
| PricingProperties.TierFeeMonotone | src/dopcservice/business_logic.py:31 | a tier with smaller constant and multiplier, at a shorter distance, charges no more |
| BusinessLogicTests.TestTiersConstructible | src/dopcservice/business_logic.py:65-70 | every tier of the test venue passes the corrected validator; the unbounded tier fails the validator as written |
| BusinessLogicTests.EmptyDistanceRangeNotDeliverable | src/dopcservice/business_logic.py:42-53 | the venue with no tiers is not deliverable for any cart and distance |
| BusinessLogicTests.BusinessLogicScenario | src/dopcservice/business_logic.py:57-79 | cart 1000 at 5961.3 m: total 2882, surcharge 0, fee 1882, distance 5961.3 |
| BusinessLogicTests.TestVenueDeliverableIff | src/dopcservice/business_logic.py:60-71 | the four-tier test venue is deliverable exactly below 10000 m |
| BusinessLogicTests.UserTooFar | src/dopcservice/business_logic.py:82-98 | at 10000 m or more the four-tier venue is not deliverable |

## Left out

- `GeoLocation.get_great_arc_distance` (src/dopcservice/data_model.py:30-42): floating-point haversine trigonometry. The distance is a parameter of the engine instead.
- The call site `venue.location.get_great_circle_distance` (src/dopcservice/business_logic.py:20) names a method that does not exist; the defined one is `get_great_arc_distance`. As written, Python would raise `AttributeError` there. The model takes the distance as given, as intended.
- Floating point: distances and `multiplier * distance / 10` are exact reals. Binary rounding error in the Python float product is not modelled; ties are decided on the exact value.
- `Money.__add__` returning `NotImplemented` for a non-`Money` operand: Dafny's types rule that case out.
- `UserOrder` (src/dopcservice/data_model.py:70-74): never used by the engine.
- The expectations that tiers are sorted by bound and that all money shares one currency (src/dopcservice/business_logic.py:11-13) are never checked by the code, and no property relies on them.
- FeeMonotone: assumes non-decreasing tier constants and non-negative, non-decreasing multipliers along the list. The source never states this, and sorting by bound alone does not make the fee monotone (`SortedBoundsFeeNotMonotone` gives a sorted venue where 400 m costs 100 and 600 m costs 0).
- `GeoLocation` and `Venue` carry no validation in the source, and none is added.
- Idempotence of the pricing engine is not stated as a lemma: every member is a pure Dafny function, so it holds by construction.
- src/dopcservice/main.py (HTTP fetch and JSON glue), src/dopcservice/venue_provider.py (an interface with no logic) and noxfile.py (build tooling) are not part of this model.

## Findings

| source | as written | input that shows it | evidently intended | confidence | as-written member | corrected member |
|---|---|---|---|---|---|---|
| src/dopcservice/data_model.py:57-59 | `if self.max <= 0` runs for `max=None` too, and ordering `None` against an int raises `TypeError` in Python 3 | `DistanceRange(max=None, constant=Money(0), multiplier=0)`, the fourth tier of the tests at src/dopcservice/business_logic.py:69 | check the bound only when it is present, since `None` is documented as a valid bound | high; not executed | DataModel.NewDistanceRangeAsWritten (AsWrittenRejectsUnboundedTier) | DataModel.NewDistanceRange (TestTiersConstructible) |
