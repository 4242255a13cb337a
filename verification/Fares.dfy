/** Segment fares: clamping, snapping, rounding and pricing. */
module Fares {

  function Clamp01(v: real): real {
    if v < 0.0 then 0.0 else if v > 1.0 then 1.0 else v
  }

  /** Rounds to the nearest integer, halves away from zero. */
  function RoundMoney(v: real): int {
    if v >= 0.0 then (v + 0.5).Floor else -((-v + 0.5).Floor)
  }

  /** A pickup within the first 5% of the route is the start of the route. */
  function SnapPickup(raw: real): real {
    var p := Clamp01(raw);
    if p < 0.05 then 0.0 else p
  }

  /** A dropoff within the last 5% of the route is the end of the route. */
  function SnapDropoff(raw: real): real {
    var d := Clamp01(raw);
    if d > 0.95 then 1.0 else d
  }

  /** The share of the full-route price that a segment's length stands for. */
  function Prorated(price: real, pickup: real, dropoff: real): real {
    price * Clamp01(dropoff - pickup)
  }

  /** Fare of one seat on a segment of the route. */
  function SegmentFare(price: real, pickup: real, dropoff: real): int {
    RoundMoney(Prorated(price, pickup, dropoff))
  }

  function Times(v: real, seats: int): real {
    v * seats as real
  }

  function TotalFare(price: real, pickup: real, dropoff: real, seats: int): int {
    RoundMoney(Times(SegmentFare(price, pickup, dropoff) as real, seats))
  }
}
