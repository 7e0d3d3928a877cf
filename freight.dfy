/** The closed-form freight formulas shared by every transport modal:
    how many trips a cargo needs, what those trips cost, and how long
    one leg takes. Each modal's cost is one instance of ShipmentCost
    with its own per-trip fee; the C++ `float` arithmetic is taken as
    exact real arithmetic. */
module Freight {

  /** Helper: a positive factor may be cancelled from a strict inequality. */
  lemma CancelPositive(a: real, b: real, c: real)
    requires c > 0.0 && a * c > b * c
    ensures a > b
  {
    assert a * c - b * c == (a - b) * c;
  }

  /** `ceil(quantity / capacity)`: the number of trips needed to move
      `quantity` tonnes when one trip carries `capacity` tonnes. It is the
      least integer number of trips whose combined capacity covers the
      quantity (for a negative quantity this is C's `ceil` as well). */
  function Trips(quantity: real, capacity: real): (n: int)
    requires capacity > 0.0
    ensures n as real * capacity >= quantity
    ensures (n - 1) as real * capacity < quantity
  {
    var x := quantity / capacity;
    var f := x.Floor;
    var n := if f as real == x then f else f + 1;
    assert x * capacity == quantity;
    assert n as real >= x && (n - 1) as real < x;
    assert (n as real - x) * capacity >= 0.0;
    assert (x - (n - 1) as real) * capacity > 0.0;
    assert (x - (n - 1) as real) * capacity == quantity - (n - 1) as real * capacity;
    assert (n - 1) as real * capacity < quantity;
    n
  }

  /** The two bounds of Trips single it out: any `n` that covers the
      quantity while `n - 1` does not is the trip count. */
  lemma {:induction false} TripsUnique(quantity: real, capacity: real, n: int)
    requires capacity > 0.0
    requires n as real * capacity >= quantity > (n - 1) as real * capacity
    ensures Trips(quantity, capacity) == n
  {
    var m := Trips(quantity, capacity);
    CancelPositive(n as real, (m - 1) as real, capacity);
    CancelPositive(m as real, (n - 1) as real, capacity);
  }

  /** More cargo never needs fewer trips. */
  lemma {:induction false} TripsMonotone(q1: real, q2: real, capacity: real)
    requires capacity > 0.0 && q1 <= q2
    ensures Trips(q1, capacity) <= Trips(q2, capacity)
  {
    var m, n := Trips(q1, capacity), Trips(q2, capacity);
    CancelPositive(n as real, (m - 1) as real, capacity);
  }

  /** An empty cargo (quantity 0) needs 0 trips; a non-negative cargo needs
      a non-negative number of trips; a cargo that fits in one vehicle needs
      exactly one. */
  lemma {:induction false} TripsOfSmallCargo(quantity: real, capacity: real)
    requires capacity > 0.0
    ensures quantity >= 0.0 ==> Trips(quantity, capacity) >= 0
    ensures quantity == 0.0 ==> Trips(quantity, capacity) == 0
    ensures 0.0 < quantity <= capacity ==> Trips(quantity, capacity) == 1
  {
    var n := Trips(quantity, capacity);
    if quantity >= 0.0 {
      CancelPositive(n as real, -1.0, capacity);
    }
    if quantity == 0.0 {
      TripsUnique(quantity, capacity, 0);
    }
    if 0.0 < quantity <= capacity {
      TripsUnique(quantity, capacity, 1);
    }
  }

  /** The charge of one trip: the distance priced per km plus the fee
      paid on every dispatch. */
  function PerTrip(distance: int, price: real, fee: real): real
  {
    distance as real * price + fee
  }

  /** `ceil(quantity / capacity) * (distance * price + fee)`: every trip
      pays the full per-trip charge, fee included. With non-negative
      inputs the cost is never negative. */
  function ShipmentCost(quantity: real, capacity: real, distance: int, price: real, fee: real): (c: real)
    requires capacity > 0.0
    ensures quantity >= 0.0 && distance >= 0 && price >= 0.0 && fee >= 0.0 ==> c >= 0.0
  {
    TripsOfSmallCargo(quantity, capacity);
    Trips(quantity, capacity) as real * PerTrip(distance, price, fee)
  }

  /** A cargo that needs exactly `k` trips costs `k` per-trip charges. */
  lemma {:induction false} ShipmentCostOfTrips(quantity: real, capacity: real, distance: int, price: real, fee: real, k: int)
    requires capacity > 0.0
    requires (k - 1) as real * capacity < quantity <= k as real * capacity
    ensures ShipmentCost(quantity, capacity, distance, price, fee) == k as real * PerTrip(distance, price, fee)
  {
    TripsUnique(quantity, capacity, k);
  }

  /** Cost is non-decreasing in the quantity shipped, as long as a trip
      does not earn money (a non-negative per-trip charge). */
  lemma {:induction false} ShipmentCostMonotone(q1: real, q2: real, capacity: real, distance: int, price: real, fee: real)
    requires capacity > 0.0 && q1 <= q2
    requires PerTrip(distance, price, fee) >= 0.0
    ensures ShipmentCost(q1, capacity, distance, price, fee) <= ShipmentCost(q2, capacity, distance, price, fee)
  {
    TripsMonotone(q1, q2, capacity);
    var t1, t2 := Trips(q1, capacity), Trips(q2, capacity);
    assert (t2 - t1) as real * PerTrip(distance, price, fee) >= 0.0;
  }

  /** The fee is charged once per trip, not once per shipment: the cost
      with a fee exceeds the cost without it by trips times the fee. */
  lemma {:induction false} FeeChargedPerTrip(quantity: real, capacity: real, distance: int, price: real, fee: real)
    requires capacity > 0.0
    ensures ShipmentCost(quantity, capacity, distance, price, fee)
         == ShipmentCost(quantity, capacity, distance, price, 0.0) + Trips(quantity, capacity) as real * fee
  {
    var t := Trips(quantity, capacity) as real;
    assert t * (distance as real * price + fee) == t * (distance as real * price) + t * fee;
  }

  /** `distance / speed * 60`: the minutes a leg of `distance` km takes at
      `speed` km/h, i.e. the time that, at that speed, covers the distance. */
  function TravelTime(distance: int, speed: real): (minutes: real)
    requires speed > 0.0
    ensures minutes * speed == 60.0 * distance as real
    ensures distance >= 0 ==> minutes >= 0.0
  {
    distance as real / speed * 60.0
  }
}
