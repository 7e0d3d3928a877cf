# Freight transport modals in Dafny

This project models the freight "modal" hierarchy of `src/modal.cpp`. A
modal is one transport leg between two localities. It carries a type label
(road, rail, waterway or air), a price per km, a capacity in tonnes per trip,
a speed in km/h and an integer distance in km. There is a base class `Modal`
and four derived classes:

- `Ferroviario` (rail) adds no surcharge.
- `Rodoviario` (road) adds a toll flag and a toll value charged on every trip.
- `Aquaviario` (waterway) adds a terminal fee charged on every trip.
- `Aereo` (air) adds a terminal fee charged on every trip.

Each derived class computes the cost of a cargo as
`ceil(quantity / capacity) * (distance * price + fee)`. Every class computes
the travel time as `distance / speed * 60`.

Layout:

- `freight.dfy`, module `Freight`: the closed-form formulas, shared by all
  four cost functions.
  - `Trips` is the ceiling: the least whole number of trips that covers the
    cargo.
  - `ShipmentCost` is what those trips cost.
  - `TravelTime` is the leg time in minutes.
  - Lemmas cover uniqueness of the trip count, monotonicity, non-negativity
    and the per-trip fee.
- `modal.dfy`, module `Modals`: the class `Modal`.
  - The constant `variant` records which C++ class an object is.
  - The constant `kind` is the `_tipo_modal` label. There is no setter for
    it, so it is a `const`.
  - The mutable fields are the ones the C++ setters assign.
  - A constructor that never throws is a Dafny constructor. A constructor
    that may throw `std::invalid_argument` is a static method returning a
    `Result`; a failure creates no object.
  - Each setter returns an `Outcome`. A failing setter leaves every field
    as it was.
  - The getters are functions that read one field each. `Time`, `Fee` and
    `Cost` are functions over the fields. The lemmas about them are listed
    below.

The C++ `float` arithmetic is modelled as exact `real` arithmetic.

Three behaviours of the code are easy to miss:

- `Ferroviario()` never assigns `_distancia`. The implicit base constructor
  `Modal()` runs first, so a default rail modal has a distance of 100 km,
  where the other derived default constructors pass 0 (src/modal.cpp:274,
  385, 462). See `Modals.Modal.DefaultRail`; this assumes the class
  declarations listed under "## Left out".
- The road cost adds `_valor_pedagio` to every trip whatever the toll flag
  says (`Modals.RoadCost`).
- A capacity or speed of zero is not turned into an error. The C++ code
  divides by zero in `float` and gets an infinity or NaN. Here `Cost` needs
  `capacity > 0` and `Time` needs `speed > 0`.

## Model

| member | source | states |
|---|---|---|
| Freight.Trips | src/modal.cpp:270 | `ceil(quantity / capacity)` for a positive capacity: `n * capacity >= quantity` and `(n - 1) * capacity < quantity`, so `n` is the least number of trips that carries the cargo |
| Freight.TripsUnique | src/modal.cpp:270 | (the ceiling of lines 270, 378, 458 and 523) any integer `n` with `n * capacity >= quantity > (n - 1) * capacity` is the trip count, so the two bounds fully define the ceiling |
| Freight.TripsMonotone | src/modal.cpp:270 | more cargo never needs fewer trips (the same ceiling is at lines 378, 458 and 523) |
| Freight.TripsOfSmallCargo | src/modal.cpp:270 | an empty cargo (quantity 0) needs 0 trips; a non-negative cargo needs a non-negative count; a cargo of at most one capacity needs exactly 1 trip |
| Freight.ShipmentCost | src/modal.cpp:260-271 | the shared cost formula, trips times (distance * price + fee); with non-negative quantity, distance, price and fee the cost is non-negative |
| Freight.ShipmentCostOfTrips | src/modal.cpp:270 | (the formula of lines 270, 378, 458 and 523) a cargo that needs exactly `k` trips costs `k` times the per-trip charge |
| Freight.ShipmentCostMonotone | src/modal.cpp:270 | (the formula of lines 270, 378, 458 and 523) when a trip's charge is non-negative, cost never decreases as quantity grows |
| Freight.FeeChargedPerTrip | src/modal.cpp:378 | (the formula of lines 378, 458 and 523; rail's fee is 0) the fee is paid once per trip: the cost with fee `f` equals the cost without a fee plus trips times `f` |
| Freight.TravelTime | src/modal.cpp:141-146 | `obterTempo`: the minutes `t` with `t * speed == 60 * distance`; non-negative for a non-negative distance |
| Modals.Modal.Default | src/modal.cpp:24-34 | `Modal()`: a base object labelled road, price 0.075, capacity 35, speed 60, distance 100, and valid |
| Modals.Modal.New | src/modal.cpp:36-54 | `Modal(nome, preco, capacidade, velocidade, distancia)` fails exactly when one numeric argument is negative; otherwise it stores exactly the given label and values |
| Modals.Modal.DefaultRail | src/modal.cpp:153-160 | `Ferroviario()`: rail label and rates 0.05 / 70000 / 20; the distance keeps the base default of 100 |
| Modals.Modal.NewRail | src/modal.cpp:161-175 | `Ferroviario(distancia)` fails exactly on a negative distance; otherwise rail rates 0.05 / 70000 / 20 over that distance |
| Modals.Modal.DefaultRoad | src/modal.cpp:274-284 | `Rodoviario()`: road rates 0.075 / 35 / 60, distance 0, no toll, toll value 0 |
| Modals.Modal.NewRoad | src/modal.cpp:285-309 | `Rodoviario(distancia, pedagio, valor_pedagio)` fails exactly when the distance or the toll value is negative; otherwise road rates with the given distance, flag and toll value |
| Modals.Modal.DefaultWaterway | src/modal.cpp:385-394 | `Aquaviario()`: waterway rates 0.04375 / 1000 / 40, distance 0, terminal fee 0 |
| Modals.Modal.NewWaterway | src/modal.cpp:396-421 | `Aquaviario(distancia, valor_terminal)` fails exactly when the distance or the fee is negative; otherwise waterway rates with the given distance and fee |
| Modals.Modal.DefaultAir | src/modal.cpp:462-468 | `Aereo()`: air rates 0.1 / 100 / 800, distance 0, terminal fee 0 |
| Modals.Modal.NewAirAsWritten | src/modal.cpp:470-486 | `Aereo(distancia, valor_terminal)` as written: fails exactly on a negative fee and otherwise stores the air rates, any distance (a negative one included), no toll and the fee; the object is valid exactly when the distance is non-negative |
| Modals.AirWithNegativeDistance | src/modal.cpp:477-479 | the as-written air constructor yields an air modal with a negative distance, which breaks the validity every other constructor and setter keeps, and whose cost for 1 t is negative |
| Modals.Modal.NewAir | src/modal.cpp:470-486 | corrected `Aereo(distancia, valor_terminal)`: fails exactly when the distance or the fee is negative; otherwise air rates 0.1 / 100 / 800, and the object is valid |
| Modals.Modal.SetPrice | src/modal.cpp:60-72 | `setPreco` (also `Ferroviario::setPreco`, lines 181-193) fails exactly on a negative price and then changes nothing; otherwise it replaces the price and nothing else; validity is kept |
| Modals.Modal.SetCapacity | src/modal.cpp:73-85 | `setCapacidade` (also lines 194-206): the same for the capacity |
| Modals.Modal.SetSpeed | src/modal.cpp:86-98 | `setVelocidade` (also lines 207-220): the same for the speed |
| Modals.Modal.SetDistance | src/modal.cpp:99-110 | `setDistancia` (also lines 221-234): the same for the distance |
| Modals.Modal.SetToll | src/modal.cpp:317-338 | `setPedagio` succeeds exactly on 0 or 1 and then sets the toll flag to `flag == 1`; any other integer fails and changes nothing |
| Modals.Modal.SetTollFee | src/modal.cpp:339-351 | `setValorPedagio` fails exactly on a negative value and changes nothing; otherwise it replaces only the toll value |
| Modals.Modal.SetTerminalFee | src/modal.cpp:429-441 | `Aquaviario::setValorTerminal` and `Aereo::setValorTerminal` (lines 494-506) fail exactly on a negative fee and change nothing; otherwise they replace only the terminal fee |
| Modals.Modal.GetKind | src/modal.cpp:111-116 | `getTipoModal` returns the label fixed at construction; for a valid derived modal it is that class's own label |
| Modals.Modal.GetPrice | src/modal.cpp:117-122 | `getPreco` returns the price, never negative on a valid modal, and never fails |
| Modals.Modal.GetCapacity | src/modal.cpp:123-128 | `getCapacidade` returns the capacity, never negative on a valid modal |
| Modals.Modal.GetSpeed | src/modal.cpp:129-134 | `getVelocidade` returns the speed, never negative on a valid modal |
| Modals.Modal.GetDistance | src/modal.cpp:135-140 | `getDistancia` returns the distance, never negative on a valid modal |
| Modals.Modal.IsToll | src/modal.cpp:352-360 | `isPedagio` returns 0 or 1, and 1 exactly when the toll flag is set |
| Modals.Modal.GetTollFee | src/modal.cpp:361-366 | `getValorPedagio` returns the toll value, never negative on a valid road modal |
| Modals.Modal.GetTerminalFee | src/modal.cpp:442-447 | `Aquaviario::getValorTerminal` and `Aereo::getValorTerminal` (lines 507-512) return the terminal fee, never negative on a valid modal |
| Modals.Modal.Time | src/modal.cpp:141-146 | `obterTempo` of a modal: the minutes `t` with `t * speed == 60 * distance`, non-negative on a valid modal; a function of the fields, so it changes nothing |
| Modals.Modal.Fee | src/modal.cpp:378 | the charge each trip adds: 0 for rail (line 270), the toll value for road whatever the flag (line 378), the terminal fee for waterway and air (lines 458, 523); never negative on a valid modal |
| Modals.Modal.Cost | src/modal.cpp:513-524 | `obterCusto` of the four derived classes (lines 260-271, 367-382, 448-459, 513-524): quantity 0 costs 0, a cargo of at most one capacity costs exactly one trip's charge `distance * price + fee`, and a valid modal never charges a negative amount for a non-negative cargo; the `k`-trip cost is in `RailCost`, `RoadCost`, `WaterwayCost` and `AirCost` |
| Modals.RailCost | src/modal.cpp:260-271 | `Ferroviario::obterCusto`: a cargo needing `k` trains costs `k * distance * price`, with no surcharge |
| Modals.RoadCost | src/modal.cpp:367-382 | `Rodoviario::obterCusto`: a cargo needing `k` trucks costs `k * (distance * price + toll value)`; the toll flag plays no part |
| Modals.WaterwayCost | src/modal.cpp:448-459 | `Aquaviario::obterCusto`: a cargo needing `k` vessels costs `k * (distance * price + terminal fee)` |
| Modals.AirCost | src/modal.cpp:513-524 | `Aereo::obterCusto`: a cargo needing `k` flights costs `k * (distance * price + terminal fee)` |
| Modals.NegativeCargoCost | src/modal.cpp:367-382 | `Rodoviario::obterCusto` as written accepts a negative quantity: a valid road modal over 100 km with no toll value charges -7.5 for -35 t, which the checked version rejects |
| Modals.Modal.CheckedCost | src/modal.cpp:367-375 | `obterCusto` with the exception its comment announces: fails exactly on a negative quantity; otherwise equals `Cost`, and is never negative on a valid modal |
| Modals.CostNonNegativeAndMonotone | src/modal.cpp:270 | for a valid derived modal (any of the formulas at lines 270, 378, 458 and 523) with positive capacity, the cost of a non-negative cargo is non-negative and never decreases as the quantity grows |
| Modals.WorkedExamples | src/modal.cpp:270 | the cost formula of lines 270, 378, 458 and 523 at the default rates gives: rail 70000 t 5.0 and 70001 t 10.0; road with toll 10, 35 t 17.5 and 36 t 35.0; waterway 200 km with fee 50, 1000 t 58.75; air 500 km with fee 30, 250 t 240.0; and `obterTempo` (line 145) for 100 km at 60 km/h gives 100 minutes |

## Left out

- `obterCusto`: the comments of all four cost functions announce an exception for a negative quantity (src/modal.cpp:267-268, 374-375, 455-456, 520-521), but the code never checks it. `Cost` follows the code; see "## Findings".
- Floating point: `float` rounding, and infinities and NaN from division by zero, are not modelled. Arithmetic is exact over `real`.
- Division by zero: `Cost` requires a positive capacity and `Time` a positive speed. The C++ code returns an infinity or NaN there rather than failing.
- The `try`/`catch` in `Rodoviario::obterCusto` (src/modal.cpp:377-381) can never catch anything, since float division does not throw, so it is not modelled.
- The base `Modal::obterCusto` (src/modal.cpp:147-150) returns no value, which is undefined behaviour. Only the four derived classes have a cost here (`Cost` requires a derived variant).
- Console output in the `Rodoviario` constructor and in `setPedagio` (src/modal.cpp:298, 327-329) is left out. So is the `Tipo` helper it uses; `tools.hpp` is not part of this model.
- The `pedagio != true && pedagio != false` check (src/modal.cpp:299-301) can never hold for a `bool`, so it is not modelled.
- The type label is an enumeration, not a string. The string name passed to `Modal(nome_modal, ...)` becomes a `Kind` value, so names outside the four kinds cannot be represented.
- The C++ static types are modelled as preconditions on `variant`. For example, `SetToll` and `SetTollFee` require a road modal, and `SetTerminalFee` requires a waterway or air modal.
- `modal.hpp` is not part of this model, so three facts about its declarations are assumed:
  - `Ferroviario` derives publicly from `Modal` and does not redeclare `_distancia`, as the `this->` field uses suggest. `DefaultRail`'s distance of 100 rests on this.
  - `_velocidade` is a `float` field, so `obterTempo` (src/modal.cpp:145) divides in floating point and not in integers.
  - `_pedagio` is stored here as a `bool`. `IsToll` returns it as 1 or 0, as `isPedagio` does.
- Destructors are empty and are not modelled.
- `src/tools.cpp` (`lerArquivo`, `lerLocalidades`, `lerArestas`) only reads stream tokens and echoes them to the console. It is I/O and has no data model.

## Findings

| source | as written | input that shows it | evidently intended | confidence | as-written member | corrected member |
|---|---|---|---|---|---|---|
| src/modal.cpp:477-479 | `Aereo(distancia, valor_terminal)` rejects only a negative terminal fee | `Aereo(-1, 0)` builds an air modal with distance -1 | reject a negative distance too, like `Ferroviario(int)`, `Rodoviario(...)`, `Aquaviario(...)`, `Modal(...)` and `setDistancia` | medium, not executed | Modals.Modal.NewAirAsWritten | Modals.Modal.NewAir |
| src/modal.cpp:367-382 | every `obterCusto` (also lines 260-271, 448-459, 513-524) computes a cost for any quantity, although its comment announces an exception for a negative one | a valid road modal over 100 km with no toll value and `obterCusto(-35)` gives -7.5 | reject a negative quantity, as the comments at lines 267-268, 374-375, 455-456 and 520-521 say | medium, not executed | Modals.NegativeCargoCost | Modals.Modal.CheckedCost |

For the first row, `Modals.Modal.DefaultAir` (`Aereo()`, which passes
distance 0) is the same under both versions.
