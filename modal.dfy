/** A transport modal: one leg between two localities served by road,
    rail, waterway or air, with its price per km, capacity in tonnes,
    speed in km/h and integer distance in km. The C++ class hierarchy
    (a base `Modal` and four derived classes) becomes one class whose
    constant `variant` says which C++ class an object is; the fields that
    only some derived classes have (toll flag, toll value, terminal fee)
    are present in every object and only read or written for their
    variants. */
module Modals {
  import opened Freight

  /** The transport type label `_tipo_modal`; it has no setter. */
  datatype Kind = Road | Rail | Waterway | Air

  /** The C++ class of an object: the base class or one of its four
      derived classes. */
  datatype Variant = BaseModal | RailModal | RoadModal | WaterwayModal | AirModal

  /** `std::invalid_argument`, the only exception the modal code throws. */
  datatype Error = InvalidArgument

  /** Outcome of a constructor that may throw. */
  datatype Result<T> = Success(value: T) | Failure(error: Error)

  /** Outcome of a setter that may throw. */
  datatype Outcome = Pass | Fail(error: Error)

  /** The mutable attributes of a modal, as one value. */
  datatype Attributes = Attributes(
    price: real, capacity: real, speed: real, distance: int,
    toll: bool, tollFee: real, terminalFee: real)

  /** The label each derived class writes into `_tipo_modal`. */
  function KindOf(v: Variant): Kind
    requires v != BaseModal
  {
    match v
    case RailModal => Rail
    case RoadModal => Road
    case WaterwayModal => Waterway
    case AirModal => Air
  }

  class Modal {
    const variant: Variant
    const kind: Kind
    var price: real        // `_preco`, currency per km
    var capacity: real     // `_capacidade`, tonnes per trip
    var speed: real        // `_velocidade`, km/h
    var distance: int      // `_distancia`, km
    var toll: bool         // `Rodoviario::_pedagio`
    var tollFee: real      // `Rodoviario::_valor_pedagio`
    var terminalFee: real  // `Aquaviario::_valor_terminal`, `Aereo::_valor_terminal`

    /** What every validated constructor establishes and every setter keeps:
        no negative attribute, and a derived class carries its own label. */
    ghost predicate Valid()
      reads this
    {
      price >= 0.0 && capacity >= 0.0 && speed >= 0.0 && distance >= 0 &&
      tollFee >= 0.0 && terminalFee >= 0.0 &&
      (variant != BaseModal ==> kind == KindOf(variant))
    }

    ghost function Attrs(): Attributes
      reads this
    {
      Attributes(price, capacity, speed, distance, toll, tollFee, terminalFee)
    }

    /** Stores exactly the given attributes; every C++ constructor that does
        not throw ends in this state. */
    constructor Init(variant: Variant, kind: Kind, a: Attributes)
      ensures this.variant == variant && this.kind == kind && Attrs() == a
    {
      this.variant, this.kind := variant, kind;
      price, capacity, speed, distance := a.price, a.capacity, a.speed, a.distance;
      toll, tollFee, terminalFee := a.toll, a.tollFee, a.terminalFee;
    }

    /** `Modal()`: a base object labelled road, with the road rates and a
        distance of 100 km. */
    constructor Default()
      ensures variant == BaseModal && kind == Road && Valid()
      ensures price == 0.075 && capacity == 35.0 && speed == 60.0 && distance == 100
    {
      variant, kind := BaseModal, Road;
      price, capacity, speed, distance := 0.075, 35.0, 60.0, 100;
      toll, tollFee, terminalFee := false, 0.0, 0.0;
    }

    /** `Modal(nome_modal, preco, capacidade, velocidade, distancia)`: throws
        when any numeric argument is negative, otherwise stores them all. */
    static method New(kind: Kind, price: real, capacity: real, speed: real, distance: int)
      returns (r: Result<Modal>)
      ensures r.Success? <==> price >= 0.0 && capacity >= 0.0 && speed >= 0.0 && distance >= 0
      ensures r.Success? ==> (fresh(r.value) && r.value.Valid() &&
        r.value.variant == BaseModal && r.value.kind == kind &&
        r.value.price == price && r.value.capacity == capacity &&
        r.value.speed == speed && r.value.distance == distance)
    {
      if price < 0.0 || capacity < 0.0 || speed < 0.0 || distance < 0 {
        return Failure(InvalidArgument);
      }
      var m := new Modal.Init(BaseModal, kind, Attributes(price, capacity, speed, distance, false, 0.0, 0.0));
      return Success(m);
    }

    /** `Ferroviario()`: the rail rates. The implicit base constructor
        `Modal()` runs first and this one never assigns the distance, so the
        base default of 100 km stays. */
    constructor DefaultRail()
      ensures variant == RailModal && kind == Rail && Valid()
      ensures price == 0.05 && capacity == 70000.0 && speed == 20.0 && distance == 100
    {
      variant, kind := RailModal, Rail;
      price, capacity, speed, distance := 0.05, 70000.0, 20.0, 100;
      toll, tollFee, terminalFee := false, 0.0, 0.0;
    }

    /** `Ferroviario(distancia)`: throws on a negative distance, otherwise
        the rail rates over the given distance. */
    static method NewRail(distance: int) returns (r: Result<Modal>)
      ensures r.Success? <==> distance >= 0
      ensures r.Success? ==> (fresh(r.value) && r.value.Valid() &&
        r.value.variant == RailModal &&
        r.value.price == 0.05 && r.value.capacity == 70000.0 &&
        r.value.speed == 20.0 && r.value.distance == distance)
    {
      if distance < 0 {
        return Failure(InvalidArgument);
      }
      var m := new Modal.Init(RailModal, Rail, Attributes(0.05, 70000.0, 20.0, distance, false, 0.0, 0.0));
      return Success(m);
    }

    /** `Rodoviario()`, which delegates to `Rodoviario(0, 0, 0)`: the road
        rates, no distance, no toll, a toll value of 0. */
    constructor DefaultRoad()
      ensures variant == RoadModal && kind == Road && Valid()
      ensures price == 0.075 && capacity == 35.0 && speed == 60.0 && distance == 0
      ensures !toll && tollFee == 0.0
    {
      variant, kind := RoadModal, Road;
      price, capacity, speed, distance := 0.075, 35.0, 60.0, 0;
      toll, tollFee, terminalFee := false, 0.0, 0.0;
    }

    /** `Rodoviario(distancia, pedagio, valor_pedagio)`: throws when the
        distance or the toll value is negative, otherwise the road rates with
        the given distance, toll flag and toll value. */
    static method NewRoad(distance: int, toll: bool, tollFee: real) returns (r: Result<Modal>)
      ensures r.Success? <==> distance >= 0 && tollFee >= 0.0
      ensures r.Success? ==> (fresh(r.value) && r.value.Valid() &&
        r.value.variant == RoadModal &&
        r.value.price == 0.075 && r.value.capacity == 35.0 &&
        r.value.speed == 60.0 && r.value.distance == distance &&
        r.value.toll == toll && r.value.tollFee == tollFee)
    {
      if distance < 0 || tollFee < 0.0 {
        return Failure(InvalidArgument);
      }
      var m := new Modal.Init(RoadModal, Road, Attributes(0.075, 35.0, 60.0, distance, toll, tollFee, 0.0));
      return Success(m);
    }

    /** `Aquaviario()`, which delegates to `Aquaviario(0, 0)`. */
    constructor DefaultWaterway()
      ensures variant == WaterwayModal && kind == Waterway && Valid()
      ensures price == 0.04375 && capacity == 1000.0 && speed == 40.0 && distance == 0
      ensures terminalFee == 0.0
    {
      variant, kind := WaterwayModal, Waterway;
      price, capacity, speed, distance := 0.04375, 1000.0, 40.0, 0;
      toll, tollFee, terminalFee := false, 0.0, 0.0;
    }

    /** `Aquaviario(distancia, valor_terminal)`: throws when the distance or
        the terminal fee is negative. */
    static method NewWaterway(distance: int, terminalFee: real) returns (r: Result<Modal>)
      ensures r.Success? <==> distance >= 0 && terminalFee >= 0.0
      ensures r.Success? ==> (fresh(r.value) && r.value.Valid() &&
        r.value.variant == WaterwayModal &&
        r.value.price == 0.04375 && r.value.capacity == 1000.0 &&
        r.value.speed == 40.0 && r.value.distance == distance &&
        r.value.terminalFee == terminalFee)
    {
      if distance < 0 || terminalFee < 0.0 {
        return Failure(InvalidArgument);
      }
      var m := new Modal.Init(WaterwayModal, Waterway, Attributes(0.04375, 1000.0, 40.0, distance, false, 0.0, terminalFee));
      return Success(m);
    }

    /** `Aereo()`, which delegates to `Aereo(0, 0)`. */
    constructor DefaultAir()
      ensures variant == AirModal && kind == Air && Valid()
      ensures price == 0.1 && capacity == 100.0 && speed == 800.0 && distance == 0
      ensures terminalFee == 0.0
    {
      variant, kind := AirModal, Air;
      price, capacity, speed, distance := 0.1, 100.0, 800.0, 0;
      toll, tollFee, terminalFee := false, 0.0, 0.0;
    }

    /** `Aereo(distancia, valor_terminal)` as written: only the terminal fee
        is checked, so a negative distance is stored. */
    static method NewAirAsWritten(distance: int, terminalFee: real) returns (r: Result<Modal>)
      ensures r.Success? <==> terminalFee >= 0.0
      ensures r.Success? ==> (fresh(r.value) &&
        r.value.variant == AirModal && r.value.kind == Air &&
        r.value.price == 0.1 && r.value.capacity == 100.0 &&
        r.value.speed == 800.0 && r.value.distance == distance &&
        !r.value.toll && r.value.tollFee == 0.0 &&
        r.value.terminalFee == terminalFee &&
        (r.value.Valid() <==> distance >= 0))
    {
      if terminalFee < 0.0 {
        return Failure(InvalidArgument);
      }
      var m := new Modal.Init(AirModal, Air, Attributes(0.1, 100.0, 800.0, distance, false, 0.0, terminalFee));
      return Success(m);
    }

    /** `Aereo(distancia, valor_terminal)` with the distance check that the
        other constructors and `setDistancia` make: throws when the distance
        or the terminal fee is negative, so the result is always valid. */
    static method NewAir(distance: int, terminalFee: real) returns (r: Result<Modal>)
      ensures r.Success? <==> distance >= 0 && terminalFee >= 0.0
      ensures r.Success? ==> (fresh(r.value) && r.value.Valid() &&
        r.value.variant == AirModal &&
        r.value.price == 0.1 && r.value.capacity == 100.0 &&
        r.value.speed == 800.0 && r.value.distance == distance &&
        r.value.terminalFee == terminalFee)
    {
      if distance < 0 || terminalFee < 0.0 {
        return Failure(InvalidArgument);
      }
      var m := new Modal.Init(AirModal, Air, Attributes(0.1, 100.0, 800.0, distance, false, 0.0, terminalFee));
      return Success(m);
    }

    /** `setPreco`: throws on a negative price and changes nothing; otherwise
        replaces the price and nothing else. */
    method SetPrice(value: real) returns (res: Outcome)
      modifies this
      ensures res.Pass? <==> value >= 0.0
      ensures Attrs() == if res.Pass? then old(Attrs()).(price := value) else old(Attrs())
      ensures old(Valid()) ==> Valid()
    {
      if value < 0.0 {
        return Fail(InvalidArgument);
      }
      price := value;
      return Pass;
    }

    /** `setCapacidade`: throws on a negative capacity and changes nothing;
        otherwise replaces the capacity and nothing else. */
    method SetCapacity(value: real) returns (res: Outcome)
      modifies this
      ensures res.Pass? <==> value >= 0.0
      ensures Attrs() == if res.Pass? then old(Attrs()).(capacity := value) else old(Attrs())
      ensures old(Valid()) ==> Valid()
    {
      if value < 0.0 {
        return Fail(InvalidArgument);
      }
      capacity := value;
      return Pass;
    }

    /** `setVelocidade`: throws on a negative speed and changes nothing;
        otherwise replaces the speed and nothing else. */
    method SetSpeed(value: real) returns (res: Outcome)
      modifies this
      ensures res.Pass? <==> value >= 0.0
      ensures Attrs() == if res.Pass? then old(Attrs()).(speed := value) else old(Attrs())
      ensures old(Valid()) ==> Valid()
    {
      if value < 0.0 {
        return Fail(InvalidArgument);
      }
      speed := value;
      return Pass;
    }

    /** `setDistancia`: throws on a negative distance and changes nothing;
        otherwise replaces the distance and nothing else. */
    method SetDistance(value: int) returns (res: Outcome)
      modifies this
      ensures res.Pass? <==> value >= 0
      ensures Attrs() == if res.Pass? then old(Attrs()).(distance := value) else old(Attrs())
      ensures old(Valid()) ==> Valid()
    {
      if value < 0 {
        return Fail(InvalidArgument);
      }
      distance := value;
      return Pass;
    }

    /** `Rodoviario::setPedagio`: accepts only 1 (toll) and 0 (no toll),
        throws on any other integer and then changes nothing. */
    method SetToll(flag: int) returns (res: Outcome)
      requires variant == RoadModal
      modifies this
      ensures res.Pass? <==> flag == 0 || flag == 1
      ensures Attrs() == if res.Pass? then old(Attrs()).(toll := flag == 1) else old(Attrs())
      ensures old(Valid()) ==> Valid()
    {
      if flag != 1 && flag != 0 {
        return Fail(InvalidArgument);
      }
      toll := flag == 1;
      return Pass;
    }

    /** `Rodoviario::setValorPedagio`: throws on a negative toll value and
        changes nothing; otherwise replaces the toll value and nothing else. */
    method SetTollFee(value: real) returns (res: Outcome)
      requires variant == RoadModal
      modifies this
      ensures res.Pass? <==> value >= 0.0
      ensures Attrs() == if res.Pass? then old(Attrs()).(tollFee := value) else old(Attrs())
      ensures old(Valid()) ==> Valid()
    {
      if value < 0.0 {
        return Fail(InvalidArgument);
      }
      tollFee := value;
      return Pass;
    }

    /** `Aquaviario::setValorTerminal` and `Aereo::setValorTerminal`: throw
        on a negative fee and change nothing; otherwise replace the terminal
        fee and nothing else. */
    method SetTerminalFee(value: real) returns (res: Outcome)
      requires variant == WaterwayModal || variant == AirModal
      modifies this
      ensures res.Pass? <==> value >= 0.0
      ensures Attrs() == if res.Pass? then old(Attrs()).(terminalFee := value) else old(Attrs())
      ensures old(Valid()) ==> Valid()
    {
      if value < 0.0 {
        return Fail(InvalidArgument);
      }
      terminalFee := value;
      return Pass;
    }

    // The getters read one field each and never fail; on a valid modal
    // what they return is never negative.

    /** `getTipoModal`: the label fixed at construction. */
    function GetKind(): (k: Kind)
      reads this
      ensures k == kind
      ensures Valid() && variant != BaseModal ==> k == KindOf(variant)
    {
      kind
    }

    /** `getPreco`. */
    function GetPrice(): (p: real)
      reads this
      ensures p == price && (Valid() ==> p >= 0.0)
    {
      price
    }

    /** `getCapacidade`. */
    function GetCapacity(): (c: real)
      reads this
      ensures c == capacity && (Valid() ==> c >= 0.0)
    {
      capacity
    }

    /** `getVelocidade`. */
    function GetSpeed(): (v: real)
      reads this
      ensures v == speed && (Valid() ==> v >= 0.0)
    {
      speed
    }

    /** `getDistancia`. */
    function GetDistance(): (d: int)
      reads this
      ensures d == distance && (Valid() ==> d >= 0)
    {
      distance
    }

    /** `Rodoviario::isPedagio`: the toll flag encoded as 1 (toll) or 0
        (no toll). */
    function IsToll(): (b: int)
      reads this
      requires variant == RoadModal
      ensures b == 0 || b == 1
      ensures b == 1 <==> toll
    {
      if toll then 1 else 0
    }

    /** `Rodoviario::getValorPedagio`. */
    function GetTollFee(): (f: real)
      reads this
      requires variant == RoadModal
      ensures f == tollFee && (Valid() ==> f >= 0.0)
    {
      tollFee
    }

    /** `Aquaviario::getValorTerminal` and `Aereo::getValorTerminal`. */
    function GetTerminalFee(): (f: real)
      reads this
      requires variant == WaterwayModal || variant == AirModal
      ensures f == terminalFee && (Valid() ==> f >= 0.0)
    {
      terminalFee
    }

    /** `obterTempo`: the minutes that, at `speed` km/h, cover `distance` km. */
    function Time(): (t: real)
      reads this
      requires speed > 0.0
      ensures t * speed == 60.0 * distance as real
      ensures Valid() ==> t >= 0.0
    {
      TravelTime(distance, speed)
    }

    /** The charge each derived class adds to every trip: none for rail,
        the toll value for road (whatever the toll flag says), the terminal
        fee for waterway and air. The base class has no cost formula. */
    function Fee(): (f: real)
      reads this
      requires variant != BaseModal
      ensures variant == RailModal ==> f == 0.0
      ensures variant == RoadModal ==> f == tollFee
      ensures variant == WaterwayModal || variant == AirModal ==> f == terminalFee
      ensures Valid() ==> f >= 0.0
    {
      match variant
      case RailModal => 0.0
      case RoadModal => tollFee
      case WaterwayModal => terminalFee
      case AirModal => terminalFee
    }

    /** `obterCusto` of the four derived classes: nothing to ship costs
        nothing, a cargo that fits in one vehicle costs one trip's charge,
        and a valid modal never charges a negative amount. */
    function Cost(quantity: real): (c: real)
      reads this
      requires variant != BaseModal && capacity > 0.0
      ensures quantity == 0.0 ==> c == 0.0
      ensures 0.0 < quantity <= capacity ==> c == PerTrip(distance, price, Fee())
      ensures Valid() && quantity >= 0.0 ==> c >= 0.0
    {
      TripsOfSmallCargo(quantity, capacity);
      ShipmentCost(quantity, capacity, distance, price, Fee())
    }

    /** `obterCusto` with the check its documentation announces: a negative
        quantity is rejected; any other quantity costs what `Cost` computes,
        which on a valid modal is never negative. */
    function CheckedCost(quantity: real): (r: Result<real>)
      reads this
      requires variant != BaseModal && capacity > 0.0
      ensures r.Success? <==> quantity >= 0.0
      ensures r.Success? ==> r.value == Cost(quantity)
      ensures r.Success? && Valid() ==> r.value >= 0.0
    {
      if quantity < 0.0 then Failure(InvalidArgument) else Success(Cost(quantity))
    }
  }

  /** The as-written `Aereo(distancia, valor_terminal)` yields an air modal
      with a negative distance, which no other constructor or setter lets
      through, and one trip of that modal has a negative cost. */
  method AirWithNegativeDistance() returns (m: Modal)
    ensures m.variant == AirModal && m.distance < 0 && !m.Valid()
    ensures m.capacity > 0.0 && m.Cost(1.0) < 0.0
  {
    var r := Modal.NewAirAsWritten(-1, 0.0);
    m := r.value;
  }

  /** Rail: `k` trains cost `k` times distance times price, with no surcharge. */
  lemma {:induction false} RailCost(m: Modal, quantity: real, k: int)
    requires m.variant == RailModal && m.capacity > 0.0
    requires (k - 1) as real * m.capacity < quantity <= k as real * m.capacity
    ensures m.Cost(quantity) == k as real * (m.distance as real * m.price)
  {
    ShipmentCostOfTrips(quantity, m.capacity, m.distance, m.price, 0.0, k);
  }

  /** Road: every one of the `k` trucks pays the toll value, whether or not
      the toll flag is set. */
  lemma {:induction false} RoadCost(m: Modal, quantity: real, k: int)
    requires m.variant == RoadModal && m.capacity > 0.0
    requires (k - 1) as real * m.capacity < quantity <= k as real * m.capacity
    ensures m.Cost(quantity) == k as real * (m.distance as real * m.price + m.tollFee)
  {
    ShipmentCostOfTrips(quantity, m.capacity, m.distance, m.price, m.tollFee, k);
  }

  /** Waterway: every one of the `k` vessels pays the terminal fee. */
  lemma {:induction false} WaterwayCost(m: Modal, quantity: real, k: int)
    requires m.variant == WaterwayModal && m.capacity > 0.0
    requires (k - 1) as real * m.capacity < quantity <= k as real * m.capacity
    ensures m.Cost(quantity) == k as real * (m.distance as real * m.price + m.terminalFee)
  {
    ShipmentCostOfTrips(quantity, m.capacity, m.distance, m.price, m.terminalFee, k);
  }

  /** Air: every one of the `k` flights pays the terminal fee. */
  lemma {:induction false} AirCost(m: Modal, quantity: real, k: int)
    requires m.variant == AirModal && m.capacity > 0.0
    requires (k - 1) as real * m.capacity < quantity <= k as real * m.capacity
    ensures m.Cost(quantity) == k as real * (m.distance as real * m.price + m.terminalFee)
  {
    ShipmentCostOfTrips(quantity, m.capacity, m.distance, m.price, m.terminalFee, k);
  }

  /** `obterCusto` as written accepts a negative quantity: a valid road
      modal at the default rates over 100 km, with no toll value, charges
      -7.5 for -35 t, one "negative truck". */
  lemma NegativeCargoCost(m: Modal)
    requires m.variant == RoadModal && m.Valid()
    requires m.distance == 100 && m.price == 0.075 && m.capacity == 35.0 && m.tollFee == 0.0
    ensures m.Cost(-35.0) == -7.5
    ensures m.CheckedCost(-35.0).Failure?
  {
    RoadCost(m, -35.0, -1);
  }

  /** A valid modal never charges a negative amount for a non-negative
      cargo, and charges more (or the same) for more cargo. */
  lemma {:induction false} CostNonNegativeAndMonotone(m: Modal, q1: real, q2: real)
    requires m.Valid() && m.variant != BaseModal && m.capacity > 0.0
    requires 0.0 <= q1 <= q2
    ensures 0.0 <= m.Cost(q1) <= m.Cost(q2)
  {
    assert m.distance as real * m.price >= 0.0;
    ShipmentCostMonotone(q1, q2, m.capacity, m.distance, m.price, m.Fee());
  }

  /** Worked figures for the default rates: rail over 100 km at the trip
      boundary, road with a toll of 10, waterway over 200 km with a fee of
      50, air over 500 km with a fee of 30, and 100 km at 60 km/h. */
  lemma WorkedExamples()
    ensures ShipmentCost(70000.0, 70000.0, 100, 0.05, 0.0) == 5.0
    ensures ShipmentCost(70001.0, 70000.0, 100, 0.05, 0.0) == 10.0
    ensures ShipmentCost(35.0, 35.0, 100, 0.075, 10.0) == 17.5
    ensures ShipmentCost(36.0, 35.0, 100, 0.075, 10.0) == 35.0
    ensures ShipmentCost(1000.0, 1000.0, 200, 0.04375, 50.0) == 58.75
    ensures ShipmentCost(250.0, 100.0, 500, 0.1, 30.0) == 240.0
    ensures TravelTime(100, 60.0) == 100.0
  {
    ShipmentCostOfTrips(70000.0, 70000.0, 100, 0.05, 0.0, 1);
    ShipmentCostOfTrips(70001.0, 70000.0, 100, 0.05, 0.0, 2);
    ShipmentCostOfTrips(35.0, 35.0, 100, 0.075, 10.0, 1);
    ShipmentCostOfTrips(36.0, 35.0, 100, 0.075, 10.0, 2);
    ShipmentCostOfTrips(1000.0, 1000.0, 200, 0.04375, 50.0, 1);
    ShipmentCostOfTrips(250.0, 100.0, 500, 0.1, 30.0, 3);
  }
}
