/**
 * The builder demo (src/bin/builder.rs): a car builder collects optional
 * parts by value, one setter per part, and `build` checks that the required
 * parts are there. The builder is consumed and returned by every setter, so
 * it is a value here.
 */
module Builder {
  import opened Wrappers

  datatype TransmissionKind = Auto | Manual
  datatype EngineKind = Gasoline | Diesel
  datatype NavigationKind = Gps | Glonas

  datatype Car = Car(transmission: TransmissionKind, engine: EngineKind, navigation: Option<NavigationKind>)

  datatype CarBuilder = CarBuilder(
    transmission: Option<TransmissionKind>,
    engine: Option<EngineKind>,
    navigation: Option<NavigationKind>)

  /** A builder with no part chosen. */
  function New(): (b: CarBuilder)
    ensures b.transmission.None? && b.engine.None? && b.navigation.None?
  {
    CarBuilder(None, None, None)
  }

  /**
   * A car exists exactly when engine and transmission are chosen; navigation
   * is optional and carried over as it is.
   */
  function Build(b: CarBuilder): (r: Option<Car>)
    ensures r.Some? <==> b.engine.Some? && b.transmission.Some?
    ensures r.Some? ==> Some(r.value.transmission) == b.transmission && Some(r.value.engine) == b.engine
    ensures r.Some? ==> r.value.navigation == b.navigation
  {
    if b.engine.Some? && b.transmission.Some? then
      Some(Car(b.transmission.value, b.engine.value, b.navigation))
    else
      None
  }

  /** Each setter replaces its own part, whatever was there, and keeps the other two. */
  function Transmission(b: CarBuilder, transmission: TransmissionKind): (r: CarBuilder)
    ensures r.transmission == Some(transmission)
    ensures r.engine == b.engine && r.navigation == b.navigation
  {
    b.(transmission := Some(transmission))
  }

  function Engine(b: CarBuilder, engine: EngineKind): (r: CarBuilder)
    ensures r.engine == Some(engine)
    ensures r.transmission == b.transmission && r.navigation == b.navigation
  {
    b.(engine := Some(engine))
  }

  function Navigation(b: CarBuilder, navigation: NavigationKind): (r: CarBuilder)
    ensures r.navigation == Some(navigation)
    ensures r.transmission == b.transmission && r.engine == b.engine
  {
    b.(navigation := Some(navigation))
  }

  /** One setter call, as data. */
  datatype Step =
    | SetTransmission(transmission: TransmissionKind)
    | SetEngine(engine: EngineKind)
    | SetNavigation(navigation: NavigationKind)

  function ApplyStep(b: CarBuilder, step: Step): CarBuilder
  {
    match step
    case SetTransmission(t) => Transmission(b, t)
    case SetEngine(e) => Engine(b, e)
    case SetNavigation(n) => Navigation(b, n)
  }

  /** A chain of setter calls, applied left to right. */
  function Apply(b: CarBuilder, steps: seq<Step>): CarBuilder
  {
    if steps == [] then b else ApplyStep(Apply(b, steps[..|steps| - 1]), steps[|steps| - 1])
  }

  /** The last transmission chosen in `steps`, if any. */
  function LastTransmission(steps: seq<Step>): Option<TransmissionKind>
  {
    if steps == [] then None
    else if steps[|steps| - 1].SetTransmission? then Some(steps[|steps| - 1].transmission)
    else LastTransmission(steps[..|steps| - 1])
  }

  function LastEngine(steps: seq<Step>): Option<EngineKind>
  {
    if steps == [] then None
    else if steps[|steps| - 1].SetEngine? then Some(steps[|steps| - 1].engine)
    else LastEngine(steps[..|steps| - 1])
  }

  function LastNavigation(steps: seq<Step>): Option<NavigationKind>
  {
    if steps == [] then None
    else if steps[|steps| - 1].SetNavigation? then Some(steps[|steps| - 1].navigation)
    else LastNavigation(steps[..|steps| - 1])
  }

  /** `first` unless it is `None`, then `second`. */
  function OrElse<T>(first: Option<T>, second: Option<T>): Option<T>
  {
    if first.Some? then first else second
  }

  /**
   * After a chain of setters each part is the one its last setter call chose,
   * or the starting one if no call chose it: later calls override earlier
   * ones, and calls for different parts do not interfere.
   */
  lemma {:induction false} ApplyKeepsLastOfEachPart(b: CarBuilder, steps: seq<Step>)
    ensures Apply(b, steps) == CarBuilder(
      OrElse(LastTransmission(steps), b.transmission),
      OrElse(LastEngine(steps), b.engine),
      OrElse(LastNavigation(steps), b.navigation))
  {
    if steps != [] {
      ApplyKeepsLastOfEachPart(b, steps[..|steps| - 1]);
    }
  }

  /** The last choice of a part exists exactly when some call chose that part. */
  lemma {:induction false} LastChoicePresent(steps: seq<Step>)
    ensures LastTransmission(steps).Some? <==> exists i :: 0 <= i < |steps| && steps[i].SetTransmission?
    ensures LastEngine(steps).Some? <==> exists i :: 0 <= i < |steps| && steps[i].SetEngine?
  {
    if steps != [] {
      var init := steps[..|steps| - 1];
      LastChoicePresent(init);
      assert forall i :: 0 <= i < |init| ==> init[i] == steps[i];
    }
  }

  /**
   * Building from a fresh builder succeeds exactly when the chain set both an
   * engine and a transmission, in whatever order.
   */
  lemma BuildAfterSteps(steps: seq<Step>)
    ensures Build(Apply(New(), steps)).Some? <==>
      (exists i :: 0 <= i < |steps| && steps[i].SetEngine?) &&
      (exists i :: 0 <= i < |steps| && steps[i].SetTransmission?)
  {
    ApplyKeepsLastOfEachPart(New(), steps);
    LastChoicePresent(steps);
  }

  /**
   * The order of the calls matters only through the last choice of each part:
   * two chains that end up choosing the same parts build the same car.
   */
  lemma SameChoicesSameCar(b: CarBuilder, steps1: seq<Step>, steps2: seq<Step>)
    requires LastTransmission(steps1) == LastTransmission(steps2)
    requires LastEngine(steps1) == LastEngine(steps2)
    requires LastNavigation(steps1) == LastNavigation(steps2)
    ensures Build(Apply(b, steps1)) == Build(Apply(b, steps2))
  {
    ApplyKeepsLastOfEachPart(b, steps1);
    ApplyKeepsLastOfEachPart(b, steps2);
  }

  /** The chain in `main`: engine, transmission and navigation give a complete car. */
  function MainCar(): (r: Option<Car>)
    ensures r == Some(Car(Auto, Gasoline, Some(Glonas)))
  {
    Build(Navigation(Transmission(Engine(New(), Gasoline), Auto), Glonas))
  }
}
