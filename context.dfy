/** The outside world of the canopy processes and of the PET dispatcher, as values.
    The model builder (state-variable lookup), the HRU property getters, the global
    options and the fatal-error exit are collaborators that the processes only read;
    they are passed in as immutable data here. */
module RavenContext {

  /** Index returned by a state-variable lookup that finds nothing. */
  const DOESNT_EXIST: int := -1

  /** Marker stored in a forcing series where no data was given. */
  const RAV_BLANK_DATA: real := -1.2345

  /** Marker of a parameter or forcing the user never specified. */
  const NOT_SPECIFIED: real := -33333.0

  /** Tolerance below zero that a computed PET may reach before it is an error. */
  const REAL_SMALL: real := 0.000000000001

  const MM_PER_METER: real := 1000.0
  const CM_PER_METER: real := 100.0

  /** The severity codes passed to the fatal exit; every one aborts the run. */
  datatype Error = BadData | Stub | RuntimeError

  /** Result of an operation that may end the run with a fatal exit. */
  datatype Result<T> = Success(value: T) | Failure(error: Error)

  /** Result of a check that produces no value. */
  datatype Outcome = Pass | Fail(error: Error)

  datatype Option<T> = None | Some(value: T)

  /** The discrete type tag of a hydrologic response unit. */
  datatype HruType = Standard | Rock | Lake | Glacier | Wetland

  /** Canopy processes act only on standard and wetland units. */
  predicate HostsCanopy(t: HruType)
  {
    t == Standard || t == Wetland
  }

  /** The state-variable (compartment) types that the canopy processes name;
      every other compartment of a model is an `OtherStorage`. */
  datatype SvType = Canopy | CanopySnow | Atmosphere | Aet | Trunk | Ponded | OtherStorage(id: nat)

  /** Classes a model parameter may belong to. */
  datatype ParamClass = ClassSoil | ClassVegetation | ClassLanduse | ClassTerrain | ClassGlobal

  /** The properties of one HRU that the canopy processes read: surface
      properties (forest coverage), vegetation properties (maximum capacity,
      trunk fraction, stemflow fraction, drip proportion), time-varying
      vegetation properties (capacity) and the current forcing (PET, wind
      velocity). The vegetation model derives the time-varying capacity from
      the maximum capacity; that derivation is not part of this model, so the
      two are independent fields here. */
  datatype Hru = Hru(
    hruType: HruType,
    forestCoverage: real,
    capacity: real,
    maxCapacity: real,
    trunkFraction: real,
    stemflowFrac: real,
    dripProportion: real,
    forcingPet: real,
    windVel: real)

  /** The global options the canopy processes read. */
  datatype Options = Options(timestep: real, suppressCompetitiveET: bool)

  /** The model's state layout: the type of the compartment at each index of
      the state vector. Each single-level compartment appears at most once. */
  type Layout = seq<SvType>

  /** The state-variable lookup of the model builder: the index of the
      compartment of type `t`, or DOESNT_EXIST when the model has none. */
  function StateVarIndex(layout: Layout, t: SvType): (i: int)
    ensures DOESNT_EXIST <= i < |layout|
    ensures i == DOESNT_EXIST <==> t !in layout
    ensures 0 <= i ==> layout[i] == t && t !in layout[..i]
    decreases |layout|
  {
    if |layout| == 0 then DOESNT_EXIST
    else if layout[0] == t then 0
    else
      var j := StateVarIndex(layout[1..], t);
      if j == DOESNT_EXIST then DOESNT_EXIST else j + 1
  }

  /** The type of the compartment at index `i`; an index outside the layout has none. */
  function StateVarType(layout: Layout, i: int): (r: Option<SvType>)
    ensures r.Some? <==> 0 <= i < |layout|
    ensures r.Some? ==> r.value == layout[i]
  {
    if 0 <= i < |layout| then Some(layout[i]) else None
  }

  function Min(a: real, b: real): (r: real)
    ensures r <= a && r <= b
    ensures r == a || r == b
  {
    if a <= b then a else b
  }

  function Max(a: real, b: real): (r: real)
    ensures r >= a && r >= b
    ensures r == a || r == b
  {
    if a >= b then a else b
  }

  /** The smoothed minimum of the source with smoothing parameter 0, which is
      the plain minimum (the smoothed form is not part of this model). */
  function ThreshMin(a: real, b: real, smoothing: real): (r: real)
    requires smoothing == 0.0
    ensures r <= a && r <= b
    ensures r == a || r == b
  {
    Min(a, b)
  }

  /** The smoothed maximum of the source with smoothing parameter 0. */
  function ThreshMax(a: real, b: real, smoothing: real): (r: real)
    requires smoothing == 0.0
    ensures r >= a && r >= b
    ensures r == a || r == b
  {
    Max(a, b)
  }

  /** The sign rule for products, stated once so that proofs about rates can
      cite it instead of searching for it. */
  lemma MulNonNegative(a: real, b: real)
    ensures a >= 0.0 && b >= 0.0 ==> a * b >= 0.0
  {
  }

  lemma MulNonZero(a: real, b: real)
    requires a != 0.0 && b != 0.0
    ensures a * b != 0.0
  {
  }

  lemma DivNonNegative(a: real, b: real)
    requires a >= 0.0 && b > 0.0
    ensures a / b >= 0.0
  {
  }

  /** A part of a positive whole, divided by the whole, is a fraction in [0, 1]. */
  lemma FractionBounds(part: real, whole: real)
    requires whole > 0.0 && 0.0 <= part <= whole
    ensures 0.0 <= part / whole <= 1.0
  {
  }

  /** Scaling a non-negative amount by a fraction keeps it between zero and the amount. */
  lemma ScaleByFraction(a: real, f: real)
    requires a >= 0.0 && 0.0 <= f <= 1.0
    ensures 0.0 <= a * f <= a
  {
    MulNonNegative(a, f);
    MulNonNegative(a, 1.0 - f);
  }

  lemma DivSelf(x: real)
    requires x != 0.0
    ensures x / x == 1.0
  {
  }

  /** The positive part of `x`, unsmoothed. */
  function ThreshPositive(x: real): (r: real)
    ensures r >= 0.0 && r >= x
    ensures r == x || r == 0.0
  {
    Max(x, 0.0)
  }
}
