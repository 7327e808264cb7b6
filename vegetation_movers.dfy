/** The canopy mass-transfer processes: canopy evaporation, canopy snow
    sublimation and canopy drip. Each process owns a fixed list of
    (from, to) connections into the state vector, proposes one rate per
    connection (GetRatesOfChange) and then corrects those rates in place so
    that no compartment is overdrawn (ApplyConstraints). Evaporation and
    sublimation pair their withdrawal with an AET -> AET connection that
    accumulates actual evapotranspiration; the correction keeps that
    accumulator equal to what was actually granted. */
module VegetationMovers {
  import opened RavenContext

  /** Sub-models of canopy evaporation. */
  datatype CanEvapType = CanevpRutter | CanevpMaximum | CanevpAll

  /** Sub-models of canopy drip. */
  datatype CanDripType = CandripRutter | CandripSlowdrain

  /** Sub-models of sublimation; the canopy process implements only the first
      two. `SublimOther` stands for every further sublimation model of the
      snow processes, none of which the canopy process implements. */
  datatype SublimationType = SublimMaximum | SublimAll | SublimSverdrup | SublimOther(id: nat)

  /** The parameters the canopy processes declare. */
  datatype ParamName = ForestCoverage | MaxCapacity | TrunkFraction | StemflowFrac | DripProportion | SnowRoughness

  /** The name under which a parameter is declared to the model builder. */
  function ParamText(p: ParamName): string
  {
    match p
    case ForestCoverage => "FOREST_COVERAGE"
    case MaxCapacity => "MAX_CAPACITY"
    case TrunkFraction => "TRUNK_FRACTION"
    case StemflowFrac => "STEMFLOW_FRAC"
    case DripProportion => "DRIP_PROPORTION"
    case SnowRoughness => "SNOW_ROUGHNESS"
  }

  /** One entry of a participating-parameter list. */
  datatype ParamDecl = ParamDecl(name: ParamName, cls: ParamClass)

  /** One entry of a participating-state-variable list; `level` is
      DOESNT_EXIST for a single-level compartment. */
  datatype StateVarDecl = StateVarDecl(sv: SvType, level: int)

  /** The value an HRU gives a declared parameter; the global snow roughness
      is not an HRU property. The declared maximum capacity is not the
      capacity the rates read (see `Hru`). */
  function HruParam(h: Hru, p: ParamName): Option<real>
  {
    match p
    case ForestCoverage => Some(h.forestCoverage)
    case MaxCapacity => Some(h.maxCapacity)
    case TrunkFraction => Some(h.trunkFraction)
    case StemflowFrac => Some(h.stemflowFrac)
    case DripProportion => Some(h.dripProportion)
    case SnowRoughness => None
  }

  /** Two HRUs agree on every parameter of a declaration list. */
  ghost predicate AgreeOnParams(h1: Hru, h2: Hru, ps: seq<ParamDecl>)
  {
    forall i :: 0 <= i < |ps| ==> HruParam(h1, ps[i].name) == HruParam(h2, ps[i].name)
  }

  function DeclaredTypes(decls: seq<StateVarDecl>): set<SvType>
  {
    set i | 0 <= i < |decls| :: decls[i].sv
  }

  /** Two state vectors agree on every compartment whose type is declared. */
  ghost predicate AgreeOnCompartments(layout: Layout, s1: seq<real>, s2: seq<real>, decls: seq<StateVarDecl>)
    requires |s1| == |layout| && |s2| == |layout|
  {
    forall i :: 0 <= i < |layout| && layout[i] in DeclaredTypes(decls) ==> s1[i] == s2[i]
  }

  /** The potential evapotranspiration still available to a canopy process:
      the non-negative forcing PET, less (unless competitive ET is suppressed)
      what the AET accumulator already holds this step, per unit time, floored
      at zero. */
  function AvailablePet(hru: Hru, opts: Options, aet: real): (pet: real)
    requires opts.timestep > 0.0
    ensures pet >= 0.0
    ensures opts.suppressCompetitiveET ==> pet == Max(hru.forcingPet, 0.0)
    ensures !opts.suppressCompetitiveET ==> pet >= Max(hru.forcingPet, 0.0) - aet / opts.timestep
    ensures !opts.suppressCompetitiveET ==> pet == 0.0 || pet == Max(hru.forcingPet, 0.0) - aet / opts.timestep
    ensures !opts.suppressCompetitiveET && aet >= 0.0 ==> pet <= Max(hru.forcingPet, 0.0)
  {
    var pet := Max(hru.forcingPet, 0.0);
    if opts.suppressCompetitiveET then pet else Max(pet - aet / opts.timestep, 0.0)
  }

  /** A withdrawal rate and the rate of its paired AET accumulator. */
  datatype RatePair = RatePair(withdrawal: real, accumulator: real)

  /** Competitive ET never leaves more PET than the forcing provides and
      never a negative amount, whatever the accumulator holds. */
  lemma CompetitivePetBounds(hru: Hru, opts: Options, aet: real)
    requires opts.timestep > 0.0 && aet >= 0.0
    ensures 0.0 <= AvailablePet(hru, opts, aet) <= Max(hru.forcingPet, 0.0)
  {
  }

  /** A withdrawal rate capped at storage/timestep never drives a
      non-negative storage negative within the step, and a non-negative one
      never adds to it. */
  lemma CappedWithdrawalKeepsStorage(storage: real, w: real, ts: real)
    requires ts > 0.0 && storage >= 0.0 && w <= storage / ts
    ensures storage - w * ts >= 0.0
    ensures w >= 0.0 ==> storage - w * ts <= storage
  {
    assert w * ts <= (storage / ts) * ts by {
      if w < storage / ts {
        assert (storage / ts - w) * ts > 0.0;
      }
    }
    assert (storage / ts) * ts == storage;
  }

  //================================================================
  // Canopy evaporation
  //================================================================

  /** The parameters each evaporation sub-model declares. */
  function EvapParams(kind: CanEvapType): seq<ParamDecl>
  {
    match kind
    case CanevpRutter =>
      [ParamDecl(ForestCoverage, ClassLanduse), ParamDecl(MaxCapacity, ClassVegetation), ParamDecl(TrunkFraction, ClassVegetation)]
    case CanevpMaximum => [ParamDecl(ForestCoverage, ClassLanduse)]
    case CanevpAll => []
  }

  /** The compartments every evaporation sub-model declares. */
  function EvapStateVars(): seq<StateVarDecl>
  {
    [StateVarDecl(Canopy, DOESNT_EXIST), StateVarDecl(Atmosphere, DOESNT_EXIST), StateVarDecl(Aet, DOESNT_EXIST)]
  }

  /** The trunk fraction the Rutter model uses: zero unless a trunk compartment is modelled. */
  function TrunkShare(hru: Hru, trunkModelled: bool): real
  {
    if trunkModelled then hru.trunkFraction else 0.0
  }

  /** The evaporative demand on the canopy in the Rutter model: PET over the
      forested, non-trunk part of the HRU, (1-Ft)·Fc·PET. */
  function RutterDemand(ft: real, fc: real, pet: real): real
  {
    (1.0 - ft) * fc * pet
  }

  /** The Rutter rate: the demand scaled by how full the canopy (storage
      `stor` out of a capacity Fc·cap) is. */
  function RutterEvap(ft: real, fc: real, pet: real, stor: real, cap: real): real
    requires cap * fc != 0.0
  {
    RutterDemand(ft, fc, pet) * (stor / (cap * fc))
  }

  /** The canopy storage the Rutter rate reads, corrected for a possibly
      invalid value: clipped to lie between zero and Fc times the capacity. */
  function ClippedStorage(canopy: real, cap: real, fc: real): real
  {
    Min(Max(canopy, 0.0), cap * fc)
  }

  /** The proposed canopy evaporation rate on a canopy-hosting HRU with
      non-zero forest coverage; `canopy` and `aet` are the current canopy
      storage and AET accumulator. */
  function EvapRate(kind: CanEvapType, hru: Hru, opts: Options, trunkModelled: bool, canopy: real, aet: real): real
    requires opts.timestep > 0.0 && hru.forestCoverage != 0.0
    requires kind == CanevpRutter ==> hru.capacity != 0.0
  {
    var fc := hru.forestCoverage;
    var pet := AvailablePet(hru, opts, aet);
    match kind
    case CanevpRutter =>
      var stor := ClippedStorage(canopy, hru.capacity, fc);
      MulNonZero(hru.capacity, fc);
      RutterEvap(TrunkShare(hru, trunkModelled), fc, pet, stor, hru.capacity)
    case CanevpMaximum => fc * pet
    case CanevpAll => canopy / opts.timestep
  }

  /** The Rutter formula on plain numbers: between zero and the demand, zero
      for an empty canopy, the whole demand for a full one. */
  lemma RutterEvapBounds(ft: real, fc: real, pet: real, stor: real, cap: real)
    requires 0.0 <= ft <= 1.0 && fc > 0.0 && cap > 0.0 && pet >= 0.0
    requires 0.0 <= stor <= cap * fc
    ensures 0.0 <= RutterEvap(ft, fc, pet, stor, cap) <= RutterDemand(ft, fc, pet)
    ensures stor == 0.0 ==> RutterEvap(ft, fc, pet, stor, cap) == 0.0
    ensures stor == cap * fc ==> RutterEvap(ft, fc, pet, stor, cap) == RutterDemand(ft, fc, pet)
  {
    MulNonNegative(cap, fc);
    MulNonZero(cap, fc);
    FractionBounds(stor, cap * fc);
    MulNonNegative(1.0 - ft, fc);
    MulNonNegative((1.0 - ft) * fc, pet);
    ScaleByFraction(RutterDemand(ft, fc, pet), stor / (cap * fc));
    if stor == cap * fc {
      DivSelf(cap * fc);
    }
  }

  /** The Rutter rate scales the evaporative demand (1-Ft)·Fc·PET by how full
      the canopy is: it lies between zero and that demand, is zero for an
      empty (or invalid, negative) canopy and equals the demand for a canopy
      at or above its capacity Fc·cap. */
  lemma RutterRateBounds(hru: Hru, opts: Options, trunkModelled: bool, canopy: real, aet: real)
    requires opts.timestep > 0.0 && hru.forestCoverage > 0.0 && hru.capacity > 0.0
    requires 0.0 <= TrunkShare(hru, trunkModelled) <= 1.0
    ensures var demand := RutterDemand(TrunkShare(hru, trunkModelled), hru.forestCoverage, AvailablePet(hru, opts, aet));
      && 0.0 <= EvapRate(CanevpRutter, hru, opts, trunkModelled, canopy, aet) <= demand
      && (canopy <= 0.0 ==> EvapRate(CanevpRutter, hru, opts, trunkModelled, canopy, aet) == 0.0)
      && (canopy >= hru.capacity * hru.forestCoverage ==> EvapRate(CanevpRutter, hru, opts, trunkModelled, canopy, aet) == demand)
  {
    var fc, cap := hru.forestCoverage, hru.capacity;
    var stor := ClippedStorage(canopy, cap, fc);
    MulNonNegative(cap, fc);
    RutterEvapBounds(TrunkShare(hru, trunkModelled), fc, AvailablePet(hru, opts, aet), stor, cap);
  }

  /** Without a trunk compartment the Rutter rate ignores the trunk fraction. */
  lemma RutterIgnoresTrunkFractionWithoutTrunk(hru: Hru, ft: real, opts: Options, canopy: real, aet: real)
    requires opts.timestep > 0.0 && hru.forestCoverage != 0.0 && hru.capacity != 0.0
    ensures EvapRate(CanevpRutter, hru.(trunkFraction := ft), opts, false, canopy, aet)
         == EvapRate(CanevpRutter, hru, opts, false, canopy, aet)
  {
  }

  /** The PET-limited rate never exceeds the available PET when 0 < Fc <= 1. */
  lemma MaximumRateBounds(hru: Hru, opts: Options, trunkModelled: bool, canopy: real, aet: real)
    requires opts.timestep > 0.0 && 0.0 < hru.forestCoverage <= 1.0
    ensures 0.0 <= EvapRate(CanevpMaximum, hru, opts, trunkModelled, canopy, aet) <= AvailablePet(hru, opts, aet)
  {
    var pet := AvailablePet(hru, opts, aet);
    MulNonNegative(hru.forestCoverage, pet);
    MulNonNegative(1.0 - hru.forestCoverage, pet);
  }

  /** The rates an evaporation process leaves after GetRatesOfChange, given
      the rates before (`rates`), the state vector and the index of its
      canopy compartment. */
  function EvapRatesOfChange(kind: CanEvapType, hru: Hru, opts: Options, layout: Layout, from: int,
                             state: seq<real>, rates: seq<real>): (r: seq<real>)
    requires opts.timestep > 0.0 && |state| == |layout| && 0 <= from < |state| && Aet in layout
    requires kind == CanevpRutter && HostsCanopy(hru.hruType) && hru.forestCoverage != 0.0 ==> hru.capacity != 0.0
    requires |rates| >= 2
    ensures |r| == |rates| && r[2..] == rates[2..]
    ensures !HostsCanopy(hru.hruType) ==> r == rates
    ensures HostsCanopy(hru.hruType) && hru.forestCoverage == 0.0 ==> r[0] == 0.0 && r[1] == rates[1]
    ensures HostsCanopy(hru.hruType) && hru.forestCoverage != 0.0 ==> r[1] == r[0]
  {
    if !HostsCanopy(hru.hruType) then rates
    else if hru.forestCoverage == 0.0 then rates[0 := 0.0]
    else
      var rate := EvapRate(kind, hru, opts, StateVarIndex(layout, Trunk) != DOESNT_EXIST,
                           state[from], state[StateVarIndex(layout, Aet)]);
      rates[0 := rate][1 := rate]
  }

  /** The rates GetRatesOfChange proposes read the state vector only at the
      compartments the process declares. */
  lemma {:induction false} EvapReadsOnlyDeclaredCompartments(kind: CanEvapType, hru: Hru, opts: Options, layout: Layout,
                                                             s1: seq<real>, s2: seq<real>, rates: seq<real>)
    requires opts.timestep > 0.0 && |s1| == |layout| && |s2| == |layout| && Canopy in layout && Aet in layout
    requires kind == CanevpRutter && HostsCanopy(hru.hruType) && hru.forestCoverage != 0.0 ==> hru.capacity != 0.0
    requires |rates| >= 2
    requires AgreeOnCompartments(layout, s1, s2, EvapStateVars())
    ensures EvapRatesOfChange(kind, hru, opts, layout, StateVarIndex(layout, Canopy), s1, rates)
         == EvapRatesOfChange(kind, hru, opts, layout, StateVarIndex(layout, Canopy), s2, rates)
  {
    var c, a := StateVarIndex(layout, Canopy), StateVarIndex(layout, Aet);
    assert EvapStateVars()[0].sv == Canopy && EvapStateVars()[2].sv == Aet;
    assert layout[c] in DeclaredTypes(EvapStateVars());
    assert layout[a] in DeclaredTypes(EvapStateVars());
    assert s1[c] == s2[c] && s1[a] == s2[a];
  }

  /** The proposed rate depends on the HRU only through the parameters the
      sub-model declares (besides the forcing PET, the coverage test Fc != 0
      and the unit type). The Rutter model reads the time-varying capacity
      derived from the declared maximum capacity, so that capacity is a
      hypothesis of its own. */
  lemma EvapReadsOnlyDeclaredParams(kind: CanEvapType, h1: Hru, h2: Hru, opts: Options,
                                    trunkModelled: bool, canopy: real, aet: real)
    requires opts.timestep > 0.0 && h1.forestCoverage != 0.0 && h2.forestCoverage != 0.0
    requires kind == CanevpRutter ==> h1.capacity != 0.0 && h2.capacity != 0.0
    requires h1.forcingPet == h2.forcingPet
    requires kind == CanevpRutter ==> h1.capacity == h2.capacity
    requires AgreeOnParams(h1, h2, EvapParams(kind))
    ensures EvapRate(kind, h1, opts, trunkModelled, canopy, aet) == EvapRate(kind, h2, opts, trunkModelled, canopy, aet)
  {
    var ps := EvapParams(kind);
    match kind
    case CanevpRutter =>
      assert h1.forestCoverage == h2.forestCoverage && h1.trunkFraction == h2.trunkFraction by {
        assert HruParam(h1, ps[0].name) == HruParam(h2, ps[0].name);
        assert HruParam(h1, ps[2].name) == HruParam(h2, ps[2].name);
      }
      EvapRateOfEqualInputs(kind, h1, h2, opts, trunkModelled, canopy, aet);
    case CanevpMaximum =>
      assert h1.forestCoverage == h2.forestCoverage by {
        assert HruParam(h1, ps[0].name) == HruParam(h2, ps[0].name);
      }
      EvapRateOfEqualInputs(kind, h1, h2, opts, trunkModelled, canopy, aet);
    case CanevpAll =>
  }

  /** Two HRUs that agree on every input of the rate formula get the same rate. */
  lemma EvapRateOfEqualInputs(kind: CanEvapType, h1: Hru, h2: Hru, opts: Options, trunkModelled: bool, canopy: real, aet: real)
    requires opts.timestep > 0.0 && h1.forestCoverage != 0.0
    requires kind == CanevpRutter ==> h1.capacity != 0.0
    requires h1.forestCoverage == h2.forestCoverage && h1.forcingPet == h2.forcingPet
    requires kind == CanevpRutter ==> h1.capacity == h2.capacity && h1.trunkFraction == h2.trunkFraction
    ensures EvapRate(kind, h1, opts, trunkModelled, canopy, aet) == EvapRate(kind, h2, opts, trunkModelled, canopy, aet)
  {
    assert AvailablePet(h1, opts, aet) == AvailablePet(h2, opts, aet);
    if kind == CanevpRutter {
      assert TrunkShare(h1, trunkModelled) == TrunkShare(h2, trunkModelled);
      assert ClippedStorage(canopy, h1.capacity, h1.forestCoverage) == ClippedStorage(canopy, h2.capacity, h2.forestCoverage);
    }
  }


  /** The evaporation correction: floor the withdrawal at zero, cap it at
      storage/timestep, and take off the AET accumulator exactly what was
      taken off the withdrawal. */
  function EvapConstrained(proposed: real, accumulator: real, storage: real, ts: real): (r: RatePair)
    requires ts > 0.0
    ensures r.withdrawal <= storage / ts
    ensures storage >= 0.0 ==> r.withdrawal >= 0.0
    ensures r.withdrawal <= Max(proposed, 0.0)
    ensures r.withdrawal == proposed || r.withdrawal == 0.0 || r.withdrawal == storage / ts
    ensures 0.0 <= proposed <= storage / ts ==> r.withdrawal == proposed
    ensures Max(proposed, 0.0) >= storage / ts ==> r.withdrawal == storage / ts
    ensures r.accumulator - r.withdrawal == accumulator - proposed
  {
    var w := Min(Max(proposed, 0.0), storage / ts);
    RatePair(w, accumulator - (proposed - w))
  }

  /** With a negative (invalid) storage the corrected rate is still negative:
      the cap is applied after the zero floor. */
  lemma NegativeStorageGivesNegativeEvap(proposed: real, accumulator: real, storage: real, ts: real)
    requires ts > 0.0 && storage < 0.0
    ensures EvapConstrained(proposed, accumulator, storage, ts).withdrawal == storage / ts < 0.0
  {
  }

  /** Correcting corrected rates changes nothing. */
  lemma EvapConstraintIdempotent(proposed: real, accumulator: real, storage: real, ts: real)
    requires ts > 0.0
    ensures var c := EvapConstrained(proposed, accumulator, storage, ts);
      EvapConstrained(c.withdrawal, c.accumulator, storage, ts) == c
  {
  }

  /** After proposal and correction the AET accumulator equals the granted
      evaporation, which never overdraws a non-negative canopy. */
  lemma EvapGrantsWhatAccumulatorRecords(rate: real, storage: real, ts: real)
    requires ts > 0.0 && storage >= 0.0
    ensures var c := EvapConstrained(rate, rate, storage, ts);
      c.accumulator == c.withdrawal && 0.0 <= storage - c.withdrawal * ts <= storage
  {
    var c := EvapConstrained(rate, rate, storage, ts);
    CappedWithdrawalKeepsStorage(storage, c.withdrawal, ts);
  }

  /** The worked example: Fc = 0.6, capacity 5, canopy storage 4, no trunk,
      PET 3, timestep 1, Rutter model: the rate is 1.8 and the correction
      leaves it (and the accumulator) at 1.8. */
  lemma RutterExample()
    ensures var hru := Hru(Standard, 0.6, 5.0, 5.0, 0.3, 0.0, 0.0, 3.0, 0.0);
            var opts := Options(1.0, true);
      && EvapRate(CanevpRutter, hru, opts, false, 4.0, 0.0) == 1.8
      && EvapConstrained(1.8, 1.8, 4.0, 1.0) == RatePair(1.8, 1.8)
  {
  }

  /** Loss of water from the canopy to the atmosphere. */
  class CanopyEvap {
    const kind: CanEvapType
    /** Connection 0 is canopy -> atmosphere, connection 1 is AET -> AET. */
    const iFrom: seq<int>
    const iTo: seq<int>

    predicate Valid()
    {
      |iFrom| == 2 && |iTo| == 2
    }

    /** The destinations are fixed: only the sub-model is chosen. */
    constructor (kind: CanEvapType, layout: Layout)
      ensures Valid() && this.kind == kind
      ensures iFrom == [StateVarIndex(layout, Canopy), StateVarIndex(layout, Aet)]
      ensures iTo == [StateVarIndex(layout, Atmosphere), StateVarIndex(layout, Aet)]
    {
      this.kind := kind;
      iFrom := [StateVarIndex(layout, Canopy), StateVarIndex(layout, Aet)];
      iTo := [StateVarIndex(layout, Atmosphere), StateVarIndex(layout, Aet)];
    }

    /** Connection 0 must come from the canopy and go to the atmosphere. */
    method Initialize(layout: Layout) returns (r: Outcome)
      requires Valid()
      ensures r == Pass <==> StateVarType(layout, iFrom[0]) == Some(Canopy) && StateVarType(layout, iTo[0]) == Some(Atmosphere)
      ensures r == Pass || r == Fail(BadData)
    {
      if StateVarType(layout, iFrom[0]) != Some(Canopy) {
        return Fail(BadData);
      }
      if StateVarType(layout, iTo[0]) != Some(Atmosphere) {
        return Fail(BadData);
      }
      return Pass;
    }

    method GetParticipatingParamList(aP: array<string>, aPC: array<ParamClass>) returns (nP: int)
      requires aP.Length >= 3 && aPC.Length >= 3
      modifies aP, aPC
      ensures nP == |EvapParams(kind)|
      ensures forall i :: 0 <= i < nP ==> aP[i] == ParamText(EvapParams(kind)[i].name) && aPC[i] == EvapParams(kind)[i].cls
      ensures aP[nP..] == old(aP[nP..]) && aPC[nP..] == old(aPC[nP..])
    {
      match kind {
        case CanevpRutter =>
          nP := 3;
          aP[0] := "FOREST_COVERAGE"; aPC[0] := ClassLanduse;
          aP[1] := "MAX_CAPACITY"; aPC[1] := ClassVegetation;
          aP[2] := "TRUNK_FRACTION"; aPC[2] := ClassVegetation;
        case CanevpMaximum =>
          nP := 1;
          aP[0] := "FOREST_COVERAGE"; aPC[0] := ClassLanduse;
        case CanevpAll =>
          nP := 0;
      }
    }

    /** The same three compartments whatever the sub-model. */
    static method GetParticipatingStateVarList(kind: CanEvapType, aSV: array<SvType>, aLev: array<int>) returns (nSV: int)
      requires aSV.Length >= 3 && aLev.Length >= 3
      modifies aSV, aLev
      ensures nSV == |EvapStateVars()|
      ensures forall i :: 0 <= i < nSV ==> aSV[i] == EvapStateVars()[i].sv && aLev[i] == EvapStateVars()[i].level
      ensures aSV[nSV..] == old(aSV[nSV..]) && aLev[nSV..] == old(aLev[nSV..])
    {
      nSV := 3;
      aSV[0] := Canopy; aLev[0] := DOESNT_EXIST;
      aSV[1] := Atmosphere; aLev[1] := DOESNT_EXIST;
      aSV[2] := Aet; aLev[2] := DOESNT_EXIST;
    }

    /** The arithmetic of GetRatesOfChange on a canopy-hosting HRU with
        forest cover, step by step: available PET, capped storage, then the
        sub-model's rate (the accumulator receives the same amount). */
    static method ProposeEvap(kind: CanEvapType, hru: Hru, opts: Options, trunkModelled: bool, canopy: real, aet: real)
      returns (rate: real)
      requires opts.timestep > 0.0 && hru.forestCoverage != 0.0
      requires kind == CanevpRutter ==> hru.capacity != 0.0
      ensures rate == EvapRate(kind, hru, opts, trunkModelled, canopy, aet)
    {
      var fc := hru.forestCoverage;
      var cap := hru.capacity;
      var pet := Max(hru.forcingPet, 0.0);
      var stor := Min(Max(canopy, 0.0), cap * fc);
      if !opts.suppressCompetitiveET {
        pet := pet - aet / opts.timestep;
        pet := Max(pet, 0.0);
      }
      assert pet == AvailablePet(hru, opts, aet);
      match kind {
        case CanevpRutter =>
          var ft := hru.trunkFraction;
          if !trunkModelled {
            ft := 0.0;
          }
          assert ft == TrunkShare(hru, trunkModelled);
          assert stor == ClippedStorage(canopy, cap, fc);
          MulNonZero(cap, fc);
          rate := RutterEvap(ft, fc, pet, stor, cap);
        case CanevpMaximum =>
          rate := fc * pet;
        case CanevpAll =>
          rate := canopy / opts.timestep;
      }
    }

    /** Writes the proposed evaporation into rates[0] and the same amount
        into the accumulator rate rates[1]; changes nothing but `rates`. */
    method GetRatesOfChange(state: array<real>, hru: Hru, opts: Options, layout: Layout, rates: array<real>)
      requires Valid() && opts.timestep > 0.0
      requires state.Length == |layout| && 0 <= iFrom[0] < state.Length && Aet in layout
      requires kind == CanevpRutter && HostsCanopy(hru.hruType) && hru.forestCoverage != 0.0 ==> hru.capacity != 0.0
      requires rates.Length >= 2 && rates != state
      modifies rates
      ensures rates[..] == EvapRatesOfChange(kind, hru, opts, layout, iFrom[0], state[..], old(rates[..]))
      ensures state[..] == old(state[..])
    {
      if !HostsCanopy(hru.hruType) {
        return;
      }
      var fc := hru.forestCoverage;
      var cap := hru.capacity;
      rates[0] := 0.0;
      if fc == 0.0 {
        return;
      }
      var canopy := state[iFrom[0]];
      var aet := state[StateVarIndex(layout, Aet)];
      var rate := ProposeEvap(kind, hru, opts, StateVarIndex(layout, Trunk) != DOESNT_EXIST, canopy, aet);
      rates[0] := rate;
      rates[1] := rate;
    }

    /** Floors the withdrawal at zero, caps it at canopy storage/timestep and
        lowers the accumulator rate by what was taken off. */
    method ApplyConstraints(state: array<real>, hru: Hru, opts: Options, rates: array<real>)
      requires Valid() && opts.timestep > 0.0
      requires 0 <= iFrom[0] < state.Length
      requires rates.Length >= 2 && rates != state
      modifies rates
      ensures !HostsCanopy(hru.hruType) ==> rates[..] == old(rates[..])
      ensures HostsCanopy(hru.hruType) ==>
        var c := EvapConstrained(old(rates[0]), old(rates[1]), state[iFrom[0]], opts.timestep);
        rates[..] == old(rates[..])[0 := c.withdrawal][1 := c.accumulator]
      ensures state[..] == old(state[..])
    {
      if !HostsCanopy(hru.hruType) {
        return;
      }
      var oldRate := rates[0];
      rates[0] := Max(rates[0], 0.0);
      rates[0] := Min(rates[0], state[iFrom[0]] / opts.timestep);
      rates[1] := rates[1] - (oldRate - rates[0]);
    }
  }

  //================================================================
  // Canopy snow sublimation
  //================================================================

  /** The parameters each sublimation sub-model declares. */
  function SublimParams(kind: SublimationType): seq<ParamDecl>
  {
    match kind
    case SublimMaximum => [ParamDecl(ForestCoverage, ClassLanduse)]
    case SublimSverdrup => [ParamDecl(SnowRoughness, ClassGlobal)]
    case _ => []
  }

  /** The compartments every sublimation sub-model declares. */
  function SublimStateVars(): seq<StateVarDecl>
  {
    [StateVarDecl(CanopySnow, DOESNT_EXIST), StateVarDecl(Atmosphere, DOESNT_EXIST), StateVarDecl(Aet, DOESNT_EXIST)]
  }

  /** The canopy implements only the PET-limited and the instantaneous sub-models. */
  predicate SublimImplemented(kind: SublimationType)
  {
    kind == SublimMaximum || kind == SublimAll
  }

  /** The proposed sublimation rate of an implemented sub-model on a
      canopy-hosting HRU with non-zero forest coverage. */
  function SublimRate(kind: SublimationType, hru: Hru, opts: Options, canopySnow: real, aet: real): (r: real)
    requires opts.timestep > 0.0 && SublimImplemented(kind)
    ensures kind == SublimMaximum && 0.0 <= hru.forestCoverage ==> 0.0 <= r
    ensures kind == SublimMaximum && 0.0 <= hru.forestCoverage <= 1.0 ==> r <= AvailablePet(hru, opts, aet)
    ensures kind == SublimAll ==> r * opts.timestep == canopySnow
  {
    match kind
    case SublimMaximum =>
      var pet := AvailablePet(hru, opts, aet);
      MulNonNegative(hru.forestCoverage, pet);
      MulNonNegative(1.0 - hru.forestCoverage, pet);
      hru.forestCoverage * pet
    case SublimAll => canopySnow / opts.timestep
  }

  /** The outcome and rates of the sublimation GetRatesOfChange: an
      unimplemented sub-model fails as a stub once the HRU qualifies (with
      rates[0] already zeroed, see the method). */
  function SublimRatesOfChange(kind: SublimationType, hru: Hru, opts: Options, layout: Layout, from: int,
                               state: seq<real>, rates: seq<real>): (r: Result<seq<real>>)
    requires opts.timestep > 0.0 && |state| == |layout| && 0 <= from < |state| && Aet in layout
    requires |rates| >= 2
    ensures r.Failure? <==> HostsCanopy(hru.hruType) && hru.forestCoverage != 0.0 && !SublimImplemented(kind)
    ensures r.Failure? ==> r.error == Stub
    ensures r.Success? ==> |r.value| == |rates| && r.value[2..] == rates[2..]
    ensures r.Success? && !HostsCanopy(hru.hruType) ==> r.value == rates
    ensures r.Success? && HostsCanopy(hru.hruType) && hru.forestCoverage == 0.0 ==> r.value == rates[0 := 0.0]
    ensures r.Success? && HostsCanopy(hru.hruType) && hru.forestCoverage != 0.0 ==> r.value[1] == r.value[0]
  {
    if !HostsCanopy(hru.hruType) then Success(rates)
    else if hru.forestCoverage == 0.0 then Success(rates[0 := 0.0])
    else if !SublimImplemented(kind) then Failure(Stub)
    else
      var rate := SublimRate(kind, hru, opts, state[from], state[StateVarIndex(layout, Aet)]);
      Success(rates[0 := rate][1 := rate])
  }

  /** The rates the sublimation GetRatesOfChange proposes read the state
      vector only at the compartments the process declares. */
  lemma SublimReadsOnlyDeclaredCompartments(kind: SublimationType, hru: Hru, opts: Options, layout: Layout,
                                            s1: seq<real>, s2: seq<real>, rates: seq<real>)
    requires opts.timestep > 0.0 && |s1| == |layout| && |s2| == |layout| && CanopySnow in layout && Aet in layout
    requires |rates| >= 2
    requires AgreeOnCompartments(layout, s1, s2, SublimStateVars())
    ensures SublimRatesOfChange(kind, hru, opts, layout, StateVarIndex(layout, CanopySnow), s1, rates)
         == SublimRatesOfChange(kind, hru, opts, layout, StateVarIndex(layout, CanopySnow), s2, rates)
  {
    var c, a := StateVarIndex(layout, CanopySnow), StateVarIndex(layout, Aet);
    assert SublimStateVars()[0].sv == CanopySnow && SublimStateVars()[2].sv == Aet;
    assert layout[c] in DeclaredTypes(SublimStateVars());
    assert layout[a] in DeclaredTypes(SublimStateVars());
    assert s1[c] == s2[c] && s1[a] == s2[a];
  }

  /** The proposed sublimation depends on the HRU only through the parameters
      the sub-model declares (besides the forcing PET, the coverage test
      Fc != 0 and the unit type): the PET-limited model reads only the forest
      coverage, the instantaneous model no parameter at all. */
  lemma SublimReadsOnlyDeclaredParams(kind: SublimationType, h1: Hru, h2: Hru, opts: Options, canopySnow: real, aet: real)
    requires opts.timestep > 0.0 && SublimImplemented(kind)
    requires h1.forcingPet == h2.forcingPet
    requires AgreeOnParams(h1, h2, SublimParams(kind))
    ensures SublimRate(kind, h1, opts, canopySnow, aet) == SublimRate(kind, h2, opts, canopySnow, aet)
  {
    if kind == SublimMaximum {
      var ps := SublimParams(kind);
      assert h1.forestCoverage == h2.forestCoverage by {
        assert HruParam(h1, ps[0].name) == HruParam(h2, ps[0].name);
      }
      var pet := AvailablePet(h1, opts, aet);
      assert pet == AvailablePet(h2, opts, aet);
      assert SublimRate(kind, h1, opts, canopySnow, aet) == h1.forestCoverage * pet;
      assert SublimRate(kind, h2, opts, canopySnow, aet) == h1.forestCoverage * pet;
    }
  }

  /** The sublimation correction: cap the withdrawal at storage/timestep (no
      floor at zero) and take the same amount off the AET accumulator. */
  function SublimConstrained(proposed: real, accumulator: real, storage: real, ts: real): (r: RatePair)
    requires ts > 0.0
    ensures r.withdrawal <= storage / ts && r.withdrawal <= proposed
    ensures r.withdrawal == proposed || r.withdrawal == storage / ts
    ensures proposed <= storage / ts ==> r.withdrawal == proposed
    ensures r.accumulator - r.withdrawal == accumulator - proposed
  {
    var w := Min(proposed, storage / ts);
    RatePair(w, accumulator - (proposed - w))
  }

  /** Unlike the evaporation correction, the sublimation correction keeps a
      negative proposal negative even when storage is available. */
  lemma SublimKeepsNegativeProposal(proposed: real, accumulator: real, storage: real, ts: real)
    requires ts > 0.0 && proposed < 0.0 && storage >= 0.0
    ensures SublimConstrained(proposed, accumulator, storage, ts).withdrawal == proposed
    ensures EvapConstrained(proposed, accumulator, storage, ts).withdrawal == 0.0
  {
  }

  /** Correcting corrected sublimation rates changes nothing. */
  lemma SublimConstraintIdempotent(proposed: real, accumulator: real, storage: real, ts: real)
    requires ts > 0.0
    ensures var c := SublimConstrained(proposed, accumulator, storage, ts);
      SublimConstrained(c.withdrawal, c.accumulator, storage, ts) == c
  {
  }

  /** For the proposals the implemented sub-models make on a valid canopy
      snow store (non-negative rate, accumulator equal to the rate), the
      correction grants a non-negative amount that never overdraws the store
      and that the accumulator records exactly. */
  lemma SublimGrantsWhatAccumulatorRecords(rate: real, storage: real, ts: real)
    requires ts > 0.0 && storage >= 0.0 && rate >= 0.0
    ensures var c := SublimConstrained(rate, rate, storage, ts);
      c.accumulator == c.withdrawal && c.withdrawal >= 0.0 && 0.0 <= storage - c.withdrawal * ts <= storage
  {
    var c := SublimConstrained(rate, rate, storage, ts);
    assert storage / ts >= 0.0;
    CappedWithdrawalKeepsStorage(storage, c.withdrawal, ts);
  }

  /** Loss of snow intercepted by the canopy to the atmosphere. */
  class CanopySublimation {
    const kind: SublimationType
    /** Connection 0 is canopy snow -> atmosphere, connection 1 is AET -> AET. */
    const iFrom: seq<int>
    const iTo: seq<int>

    predicate Valid()
    {
      |iFrom| == 2 && |iTo| == 2
    }

    /** The destinations are fixed: only the sub-model is chosen. */
    constructor (kind: SublimationType, layout: Layout)
      ensures Valid() && this.kind == kind
      ensures iFrom == [StateVarIndex(layout, CanopySnow), StateVarIndex(layout, Aet)]
      ensures iTo == [StateVarIndex(layout, Atmosphere), StateVarIndex(layout, Aet)]
    {
      this.kind := kind;
      iFrom := [StateVarIndex(layout, CanopySnow), StateVarIndex(layout, Aet)];
      iTo := [StateVarIndex(layout, Atmosphere), StateVarIndex(layout, Aet)];
    }

    /** Connection 0 must come from the canopy snow and go to the atmosphere. */
    method Initialize(layout: Layout) returns (r: Outcome)
      requires Valid()
      ensures r == Pass <==> StateVarType(layout, iFrom[0]) == Some(CanopySnow) && StateVarType(layout, iTo[0]) == Some(Atmosphere)
      ensures r == Pass || r == Fail(BadData)
    {
      if StateVarType(layout, iFrom[0]) != Some(CanopySnow) {
        return Fail(BadData);
      }
      if StateVarType(layout, iTo[0]) != Some(Atmosphere) {
        return Fail(BadData);
      }
      return Pass;
    }

    method GetParticipatingParamList(aP: array<string>, aPC: array<ParamClass>) returns (nP: int)
      requires aP.Length >= 1 && aPC.Length >= 1
      modifies aP, aPC
      ensures nP == |SublimParams(kind)|
      ensures forall i :: 0 <= i < nP ==> aP[i] == ParamText(SublimParams(kind)[i].name) && aPC[i] == SublimParams(kind)[i].cls
      ensures aP[nP..] == old(aP[nP..]) && aPC[nP..] == old(aPC[nP..])
    {
      if kind == SublimMaximum {
        nP := 1;
        aP[0] := "FOREST_COVERAGE"; aPC[0] := ClassLanduse;
      } else if kind == SublimSverdrup {
        nP := 1;
        aP[0] := "SNOW_ROUGHNESS"; aPC[0] := ClassGlobal;
      } else {
        nP := 0;
      }
    }

    /** The same three compartments whatever the sub-model. */
    static method GetParticipatingStateVarList(kind: SublimationType, aSV: array<SvType>, aLev: array<int>) returns (nSV: int)
      requires aSV.Length >= 3 && aLev.Length >= 3
      modifies aSV, aLev
      ensures nSV == |SublimStateVars()|
      ensures forall i :: 0 <= i < nSV ==> aSV[i] == SublimStateVars()[i].sv && aLev[i] == SublimStateVars()[i].level
      ensures aSV[nSV..] == old(aSV[nSV..]) && aLev[nSV..] == old(aLev[nSV..])
    {
      nSV := 3;
      aSV[0] := CanopySnow; aLev[0] := DOESNT_EXIST;
      aSV[1] := Atmosphere; aLev[1] := DOESNT_EXIST;
      aSV[2] := Aet; aLev[2] := DOESNT_EXIST;
    }

    /** Writes the proposed sublimation into rates[0] and the same amount
        into the accumulator rate rates[1]; a sub-model the canopy does not
        implement fails as a stub after rates[0] was zeroed. */
    method GetRatesOfChange(state: array<real>, hru: Hru, opts: Options, layout: Layout, rates: array<real>)
      returns (r: Outcome)
      requires Valid() && opts.timestep > 0.0
      requires state.Length == |layout| && 0 <= iFrom[0] < state.Length && Aet in layout
      requires rates.Length >= 2 && rates != state
      modifies rates
      ensures var p := SublimRatesOfChange(kind, hru, opts, layout, iFrom[0], state[..], old(rates[..]));
        && (r == Pass <==> p.Success?)
        && (p.Success? ==> rates[..] == p.value)
        && (p.Failure? ==> r == Fail(p.error) && rates[..] == old(rates[..])[0 := 0.0])
      ensures state[..] == old(state[..])
    {
      if !HostsCanopy(hru.hruType) {
        return Pass;
      }
      var fc := hru.forestCoverage;
      rates[0] := 0.0;
      if fc == 0.0 {
        return Pass;
      }
      var snow := state[iFrom[0]];
      var aet := state[StateVarIndex(layout, Aet)];
      var pet := Max(hru.forcingPet, 0.0);
      if !opts.suppressCompetitiveET {
        pet := pet - aet / opts.timestep;
        pet := Max(pet, 0.0);
      }
      assert pet == AvailablePet(hru, opts, aet);
      var rate: real;
      if kind == SublimMaximum {
        rate := fc * pet;
      } else if kind == SublimAll {
        rate := snow / opts.timestep;
      } else {
        return Fail(Stub);
      }
      assert rate == SublimRate(kind, hru, opts, snow, aet);
      ghost var before := old(rates[..]);
      rates[0] := rate;
      rates[1] := rate;
      assert rates[..] == before[0 := rate][1 := rate];
      return Pass;
    }

    /** Caps the withdrawal at canopy snow storage/timestep and lowers the
        accumulator rate by what was taken off. */
    method ApplyConstraints(state: array<real>, hru: Hru, opts: Options, rates: array<real>)
      requires Valid() && opts.timestep > 0.0
      requires 0 <= iFrom[0] < state.Length
      requires rates.Length >= 2 && rates != state
      modifies rates
      ensures !HostsCanopy(hru.hruType) ==> rates[..] == old(rates[..])
      ensures HostsCanopy(hru.hruType) ==>
        var c := SublimConstrained(old(rates[0]), old(rates[1]), state[iFrom[0]], opts.timestep);
        rates[..] == old(rates[..])[0 := c.withdrawal][1 := c.accumulator]
      ensures state[..] == old(state[..])
    {
      if !HostsCanopy(hru.hruType) {
        return;
      }
      var oldRate := rates[0];
      rates[0] := Min(rates[0], state[iFrom[0]] / opts.timestep);
      rates[1] := rates[1] - (oldRate - rates[0]);
    }
  }

  //================================================================
  // Canopy drip
  //================================================================

  /** The parameters each drip sub-model declares. */
  function DripParams(kind: CanDripType): seq<ParamDecl>
  {
    match kind
    case CandripRutter =>
      [ParamDecl(ForestCoverage, ClassLanduse), ParamDecl(MaxCapacity, ClassVegetation), ParamDecl(StemflowFrac, ClassVegetation)]
    case CandripSlowdrain =>
      [ParamDecl(DripProportion, ClassVegetation), ParamDecl(MaxCapacity, ClassVegetation), ParamDecl(ForestCoverage, ClassLanduse)]
  }

  /** Drip declares only its source compartment; the destination is chosen by the caller. */
  function DripStateVars(): seq<StateVarDecl>
  {
    [StateVarDecl(Canopy, DOESNT_EXIST)]
  }

  /** The stemflow fraction the Rutter drip uses: zero unless a trunk compartment is modelled. */
  function StemflowShare(hru: Hru, trunkModelled: bool): real
  {
    if trunkModelled then hru.stemflowFrac else 0.0
  }

  /** Rutter drip: the overflow above the capacity Fc·cap spread over one
      step, less the stemflow share `p`. */
  function RutterDrip(fc: real, cap: real, p: real, stor: real, ts: real): real
    requires ts > 0.0
  {
    (1.0 - p) * ThreshMax((stor - fc * cap) / ts, 0.0, 0.0)
  }

  /** Slow drain: the overflow rate plus a drip proportional to the
      storage per unit coverage, at most that storage per step. */
  function SlowDrainDrip(fc: real, cap: real, drip: real, stor: real, ts: real): real
    requires ts > 0.0 && fc != 0.0
  {
    ThreshPositive((stor - fc * cap) / ts) + ThreshMin(drip * (stor / fc), stor / fc / ts, 0.0)
  }

  /** The proposed drip rate on a canopy-hosting HRU with non-zero forest
      coverage, given the canopy storage `stor`. */
  function DripRate(kind: CanDripType, hru: Hru, opts: Options, trunkModelled: bool, stor: real): real
    requires opts.timestep > 0.0 && hru.forestCoverage != 0.0
  {
    match kind
    case CandripRutter =>
      RutterDrip(hru.forestCoverage, hru.capacity, StemflowShare(hru, trunkModelled), stor, opts.timestep)
    case CandripSlowdrain =>
      SlowDrainDrip(hru.forestCoverage, hru.capacity, hru.dripProportion, stor, opts.timestep)
  }

  /** Rutter drip is the overflow above the capacity Fc·cap spread over one
      step (less the stemflow share): zero while the canopy is within
      capacity; above it, non-negative and at most the overflow rate. */
  lemma RutterDripBounds(hru: Hru, opts: Options, trunkModelled: bool, stor: real)
    requires opts.timestep > 0.0 && hru.forestCoverage != 0.0
    requires 0.0 <= StemflowShare(hru, trunkModelled) <= 1.0
    ensures var cap := hru.forestCoverage * hru.capacity;
      && (stor <= cap ==> DripRate(CandripRutter, hru, opts, trunkModelled, stor) == 0.0)
      && (stor > cap ==> 0.0 <= DripRate(CandripRutter, hru, opts, trunkModelled, stor) <= (stor - cap) / opts.timestep)
  {
    var cap := hru.forestCoverage * hru.capacity;
    var over := (stor - cap) / opts.timestep;
    var p := StemflowShare(hru, trunkModelled);
    var rate := DripRate(CandripRutter, hru, opts, trunkModelled, stor);
    assert rate == (1.0 - p) * ThreshMax(over, 0.0, 0.0);
    if stor <= cap {
      assert over <= 0.0;
    } else {
      assert over > 0.0;
      assert rate == over - p * over;
      assert p * over >= 0.0;
      assert (1.0 - p) * over >= 0.0;
    }
  }

  /** Without stemflow, Rutter drip over one full step brings an overfull
      canopy exactly back to its capacity Fc·cap. */
  lemma RutterDripDrainsToCapacity(hru: Hru, opts: Options, stor: real)
    requires opts.timestep > 0.0 && hru.forestCoverage != 0.0
    requires stor > hru.forestCoverage * hru.capacity
    ensures stor - DripRate(CandripRutter, hru, opts, false, stor) * opts.timestep == hru.forestCoverage * hru.capacity
  {
    var cap := hru.forestCoverage * hru.capacity;
    var over := (stor - cap) / opts.timestep;
    assert over > 0.0;
    assert DripRate(CandripRutter, hru, opts, false, stor) == over;
    assert over * opts.timestep == stor - cap;
  }

  /** Slow drain drips at least the overflow rate, and on a valid canopy
      (non-negative storage, positive coverage, non-negative drip
      proportion) never a negative amount; the slow drain on top of the
      overflow never exceeds the storage per unit coverage per step. */
  lemma SlowDrainBounds(hru: Hru, opts: Options, trunkModelled: bool, stor: real)
    requires opts.timestep > 0.0 && hru.forestCoverage > 0.0
    requires stor >= 0.0 && hru.dripProportion >= 0.0
    ensures var rate := DripRate(CandripSlowdrain, hru, opts, trunkModelled, stor);
      && 0.0 <= rate
      && (stor - hru.forestCoverage * hru.capacity) / opts.timestep <= rate
      && rate - Max((stor - hru.forestCoverage * hru.capacity) / opts.timestep, 0.0) <= stor / hru.forestCoverage / opts.timestep
  {
    SlowDrainDripBounds(hru.forestCoverage, hru.capacity, hru.dripProportion, stor, opts.timestep);
    assert DripRate(CandripSlowdrain, hru, opts, trunkModelled, stor)
        == SlowDrainDrip(hru.forestCoverage, hru.capacity, hru.dripProportion, stor, opts.timestep);
  }


  /** The slow-drain formula on plain numbers (see SlowDrainBounds). */
  lemma SlowDrainDripBounds(fc: real, cap: real, drip: real, stor: real, ts: real)
    requires ts > 0.0 && fc > 0.0 && stor >= 0.0 && drip >= 0.0
    ensures var rate := SlowDrainDrip(fc, cap, drip, stor, ts);
      && 0.0 <= rate
      && (stor - fc * cap) / ts <= rate
      && rate - Max((stor - fc * cap) / ts, 0.0) <= stor / fc / ts
  {
    DivNonNegative(stor, fc);
    MulNonNegative(drip, stor / fc);
    DivNonNegative(stor / fc, ts);
    OverflowPlusCappedDrip((stor - fc * cap) / ts, drip * (stor / fc), stor / fc / ts);
  }

  /** The shape of slow drain: an overflow rate's positive part plus a
      non-negative drip capped at a non-negative bound is at least the
      overflow rate, non-negative, and exceeds the positive part by at most
      the bound. */
  lemma OverflowPlusCappedDrip(over: real, drip: real, bound: real)
    requires drip >= 0.0 && bound >= 0.0
    ensures var r := ThreshPositive(over) + ThreshMin(drip, bound, 0.0);
      0.0 <= r && over <= r && r - Max(over, 0.0) <= bound
  {
  }

  /** The worked example: storage 8, Fc = 1, capacity 5, no stemflow,
      timestep 1, Rutter model: the drip is the overflow 3. */
  lemma RutterDripExample()
    ensures DripRate(CandripRutter, Hru(Standard, 1.0, 5.0, 5.0, 0.0, 0.0, 0.0, 0.0, 0.0), Options(1.0, false), false, 8.0) == 3.0
  {
  }

  /** The rates the drip GetRatesOfChange leaves, given the rates before. */
  function DripRatesOfChange(kind: CanDripType, hru: Hru, opts: Options, layout: Layout, from: int,
                             state: seq<real>, rates: seq<real>): (r: seq<real>)
    requires opts.timestep > 0.0 && |state| == |layout| && 0 <= from < |state| && |rates| >= 1
    ensures |r| == |rates| && r[1..] == rates[1..]
    ensures !HostsCanopy(hru.hruType) ==> r == rates
    ensures HostsCanopy(hru.hruType) && hru.forestCoverage == 0.0 ==> r[0] == 0.0
  {
    if !HostsCanopy(hru.hruType) then rates
    else if hru.forestCoverage == 0.0 then rates[0 := 0.0]
    else rates[0 := DripRate(kind, hru, opts, StateVarIndex(layout, Trunk) >= 0, state[from])]
  }

  /** The proposed drip reads the state vector only at the canopy. */
  lemma {:induction false} DripReadsOnlyDeclaredCompartments(kind: CanDripType, hru: Hru, opts: Options, layout: Layout,
                                                             s1: seq<real>, s2: seq<real>, rates: seq<real>)
    requires opts.timestep > 0.0 && |s1| == |layout| && |s2| == |layout| && Canopy in layout && |rates| >= 1
    requires AgreeOnCompartments(layout, s1, s2, DripStateVars())
    ensures DripRatesOfChange(kind, hru, opts, layout, StateVarIndex(layout, Canopy), s1, rates)
         == DripRatesOfChange(kind, hru, opts, layout, StateVarIndex(layout, Canopy), s2, rates)
  {
    var c := StateVarIndex(layout, Canopy);
    assert DripStateVars()[0].sv == Canopy;
    assert layout[c] in DeclaredTypes(DripStateVars());
  }

  /** The proposed drip depends on the HRU only through the parameters the
      sub-model declares (besides the coverage test Fc != 0 and the unit
      type); Rutter drip reads no drip proportion, slow drain no stemflow.
      Both read the time-varying capacity derived from the declared maximum
      capacity, so that capacity is a hypothesis of its own. */
  lemma DripReadsOnlyDeclaredParams(kind: CanDripType, h1: Hru, h2: Hru, opts: Options,
                                    trunkModelled: bool, stor: real)
    requires opts.timestep > 0.0 && h1.forestCoverage != 0.0 && h2.forestCoverage != 0.0
    requires h1.capacity == h2.capacity
    requires AgreeOnParams(h1, h2, DripParams(kind))
    ensures DripRate(kind, h1, opts, trunkModelled, stor) == DripRate(kind, h2, opts, trunkModelled, stor)
  {
    var ps := DripParams(kind);
    assert HruParam(h1, ps[0].name) == HruParam(h2, ps[0].name);
    assert HruParam(h1, ps[1].name) == HruParam(h2, ps[1].name);
    assert HruParam(h1, ps[2].name) == HruParam(h2, ps[2].name);
  }

  /** The drip correction: cap at storage/timestep, nothing else. */
  function DripConstrained(proposed: real, storage: real, ts: real): (r: real)
    requires ts > 0.0
    ensures r <= storage / ts && r <= proposed
    ensures r == proposed || r == storage / ts
  {
    ThreshMin(proposed, storage / ts, 0.0)
  }

  /** Correcting a corrected drip rate changes nothing, and a corrected
      non-negative drip never overdraws a non-negative canopy. */
  lemma DripConstraintSound(proposed: real, storage: real, ts: real)
    requires ts > 0.0
    ensures DripConstrained(DripConstrained(proposed, storage, ts), storage, ts) == DripConstrained(proposed, storage, ts)
    ensures storage >= 0.0 && proposed >= 0.0 ==>
      0.0 <= storage - DripConstrained(proposed, storage, ts) * ts <= storage
  {
    var c := DripConstrained(proposed, storage, ts);
    if storage >= 0.0 && proposed >= 0.0 {
      assert storage / ts >= 0.0;
      assert c >= 0.0;
      CappedWithdrawalKeepsStorage(storage, c, ts);
    }
  }

  /** Loss of water from the canopy to a destination chosen by the caller
      (typically ponded water). */
  class CanopyDrip {
    const kind: CanDripType
    /** The one connection, canopy -> destination. */
    const iFrom: seq<int>
    const iTo: seq<int>

    predicate Valid()
    {
      |iFrom| == 1 && |iTo| == 1 && iTo[0] != DOESNT_EXIST
    }

    /** The destination index must name a compartment (see NewCanopyDrip). */
    constructor (kind: CanDripType, toIndex: int, layout: Layout)
      requires toIndex != DOESNT_EXIST
      ensures Valid() && this.kind == kind
      ensures iFrom == [StateVarIndex(layout, Canopy)] && iTo == [toIndex]
    {
      this.kind := kind;
      iFrom := [StateVarIndex(layout, Canopy)];
      iTo := [toIndex];
    }

    /** Construction with the check on the destination: an absent
        destination is a configuration error. */
    static method NewCanopyDrip(kind: CanDripType, toIndex: int, layout: Layout) returns (r: Result<CanopyDrip>)
      ensures r.Failure? <==> toIndex == DOESNT_EXIST
      ensures r.Failure? ==> r.error == BadData
      ensures r.Success? ==> fresh(r.value) && r.value.Valid() && r.value.kind == kind
      ensures r.Success? ==> r.value.iFrom == [StateVarIndex(layout, Canopy)] && r.value.iTo == [toIndex]
    {
      if toIndex == DOESNT_EXIST {
        return Failure(BadData);
      }
      var d := new CanopyDrip(kind, toIndex, layout);
      return Success(d);
    }

    /** The one connection must come from the canopy. */
    method Initialize(layout: Layout) returns (r: Outcome)
      requires Valid()
      ensures r == Pass <==> StateVarType(layout, iFrom[0]) == Some(Canopy)
      ensures r == Pass || r == Fail(BadData)
    {
      if StateVarType(layout, iFrom[0]) != Some(Canopy) {
        return Fail(BadData);
      }
      return Pass;
    }

    method GetParticipatingParamList(aP: array<string>, aPC: array<ParamClass>) returns (nP: int)
      requires aP.Length >= 3 && aPC.Length >= 3
      modifies aP, aPC
      ensures nP == |DripParams(kind)|
      ensures forall i :: 0 <= i < nP ==> aP[i] == ParamText(DripParams(kind)[i].name) && aPC[i] == DripParams(kind)[i].cls
      ensures aP[nP..] == old(aP[nP..]) && aPC[nP..] == old(aPC[nP..])
    {
      match kind {
        case CandripRutter =>
          nP := 3;
          aP[0] := "FOREST_COVERAGE"; aPC[0] := ClassLanduse;
          aP[1] := "MAX_CAPACITY"; aPC[1] := ClassVegetation;
          aP[2] := "STEMFLOW_FRAC"; aPC[2] := ClassVegetation;
        case CandripSlowdrain =>
          nP := 3;
          aP[0] := "DRIP_PROPORTION"; aPC[0] := ClassVegetation;
          aP[1] := "MAX_CAPACITY"; aPC[1] := ClassVegetation;
          aP[2] := "FOREST_COVERAGE"; aPC[2] := ClassLanduse;
      }
    }

    /** Only the canopy, whatever the sub-model. */
    static method GetParticipatingStateVarList(kind: CanDripType, aSV: array<SvType>, aLev: array<int>) returns (nSV: int)
      requires aSV.Length >= 1 && aLev.Length >= 1
      modifies aSV, aLev
      ensures nSV == |DripStateVars()|
      ensures forall i :: 0 <= i < nSV ==> aSV[i] == DripStateVars()[i].sv && aLev[i] == DripStateVars()[i].level
      ensures aSV[nSV..] == old(aSV[nSV..]) && aLev[nSV..] == old(aLev[nSV..])
    {
      nSV := 1;
      aSV[0] := Canopy; aLev[0] := DOESNT_EXIST;
    }

    /** The arithmetic of GetRatesOfChange on a canopy-hosting HRU with
        forest cover, step by step. */
    static method ProposeDrip(kind: CanDripType, hru: Hru, opts: Options, trunkModelled: bool, stor: real)
      returns (rate: real)
      requires opts.timestep > 0.0 && hru.forestCoverage != 0.0
      ensures rate == DripRate(kind, hru, opts, trunkModelled, stor)
    {
      var fc := hru.forestCoverage;
      var cap := hru.capacity;
      var overflow := (stor - fc * cap) / opts.timestep;
      match kind {
        case CandripRutter =>
          var p := hru.stemflowFrac;
          if !trunkModelled {
            p := 0.0;
          }
          rate := (1.0 - p) * ThreshMax(overflow, 0.0, 0.0);
        case CandripSlowdrain =>
          var drip := hru.dripProportion;
          rate := ThreshPositive(overflow) + ThreshMin(drip * (stor / fc), stor / fc / opts.timestep, 0.0);
      }
    }

    /** Writes the proposed drip into rates[0]; changes nothing else. */
    method GetRatesOfChange(state: array<real>, hru: Hru, opts: Options, layout: Layout, rates: array<real>)
      requires Valid() && opts.timestep > 0.0
      requires state.Length == |layout| && 0 <= iFrom[0] < state.Length
      requires rates.Length >= 1 && rates != state
      modifies rates
      ensures rates[..] == DripRatesOfChange(kind, hru, opts, layout, iFrom[0], state[..], old(rates[..]))
      ensures state[..] == old(state[..])
    {
      if !HostsCanopy(hru.hruType) {
        return;
      }
      rates[0] := 0.0;
      var fc := hru.forestCoverage;
      if fc == 0.0 {
        return;
      }
      var rate := ProposeDrip(kind, hru, opts, StateVarIndex(layout, Trunk) >= 0, state[iFrom[0]]);
      rates[0] := rate;
    }

    /** Caps the drip at canopy storage/timestep; changes nothing else. */
    method ApplyConstraints(state: array<real>, hru: Hru, opts: Options, rates: array<real>)
      requires Valid() && opts.timestep > 0.0
      requires 0 <= iFrom[0] < state.Length
      requires rates.Length >= 1 && rates != state
      modifies rates
      ensures !HostsCanopy(hru.hruType) ==> rates[..] == old(rates[..])
      ensures HostsCanopy(hru.hruType) ==>
        rates[..] == old(rates[..])[0 := DripConstrained(old(rates[0]), state[iFrom[0]], opts.timestep)]
      ensures state[..] == old(state[..])
    {
      if !HostsCanopy(hru.hruType) {
        return;
      }
      rates[0] := ThreshMin(rates[0], state[iFrom[0]] / opts.timestep, 0.0);
    }
  }
}
