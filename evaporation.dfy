/** Potential evapotranspiration (PET): the method classification, the
    dispatcher that estimates PET for one HRU by the configured method, and
    the non-negativity floors of the formula helpers. The physical inner
    expressions of the formulas (saturation vapour pressure, psychrometric
    constant, radiation, square roots and other transcendental functions)
    are given as precomputed terms; the switch, the clamps, the recursion
    through the infill and blended methods and the error paths are modelled
    exactly. */
module Evaporation {
  import opened RavenContext

  /** Latent heat of vaporization [MJ/kg] and density of water [kg/m3]. */
  const LH_VAPOR: real := 2.5
  const DENSITY_WATER: real := 1000.0

  /** The PET estimation methods. `PetOther` stands for every further value
      of the method enumeration, none of which the dispatcher handles. */
  datatype EvapMethod =
    | PetConstant | PetNone | PetLinearTemp | PetData | PetBlended
    | PetFromMonthly | PetMonthlyFactor | PetPenmanMonteith | PetPenmanCombination
    | PetJensenHaise | PetHamon | PetPriestleyTaylor | PetHargreaves | PetHargreaves1985
    | PetTurc1961 | PetMakkink1957 | PetShuttleworthWallace | PetPenmanSimple33
    | PetPenmanSimple39 | PetMohyse | PetOudin | PetLinacre | PetGrangerGray
    | PetOther(id: nat)

  /** The methods that estimate a daily value (so that no sub-daily
      correction is applied to them). */
  function IsDailyPetMethod(m: EvapMethod): (daily: bool)
    ensures daily <==> m in {PetLinacre, PetMonthlyFactor, PetFromMonthly, PetTurc1961,
                             PetJensenHaise, PetHamon, PetLinearTemp, PetConstant}
    ensures m in {PetOudin, PetHargreaves, PetHargreaves1985, PetData} ==> !daily
  {
    match m
    case PetLinacre => true
    case PetMonthlyFactor => true
    case PetFromMonthly => true
    case PetTurc1961 => true
    case PetJensenHaise => true
    case PetHamon => true
    case PetLinearTemp => true
    case PetConstant => true
    case _ => false
  }

  /** The forcing values of one HRU over the current time step. */
  datatype Forcing = Forcing(
    tempAve: real,        // [C]
    tempDailyAve: real,   // [C]
    tempDailyMax: real,   // [C]
    tempDailyMin: real,   // [C]
    tempAveUnc: real,     // uncorrected average temperature [C]
    tempMaxUnc: real,     // uncorrected maximum temperature [C]
    tempMonthAve: real,   // [C]
    tempMonthMax: real,   // [C], NOT_SPECIFIED when not given
    swRadia: real,        // incoming shortwave radiation [MJ/m2/d]
    swRadiaNet: real,     // net shortwave radiation [MJ/m2/d]
    lwRadiaNet: real,     // net longwave radiation [MJ/m2/d]
    etRadia: real,        // extraterrestrial radiation [MJ/m2/d]
    relHumidity: real,    // [0..1]
    pet: real,            // gauge PET [mm/d], RAV_BLANK_DATA when missing
    owPet: real,          // gauge open-water PET [mm/d], RAV_BLANK_DATA when missing
    petMonthAve: real)    // monthly PET, or monthly evaporation factor [mm/d/K]

  /** The HRU properties the dispatcher reads. */
  datatype Site = Site(
    petLinCoeff: real,        // [mm/d/C]
    forestPetCorr: real,
    forestCoverage: real,
    elevation: real,          // [masl]
    refElevation: real,       // reference elevation of the forcing [masl]
    canopyConductance: real,  // [mm/s]
    vegCorr: real)            // final PET multiplier of the vegetation class

  /** The physical inner expressions of the formulas, evaluated outside the
      model. Where the code clamps an argument before the physics, the term
      is a function of the clamped argument. */
  datatype PhysicsTerms = PhysicsTerms(
    makkinkSlopeRatio: real,             // de*/dT / (de*/dT + gamma)
    penmanMonteithRate: real,            // numerator/denominator in mm/d
    penmanCombinationRatio: real,        // numerator/denominator
    priestleyTaylorRate: real,
    hargreavesCore: real,                // 0.0075·Ra·Ct·sqrt(delT)·T[F]
    hargreaves1985Core: real -> real,    // of the floored daily range delT
    hamonRate: real,
    sqrtTemp: real,                      // sqrt(tempAve + 9.5)
    radiationRatio: real,                // swRadia / etRadia
    mohyseCore: real,
    linacreCore: real -> real,           // of the open-water/land coefficient
    grangerGrayCore: real)               // the Granger-Gray estimate for positive net radiation

  /** The outcome of a PET computation: a rate [mm/d], or the error code of
      the fatal exit that ends the run. */
  datatype PetResult = Computed(value: real) | Aborted(error: Error)

  /** One entry of the blended-PET list. */
  datatype Blend = Blend(kind: EvapMethod, weight: real)

  /** The model-wide PET options: the infill methods for blank gauge data,
      the blend list, the temperature correction of the monthly method and
      the switch reproducing a reference-elevation quirk of the UBC
      watershed model (with the elevation it then uses). */
  datatype PetConfig = PetConfig(
    evapInfill: EvapMethod,
    owEvapInfill: EvapMethod,
    blends: seq<Blend>,
    hbvPetTempCorr: real,
    keepUbcwmBugs: bool,
    ubcwmRefElevation: real)

  datatype PetInput = PetInput(forcing: Forcing, site: Site, terms: PhysicsTerms)

  //================================================================
  // Formula helpers
  //================================================================

  function Makkink1957(f: Forcing, t: PhysicsTerms): (pet: real)
    ensures pet >= 0.0
    ensures pet == 0.0 || pet == 0.61 * t.makkinkSlopeRatio * f.swRadia * 23.8846 / 58.5 - 0.12
  {
    Max(0.0, 0.61 * t.makkinkSlopeRatio * f.swRadia * 23.8846 / 58.5 - 0.12)
  }

  /** Turc (1961), written out in full: a temperature-limited radiation
      formula with a dry-air enhancement below 50% relative humidity. */
  function Turc1961(f: Forcing): (pet: real)
    ensures pet >= 0.0
  {
    var t := Max(0.0, f.tempDailyAve);
    var evp := 0.013 * t / (t + 15.0) * (f.swRadia * 23.8846 + 50.0);
    var evp' := if f.relHumidity < 0.5 then evp * (1.0 + (50.0 - f.relHumidity * 100.0) / 70.0) else evp;
    Max(0.0, evp')
  }

  /** Below freezing the Turc estimate is zero. */
  lemma TurcZeroBelowFreezing(f: Forcing)
    requires f.tempDailyAve <= 0.0
    ensures Turc1961(f) == 0.0
  {
    assert Max(0.0, f.tempDailyAve) == 0.0;
    assert 0.013 * 0.0 / (0.0 + 15.0) == 0.0;
  }

  /** Penman-Monteith: zero canopy conductance means no evapotranspiration. */
  function PenmanMonteith(s: Site, t: PhysicsTerms): (pet: real)
    ensures s.canopyConductance == 0.0 ==> pet == 0.0
    ensures s.canopyConductance != 0.0 ==> pet == t.penmanMonteithRate
  {
    if s.canopyConductance == 0.0 then 0.0 else t.penmanMonteithRate
  }

  function PenmanCombination(t: PhysicsTerms): (pet: real)
    ensures pet >= 0.0
    ensures t.penmanCombinationRatio <= 0.0 ==> pet == 0.0
  {
    Max(0.0, t.penmanCombinationRatio) * MM_PER_METER
  }

  /** Hargreaves needs the monthly temperature range. */
  function Hargreaves(f: Forcing, t: PhysicsTerms): (r: PetResult)
    ensures r.Aborted? <==> f.tempMonthMax == NOT_SPECIFIED
    ensures r.Aborted? ==> r.error == BadData
    ensures r.Computed? ==> r.value >= 0.0 && r.value >= t.hargreavesCore
  {
    if f.tempMonthMax == NOT_SPECIFIED then Aborted(BadData)
    else Computed(Max(0.0, t.hargreavesCore))
  }

  /** Hargreaves (1985): the daily temperature range is floored at zero
      before it enters the formula. */
  function Hargreaves1985(f: Forcing, t: PhysicsTerms): (pet: real)
    ensures pet >= 0.0
    ensures f.tempDailyMax <= f.tempDailyMin ==> pet == Max(0.0, t.hargreaves1985Core(0.0))
  {
    var delT := Max(f.tempDailyMax - f.tempDailyMin, 0.0);
    Max(0.0, t.hargreaves1985Core(delT))
  }

  /** The linear-temperature method: a coefficient times the non-negative
      part of the daily average temperature. */
  function LinearTemp(f: Forcing, s: Site): (pet: real)
    ensures f.tempDailyAve <= 0.0 ==> pet == 0.0
    ensures f.tempDailyAve >= 0.0 ==> pet == s.petLinCoeff * f.tempDailyAve
    ensures s.petLinCoeff >= 0.0 ==> pet >= 0.0
  {
    s.petLinCoeff * Max(f.tempDailyAve, 0.0)
  }

  /** The monthly method: monthly PET scaled by a temperature ratio that is
      clamped to [0, 2]. */
  function FromMonthly(f: Forcing, hbvPetTempCorr: real): (pet: real)
    ensures f.petMonthAve >= 0.0 ==> 0.0 <= pet <= 2.0 * f.petMonthAve
    ensures f.tempAveUnc == f.tempMonthAve ==> pet == f.petMonthAve
  {
    var peRatio := 1.0 + hbvPetTempCorr * (f.tempAveUnc - f.tempMonthAve);
    var clamped := Max(0.0, Min(2.0, peRatio));
    MulNonNegative(f.petMonthAve, clamped);
    MulNonNegative(f.petMonthAve, 2.0 - clamped);
    f.petMonthAve * clamped
  }

  /** The monthly-factor method of the UBC watershed model: monthly
      evaporation factors times the maximum temperature, with an orographic
      correction, scaled by a forest correction and floored at zero. */
  function MonthlyFactor(f: Forcing, s: Site, cfg: PetConfig): (pet: real)
    ensures pet >= 0.0
    ensures var refElev := if cfg.keepUbcwmBugs then cfg.ubcwmRefElevation else s.refElevation;
      var raw := f.petMonthAve * f.tempMaxUnc + 0.9 * 0.001 * (refElev - s.elevation);
      s.forestCoverage == 0.0 && raw >= 0.0 ==> pet == raw
  {
    var forestCorr := s.forestPetCorr * s.forestCoverage + 1.0 * (1.0 - s.forestCoverage);
    var refElev := if cfg.keepUbcwmBugs then cfg.ubcwmRefElevation else s.refElevation;
    var orographic := 0.9 * 0.001 * (refElev - s.elevation);
    Max(forestCorr * (f.petMonthAve * f.tempMaxUnc + orographic), 0.0)
  }

  /** The simplified Penman equations (equations 33 and 39 of Valiantzas,
      2006) differ only in two coefficients. */
  function PenmanSimple(a: real, b: real, f: Forcing, t: PhysicsTerms): (pet: real)
    ensures pet >= 0.0
  {
    var raw := a * f.swRadia * t.sqrtTemp - 2.4 * (t.radiationRatio * t.radiationRatio)
             + b * (f.tempAve + 20.0) * (1.0 - f.relHumidity);
    Max(raw, 0.0)
  }

  function Mohyse(t: PhysicsTerms): (pet: real)
    ensures pet >= 0.0 && pet >= t.mohyseCore
  {
    Max(t.mohyseCore, 0.0)
  }

  /** Oudin: extraterrestrial radiation in mm/d scaled by (T + 5)/100,
      floored at zero; zero at or below -5 C for non-negative radiation. */
  function Oudin(f: Forcing): (pet: real)
    ensures pet >= 0.0
    ensures f.etRadia >= 0.0 && f.tempDailyAve <= -5.0 ==> pet == 0.0
  {
    var radMm := f.etRadia / DENSITY_WATER / LH_VAPOR * MM_PER_METER;
    assert f.etRadia >= 0.0 && f.tempDailyAve <= -5.0 ==> radMm * (f.tempDailyAve + 5.0) <= 0.0;
    Max(radMm * (f.tempDailyAve + 5.0) / 100.0, 0.0)
  }

  /** Linacre (1977): the coefficient is 700 over open water and 500 over land. */
  function LinacreCoefficient(openWater: bool): (k: real)
    ensures openWater <==> k == 700.0
    ensures !openWater <==> k == 500.0
  {
    if openWater then 700.0 else 500.0
  }

  function Linacre(t: PhysicsTerms, openWater: bool): (pet: real)
    ensures pet >= 0.0 && pet >= t.linacreCore(LinacreCoefficient(openWater))
  {
    Max(t.linacreCore(LinacreCoefficient(openWater)), 0.0)
  }

  /** Granger-Gray: without positive net radiation (after a tenth goes to
      the ground flux) the estimate is zero. */
  function GrangerGray(f: Forcing, t: PhysicsTerms): (pet: real)
    ensures pet >= 0.0
    ensures f.swRadiaNet + f.lwRadiaNet <= 0.0 ==> pet == 0.0
  {
    var rnet := (f.swRadiaNet + f.lwRadiaNet) * (1.0 - 0.1);
    var raw := if rnet > 0.0 then t.grangerGrayCore else 0.0;
    Max(raw, 0.0)
  }

  /** The drying power f(u) of Granger and Gray [mm/d/kPa] for wind speed
      `windVel` [m/s] through a canopy of height `vegHt` [m]; the roughness
      height is vegHt [cm] / 7.6. */
  function DryingPower(windVel: real, vegHt: real): (r: real)
  {
    var z0 := (vegHt * CM_PER_METER) / 7.6;
    (8.19 + 0.22 * z0) + (1.16 + 0.08 * z0) * windVel
  }

  /** The drying power is at least its still-air bare-ground value 8.19,
      grows with the wind, and equals 8.19 + 1.16·u without vegetation. */
  lemma DryingPowerBounds(windVel: real, windVel': real, vegHt: real)
    requires windVel >= 0.0 && vegHt >= 0.0 && windVel <= windVel'
    ensures DryingPower(windVel, vegHt) >= 8.19
    ensures DryingPower(windVel, vegHt) <= DryingPower(windVel', vegHt)
    ensures DryingPower(windVel, 0.0) == 8.19 + 1.16 * windVel
  {
    var z0 := (vegHt * CM_PER_METER) / 7.6;
    assert z0 >= 0.0;
    assert (1.16 + 0.08 * z0) * windVel >= 0.0;
    assert (1.16 + 0.08 * z0) * (windVel' - windVel) >= 0.0;
  }

  //================================================================
  // The dispatcher
  //================================================================

  /** The methods whose branch value the code floors at zero (or sets to a
      non-negative constant). */
  predicate FlooredMethod(m: EvapMethod)
  {
    m in {PetConstant, PetNone, PetMonthlyFactor, PetPenmanCombination, PetHargreaves,
          PetHargreaves1985, PetTurc1961, PetMakkink1957, PetPenmanSimple33,
          PetPenmanSimple39, PetMohyse, PetOudin, PetLinacre, PetGrangerGray}
  }

  /** The methods with no branch implementation: two stubs and every value
      outside the switch. */
  predicate Unimplemented(m: EvapMethod)
  {
    m == PetJensenHaise || m == PetShuttleworthWallace || m.PetOther?
  }

  /** The branch value of every method that does not call the dispatcher
      again (all but gauge data and blending), before the negativity check
      and the vegetation multiplier. */
  function DirectBranch(m: EvapMethod, inp: PetInput, cfg: PetConfig, openWater: bool): (r: PetResult)
    requires !m.PetData? && !m.PetBlended?
    ensures r.Aborted? <==> Unimplemented(m) || (m == PetHargreaves && inp.forcing.tempMonthMax == NOT_SPECIFIED)
    ensures r.Aborted? ==> r.error == (if m == PetJensenHaise || m == PetShuttleworthWallace then Stub else BadData)
    ensures r.Computed? && FlooredMethod(m) ==> r.value >= 0.0
    ensures m == PetConstant ==> r == Computed(3.0)
    ensures m == PetNone ==> r == Computed(0.0)
  {
    var f, s, t := inp.forcing, inp.site, inp.terms;
    match m
    case PetConstant => Computed(3.0)
    case PetNone => Computed(0.0)
    case PetLinearTemp => Computed(LinearTemp(f, s))
    case PetFromMonthly => Computed(FromMonthly(f, cfg.hbvPetTempCorr))
    case PetMonthlyFactor => Computed(MonthlyFactor(f, s, cfg))
    case PetPenmanMonteith => Computed(PenmanMonteith(s, t))
    case PetPenmanCombination => Computed(PenmanCombination(t))
    case PetJensenHaise => Aborted(Stub)
    case PetHamon => Computed(t.hamonRate)
    case PetPriestleyTaylor => Computed(t.priestleyTaylorRate)
    case PetHargreaves => Hargreaves(f, t)
    case PetHargreaves1985 => Computed(Hargreaves1985(f, t))
    case PetTurc1961 => Computed(Turc1961(f))
    case PetMakkink1957 => Computed(Makkink1957(f, t))
    case PetShuttleworthWallace => Aborted(Stub)
    case PetPenmanSimple33 => Computed(PenmanSimple(0.047, 0.09, f, t))
    case PetPenmanSimple39 => Computed(PenmanSimple(0.038, 0.075, f, t))
    case PetMohyse => Computed(Mohyse(t))
    case PetOudin => Computed(Oudin(f))
    case PetLinacre => Computed(Linacre(t, openWater))
    case PetGrangerGray => Computed(GrangerGray(f, t))
    case PetOther(_) => Aborted(BadData)
  }

  /** The gauge value the data method reads. */
  function GaugePet(f: Forcing, openWater: bool): real
  {
    if openWater then f.owPet else f.pet
  }

  /** The infill method for blank gauge data. */
  function InfillMethod(cfg: PetConfig, openWater: bool): EvapMethod
  {
    if openWater then cfg.owEvapInfill else cfg.evapInfill
  }

  /** The dispatcher terminates within `depth` nested calls: blank gauge data
      and blending each call it once more. A configuration whose infill or
      blend list leads back to itself has no such depth. */
  ghost predicate Terminates(cfg: PetConfig, inp: PetInput, m: EvapMethod, openWater: bool, depth: nat)
    decreases depth
  {
    if m.PetData? then
      GaugePet(inp.forcing, openWater) == RAV_BLANK_DATA ==>
        depth > 0 && Terminates(cfg, inp, InfillMethod(cfg, openWater), openWater, depth - 1)
    else if m.PetBlended? then
      depth > 0 && forall j :: 0 <= j < |cfg.blends| ==> Terminates(cfg, inp, cfg.blends[j].kind, openWater, depth - 1)
    else true
  }

  /** A further call depth never hurts. */
  lemma {:induction false} TerminatesMonotone(cfg: PetConfig, inp: PetInput, m: EvapMethod, openWater: bool, depth: nat, depth': nat)
    requires Terminates(cfg, inp, m, openWater, depth) && depth <= depth'
    ensures Terminates(cfg, inp, m, openWater, depth')
    decreases depth
  {
    match m
    case PetData =>
      if GaugePet(inp.forcing, openWater) == RAV_BLANK_DATA {
        TerminatesMonotone(cfg, inp, InfillMethod(cfg, openWater), openWater, depth - 1, depth' - 1);
      }
    case PetBlended =>
      forall j | 0 <= j < |cfg.blends|
        ensures Terminates(cfg, inp, cfg.blends[j].kind, openWater, depth' - 1)
      {
        TerminatesMonotone(cfg, inp, cfg.blends[j].kind, openWater, depth - 1, depth' - 1);
      }
    case _ =>
  }

  /** The last step of the dispatcher: an error passes through, a value
      below -REAL_SMALL is an error, any other value is multiplied by the
      vegetation multiplier. */
  function Finish(branch: PetResult, vegCorr: real): (r: PetResult)
    ensures r.Aborted? <==> branch.Aborted? || branch.value < -REAL_SMALL
    ensures r.Aborted? ==> r.error == if branch.Aborted? then branch.error else RuntimeError
    ensures r.Computed? ==> r == Computed(branch.value * vegCorr)
    ensures r.Computed? && branch.value >= 0.0 && vegCorr >= 0.0 ==> r.value >= 0.0
  {
    match branch
    case Aborted(e) => Aborted(e)
    case Computed(v) => if v < -REAL_SMALL then Aborted(RuntimeError) else Computed(v * vegCorr)
  }

  /** The PET the dispatcher returns for method `m`: its branch value,
      finished by the negativity check and the vegetation multiplier. */
  function PetSpec(cfg: PetConfig, inp: PetInput, m: EvapMethod, openWater: bool, depth: nat): PetResult
    requires Terminates(cfg, inp, m, openWater, depth)
    decreases depth, 2
  {
    Finish(PetBranch(cfg, inp, m, openWater, depth), inp.site.vegCorr)
  }

  /** The branch value of the dispatcher for method `m`. The data method
      replaces blank gauge data by the (already multiplied) result of the
      infill method; the blended method sums the weighted (already
      multiplied) results of its list. */
  function PetBranch(cfg: PetConfig, inp: PetInput, m: EvapMethod, openWater: bool, depth: nat): PetResult
    requires Terminates(cfg, inp, m, openWater, depth)
    decreases depth, 1
  {
    if m.PetData? then
      var v := GaugePet(inp.forcing, openWater);
      if v == RAV_BLANK_DATA then PetSpec(cfg, inp, InfillMethod(cfg, openWater), openWater, depth - 1)
      else Computed(v)
    else if m.PetBlended? then
      if |cfg.blends| == 0 then Aborted(BadData)
      else BlendFold(BlendResults(cfg, inp, openWater, depth), cfg.blends, 0.0, 0)
    else DirectBranch(m, inp, cfg, openWater)
  }

  /** The results of the dispatcher for each entry of the blend list, one
      level deeper. */
  function BlendResults(cfg: PetConfig, inp: PetInput, openWater: bool, depth: nat): (rs: seq<PetResult>)
    requires depth > 0
    requires forall j :: 0 <= j < |cfg.blends| ==> Terminates(cfg, inp, cfg.blends[j].kind, openWater, depth - 1)
    ensures |rs| == |cfg.blends|
    decreases depth, 0
  {
    seq(|cfg.blends|, j requires 0 <= j < |cfg.blends| => PetSpec(cfg, inp, cfg.blends[j].kind, openWater, depth - 1))
  }

  /** The blended sum of `results` from entry `i` on, starting from `acc`:
      a left fold that stops at the first failure. */
  function BlendFold(results: seq<PetResult>, blends: seq<Blend>, acc: real, i: nat): PetResult
    requires |results| == |blends| && i <= |results|
    decreases |results| - i
  {
    if i == |results| then Computed(acc)
    else
      match results[i]
      case Aborted(e) => Aborted(e)
      case Computed(v) => BlendFold(results, blends, acc + Contribution(blends[i], v), i + 1)
  }

  /** What one blend entry adds to the blended PET. */
  function Contribution(b: Blend, pet: real): real
  {
    b.weight * pet
  }

  /** Reference definition: the sum of blends[k].weight · values[k]. */
  function WeightedSum(blends: seq<Blend>, values: seq<real>): real
    requires |blends| == |values|
  {
    if |blends| == 0 then 0.0 else Contribution(blends[0], values[0]) + WeightedSum(blends[1..], values[1..])
  }

  /** When every result succeeds, the fold computes the weighted sum of
      their values. */
  lemma {:induction false} BlendFoldIsWeightedSum(results: seq<PetResult>, blends: seq<Blend>, values: seq<real>,
                                                 acc: real, i: nat)
    requires |results| == |blends| == |values| && i <= |results|
    requires forall j :: 0 <= j < |results| ==> results[j] == Computed(values[j])
    ensures BlendFold(results, blends, acc, i) == Computed(acc + WeightedSum(blends[i..], values[i..]))
    decreases |results| - i
  {
    if i == |results| {
      assert blends[i..] == [];
    } else {
      var acc' := acc + Contribution(blends[i], results[i].value);
      assert BlendFold(results, blends, acc, i) == BlendFold(results, blends, acc', i + 1);
      assert results[i] == Computed(values[i]);
      assert acc' == acc + Contribution(blends[i], values[i]);
      BlendFoldIsWeightedSum(results, blends, values, acc', i + 1);
      assert blends[i..][1..] == blends[i + 1..] && values[i..][1..] == values[i + 1..];
      assert WeightedSum(blends[i..], values[i..]) == Contribution(blends[i], values[i]) + WeightedSum(blends[i + 1..], values[i + 1..]);
    }
  }

  /** One step of the fold over a computed result. */
  lemma BlendFoldStep(results: seq<PetResult>, blends: seq<Blend>, acc: real, i: nat, v: real)
    requires |results| == |blends| && i < |results| && results[i] == Computed(v)
    ensures BlendFold(results, blends, acc, i) == BlendFold(results, blends, acc + Contribution(blends[i], v), i + 1)
  {
  }

  /** When some result fails, the fold fails with the first failure. */
  lemma {:induction false} BlendFoldStopsAtFirstFailure(results: seq<PetResult>, blends: seq<Blend>, k: nat, acc: real, i: nat)
    requires |results| == |blends| && i <= k < |results|
    requires forall j :: i <= j < k ==> results[j].Computed?
    requires results[k].Aborted?
    ensures BlendFold(results, blends, acc, i) == results[k]
    decreases k - i
  {
    if i < k {
      BlendFoldStopsAtFirstFailure(results, blends, k, acc + Contribution(blends[i], results[i].value), i + 1);
    }
  }

  /** The blended method: with a non-empty list whose entries all succeed,
      the weighted sum of their (already multiplied) results, checked for
      negativity and multiplied by the vegetation multiplier once more. */
  lemma {:induction false} BlendedIsWeightedSum(cfg: PetConfig, inp: PetInput, openWater: bool, depth: nat, values: seq<real>)
    requires Terminates(cfg, inp, PetBlended, openWater, depth)
    requires |cfg.blends| > 0 && |values| == |cfg.blends|
    requires forall j :: 0 <= j < |cfg.blends| ==> PetSpec(cfg, inp, cfg.blends[j].kind, openWater, depth - 1) == Computed(values[j])
    ensures var sum := WeightedSum(cfg.blends, values);
      PetSpec(cfg, inp, PetBlended, openWater, depth)
        == if sum < -REAL_SMALL then Aborted(RuntimeError) else Computed(sum * inp.site.vegCorr)
  {
    var rs := BlendResults(cfg, inp, openWater, depth);
    assert forall j :: 0 <= j < |rs| ==> rs[j] == Computed(values[j]);
    BlendFoldIsWeightedSum(rs, cfg.blends, values, 0.0, 0);
    assert cfg.blends[0..] == cfg.blends && values[0..] == values;
    assert PetBranch(cfg, inp, PetBlended, openWater, depth) == Computed(WeightedSum(cfg.blends, values));
  }

  /** The blended method fails with the error of the first entry that fails. */
  lemma {:induction false} BlendedFailsAtFirstFailure(cfg: PetConfig, inp: PetInput, openWater: bool, depth: nat, k: nat)
    requires Terminates(cfg, inp, PetBlended, openWater, depth) && k < |cfg.blends|
    requires forall j :: 0 <= j < k ==> PetSpec(cfg, inp, cfg.blends[j].kind, openWater, depth - 1).Computed?
    requires PetSpec(cfg, inp, cfg.blends[k].kind, openWater, depth - 1).Aborted?
    ensures PetSpec(cfg, inp, PetBlended, openWater, depth) == PetSpec(cfg, inp, cfg.blends[k].kind, openWater, depth - 1)
  {
    var rs := BlendResults(cfg, inp, openWater, depth);
    BlendFoldStopsAtFirstFailure(rs, cfg.blends, k, 0.0, 0);
  }

  /** Blank gauge data is replaced by the infill method's result, which the
      data branch multiplies by the vegetation multiplier a second time. */
  lemma DataInfill(cfg: PetConfig, inp: PetInput, openWater: bool, depth: nat)
    requires Terminates(cfg, inp, PetData, openWater, depth)
    requires GaugePet(inp.forcing, openWater) == RAV_BLANK_DATA
    ensures var infill := PetSpec(cfg, inp, InfillMethod(cfg, openWater), openWater, depth - 1);
      && (infill.Aborted? ==> PetSpec(cfg, inp, PetData, openWater, depth) == infill)
      && (infill.Computed? && infill.value >= -REAL_SMALL ==>
            PetSpec(cfg, inp, PetData, openWater, depth) == Computed(infill.value * inp.site.vegCorr))
  {
    var infill := PetSpec(cfg, inp, InfillMethod(cfg, openWater), openWater, depth - 1);
    assert PetBranch(cfg, inp, PetData, openWater, depth) == infill;
  }

  /** Gauge data that is not blank is the branch value itself: the open-water
      series for open water, the ordinary series otherwise. */
  lemma GaugeDataUsed(cfg: PetConfig, inp: PetInput, openWater: bool, depth: nat)
    requires GaugePet(inp.forcing, openWater) != RAV_BLANK_DATA
    ensures Terminates(cfg, inp, PetData, openWater, depth)
    ensures PetSpec(cfg, inp, PetData, openWater, depth)
         == Finish(Computed(if openWater then inp.forcing.owPet else inp.forcing.pet), inp.site.vegCorr)
  {
  }

  /** The blended method with an empty blend list is a fatal data error. */
  lemma EmptyBlendAborts(cfg: PetConfig, inp: PetInput, openWater: bool, depth: nat)
    requires |cfg.blends| == 0 && depth > 0
    ensures Terminates(cfg, inp, PetBlended, openWater, depth)
    ensures PetSpec(cfg, inp, PetBlended, openWater, depth) == Aborted(BadData)
  {
  }

  /** The depth is only a bound on the recursion: any larger bound gives the
      same estimate. */
  lemma {:induction false} PetSpecIgnoresDepth(cfg: PetConfig, inp: PetInput, m: EvapMethod, openWater: bool, depth: nat, depth': nat)
    requires Terminates(cfg, inp, m, openWater, depth) && depth <= depth'
    ensures Terminates(cfg, inp, m, openWater, depth')
    ensures PetSpec(cfg, inp, m, openWater, depth') == PetSpec(cfg, inp, m, openWater, depth)
    decreases depth
  {
    TerminatesMonotone(cfg, inp, m, openWater, depth, depth');
    if m.PetData? {
      if GaugePet(inp.forcing, openWater) == RAV_BLANK_DATA {
        PetSpecIgnoresDepth(cfg, inp, InfillMethod(cfg, openWater), openWater, depth - 1, depth' - 1);
      }
    } else if m.PetBlended? {
      if |cfg.blends| > 0 {
        forall j | 0 <= j < |cfg.blends|
          ensures PetSpec(cfg, inp, cfg.blends[j].kind, openWater, depth' - 1)
               == PetSpec(cfg, inp, cfg.blends[j].kind, openWater, depth - 1)
        {
          PetSpecIgnoresDepth(cfg, inp, cfg.blends[j].kind, openWater, depth - 1, depth' - 1);
        }
        assert BlendResults(cfg, inp, openWater, depth') == BlendResults(cfg, inp, openWater, depth);
      }
    } else {
      assert PetBranch(cfg, inp, m, openWater, depth') == PetBranch(cfg, inp, m, openWater, depth);
    }
  }

  /** With a constant infill method, blank gauge data yields 3·c·c for the
      vegetation multiplier c >= 0. */
  lemma {:induction false} ConstantInfillScaledTwice(cfg: PetConfig, inp: PetInput, openWater: bool, depth: nat)
    requires Terminates(cfg, inp, PetData, openWater, depth) && inp.site.vegCorr >= 0.0
    requires GaugePet(inp.forcing, openWater) == RAV_BLANK_DATA && InfillMethod(cfg, openWater) == PetConstant
    ensures PetSpec(cfg, inp, PetData, openWater, depth) == Computed(3.0 * inp.site.vegCorr * inp.site.vegCorr)
  {
    var c := inp.site.vegCorr;
    assert PetBranch(cfg, inp, PetConstant, openWater, depth - 1) == Computed(3.0);
    assert PetSpec(cfg, inp, PetConstant, openWater, depth - 1) == Computed(3.0 * c);
    assert PetBranch(cfg, inp, PetData, openWater, depth) == Computed(3.0 * c);
  }

  /** Methods with a direct branch: the branch value, an error if it is
      below -REAL_SMALL, otherwise times the vegetation multiplier. */
  lemma DirectMethodResult(cfg: PetConfig, inp: PetInput, m: EvapMethod, openWater: bool, depth: nat)
    requires !m.PetData? && !m.PetBlended?
    ensures Terminates(cfg, inp, m, openWater, depth)
    ensures PetSpec(cfg, inp, m, openWater, depth) == Finish(DirectBranch(m, inp, cfg, openWater), inp.site.vegCorr)
  {
    assert PetBranch(cfg, inp, m, openWater, depth) == DirectBranch(m, inp, cfg, openWater);
  }

  /** The constant method yields 3 and the none method 0, times the multiplier. */
  lemma ConstantAndNone(cfg: PetConfig, inp: PetInput, openWater: bool, depth: nat)
    ensures Terminates(cfg, inp, PetConstant, openWater, depth) && Terminates(cfg, inp, PetNone, openWater, depth)
    ensures PetSpec(cfg, inp, PetConstant, openWater, depth) == Computed(3.0 * inp.site.vegCorr)
    ensures PetSpec(cfg, inp, PetNone, openWater, depth) == Computed(0.0)
  {
  }

  /** Estimates PET [mm/d] for one HRU by method `m`. Blank gauge data is
      filled by the configured infill method and the blended method
      accumulates the weighted estimates of its list; both call the
      estimator again. A fatal exit of the source is an `Aborted` result. */
  method EstimatePet(cfg: PetConfig, inp: PetInput, m: EvapMethod, openWater: bool, ghost depth: nat) returns (r: PetResult)
    requires Terminates(cfg, inp, m, openWater, depth)
    ensures r == PetSpec(cfg, inp, m, openWater, depth)
    decreases depth, 2
  {
    var branch := EstimateBranch(cfg, inp, m, openWater, depth);
    assert PetSpec(cfg, inp, m, openWater, depth) == Finish(branch, inp.site.vegCorr);
    if branch.Aborted? {
      return Aborted(branch.error);
    }
    var pet := branch.value;
    if pet < -REAL_SMALL {
      return Aborted(RuntimeError);
    }
    return Computed(pet * inp.site.vegCorr);
  }

  /** The method-specific part of the estimator, before the negativity check
      and the vegetation multiplier. */
  method EstimateBranch(cfg: PetConfig, inp: PetInput, m: EvapMethod, openWater: bool, ghost depth: nat) returns (r: PetResult)
    requires Terminates(cfg, inp, m, openWater, depth)
    ensures r == PetBranch(cfg, inp, m, openWater, depth)
    decreases depth, 1
  {
    if m.PetData? {
      var pet: real;
      if openWater {
        pet := inp.forcing.owPet;
      } else {
        pet := inp.forcing.pet;
      }
      if pet != RAV_BLANK_DATA {
        return Computed(pet);
      }
      if openWater {
        r := EstimatePet(cfg, inp, cfg.owEvapInfill, true, depth - 1);
      } else {
        r := EstimatePet(cfg, inp, cfg.evapInfill, false, depth - 1);
      }
    } else if m.PetBlended? {
      if |cfg.blends| == 0 {
        return Aborted(BadData);
      }
      r := AccumulateBlend(cfg, inp, openWater, depth);
    } else {
      r := DirectBranch(m, inp, cfg, openWater);
    }
  }

  /** The loop of the blended method: the weighted sum of the estimates of
      the blend list, aborting with the first estimate that aborts. */
  method AccumulateBlend(cfg: PetConfig, inp: PetInput, openWater: bool, ghost depth: nat) returns (r: PetResult)
    requires depth > 0
    requires forall j :: 0 <= j < |cfg.blends| ==> Terminates(cfg, inp, cfg.blends[j].kind, openWater, depth - 1)
    ensures r == BlendFold(BlendResults(cfg, inp, openWater, depth), cfg.blends, 0.0, 0)
    decreases depth, 0
  {
    ghost var results := BlendResults(cfg, inp, openWater, depth);
    var pet := 0.0;
    var i := 0;
    while i < |cfg.blends|
      invariant 0 <= i <= |cfg.blends|
      invariant BlendFold(results, cfg.blends, pet, i) == BlendFold(results, cfg.blends, 0.0, 0)
    {
      var est := EstimatePet(cfg, inp, cfg.blends[i].kind, openWater, depth - 1);
      assert est == results[i];
      if est.Aborted? {
        BlendFoldStopsAtFirstFailure(results, cfg.blends, i, pet, i);
        return Aborted(est.error);
      }
      BlendFoldStep(results, cfg.blends, pet, i, est.value);
      pet := pet + cfg.blends[i].weight * est.value;
      i := i + 1;
    }
    return Computed(pet);
  }
}
