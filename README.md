# Canopy processes and PET estimation of the Raven hydrological framework

This project is a Dafny model of two pieces of the Raven framework's per-HRU
(hydrologic response unit) physics.

- **The canopy mass-transfer processes.** Canopy evaporation, canopy snow
  sublimation and canopy drip are each a class with a fixed list of
  (from, to) connections into the model's state vector. `GetRatesOfChange`
  proposes one rate per connection. `ApplyConstraints` then corrects those
  rates in place so that the source compartment cannot be overdrawn within a
  time step. Evaporation and sublimation pair their withdrawal with an
  AET → AET connection, which accumulates actual evapotranspiration. The
  correction keeps that accumulator equal to what was actually granted.
- **The potential evapotranspiration (PET) dispatcher.** It estimates PET
  [mm/d] for one HRU by one of the configured methods. It fills blank gauge
  data with an infill method, blends a weighted list of methods, floors the
  formula results at zero, rejects negative values and applies the
  vegetation multiplier. It also classifies the methods as daily or
  sub-daily, and computes the Granger–Gray drying power.

The project has three files:

- `context.dfy` (module `RavenContext`). The collaborators the processes
  only read, given as values: the HRU record, the global options, the state
  layout with its lookup, the error codes, and the min/max helpers.
- `vegetation_movers.dfy` (module `VegetationMovers`). The three process
  classes. Each `GetRatesOfChange`/`ApplyConstraints` method updates the
  `rates` array in place. Its postcondition ties the new array to a pure
  function of the old one, and the lemmas about that function state what the
  rates mean.
- `evaporation.dfy` (module `Evaporation`). The method enumeration, the
  formula helpers with their floors, and the dispatcher.
  - `EstimatePet` is imperative, with a loop over the blend list. It is
    proved equal to the recursive specification `PetSpec`.
  - `PetSpec` finishes the method's branch value (`PetBranch`): a failure
    passes through, a value below −REAL_SMALL is an error, anything else is
    multiplied by the vegetation multiplier.

A fatal exit of the source (`ExitGracefully`) becomes a `Failure`/`Fail`/`Aborted`
value that carries the source's severity code (`BadData`, `Stub`,
`RuntimeError`).

## Model

| member | source | states |
|---|---|---|
| RavenContext.StateVarIndex | src/VegetationMovers.cpp:28-31 | the lookup returns DOESNT_EXIST exactly when the layout has no compartment of the type, otherwise the index of its first occurrence |
| RavenContext.StateVarType | src/VegetationMovers.cpp:44-47 | the type lookup the Initialize checks use: an index inside the layout has exactly the type stored there, an index outside it has none |
| RavenContext.HostsCanopy | src/VegetationMovers.cpp:114-115 | the gate of every canopy process: true exactly for standard and wetland units |
| RavenContext.ThreshMin | src/VegetationMovers.cpp:504 | with smoothing 0 the threshold minimum is at most both arguments and equals one of them |
| RavenContext.ThreshMax | src/VegetationMovers.cpp:474 | with smoothing 0 the threshold maximum is at least both arguments and equals one of them |
| RavenContext.ThreshPositive | src/VegetationMovers.cpp:479 | the positive part is non-negative, at least its argument, and equal to it or to zero |
| VegetationMovers.AvailablePet | src/VegetationMovers.cpp:122-129 | available PET is non-negative; with competitive ET suppressed it is the floored forcing PET; otherwise it is the forcing PET less the accumulated AET per time step, floored at zero, and never more than the forcing PET |
| VegetationMovers.CompetitivePetBounds | src/VegetationMovers.cpp:126-129 | for a non-negative accumulator, competitive ET leaves between zero and the floored forcing PET |
| VegetationMovers.CappedWithdrawalKeepsStorage | src/VegetationMovers.cpp:183-184 | a withdrawal capped at storage/timestep never drives a non-negative store negative within the step |
| VegetationMovers.RutterDemand | src/VegetationMovers.cpp:136 | defines the Rutter evaporative demand (1−Ft)·Fc·PET; RutterEvapBounds and RutterRateBounds bound the rate by it |
| VegetationMovers.RutterEvap | src/VegetationMovers.cpp:136 | defines the Rutter rate as the demand scaled by the fullness stor/(Fc·cap); RutterEvapBounds states its bounds |
| VegetationMovers.EvapRate | src/VegetationMovers.cpp:122-149 | defines the proposed rate of each sub-model from the available PET: Rutter on the storage clamped to [0, Fc·cap], Fc·PET, storage/timestep; RutterRateBounds, MaximumRateBounds and EvapReadsOnlyDeclaredParams state its properties |
| VegetationMovers.RutterEvapBounds | src/VegetationMovers.cpp:123-136 | the Rutter formula (1−Ft)·Fc·PET·stor/(Fc·cap) on a storage between 0 and Fc·cap lies between 0 and the demand, is 0 for empty storage and the whole demand at capacity |
| VegetationMovers.RutterRateBounds | src/VegetationMovers.cpp:123-136 | the Rutter rate lies between 0 and the demand (1−Ft)·Fc·PET; it is 0 for an empty or negative canopy and equals the demand at or above capacity Fc·cap |
| VegetationMovers.RutterIgnoresTrunkFractionWithoutTrunk | src/VegetationMovers.cpp:133-134 | without a trunk compartment the trunk fraction does not affect the Rutter rate |
| VegetationMovers.MaximumRateBounds | src/VegetationMovers.cpp:139-142 | the PET-limited rate Fc·PET lies between 0 and the available PET when 0 < Fc ≤ 1 |
| VegetationMovers.EvapRatesOfChange | src/VegetationMovers.cpp:114-155 | non-hosting HRUs leave the rates unchanged; Fc = 0 zeroes rates[0] only; otherwise the accumulator rate equals the withdrawal; rates beyond the two connections are untouched |
| VegetationMovers.EvapReadsOnlyDeclaredCompartments | src/VegetationMovers.cpp:89-95 | the proposed rates depend on the state vector only through the declared compartments (canopy, atmosphere, AET) |
| VegetationMovers.EvapReadsOnlyDeclaredParams | src/VegetationMovers.cpp:57-74 | the proposed rate depends on the HRU only through the parameters the sub-model declares, plus the forcing PET and, for Rutter, the time-varying capacity derived from the declared maximum capacity |
| VegetationMovers.EvapConstrained | src/VegetationMovers.cpp:178-187 | the corrected withdrawal is at most storage/timestep and at most the floored proposal; it is non-negative for non-negative storage; it keeps a proposal already within [0, storage/timestep] and is exactly storage/timestep when the floored proposal reaches that cap; the accumulator is lowered by exactly what the withdrawal lost |
| VegetationMovers.NegativeStorageGivesNegativeEvap | src/VegetationMovers.cpp:180-184 | because the cap comes after the zero floor, a negative storage yields the negative rate storage/timestep |
| VegetationMovers.EvapConstraintIdempotent | src/VegetationMovers.cpp:178-187 | correcting corrected evaporation rates changes nothing |
| VegetationMovers.EvapGrantsWhatAccumulatorRecords | src/VegetationMovers.cpp:155-187 | after proposal (accumulator = rate) and correction, the accumulator equals the granted withdrawal, which never overdraws a non-negative canopy |
| VegetationMovers.RutterExample | src/VegetationMovers.cpp:136 | Fc 0.6, capacity 5, storage 4, PET 3, step 1: the Rutter rate is 1.8 and the correction keeps 1.8 |
| VegetationMovers.CanopyEvap.constructor | src/VegetationMovers.cpp:22-32 | connection 0 is canopy → atmosphere, connection 1 is AET → AET, at the indices the lookup returns |
| VegetationMovers.CanopyEvap.Initialize | src/VegetationMovers.cpp:42-48 | passes exactly when connection 0 leaves the canopy and enters the atmosphere, otherwise fails with BAD_DATA |
| VegetationMovers.CanopyEvap.GetParticipatingParamList | src/VegetationMovers.cpp:57-78 | writes the sub-model's parameter names and classes (3 for Rutter, 1 for maximum, 0 for all) and leaves the rest of the arrays alone |
| VegetationMovers.CanopyEvap.GetParticipatingStateVarList | src/VegetationMovers.cpp:89-95 | writes canopy, atmosphere and AET, all single-level |
| VegetationMovers.CanopyEvap.ProposeEvap | src/VegetationMovers.cpp:122-149 | the step-by-step computation equals the rate function EvapRate |
| VegetationMovers.CanopyEvap.GetRatesOfChange | src/VegetationMovers.cpp:108-156 | the new rates array is EvapRatesOfChange of the old one; the state is unchanged |
| VegetationMovers.CanopyEvap.ApplyConstraints | src/VegetationMovers.cpp:169-188 | on hosting HRUs rates[0] and rates[1] become the EvapConstrained pair; otherwise nothing changes |
| VegetationMovers.SublimRate | src/VegetationMovers.cpp:301-320 | the maximum sub-model is non-negative for Fc ≥ 0 and at most the available PET for Fc ≤ 1; the all sub-model removes exactly the stored snow in one step |
| VegetationMovers.SublimRatesOfChange | src/VegetationMovers.cpp:288-329 | fails with STUB exactly when a hosting HRU with Fc ≠ 0 uses a sub-model other than maximum or all; otherwise the same short circuits as evaporation, with accumulator = withdrawal |
| VegetationMovers.SublimReadsOnlyDeclaredCompartments | src/VegetationMovers.cpp:263-269 | the proposed sublimation rates depend on the state vector only through the declared compartments (canopy snow, atmosphere, AET) |
| VegetationMovers.SublimReadsOnlyDeclaredParams | src/VegetationMovers.cpp:237-253 | the proposed sublimation depends on the HRU only through the declared parameters plus the forcing PET: forest coverage for the maximum model, nothing for the all model |
| VegetationMovers.SublimConstrained | src/VegetationMovers.cpp:350-356 | the corrected withdrawal is the minimum of the proposal and storage/timestep (no zero floor); the accumulator is lowered by exactly what the withdrawal lost |
| VegetationMovers.SublimKeepsNegativeProposal | src/VegetationMovers.cpp:350-356 | a negative proposal survives the sublimation correction but is floored to zero by the evaporation correction |
| VegetationMovers.SublimConstraintIdempotent | src/VegetationMovers.cpp:350-356 | correcting corrected sublimation rates changes nothing |
| VegetationMovers.SublimGrantsWhatAccumulatorRecords | src/VegetationMovers.cpp:328-356 | for a non-negative proposal with accumulator = rate, the granted amount is non-negative, never overdraws the store, and is what the accumulator records |
| VegetationMovers.CanopySublimation.constructor | src/VegetationMovers.cpp:203-212 | connection 0 is canopy snow → atmosphere, connection 1 is AET → AET |
| VegetationMovers.CanopySublimation.Initialize | src/VegetationMovers.cpp:222-228 | passes exactly when connection 0 leaves the canopy snow and enters the atmosphere, otherwise fails with BAD_DATA |
| VegetationMovers.CanopySublimation.GetParticipatingParamList | src/VegetationMovers.cpp:237-253 | forest coverage for maximum, snow roughness (global) for Sverdrup, none otherwise; SublimReadsOnlyDeclaredParams shows the rate reads nothing else |
| VegetationMovers.CanopySublimation.GetParticipatingStateVarList | src/VegetationMovers.cpp:263-269 | writes canopy snow, atmosphere and AET, all single-level; SublimReadsOnlyDeclaredCompartments shows the rates read nothing else |
| VegetationMovers.CanopySublimation.GetRatesOfChange | src/VegetationMovers.cpp:288-329 | passes exactly when SublimRatesOfChange succeeds, and then the rates are its value; on the stub failure only rates[0] has been zeroed |
| VegetationMovers.CanopySublimation.ApplyConstraints | src/VegetationMovers.cpp:341-358 | on hosting HRUs rates[0] and rates[1] become the SublimConstrained pair; otherwise nothing changes |
| VegetationMovers.RutterDrip | src/VegetationMovers.cpp:474 | defines Rutter drip as the overflow rate above Fc·cap, floored at 0, less the stemflow share; RutterDripBounds and RutterDripDrainsToCapacity state its properties |
| VegetationMovers.SlowDrainDrip | src/VegetationMovers.cpp:479-480 | defines slow drain as the positive overflow rate plus the drip proportion of the storage per unit coverage, capped at that storage per step; SlowDrainBounds states its bounds |
| VegetationMovers.DripRate | src/VegetationMovers.cpp:457-481 | defines the proposed drip of each sub-model, with the stemflow share forced to 0 without a trunk; DripReadsOnlyDeclaredParams and the bounds lemmas state its properties |
| VegetationMovers.RutterDripBounds | src/VegetationMovers.cpp:465-475 | Rutter drip is zero while the canopy is within capacity Fc·cap; above it, it lies between 0 and the overflow rate |
| VegetationMovers.RutterDripDrainsToCapacity | src/VegetationMovers.cpp:471-474 | without stemflow, one full step of Rutter drip brings an overfull canopy exactly back to Fc·cap |
| VegetationMovers.SlowDrainBounds | src/VegetationMovers.cpp:476-481 | slow drain drips at least the overflow rate, never a negative amount from a valid canopy, and beyond the overflow never more than the storage per unit coverage per step |
| VegetationMovers.RutterDripExample | src/VegetationMovers.cpp:474 | storage 8, Fc 1, capacity 5, step 1: the drip is the overflow 3 |
| VegetationMovers.DripRatesOfChange | src/VegetationMovers.cpp:447-482 | non-hosting HRUs leave the rates unchanged, Fc = 0 zeroes rates[0], and only rates[0] is ever written |
| VegetationMovers.DripReadsOnlyDeclaredCompartments | src/VegetationMovers.cpp:430-435 | the proposed drip depends on the state vector only through the canopy |
| VegetationMovers.DripReadsOnlyDeclaredParams | src/VegetationMovers.cpp:399-414 | the proposed drip depends on the HRU only through the parameters the sub-model declares, plus the time-varying capacity derived from the declared maximum capacity |
| VegetationMovers.DripConstrained | src/VegetationMovers.cpp:504 | the corrected drip is the smaller of the proposal and storage/timestep |
| VegetationMovers.DripConstraintSound | src/VegetationMovers.cpp:494-505 | the drip correction is idempotent, and a corrected non-negative drip never overdraws a non-negative canopy |
| VegetationMovers.CanopyDrip.constructor | src/VegetationMovers.cpp:365-376 | one connection, canopy → the given destination, which must exist |
| VegetationMovers.CanopyDrip.NewCanopyDrip | src/VegetationMovers.cpp:371-375 | fails with BAD_DATA exactly when the destination is DOESNT_EXIST, otherwise builds the process |
| VegetationMovers.CanopyDrip.Initialize | src/VegetationMovers.cpp:386-390 | passes exactly when the connection leaves the canopy, otherwise fails with BAD_DATA |
| VegetationMovers.CanopyDrip.GetParticipatingParamList | src/VegetationMovers.cpp:399-418 | writes the sub-model's three parameter names and classes, in the source's order |
| VegetationMovers.CanopyDrip.GetParticipatingStateVarList | src/VegetationMovers.cpp:430-435 | writes only the canopy; the destination is user-specified |
| VegetationMovers.CanopyDrip.ProposeDrip | src/VegetationMovers.cpp:457-481 | the step-by-step computation equals the rate function DripRate |
| VegetationMovers.CanopyDrip.GetRatesOfChange | src/VegetationMovers.cpp:447-482 | the new rates array is DripRatesOfChange of the old one; the state is unchanged |
| VegetationMovers.CanopyDrip.ApplyConstraints | src/VegetationMovers.cpp:494-505 | on hosting HRUs rates[0] becomes DripConstrained of the old rate; otherwise nothing changes |
| Evaporation.IsDailyPetMethod | src/Evaporation.cpp:537-555 | daily exactly for Linacre, monthly factor, from-monthly, Turc, Jensen–Haise, Hamon, linear-temperature and constant; not for Oudin, Hargreaves, Hargreaves 1985 or gauge data |
| Evaporation.Makkink1957 | src/Evaporation.cpp:32-48 | non-negative, and either 0 or the Makkink expression |
| Evaporation.Turc1961 | src/Evaporation.cpp:61-68 | non-negative |
| Evaporation.TurcZeroBelowFreezing | src/Evaporation.cpp:61-68 | at or below 0 °C daily average the Turc estimate is 0 |
| Evaporation.PenmanMonteith | src/Evaporation.cpp:83-107 | zero canopy conductance gives zero PET, otherwise the Penman–Monteith rate |
| Evaporation.PenmanCombination | src/Evaporation.cpp:119-144 | non-negative, and zero when the combination ratio is not positive |
| Evaporation.Hargreaves | src/Evaporation.cpp:179-203 | fails with BAD_DATA exactly when the monthly maximum temperature is NOT_SPECIFIED; otherwise non-negative |
| Evaporation.Hargreaves1985 | src/Evaporation.cpp:215-228 | non-negative; a negative daily range is treated as zero |
| Evaporation.LinearTemp | src/Evaporation.cpp:306-311 | zero at or below 0 °C, coefficient × temperature above it, non-negative for a non-negative coefficient |
| Evaporation.FromMonthly | src/Evaporation.cpp:349-355 | between 0 and twice the monthly PET (the ratio is clamped to [0, 2]), and equal to the monthly PET when the temperature equals the monthly mean |
| Evaporation.MonthlyFactor | src/Evaporation.cpp:357-377 | non-negative; without forest and when the unfloored value is non-negative, it is the factor × maximum temperature plus the orographic correction, with the UBCWM reference elevation when its quirks are kept |
| Evaporation.PenmanSimple | src/Evaporation.cpp:459-481 | both simplified Penman equations are non-negative |
| Evaporation.Mohyse | src/Evaporation.cpp:483-492 | non-negative and at least the unfloored estimate |
| Evaporation.Oudin | src/Evaporation.cpp:494-498 | non-negative, and zero at or below −5 °C when the extraterrestrial radiation is non-negative |
| Evaporation.LinacreCoefficient | src/Evaporation.cpp:504-511 | 700 over open water, 500 over land |
| Evaporation.Linacre | src/Evaporation.cpp:500-514 | non-negative and at least the unfloored estimate for the water/land coefficient |
| Evaporation.GrangerGray | src/Evaporation.cpp:839-867 | non-negative, and zero without positive net radiation |
| Evaporation.DryingPower | src/Evaporation.cpp:825-830 | defines the Granger–Gray drying power from wind speed and canopy height; DryingPowerBounds states its bounds and monotonicity |
| Evaporation.DryingPowerBounds | src/Evaporation.cpp:825-830 | the drying power is at least 8.19, grows with wind speed, and is 8.19 + 1.16·u for zero canopy height |
| Evaporation.DirectBranch | src/Evaporation.cpp:293-526 | the branch fails exactly for Jensen–Haise and Shuttleworth–Wallace (STUB), unknown methods (BAD_DATA) and Hargreaves without monthly temperatures (BAD_DATA); floored methods are non-negative; constant gives 3 and none gives 0 |
| Evaporation.GaugePet | src/Evaporation.cpp:315-316 | selects the gauge series: the open-water PET for open water, the ordinary PET otherwise; GaugeDataUsed and DataInfill state how the dispatcher uses it |
| Evaporation.InfillMethod | src/Evaporation.cpp:319-325 | selects the infill method for blank gauge data: the open-water infill for open water, the ordinary infill otherwise |
| Evaporation.PetBranch | src/Evaporation.cpp:293-526 | defines the branch value: gauge data or its infill, the weighted blend (BAD_DATA for an empty list), or the direct branch; the lemmas below state each case |
| Evaporation.PetSpec | src/Evaporation.cpp:282-535 | defines the estimate as the branch value finished by Finish; EstimatePet is proved equal to it |
| Evaporation.BlendResults | src/Evaporation.cpp:336-339 | one estimate, one call level deeper, for each entry of the blend list |
| Evaporation.BlendFold | src/Evaporation.cpp:336-345 | defines the blend accumulation as a fold that stops at the first failure; BlendFoldIsWeightedSum and BlendFoldStopsAtFirstFailure state what it computes |
| Evaporation.Finish | src/Evaporation.cpp:528-534 | a branch failure passes through; a value below −REAL_SMALL is a RUNTIME_ERR; otherwise the value times the vegetation multiplier |
| Evaporation.BlendFoldIsWeightedSum | src/Evaporation.cpp:334-345 | when every blended estimate succeeds, the accumulation equals the weighted sum of the estimates |
| Evaporation.BlendFoldStopsAtFirstFailure | src/Evaporation.cpp:334-345 | when some blended estimate fails, the accumulation fails with the first failure |
| Evaporation.BlendedIsWeightedSum | src/Evaporation.cpp:331-347 | the blended method returns the weighted sum of the (already multiplied) estimates, checked for negativity and multiplied by the vegetation multiplier again |
| Evaporation.BlendedFailsAtFirstFailure | src/Evaporation.cpp:331-347 | the blended method fails with the error of the first estimate that fails |
| Evaporation.DataInfill | src/Evaporation.cpp:313-329 | blank gauge data yields the infill method's estimate, whose failure passes through and whose value is multiplied by the vegetation multiplier a second time |
| Evaporation.GaugeDataUsed | src/Evaporation.cpp:313-317 | gauge data that is not blank is the branch value: the open-water series for open water, the ordinary one otherwise, then finished |
| Evaporation.EmptyBlendAborts | src/Evaporation.cpp:333-334 | the blended method with an empty blend list fails with BAD_DATA |
| Evaporation.PetSpecIgnoresDepth | src/Evaporation.cpp:313-347 | the recursion bound only bounds: an estimate that terminates within a depth is the same at any larger depth |
| Evaporation.ConstantInfillScaledTwice | src/Evaporation.cpp:313-329 | with constant infill and multiplier c ≥ 0, blank gauge data yields 3·c·c |
| Evaporation.DirectMethodResult | src/Evaporation.cpp:293-534 | a method other than data or blended always terminates, and its PET is its branch value finished |
| Evaporation.ConstantAndNone | src/Evaporation.cpp:296-304 | the constant method yields 3 × multiplier, the none method 0 |
| Evaporation.EstimatePet | src/Evaporation.cpp:282-535 | the imperative estimator returns exactly PetSpec |
| Evaporation.EstimateBranch | src/Evaporation.cpp:293-526 | the switch part of the estimator returns exactly PetBranch |
| Evaporation.AccumulateBlend | src/Evaporation.cpp:331-347 | the blend loop returns exactly the fold of the estimates, stopping at the first failure |

## Left out

- Physical formulas. The inner expressions are not modelled: saturation vapour pressure, psychrometric constant, radiation, atmospheric conductance, day length, the exponential, square-root and trigonometric terms, and the dew point. They arrive as precomputed values or functions in `PhysicsTerms`. The floors, clamps, branches and error exits around them are modelled exactly.
- Turc1961: the contract states only non-negativity (plus the freezing lemma), not the whole formula.
- Floating point. Reals are exact. NaN, infinities and rounding are not modelled, so the NaN check in the blended loop (src/Evaporation.cpp:341-343) has no counterpart.
- Division by zero. A zero timestep, and a zero capacity under the Rutter evaporation model, are excluded by `requires`. The source would produce IEEE infinities or NaN there.
- VegetationMovers.EvapRatesOfChange: requires `capacity != 0` for the Rutter sub-model on a hosting HRU with Fc ≠ 0, because the source divides by cap·Fc there.
- Smoothing. `threshMin`, `threshMax` and `threshPositive` are used with smoothing 0 only. They are modelled as the plain minimum, maximum and positive part. The smoothed forms are not part of this model.
- EvapReadsOnlyDeclaredParams, DripReadsOnlyDeclaredParams: take equal time-varying capacities as a hypothesis of their own. The processes declare the maximum capacity but read the time-varying capacity (src/VegetationMovers.cpp:118, 463). The vegetation model derives one from the other, and that derivation is not part of this model, so `Hru` holds both as independent fields.
- Sverdrup and the other sublimation models. The canopy sublimation branch for other models exits as a stub before calling the sublimation-rate routine. That routine (defined elsewhere) and the wind-velocity read are not modelled.
- Recursion depth. `EstimatePet` can recurse without bound in the source for cyclic infill or blend configurations. Here the recursion is bounded by a ghost `depth` with the precondition `Terminates`. Cyclic configurations are outside the model.
- Decomposition. `EstimatePet` is modelled as three methods: the finishing step, the switch (`EstimateBranch`) and the blend loop (`AccumulateBlend`). The source has one function, so its local variable `PET` is spread over them. Likewise the rate arithmetic of the evaporation and drip `GetRatesOfChange` is a static method of its own (`ProposeEvap`, `ProposeDrip`) that the class method calls.
- Collaborators. The model object, the HRU getters, the global parameters and the time structure are passed in as immutable values (`Hru`, `Options`, `Layout`, `PetInput`, `PetConfig`). The integrator that calls the processes is not part of this model, nor are the base process class and `Advection.h`.
- In-place state. The `rates` array and the caller's parameter and state-variable list arrays (`GetParticipatingParamList`, `GetParticipatingStateVarList`) are updated in place. The process objects' connection lists are immutable after construction (`const` fields).
- Other helpers of Evaporation.cpp are not part of this model: ground air resistance, Shuttleworth–Wallace evaporation, ground evaporation, snow evaporation and the wind-velocity adjustment. Neither the dispatcher nor the canopy processes call them.
- Header constants. The header that defines DOESNT_EXIST, RAV_BLANK_DATA, NOT_SPECIFIED, REAL_SMALL, the unit conversions, LH_VAPOR and DENSITY_WATER is not part of this model, so their values here are assumed. HBV_PET_TEMP_CORR is a configuration value (`hbvPetTempCorr`).

## Observations about the source

The model follows the code as written in each of these places.

- **Vegetation multiplier applied twice.** The gauge-data infill and the blended method call the estimator recursively. The recursive result is already multiplied by the vegetation multiplier, and the caller multiplies it again (src/Evaporation.cpp:321-324, 339, 534). `ConstantInfillScaledTwice` and `BlendedIsWeightedSum` state the consequence.
- **Forest coverage read but not declared.** The "all" evaporation model and the "all" sublimation model declare no parameters. Both still read forest coverage in their Fc = 0 short circuit (src/VegetationMovers.cpp:71-74, 117-120, 249-252, 297-299).
- **Missing `break`.** The Shuttleworth–Wallace case has no `break` after its stub exit (src/Evaporation.cpp:453-457). This is harmless, because the exit is fatal.
- **Stub exit writes first.** The sublimation stub branch has already written rates[0] = 0 when it exits.
- **Different corrections.** Sublimation applies no zero floor before its cap, unlike evaporation (`SublimKeepsNegativeProposal`).
