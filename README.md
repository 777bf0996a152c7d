# SWMM groundwater and land-use pollutant model in Dafny

This project models two computational components of EPA SWMM 5.1 over
exact real arithmetic. The transcendental functions `exp`, `pow` and `log`
are uninterpreted and carry only the sign facts the proofs need
(`Common.MathLib`). The unit-conversion factors are positive constants
(`Common.UnitFactors`).

**Two-zone groundwater flux engine (`src/gwater.c`).**

- *The record.* Each subcatchment's groundwater record (`GwaterState.Groundwater`, a class) holds:
  - its configuration: aquifer, node, surface elevation, lateral flow coefficients and the optional depths;
  - its dynamic state: upper-zone moisture θ, lower saturated depth, old and new lateral flow, evaporation loss and infiltration capacity.
- *Lifecycle operations.* The record is read from its input line, validated against its aquifer, initialised, saved into a four-value array and restored from one, and measured for stored volume.
- *The shared scratch structure (`GwaterFlux.GwaterShared`).*
  - Its `ctx` field holds what the step driver sets once per step: rates per unit area, available evaporation, heights and the per-step flux limits.
  - Its other fields hold the fluxes each evaluation leaves behind.
  - The flux calculator covers the evaporation split, percolation, deep loss and lateral exchange. It and the ODE right-hand side are pure functions (`ComputeFluxes`, `Derivatives`). The class's methods are proved equal to them.
- *The step driver (`GwaterStep`).* It:
  - builds the context and its limits;
  - clamps the integrator's result back into physical bounds;
  - commits the state;
  - reports the step's mass-balance volumes.
- *Expression variables.* The eleven named variables that user flow expressions may use are in `GwaterVars`.

**Pollutant buildup and washoff (`src/landuse.c`).**

- *Input lines.* Land-use and washoff lines are parsed and range-checked into a table of land uses (`LanduseInput.LanduseTable`).
- *Buildup.*
  - Buildup functions (power, exponential, saturation) have inverses that give equivalent dry days. The round trip days → mass → days is proved under exact inverses of `exp`/`log` and `pow`.
  - External-series buildup is capped at its maximum.
  - Buildup after a time increment is normalised by area or curb length.
  - The initial buildup of every pollutant on every land use is written into the subcatchment's `array2` of buildups (`LanduseTypes.LandFactors`).
- *Washoff.*
  - Washoff concentration is computed per washoff function.
  - The washoff load debits the buildup array in place and applies BMP (best management practice) removal. It is proved equal to a pure `Washoff` function whose contract carries the mass balance.
  - The area-weighted BMP efficiency is computed by a loop.
  - The co-pollutant load is modelled.

## Model

| member | source | states |
|---|---|---|
| Aquifers.ValidateAquifer | src/gwater.c:305-332 | zero errors exactly when every physical parameter is in range and any evaporation pattern is monthly; at most two errors, at least one for a bad parameter |
| GwaterVars.VariableIndex | src/gwater.c:843-855 | the index of the first variable name that matches, -1 exactly when no name matches |
| GwaterVars.VariableIndexOfName | src/gwater.c:60-61 | under case-insensitive matching every variable name, in any case, resolves to its own index |
| GwaterVars.VariableValue | src/gwater.c:859-883 | 0 for an unknown index; moisture and porosity unconverted; dividing by the conversion factor gives back the internal value: the length factor for the four heights, the rainfall factor for KS, K, FI and FU, the land-area factor for A |
| GwaterVars.VariableTable | src/gwater.c:859-883 | eleven entries, entry i being variable i's current value |
| GwaterInput.ParseNumbers | src/gwater.c:186-190 | all seven numbers parsed in order, or ERR_NUMBER naming the first token that is not a number |
| GwaterInput.ReadOptional | src/gwater.c:193-203 | MISSING for an absent or `*` token, the number (length-converted when asked) otherwise, ERR_NUMBER on a bad token |
| GwaterInput.ReadGroundwaterParams | src/gwater.c:154-229 | the source's error order (ERR_ITEMS below 3 tokens, unknown subcatchment, ERR_ITEMS below 11, unknown aquifer, unknown node); object indices; surface elevation and fixed depth length-converted, a1, b1, a2, b2, a3 as parsed; each optional depth MISSING when absent or `*`, otherwise the token, length-converted for the three elevations |
| GwaterInput.ReadOptionalDepths | src/gwater.c:193-203 | the four optional values read in order; ERR_NUMBER names the first present, non-`*` token that is not a number; accepted whenever all four are readable |
| GwaterInput.ReadGroundwaterNumberErrors | src/gwater.c:186-203 | ERR_NUMBER names the first unreadable number among tokens 3-9 and then the optional tokens; a line whose names resolve and whose numbers are all readable is accepted |
| GwaterState.Groundwater.AssignParams | src/gwater.c:215-227 | the record's configuration becomes the line's values |
| GwaterState.ReadGroundwater | src/gwater.c:206-227 | an existing record is reused with its state untouched, otherwise a fresh one is made; either way it holds the line's values |
| GwaterState.OrDefault | src/gwater.c:347-349 | a MISSING value falls back to the aquifer's, any other value is kept |
| GwaterState.Validate | src/gwater.c:336-355 | MISSING bottom, water table and moisture replaced by the aquifer's; aquifer, node, surface and node elevations, the lateral coefficients a1, b1, a2, b2, a3, the fixed depth and the state all unchanged; ground-elevation error exactly when the surface is below the water table |
| GwaterState.InitialTheta | src/gwater.c:375-379 | initial moisture below porosity; the configured value when it already is, porosity - XTOL otherwise |
| GwaterState.InitialLowerDepth | src/gwater.c:382-386 | initial depth below the total depth; the water table height when below the surface, total - XTOL otherwise |
| GwaterState.InitialState | src/gwater.c:359-398 | θ < porosity, lower depth < surfElev - bottomElev, all flows and evaporation loss zero |
| GwaterState.InitState | src/gwater.c:359-398 | configuration unchanged and the state becomes InitialState of the record's values |
| GwaterState.InitialStateWithinBounds | src/gwater.c:375-396 | a validated record starts within wilting point ≤ θ < porosity, 0 ≤ depth < total, with non-negative infiltration capacity |
| GwaterState.InitialCapacityFillsPores | src/gwater.c:394-396 | capacity × pervious fraction is exactly the unfilled pore space above the water table |
| GwaterState.Snapshot | src/gwater.c:402-414 | four values whose second, less the bottom elevation, is the lower depth |
| GwaterState.Restore | src/gwater.c:418-432 | θ, depth and previous flow come from the saved values; capacity kept when the saved one is MISSING |
| GwaterState.RestoreSnapshot | src/gwater.c:402-432 | restoring a snapshot returns θ and depth exactly, moves the saved new flow into oldFlow, keeps the capacity for a MISSING saved value |
| GwaterState.GetState | src/gwater.c:402-414 | x[0..4] is the record's snapshot, the rest of x unchanged |
| GwaterState.SetState | src/gwater.c:418-432 | a no-op without a record; otherwise the state is Restore of the old state and configuration is unchanged |
| GwaterState.SaveAndRestore | src/gwater.c:402-432 | save then restore leaves the aquifer parameters and every state field unchanged except that the new flow moves into the old one; the first four slots of the buffer hold the snapshot and the rest are untouched |
| GwaterState.Volume | src/gwater.c:436-451 | 0 without a record, else (total - depth)·θ + depth·porosity |
| GwaterState.StoredVolumeMonotone | src/gwater.c:449-450 | more moisture or a deeper saturated zone never stores less water |
| GwaterState.StoredVolumeBounds | src/gwater.c:449-450 | within bounds the stored volume lies between 0 and total depth × porosity |
| GwaterFlux.UpperEvapFraction | src/gwater.c:734-742 | without a pattern the fraction is the aquifer's own; with one it is scaled by the pattern's factor for the current month |
| GwaterFlux.LowerEvapFraction | src/gwater.c:759-761 | lower evaporation fraction clamped to [0, 1]; 1 with no upper zone, 0 once the upper zone is as deep as the evaporation depth |
| GwaterFlux.LowerEvapFractionProportional | src/gwater.c:759-761 | within the evaporation depth the fraction × depth is the part of it below the upper zone |
| GwaterFlux.UpperEvap | src/gwater.c:746-752 | 0 at or below the wilting point; never above a non-negative available evaporation |
| GwaterFlux.LowerEvap | src/gwater.c:755-767 | 0 without a lower evaporation depth; otherwise at most what the upper zone left; positive when the evaporation depth reaches below the upper zone, the upper fraction is below 1, the maximum rate is positive and the upper zone left some evaporation |
| GwaterFlux.LowerEvapFractionPositive | src/gwater.c:759-761 | the lower fraction is positive when the evaporation depth reaches below the upper zone |
| GwaterFlux.LowerEvapNonNegative | src/gwater.c:755-767 | with a non-negative maximum rate, a fraction in [0, 1] and an upper rate within the available evaporation, the lower zone's rate is not negative |
| GwaterFlux.EvapRates | src/gwater.c:714-768 | both 0 while infiltrating; upper 0 at or below wilting point; upper ≤ available and lower ≤ available - upper |
| GwaterFlux.EvapRatesNonNegative | src/gwater.c:746-767 | with non-negative available and maximum evaporation and a fraction in [0, 1], neither zone's evaporation is negative |
| GwaterFlux.EvapRatesSignAtZero | src/gwater.c:729-767 | with no evaporation available neither zone evaporates |
| GwaterFlux.UpperZoneEvaporates | src/gwater.c:745-752 | without infiltration and above the wilting point the upper zone evaporates a positive amount: its fraction of the maximum rate, or all that is available |
| GwaterFlux.LowerZoneEvaporates | src/gwater.c:745-767 | without infiltration, with an evaporation depth below the upper zone, an upper fraction below 1 and more available than the upper zone can take, the lower zone evaporates a positive amount |
| GwaterFlux.MoistureFactor | src/gwater.c:790-791 | exp((θ − porosity) × slope) is positive, at most 1 at or below porosity, and exp(0) at porosity |
| GwaterFlux.UnsatConductivityBounds | src/gwater.c:790-791 | the unsaturated conductivity is positive, at most the saturated conductivity at or below porosity, and equal to it at porosity |
| GwaterFlux.PercolationRate | src/gwater.c:772-800 | 0 when there is no upper zone or θ ≤ field capacity |
| GwaterFlux.PercolationPositive | src/gwater.c:787-799 | a moist upper zone over a valid aquifer percolates at a positive rate |
| GwaterFlux.DeepLoss | src/gwater.c:653-659 | at most the lower zone depth over the step and at most the uncapped rate (coefficient × depth / total depth, or the expression in internal units); equal to one of the two |
| GwaterFlux.NoDeepLossWithoutCoefficient | src/gwater.c:653-659 | without an expression a zero coefficient gives no deep loss |
| GwaterFlux.DeepLossWithinLowerZone | src/gwater.c:659 | deep loss × step never exceeds the lower zone depth |
| GwaterFlux.DeepLossNonNegative | src/gwater.c:657-659 | without an expression, coefficient ≥ 0 and depth ≥ 0 give non-negative loss |
| GwaterFlux.DeepExprOverridesCoefficient | src/gwater.c:654-658 | with a deep-flow expression the loss coefficient has no influence |
| GwaterFlux.BuiltinLateralFlow | src/gwater.c:804-839 | 0 at or below H*; never negative when a3 ≠ 0 |
| GwaterFlux.LateralFlow | src/gwater.c:662-671 | lies in [MaxGWFlowNeg, MaxGWFlowPos] whenever that range contains 0; 0 at or below H* without an expression when outflow is allowed |
| GwaterFlux.LateralOutflowAboveInvert | src/gwater.c:816-837 | with only a positive groundwater term, a water table above H* drives a positive outflow within the limit |
| GwaterFlux.ComputeFluxes | src/gwater.c:625-672 | depth clamped into [0, total]; no evaporation while infiltrating; percolation ≤ MaxUpperPerc and min(0, cap) without percolation; lateral flow within its limits; conductivity kept without percolation |
| GwaterFlux.ZoneRate | src/gwater.c:697-709 | rate 0 when the zone's denominator is not positive |
| GwaterFlux.ZoneRateBalances | src/gwater.c:697-709 | rate × positive denominator is the zone's net flux |
| GwaterFlux.Derivatives | src/gwater.c:692-709 | dθ/dt = 0 when total - depth ≤ 0, d(depth)/dt = 0 when porosity - θ ≤ 0 |
| GwaterFlux.DerivativesConserveWater | src/gwater.c:692-709 | otherwise each derivative times its denominator is that zone's net inflow |
| GwaterFlux.PercolationMovesWaterDown | src/gwater.c:676-709 | with only percolation active, moisture falls and the lower zone rises |
| GwaterFlux.GwaterShared.GetEvapRates | src/gwater.c:714-768 | sets the two evaporation fields to EvapRates |
| GwaterFlux.GwaterShared.GetUpperPerc | src/gwater.c:772-800 | returns PercolationRate; records the conductivity only when percolating |
| GwaterFlux.GwaterShared.GetFluxes | src/gwater.c:625-672 | the shared outputs become ComputeFluxes at the given state |
| GwaterFlux.GwaterShared.GetDxDt | src/gwater.c:676-710 | outputs are ComputeFluxes at x, (dxdt[0], dxdt[1]) is Derivatives, the rest of dxdt unchanged |
| GwaterStep.AreaRate | src/gwater.c:491-497 | a volume turned into a rate over area and step: rate × area × step is the volume |
| GwaterStep.PercLimit | src/gwater.c:538-540 | percolation limit ≥ 0, limit × step = max(0, upper water above field capacity) |
| GwaterStep.OutflowLimit | src/gwater.c:543 | outflow limit × step is the lower zone's water; non-negative for a non-negative zone |
| GwaterStep.InflowLimit | src/gwater.c:548-551 | the inflow magnitude is the smaller of the upper zone's room per unit time and the node's supply per unit area (at most each, equal to one); the limit is ≤ 0 for a state in bounds |
| GwaterStep.StepContext | src/gwater.c:478-551 | the context: aquifer, step, non-negative available evaporation, total depth, H* from the override or the node invert, Hsw from fixed or node depth |
| GwaterStep.StepLimitsOrdered | src/gwater.c:538-551 | for a state in bounds and a node not losing water, MaxGWFlowNeg ≤ 0 ≤ MaxGWFlowPos |
| GwaterStep.ClampState | src/gwater.c:557-568 | θ < porosity and depth < total always; θ ≥ wilting point when porosity - XTOL ≥ wilting point; depth ≥ 0 when total ≥ XTOL; a state already within bounds unchanged |
| GwaterStep.ClampBelowToleranceDepth | src/gwater.c:564-568 | an aquifer thinner than XTOL is clamped to a negative depth |
| GwaterStep.LateralVolumeBetweenEndFlows | src/gwater.c:616 | the exchanged volume lies between the smaller and larger end flow × area × step, and equals it when the flow did not change |
| GwaterStep.UpdateMassBal | src/gwater.c:595-619 | the step's five volumes: each rate × area × step, the lateral one as 0.5·(old + new)·area·step |
| GwaterStep.CommittedStateWithinBounds | src/gwater.c:557-582 | whatever the integrator returns, the committed state is within bounds with positive infiltration capacity, for porosity - XTOL ≥ wilting point and total depth ≥ XTOL |
| GwaterStep.KeepWithinBounds | src/gwater.c:557-568 | the clamp's imperative form equals ClampState |
| GwaterStep.CommitFlows | src/gwater.c:574-582 | old flow ← new flow, new flow ← lateral flux, evaporation loss and capacity from the clamped state |
| GwaterStep.AdvanceState | src/gwater.c:509-573 | context set, record moved to the clamped result, fluxes computed there from the conductivity the integrator left behind |
| GwaterStep.StepRecord | src/gwater.c:478-585 | context, clamped state, fluxes (from the integrator's last conductivity), committed state and mass balance of one step |
| GwaterStep.GetGroundwater | src/gwater.c:455-591 | no step, record and shared structure unchanged without a record, pervious area or aquifer depth; otherwise context, fluxes at the clamped state from the integrator's last conductivity, committed state and mass balance of one step |
| LanduseInput.ParseLanduseLine | src/landuse.c:55-92 | ERR_ITEMS with no tokens or 2-3 tokens; ERR_NAME for an unknown ID; all zeros with the ID alone; parsed values; removal in [0, 1], ERR_NUMBER on token 2 otherwise |
| LanduseInput.LanduseTable.ReadParams | src/landuse.c:55-92 | stores the parsed values in land use j on success, keeps the table on error, keeps the table valid |
| LanduseInput.WashoffTypeOf | src/landuse.c:308-310 | keyword index 0, and only 0, is NONE |
| LanduseInput.OptionalNumber | src/landuse.c:317-326 | 0 for a missing token, the parsed number otherwise, ERR_NUMBER naming a bad token |
| LanduseInput.WashoffNumbers | src/landuse.c:312-326 | ERR_ITEMS below five tokens; four numbers parsed from tokens 3-6, missing efficiencies 0 |
| LanduseInput.InternalCoeff | src/landuse.c:344-346 | NONE keeps the coefficient; EXPON divided by 3600, RATING times flow factor^expon, EMC times litres per ft3; never negative for a non-negative input |
| LanduseInput.CheckWashoff | src/landuse.c:335-341 | no error exactly when coeff ≥ 0, expon in [-10, 10] and both efficiencies in [0, 100]; otherwise ERR_NUMBER on tokens 3-6 |
| LanduseInput.ParseWashoffLine | src/landuse.c:285-355 | short lines ignored; ERR_NAME/ERR_KEYWORD in the source's order; then the number errors and the first range error of CheckWashoff; accepted when the numbers are in range; indices; the keyword's function type; the coefficient from token 3 in internal units; NONE is all zeros; efficiencies are the percentages / 100 |
| LanduseInput.LanduseTable.ReadWashoffParams | src/landuse.c:285-355 | stores the parsed function in its land use's slot for the pollutant, keeps the table valid, changes nothing otherwise |
| LanduseBuildup.PowerDays | src/landuse.c:479-481 | never negative for a non-negative buildup and c1 |
| LanduseBuildup.ExponDays | src/landuse.c:483-485 | never negative for 0 ≤ buildup < c0 |
| LanduseBuildup.SaturDays | src/landuse.c:487-489 | never negative for 0 ≤ buildup < c0 |
| LanduseBuildup.BuildupDays | src/landuse.c:462-494 | 0 for zero buildup, maxDays once buildup ≥ c0, never negative for a valid function |
| LanduseBuildup.PowerMass | src/landuse.c:516-519 | power buildup never exceeds c0 |
| LanduseBuildup.ExponMass | src/landuse.c:521-523 | exponential buildup lies in [0, c0] |
| LanduseBuildup.SaturMass | src/landuse.c:525-527 | saturation buildup lies in [0, c0] |
| LanduseBuildup.BuildupMass | src/landuse.c:498-532 | 0 at zero days, c0 once days ≥ maxDays, power buildup ≤ c0, in [0, c0] for a valid function |
| LanduseBuildup.SaturInverse | src/landuse.c:487-527 | saturation mass at the equivalent days is the buildup again |
| LanduseBuildup.ExponInverse | src/landuse.c:483-523 | exponential mass at the equivalent days is the buildup again |
| LanduseBuildup.PowerInverse | src/landuse.c:479-519 | power mass at the equivalent days is the buildup again |
| LanduseBuildup.BuildupRoundTrip | src/landuse.c:462-532 | buildup mass after the equivalent days of a buildup below c0 is that buildup |
| LanduseBuildup.GetExternalBuildup | src/landuse.c:701-732 | 0 at the start of the run, never above the maximum buildup afterwards |
| LanduseBuildup.ExternalLoadingAddsBuildup | src/landuse.c:718-731 | a positive loading from the named series that stays under the cap adds exactly rate × step / seconds per day to the buildup, so the buildup grows |
| LanduseBuildup.ExternalBuildupCapped | src/landuse.c:718-731 | a loading that reaches the cap gives the maximum buildup; without a series the buildup only gets capped |
| LanduseBuildup.ExternalBuildupNotDecreasing | src/landuse.c:729-730 | a non-negative loading never takes buildup below min(start, cap) |
| LanduseBuildup.PerUnit | src/landuse.c:439-442 | the normaliser is the area or the curb length |
| LanduseBuildup.AdvancedBuildup | src/landuse.c:446-457 | advanced buildup per unit ≤ c0, and ≥ 0 unless external |
| LanduseBuildup.GetBuildup | src/landuse.c:415-458 | unchanged for NONE or a zero step; 0 for a zero normaliser; at most c0 × normaliser; non-negative unless external |
| LanduseBuildup.ScaledBuildup | src/landuse.c:446-457 | scaled buildup at most c0 × normaliser, non-negative unless external |
| LanduseBuildup.LanduseArea | src/landuse.c:393 | a land use's area is non-negative for non-negative inputs |
| LanduseBuildup.LanduseCurb | src/landuse.c:394 | a land use's curb length is non-negative for non-negative inputs |
| LanduseBuildup.DrySeconds | src/landuse.c:383 | dry seconds divided by seconds per day gives back the dry days |
| LanduseBuildup.InitialBuildup | src/landuse.c:401-407 | the initial buildup is non-negative unless the function is external and no loading was supplied |
| LanduseBuildup.InitialBuildupFromDryDays | src/landuse.c:383-407 | without a loading, initial buildup is the buildup function at the dry days times the normaliser |
| LanduseBuildup.InitBuildup | src/landuse.c:359-411 | every lastSwept is start date - sweepDays0 and every buildup[i, p] is InitialBuildup of land use i's function for p |
| LanduseWashoff.ExponConcentration | src/landuse.c:648-655 | non-negative for valid inputs |
| LanduseWashoff.ExponProportionalToBuildup | src/landuse.c:648-655 | the exponential washoff concentration is proportional to the buildup: the concentration for one unit times the buildup |
| LanduseWashoff.RatingConcentration | src/landuse.c:658-661 | non-negative for valid inputs |
| LanduseWashoff.WashoffQual | src/landuse.c:620-669 | 0 with no washoff function, no runoff, or a buildup function with nothing built up; EMC gives coeff; non-negative for valid inputs |
| LanduseWashoff.WashoffQualPositive | src/landuse.c:640-669 | with a washoff function, a positive coefficient, positive buildup, runoff and area, the washoff concentration is positive for exponential, rating-curve and EMC washoff |
| LanduseWashoff.ExportedLoad | src/landuse.c:585 | exported load non-negative for non-negative inputs |
| LanduseWashoff.DebitBuildup | src/landuse.c:588-602 | reducing branch takes min(washoff, buildup) and credits nothing; otherwise clears the buildup and credits the whole load; remaining ≥ 0; taken ≤ washoff; remaining + taken = buildup + credited except when there is no buildup function and 0 < buildup ≤ washoff |
| LanduseWashoff.BmpTreatment | src/landuse.c:605-610 | load + removed is the original load; removal applied only when positive and then effic × load; treated load within [0, load] |
| LanduseWashoff.Settle | src/landuse.c:605-613 | load × mcf + BMP removal is the load taken; removal ≥ 0 |
| LanduseWashoff.Settled | src/landuse.c:613 | the returned load × mcf is the treated load |
| LanduseWashoff.Washoff | src/landuse.c:559-614 | buildup stays ≥ 0; remaining + load·mcf + removal = buildup + credited when buildup is modelled or zero; nothing credited with a buildup function; removal ≥ 0; load ≥ 0 for valid inputs |
| LanduseWashoff.DebitInPlace | src/landuse.c:588-602 | entry [i, p] and the results follow DebitBuildup; all other entries unchanged |
| LanduseWashoff.ApplyBmp | src/landuse.c:605-610 | the load and removal after the BMP branch are BmpTreatment's |
| LanduseWashoff.WashoffLoad | src/landuse.c:559-614 | results and entry [i, p] are the fields of Washoff at the old buildup; all other entries unchanged |
| LanduseWashoff.WeightedEfficBounded | src/landuse.c:547-552 | the weighted efficiency lies between 0 and the sum of the fractions |
| LanduseWashoff.AvgBmpEffic | src/landuse.c:536-553 | the loop's result is the fraction-weighted sum of the land uses' BMP efficiencies |
| LanduseWashoff.CoPollutLoad | src/landuse.c:673-697 | 0 without a co-pollutant; the credited mass is the load × mass factor; within [0, co-pollutant washoff] for a fraction in [0, 1]; positive when the fraction and the co-pollutant's washoff are; the whole co-pollutant washoff at fraction 1 |
| LanduseWashoff.CoPollutShare | src/landuse.c:689-693 | a fraction in [0, 1] of a non-negative washoff lies within [0, washoff]; the credited mass is the load × mass factor; positive for a positive fraction of a positive washoff; the whole washoff at fraction 1 |

## Left out

- `odesolve_integrate` is an external adaptive solver. Its result for the step is a pair of arbitrary inputs (`solvedTheta`, `solvedLower`) of the step driver. The clamp is proved to restore the bounds whatever they are. Its flux evaluations also overwrite the shared hydraulic conductivity. The value the last one leaves is a third arbitrary input, `solvedHydCon`. The final flux evaluation starts from it, and expressions read it as K.
- User flow expressions (`mathexpr_create`, `mathexpr_eval`) are opaque functions of the variable table. `gwater_readFlowExpression` and `gwater_deleteFlowExpression` are not modelled. They only build and free strings and expression trees.
- `gwater_readAquiferParams` is not modelled. It is input plumbing; its aquifer is a datatype that `ValidateAquifer` checks.
- Other landuse.c operations are not modelled:
  - `landuse_readPollutParams`;
  - `landuse_readBuildupParams`, including its `tmax` log/pow arithmetic;
  - `landuse_getRunoffLoad`.
- Object lookup, keyword matching (`findmatch`), number parsing (`getDouble`) and the time-series and calendar lookups are parameters:
  - the series value at the current date;
  - the month.
- Error reporting, mass-balance updates and statistics are not performed as side effects. The mass-balance volumes and credited loads are returned as values. `stats_updateGwaterStats` is not modelled.
- Floating-point rounding is not modelled; all arithmetic is exact.
- Partial writes before an error are not modelled:
  - The source stores a land use's ID, and numbers already parsed, before a later token fails.
  - `getDouble` may write its target on a failed parse.
  - The model leaves the table unchanged on any error.
- The memory-allocation failure of `gwater_readGroundwaterParams` is not modelled.
- GetGroundwater: requires a positive subcatchment area and time step. The source divides by both unchecked.
- GetGroundwater: the source also fills some shared scratch fields before its early returns; the model leaves the shared structure untouched on those paths.
- InitState: requires a non-zero pervious fraction. The source divides by it unchecked.
- GetBuildup: requires a buildup function as its input line guarantees (no negative coefficient), a valid math library and non-negative area, curb, buildup and step. Its behaviour on the divisions by zero these exclude is not modelled. The source does not check the sign of the starting buildup; a negative one can only arise from an external loading series with negative values, and advancing such a buildup is out of scope.
- WashoffLoad: requires a positive subcatchment area, a positive mass factor and a land use with a non-zero fraction. The source divides by all three; its callers only wash off land uses covering part of the subcatchment.
- WashoffQual: requires a non-zero mass factor, and a non-zero land-use area for exponential washoff under runoff. The source divides by these.
- ClampState: the lower-depth bound `depth ≥ 0` holds only for an aquifer at least XTOL deep. The source has the same limit, exhibited by `ClampBelowToleranceDepth`. Likewise `θ ≥ wilting point` needs porosity - XTOL ≥ wilting point.
- DebitBuildup: without a buildup function a load that exceeds a positive buildup clears the buildup and credits the whole load, not the excess, so the buildup balance does not close in that case. The model states the balance everywhere else and keeps the source's arithmetic.
- The surface-water term of the built-in lateral flow follows the code: a zero exponent b2 gives a2 whatever the surface water height.
- The monthly pattern factor is read only when the aquifer names a pattern and the month indexes its factors (`PatternsCover`).
