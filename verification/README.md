# CubeSat thermal network around Venus — a Dafny model

The repository models a 13-node CubeSat in orbit around Venus as a lumped thermal network.
Each node is a panel, a coated Y face, the tray or an avionics box. Two more entries of the
temperature vector hold Venus and deep space.

One explicit-Euler step moves node `i` to `T[i] + dt / (m * cp) * (sum of heat flows)`. The
flows are:

- planetary infrared;
- loss to space;
- direct sun and albedo, each masked by a window of the orbital angle;
- conduction over a row of the conductance table;
- internal radiation over a row of the view-factor table;
- the power the case dissipates.

The orbital integrator applies these equations column by column over one orbit. Three
flux-law scripts compute per-face solar, albedo and infrared loads for a scenario selector
('INC', 'BOL' or 'EOL').

The Dafny modules follow the repository's files:

| module | file(s) | form |
|---|---|---|
| `Numerics` | Python's `//` and `%` on floats, `x**4` | functions and lemmas |
| `Text` | `str.upper`, `str.lower`, `str.strip` | functions and lemmas |
| `Scenario` | the `STATE` parsing shared by the three `carga_*.py` | functions and lemmas |
| `Constants` | `constants.py` | constants, functions and lemmas |
| `NodeBalance` | the node kinds shared by `ecNodales_Frio.py` and `ecNodales_Caliente.py` | functions and lemmas |
| `ColdNodes` | `ecNodales_Frio.py`: its loop-based `_panel_common` | methods with loop invariants |
| `HotNodes` | `ecNodales_Caliente.py`: the hot bundle and power rule | lemmas |
| `SimOrbital` | `simOrbital.py`: `simulate` fills a 15 x steps `array2` in place | methods proved against `History` |
| `SolarLoad` | `carga_solar.py`: `solar_power_face` overwrites masked entries of an array | method plus lemmas |
| `AlbedoLoad` | `carga_albedo.py`: `albedo_power_group` likewise | method plus lemmas |
| `InfraredLoad` | `carga_infrarroja.py` | functions and lemmas |

Arithmetic is on `real`.

numpy's `cos`, `sin` and `radians` are a `Trig` value passed as a parameter. No property
depends on what they compute.

The critical angles are an `Angles` parameter. This lets the strict windows of the node
equations be compared with the closed windows of the flux scripts.

The property bundle that each equation file binds when it is imported is a `CaseProps`
value. `ColdNodes.PROPS` and `HotNodes.PROPS` are those bindings.

## Model

| member | source | states |
|---|---|---|
| Numerics.Pow4 | ecNodales_Frio.py:48-50 | `x**4` is never negative and is 0 at 0 |
| Numerics.FloorDiv | simOrbital.py:71 | `x // m` for m > 0 is the integer k with k*m <= x < (k+1)*m |
| Numerics.FloatMod | simOrbital.py:39 | `x % m` for m > 0 lies in [0, m), differs from x by `x // m` whole multiples of m, and is x itself on [0, m) |
| Numerics.FloorUnique | simOrbital.py:71 | the bracketing integer of `//` is unique |
| Numerics.FloatModShift | simOrbital.py:39 | adding one modulus does not change `%` |
| Text.Lower | constants.py:257 | `str.lower()` on ASCII letters: the result has the input's length, each character is its ASCII lower-case form (A-Z to a-z, every other character kept), and no letter A-Z is left; `Constants.CaseSelection` states what this does to the case selector |
| Text.Upper | carga_solar.py:75 | `str.upper()` on ASCII letters: the result has the input's length, each character is its ASCII upper-case form (a-z to A-Z, every other character kept), and no letter a-z is left; `Scenario.NormalizedIsUpper` uses this to show that normalizing is idempotent |
| Text.Strip | carga_solar.py:75 | `str.strip()` returns a slice of its input that neither starts nor ends with whitespace, cut only where there was whitespace |
| Text.StripTrimmed | carga_solar.py:75 | stripping a string with no whitespace at either end changes nothing |
| Scenario.Normalize | carga_solar.py:75 | `state.upper().strip()` is no longer than `state` and neither starts nor ends with whitespace; `Scenario.NormalizeIdempotent` states that applying it again changes nothing |
| Scenario.ParseMode | carga_solar.py:75-83 | INC, BOL and EOL are chosen exactly when the upper-cased and stripped string is that word; any other string is a `ValueError` carrying the original string |
| Scenario.NormalizeIdempotent | carga_solar.py:75 | `upper().strip()` applied twice equals applying it once |
| Scenario.ParseModeNormalized | carga_solar.py:75-83 | the selector reads only the normalized string: an accepted string and its normalized form select the same mode |
| Scenario.ParseModePadded | carga_solar.py:75-78 | lower case with surrounding whitespace (" bol\n") is accepted as BOL |
| Scenario.ParseModeLowerCase | carga_solar.py:75-81 | "eol" is accepted as EOL |
| Scenario.ParseModeRejects | carga_solar.py:82-83 | a longer word ("BOLD") and the empty string are rejected |
| Constants.Conductance | constants.py:105-119 | the conductance table is 13 x 13 |
| Constants.ConductanceZeroDiagonal | constants.py:105-119 | no node conducts to itself |
| Constants.ConductanceNonNegative | constants.py:105-119 | every conductance is non-negative |
| Constants.ConductanceNotSymmetric | constants.py:116-117 | tray to OBC is 110.94 but OBC to tray is 100.94, so the table is not symmetric |
| Constants.ViewFactors | constants.py:124-138 | the view-factor table is 13 x 13 |
| Constants.ViewFactorsZeroDiagonal | constants.py:124-138 | no node sees itself |
| Constants.ViewFactorsAreFractions | constants.py:124-138 | every view factor lies in [0, 1] |
| Constants.HotInitial | constants.py:143-159 | the hot initial vector has 15 positive entries ending in T_VENUS and T_SPACE |
| Constants.ColdInitial | constants.py:164-180 | the cold initial vector has 15 positive entries ending in T_VENUS and T_SPACE |
| Constants.HotDissipatedPower | constants.py:193-218 | node 12 gives 50 exactly for 0 < theta < 108 and 15 exactly for 236 < theta < 272, with strict bounds; node 13 always gives 15; other nodes give 0; every output is in {0, 15, 50} |
| Constants.ColdDissipatedPower | constants.py:223-239 | the cold rule is 0 for every angle and node |
| Constants.DissipatedPower | constants.py:257-274 | `props['get_potencia']`, the rule the bundle carries: every value is 0, 15 or 50, and the cold rule gives 0 everywhere; the full laws are `Constants.HotDissipatedPower` and `Constants.ColdDissipatedPower` |
| Constants.CaseProperties | constants.py:244-274 | never fails; the hot rule (and the hot initial vector) is chosen exactly when the lower-cased selector is 'caliente'; otherwise the BOL bundle is chosen |
| Constants.CaseSelection | constants.py:257-274 | 'CALIENTE' selects the same bundle as 'caliente'; any string that is not 'caliente' in some letter case selects the 'frio' bundle |
| Constants.PlanetViewFactor | constants.py:276-294 | nodes 1-2 give 0.8277, nodes 5-6 give 0, every other id (9-13 too) gives 0.3638; the result is in [0, 1] and is 0 exactly for nodes 5-6 |
| NodeBalance.SolarMask | ecNodales_Frio.py:19-21 | `_theta_mask_sol`: strictly inside (c1, c2) or (c3, c4); for ordered critical angles a lit angle lies strictly between c1 and c4; `NodeBalance.MasksDisjoint` and `NodeBalance.MasksAtCriticalAngles` state its boundaries |
| NodeBalance.AlbedoMask | ecNodales_Frio.py:23-25 | `_theta_mask_alb`: strictly inside (0, c1) or (c4, 360); an active angle lies in (0, 360) and, for ordered angles, outside [c1, c4] |
| NodeBalance.CosPhi | ecNodales_Frio.py:27-29 | `_cos_phi`, defined as -cos(radians(theta)); `SolarLoad.ZPlusIsNodeCosine` states that it is the Z+ face cosine of the solar script |
| NodeBalance.MasksDisjoint | ecNodales_Frio.py:19-25 | for ordered critical angles the solar and albedo windows never hold together |
| NodeBalance.MasksAtCriticalAngles | ecNodales_Caliente.py:19-23 | at the configured angles, 0, 90 and 270 are outside the albedo window, and 90, 115, 245 and 270 are outside the solar window |
| NodeBalance.PlanetIR | ecNodales_Frio.py:48 | `q_ir` is 0 when the node does not see Venus, and non-negative for non-negative data |
| NodeBalance.SpaceLoss | ecNodales_Frio.py:50 | `q_esp` is negative exactly when the node's fourth power exceeds space's, and is 0 when they are equal |
| NodeBalance.SolarTerm | ecNodales_Frio.py:53 | `q_sol` is 0 outside the solar window; inside it is cos_phi * SCV * area * alpha * de-rating |
| NodeBalance.AlbedoTerm | ecNodales_Frio.py:55 | `q_alb` is 0 outside the albedo window and for a node with view factor 0; inside the window it is F_planet * cos(theta) * SCV * area * alpha * GAMMA * de-rating |
| NodeBalance.CondSum | ecNodales_Frio.py:57-60 | `q_cond`, defined as the left-to-right sum of c * (T[n] - Ti) over the row; `CondSumUniform`, `CondSumIgnoresOwnCoefficient` and `CondSumPrefixOnly` state its properties and `ColdNodes.ConductionLoop` is the loop proved equal to it |
| NodeBalance.RadSum | ecNodales_Frio.py:62-65 | `q_rad`, defined as the left-to-right sum of EPS_AL * SIGMA * fv * area * (T[n]^4 - Ti^4); `RadSumUniform`, `RadSumIgnoresOwnCoefficient` and `RadSumPrefixOnly` state its properties and `ColdNodes.RadiationLoop` is the loop proved equal to it |
| NodeBalance.CondSumUniform | ecNodales_Frio.py:83 | the conduction sum is 0 when every coupled node is at the node's temperature |
| NodeBalance.RadSumUniform | ecNodales_Frio.py:84 | the internal-radiation sum is 0 likewise |
| NodeBalance.CondSumIgnoresOwnCoefficient | ecNodales_Frio.py:83 | the node's diagonal conductance never changes its conduction sum |
| NodeBalance.RadSumIgnoresOwnCoefficient | ecNodales_Frio.py:84 | the node's diagonal view factor never changes its radiation sum |
| NodeBalance.UniformNoExchange | ecNodales_Frio.py:83-84 | a uniform vector exchanges no heat internally |
| NodeBalance.CondSumPrefixOnly | ecNodales_Frio.py:83 | the conduction sum reads only the entries its row covers |
| NodeBalance.RadSumPrefixOnly | ecNodales_Frio.py:84 | the radiation sum reads only the entries its row covers |
| NodeBalance.EulerStep | ecNodales_Frio.py:67 | the step leaves the temperature unchanged when dt or the net flow is 0; with dt > 0 and positive m*cp it rises exactly when the net flow is positive and falls exactly when it is negative |
| NodeBalance.ExposedFlux | ecNodales_Frio.py:44-67 | the net flow `q_ir + q_esp + q_sol + q_alb + q_cond + q_rad` of a panel or Y face, defined as that sum; `NodeBalance.ExposedUpdate` and `NodeBalance.ZMinusSeesNoPlanet` state its properties |
| NodeBalance.ExposedUpdate | ecNodales_Frio.py:42-86 | an exposed node's update returns its own temperature when dt = 0 |
| NodeBalance.PanelUpdate | ecNodales_Caliente.py:31-44 | `_panel_common` returns T[i] when dt = 0 |
| NodeBalance.YFaceUpdate | ecNodales_Caliente.py:46-59 | `_yface_common` returns T[i] when dt = 0 |
| NodeBalance.TrayUpdate | ecNodales_Frio.py:88-92 | `_bandeja_common` returns T[i] when dt = 0 or when the vector is uniform |
| NodeBalance.BoxUpdate | ecNodales_Frio.py:94-99 | `_box_common` returns T[i] when dt = 0; from a uniform vector only the dissipated power moves it |
| NodeBalance.BoxPowerShift | ecNodales_Caliente.py:67-72 | two bundles' box updates differ by exactly dt * (difference of dissipated powers) / (m * cp) |
| NodeBalance.EcNodo | ecNodales_Frio.py:104-141 | wrapper `ecNodoK` updates `T[K-1]` and returns it unchanged when dt = 0 |
| NodeBalance.WrappersUsePlanetViewFactor | ecNodales_Frio.py:104-132 | each exposed wrapper passes `get_factor_planeta` of its own node |
| NodeBalance.ZMinusSeesNoPlanet | ecNodales_Frio.py:116-120 | nodes 5-6 have no planetary IR and no albedo at any angle |
| NodeBalance.ZMinusBlindToVenus | ecNodales_Caliente.py:81-82 | the updates of nodes 5-6 do not depend on Venus's temperature T[13] |
| NodeBalance.TrayIgnoresAngle | ecNodales_Frio.py:134-135 | the tray update depends neither on the angle, the trigonometry nor the case |
| ColdNodes.PropsAreBeginningOfLife | ecNodales_Frio.py:8-14 | the cold file binds the BOL bundle with the zero-power rule |
| ColdNodes.NoDissipation | ecNodales_Frio.py:98 | the cold file's boxes dissipate nothing at any angle |
| ColdNodes.ConductionLoop | ecNodales_Frio.py:57-60 | the accumulation loop computes the conduction sum over the whole row |
| ColdNodes.RadiationLoop | ecNodales_Frio.py:62-65 | the accumulation loop computes the internal-radiation sum over the whole row |
| ColdNodes.PanelCommon | ecNodales_Frio.py:42-67 | the loop-based panel step equals the shared panel balance for the cold bundle |
| ColdNodes.NodeEquation | ecNodales_Frio.py:104-141 | each cold wrapper equals the shared node equation for the cold bundle |
| ColdNodes.InternalNodesKeepUniform | ecNodales_Frio.py:88-99 | in the cold case the tray and both boxes keep a uniform vector's temperature exactly |
| HotNodes.PropsAreEndOfLife | ecNodales_Caliente.py:8-14 | the hot file binds the EOL bundle with the hot power rule |
| HotNodes.BatteryAddsDissipation | ecNodales_Caliente.py:67-72 | node 13's hot update is the cold (zero-power) update plus dt * 15 / (MASA_BAT * CP_BAT), at every angle |
| HotNodes.ObcAddsDissipation | ecNodales_Caliente.py:67-72 | node 12's hot update is the cold update plus dt * P(theta) / (MASA_OBC * CP_OBC) |
| HotNodes.ObcOperationsBand | ecNodales_Caliente.py:67-72 | inside 0 < theta < 108 node 12 gets an extra dt * 50 / (MASA_OBC * CP_OBC) |
| HotNodes.ObcIdleOutsideBands | ecNodales_Caliente.py:67-72 | outside both bands node 12 behaves as in the cold case |
| HotNodes.ObcHeatsInBand | ecNodales_Caliente.py:67-72 | from a uniform vector, with dt > 0 in the operations band, node 12 strictly warms |
| HotNodes.BatteryAlwaysHeats | ecNodales_Caliente.py:67-72 | from a uniform vector with dt > 0 the battery strictly warms at every angle |
| SimOrbital.ThetaDeg | simOrbital.py:36-39 | the orbital angle is in [0, 360) and is 0 at step 0 |
| SimOrbital.ThetaPeriodic | simOrbital.py:36-39 | n steps that add up to one period bring the angle back |
| SimOrbital.StepCount | simOrbital.py:71 | the number of columns is floor(T_TOTAL / DT): steps * dt <= T_TOTAL < (steps + 1) * dt |
| SimOrbital.RemainderDropped | simOrbital.py:71 | a remainder shorter than one step adds no column (6000.5 / 1 gives 6000) |
| SimOrbital.AxisLength | simOrbital.py:91 | `np.arange(0, T_TOTAL, DT)` has ceil(T_TOTAL / DT) entries, none when T_TOTAL <= 0 |
| SimOrbital.AxisMatchesColumns | simOrbital.py:71-91 | the time axis has as many entries as the history has columns exactly when DT divides T_TOTAL |
| SimOrbital.DefaultRun | simOrbital.py:22-23 | the script's own configuration runs 6000 columns against a 6000-entry axis |
| SimOrbital.BuildNodeFuncs | simOrbital.py:57-64 | the node equations come in the fixed order 1..13 |
| SimOrbital.JacobiStep | simOrbital.py:81-89 | entry i of a new column is node i+1's equation on the previous column, with row i of both tables and the column's angle; entries 13 and 14 are T_VENUS and T_SPACE |
| SimOrbital.History | simOrbital.py:71-89 | column 0 is the initial vector; every later column has the environment constants in rows 13 and 14 |
| SimOrbital.EnvironmentRowsConstant | simOrbital.py:88-89 | from a case's initial vector, rows 13 and 14 hold T_VENUS and T_SPACE in every column, including column 0 |
| SimOrbital.JacobiDependsOnPreviousColumn | simOrbital.py:81-86 | column p depends on earlier columns only through column p - 1 |
| SimOrbital.ZeroStepFixesColumn | simOrbital.py:81-89 | with dt = 0 a column with the environment constants maps to itself; this is a fact about the `History` recurrence, since `simulate` itself fails at DT = 0 (simOrbital.py:71) |
| SimOrbital.ZeroStepStationary | simOrbital.py:81-89 | with dt = 0 every column of the `History` recurrence is the initial vector; this describes the recurrence, not a possible run, since `simulate` itself fails at DT = 0 (simOrbital.py:71) |
| SimOrbital.Column | simOrbital.py:82 | `temps[:, p]` read as a 15-entry vector |
| SimOrbital.FillNodes | simOrbital.py:85-86 | the inner loop writes nodes 1..13 of column p as the Jacobi step of `prev` and touches no other cell |
| SimOrbital.StepColumn | simOrbital.py:81-89 | iteration p makes column p the Jacobi step of column p - 1 and leaves every other column unchanged |
| SimOrbital.NewHistory | simOrbital.py:71-73 | a fresh 15 x steps array whose column 0 is the initial vector and whose other columns are 0, as `np.zeros` gives |
| SimOrbital.Integrate | simOrbital.py:81-89 | after the outer loop every column equals the history |
| SimOrbital.Simulate | simOrbital.py:66-92 | `simulate` returns a 15 x floor(T_TOTAL / DT) array whose column 0 is the case's initial vector and whose every cell is the history's; the time axis has ceil(T_TOTAL / DT) entries j * DT |
| SolarLoad.GetParams | carga_solar.py:70-83 | INC gives (1, 1, 1, 1); BOL/EOL give that life stage's absorptivity, area 2 * AREA_PANEL, F_AEFF and ETA_ELEC; any other selector is a `ValueError` |
| SolarLoad.AcceptedParamsPositive | carga_solar.py:76-81 | every accepted selector gives a positive base product |
| SolarLoad.GetParamsNormalized | carga_solar.py:75 | the parameters depend only on the normalized selector |
| SolarLoad.Window | carga_solar.py:44-48 | the `cond_*` windows, defined face by face with closed bounds; `SolarLoad.WindowsClosed`, `SolarLoad.ZPlusWindowVersusNodeMask` and `SolarLoad.ZFacesShareOnlyBounds` state its properties |
| SolarLoad.FaceCos | carga_solar.py:51-55 | the `cos_*` cosines, defined face by face; `SolarLoad.OppositeCosines` and `SolarLoad.ZPlusIsNodeCosine` state its properties |
| SolarLoad.SolarBase | carga_solar.py:94 | `base`, defined as alpha_s * SCV * Ai * f_Aeff * eta; `SolarLoad.AcceptedParamsPositive` states that it is positive for every accepted selector |
| SolarLoad.SolarEntry | carga_solar.py:94-98 | an entry outside the window is 0 |
| SolarLoad.SolarPowerFace | carga_solar.py:88-99 | the result has one entry per angle; each is the base times cos_fn where the window holds and exactly 0 where it does not |
| SolarLoad.YFacesDark | carga_solar.py:48-64 | the Y faces receive 0 at every angle |
| SolarLoad.OppositeCosines | carga_solar.py:51-55 | the Z- cosine is minus the Z+ one and the X- cosine is minus the X+ one, pointwise; the Y cosine is 0 |
| SolarLoad.ZPlusIsNodeCosine | carga_solar.py:51 | the Z+ cosine at the radians of an angle is the node equations' `_cos_phi` |
| SolarLoad.WindowsClosed | carga_solar.py:44-47 | every window includes its bounds |
| SolarLoad.ZPlusWindowVersusNodeMask | carga_solar.py:44 | the closed Z+ window is the strict solar mask plus exactly the four critical angles |
| SolarLoad.ZFacesShareOnlyBounds | carga_solar.py:44-45 | Z+ and Z- are lit together only at c1 and c4 |
| AlbedoLoad.MaskOutEclipse | carga_albedo.py:38 | `mask_out_eclipse` at one angle, defined as theta <= c1 or theta >= c4; `AlbedoLoad.MaskIsZMinusWindow` and `AlbedoLoad.MaskVersusNodeMask` state its properties |
| AlbedoLoad.EclipseMask | carga_albedo.py:38 | the mask holds at an angle exactly when it is <= c1 or >= c4 |
| AlbedoLoad.GetParams | carga_albedo.py:43-56 | INC gives all ones; BOL/EOL give that life stage's absorptivity with AREA_CARA_Y; any other selector is a `ValueError` |
| AlbedoLoad.SelectorsAgree | carga_albedo.py:48-56 | the albedo and solar selectors accept the same strings with the same absorptivity; for BOL/EOL their areas are equal (AREA_CARA_Y = 2 * AREA_PANEL = 0.09) |
| AlbedoLoad.AlbedoBase | carga_albedo.py:66 | `base`, defined as alpha_s * GAMMA * SCV * F_i * Ai * f_Aeff * eta; `AlbedoLoad.AlbedoBaseZero` states that it is 0 for F_i = 0 |
| AlbedoLoad.AlbedoBaseZero | carga_albedo.py:66 | a group with F_i = 0 has a zero base |
| AlbedoLoad.AlbedoEntry | carga_albedo.py:66-68 | an entry outside the mask is 0 |
| AlbedoLoad.AlbedoPowerGroup | carga_albedo.py:61-69 | the result has one entry per angle: base * cos(theta) where the mask holds, 0 where it does not, and 0 everywhere when F_i = 0 |
| AlbedoLoad.GroupFactor | carga_albedo.py:75-79 | each group factor is in [0, 1] and is 0 exactly for Z- |
| AlbedoLoad.GroupsMatchNodeFactors | carga_albedo.py:75-79 | the group factors are the planetary view factors of the nodes on those faces |
| AlbedoLoad.ZMinusGroupDark | carga_albedo.py:77 | the Z- group receives no albedo at any angle, whatever the mask |
| AlbedoLoad.MaskIsZMinusWindow | carga_albedo.py:38 | the out-of-eclipse mask is the solar script's Z- window |
| AlbedoLoad.MaskVersusNodeMask | carga_albedo.py:38 | on [0, 360) the closed mask is the node equations' strict albedo mask plus exactly the angles 0, c1 and c4 |
| InfraredLoad.GetParams | carga_infrarroja.py:39-65 | INC gives unit emissivities; BOL/EOL give that stage's solar-array and coating emissivities; the area is always 1; any other selector is a `ValueError` |
| InfraredLoad.AcceptedEmissivitiesAreFractions | carga_infrarroja.py:47-62 | every accepted selector gives emissivities in (0, 1] |
| InfraredLoad.IrValue | carga_infrarroja.py:75 | the flux is 0 when F_i = 0 and non-negative for non-negative inputs |
| InfraredLoad.IrPower | carga_infrarroja.py:70-76 | npts copies of the one value; all zero when F_i = 0; non-negative for non-negative inputs |
| InfraredLoad.IrPowerConstant | carga_infrarroja.py:75-76 | any two entries are equal: the curve is flat in theta |
| InfraredLoad.IrPowerIgnoresArea | carga_infrarroja.py:70-76 | the Ai argument does not change the result |
| InfraredLoad.GroupFactor | carga_infrarroja.py:82-87 | each group factor is in [0, 1] and is 0 exactly for Z- |
| InfraredLoad.GroupMaterial | carga_infrarroja.py:82-87 | the coating is used exactly for the Y group |
| InfraredLoad.GroupCurve | carga_infrarroja.py:113-115 | each group's curve has npts entries |
| InfraredLoad.Emissivity | carga_infrarroja.py:114 | `eps_sa_fn()` or `eps_wtc_fn()` chosen by material, defined by cases; `InfraredLoad.GroupEmissivities` and `InfraredLoad.AcceptedEmissivitiesAreFractions` state its properties |
| InfraredLoad.GroupEmissivities | carga_infrarroja.py:113-115 | the Y group uses the coating emissivity; the other groups use the solar-array emissivity |
| InfraredLoad.ZMinusGroupDark | carga_infrarroja.py:84 | the Z- group's curve is identically 0 |
| InfraredLoad.AcceptedCurvesNonNegative | carga_infrarroja.py:113-115 | for an accepted selector every group's curve is non-negative |
| InfraredLoad.YFaceNodeMatchesGroup | carga_infrarroja.py:75 | the planetary IR of a coated Y-face node equals the Y group's per-area flux times the face area |

## Left out

- Plotting is left out because it only draws output: `main` in the three `carga_*.py` scripts, and `plot_all_nodes` and `plot_aft_windows` in `simOrbital.py`. For the same reason the AFT limits in `constants.py` are not modelled; only the plots use them.
- Console interaction is left out because it is I/O: `pick_case`, `print_extremes` and `main` in `simOrbital.py`. A caller of `SimOrbital.Simulate` passes the case string and the equation module's bundle, as `pick_case` would.
- `_panel_step` in `ecNodales_Frio.py` is dead code. It only raises `RuntimeError`.
- Floats are modelled as exact reals, so rounding is not modelled. `cos`, `sin`, `radians` and pi are uninterpreted. The model therefore claims nothing about concrete trajectories or thermal stability.
- The import-time `props` binding of each equation file is modelled as the constant `PROPS` of `ColdNodes` and `HotNodes`. The shared balance takes it as a parameter.
- The hot file's balance functions use generator sums and are modelled directly by the functions of `NodeBalance`. The cold file's `_yface_common`, `_bandeja_common` and `_box_common` are modelled the same way. Only the cold `_panel_common` has loops, so only it is a method (`ColdNodes.PanelCommon`).
- In `simulate`, `prev` is a numpy view of column p - 1, while the model reads that column as a value. Iteration p never writes column p - 1, so the two read the same numbers.
- `SimOrbital.Simulate` requires at least one step, DT > 0 and a non-zero period. For the script's T_TOTAL = 6000 and at least two columns, these are the source's own failure cases. With no steps the source fails at `temps[:, 0] = T0`. With DT = 0 it divides by zero, and so does period 0 once column 1 is computed. With DT < 0 the column count is negative, which numpy refuses.
- The angle grids `th` of the flux scripts (`np.linspace`) and the module-level `STATE` strings are left out. The laws take any angle sequence and any selector.
- The face and group labels of `FACES` and `GROUPS` are left out; the plot legends are their only use. The returned titles are kept in the parameter records.
- The emissivity thunks returned by the infrared `get_params` are modelled as their values.
- `AlbedoLoad.AlbedoPowerGroup` requires one mask entry per angle. numpy's boolean indexing raises for any other length.
- `Scenario.ParseMode` upper-cases only ASCII letters. Python also maps some non-ASCII letters to ASCII capitals, for example the dotless i, so a selector such as "ınc" is accepted by the scripts but rejected here.
- `Constants.CaseProperties` has no default argument, unlike `get_propiedades_caso(caso='caliente')`. Every caller in the core passes the selector explicitly.
- `Constants.CaseProperties` lower-cases only ASCII letters, in the same way. No non-ASCII character lower-cases to a single letter of 'caliente': the Kelvin sign maps to 'k', which 'caliente' does not contain, and 'İ' (U+0130) lower-cases to two characters, 'i' followed by U+0307, so the comparison still fails. So the selection is the same.
- The comment beside `c1` in `carga_albedo.py` says about 115 degrees. The value actually used is `THETA_C1` = 90, and the model uses the value.
