/** Configuration of the 13-node CubeSat thermal network around Venus:
    physical and orbital constants, material properties of the two bounding
    cases, per-node mass/heat capacity/area, the conductance and view-factor
    matrices, the two initial temperature vectors, the critical orbital angles,
    and the case-dependent rules (dissipated power, property bundle, planetary
    view factor).  Node ids are 1..13; indices 13 and 14 of a temperature
    vector hold Venus and deep space. */
module Constants {
  import Text

  // Universal, orbital and environmental constants.
  const SIGMA: real := 0.0000000567
  const ORBITAL_PERIOD: real := 5980.55
  const T_VENUS: real := 228.0
  const T_SPACE: real := 3.0
  const SCV: real := 2611.0
  const GAMMA: real := 0.77

  // Planetary view factors of the three face groups.
  const F_PLANET_ZPLUS: real := 0.8277
  const F_PLANET_LATERAL: real := 0.3638
  const F_PLANET_ZMINUS: real := 0.0

  // Optical properties: bare aluminium, solar array and white coating, BOL and EOL.
  const EPS_AL: real := 0.125
  const EPS_SA_BOL: real := 0.95
  const ALPHA_S_BOL: real := 0.65
  const EPS_SA_EOL: real := 0.85
  const ALPHA_S_EOL: real := 0.92
  const EPS_WTC_BOL: real := 0.89
  const ALPHA_WTC_BOL: real := 0.212
  const EPS_WTC_EOL: real := 0.852
  const ALPHA_WTC_EOL: real := 0.38

  // Efficiency and effective-area de-rating.
  const ETA_ELEC: real := 1.0
  const F_AEFF: real := 1.0

  // Mass [kg], specific heat [J/kg K] and area [m2] of each node kind.
  const MASA_PANEL: real := 0.20565
  const CP_PANEL: real := 1156.57
  const AREA_PANEL: real := 0.045
  const MASA_CARA_Y: real := 0.2493
  const CP_CARA_Y: real := 937.0
  const AREA_CARA_Y: real := 0.09
  const MASA_BANDEJA: real := 0.2493
  const CP_BANDEJA: real := 937.0
  const AREA_BANDEJA: real := 0.09
  const MASA_OBC: real := 5.0
  const CP_OBC: real := 960.0
  const AREA_OBC: real := 0.2 * 0.2
  const MASA_BAT: real := 5.0
  const CP_BAT: real := 2000.0
  const AREA_BAT: real := 0.2 * 0.2

  // Critical orbital angles [deg].
  const THETA_C1: real := 90.0
  const THETA_C2: real := 115.0
  const THETA_C3: real := 245.0
  const THETA_C4: real := 270.0

  /** The four critical angles that cut the orbit into eclipse and
      illumination windows.  They are a parameter of every window predicate,
      so that the strict and the closed variants of a window can be compared. */
  datatype Angles = Angles(c1: real, c2: real, c3: real, c4: real)

  const CRITICAL: Angles := Angles(THETA_C1, THETA_C2, THETA_C3, THETA_C4)

  predicate Increasing(c: Angles)
  {
    c.c1 < c.c2 < c.c3 < c.c4
  }

  /** Conductance matrix C_COND [W/K], row i for node i + 1. */
  function Conductance(): (m: seq<seq<real>>)
    ensures |m| == 13 && forall i :: 0 <= i < 13 ==> |m[i]| == 13
  {
    [
      [0.0, 0.352, 0.0872, 0.0, 0.0, 0.0, 0.0872, 0.0, 0.2241, 0.0, 0.2265, 0.0, 0.0],
      [0.352, 0.0, 0.0, 0.0872, 0.0, 0.0, 0.0, 0.0872, 0.0, 0.2241, 0.2265, 0.0, 0.0],
      [0.0872, 0.0, 0.0, 0.352, 0.0872, 0.0, 0.0, 0.0, 0.2241, 0.0, 0.2265, 0.0, 0.0],
      [0.0, 0.0872, 0.352, 0.0, 0.0, 0.0872, 0.0, 0.0, 0.0, 0.2241, 0.2265, 0.0, 0.0],
      [0.0, 0.0, 0.0872, 0.0, 0.0, 0.352, 0.0872, 0.0, 0.2241, 0.0, 0.2265, 0.0, 0.0],
      [0.0, 0.0, 0.0, 0.0872, 0.352, 0.0, 0.0, 0.0872, 0.0, 0.2241, 0.2265, 0.0, 0.0],
      [0.0872, 0.0, 0.0, 0.0, 0.0872, 0.0, 0.0, 0.352, 0.2241, 0.0, 0.2265, 0.0, 0.0],
      [0.0, 0.0872, 0.0, 0.0, 0.0, 0.0872, 0.352, 0.0, 0.0, 0.2241, 0.2265, 0.0, 0.0],
      [0.2241, 0.0, 0.2241, 0.0, 0.2241, 0.0, 0.2241, 0.0, 0.0, 0.0, 0.0, 0.0, 0.0],
      [0.0, 0.2241, 0.0, 0.2241, 0.0, 0.2241, 0.0, 0.2241, 0.0, 0.0, 0.0, 0.0, 0.0],
      [0.2265, 0.2265, 0.2265, 0.2265, 0.2265, 0.2265, 0.2265, 0.2265, 0.0, 0.0, 0.0, 110.94, 100.94],
      [0.0, 0.0, 0.0, 0.0, 0.0, 0.0, 0.0, 0.0, 0.0, 0.0, 100.94, 0.0, 0.0],
      [0.0, 0.0, 0.0, 0.0, 0.0, 0.0, 0.0, 0.0, 0.0, 0.0, 100.94, 0.0, 0.0]
    ]
  }

  /** Internal view-factor matrix F_VIEW, row i for node i + 1. */
  function ViewFactors(): (m: seq<seq<real>>)
    ensures |m| == 13 && forall i :: 0 <= i < 13 ==> |m[i]| == 13
  {
    [
      [0.0, 0.0, 0.15, 0.0, 0.015, 0.0, 0.15, 0.0, 0.33, 0.0, 0.37, 0.16, 0.0],
      [0.0, 0.0, 0.0, 0.15, 0.0, 0.015, 0.0, 0.15, 0.0, 0.33, 0.37, 0.0, 0.16],
      [0.15, 0.0, 0.0, 0.0, 0.15, 0.0, 0.015, 0.0, 0.33, 0.0, 0.37, 0.16, 0.0],
      [0.0, 0.15, 0.0, 0.0, 0.0, 0.15, 0.0, 0.015, 0.0, 0.33, 0.37, 0.0, 0.16],
      [0.015, 0.0, 0.15, 0.0, 0.0, 0.0, 0.15, 0.0, 0.33, 0.0, 0.37, 0.16, 0.0],
      [0.0, 0.015, 0.0, 0.15, 0.0, 0.0, 0.0, 0.15, 0.0, 0.33, 0.37, 0.0, 0.16],
      [0.15, 0.0, 0.015, 0.0, 0.15, 0.0, 0.0, 0.0, 0.33, 0.0, 0.37, 0.16, 0.0],
      [0.0, 0.15, 0.0, 0.015, 0.0, 0.15, 0.0, 0.0, 0.0, 0.33, 0.37, 0.0, 0.16],
      [0.33, 0.0, 0.33, 0.0, 0.33, 0.0, 0.33, 0.0, 0.0, 0.0, 0.37, 0.39, 0.0],
      [0.0, 0.33, 0.0, 0.33, 0.0, 0.33, 0.0, 0.33, 0.0, 0.0, 0.37, 0.0, 0.39],
      [0.37, 0.37, 0.37, 0.37, 0.37, 0.37, 0.37, 0.37, 0.37, 0.37, 0.0, 0.08, 0.08],
      [0.16, 0.0, 0.16, 0.0, 0.16, 0.0, 0.16, 0.0, 0.39, 0.0, 0.08, 0.0, 0.0],
      [0.0, 0.16, 0.0, 0.16, 0.0, 0.16, 0.0, 0.16, 0.0, 0.39, 0.08, 0.0, 0.0]
    ]
  }

  /** No node conducts to itself, and every conductance is non-negative. */
  lemma ConductanceZeroDiagonal()
    ensures forall i :: 0 <= i < 13 ==> Conductance()[i][i] == 0.0
  {
  }

  lemma ConductanceNonNegative()
    ensures forall i, j :: 0 <= i < 13 && 0 <= j < 13 ==> Conductance()[i][j] >= 0.0
  {
  }

  /** The table is not symmetric: tray -> OBC and OBC -> tray differ. */
  lemma ConductanceNotSymmetric()
    ensures Conductance()[10][11] == 110.94 && Conductance()[11][10] == 100.94
    ensures Conductance()[10][11] != Conductance()[11][10]
  {
  }

  /** No node sees itself, and every view factor is a fraction. */
  lemma ViewFactorsZeroDiagonal()
    ensures forall i :: 0 <= i < 13 ==> ViewFactors()[i][i] == 0.0
  {
  }

  lemma ViewFactorsAreFractions()
    ensures forall i, j :: 0 <= i < 13 && 0 <= j < 13 ==> 0.0 <= ViewFactors()[i][j] <= 1.0
  {
  }

  /** A case's initial vector: 15 absolute temperatures, the last two being
      Venus and deep space. */
  predicate IsInitialVector(v: seq<real>)
  {
    |v| == 15 && v[13] == T_VENUS && v[14] == T_SPACE
    && forall k :: 0 <= k < 15 ==> v[k] > 0.0
  }

  /** T_INICIAL_CALIENTE [K]. */
  function HotInitial(): (v: seq<real>)
    ensures IsInitialVector(v)
  {
    [
      273.15 + 51.768380887451315,
      273.15 + 51.766202110884535,
      273.15 + 23.43624663704486,
      273.15 + 23.43346705086799,
      273.15 + 13.159464848627977,
      273.15 + 13.157062190410727,
      273.15 + 23.43624663704486,
      273.15 + 23.43346705086799,
      273.15 + 17.688041454037204,
      273.15 + 17.679055033100724,
      273.15 + 22.106952394620237,
      273.15 + 22.414968196217615,
      273.15 + 22.153055266061358,
      T_VENUS,
      T_SPACE
    ]
  }

  /** T_INICIAL_FRIO [K]. */
  function ColdInitial(): (v: seq<real>)
    ensures IsInitialVector(v)
  {
    [
      273.15 + 3.304536468119295,
      273.15 + 3.304204908677832,
      273.15 - 19.958827414203995,
      273.15 - 19.959197582088336,
      273.15 - 29.881899035517677,
      273.15 - 29.88200030554924,
      273.15 - 19.958827414203995,
      273.15 - 19.959197582088336,
      273.15 - 22.423850457711808,
      273.15 - 22.425049514203266,
      273.15 - 34.28890318418789,
      273.15 - 34.291808049396565,
      273.15 - 34.30208303181928,
      T_VENUS,
      T_SPACE
    ]
  }

  /** Hot-case dissipated power [W]: the OBC/AOCS (node 12) dissipates 50 W
      strictly inside (0, 108) deg and 15 W strictly inside (236, 272) deg;
      the battery/tank (node 13) dissipates 15 W at every angle; every other
      node dissipates nothing. */
  function HotDissipatedPower(theta: real, node: int): (w: real)
    ensures w == 0.0 || w == 15.0 || w == 50.0
    ensures node == 12 ==> (w == 50.0 <==> 0.0 < theta < 108.0)
    ensures node == 12 ==> (w == 15.0 <==> 236.0 < theta < 272.0)
    ensures node == 13 ==> w == 15.0
    ensures node != 12 && node != 13 ==> w == 0.0
  {
    if node == 12 then
      if 0.0 < theta < 108.0 then 50.0
      else if 236.0 < theta < 272.0 then 15.0
      else 0.0
    else if node == 13 then 15.0
    else 0.0
  }

  /** Cold-case dissipated power: nothing, at any angle, for any node. */
  function ColdDissipatedPower(theta: real, node: int): (w: real)
    ensures w == 0.0
  {
    0.0
  }

  /** The two dissipated-power rules a property bundle can carry. */
  datatype PowerRule = HotRule | ColdRule

  /** `props['get_potencia'](theta, nodo)`: the bundle's rule applied. */
  function DissipatedPower(rule: PowerRule, theta: real, node: int): (w: real)
    ensures w == 0.0 || w == 15.0 || w == 50.0
    ensures rule == ColdRule ==> w == 0.0
  {
    match rule
    case HotRule => HotDissipatedPower(theta, node)
    case ColdRule => ColdDissipatedPower(theta, node)
  }

  /** The property bundle of one case: solar-array and white-coating
      emissivity/absorptivity, the initial vector and the power rule. */
  datatype CaseProps = CaseProps(
    epsSa: real, alphaS: real, epsWc: real, alphaWc: real,
    initial: seq<real>, power: PowerRule)

  const EOL_PROPS: CaseProps :=
    CaseProps(EPS_SA_EOL, ALPHA_S_EOL, EPS_WTC_EOL, ALPHA_WTC_EOL, HotInitial(), HotRule)
  const BOL_PROPS: CaseProps :=
    CaseProps(EPS_SA_BOL, ALPHA_S_BOL, EPS_WTC_BOL, ALPHA_WTC_BOL, ColdInitial(), ColdRule)

  /** `get_propiedades_caso`: never fails.  'caliente' in any letter case
      selects the end-of-life bundle with the hot power rule; every other
      string, not only 'frio', selects the beginning-of-life bundle. */
  function CaseProperties(caso: string): (p: CaseProps)
    ensures IsInitialVector(p.initial)
    ensures p.power == HotRule <==> Text.Lower(caso) == "caliente"
    ensures p == EOL_PROPS || p == BOL_PROPS
    ensures p.initial == HotInitial() <==> p.power == HotRule
  {
    if Text.Lower(caso) == "caliente" then EOL_PROPS else BOL_PROPS
  }

  /** `get_factor_planeta`: nodes 1-2 (Z+) see Venus with 0.8277, nodes 5-6
      (Z-) do not see it, every other id (lateral faces, and also 9-13)
      gets the lateral factor; always a fraction. */
  function PlanetViewFactor(node: int): (f: real)
    ensures 0.0 <= f <= 1.0
    ensures f == 0.0 <==> node == 5 || node == 6
    ensures (node == 1 || node == 2) ==> f == F_PLANET_ZPLUS
    ensures node !in {1, 2, 5, 6} ==> f == F_PLANET_LATERAL
  {
    if node == 1 || node == 2 then F_PLANET_ZPLUS
    else if node == 5 || node == 6 then F_PLANET_ZMINUS
    else F_PLANET_LATERAL
  }

  /** The selector is case-insensitive, and any string that is not
      'caliente' reads as the cold case. */
  lemma CaseSelection(caso: string)
    ensures CaseProperties("CALIENTE") == CaseProperties("caliente") == EOL_PROPS
    ensures Text.Lower(caso) != "caliente" ==> CaseProperties(caso) == CaseProperties("frio")
  {
    assert Text.Lower("CALIENTE") == "caliente";
    assert Text.Lower("caliente") == "caliente";
    assert Text.Lower("frio") != "caliente" by {
      assert |Text.Lower("frio")| == 4;
    }
  }
}
