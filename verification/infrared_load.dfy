/** The per-group planetary infrared law: `eps_i * F_i * SIGMA * T_VENUS^4`,
    the same at every orbital angle. */
module InfraredLoad {
  import opened Numerics
  import opened Constants
  import opened Scenario
  import NodeBalance

  /** The tuple `(eps_sa, eps_wtc, Ai, titulo)`; the two emissivity thunks
      of the script are their values here. */
  datatype IrParams = IrParams(epsSa: real, epsWtc: real, ai: real, title: string)

  /** `get_params`: 'INC' has unit emissivities, 'BOL' and 'EOL' the
      solar-array and white-coating emissivities of that life stage; the area
      is always 1; any other selector is a `ValueError` carrying the string. */
  function GetParams(state: string): (r: Result<IrParams>)
    ensures r.Ok? <==> ParseMode(state).Ok?
    ensures r.Ok? ==> r.value.ai == 1.0
    ensures ParseMode(state) == Ok(Inc) ==> r.Ok? && r.value.epsSa == 1.0 && r.value.epsWtc == 1.0
    ensures ParseMode(state) == Ok(Bol) ==> r.Ok? && r.value.epsSa == EPS_SA_BOL && r.value.epsWtc == EPS_WTC_BOL
    ensures ParseMode(state) == Ok(Eol) ==> r.Ok? && r.value.epsSa == EPS_SA_EOL && r.value.epsWtc == EPS_WTC_EOL
    ensures r.ValueError? ==> r == ValueError(state)
  {
    match ParseMode(state)
    case Ok(Inc) => Ok(IrParams(1.0, 1.0, 1.0, "Flujo infrarrojo incidente"))
    case Ok(Bol) => Ok(IrParams(EPS_SA_BOL, EPS_WTC_BOL, 1.0, "Flujo infrarrojo absorbido en BOL"))
    case Ok(Eol) => Ok(IrParams(EPS_SA_EOL, EPS_WTC_EOL, 1.0, "Flujo infrarrojo absorbido en EOL"))
    case ValueError(s) => ValueError(s)
  }

  /** Every accepted selector yields emissivities that are fractions. */
  lemma AcceptedEmissivitiesAreFractions(state: string)
    requires GetParams(state).Ok?
    ensures 0.0 < GetParams(state).value.epsSa <= 1.0
    ensures 0.0 < GetParams(state).value.epsWtc <= 1.0
  {
  }

  /** `value` in `ir_power`. */
  function IrValue(epsi: real, fi: real): (v: real)
    ensures fi == 0.0 ==> v == 0.0
    ensures epsi >= 0.0 && fi >= 0.0 ==> v >= 0.0
  {
    var k := epsi * fi;
    assert epsi >= 0.0 && fi >= 0.0 ==> k >= 0.0;
    k * SIGMA * Pow4(T_VENUS)
  }

  /** `ir_power`: `npts` copies of one value, whatever the angle and the
      area argument. */
  function IrPower(fi: real, epsi: real, ai: real, npts: nat): (r: seq<real>)
    ensures |r| == npts
    ensures forall i :: 0 <= i < npts ==> r[i] == IrValue(epsi, fi)
    ensures fi == 0.0 ==> forall i :: 0 <= i < npts ==> r[i] == 0.0
    ensures epsi >= 0.0 && fi >= 0.0 ==> forall i :: 0 <= i < npts ==> r[i] >= 0.0
  {
    seq(npts, i => IrValue(epsi, fi))
  }

  /** The curve is flat: any two entries are equal. */
  lemma IrPowerConstant(fi: real, epsi: real, ai: real, npts: nat, i: nat, j: nat)
    requires i < npts && j < npts
    ensures IrPower(fi, epsi, ai, npts)[i] == IrPower(fi, epsi, ai, npts)[j]
  {
  }

  /** The area argument is unused. */
  lemma IrPowerIgnoresArea(fi: real, epsi: real, ai: real, ai': real, npts: nat)
    ensures IrPower(fi, epsi, ai, npts) == IrPower(fi, epsi, ai', npts)
  {
  }

  // ---------------------------------------------------------------
  // The face groups
  // ---------------------------------------------------------------

  datatype IrGroup = IrZPlus | IrZMinus | IrXFaces | IrYFaces
  datatype Material = SolarArray | WhiteCoating

  /** `GROUPS`: view factor and material of each face group. */
  function GroupFactor(g: IrGroup): (f: real)
    ensures 0.0 <= f <= 1.0
    ensures f == 0.0 <==> g == IrZMinus
  {
    match g
    case IrZPlus => F_PLANET_ZPLUS
    case IrZMinus => 0.0
    case IrXFaces => F_PLANET_LATERAL
    case IrYFaces => F_PLANET_LATERAL
  }

  function GroupMaterial(g: IrGroup): (m: Material)
    ensures m == WhiteCoating <==> g == IrYFaces
  {
    if g == IrYFaces then WhiteCoating else SolarArray
  }

  /** `eps_sa_fn()` or `eps_wtc_fn()` by material. */
  function Emissivity(p: IrParams, m: Material): real
  {
    match m
    case SolarArray => p.epsSa
    case WhiteCoating => p.epsWtc
  }

  /** The curve drawn for one group. */
  function GroupCurve(p: IrParams, g: IrGroup, npts: nat): (r: seq<real>)
    ensures |r| == npts
  {
    IrPower(GroupFactor(g), Emissivity(p, GroupMaterial(g)), p.ai, npts)
  }

  /** The Y faces use the white-coating emissivity, the other groups the
      solar-array one. */
  lemma GroupEmissivities(p: IrParams, g: IrGroup, npts: nat)
    ensures g == IrYFaces ==> GroupCurve(p, g, npts) == IrPower(F_PLANET_LATERAL, p.epsWtc, p.ai, npts)
    ensures g != IrYFaces ==> GroupCurve(p, g, npts) == IrPower(GroupFactor(g), p.epsSa, p.ai, npts)
  {
  }

  /** The Z- group's curve is identically 0. */
  lemma ZMinusGroupDark(p: IrParams, npts: nat)
    ensures forall i :: 0 <= i < npts ==> GroupCurve(p, IrZMinus, npts)[i] == 0.0
  {
  }

  /** For an accepted selector every group's curve is non-negative. */
  lemma AcceptedCurvesNonNegative(state: string, g: IrGroup, npts: nat)
    requires GetParams(state).Ok?
    ensures forall i :: 0 <= i < npts ==> GroupCurve(GetParams(state).value, g, npts)[i] >= 0.0
  {
    AcceptedEmissivitiesAreFractions(state);
  }

  /** The planetary IR a coated Y-face node absorbs in the node equations is
      the Y group's per-area flux, for the same emissivity, times the face
      area. */
  lemma YFaceNodeMatchesGroup(p: CaseProps)
    ensures NodeBalance.PlanetIR(NodeBalance.YFaceSurface(p), F_PLANET_LATERAL, T_VENUS)
            == IrValue(p.epsWc, F_PLANET_LATERAL) * AREA_CARA_Y
  {
    var e := p.epsWc;
    assert NodeBalance.PlanetIR(NodeBalance.YFaceSurface(p), F_PLANET_LATERAL, T_VENUS)
           == (F_PLANET_LATERAL * e * AREA_CARA_Y) * SIGMA * Pow4(T_VENUS) * 1.0;
    assert IrValue(e, F_PLANET_LATERAL) == (e * F_PLANET_LATERAL) * SIGMA * Pow4(T_VENUS);
  }
}
