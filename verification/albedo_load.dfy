/** The per-group albedo law: a base product times the cosine of the orbital
    angle, zeroed inside the eclipse.  Angles are in radians, as the script
    uses them; the out-of-eclipse mask has closed bounds, unlike the strict
    albedo mask of the node equations. */
module AlbedoLoad {
  import opened Numerics
  import opened Constants
  import opened Scenario
  import NodeBalance
  import SolarLoad

  /** `mask_out_eclipse` at one angle: at or before c1, or at or after c4. */
  predicate MaskOutEclipse(c: Angles, t: real)
  {
    t <= c.c1 || t >= c.c4
  }

  /** `mask_out_eclipse` over an angle grid. */
  function EclipseMask(c: Angles, th: seq<real>): (m: seq<bool>)
    ensures |m| == |th|
    ensures forall i :: 0 <= i < |th| ==> (m[i] <==> MaskOutEclipse(c, th[i]))
  {
    seq(|th|, i requires 0 <= i < |th| => MaskOutEclipse(c, th[i]))
  }

  /** The tuple `(alpha_s, A_i, f_Aeff, eta, titulo)`. */
  datatype AlbedoParams = AlbedoParams(alphaS: real, ai: real, fAeff: real, eta: real, title: string)

  /** `get_params`: 'INC' is the per-unit-area incident flux, 'BOL' and 'EOL'
      the absorbed power of one Y-face-sized area at that absorptivity; any
      other selector is a `ValueError` carrying the string. */
  function GetParams(state: string): (r: Result<AlbedoParams>)
    ensures r.Ok? <==> ParseMode(state).Ok?
    ensures ParseMode(state) == Ok(Inc) ==>
              r == Ok(AlbedoParams(1.0, 1.0, 1.0, 1.0, "Flujo por albedo incidente"))
    ensures ParseMode(state) == Ok(Bol) ==>
              r.Ok? && r.value.alphaS == ALPHA_S_BOL && r.value.ai == AREA_CARA_Y
              && r.value.fAeff == F_AEFF && r.value.eta == ETA_ELEC
    ensures ParseMode(state) == Ok(Eol) ==>
              r.Ok? && r.value.alphaS == ALPHA_S_EOL && r.value.ai == AREA_CARA_Y
              && r.value.fAeff == F_AEFF && r.value.eta == ETA_ELEC
    ensures r.ValueError? ==> r == ValueError(state)
  {
    match ParseMode(state)
    case Ok(Inc) => Ok(AlbedoParams(1.0, 1.0, 1.0, 1.0, "Flujo por albedo incidente"))
    case Ok(Bol) => Ok(AlbedoParams(ALPHA_S_BOL, AREA_CARA_Y, F_AEFF, ETA_ELEC, "Flujo por albedo absorbido en BOL"))
    case Ok(Eol) => Ok(AlbedoParams(ALPHA_S_EOL, AREA_CARA_Y, F_AEFF, ETA_ELEC, "Flujo por albedo absorbido en EOL"))
    case ValueError(s) => ValueError(s)
  }

  /** The albedo and the direct-sun selectors accept the same strings and
      agree on the absorptivity; for BOL and EOL their areas are also equal
      (AREA_CARA_Y = 2 * AREA_PANEL = 0.09). */
  lemma SelectorsAgree(state: string)
    ensures GetParams(state).Ok? <==> SolarLoad.GetParams(state).Ok?
    ensures GetParams(state).Ok? ==>
              GetParams(state).value.alphaS == SolarLoad.GetParams(state).value.alphaS
    ensures ParseMode(state) == Ok(Bol) || ParseMode(state) == Ok(Eol) ==>
              GetParams(state).value.ai == SolarLoad.GetParams(state).value.ai
  {
  }

  /** `base` in `albedo_power_group`. */
  function AlbedoBase(alphaS: real, ai: real, fAeff: real, eta: real, fi: real): real
  {
    alphaS * GAMMA * SCV * fi * ai * fAeff * eta
  }

  /** A face group that does not see the planet gets no albedo. */
  lemma AlbedoBaseZero(alphaS: real, ai: real, fAeff: real, eta: real)
    ensures AlbedoBase(alphaS, ai, fAeff, eta, 0.0) == 0.0
  {
    assert alphaS * GAMMA * SCV * 0.0 == 0.0;
  }

  /** One entry of `albedo_power_group`. */
  function AlbedoEntry(alphaS: real, ai: real, fAeff: real, eta: real, fi: real,
                       trig: Trig, lit: bool, t: real): (q: real)
    ensures !lit ==> q == 0.0
  {
    if lit then AlbedoBase(alphaS, ai, fAeff, eta, fi) * trig.cos(t) else 0.0
  }

  /** `albedo_power_group`: the array `base * cos(theta)`, whose entries
      outside the mask are then overwritten with 0.  The mask must have one
      entry per angle. */
  method AlbedoPowerGroup(alphaS: real, ai: real, fAeff: real, eta: real, fi: real,
                          theta: seq<real>, mask: seq<bool>, trig: Trig)
    returns (q: seq<real>)
    requires |mask| == |theta|
    ensures |q| == |theta|
    ensures forall i :: 0 <= i < |theta| ==> q[i] == AlbedoEntry(alphaS, ai, fAeff, eta, fi, trig, mask[i], theta[i])
    ensures forall i :: 0 <= i < |theta| && !mask[i] ==> q[i] == 0.0
    ensures fi == 0.0 ==> forall i :: 0 <= i < |theta| ==> q[i] == 0.0
  {
    var base := AlbedoBase(alphaS, ai, fAeff, eta, fi);
    var a := new real[|theta|];
    for i := 0 to a.Length
      invariant forall j :: 0 <= j < i ==> a[j] == AlbedoEntry(alphaS, ai, fAeff, eta, fi, trig, true, theta[j])
    {
      a[i] := base * trig.cos(theta[i]);
    }
    for i := 0 to a.Length
      invariant forall j :: 0 <= j < i ==> a[j] == AlbedoEntry(alphaS, ai, fAeff, eta, fi, trig, mask[j], theta[j])
      invariant forall j :: i <= j < a.Length ==> a[j] == AlbedoEntry(alphaS, ai, fAeff, eta, fi, trig, true, theta[j])
    {
      if !mask[i] {
        a[i] := 0.0;
      }
    }
    q := a[..];
    if fi == 0.0 {
      AlbedoBaseZero(alphaS, ai, fAeff, eta);
    }
  }

  // ---------------------------------------------------------------
  // The face groups and the masks
  // ---------------------------------------------------------------

  datatype Group = GroupZPlus | GroupZMinus | GroupLateral

  /** `GROUPS`: the planetary view factor of each face group. */
  function GroupFactor(g: Group): (f: real)
    ensures 0.0 <= f <= 1.0
    ensures f == 0.0 <==> g == GroupZMinus
  {
    match g
    case GroupZPlus => F_PLANET_ZPLUS
    case GroupZMinus => 0.0
    case GroupLateral => F_PLANET_LATERAL
  }

  /** The group factors are the planetary view factors of the nodes on those
      faces: Z+ (nodes 1-2), Z- (nodes 5-6) and the lateral faces (3-4, 7-10). */
  lemma GroupsMatchNodeFactors(node: int)
    requires 1 <= node <= 10
    ensures (node == 1 || node == 2) ==> GroupFactor(GroupZPlus) == PlanetViewFactor(node)
    ensures (node == 5 || node == 6) ==> GroupFactor(GroupZMinus) == PlanetViewFactor(node)
    ensures node !in {1, 2, 5, 6} ==> GroupFactor(GroupLateral) == PlanetViewFactor(node)
  {
  }

  /** The Z- group gets no albedo at any angle, lit or not. */
  lemma ZMinusGroupDark(alphaS: real, ai: real, fAeff: real, eta: real, trig: Trig, lit: bool, t: real)
    ensures AlbedoEntry(alphaS, ai, fAeff, eta, GroupFactor(GroupZMinus), trig, lit, t) == 0.0
  {
    AlbedoBaseZero(alphaS, ai, fAeff, eta);
  }

  /** The out-of-eclipse mask is the Z- direct-sun window. */
  lemma MaskIsZMinusWindow(c: Angles, t: real)
    ensures MaskOutEclipse(c, t) <==> SolarLoad.Window(SolarLoad.ZMinus, c, t)
  {
  }

  /** On one turn [0, 360) with critical angles strictly inside it, the
      closed out-of-eclipse mask is the strict albedo mask of the node
      equations plus exactly the angles 0, c1 and c4. */
  lemma MaskVersusNodeMask(c: Angles, t: real)
    requires Increasing(c) && 0.0 < c.c1 && c.c4 < 360.0 && 0.0 <= t < 360.0
    ensures NodeBalance.AlbedoMask(c, t) ==> MaskOutEclipse(c, t)
    ensures MaskOutEclipse(c, t) && !NodeBalance.AlbedoMask(c, t) <==> t == 0.0 || t == c.c1 || t == c.c4
  {
  }
}
