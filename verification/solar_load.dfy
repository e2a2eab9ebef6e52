/** The per-face direct-sun law: a base product times the face's
    illumination cosine, zeroed outside the face's angular window.  Angles
    here are in radians, as the script uses them, and the windows have
    closed bounds, unlike the strict mask of the node equations. */
module SolarLoad {
  import opened Numerics
  import opened Constants
  import opened Scenario
  import NodeBalance

  datatype Face = ZPlus | ZMinus | XPlus | XMinus | YPlus | YMinus

  /** The `cond_*` windows of `FACES`. */
  predicate Window(face: Face, c: Angles, t: real)
  {
    match face
    case ZPlus => (t >= c.c1 && t <= c.c2) || (t >= c.c3 && t <= c.c4)
    case ZMinus => t <= c.c1 || t >= c.c4
    case XPlus => t >= c.c3
    case XMinus => t <= c.c2
    case YPlus => false
    case YMinus => false
  }

  /** The `cos_*` illumination cosines of `FACES`, sign included. */
  function FaceCos(face: Face, trig: Trig, t: real): real
  {
    match face
    case ZPlus => -trig.cos(t)
    case ZMinus => trig.cos(t)
    case XPlus => -trig.sin(t)
    case XMinus => trig.sin(t)
    case YPlus => 0.0
    case YMinus => 0.0
  }

  /** The tuple `(alpha_s, A_i, f_Aeff, eta, titulo)`. */
  datatype SolarParams = SolarParams(alphaS: real, ai: real, fAeff: real, eta: real, title: string)

  /** `get_params`: 'INC' is the per-unit-area incident flux, 'BOL' and 'EOL'
      the absorbed power of a pair of panels at that absorptivity; any other
      selector is a `ValueError` carrying the string. */
  function GetParams(state: string): (r: Result<SolarParams>)
    ensures r.Ok? <==> ParseMode(state).Ok?
    ensures ParseMode(state) == Ok(Inc) ==>
              r == Ok(SolarParams(1.0, 1.0, 1.0, 1.0, "Flujo solar incidente"))
    ensures ParseMode(state) == Ok(Bol) ==>
              r.Ok? && r.value.alphaS == ALPHA_S_BOL && r.value.ai == 2.0 * AREA_PANEL
              && r.value.fAeff == F_AEFF && r.value.eta == ETA_ELEC
    ensures ParseMode(state) == Ok(Eol) ==>
              r.Ok? && r.value.alphaS == ALPHA_S_EOL && r.value.ai == 2.0 * AREA_PANEL
              && r.value.fAeff == F_AEFF && r.value.eta == ETA_ELEC
    ensures r.ValueError? ==> r == ValueError(state)
  {
    match ParseMode(state)
    case Ok(Inc) => Ok(SolarParams(1.0, 1.0, 1.0, 1.0, "Flujo solar incidente"))
    case Ok(Bol) => Ok(SolarParams(ALPHA_S_BOL, AREA_PANEL * 2.0, F_AEFF, ETA_ELEC, "Flujo solar absorbido en BOL"))
    case Ok(Eol) => Ok(SolarParams(ALPHA_S_EOL, AREA_PANEL * 2.0, F_AEFF, ETA_ELEC, "Flujo solar absorbido en EOL"))
    case ValueError(s) => ValueError(s)
  }

  /** Every accepted selector yields a positive base product, so the sign of
      a lit entry is the sign of the face cosine. */
  lemma AcceptedParamsPositive(state: string)
    requires GetParams(state).Ok?
    ensures var p := GetParams(state).value;
            SolarBase(p.alphaS, p.ai, p.fAeff, p.eta) > 0.0
  {
    var p := GetParams(state).value;
    assert p.alphaS > 0.0 && p.ai > 0.0 && p.fAeff > 0.0 && p.eta > 0.0;
    assert p.alphaS * SCV > 0.0;
    assert p.alphaS * SCV * p.ai > 0.0;
    assert p.alphaS * SCV * p.ai * p.fAeff > 0.0;
  }

  /** The selector reads only the normalized string. */
  lemma GetParamsNormalized(state: string)
    requires GetParams(state).Ok?
    ensures GetParams(Normalize(state)) == GetParams(state)
  {
    ParseModeNormalized(state);
  }

  /** `base` in `solar_power_face`: absorptivity, solar constant at Venus,
      area, effective-area factor and efficiency. */
  function SolarBase(alphaS: real, ai: real, fAeff: real, eta: real): real
  {
    alphaS * SCV * ai * fAeff * eta
  }

  /** One entry of `solar_power_face`, lit or masked. */
  function SolarEntry(alphaS: real, ai: real, fAeff: real, eta: real,
                      cosFn: real -> real, lit: bool, t: real): (q: real)
    ensures !lit ==> q == 0.0
  {
    if lit then SolarBase(alphaS, ai, fAeff, eta) * cosFn(t) else 0.0
  }

  /** `solar_power_face`: the array `base * cos_fn(theta)`, whose entries
      outside the window are then overwritten with 0. */
  method SolarPowerFace(alphaS: real, ai: real, fAeff: real, eta: real,
                        cosFn: real -> real, condFn: real -> bool, theta: seq<real>)
    returns (q: seq<real>)
    ensures |q| == |theta|
    ensures forall i :: 0 <= i < |theta| ==>
              q[i] == SolarEntry(alphaS, ai, fAeff, eta, cosFn, condFn(theta[i]), theta[i])
    ensures forall i :: 0 <= i < |theta| && !condFn(theta[i]) ==> q[i] == 0.0
  {
    var base := SolarBase(alphaS, ai, fAeff, eta);
    var a := new real[|theta|];
    for i := 0 to a.Length
      invariant forall j :: 0 <= j < i ==> a[j] == SolarEntry(alphaS, ai, fAeff, eta, cosFn, true, theta[j])
    {
      a[i] := base * cosFn(theta[i]);
    }
    for i := 0 to a.Length
      invariant forall j :: 0 <= j < i ==>
                  a[j] == SolarEntry(alphaS, ai, fAeff, eta, cosFn, condFn(theta[j]), theta[j])
      invariant forall j :: i <= j < a.Length ==> a[j] == SolarEntry(alphaS, ai, fAeff, eta, cosFn, true, theta[j])
    {
      if !condFn(theta[i]) {
        a[i] := 0.0;
      }
    }
    q := a[..];
  }

  /** The entry of one face of `FACES` at angle t. */
  function FaceEntry(p: SolarParams, face: Face, c: Angles, trig: Trig, t: real): real
  {
    SolarEntry(p.alphaS, p.ai, p.fAeff, p.eta, x => FaceCos(face, trig, x), Window(face, c, t), t)
  }

  // ---------------------------------------------------------------
  // Properties of the face table
  // ---------------------------------------------------------------

  /** The Y faces never see the sun: their flux is 0 at every angle. */
  lemma YFacesDark(p: SolarParams, c: Angles, trig: Trig, t: real)
    ensures FaceEntry(p, YPlus, c, trig, t) == 0.0 && FaceEntry(p, YMinus, c, trig, t) == 0.0
  {
  }

  /** Opposite faces have opposite cosines. */
  lemma OppositeCosines(trig: Trig, t: real)
    ensures FaceCos(ZMinus, trig, t) == -FaceCos(ZPlus, trig, t)
    ensures FaceCos(XMinus, trig, t) == -FaceCos(XPlus, trig, t)
    ensures FaceCos(YMinus, trig, t) == FaceCos(YPlus, trig, t) == 0.0
  {
  }

  /** The Z+ cosine at the radians of an angle is the cosine the node
      equations use at that angle in degrees. */
  lemma ZPlusIsNodeCosine(trig: Trig, theta: real)
    ensures FaceCos(ZPlus, trig, trig.radians(theta)) == NodeBalance.CosPhi(trig, theta)
  {
  }

  /** The windows include their bounds. */
  lemma WindowsClosed(c: Angles)
    requires Increasing(c)
    ensures Window(ZPlus, c, c.c1) && Window(ZPlus, c, c.c2)
    ensures Window(ZPlus, c, c.c3) && Window(ZPlus, c, c.c4)
    ensures Window(ZMinus, c, c.c1) && Window(ZMinus, c, c.c4)
    ensures Window(XPlus, c, c.c3) && Window(XMinus, c, c.c2)
  {
  }

  /** The closed Z+ window is the strict direct-sun mask of the node
      equations plus exactly the four critical angles. */
  lemma ZPlusWindowVersusNodeMask(c: Angles, t: real)
    requires Increasing(c)
    ensures Window(ZPlus, c, t) <==> NodeBalance.SolarMask(c, t) || t == c.c1 || t == c.c2 || t == c.c3 || t == c.c4
    ensures Window(ZPlus, c, t) && !NodeBalance.SolarMask(c, t) <==> t == c.c1 || t == c.c2 || t == c.c3 || t == c.c4
  {
  }

  /** Z+ and Z- are lit together only at the eclipse bounds c1 and c4. */
  lemma ZFacesShareOnlyBounds(c: Angles, t: real)
    requires Increasing(c)
    ensures Window(ZPlus, c, t) && Window(ZMinus, c, t) <==> t == c.c1 || t == c.c4
  {
  }
}
