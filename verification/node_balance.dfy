/** The per-node explicit-Euler energy balance of the thermal network.
    Every node returns `T[i] + dt / (m * cp) * (sum of heat flows)`; the four
    node kinds differ in which flows they sum:
      - panel (nodes 1-8) and coated Y face (nodes 9-10): planetary IR, loss to
        space, direct sun, albedo, conduction and internal radiation;
      - tray (node 11): conduction and internal radiation;
      - avionics box (nodes 12-13): conduction, internal radiation and the
        case's dissipated power.
    The hot and the cold equation files share this formulation word for word;
    they differ only in the property bundle bound at import time, which is an
    explicit `CaseProps` parameter here.  A temperature vector has the 13 node
    temperatures followed by Venus (index 13) and deep space (index 14). */
module NodeBalance {
  import opened Numerics
  import opened Constants

  // ---------------------------------------------------------------
  // Angular windows and the illumination cosine
  // ---------------------------------------------------------------

  /** Direct-sun window: strictly inside (c1, c2) or (c3, c4). */
  predicate SolarMask(c: Angles, theta: real)
    ensures SolarMask(c, theta) && Increasing(c) ==> c.c1 < theta < c.c4
  {
    (c.c1 < theta < c.c2) || (c.c3 < theta < c.c4)
  }

  /** Albedo window: strictly inside (0, c1) or (c4, 360). */
  predicate AlbedoMask(c: Angles, theta: real)
    ensures AlbedoMask(c, theta) && c.c1 <= 360.0 && 0.0 <= c.c4 ==> 0.0 < theta < 360.0
    ensures AlbedoMask(c, theta) && Increasing(c) ==> !(c.c1 <= theta <= c.c4)
  {
    (0.0 < theta < c.c1) || (c.c4 < theta < 360.0)
  }

  /** The one illumination cosine used for every exposed node: -cos(theta). */
  function CosPhi(trig: Trig, theta: real): real
  {
    -trig.cos(trig.radians(theta))
  }

  /** For ordered critical angles the two windows never overlap. */
  lemma MasksDisjoint(c: Angles, theta: real)
    requires Increasing(c)
    ensures !(SolarMask(c, theta) && AlbedoMask(c, theta))
  {
  }

  /** The strict bounds exclude every critical angle and 0 from both windows. */
  lemma MasksAtCriticalAngles()
    ensures !AlbedoMask(CRITICAL, 0.0) && !AlbedoMask(CRITICAL, 90.0) && !AlbedoMask(CRITICAL, 270.0)
    ensures !SolarMask(CRITICAL, 90.0) && !SolarMask(CRITICAL, 115.0)
    ensures !SolarMask(CRITICAL, 245.0) && !SolarMask(CRITICAL, 270.0)
  {
  }

  // ---------------------------------------------------------------
  // Heat flows
  // ---------------------------------------------------------------

  /** The optical and thermal data of an exposed node kind.  `irDerate`
      multiplies the planetary IR term, `sunDerate` the sun and albedo terms. */
  datatype Surface = Surface(
    area: real, mass: real, cp: real, eps: real, alpha: real,
    irDerate: real, sunDerate: real)

  /** Panels: solar-array properties, de-rated by F_AEFF (IR) and ETA_ELEC * F_AEFF (sun, albedo). */
  function PanelSurface(p: CaseProps): Surface
  {
    Surface(AREA_PANEL, MASA_PANEL, CP_PANEL, p.epsSa, p.alphaS, F_AEFF, ETA_ELEC * F_AEFF)
  }

  /** Coated Y faces: white-coating properties, no de-rating. */
  function YFaceSurface(p: CaseProps): Surface
  {
    Surface(AREA_CARA_Y, MASA_CARA_Y, CP_CARA_Y, p.epsWc, p.alphaWc, 1.0, 1.0)
  }

  /** Planetary infrared absorbed, `q_ir`: independent of the angle. */
  function PlanetIR(s: Surface, fPlanet: real, tPlanet: real): (q: real)
    ensures fPlanet == 0.0 ==> q == 0.0
    ensures fPlanet >= 0.0 && s.eps >= 0.0 && s.area >= 0.0 && s.irDerate >= 0.0 ==> q >= 0.0
  {
    var a := fPlanet * s.eps * s.area;
    assert fPlanet >= 0.0 && s.eps >= 0.0 && s.area >= 0.0 ==> a >= 0.0;
    a * SIGMA * Pow4(tPlanet) * s.irDerate
  }

  /** Radiation exchanged with deep space, `q_esp`: a loss exactly when the
      node's fourth power exceeds that of space; the sign is never clamped. */
  function SpaceLoss(s: Surface, tSpace: real, ti: real): (q: real)
    ensures s.eps * s.area > 0.0 ==> (q < 0.0 <==> Pow4(ti) > Pow4(tSpace))
    ensures Pow4(ti) == Pow4(tSpace) ==> q == 0.0
  {
    var k := s.eps * s.area * SIGMA;
    assert s.eps * s.area > 0.0 ==> k > 0.0;
    k * (Pow4(tSpace) - Pow4(ti))
  }

  /** Direct sun, `q_sol`: zero outside the solar window. */
  function SolarTerm(s: Surface, c: Angles, trig: Trig, theta: real): (q: real)
    ensures !SolarMask(c, theta) ==> q == 0.0
    ensures SolarMask(c, theta) ==> q == CosPhi(trig, theta) * SCV * s.area * s.alpha * s.sunDerate
  {
    if SolarMask(c, theta) then CosPhi(trig, theta) * SCV * s.area * s.alpha * s.sunDerate else 0.0
  }

  /** Albedo, `q_alb`: zero outside the albedo window and for a node that does not see Venus. */
  function AlbedoTerm(s: Surface, c: Angles, trig: Trig, fPlanet: real, theta: real): (q: real)
    ensures !AlbedoMask(c, theta) ==> q == 0.0
    ensures fPlanet == 0.0 ==> q == 0.0
    ensures AlbedoMask(c, theta) ==>
              q == fPlanet * trig.cos(trig.radians(theta)) * SCV * s.area * s.alpha * GAMMA * s.sunDerate
  {
    if AlbedoMask(c, theta) then
      fPlanet * trig.cos(trig.radians(theta)) * SCV * s.area * s.alpha * GAMMA * s.sunDerate
    else 0.0
  }

  /** Conduction `q_cond`: the sum over the row of `c * (T[n] - ti)`, added left to right. */
  function CondSum(T: seq<real>, ti: real, row: seq<real>): real
    requires |row| <= |T|
    decreases |row|
  {
    if row == [] then 0.0
    else CondSum(T, ti, row[..|row| - 1]) + row[|row| - 1] * (T[|row| - 1] - ti)
  }

  /** Internal radiation `q_rad`: the sum over the row of
      `EPS_AL * SIGMA * fv * area * (T[n]^4 - ti^4)`, added left to right. */
  function RadSum(T: seq<real>, ti: real, row: seq<real>, area: real): real
    requires |row| <= |T|
    decreases |row|
  {
    if row == [] then 0.0
    else RadSum(T, ti, row[..|row| - 1], area)
         + EPS_AL * SIGMA * row[|row| - 1] * area * (Pow4(T[|row| - 1]) - Pow4(ti))
  }

  /** Conduction vanishes when every coupled node has the node's own temperature. */
  lemma {:induction false} CondSumUniform(T: seq<real>, ti: real, row: seq<real>)
    requires |row| <= |T|
    requires forall n :: 0 <= n < |row| ==> T[n] == ti
    ensures CondSum(T, ti, row) == 0.0
    decreases |row|
  {
    if row != [] {
      CondSumUniform(T, ti, row[..|row| - 1]);
    }
  }

  /** Internal radiation vanishes likewise. */
  lemma {:induction false} RadSumUniform(T: seq<real>, ti: real, row: seq<real>, area: real)
    requires |row| <= |T|
    requires forall n :: 0 <= n < |row| ==> T[n] == ti
    ensures RadSum(T, ti, row, area) == 0.0
    decreases |row|
  {
    if row != [] {
      RadSumUniform(T, ti, row[..|row| - 1], area);
    }
  }

  /** A node's own (diagonal) coefficient never contributes to its conduction. */
  lemma {:induction false} CondSumIgnoresOwnCoefficient(T: seq<real>, i: nat, row: seq<real>, x: real)
    requires i < |row| <= |T|
    ensures CondSum(T, T[i], row[i := x]) == CondSum(T, T[i], row)
    decreases |row|
  {
    var last := |row| - 1;
    if i < last {
      assert row[i := x][..last] == row[..last][i := x];
      CondSumIgnoresOwnCoefficient(T, i, row[..last], x);
    } else {
      assert row[i := x][..last] == row[..last];
    }
  }

  /** Nor does its own view factor contribute to its internal radiation. */
  lemma {:induction false} RadSumIgnoresOwnCoefficient(T: seq<real>, i: nat, row: seq<real>, area: real, x: real)
    requires i < |row| <= |T|
    ensures RadSum(T, T[i], row[i := x], area) == RadSum(T, T[i], row, area)
    decreases |row|
  {
    var last := |row| - 1;
    if i < last {
      assert row[i := x][..last] == row[..last][i := x];
      RadSumIgnoresOwnCoefficient(T, i, row[..last], area, x);
    } else {
      assert row[i := x][..last] == row[..last];
    }
  }

  /** A uniform vector exchanges no heat internally. */
  lemma UniformNoExchange(T: seq<real>, ti: real, condRow: seq<real>, fvRow: seq<real>, area: real)
    requires |condRow| <= |T| && |fvRow| <= |T|
    ensures Uniform(T, ti) ==> CondSum(T, ti, condRow) == 0.0 && RadSum(T, ti, fvRow, area) == 0.0
  {
    if Uniform(T, ti) {
      CondSumUniform(T, ti, condRow);
      RadSumUniform(T, ti, fvRow, area);
    }
  }

  // ---------------------------------------------------------------
  // The explicit-Euler update of each node kind
  // ---------------------------------------------------------------

  /** `ti + dt / (mass * cp) * q`: unchanged with no time step or no net
      flow, and otherwise moving in the direction of the net flow. */
  function EulerStep(ti: real, dt: real, mass: real, cp: real, q: real): (r: real)
    requires mass * cp != 0.0
    ensures dt == 0.0 || q == 0.0 ==> r == ti
    ensures mass * cp > 0.0 && dt > 0.0 ==> (r > ti <==> q > 0.0) && (r < ti <==> q < 0.0)
  {
    var rate := dt / (mass * cp);
    assert mass * cp > 0.0 && dt > 0.0 ==> rate > 0.0;
    ti + rate * q
  }

  /** What the source requires of the inputs: the full 15-entry vector, and
      rows no longer than it. */
  predicate WellShaped(T: seq<real>, condRow: seq<real>, fvRow: seq<real>)
  {
    15 <= |T| && |condRow| <= |T| && |fvRow| <= |T|
  }

  predicate Uniform(T: seq<real>, ti: real)
  {
    forall n :: 0 <= n < |T| ==> T[n] == ti
  }

  /** Net heat flow into an exposed node (panel or Y face). */
  function ExposedFlux(s: Surface, c: Angles, trig: Trig, i: nat, T: seq<real>,
                       condRow: seq<real>, fvRow: seq<real>, theta: real, fPlanet: real): real
    requires i < |T| && WellShaped(T, condRow, fvRow)
  {
    PlanetIR(s, fPlanet, T[13]) + SpaceLoss(s, T[14], T[i])
    + SolarTerm(s, c, trig, theta) + AlbedoTerm(s, c, trig, fPlanet, theta)
    + CondSum(T, T[i], condRow) + RadSum(T, T[i], fvRow, s.area)
  }

  function ExposedUpdate(s: Surface, c: Angles, trig: Trig, i: nat, T: seq<real>, dt: real,
                         condRow: seq<real>, fvRow: seq<real>, theta: real, fPlanet: real): (r: real)
    requires i < |T| && WellShaped(T, condRow, fvRow) && s.mass * s.cp != 0.0
    ensures dt == 0.0 ==> r == T[i]
  {
    EulerStep(T[i], dt, s.mass, s.cp, ExposedFlux(s, c, trig, i, T, condRow, fvRow, theta, fPlanet))
  }

  /** `_panel_common`: nodes 1-8. */
  function PanelUpdate(p: CaseProps, c: Angles, trig: Trig, i: nat, T: seq<real>, dt: real,
                       condRow: seq<real>, fvRow: seq<real>, theta: real, fPlanet: real): (r: real)
    requires i < |T| && WellShaped(T, condRow, fvRow)
    ensures dt == 0.0 ==> r == T[i]
  {
    ExposedUpdate(PanelSurface(p), c, trig, i, T, dt, condRow, fvRow, theta, fPlanet)
  }

  /** `_yface_common`: nodes 9-10. */
  function YFaceUpdate(p: CaseProps, c: Angles, trig: Trig, i: nat, T: seq<real>, dt: real,
                       condRow: seq<real>, fvRow: seq<real>, theta: real, fPlanet: real): (r: real)
    requires i < |T| && WellShaped(T, condRow, fvRow)
    ensures dt == 0.0 ==> r == T[i]
  {
    ExposedUpdate(YFaceSurface(p), c, trig, i, T, dt, condRow, fvRow, theta, fPlanet)
  }

  /** `_bandeja_common`: node 11, conduction and internal radiation only, so
      a uniform vector leaves it where it is. */
  function TrayUpdate(i: nat, T: seq<real>, dt: real, condRow: seq<real>, fvRow: seq<real>): (r: real)
    requires i < |T| && WellShaped(T, condRow, fvRow)
    ensures dt == 0.0 ==> r == T[i]
    ensures Uniform(T, T[i]) ==> r == T[i]
  {
    UniformNoExchange(T, T[i], condRow, fvRow, AREA_BANDEJA);
    EulerStep(T[i], dt, MASA_BANDEJA, CP_BANDEJA,
              CondSum(T, T[i], condRow) + RadSum(T, T[i], fvRow, AREA_BANDEJA))
  }

  /** `_box_common`: nodes 12-13.  From a uniform vector only the
      dissipated power moves the temperature. */
  function BoxUpdate(p: CaseProps, i: nat, T: seq<real>, dt: real, condRow: seq<real>, fvRow: seq<real>,
                     area: real, mass: real, cp: real, node: int, theta: real): (r: real)
    requires i < |T| && WellShaped(T, condRow, fvRow) && mass * cp != 0.0
    ensures dt == 0.0 ==> r == T[i]
    ensures Uniform(T, T[i]) ==> r == EulerStep(T[i], dt, mass, cp, DissipatedPower(p.power, theta, node))
  {
    UniformNoExchange(T, T[i], condRow, fvRow, area);
    EulerStep(T[i], dt, mass, cp,
              CondSum(T, T[i], condRow) + RadSum(T, T[i], fvRow, area) + DissipatedPower(p.power, theta, node))
  }

  /** Two bundles' box updates differ exactly by `dt / (m * cp)` times the
      difference of the powers their rules dissipate. */
  lemma BoxPowerShift(p: CaseProps, p': CaseProps, i: nat, T: seq<real>, dt: real,
                      condRow: seq<real>, fvRow: seq<real>,
                      area: real, mass: real, cp: real, node: int, theta: real)
    requires i < |T| && WellShaped(T, condRow, fvRow) && mass * cp != 0.0
    ensures BoxUpdate(p, i, T, dt, condRow, fvRow, area, mass, cp, node, theta)
            == BoxUpdate(p', i, T, dt, condRow, fvRow, area, mass, cp, node, theta)
               + dt * (DissipatedPower(p.power, theta, node) - DissipatedPower(p'.power, theta, node))
                 / (mass * cp)
  {
    var x := CondSum(T, T[i], condRow) + RadSum(T, T[i], fvRow, area);
    var w := DissipatedPower(p.power, theta, node);
    var w' := DissipatedPower(p'.power, theta, node);
    assert BoxUpdate(p, i, T, dt, condRow, fvRow, area, mass, cp, node, theta)
           == EulerStep(T[i], dt, mass, cp, x + w);
    assert BoxUpdate(p', i, T, dt, condRow, fvRow, area, mass, cp, node, theta)
           == EulerStep(T[i], dt, mass, cp, x + w');
    EulerShift(T[i], dt, mass, cp, x, w, w');
  }

  /** Two Euler steps from the same temperature whose flows share a part x
      differ by the rate times the difference of the other parts. */
  lemma EulerShift(ti: real, dt: real, mass: real, cp: real, x: real, w: real, w': real)
    requires mass * cp != 0.0
    ensures EulerStep(ti, dt, mass, cp, x + w) == EulerStep(ti, dt, mass, cp, x + w') + dt * (w - w') / (mass * cp)
  {
    var m := mass * cp;
    var rate := dt / m;
    assert EulerStep(ti, dt, mass, cp, x + w) == ti + rate * (x + w);
    assert EulerStep(ti, dt, mass, cp, x + w') == ti + rate * (x + w');
    assert rate * (x + w) - rate * (x + w') == rate * (w - w');
    assert rate * (w - w') == dt * (w - w') / m;
  }

  /** The thirteen wrappers `ecNodo1` .. `ecNodo13`: node k updates its own
      temperature `T[k - 1]`. */
  function EcNodo(p: CaseProps, c: Angles, trig: Trig, k: int, T: seq<real>, dt: real,
                  condRow: seq<real>, fvRow: seq<real>, theta: real): (r: real)
    requires 1 <= k <= 13 && WellShaped(T, condRow, fvRow)
    ensures dt == 0.0 ==> r == T[k - 1]
  {
    match k
    case 1 => PanelUpdate(p, c, trig, 0, T, dt, condRow, fvRow, theta, F_PLANET_ZPLUS)
    case 2 => PanelUpdate(p, c, trig, 1, T, dt, condRow, fvRow, theta, F_PLANET_ZPLUS)
    case 3 => PanelUpdate(p, c, trig, 2, T, dt, condRow, fvRow, theta, F_PLANET_LATERAL)
    case 4 => PanelUpdate(p, c, trig, 3, T, dt, condRow, fvRow, theta, F_PLANET_LATERAL)
    case 5 => PanelUpdate(p, c, trig, 4, T, dt, condRow, fvRow, theta, F_PLANET_ZMINUS)
    case 6 => PanelUpdate(p, c, trig, 5, T, dt, condRow, fvRow, theta, F_PLANET_ZMINUS)
    case 7 => PanelUpdate(p, c, trig, 6, T, dt, condRow, fvRow, theta, F_PLANET_LATERAL)
    case 8 => PanelUpdate(p, c, trig, 7, T, dt, condRow, fvRow, theta, F_PLANET_LATERAL)
    case 9 => YFaceUpdate(p, c, trig, 8, T, dt, condRow, fvRow, theta, F_PLANET_LATERAL)
    case 10 => YFaceUpdate(p, c, trig, 9, T, dt, condRow, fvRow, theta, F_PLANET_LATERAL)
    case 11 => TrayUpdate(10, T, dt, condRow, fvRow)
    case 12 => BoxUpdate(p, 11, T, dt, condRow, fvRow, AREA_OBC, MASA_OBC, CP_OBC, 12, theta)
    case _ => BoxUpdate(p, 12, T, dt, condRow, fvRow, AREA_BAT, MASA_BAT, CP_BAT, 13, theta)
  }

  // ---------------------------------------------------------------
  // Properties of the wrappers
  // ---------------------------------------------------------------

  /** The view factor each exposed wrapper passes is the configured planetary
      view factor of that node. */
  lemma WrappersUsePlanetViewFactor(p: CaseProps, c: Angles, trig: Trig, k: int, T: seq<real>, dt: real,
                                    condRow: seq<real>, fvRow: seq<real>, theta: real)
    requires 1 <= k <= 10 && WellShaped(T, condRow, fvRow)
    ensures k <= 8 ==> EcNodo(p, c, trig, k, T, dt, condRow, fvRow, theta)
                       == PanelUpdate(p, c, trig, k - 1, T, dt, condRow, fvRow, theta, PlanetViewFactor(k))
    ensures k >= 9 ==> EcNodo(p, c, trig, k, T, dt, condRow, fvRow, theta)
                       == YFaceUpdate(p, c, trig, k - 1, T, dt, condRow, fvRow, theta, PlanetViewFactor(k))
  {
  }

  /** The Z- panels (nodes 5 and 6) have no planetary IR and no albedo at any
      angle: their balance is loss to space, sun, conduction and radiation. */
  lemma ZMinusSeesNoPlanet(p: CaseProps, c: Angles, trig: Trig, k: int, T: seq<real>, dt: real,
                           condRow: seq<real>, fvRow: seq<real>, theta: real)
    requires (k == 5 || k == 6) && WellShaped(T, condRow, fvRow)
    ensures EcNodo(p, c, trig, k, T, dt, condRow, fvRow, theta)
            == EulerStep(T[k - 1], dt, MASA_PANEL, CP_PANEL,
                         SpaceLoss(PanelSurface(p), T[14], T[k - 1])
                         + SolarTerm(PanelSurface(p), c, trig, theta)
                         + CondSum(T, T[k - 1], condRow) + RadSum(T, T[k - 1], fvRow, AREA_PANEL))
  {
  }

  /** ... and so their update does not depend on Venus's temperature. */
  lemma ZMinusBlindToVenus(p: CaseProps, c: Angles, trig: Trig, k: int, T: seq<real>, dt: real,
                           condRow: seq<real>, fvRow: seq<real>, theta: real, tVenus: real)
    requires (k == 5 || k == 6) && WellShaped(T, condRow, fvRow)
    requires |condRow| <= 13 && |fvRow| <= 13
    ensures EcNodo(p, c, trig, k, T[13 := tVenus], dt, condRow, fvRow, theta)
            == EcNodo(p, c, trig, k, T, dt, condRow, fvRow, theta)
  {
    var T' := T[13 := tVenus];
    ZMinusSeesNoPlanet(p, c, trig, k, T, dt, condRow, fvRow, theta);
    ZMinusSeesNoPlanet(p, c, trig, k, T', dt, condRow, fvRow, theta);
    CondSumPrefixOnly(T, T', T[k - 1], condRow);
    RadSumPrefixOnly(T, T', T[k - 1], fvRow, AREA_PANEL);
  }

  /** The sums read only the entries their row covers. */
  lemma {:induction false} CondSumPrefixOnly(T: seq<real>, U: seq<real>, ti: real, row: seq<real>)
    requires |row| <= |T| && |row| <= |U| && T[..|row|] == U[..|row|]
    ensures CondSum(T, ti, row) == CondSum(U, ti, row)
    decreases |row|
  {
    if row != [] {
      var last := |row| - 1;
      assert T[last] == T[..|row|][last] == U[..|row|][last] == U[last];
      assert T[..last] == T[..|row|][..last] == U[..|row|][..last] == U[..last];
      CondSumPrefixOnly(T, U, ti, row[..last]);
    }
  }

  lemma {:induction false} RadSumPrefixOnly(T: seq<real>, U: seq<real>, ti: real, row: seq<real>, area: real)
    requires |row| <= |T| && |row| <= |U| && T[..|row|] == U[..|row|]
    ensures RadSum(T, ti, row, area) == RadSum(U, ti, row, area)
    decreases |row|
  {
    if row != [] {
      var last := |row| - 1;
      assert T[last] == T[..|row|][last] == U[..|row|][last] == U[last];
      assert T[..last] == T[..|row|][..last] == U[..|row|][..last] == U[..last];
      RadSumPrefixOnly(T, U, ti, row[..last], area);
    }
  }

  /** The tray (node 11) ignores the angle, the trigonometry and the case. */
  lemma TrayIgnoresAngle(p: CaseProps, p': CaseProps, c: Angles, c': Angles, trig: Trig, trig': Trig,
                         T: seq<real>, dt: real, condRow: seq<real>, fvRow: seq<real>,
                         theta: real, theta': real)
    requires WellShaped(T, condRow, fvRow)
    ensures EcNodo(p, c, trig, 11, T, dt, condRow, fvRow, theta)
            == EcNodo(p', c', trig', 11, T, dt, condRow, fvRow, theta')
  {
  }
}
