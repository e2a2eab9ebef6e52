/** The cold (beginning-of-life) node equations.  Loading them binds the
    property bundle of `get_propiedades_caso('frio')`; their panel balance
    accumulates conduction and internal radiation in two loops, the other node
    kinds use the shared formulation of `NodeBalance`. */
module ColdNodes {
  import opened Numerics
  import opened Constants
  import opened NodeBalance

  /** The bundle bound at load time. */
  const PROPS: CaseProps := CaseProperties("frio")

  lemma PropsAreBeginningOfLife()
    ensures PROPS == BOL_PROPS && PROPS.power == ColdRule
  {
    CaseSelection("frio");
  }

  /** In the cold case nothing dissipates power, whatever the angle or node. */
  lemma NoDissipation(theta: real, node: int)
    ensures DissipatedPower(PROPS.power, theta, node) == 0.0
  {
    PropsAreBeginningOfLife();
  }

  /** `_panel_common` as written in the cold file: the four external flows are
      computed one by one, conduction and internal radiation are accumulated
      in loops over the rows.
      The result is the shared panel balance. */
  method PanelCommon(c: Angles, trig: Trig, i: nat, T: seq<real>, dt: real,
                     condRow: seq<real>, fvRow: seq<real>, theta: real, fPlanet: real)
    returns (r: real)
    requires i < |T| && WellShaped(T, condRow, fvRow)
    ensures r == PanelUpdate(PROPS, c, trig, i, T, dt, condRow, fvRow, theta, fPlanet)
  {
    var ti := T[i];
    var s := PanelSurface(PROPS);
    var qIr := PlanetIR(s, fPlanet, T[13]);
    var qEsp := SpaceLoss(s, T[14], ti);
    var qSol := SolarTerm(s, c, trig, theta);
    var qAlb := AlbedoTerm(s, c, trig, fPlanet, theta);

    var qCond := ConductionLoop(T, ti, condRow);
    var qRad := RadiationLoop(T, ti, fvRow);

    var q := qIr + qEsp + qSol + qAlb + qCond + qRad;
    r := ti + (dt / (MASA_PANEL * CP_PANEL)) * q;
    assert q == ExposedFlux(s, c, trig, i, T, condRow, fvRow, theta, fPlanet);
    assert s.mass == MASA_PANEL && s.cp == CP_PANEL;
    assert MASA_PANEL * CP_PANEL != 0.0;
    assert r == EulerStep(ti, dt, MASA_PANEL, CP_PANEL, q);
  }

  /** The conduction loop of `_panel_common`: `sum K[n] * (T[n] - Ti)` over
      the row, accumulated in index order. */
  method ConductionLoop(T: seq<real>, ti: real, condRow: seq<real>) returns (qCond: real)
    requires |condRow| <= |T|
    ensures qCond == CondSum(T, ti, condRow)
  {
    qCond := 0.0;
    assert condRow[..0] == [];
    for n := 0 to |condRow|
      invariant qCond == CondSum(T, ti, condRow[..n])
    {
      assert condRow[..n + 1][..n] == condRow[..n];
      qCond := qCond + condRow[n] * (T[n] - ti);
    }
    assert condRow[..|condRow|] == condRow;
  }

  /** The internal-radiation loop of `_panel_common`, with the aluminium
      emissivity and the panel area. */
  method RadiationLoop(T: seq<real>, ti: real, fvRow: seq<real>) returns (qRad: real)
    requires |fvRow| <= |T|
    ensures qRad == RadSum(T, ti, fvRow, AREA_PANEL)
  {
    qRad := 0.0;
    assert fvRow[..0] == [];
    for n := 0 to |fvRow|
      invariant qRad == RadSum(T, ti, fvRow[..n], AREA_PANEL)
    {
      assert fvRow[..n + 1][..n] == fvRow[..n];
      qRad := qRad + EPS_AL * SIGMA * fvRow[n] * AREA_PANEL * (Pow4(T[n]) - Pow4(ti));
    }
    assert fvRow[..|fvRow|] == fvRow;
  }

  /** The wrappers `ecNodo1` .. `ecNodo13` of the cold file: panels go
      through the loop above, the other kinds through the shared balance. */
  method NodeEquation(c: Angles, trig: Trig, k: int, T: seq<real>, dt: real,
                      condRow: seq<real>, fvRow: seq<real>, theta: real)
    returns (r: real)
    requires 1 <= k <= 13 && WellShaped(T, condRow, fvRow)
    ensures r == EcNodo(PROPS, c, trig, k, T, dt, condRow, fvRow, theta)
  {
    if k <= 8 {
      r := PanelCommon(c, trig, k - 1, T, dt, condRow, fvRow, theta, PlanetViewFactor(k));
    } else {
      r := EcNodo(PROPS, c, trig, k, T, dt, condRow, fvRow, theta);
    }
  }

  /** With no dissipation, the tray and both boxes keep a uniform vector's
      temperature exactly. */
  lemma InternalNodesKeepUniform(c: Angles, trig: Trig, k: int, T: seq<real>, dt: real,
                                 condRow: seq<real>, fvRow: seq<real>, theta: real)
    requires 11 <= k <= 13 && WellShaped(T, condRow, fvRow)
    requires Uniform(T, T[k - 1])
    ensures EcNodo(PROPS, c, trig, k, T, dt, condRow, fvRow, theta) == T[k - 1]
  {
    NoDissipation(theta, k);
  }
}
