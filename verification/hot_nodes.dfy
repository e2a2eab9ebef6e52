/** The hot (end-of-life) node equations.  Loading them binds the property
    bundle of `get_propiedades_caso('caliente')`; every node kind uses the
    shared formulation of `NodeBalance`, so the panel, Y-face and tray updates
    have the cold file's structure with other property values, and the two
    boxes differ from the cold ones by the dissipated power alone. */
module HotNodes {
  import opened Numerics
  import opened Constants
  import opened NodeBalance
  import ColdNodes

  /** The bundle bound at load time. */
  const PROPS: CaseProps := CaseProperties("caliente")

  lemma PropsAreEndOfLife()
    ensures PROPS == EOL_PROPS && PROPS.power == HotRule
  {
    CaseSelection("caliente");
  }

  /** The battery's hot update is its cold (zero-power) update plus
      `dt * 15 / (m * cp)`, at every angle. */
  lemma BatteryAddsDissipation(c: Angles, trig: Trig, T: seq<real>, dt: real,
                               condRow: seq<real>, fvRow: seq<real>, theta: real)
    requires WellShaped(T, condRow, fvRow)
    ensures EcNodo(PROPS, c, trig, 13, T, dt, condRow, fvRow, theta)
            == EcNodo(ColdNodes.PROPS, c, trig, 13, T, dt, condRow, fvRow, theta)
               + dt * 15.0 / (MASA_BAT * CP_BAT)
  {
    PropsAreEndOfLife();
    ColdNodes.PropsAreBeginningOfLife();
    BoxPowerShift(PROPS, ColdNodes.PROPS, 12, T, dt, condRow, fvRow, AREA_BAT, MASA_BAT, CP_BAT, 13, theta);
  }

  /** The OBC/AOCS hot update is its cold (zero-power) update plus
      `dt * P / (m * cp)` for the hot power P at that angle. */
  lemma ObcAddsDissipation(c: Angles, trig: Trig, T: seq<real>, dt: real,
                           condRow: seq<real>, fvRow: seq<real>, theta: real)
    requires WellShaped(T, condRow, fvRow)
    ensures EcNodo(PROPS, c, trig, 12, T, dt, condRow, fvRow, theta)
            == EcNodo(ColdNodes.PROPS, c, trig, 12, T, dt, condRow, fvRow, theta)
               + dt * HotDissipatedPower(theta, 12) / (MASA_OBC * CP_OBC)
  {
    PropsAreEndOfLife();
    ColdNodes.PropsAreBeginningOfLife();
    BoxPowerShift(PROPS, ColdNodes.PROPS, 11, T, dt, condRow, fvRow, AREA_OBC, MASA_OBC, CP_OBC, 12, theta);
  }

  /** Node 12 heats by an extra `dt * 50 / (m * cp)` exactly in the
      operations band 0 < theta < 108. */
  lemma ObcOperationsBand(c: Angles, trig: Trig, T: seq<real>, dt: real,
                          condRow: seq<real>, fvRow: seq<real>, theta: real)
    requires WellShaped(T, condRow, fvRow) && 0.0 < theta < 108.0
    ensures EcNodo(PROPS, c, trig, 12, T, dt, condRow, fvRow, theta)
            == EcNodo(ColdNodes.PROPS, c, trig, 12, T, dt, condRow, fvRow, theta)
               + dt * 50.0 / (MASA_OBC * CP_OBC)
  {
    ObcAddsDissipation(c, trig, T, dt, condRow, fvRow, theta);
  }

  /** Outside both bands node 12 behaves as in the cold case. */
  lemma ObcIdleOutsideBands(c: Angles, trig: Trig, T: seq<real>, dt: real,
                            condRow: seq<real>, fvRow: seq<real>, theta: real)
    requires WellShaped(T, condRow, fvRow)
    requires !(0.0 < theta < 108.0) && !(236.0 < theta < 272.0)
    ensures EcNodo(PROPS, c, trig, 12, T, dt, condRow, fvRow, theta)
            == EcNodo(ColdNodes.PROPS, c, trig, 12, T, dt, condRow, fvRow, theta)
  {
    ObcAddsDissipation(c, trig, T, dt, condRow, fvRow, theta);
  }

  /** From a uniform vector, with a positive step inside the operations band,
      the OBC/AOCS temperature strictly rises. */
  lemma ObcHeatsInBand(c: Angles, trig: Trig, T: seq<real>, dt: real,
                       condRow: seq<real>, fvRow: seq<real>, theta: real)
    requires WellShaped(T, condRow, fvRow) && Uniform(T, T[11])
    requires dt > 0.0 && 0.0 < theta < 108.0
    ensures EcNodo(PROPS, c, trig, 12, T, dt, condRow, fvRow, theta) > T[11]
  {
    PropsAreEndOfLife();
  }

  /** From a uniform vector with a positive step the battery always warms. */
  lemma BatteryAlwaysHeats(c: Angles, trig: Trig, T: seq<real>, dt: real,
                           condRow: seq<real>, fvRow: seq<real>, theta: real)
    requires WellShaped(T, condRow, fvRow) && Uniform(T, T[12]) && dt > 0.0
    ensures EcNodo(PROPS, c, trig, 13, T, dt, condRow, fvRow, theta) > T[12]
  {
    PropsAreEndOfLife();
  }
}
