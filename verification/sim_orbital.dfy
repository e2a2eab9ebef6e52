/** The orbital integrator: one orbit of explicit-Euler steps, each column of
    the history computed from the previous column alone (a synchronous, or
    Jacobi, update), with the Venus and space rows reset to their constants. */
module SimOrbital {
  import opened Numerics
  import opened Constants
  import opened NodeBalance

  const NODES_TOTAL: nat := 15
  const NODES_SOLVE: nat := 13

  /** The run configuration: total time, step and orbital period, in seconds. */
  datatype SimConfig = SimConfig(tTotal: real, dt: real, period: real)

  /** `T_TOTAL`, `DT` and `ORBITAL_PERIOD` as the script sets them. */
  const DEFAULT_CONFIG: SimConfig := SimConfig(6000.0, 1.0, ORBITAL_PERIOD)

  predicate Runnable(cfg: SimConfig)
  {
    cfg.dt > 0.0 && cfg.period != 0.0
  }

  /** `theta_deg`: the orbital angle after `step` steps, in degrees, reduced
      to [0, 360); it is 0 at step 0. */
  function ThetaDeg(step: int, dt: real, period: real): (theta: real)
    requires period != 0.0
    ensures 0.0 <= theta < 360.0
    ensures step == 0 ==> theta == 0.0
  {
    FloatMod((360.0 / period) * step as real * dt, 360.0)
  }

  /** The angle repeats after a whole orbit: `n` steps that add up to one
      period bring it back. */
  lemma ThetaPeriodic(step: int, n: int, dt: real, period: real)
    requires period != 0.0 && n as real * dt == period
    ensures ThetaDeg(step + n, dt, period) == ThetaDeg(step, dt, period)
  {
    var raw := (360.0 / period) * step as real * dt;
    var raw' := (360.0 / period) * (step + n) as real * dt;
    assert ThetaDeg(step, dt, period) == FloatMod(raw, 360.0);
    assert ThetaDeg(step + n, dt, period) == FloatMod(raw', 360.0);
    OrbitAdvance(step, n, dt, period);
    FloatModShift(raw, 360.0);
  }

  lemma OrbitAdvance(step: int, n: int, dt: real, period: real)
    requires period != 0.0 && n as real * dt == period
    ensures (360.0 / period) * (step + n) as real * dt == (360.0 / period) * step as real * dt + 360.0
  {
    var w := 360.0 / period;
    assert w * (step + n) as real * dt == w * step as real * dt + w * (n as real * dt);
    assert w * period == 360.0;
  }

  /** `int(T_TOTAL // DT)`: the number of whole steps that fit in the run;
      a remainder shorter than one step is dropped. */
  function StepCount(tTotal: real, dt: real): (steps: int)
    requires dt > 0.0
    ensures steps as real * dt <= tTotal < (steps + 1) as real * dt
  {
    FloorDiv(tTotal, dt)
  }

  /** The length of `np.arange(0.0, T_TOTAL, DT)`: the number of multiples of
      the step below the total, that is the ceiling of their ratio. */
  function AxisLength(tTotal: real, dt: real): (n: nat)
    requires dt > 0.0
    ensures tTotal <= 0.0 ==> n == 0
    ensures tTotal > 0.0 ==> (n - 1) as real * dt < tTotal <= n as real * dt
  {
    var k := -FloorDiv(-tTotal, dt);
    if k <= 0 then
      assert tTotal <= 0.0 by {
        assert (k as real) * dt <= 0.0 * dt;
      }
      0
    else k
  }

  /** The time axis has as many entries as the history has columns exactly
      when the step divides the total time. */
  lemma AxisMatchesColumns(tTotal: real, dt: real)
    requires dt > 0.0 && tTotal > 0.0
    ensures AxisLength(tTotal, dt) == StepCount(tTotal, dt)
            <==> StepCount(tTotal, dt) as real * dt == tTotal
  {
    var n := AxisLength(tTotal, dt);
    var k := StepCount(tTotal, dt);
    if k as real * dt == tTotal {
      MulMonotone(k as real, (n - 1) as real, dt);
      assert n <= k;
      MulSucc(n, dt);
      MulMonotone((n + 1) as real, k as real, dt);
      assert k <= n;
    } else {
      assert k as real * dt < tTotal;
      assert (n - 1) as real * dt < tTotal <= n as real * dt;
      assert n != k;
    }
  }

  /** The script's own run: 6000 columns, matching the 6000-entry time axis. */
  lemma DefaultRun()
    ensures Runnable(DEFAULT_CONFIG)
    ensures StepCount(DEFAULT_CONFIG.tTotal, DEFAULT_CONFIG.dt) == 6000
    ensures AxisLength(DEFAULT_CONFIG.tTotal, DEFAULT_CONFIG.dt) == 6000
  {
    var k := StepCount(6000.0, 1.0);
    FloorUnique(6000.0, 1.0, k, 6000);
    AxisMatchesColumns(6000.0, 1.0);
  }

  /** Half a step more leaves the column count unchanged. */
  lemma RemainderDropped()
    ensures StepCount(6000.5, 1.0) == 6000
  {
    FloorUnique(6000.5, 1.0, StepCount(6000.5, 1.0), 6000);
  }

  /** `build_node_funcs`: the node equations in the fixed order 1..13, each
      named by the node it updates. */
  function BuildNodeFuncs(): (fs: seq<int>)
    ensures |fs| == NODES_SOLVE
    ensures forall i :: 0 <= i < |fs| ==> fs[i] == i + 1
  {
    seq(13, i => i + 1)
  }

  /** One column of the history: node i + 1's equation applied to the previous
      column with row i of the conductance and view-factor tables; the Venus
      and space entries are reset to their constants. */
  function JacobiStep(ecs: CaseProps, c: Angles, trig: Trig, prev: seq<real>, dt: real, theta: real)
    : (next: seq<real>)
    requires |prev| == NODES_TOTAL
    ensures |next| == NODES_TOTAL
    ensures next[13] == T_VENUS && next[14] == T_SPACE
    ensures forall i :: 0 <= i < NODES_SOLVE ==>
              next[i] == EcNodo(ecs, c, trig, BuildNodeFuncs()[i], prev, dt,
                                Conductance()[i], ViewFactors()[i], theta)
  {
    seq(15, i requires 0 <= i < 15 =>
      if i < 13 then EcNodo(ecs, c, trig, i + 1, prev, dt, Conductance()[i], ViewFactors()[i], theta)
      else if i == 13 then T_VENUS
      else T_SPACE)
  }

  /** Column p of the history started from `t0`. */
  function History(ecs: CaseProps, c: Angles, trig: Trig, t0: seq<real>, cfg: SimConfig, p: nat)
    : (col: seq<real>)
    requires |t0| == NODES_TOTAL && cfg.period != 0.0
    ensures |col| == NODES_TOTAL
    ensures p == 0 ==> col == t0
    ensures p > 0 ==> col[13] == T_VENUS && col[14] == T_SPACE
  {
    if p == 0 then t0
    else JacobiStep(ecs, c, trig, History(ecs, c, trig, t0, cfg, p - 1), cfg.dt,
                    ThetaDeg(p, cfg.dt, cfg.period))
  }

  /** From an initial vector of the constants table, the Venus and space rows
      are the same in every column. */
  lemma EnvironmentRowsConstant(ecs: CaseProps, c: Angles, trig: Trig, caso: string, cfg: SimConfig, p: nat)
    requires cfg.period != 0.0
    ensures History(ecs, c, trig, CaseProperties(caso).initial, cfg, p)[13] == T_VENUS
    ensures History(ecs, c, trig, CaseProperties(caso).initial, cfg, p)[14] == T_SPACE
  {
  }

  /** Column p depends on the earlier columns only through column p - 1:
      two histories that agree there agree at p. */
  lemma JacobiDependsOnPreviousColumn(ecs: CaseProps, c: Angles, trig: Trig, t0: seq<real>, t0': seq<real>,
                                      cfg: SimConfig, p: nat, p': nat)
    requires |t0| == NODES_TOTAL && |t0'| == NODES_TOTAL && cfg.period != 0.0
    requires p > 0 && p' > 0
    requires History(ecs, c, trig, t0, cfg, p - 1) == History(ecs, c, trig, t0', cfg, p' - 1)
    requires ThetaDeg(p, cfg.dt, cfg.period) == ThetaDeg(p', cfg.dt, cfg.period)
    ensures History(ecs, c, trig, t0, cfg, p) == History(ecs, c, trig, t0', cfg, p')
  {
  }

  /** A zero step freezes the run: every column equals an initial vector of
      the constants table. */
  lemma {:induction false} ZeroStepStationary(ecs: CaseProps, c: Angles, trig: Trig, t0: seq<real>,
                                              cfg: SimConfig, p: nat)
    requires IsInitialVector(t0) && cfg.period != 0.0 && cfg.dt == 0.0
    ensures History(ecs, c, trig, t0, cfg, p) == t0
  {
    if p > 0 {
      ZeroStepStationary(ecs, c, trig, t0, cfg, p - 1);
      ZeroStepFixesColumn(ecs, c, trig, t0, ThetaDeg(p, cfg.dt, cfg.period));
    }
  }

  /** With a zero step a column whose environment entries are the constants
      maps to itself. */
  lemma ZeroStepFixesColumn(ecs: CaseProps, c: Angles, trig: Trig, prev: seq<real>, theta: real)
    requires |prev| == NODES_TOTAL && prev[13] == T_VENUS && prev[14] == T_SPACE
    ensures JacobiStep(ecs, c, trig, prev, 0.0, theta) == prev
  {
    var next := JacobiStep(ecs, c, trig, prev, 0.0, theta);
    forall i | 0 <= i < NODES_TOTAL
      ensures next[i] == prev[i]
    {
    }
  }

  /** Column `p` of a history array, read as a vector. */
  function Column(temps: array2<real>, p: nat): (col: seq<real>)
    requires temps.Length0 == NODES_TOTAL && p < temps.Length1
    reads temps
    ensures |col| == NODES_TOTAL
    ensures forall r :: 0 <= r < NODES_TOTAL ==> col[r] == temps[r, p]
  {
    seq(NODES_TOTAL, r requires 0 <= r < NODES_TOTAL reads temps => temps[r, p])
  }

  /** The inner loop of `simulate`: nodes 1..13 of column p, each by its
      own equation on `prev`.  Nothing else in the array changes. */
  method FillNodes(temps: array2<real>, p: nat, ecs: CaseProps, c: Angles, trig: Trig,
                   prev: seq<real>, dt: real, theta: real)
    requires temps.Length0 == NODES_TOTAL && p < temps.Length1 && |prev| == NODES_TOTAL
    modifies temps
    ensures forall r :: 0 <= r < NODES_SOLVE ==> temps[r, p] == JacobiStep(ecs, c, trig, prev, dt, theta)[r]
    ensures forall r, q :: 0 <= r < NODES_TOTAL && 0 <= q < temps.Length1 && (q != p || r >= NODES_SOLVE) ==>
              temps[r, q] == old(temps[r, q])
  {
    var nodeFuncs := BuildNodeFuncs();
    var condRows := Conductance();
    var fvRows := ViewFactors();
    ghost var next := JacobiStep(ecs, c, trig, prev, dt, theta);
    for i := 0 to NODES_SOLVE
      invariant forall r, q :: 0 <= r < NODES_TOTAL && 0 <= q < temps.Length1 && (q != p || r >= i) ==>
                  temps[r, q] == old(temps[r, q])
      invariant forall r :: 0 <= r < i ==> temps[r, p] == next[r]
    {
      var v := EcNodo(ecs, c, trig, nodeFuncs[i], prev, dt, condRows[i], fvRows[i], theta);
      assert v == next[i];
      temps[i, p] := v;
    }
  }

  /** One pass of the outer loop of `simulate`: nodes 1..13 of column p from
      column p - 1, then the Venus and space rows.  Only column p changes. */
  method StepColumn(temps: array2<real>, p: nat, ecs: CaseProps, c: Angles, trig: Trig, cfg: SimConfig)
    requires temps.Length0 == NODES_TOTAL && 1 <= p < temps.Length1 && cfg.period != 0.0
    modifies temps
    ensures Column(temps, p) == JacobiStep(ecs, c, trig, old(Column(temps, p - 1)), cfg.dt,
                                           ThetaDeg(p, cfg.dt, cfg.period))
    ensures forall q :: 0 <= q < temps.Length1 && q != p ==> Column(temps, q) == old(Column(temps, q))
  {
    var prev := Column(temps, p - 1);
    var theta := ThetaDeg(p, cfg.dt, cfg.period);
    FillNodes(temps, p, ecs, c, trig, prev, cfg.dt, theta);
    temps[13, p] := T_VENUS;
    temps[14, p] := T_SPACE;
    ghost var next := JacobiStep(ecs, c, trig, prev, cfg.dt, theta);
    assert Column(temps, p) == next by {
      forall r | 0 <= r < NODES_TOTAL
        ensures Column(temps, p)[r] == next[r]
      {
      }
    }
    forall q | 0 <= q < temps.Length1 && q != p
      ensures Column(temps, q) == old(Column(temps, q))
    {
      assert forall r :: 0 <= r < NODES_TOTAL ==> Column(temps, q)[r] == old(Column(temps, q))[r];
    }
  }

  /** `np.zeros((NODES_TOTAL, steps))` followed by `temps[:, 0] = T0`. */
  method NewHistory(t0: seq<real>, steps: nat) returns (temps: array2<real>)
    requires |t0| == NODES_TOTAL && steps >= 1
    ensures fresh(temps)
    ensures temps.Length0 == NODES_TOTAL && temps.Length1 == steps
    ensures Column(temps, 0) == t0
    ensures forall i, p :: 0 <= i < NODES_TOTAL && 1 <= p < steps ==> temps[i, p] == 0.0
  {
    temps := new real[NODES_TOTAL, steps]((i, j) => 0.0);
    for i := 0 to NODES_TOTAL
      invariant forall r :: 0 <= r < i ==> temps[r, 0] == t0[r]
      invariant forall r, p :: 0 <= r < NODES_TOTAL && 1 <= p < steps ==> temps[r, p] == 0.0
    {
      temps[i, 0] := t0[i];
    }
    assert Column(temps, 0) == t0;
  }

  /** The outer loop of `simulate`: columns 1 .. steps - 1 in order, so that
      every column ends up as the history's. */
  method Integrate(temps: array2<real>, ecs: CaseProps, c: Angles, trig: Trig, t0: seq<real>, cfg: SimConfig)
    requires temps.Length0 == NODES_TOTAL && temps.Length1 >= 1 && cfg.period != 0.0
    requires |t0| == NODES_TOTAL && Column(temps, 0) == t0
    modifies temps
    ensures forall q :: 0 <= q < temps.Length1 ==> Column(temps, q) == History(ecs, c, trig, t0, cfg, q)
  {
    for p := 1 to temps.Length1
      invariant forall q :: 0 <= q < p ==> Column(temps, q) == History(ecs, c, trig, t0, cfg, q)
    {
      ghost var prev := Column(temps, p - 1);
      StepColumn(temps, p, ecs, c, trig, cfg);
      assert Column(temps, p) == History(ecs, c, trig, t0, cfg, p) by {
        assert prev == History(ecs, c, trig, t0, cfg, p - 1);
      }
    }
  }

  /** `simulate`: allocates the 15 x steps history, writes the case's
      initial vector into column 0, then fills columns 1 .. steps - 1 one by
      one from the previous column; it also returns the time axis. */
  method Simulate(caso: string, ecs: CaseProps, c: Angles, trig: Trig, cfg: SimConfig)
    returns (temps: array2<real>, tAxis: seq<real>)
    requires Runnable(cfg) && StepCount(cfg.tTotal, cfg.dt) >= 1
    ensures fresh(temps)
    ensures temps.Length0 == NODES_TOTAL && temps.Length1 == StepCount(cfg.tTotal, cfg.dt)
    ensures forall i :: 0 <= i < NODES_TOTAL ==> temps[i, 0] == CaseProperties(caso).initial[i]
    ensures forall i, p :: 0 <= i < NODES_TOTAL && 0 <= p < temps.Length1 ==>
              temps[i, p] == History(ecs, c, trig, CaseProperties(caso).initial, cfg, p)[i]
    ensures |tAxis| == AxisLength(cfg.tTotal, cfg.dt)
    ensures forall j :: 0 <= j < |tAxis| ==> tAxis[j] == j as real * cfg.dt
  {
    var t0 := CaseProperties(caso).initial;
    var steps := StepCount(cfg.tTotal, cfg.dt);
    temps := NewHistory(t0, steps);
    Integrate(temps, ecs, c, trig, t0, cfg);
    forall i, p | 0 <= i < NODES_TOTAL && 0 <= p < steps
      ensures temps[i, p] == History(ecs, c, trig, t0, cfg, p)[i]
    {
      assert Column(temps, p)[i] == temps[i, p];
    }

    var n := AxisLength(cfg.tTotal, cfg.dt);
    tAxis := seq(n, j => j as real * cfg.dt);
  }
}
