/** The six trajectory endpoints (main.py:64-149) as one integrator
    parameterised by its termination policy and by the wind direction mode. */
module Trajectory {
  import opened Wind
  import opened Motion

  /** Seconds per integration step. */
  const DT: real := 15.0
  /** Number of steps of the fixed-count policy. */
  const STEPS: nat := 50
  /** Descent rate (m/s) used when the caller's speed is not positive. */
  const DEFAULT_VVERT: real := 2.5
  /** The payload mass hard-coded in the mass-scaled endpoints. */
  const MASS: real := 55.0

  /** Fixed-count drift, altitude depletion, or altitude depletion whose
      rate is scaled by the payload mass. */
  datatype Policy = FixedCount | Depletion | MassScaled(mass: real)

  datatype Point = Point(lat: real, lon: real, alt: real)

  /** The six endpoints. */
  datatype Endpoint = T1 | T2 | T3 | T1r | T2r | T3r

  /** The policy and the reverse flag each endpoint runs with. */
  function Config(e: Endpoint): (c: (Policy, bool))
    ensures Terminates(c.0)
    ensures c.1 <==> e == T1r || e == T2r || e == T3r
    ensures c.0 == FixedCount <==> e == T1 || e == T1r
    ensures c.0 == Depletion <==> e == T2 || e == T2r
    ensures c.0.MassScaled? <==> e == T3 || e == T3r
    ensures c.0.MassScaled? ==> c.0.mass == 55.0
  {
    match e
    case T1 => (FixedCount, false)
    case T2 => (Depletion, false)
    case T3 => (MassScaled(MASS), false)
    case T1r => (FixedCount, true)
    case T2r => (Depletion, true)
    case T3r => (MassScaled(MASS), true)
  }

  /** The vertical speed: the caller's speed if positive, else the default. */
  function VerticalSpeed(spd: real): (v: real)
    ensures v > 0.0
    ensures spd > 0.0 ==> v == spd
    ensures spd <= 0.0 ==> v == DEFAULT_VVERT
  {
    if spd > 0.0 then spd else DEFAULT_VVERT
  }

  /** The factor scaling the descent rate of a payload of the given mass. */
  function MassFactor(mass: real): (f: real)
    ensures mass == 55.0 ==> f == 1.0
    ensures f > 0.0 <==> mass > -9945.0
  {
    1.0 + 0.0001 * (mass - 55.0)
  }

  /** The policies whose descent loop makes progress: a mass-scaled descent
      needs a positive scaling factor. */
  predicate Terminates(policy: Policy) {
    policy.MassScaled? ==> MassFactor(policy.mass) > 0.0
  }

  /** Altitude lost per step by a descent policy. */
  function Descent(policy: Policy, spd: real): (d: real)
    requires Terminates(policy)
    ensures policy != FixedCount ==> d > 0.0
  {
    match policy
    case MassScaled(mass) => VerticalSpeed(spd) * DT * MassFactor(mass)
    case _ => VerticalSpeed(spd) * DT
  }

  /** The least integer at or above x. */
  function Ceil(x: real): (c: int)
    ensures c as real - 1.0 < x <= c as real
  {
    -((-x).Floor)
  }

  /** The number of steps a descent from alt, losing d per step, records. */
  function DescentCount(alt: real, d: real): (n: nat)
    requires d > 0.0
    ensures alt <= 0.0 ==> n == 0
    ensures alt > 0.0 ==> 1 <= n && (n - 1) as real * d < alt <= n as real * d
  {
    if alt <= 0.0 then 0
    else
      var c := Ceil(alt / d);
      CeilScaled(alt, d, c);
      c
  }

  /** Scaling the bounds of a ceiling by the positive divisor. */
  lemma CeilScaled(alt: real, d: real, c: int)
    requires d > 0.0 && alt > 0.0
    requires c as real - 1.0 < alt / d <= c as real
    ensures 1 <= c && (c - 1) as real * d < alt <= c as real * d
  {
    assert alt / d * d == alt;
    MulStrict(alt / d, c as real, d);
    MulStrict((c - 1) as real, alt / d, d);
  }

  lemma MulStrict(a: real, b: real, d: real)
    requires d > 0.0
    ensures a < b ==> a * d < b * d
    ensures a <= b ==> a * d <= b * d
    ensures a * d < b * d ==> a < b
  {
  }

  /** An altitude floored at zero. */
  function Clamp(h: real): (r: real)
    ensures r >= 0.0 && (h >= 0.0 ==> r == h)
    ensures h <= 0.0 ==> r == 0.0
  {
    if h < 0.0 then 0.0 else h
  }

  /** The altitude left after k steps of a descent from alt losing d per
      step: the running subtraction of the descent loop. */
  function Remaining(alt: real, d: real, k: nat): real {
    if k == 0 then alt else Remaining(alt, d, k - 1) - d
  }

  /** After k subtractions, k times the loss has been taken off. */
  lemma {:induction false} RemainingClosedForm(alt: real, d: real, k: nat)
    ensures Remaining(alt, d, k) == alt - k as real * d
  {
    if k > 0 {
      RemainingClosedForm(alt, d, k - 1);
      LessOne(alt, k - 1, d, Remaining(alt, d, k - 1));
    }
  }

  lemma LessOne(a: real, m: nat, x: real, b: real)
    requires b == a - m as real * x
    ensures b - x == a - (m + 1) as real * x
  {
  }

  /** The altitude recorded after step k (counted from 0) of a descent from alt
      losing d per step. */
  function AltAfter(alt: real, d: real, k: nat): real {
    Clamp(Remaining(alt, d, k + 1))
  }

  /** The number of points a flight records. */
  function Count(policy: Policy, alt: real, spd: real): (n: nat)
    requires Terminates(policy)
    ensures policy == FixedCount ==> n == 50
    ensures policy != FixedCount && alt <= 0.0 ==> n == 0
    ensures policy != FixedCount && alt > 0.0 ==>
              var d := Descent(policy, spd); 1 <= n && (n - 1) as real * d < alt <= n as real * d
  {
    if policy == FixedCount then STEPS else DescentCount(alt, Descent(policy, spd))
  }

  /** The k-th recorded point (k counted from 0) of a flight. */
  function PointAt(policy: Policy, start: Pos, alt: real, spd: real, v: Vec, reverse: bool, k: nat): (pt: Point)
    requires Terminates(policy)
    ensures Pos(pt.lat, pt.lon) == Step(Drift(start, v, DT, reverse, k), v, DT, reverse)
    ensures policy == FixedCount ==> pt.alt == alt
    ensures policy != FixedCount ==> pt.alt >= 0.0
  {
    var p := Drift(start, v, DT, reverse, k + 1);
    var h := if policy == FixedCount then alt else AltAfter(alt, Descent(policy, spd), k);
    Point(p.lat, p.lon, h)
  }

  /** The whole trajectory a flight records. */
  function Path(policy: Policy, start: Pos, alt: real, spd: real, v: Vec, reverse: bool): (t: seq<Point>)
    requires Terminates(policy)
    ensures |t| == Count(policy, alt, spd)
    ensures |t| > 0 ==> Pos(t[0].lat, t[0].lon) == Step(start, v, DT, reverse)
    ensures forall k :: 0 <= k < |t| - 1 ==>
              Pos(t[k + 1].lat, t[k + 1].lon) == Step(Pos(t[k].lat, t[k].lon), v, DT, reverse)
  {
    seq(Count(policy, alt, spd), k requires 0 <= k => PointAt(policy, start, alt, spd, v, reverse, k))
  }

  /** Runs one flight from start at altitude alt under the wind v, appending one
      point per step, as each endpoint does after resolving the wind. */
  method Integrate(policy: Policy, start: Pos, alt: real, spd: real, v: Vec, reverse: bool)
    returns (traj: seq<Point>)
    requires Terminates(policy)
    ensures traj == Path(policy, start, alt, spd, v, reverse)
  {
    if policy == FixedCount {
      traj := DriftLevel(start, alt, spd, v, reverse);
    } else {
      traj := DriftDown(policy, start, alt, spd, v, reverse);
    }
  }

  /** The loop of the fixed-count endpoints: 50 steps at constant altitude. */
  method DriftLevel(start: Pos, alt: real, spd: real, v: Vec, reverse: bool) returns (traj: seq<Point>)
    ensures traj == Path(FixedCount, start, alt, spd, v, reverse)
  {
    var p := start;
    traj := [];
    for i := 0 to STEPS
      invariant p == Drift(start, v, DT, reverse, i)
      invariant |traj| == i
      invariant forall k :: 0 <= k < i ==> traj[k] == PointAt(FixedCount, start, alt, spd, v, reverse, k)
    {
      p := Step(p, v, DT, reverse);
      traj := traj + [Point(p.lat, p.lon, alt)];
    }
  }

  /** The loop of the descending endpoints: a step while altitude remains,
      each recording the altitude left, floored at 0. */
  method DriftDown(policy: Policy, start: Pos, alt: real, spd: real, v: Vec, reverse: bool)
    returns (traj: seq<Point>)
    requires Terminates(policy) && policy != FixedCount
    ensures traj == Path(policy, start, alt, spd, v, reverse)
  {
    var vVert := VerticalSpeed(spd);
    var d := match policy
      case MassScaled(mass) => vVert * DT * MassFactor(mass)
      case _ => vVert * DT;
    assert d == Descent(policy, spd);
    ghost var n := DescentCount(alt, d);
    var p := start;
    var h := alt;
    var i: nat := 0;
    traj := [];
    while h > 0.0
      invariant i <= n
      invariant h == Remaining(alt, d, i)
      invariant p == Drift(start, v, DT, reverse, i)
      invariant |traj| == i
      invariant forall k :: 0 <= k < i ==> traj[k] == PointAt(policy, start, alt, spd, v, reverse, k)
      decreases n - i
    {
      StepsLeft(alt, d, i);
      p := Step(p, v, DT, reverse);
      h := h - d;
      assert Point(p.lat, p.lon, Clamp(h)) == PointAt(policy, start, alt, spd, v, reverse, i);
      traj := traj + [Point(p.lat, p.lon, Clamp(h))];
      i := i + 1;
    }
    StepsDone(alt, d, i);
  }

  /** While altitude remains, fewer than DescentCount steps have been taken. */
  lemma StepsLeft(alt: real, d: real, i: nat)
    requires d > 0.0 && Remaining(alt, d, i) > 0.0
    ensures i < DescentCount(alt, d)
  {
    RemainingClosedForm(alt, d, i);
    var n := DescentCount(alt, d);
    MulStrict(i as real, n as real, d);
  }

  /** Once the altitude is used up, at least DescentCount steps have been taken. */
  lemma StepsDone(alt: real, d: real, i: nat)
    requires d > 0.0 && Remaining(alt, d, i) <= 0.0
    ensures i >= DescentCount(alt, d)
  {
    RemainingClosedForm(alt, d, i);
    var n := DescentCount(alt, d);
    if n > 0 {
      MulStrict((n - 1) as real, i as real, d);
      assert (n - 1) as real * d < i as real * d;
    }
  }

  /** The fixed-count flight records exactly 50 points, every one at the
      starting altitude, the k-th after k + 1 steps of drift. */
  lemma FixedCountShape(start: Pos, alt: real, spd: real, v: Vec, reverse: bool)
    ensures var t := Path(FixedCount, start, alt, spd, v, reverse);
            |t| == 50
            && forall k :: 0 <= k < |t| ==>
                 (t[k].alt == alt && Pos(t[k].lat, t[k].lon) == Drift(start, v, DT, reverse, k + 1))
  {
  }

  /** A descent records ceil(alt / d) points when alt > 0 and none otherwise;
      every recorded altitude is non-negative, the altitudes strictly decrease,
      all but the last are positive, and the last is exactly 0. */
  lemma DescentShape(policy: Policy, start: Pos, alt: real, spd: real, v: Vec, reverse: bool)
    requires Terminates(policy) && policy != FixedCount
    ensures var t, d := Path(policy, start, alt, spd, v, reverse), Descent(policy, spd);
            && (alt <= 0.0 ==> t == [])
            && (alt > 0.0 ==> |t| >= 1 && (|t| - 1) as real * d < alt <= |t| as real * d)
            && (forall k :: 0 <= k < |t| ==> t[k].alt >= 0.0)
            && (forall k :: 0 <= k < |t| - 1 ==> t[k].alt > 0.0 && t[k].alt > t[k + 1].alt)
            && (|t| > 0 ==> t[|t| - 1].alt == 0.0)
  {
    DescentProfile(Path(policy, start, alt, spd, v, reverse), alt, Descent(policy, spd));
  }

  /** The altitude profile of a descent, on any sequence of points recording
      AltAfter at each of its DescentCount steps. */
  lemma DescentProfile(t: seq<Point>, alt: real, d: real)
    requires d > 0.0 && |t| == DescentCount(alt, d)
    requires forall k :: 0 <= k < |t| ==> t[k].alt == AltAfter(alt, d, k)
    ensures forall k :: 0 <= k < |t| - 1 ==> t[k].alt > 0.0 && t[k].alt > t[k + 1].alt
    ensures |t| > 0 ==> t[|t| - 1].alt == 0.0
  {
    var n := |t|;
    forall k | 0 <= k < n - 1
      ensures AltAfter(alt, d, k) > 0.0 && AltAfter(alt, d, k) > AltAfter(alt, d, k + 1)
    {
      DescentAltitudes(alt, d, k);
    }
    if n > 0 {
      LastAltitude(alt, d);
    }
  }

  /** Point k of a descent records the starting altitude less k + 1 times the
      per-step loss, floored at 0. */
  lemma DescentAltitudeValue(policy: Policy, start: Pos, alt: real, spd: real, v: Vec, reverse: bool, k: nat)
    requires Terminates(policy) && policy != FixedCount && k < Count(policy, alt, spd)
    ensures Path(policy, start, alt, spd, v, reverse)[k].alt == Clamp(alt - (k + 1) as real * Descent(policy, spd))
  {
    RemainingClosedForm(alt, Descent(policy, spd), k + 1);
  }

  /** Before the last step the altitude is positive and above the next one. */
  lemma DescentAltitudes(alt: real, d: real, k: nat)
    requires d > 0.0 && k + 1 < DescentCount(alt, d)
    ensures AltAfter(alt, d, k) > 0.0
    ensures AltAfter(alt, d, k) > AltAfter(alt, d, k + 1)
  {
    RemainingClosedForm(alt, d, k + 1);
    AboveGround(alt, d, k + 1);
    var a := Remaining(alt, d, k + 1);
    assert a > 0.0;
    assert AltAfter(alt, d, k) == a;
    assert AltAfter(alt, d, k + 1) == Clamp(a - d);
  }

  /** Before the last of the DescentCount steps, altitude remains. */
  lemma AboveGround(alt: real, d: real, j: nat)
    requires d > 0.0 && j < DescentCount(alt, d)
    ensures alt - j as real * d > 0.0
  {
    var n := DescentCount(alt, d);
    MulStrict(j as real, (n - 1) as real, d);
  }

  /** The last step of a descent reaches the ground. */
  lemma LastAltitude(alt: real, d: real)
    requires d > 0.0 && DescentCount(alt, d) > 0
    ensures AltAfter(alt, d, DescentCount(alt, d) - 1) == 0.0
  {
    RemainingClosedForm(alt, d, DescentCount(alt, d));
  }

  /** With the hard-coded mass of 55.0 the scaling factor is 1, so the
      mass-scaled endpoints record exactly what the plain descent records. */
  lemma MassScaledIsDepletion(start: Pos, alt: real, spd: real, v: Vec, reverse: bool)
    ensures Terminates(MassScaled(MASS))
    ensures Path(MassScaled(MASS), start, alt, spd, v, reverse) == Path(Depletion, start, alt, spd, v, reverse)
  {
    assert MassFactor(MASS) == 1.0;
    assert Descent(MassScaled(MASS), spd) == Descent(Depletion, spd);
    var a, b := Path(MassScaled(MASS), start, alt, spd, v, reverse), Path(Depletion, start, alt, spd, v, reverse);
    assert |a| == |b|;
    forall k | 0 <= k < |a|
      ensures a[k] == b[k]
    {
      assert a[k] == PointAt(MassScaled(MASS), start, alt, spd, v, reverse, k);
    }
  }

  /** A 3000 m descent with no usable speed falls at 2.5 m/s, 37.5 m per
      step, and records 80 points, the last at altitude 0. */
  lemma DescentFrom3000(start: Pos, v: Vec, reverse: bool)
    ensures var t := Path(Depletion, start, 3000.0, 0.0, v, reverse);
            |t| == 80 && t[79].alt == 0.0
  {
    var d := Descent(Depletion, 0.0);
    assert d == 37.5;
    var n := DescentCount(3000.0, d);
    if n < 80 {
      MulStrict(n as real, 79.0, d);
    } else if n > 80 {
      MulStrict(80.0, (n - 1) as real, d);
    }
    DescentShape(Depletion, start, 3000.0, 0.0, v, reverse);
  }

  /** A reverse flight records as many points as the forward one, each the
      mirror image through the start of its forward counterpart, at the same altitude. */
  lemma ReverseMirrorsForward(policy: Policy, start: Pos, alt: real, spd: real, v: Vec)
    requires Terminates(policy)
    ensures var f, b := Path(policy, start, alt, spd, v, false), Path(policy, start, alt, spd, v, true);
            |b| == |f|
            && forall k :: 0 <= k < |b| ==>
                 b[k].alt == f[k].alt
                 && b[k].lat - start.lat == -(f[k].lat - start.lat)
                 && b[k].lon - start.lon == -(f[k].lon - start.lon)
  {
    var f, b := Path(policy, start, alt, spd, v, false), Path(policy, start, alt, spd, v, true);
    forall k | 0 <= k < |b|
      ensures b[k].lat - start.lat == -(f[k].lat - start.lat)
              && b[k].lon - start.lon == -(f[k].lon - start.lon)
    {
      DriftMirror(start, v, DT, k + 1);
    }
  }

  /** One endpoint: resolve the wind once at the start, then fly under that
      wind for the whole flight. decompose stands for the eastward and
      northward components ws * sin(wd), ws * cos(wd) of a sample. */
  method Fly(resolver: WindResolver, e: Endpoint, lat: real, lon: real, altitude: real, speed: real,
             env: Environment, decompose: (real, real) -> Vec)
    returns (traj: seq<Point>, src: string)
    modifies resolver
    ensures var r := Resolve(old(resolver.cache), KeyOf(lat, lon), env);
            resolver.cache == r.cache
            && src == r.sample.src.Label()
            && traj == Path(Config(e).0, Pos(lat, lon), altitude, speed,
                            decompose(r.sample.ws, r.sample.wd), Config(e).1)
  {
    var (policy, reverse) := Config(e);
    assert MassFactor(MASS) == 1.0;
    var s, _ := resolver.GetWind(lat, lon, env);
    traj := Integrate(policy, Pos(lat, lon), altitude, speed, decompose(s.ws, s.wd), reverse);
    src := s.src.Label();
  }
}
