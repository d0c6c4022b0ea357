/** One wind-driven displacement step on a flat-earth grid (main.py:53-61),
    and its repetition. The trigonometric decomposition of the wind into an
    eastward and a northward component is taken as given. */
module Motion {

  /** Metres per degree of latitude or longitude. */
  const EARTH_M: real := 111320.0

  datatype Pos = Pos(lat: real, lon: real)

  /** Wind velocity in m/s: vx eastward (ws * sin wd), vy northward (ws * cos wd). */
  datatype Vec = Vec(vx: real, vy: real)

  /** Advances p by the wind v for dt seconds; reverse runs the wind backwards.
      The distance covered in metres, velocity times time, becomes degrees
      at EARTH_M metres per degree. */
  function Step(p: Pos, v: Vec, dt: real, reverse: bool): (q: Pos)
  {
    var vx := if reverse then -v.vx else v.vx;
    var vy := if reverse then -v.vy else v.vy;
    Pos(p.lat + vy * dt / EARTH_M, p.lon + vx * dt / EARTH_M)
  }

  /** The distance a step covers in metres is the velocity times the time. */
  lemma StepDistance(p: Pos, v: Vec, dt: real, reverse: bool)
    ensures var q := Step(p, v, dt, reverse);
            (q.lat - p.lat) * EARTH_M == (if reverse then -v.vy else v.vy) * dt
            && (q.lon - p.lon) * EARTH_M == (if reverse then -v.vx else v.vx) * dt
  {
  }

  /** The displacement in degrees of one step. */
  function Shift(v: Vec, dt: real, reverse: bool): Pos {
    var s := if reverse then -1.0 else 1.0;
    Pos(s * v.vy * dt / EARTH_M, s * v.vx * dt / EARTH_M)
  }

  /** A step moves by the same displacement wherever it starts. */
  lemma StepIsShift(q: Pos, v: Vec, dt: real, reverse: bool)
    ensures var d := Shift(v, dt, reverse);
            Step(q, v, dt, reverse) == Pos(q.lat + d.lat, q.lon + d.lon)
  {
  }

  /** Reversing negates the displacement exactly. */
  lemma ShiftReversed(v: Vec, dt: real, reverse: bool)
    ensures Shift(v, dt, !reverse) == Pos(-Shift(v, dt, reverse).lat, -Shift(v, dt, reverse).lon)
  {
  }

  /** A reverse step is undone by a forward step with the same wind and dt. */
  lemma StepInverse(p: Pos, v: Vec, dt: real, reverse: bool)
    ensures Step(Step(p, v, dt, reverse), v, dt, !reverse) == p
  {
  }

  /** The position after n steps from p. */
  function Drift(p: Pos, v: Vec, dt: real, reverse: bool, n: nat): Pos
    decreases n
  {
    if n == 0 then p else Step(Drift(p, v, dt, reverse, n - 1), v, dt, reverse)
  }

  /** After n steps the object has moved n times the one-step displacement:
      the points of a flight lie evenly spaced on a straight line. */
  lemma DriftClosedForm(p: Pos, v: Vec, dt: real, reverse: bool, n: nat)
    ensures var d := Shift(v, dt, reverse);
            Drift(p, v, dt, reverse, n) == Pos(p.lat + n as real * d.lat, p.lon + n as real * d.lon)
  {
    DriftIsWalk(p, v, dt, reverse, n);
    WalkClosedForm(p, Shift(v, dt, reverse), n);
  }

  /** p moved n times by the displacement d. */
  function Walk(p: Pos, d: Pos, n: nat): Pos {
    if n == 0 then p
    else
      var w := Walk(p, d, n - 1);
      Pos(w.lat + d.lat, w.lon + d.lon)
  }

  /** Drifting is walking by the one-step displacement. */
  lemma {:induction false} DriftIsWalk(p: Pos, v: Vec, dt: real, reverse: bool, n: nat)
    ensures Drift(p, v, dt, reverse, n) == Walk(p, Shift(v, dt, reverse), n)
  {
    if n > 0 {
      DriftIsWalk(p, v, dt, reverse, n - 1);
      StepIsShift(Drift(p, v, dt, reverse, n - 1), v, dt, reverse);
    }
  }

  /** n moves by d add n times d. */
  lemma {:induction false} WalkClosedForm(p: Pos, d: Pos, n: nat)
    ensures Walk(p, d, n) == Pos(p.lat + n as real * d.lat, p.lon + n as real * d.lon)
  {
    if n > 0 {
      var w := Walk(p, d, n - 1);
      WalkClosedForm(p, d, n - 1);
      OneMore(p.lat, n - 1, d.lat, w.lat);
      OneMore(p.lon, n - 1, d.lon, w.lon);
    }
  }

  /** One more displacement x on top of m of them makes m + 1. */
  lemma OneMore(a: real, m: nat, x: real, b: real)
    requires b == a + m as real * x
    ensures b + x == a + (m + 1) as real * x
  {
  }

  /** n reverse steps followed by n forward steps (or the other way round)
      return to the starting position. */
  lemma DriftInverse(p: Pos, v: Vec, dt: real, reverse: bool, n: nat)
    ensures Drift(Drift(p, v, dt, reverse, n), v, dt, !reverse, n) == p
  {
    var q := Drift(p, v, dt, reverse, n);
    DriftClosedForm(p, v, dt, reverse, n);
    DriftClosedForm(q, v, dt, !reverse, n);
    var d, e := Shift(v, dt, reverse), Shift(v, dt, !reverse);
    ShiftReversed(v, dt, reverse);
    assert n as real * e.lat == -(n as real * d.lat);
    assert n as real * e.lon == -(n as real * d.lon);
  }

  /** A reverse flight is the mirror image, through the start, of the forward one. */
  lemma DriftMirror(p: Pos, v: Vec, dt: real, n: nat)
    ensures var f, b := Drift(p, v, dt, false, n), Drift(p, v, dt, true, n);
            b.lat - p.lat == -(f.lat - p.lat) && b.lon - p.lon == -(f.lon - p.lon)
  {
    DriftClosedForm(p, v, dt, false, n);
    DriftClosedForm(p, v, dt, true, n);
    var d, e := Shift(v, dt, false), Shift(v, dt, true);
    ShiftReversed(v, dt, false);
    assert n as real * e.lat == -(n as real * d.lat);
    assert n as real * e.lon == -(n as real * d.lon);
  }
}
