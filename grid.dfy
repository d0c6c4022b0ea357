/** The wind grid endpoint (main.py:152-165): the resolver applied at the
    49 nodes of a 7 x 7 lattice spanning a bounding box, in row-major order. */
module Grid {
  import opened Wind
  import opened Motion

  // The lattice has 7 nodes per axis, 49 in all, and the box is cut into
  // 6 equal intervals per axis (main.py:156-159). The count is written as
  // the literal 7 so that node indices iy * 7 + ix stay linear arithmetic.

  datatype Box = Box(north: real, south: real, east: real, west: real)

  /** One entry of the returned list: position, direction, speed and source label. */
  datatype GridPoint = GridPoint(lat: real, lon: real, dirDeg: real, speedMs: real, src: string) {
    function Where(): Pos {
      Pos(lat, lon)
    }
  }

  /** The lattice node in row iy (counted from the south edge) and column ix
      (counted from the west edge). */
  function LatticeAt(box: Box, iy: int, ix: int): Pos {
    Pos(RowLat(box, iy), ColLon(box, ix))
  }

  /** The latitude of row iy and the longitude of column ix. */
  function RowLat(box: Box, iy: int): (lat: real)
  {
    box.south + iy as real * LatStep(box)
  }

  function ColLon(box: Box, ix: int): (lon: real)
  {
    box.west + ix as real * LonStep(box)
  }

  /** The spacing of the rows and of the columns: a sixth of the box. */
  function LatStep(box: Box): real {
    (box.north - box.south) / 6.0
  }

  function LonStep(box: Box): real {
    (box.east - box.west) / 6.0
  }

  /** The first m nodes of row iy, west to east. */
  function Row(box: Box, iy: int, m: nat): (nodes: seq<Pos>)
    ensures |nodes| == m
  {
    if m == 0 then [] else Row(box, iy, m - 1) + [LatticeAt(box, iy, m - 1)]
  }

  /** The first m rows, south to north. */
  function Rows(box: Box, m: nat): (nodes: seq<Pos>)
    ensures |nodes| == m * 7
  {
    if m == 0 then [] else Rows(box, m - 1) + Row(box, m - 1, 7)
  }

  /** The nodes in the order they are visited: row by row from the south,
      west to east within a row. */
  function Lattice(box: Box): (nodes: seq<Pos>)
    ensures |nodes| == 49
  {
    Rows(box, 7)
  }

  lemma {:induction false} RowIndex(box: Box, iy: int, m: nat, ix: nat)
    requires ix < m
    ensures Row(box, iy, m)[ix] == LatticeAt(box, iy, ix)
  {
    if ix < m - 1 {
      RowIndex(box, iy, m - 1, ix);
    }
  }

  lemma {:induction false} RowsIndex(box: Box, m: nat, iy: nat, ix: nat)
    requires iy < m && ix < 7
    ensures Rows(box, m)[iy * 7 + ix] == LatticeAt(box, iy, ix)
  {
    if iy < m - 1 {
      RowsIndex(box, m - 1, iy, ix);
    } else {
      RowIndex(box, iy, 7, ix);
    }
  }

  /** Node iy * 7 + ix of the visiting order is the node of row iy and column ix. */
  lemma LatticeIndex(box: Box, iy: int, ix: int)
    requires 0 <= iy < 7 && 0 <= ix < 7
    ensures 0 <= iy * 7 + ix < |Lattice(box)|
    ensures Lattice(box)[iy * 7 + ix] == LatticeAt(box, iy, ix)
  {
    RowsIndex(box, 7, iy, ix);
  }

  /** The lattice starts at the south-west corner, ends at the north-east
      corner, and its nodes are evenly spaced a sixth of the box apart. */
  lemma LatticeCorners(box: Box)
    ensures Lattice(box)[0] == Pos(box.south, box.west)
    ensures Lattice(box)[48] == Pos(box.north, box.east)
    ensures forall iy, ix :: 0 <= iy < 6 && 0 <= ix < 7 ==>
              LatticeAt(box, iy + 1, ix).lat - LatticeAt(box, iy, ix).lat == (box.north - box.south) / 6.0
    ensures forall iy, ix :: 0 <= iy < 7 && 0 <= ix < 6 ==>
              LatticeAt(box, iy, ix + 1).lon - LatticeAt(box, iy, ix).lon == (box.east - box.west) / 6.0
  {
    LatticeIndex(box, 0, 0);
    LatticeIndex(box, 6, 6);
  }

  /** The entry reported for a node resolved to sample s. */
  function Report(node: Pos, s: Sample): (p: GridPoint)
    ensures p.Where() == node && p.speedMs == s.ws && p.dirDeg == s.wd
    ensures p.src == s.src.Label()
    ensures p.src in {"Open-Meteo", "Open-Meteo(alt)", "Default"}
  {
    GridPoint(node.lat, node.lon, s.wd, s.ws, s.src.Label())
  }

  /** The reported points and the cache after resolving coords one after
      another, call i seeing env[i] and starting from the cache the previous
      call left. */
  function Survey(cache: map<Key, Entry>, coords: seq<Pos>, env: seq<Environment>)
    : (r: (seq<GridPoint>, map<Key, Entry>))
    requires |coords| <= |env|
    ensures |r.0| == |coords|
    decreases |coords|
  {
    if coords == [] then ([], cache)
    else
      var n := |coords| - 1;
      var (points, before) := Survey(cache, coords[..n], env);
      var r := Resolve(before, KeyOf(coords[n].lat, coords[n].lon), env[n]);
      (points + [Report(coords[n], r.sample)], r.cache)
  }

  /** Surveying one more node extends the points by that node's report. */
  lemma SurveySnoc(cache: map<Key, Entry>, coords: seq<Pos>, p: Pos, env: seq<Environment>)
    requires |coords| < |env|
    ensures var (points, mid) := Survey(cache, coords, env);
            var r := Resolve(mid, KeyOf(p.lat, p.lon), env[|coords|]);
            Survey(cache, coords + [p], env) == (points + [Report(p, r.sample)], r.cache)
  {
    assert (coords + [p])[..|coords|] == coords;
  }

  /** Point i reports node i with the sample that call i of the resolver
      returns, made against the cache the first i calls left behind. */
  lemma {:induction false} SurveyAt(cache: map<Key, Entry>, coords: seq<Pos>, env: seq<Environment>, i: nat)
    requires |coords| <= |env| && i < |coords|
    ensures var before := Survey(cache, coords[..i], env).1;
            var r := Resolve(before, KeyOf(coords[i].lat, coords[i].lon), env[i]);
            Survey(cache, coords, env).0[i] == Report(coords[i], r.sample)
  {
    var n := |coords| - 1;
    SurveySnoc(cache, coords[..n], coords[n], env);
    assert coords[..n] + [coords[n]] == coords;
    if i < n {
      SurveyAt(cache, coords[..n], env, i);
      assert coords[..n][..i] == coords[..i];
    }
  }

  /** Once the survey is over, the cache holds an entry for every node's key
      and still holds every key it held before. */
  lemma {:induction false} SurveyCaches(cache: map<Key, Entry>, coords: seq<Pos>, env: seq<Environment>)
    requires |coords| <= |env|
    ensures var after := Survey(cache, coords, env).1;
            cache.Keys <= after.Keys
            && forall i :: 0 <= i < |coords| ==> KeyOf(coords[i].lat, coords[i].lon) in after
  {
    if coords != [] {
      var n := |coords| - 1;
      SurveyCaches(cache, coords[..n], env);
      var mid := Survey(cache, coords[..n], env).1;
      ResolveFrame(mid, KeyOf(coords[n].lat, coords[n].lon), env[n]);
      forall i | 0 <= i < n
        ensures KeyOf(coords[i].lat, coords[i].lon) in mid
      {
        assert coords[..n][i] == coords[i];
      }
    }
  }

  /** The grid's point in row iy and column ix sits at that lattice node and
      carries one of the three source labels. */
  lemma GridPoints(cache: map<Key, Entry>, box: Box, env: seq<Environment>)
    requires |env| == 49
    ensures var points := Survey(cache, Lattice(box), env).0;
            |points| == 49
            && forall iy, ix :: 0 <= iy < 7 && 0 <= ix < 7 ==>
                 points[iy * 7 + ix].Where() == LatticeAt(box, iy, ix)
                 && points[iy * 7 + ix].src in {"Open-Meteo", "Open-Meteo(alt)", "Default"}
  {
    var points := Survey(cache, Lattice(box), env).0;
    forall iy, ix | 0 <= iy < 7 && 0 <= ix < 7
      ensures points[iy * 7 + ix].Where() == LatticeAt(box, iy, ix)
      ensures points[iy * 7 + ix].src in {"Open-Meteo", "Open-Meteo(alt)", "Default"}
    {
      LatticeIndex(box, iy, ix);
      SurveyAt(cache, Lattice(box), env, iy * 7 + ix);
    }
  }

  /** The grid endpoint: 49 points in row-major order over the lattice of
      the box; call i of the resolver sees env[i]. */
  method WindGrid(resolver: WindResolver, box: Box, env: seq<Environment>) returns (points: seq<GridPoint>)
    requires |env| == 49
    modifies resolver
    ensures (points, resolver.cache) == Survey(old(resolver.cache), Lattice(box), env)
  {
    points := [];
    ghost var c0 := resolver.cache;
    for iy := 0 to 7
      invariant (points, resolver.cache) == Survey(c0, Rows(box, iy), env)
    {
      points := SurveyRow(resolver, box, iy, env, c0, points);
    }
  }

  /** One pass of the outer loop: the nodes of row iy, west to east, each
      appended to the points of the rows below it. */
  method SurveyRow(resolver: WindResolver, box: Box, iy: nat, env: seq<Environment>,
                   ghost c0: map<Key, Entry>, below: seq<GridPoint>)
    returns (points: seq<GridPoint>)
    requires iy < 7 && |env| == 49
    requires (below, resolver.cache) == Survey(c0, Rows(box, iy), env)
    modifies resolver
    ensures (points, resolver.cache) == Survey(c0, Rows(box, iy + 1), env)
  {
    points := below;
    RowsExtend(box, iy);
    for ix := 0 to 7
      invariant (points, resolver.cache) == Survey(c0, Rows(box, iy) + Row(box, iy, ix), env)
    {
      points := VisitNode(resolver, box, iy, ix, env, c0, points);
    }
  }

  /** Row iy starts where the rows below it end, and completing it completes
      the first iy + 1 rows. */
  lemma RowsExtend(box: Box, iy: nat)
    ensures Rows(box, iy) + Row(box, iy, 0) == Rows(box, iy)
    ensures Rows(box, iy) + Row(box, iy, 7) == Rows(box, iy + 1)
  {
    assert Row(box, iy, 0) == [];
  }

  /** The node of row iy and column ix, visited after the nodes before it. */
  method VisitNode(resolver: WindResolver, box: Box, iy: nat, ix: nat, env: seq<Environment>,
                   ghost c0: map<Key, Entry>, points: seq<GridPoint>)
    returns (more: seq<GridPoint>)
    requires iy < 7 && ix < 7 && |env| == 49
    requires (points, resolver.cache) == Survey(c0, Rows(box, iy) + Row(box, iy, ix), env)
    modifies resolver
    ensures (more, resolver.cache) == Survey(c0, Rows(box, iy) + Row(box, iy, ix + 1), env)
  {
    ghost var visited := Rows(box, iy) + Row(box, iy, ix);
    more := Visit(resolver, LatticeAt(box, iy, ix), env[iy * 7 + ix], points, c0, visited, env);
    RowExtend(box, iy, ix);
  }

  /** Visiting the node of column ix extends the nodes visited so far by one. */
  lemma RowExtend(box: Box, iy: nat, ix: nat)
    ensures (Rows(box, iy) + Row(box, iy, ix)) + [LatticeAt(box, iy, ix)] == Rows(box, iy) + Row(box, iy, ix + 1)
  {
  }

  /** The body of the inner loop: resolve the wind at one node and append
      its point; env are the environments of all the calls, visited the nodes
      resolved before this one. */
  method Visit(resolver: WindResolver, node: Pos, e: Environment, points: seq<GridPoint>,
               ghost c0: map<Key, Entry>, ghost visited: seq<Pos>, ghost env: seq<Environment>)
    returns (more: seq<GridPoint>)
    requires |visited| < |env| && e == env[|visited|]
    requires (points, resolver.cache) == Survey(c0, visited, env)
    modifies resolver
    ensures (more, resolver.cache) == Survey(c0, visited + [node], env)
  {
    var s, _ := resolver.GetWind(node.lat, node.lon, e);
    SurveySnoc(c0, visited, node, env);
    more := points + [Report(node, s)];
  }
}
