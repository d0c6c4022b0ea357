# Wind-drift trajectory service, modelled in Dafny

The service answers two kinds of request. A trajectory request gives a start position, an altitude and a
vertical speed, and gets back the points of a flight that drifts with the wind. A grid request gives a
bounding box and gets back the wind at the 49 nodes of a 7 x 7 lattice over it. Every request asks
for the wind through one resolver. The resolver keeps a process-wide cache keyed by the position
rounded to hundredths of a degree. A cache entry younger than 600 s is reused. On a miss the resolver
asks the primary forecast query, then the alternate query, and finally falls back to a default of
10.0 m/s towards 315 degrees. It stores what it settled on, stamped with the current time.

The project has four modules, one per part of `main.py`:

- `Wind` (`wind.dfy`): the cache, the fallback chain and the resolver. `Resolve` is a pure reference
  definition of one call. The class `WindResolver` owns the cache as a `map` field, and its method
  `GetWind` updates that field step by step, as the source does.
- `Motion` (`motion.dfy`): one flat-earth drift step (`Step`), its repetition (`Drift`), and the
  closed form and inverse of both.
- `Trajectory` (`trajectory.dfy`): the six trajectory endpoints. They form one integrator,
  `Integrate`, parameterised by a termination `Policy` (fixed count of 50 steps, altitude depletion,
  or mass-scaled depletion) and by a reverse flag. The reference definition is `Path`. `Fly` is one
  endpoint: it resolves the wind once, then integrates.
- `Grid` (`grid.dfy`): the grid endpoint. `WindGrid` has the source's nested loops and is specified by
  `Survey`, which resolves the lattice nodes one after another and threads the cache through. The
  outer loop body is `SurveyRow`. The inner loop body is `VisitNode`, which calls `Visit` for one node.

The outside world is passed in as parameters. An `Environment` holds what one resolver call observes:
the clock reading and the outcome of each remote query, with `None` standing for any failure. The
decomposition of a (speed, direction) sample into eastward and northward components is the parameter
`decompose` of `Fly`.

## Model

| member | source | states |
|---|---|---|
| Wind.Round2 | main.py:20 | the key coordinate is within half a hundredth of the input and is a whole number of hundredths |
| Wind.KeyOf | main.py:20 | the cache key of a position is within half a hundredth of it on each axis, and both coordinates are whole numbers of hundredths |
| Wind.Fresh | main.py:22 | an entry can only be fresh if the key is cached, and an entry 600 s old or older is never fresh |
| Wind.Fallback | main.py:25-51 | the primary answer wins when present; otherwise the alternate answer; otherwise (10.0, 315.0); the source tier is identified in each case, both directions |
| Wind.Resolve | main.py:18-51 | after a call the key holds exactly the returned sample; a fresh hit returns the stored sample, consults nothing and changes nothing; a miss stamps the entry with the current time, returns the fallback sample and consults the primary query before the alternate one; the alternate query is consulted exactly when there was a miss and the primary failed |
| Wind.ResolveFrame | main.py:32-50 | a call adds at most its own key to the cache and leaves every other entry unchanged |
| Wind.RepeatWithinTtlHits | main.py:20-23 | a second call for the same key less than 600 s after a miss returns the same sample, leaves the cache unchanged and consults no source, whatever the sources would now answer |
| Wind.AgedExactlyTtlIsMiss | main.py:22-23 | an entry aged exactly 600 s is stale: the call goes back to the primary query and restamps the entry |
| Wind.BothSourcesFailGiveDefault | main.py:49-51 | with both queries failing, a miss yields 10.0, 315.0 and the label "Default" after trying both sources in order |
| Wind.WindResolver.constructor | main.py:16 | the cache starts empty |
| Wind.WindResolver.GetWind | main.py:18-51 | the sample, the sources tried and the new cache are those of `Resolve` on the old cache; a hit leaves the cache as it was; a miss writes exactly the returned sample at the current time |
| Motion.StepDistance | main.py:53-61 | the distance a step covers, its change in degrees times 111320 m, is the wind component times dt on each axis, negated in reverse |
| Motion.StepIsShift | main.py:53-61 | a step moves by the same displacement wherever it starts |
| Motion.ShiftReversed | main.py:57-58 | reversing the wind negates the displacement |
| Motion.StepInverse | main.py:53-61 | a reverse step followed by a forward step with the same wind and time step returns to the start, and so does the other order |
| Motion.DriftIsWalk | main.py:71-72 | n steps move the position n times by the one-step displacement, one move per step |
| Motion.DriftClosedForm | main.py:71-72 | after n steps the position has moved n times the one-step displacement |
| Motion.DriftInverse | main.py:53-61 | n reverse steps followed by n forward steps, or the other way round, return to the start |
| Motion.DriftMirror | main.py:57-58 | after n steps the reverse flight is the mirror image, through the start, of the forward flight |
| Trajectory.Config | main.py:64-149 | exactly the endpoints t1r, t2r and t3r run in reverse; t1 and t1r use 50 fixed steps, t2 and t2r plain descent, t3 and t3r descent scaled for the mass 55.0; on exact reals every endpoint's descent loop ends (not so on doubles, see Left out) |
| Trajectory.VerticalSpeed | main.py:80 | the vertical speed is the caller's speed when that is positive and 2.5 otherwise, so it is always positive |
| Trajectory.MassFactor | main.py:103 | the scaling factor is 1 for the mass 55.0, and positive exactly when the mass exceeds -9945 |
| Trajectory.Descent | main.py:80-103 | every descent policy loses a positive altitude per step |
| Trajectory.DescentCount | main.py:85-88 | a descent from alt losing d per step takes no step when alt <= 0, and otherwise takes the least n >= 1 with n * d >= alt |
| Trajectory.Clamp | main.py:88 | the recorded altitude is the computed one when that is non-negative and 0 otherwise |
| Trajectory.RemainingClosedForm | main.py:85-87 | after k passes of the descent loop the running altitude is alt - k * d |
| Trajectory.Count | main.py:69-88 | a fixed-count flight records 50 points; a descent records none from alt <= 0, otherwise the least n >= 1 with n * d >= alt |
| Trajectory.PointAt | main.py:71-88 | point k lies one step beyond k steps of drift from the start; its altitude is the starting one in a fixed-count flight and non-negative in a descent |
| Trajectory.Path | main.py:64-149 | a flight records `Count` points; the first lies one step from the start and each next one step from the one before |
| Trajectory.Integrate | main.py:64-149 | the recorded trajectory equals `Path` for the endpoint's policy and direction |
| Trajectory.DriftLevel | main.py:69-73 | the fixed-count loop records exactly `Path` of the fixed-count policy |
| Trajectory.DriftDown | main.py:80-88 | on exact reals the descent loop ends and records exactly `Path` of its descent policy |
| Trajectory.StepsLeft | main.py:85 | while altitude remains, fewer steps have been taken than the descent records |
| Trajectory.StepsDone | main.py:85 | once the altitude is used up, at least as many steps have been taken as the descent records |
| Trajectory.FixedCountShape | main.py:69-73 | a fixed-count flight records exactly 50 points, all at the starting altitude, point k after k + 1 steps of drift |
| Trajectory.DescentShape | main.py:85-88 | a descent records ceil(alt / d) points (none when alt <= 0); its altitudes are non-negative and strictly decreasing, all but the last are positive, and the last is 0 |
| Trajectory.DescentProfile | main.py:85-88 | any record of the descent's altitudes, one per step, is positive and strictly decreasing before its last point, and its last point is 0 |
| Trajectory.DescentAltitudeValue | main.py:85-88 | point k of a descent records the starting altitude less k + 1 times the per-step loss, or 0 when that is negative |
| Trajectory.DescentAltitudes | main.py:87-88 | before the last step the recorded altitude is positive and above the next one |
| Trajectory.AboveGround | main.py:85-87 | before the last step of a descent the running altitude is still positive |
| Trajectory.LastAltitude | main.py:87-88 | the last recorded altitude of a descent is exactly 0 |
| Trajectory.MassScaledIsDepletion | main.py:95-104 | with the hard-coded mass of 55.0 the mass-scaled flight records exactly what the plain descent records |
| Trajectory.DescentFrom3000 | main.py:80-88 | a 3000 m descent with no usable speed records 80 points, the last at altitude 0 |
| Trajectory.ReverseMirrorsForward | main.py:108-149 | a reverse flight records as many points as the forward one, each at the same altitude and mirrored through the start |
| Trajectory.Fly | main.py:64-149 | an endpoint resolves the wind once at the start, reports that sample's label, leaves the cache as `Resolve` leaves it, and records `Path` under that wind with its own policy and direction |
| Grid.Row | main.py:161-162 | a partial row of the lattice has as many nodes as columns visited |
| Grid.Rows | main.py:159-162 | the first m rows hold 7 m nodes |
| Grid.Lattice | main.py:159-162 | the lattice has 49 nodes |
| Grid.LatticeIndex | main.py:159-162 | node iy * 7 + ix of the visiting order is the node of row iy and column ix |
| Grid.LatticeCorners | main.py:156-162 | the lattice starts at the south-west corner, ends at the north-east corner, and adjacent nodes are a sixth of the box apart |
| Grid.Report | main.py:164 | the point of a node sits at that node and carries its sample's speed, direction and source label, which is one of the three labels |
| Grid.Survey | main.py:158-164 | one point is reported per node visited |
| Grid.SurveySnoc | main.py:163-164 | visiting one more node appends that node's report, made against the cache the earlier calls left |
| Grid.SurveyAt | main.py:163-164 | point i reports node i with the sample that call i of the resolver returns against the cache the first i calls left |
| Grid.SurveyCaches | main.py:163 | after the grid request the cache holds an entry for every node's key and keeps every key it held before |
| Grid.GridPoints | main.py:153-165 | the grid has 49 points; the point of row iy and column ix sits at that lattice node and carries one of the three source labels |
| Grid.WindGrid | main.py:153-165 | the returned points and the new cache are those of `Survey` over the lattice, in row-major order from the south-west corner |
| Grid.SurveyRow | main.py:160-164 | one pass of the outer loop extends the points and the cache from those of the rows below to those of the rows up to and including row iy |
| Grid.RowsExtend | main.py:159-162 | a row starts where the rows below it end, and completing it completes one more row |
| Grid.VisitNode | main.py:162-164 | one pass of the inner loop extends the points and the cache by the node of the current row and column |
| Grid.RowExtend | main.py:161-162 | visiting the node of column ix extends the nodes visited by exactly that node |
| Grid.Visit | main.py:163-164 | resolving one node and appending its point extends the points and the cache exactly as `Survey` does for one more node |

## Left out

- The web framework is left out: routing, request parsing, the JSON responses, the static files and the root endpoint. A request whose fields are missing or not numbers is not modelled.
- The two HTTP queries are left out. Their URLs, timeouts, JSON field extraction and exceptions are reduced to an optional reading per call in `Environment`.
- The clock is a parameter: `Environment.now` stands for the time read at the start of each resolver call.
- The trigonometry is left out. The wind components are a `Vec`, and `Fly` takes the conversion from speed and direction as the parameter `decompose`.
- Arithmetic is on exact reals, not IEEE doubles. The descent loop's running subtraction is modelled as written (`Remaining`), and on exact reals it equals `alt - k * d`, so the number of descent steps is exactly ceil(alt / d).
- Termination of the descent loops holds on exact reals only. `Trajectory.Terminates`, the `decreases` clause of `Trajectory.DriftDown` and the last clause of `Trajectory.Config` do not carry over to the doubles of main.py:85-88 (and the same loops at lines 101-104, 129-132 and 145-148). There `h -= v_vert * dt` leaves h unchanged once the loss is below half a unit in the last place of h. Then `while h > 0` never ends and the trajectory grows without bound. Three requests do this:
  - altitude 1000 with speed 1e-15, since 1000 - 1.5e-14 rounds to 1000;
  - altitude 1e18 with speed 0, since 1e18 - 37.5 rounds to 1e18;
  - an `Infinity` altitude, which the JSON parser accepts.
  Away from these, rounding can also add or remove a step at an exact multiple.
- Trajectory.PointAt: its contract states only that a descent altitude is non-negative. Its exact value, the starting altitude less k + 1 times the loss floored at 0, is stated by the lemma `Trajectory.DescentAltitudeValue`. That equation as an ensures on `PointAt` itself puts the proofs that use `PointAt` over the resource limit.
- Wind.Round2: rounds exact decimals half upward. The source's `round(x, 2)` rounds the binary double half to even, so keys can differ on ties.
- Trajectory.Terminates: a mass-scaled descent is required to have a positive scaling factor, otherwise the descent loop would not end. The source fixes the mass at 55.0, which gives a factor of 1.
- Grid.RowLat and Grid.ColLon carry no contract of their own. The latitude of a row and the longitude of a column are stated through the lattice, by `Grid.LatticeCorners` and `Grid.LatticeIndex`.
- Grid.WindGrid: the 49 resolver calls see 49 environments given in advance, one per call, in visiting order.
- Concurrent requests racing on the shared cache are not modelled; each call is atomic.
