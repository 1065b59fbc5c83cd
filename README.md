# Self-driving car simulation kernel, modelled in Dafny

This project models the simulation kernel of a browser game in which cars drive up a road. Each car
casts sensor rays, and a hard-threshold neural network can steer it. The model covers:

- the segment-intersection primitive and `lerp`;
- the level and network of the feedforward network, with their in-place scratch buffers;
- the two control sources: network-driven, and scripted always-forward;
- the car tick of the current revision: speed law, steering, outline and damage;
- the ray sensor and its readings;
- the sliding window of traffic cars;
- the older car and sensor revision, kept side by side with the current one.

Numbers are Dafny `real`s. A JavaScript slot that may be `undefined` or `NaN` is the datatype
`Values.Number`, with `Num(v) | NaN`. Array holes and reads past the end of an array are `NaN`; so is
arithmetic on them. A comparison with one is false, and `Boolean(...)` of one is false.

Trigonometry (`Math.sin`, `Math.cos`, `Math.atan2`, `Math.hypot`, `Math.PI`) enters as the fields of a
`Helpers.Trig` value. Every `Math.random()` draw is a caller-supplied value, or an oracle
`nat -> real` that gives the k-th draw. Objects whose fields the source updates are Dafny classes:

- `Level.Level`, `Network.Network`, `NeuralNetworkControls.NeuralNetworkControls`;
- `Car.Car` and the static id counter `Car.IdCounter`;
- `Sensor.Sensor`, `TrafficManager.TrafficManager`, `Legacy.Car` and `Legacy.Sensor`.

Methods with loops carry the invariants that tie them to a specification function on values:

| method | specification function |
|---|---|
| level feed-forward | `Level.Forward` |
| network feed-forward | `Network.Propagate` |
| bias fill (`Level.Level.RandomizeBiases`) | none: its ensures gives every bias slot outright |
| sensor loops | `Sensor.Fan`, `Sensor.Collect`, `Sensor.Flatten`, `Sensor.Readings` |

Lemmas state the source's promises about those functions.

Four behaviours of the code are easy to misread, and the model keeps them as written:

- The sensor probes every traffic car it is given, the car carrying the sensor included
  (src/Sensor.ts:95-107 skips no id). Only the damage check skips the car's own id.
- When the traffic window slides, the car at the head of the list is removed (`shift`,
  src/TrafficManager.ts:30), whatever its distance; the new car is appended at the end.
- The initial traffic is three fixed cars (src/TrafficManager.ts:55-85); nothing random happens before
  the first slide.
- `#randomize` fills `inputCount` biases rather than `outputCount` (src/neural-network/Level.ts:40-42).
  Any bias slot at or beyond `inputCount` stays `undefined`, so that neuron always answers 0
  (`Level.UndefinedBiasSilences`).

Module layout:

| module | file | source |
|---|---|---|
| `Values` | `values.dfy` | JavaScript numbers, `Option`, `Math.round`, argument defaults |
| `Helpers` | `helpers.dfy` | `src/helpers.ts` |
| `Level` | `level.dfy` | `src/neural-network/Level.ts` |
| `Network` | `network.dfy` | `src/neural-network/Network.ts` |
| `Road` | `road.dfy` | the road as given values |
| `Controls` | `controls.dfy` | the four-signal control interface |
| `ComputerControls` | `computer_controls.dfy` | `src/controls/ComputerControls.ts` |
| `NeuralNetworkControls` | `neural_network_controls.dfy` | `src/controls/NeuralNetworkControls.ts` |
| `Car` | `car.dfy` | `src/Car.ts` |
| `Sensor` | `sensor.dfy` | `src/Sensor.ts` |
| `TrafficManager` | `traffic_manager.dfy` | `src/TrafficManager.ts` |
| `Legacy` | `legacy.dfy` | `src/car.ts` and `src/sensort.ts` |

`Legacy` holds both older source files in one module, because the old car and the old sensor refer to
each other.

## Model

| member | source | states |
|---|---|---|
| Values.Add | src/neural-network/Level.ts:53 | a sum is a number exactly when both operands are, and then it is their real sum |
| Values.Mul | src/neural-network/Level.ts:53 | a product is a number exactly when both operands are, and then it is their real product |
| Values.At | src/neural-network/Level.ts:47 | a read inside the array gives the entry; a read past either end gives `undefined` |
| Values.Nums | src/neural-network/Level.ts:26-29 | plain numbers become defined slots, one for one, in order |
| Values.Round | src/TrafficManager.ts:24 | `Math.round(x)` is the integer r with r - 1/2 <= x < r + 1/2 |
| Values.OrDefault | src/car.ts:11-16 | a default parameter applies only when the argument is absent; a given 0 is kept |
| Helpers.Lerp | src/helpers.ts:3-5 | the interpolation is A at t = 0 and B at t = 1 |
| Helpers.LerpBetween | src/helpers.ts:3-5 | for t in [0, 1] the interpolation lies between A and B, in either order |
| Helpers.GetIntersection | src/helpers.ts:7-30 | no hit when the denominator is 0; a hit exactly when t and u both lie in the closed interval [0, 1]; the hit has offset t in [0, 1] and point A + t(B - A) |
| Helpers.CrossingIdentity | src/helpers.ts:13-15 | the polynomial identity between the three cross products that puts the AB point and the CD point at the same place |
| Helpers.HitOnBothSegments | src/helpers.ts:13-25 | a hit lies on AB at parameter offset and on CD at parameter u, with u in [0, 1] |
| Helpers.SameCrossing | src/helpers.ts:18-23 | one coordinate at a time, the AB point at t equals the CD point at u once the identity is divided by the denominator |
| Helpers.CrossesSymmetric | src/helpers.ts:13-20 | swapping the two segments swaps t and u, so whether they cross does not depend on their order |
| Helpers.NegatedQuotient | src/helpers.ts:18-19 | negating numerator and denominator together leaves a quotient unchanged |
| Helpers.WorkedCrossing | src/helpers.ts:13-25 | (0,0)-(10,0) against (5,-5)-(5,5) meets at (5,0) with offset 0.5 |
| Helpers.EdgeEndWraps | src/Sensor.ts:100-101 | the end vertex of edge k, written without `%`, equals the vertex at `(k + 1) % length` |
| Helpers.PolysIntersectSymmetric | src/Car.ts:126-135 | the polygon-overlap predicate (this model's own edge-pair definition) does not depend on the order of the polygons |
| Helpers.PolysIntersect | src/Car.ts:126-135 | the polygon-overlap predicate (this model's own edge-pair definition) holds only when both polygons have vertices; a polygon without vertices overlaps nothing |
| Level.Spread | src/neural-network/Level.ts:36 | `Math.random() * 2 - 1` lies in [-1, 1) for a draw in [0, 1) |
| Level.Fill | src/neural-network/Level.ts:46-48 | the inputs buffer holds the given inputs in its `inputCount` slots; missing ones are `undefined` and extra ones are ignored |
| Level.Neuron | src/neural-network/Level.ts:50-60 | output i is 1 exactly when the weighted sum strictly exceeds bias i, and is always 0 or 1 |
| Level.Forward | src/neural-network/Level.ts:50-61 | a feed-forward answers `outputCount` values, each 0 or 1 |
| Level.WeightedSum | src/neural-network/Level.ts:51-54 | the running sum over the first n inputs is a number exactly when every input and weight it multiplies is one |
| Level.WeightedSumIsRealSum | src/neural-network/Level.ts:51-54 | on defined inputs and weights the running sum is the real sum of input[j] * weight[j][i] |
| Level.ThresholdLaw | src/neural-network/Level.ts:50-60 | on defined data, output i is 1 exactly when the sum of input[j] * weight[j][i] is strictly greater than bias i; equality gives 0 |
| Level.UndefinedInputSilences | src/neural-network/Level.ts:46-56 | a given input vector shorter than `inputCount` makes every output 0 |
| Level.UndefinedBiasSilences | src/neural-network/Level.ts:40-42 | an `undefined` bias slot, as `#randomize` leaves for outputs beyond `inputCount`, makes that output 0 whatever the inputs |
| Level.Level.constructor | src/neural-network/Level.ts:7-21 | inputs buffer of `inputCount` holes, outputs buffer of `outputCount` holes, `inputCount` weight rows of `outputCount` draws, biases from `#randomize` |
| Level.Level.Randomize | src/neural-network/Level.ts:33-43 | weight (r, c) is the draw r * outputCount + c; the biases are as `RandomizeBiases` says; the buffers are untouched |
| Level.Level.RandomizeBiases | src/neural-network/Level.ts:40-42 | biases 0 .. inputCount - 1 get the next draws; the array grows to inputCount when that is larger, and otherwise keeps `undefined` slots beyond it |
| Level.Level.FromJSON | src/neural-network/Level.ts:23-31 | a fresh level sized by the saved buffers, whose buffers, biases and weight rows equal the saved ones, in new arrays |
| Level.Level.FeedForward | src/neural-network/Level.ts:45-64 | the inputs buffer becomes `Fill` of the given inputs, the outputs buffer becomes `Forward` of the unchanged weights and biases, and the returned array is the outputs buffer itself |
| Network.PropagateSingle | src/neural-network/Network.ts:16-19 | with one level the network's answer is that level's feed-forward |
| Network.PropagateSnoc | src/neural-network/Network.ts:20-25 | each further level feeds the previous answer forward once more |
| Network.Propagate | src/neural-network/Network.ts:15-27 | with at least one level, the answer is as wide as the last level's outputs, every entry 0 or 1 |
| Network.ChainAnswers | src/neural-network/Network.ts:20-25 | inputs passed level by level, each the feed-forward of the one before, are the network's answers for the prefixes of the levels |
| Network.ChainAnswer | src/neural-network/Network.ts:20-25 | the same for one prefix length, by induction on it |
| Network.LevelCount | src/neural-network/Network.ts:7 | `neurons.length - 1` levels, and none for an empty array |
| Network.SoundSnoc | src/neural-network/Network.ts:7-11 | appending a sound level whose buffers are new keeps every level sound and every buffer unshared |
| Network.Network.Parameters | src/neural-network/Network.ts:4 | one well-formed parameter set per level, in order |
| Network.Network.constructor | src/neural-network/Network.ts:6-13 | level i has widths neurons[i] -> neurons[i + 1], so consecutive widths chain; the levels' buffers are pairwise distinct fresh arrays |
| Network.Network.NewLevel | src/neural-network/Network.ts:8-11 | each level is a fresh, sound level of the requested widths with fresh buffers |
| Network.Network.FeedForward | src/neural-network/Network.ts:15-28 | the parameters are kept; for every level k its inputs buffer holds `Fill` of the answer of the first k levels and its outputs buffer the answer of the first k + 1; the result is the last level's outputs buffer, holding the whole answer; the predicate `Network.Network.Fed` restates these buffer contents for callers |
| Network.Network.Chain | src/neural-network/Network.ts:17-25 | the loop over the levels leaves in every level's buffers the inputs it was fed and the outputs it answered, and returns the last outputs buffer |
| Network.Network.Step | src/neural-network/Network.ts:21-24 | feeding level i fills its own two buffers and leaves every other level's buffers unchanged |
| ComputerControls.Forward | src/controls/ComputerControls.ts:4-6 | always true |
| ComputerControls.Left | src/controls/ComputerControls.ts:7-9 | always false |
| ComputerControls.Right | src/controls/ComputerControls.ts:10-12 | always false |
| ComputerControls.Reverse | src/controls/ComputerControls.ts:13-15 | always false |
| ComputerControls.Signals | src/controls/ComputerControls.ts:3-16 | the scripted control gives forward only |
| NeuralNetworkControls.Input | src/controls/NeuralNetworkControls.ts:28-30 | no reading gives 0; a reading gives 1 - offset |
| NeuralNetworkControls.InputInUnitRange | src/controls/NeuralNetworkControls.ts:29 | a reading with offset in [0, 1] gives an input in [0, 1] |
| NeuralNetworkControls.CloserIsLarger | src/controls/NeuralNetworkControls.ts:29 | a smaller offset gives a strictly larger input, and no obstacle gives the smallest |
| NeuralNetworkControls.Inputs | src/controls/NeuralNetworkControls.ts:28-30 | one input per reading, in order |
| NeuralNetworkControls.Decode | src/controls/NeuralNetworkControls.ts:33-36 | signal k is on exactly when output k is truthy |
| NeuralNetworkControls.ShortOutputsStayOff | src/controls/NeuralNetworkControls.ts:33-36 | signals beyond the network's width are off; an empty answer sets none |
| NeuralNetworkControls.DecodeThresholds | src/controls/NeuralNetworkControls.ts:33-36 | on 0/1 outputs, signal k is on exactly when output k is 1 |
| NeuralNetworkControls.NeuralNetworkControls.Forward | src/controls/NeuralNetworkControls.ts:11-13 | the getter answers the forward flag |
| NeuralNetworkControls.NeuralNetworkControls.Left | src/controls/NeuralNetworkControls.ts:15-17 | the getter answers the left flag |
| NeuralNetworkControls.NeuralNetworkControls.Right | src/controls/NeuralNetworkControls.ts:19-21 | the getter answers the right flag |
| NeuralNetworkControls.NeuralNetworkControls.Reverse | src/controls/NeuralNetworkControls.ts:23-25 | the getter answers the `isRevers` flag |
| NeuralNetworkControls.NeuralNetworkControls.Signals | src/controls/NeuralNetworkControls.ts:11-25 | the four signals of the control interface are the four flags, each in its place |
| NeuralNetworkControls.NeuralNetworkControls.constructor | src/controls/NeuralNetworkControls.ts:6-9 | every signal starts off |
| NeuralNetworkControls.NeuralNetworkControls.Update | src/controls/NeuralNetworkControls.ts:27-37 | the four signals become the decoded network answer for the readings' inputs; the network and its levels keep their parameters; every level's buffers are left as the network's feed-forward leaves them (inputs: the answer of the levels before it; outputs: its own answer) |
| NeuralNetworkControls.NeuralNetworkControls.SetSignals | src/controls/NeuralNetworkControls.ts:33-36 | the four signals become the decoding of the given answer |
| Car.ControlSource.Poll | src/Car.ts:145-176 | a scripted car polls forward only; a network-driven car polls its control's four flags |
| Car.OrElse | src/Car.ts:54-55 | `option \|\| fallback`: an absent or 0 option falls back |
| Car.PositiveOr | src/Car.ts:56-58 | only a positive acceleration option overrides the default |
| Car.Throttle | src/Car.ts:145-151 | forward adds the acceleration, reverse removes it, both cancel |
| Car.Friction | src/Car.ts:153-161 | a speed of at least twice the friction loses the friction, one of at most minus twice the friction gains it, and one strictly inside gets 0 |
| Car.NextSpeed | src/Car.ts:145-168 | for a nonnegative maximum the new speed lies in [-max, max], and equals the throttled speed after friction when that is within the limit |
| Car.Clamp | src/Car.ts:163-168 | for a nonnegative maximum the speed ends in [-max, max] and a speed inside is kept; for a negative maximum it ends at -max |
| Car.Steer | src/Car.ts:170-179 | no turn at speed 0 or with both or neither side pressed; otherwise one step of 0.03 to the left or right, mirrored when reversing |
| Car.StepAlong | src/Car.ts:181-182 | the step along the heading keeps heading and speed, and a car at speed 0 stays put |
| Car.Advance | src/Car.ts:144-183 | a tick keeps the speed in [-maxSpeed, maxSpeed] and steers at the new speed |
| Car.AtRestStaysPut | src/Car.ts:153-161 | at speed 0 with neither forward nor reverse (and positive friction) position, heading and speed stay unchanged |
| Car.CoastingSlowsDown | src/Car.ts:153-161 | coasting within the limit never speeds the car up, keeps its direction, and stops it once it is slower than twice the friction |
| Car.NegativeLimitPinsSpeed | src/Car.ts:163-168 | a negative maximum pins the speed at -max, moving forward |
| Car.Outline | src/Car.ts:98-122 | the outline has four corners |
| Car.FirstBorder | src/Car.ts:125-129 | the first border from an index on that the outline overlaps, or none exactly when no border there is hit |
| Car.FirstCar | src/Car.ts:131-139 | the first car with another id whose outline is overlapped, or none exactly when every car there is skipped or missed |
| Car.Collide | src/Car.ts:124-142 | borders first, then other cars; clear exactly when no border and no car of another id is hit |
| Car.FirstBorderIsFirst | src/Car.ts:125-129 | a border hit after a run of misses is the one the search finds |
| Car.FirstCarIsFirst | src/Car.ts:131-139 | a car hit after a run of skips or misses is the one the search finds |
| Car.CollideSkipsOwnId | src/Car.ts:132-134 | a car never collides with a car carrying its own id |
| Car.Ids | src/Car.ts:132 | the ids of the cars, in order |
| Car.Polys | src/Car.ts:135 | the outlines of the cars, in order |
| Car.IdCounter.constructor | src/Car.ts:23 | ids start at 1 |
| Car.Car.constructor | src/Car.ts:46-61 | the next id is taken and the counter advances; speed and maximum speed fall back on 0 and 10 when absent or 0; acceleration 0.2 unless a positive option is given; friction 0.05; angle 0, no outline, not damaged |
| Car.Car.Hit | src/Car.ts:124-142 | no hit exactly when the outline meets no border and no car of another id; a border hit names a border the outline meets; a car hit names a car of another id whose outline it meets |
| Car.Car.Update | src/Car.ts:63-71 | a damaged car and the traffic are untouched; otherwise the car advances, gets its four-point outline, is damaged exactly when the outline hits something, and only the car it hits changes (it becomes damaged) |
| Car.Car.Reassess | src/Car.ts:69-70 | the outline at the new pose, then damage exactly when `Collide` finds a hit; positions do not change |
| Car.Car.AssessDamage | src/Car.ts:124-142 | the answer is whether `Collide` finds a hit; the car hit, and only it, is marked damaged; no outline changes |
| Car.Car.Move | src/Car.ts:144-183 | the pose after the call is `Advance` of the pose before, on the polled signals |
| Car.Car.UpdateAngle | src/Car.ts:170-179 | the heading is `Steer` of the old heading at the current speed |
| Car.Car.UpdateSpeed | src/Car.ts:145-168 | the speed is throttle, then friction, then the clamp, of the old speed |
| Sensor.RayAngle | src/Sensor.ts:55-59 | a single ray looks straight along the heading; with two or more, the first ray points at +spread/2 and the last at -spread/2 from the heading |
| Sensor.RayAnglesDecrease | src/Sensor.ts:55-59 | for a positive spread the ray angles strictly decrease with the index |
| Sensor.QuotientLess | src/Sensor.ts:58 | dividing by the positive count keeps the order of two indices |
| Sensor.LerpDecreases | src/Sensor.ts:55-57 | interpolating down to a smaller end, a later fraction gives a strictly smaller value |
| Sensor.ScaleLess | src/Sensor.ts:55-57 | scaling by the positive spread keeps the order of two fractions |
| Sensor.RayAngleWithinSpread | src/Sensor.ts:55-59 | every ray angle lies within half the spread of the heading |
| Sensor.CastRay | src/Sensor.ts:61-65 | a ray starts at the car's position |
| Sensor.Fan | src/Sensor.ts:51-69 | `rayCount` rays, all from the car's position, ray i at the lerp angle for i |
| Sensor.Found | src/Sensor.ts:90-92 | a miss adds no touch and a hit adds exactly its touch |
| Sensor.CollectSnoc | src/Sensor.ts:83-93 | probing one more segment appends its touch, if any |
| Sensor.CollectEmpty | src/Sensor.ts:83-106 | nothing is collected exactly when every probe misses |
| Sensor.CollectOffsets | src/Sensor.ts:84-92 | collected touches keep the offset bounds of the hits |
| Sensor.BorderHits | src/Sensor.ts:83-89 | one probe per border, against its first segment, in border order |
| Sensor.EdgeHits | src/Sensor.ts:96-102 | one probe per vertex, against the edge to the next vertex and finally back to the first |
| Sensor.FlattenSnoc | src/Sensor.ts:95-107 | one more car appends its touches |
| Sensor.FlattenEmpty | src/Sensor.ts:95-107 | the traffic adds no touch exactly when no car does |
| Sensor.FlattenOffsets | src/Sensor.ts:95-107 | offset bounds survive flattening |
| Sensor.OutlineTouches | src/Sensor.ts:95-107 | the touches of each traffic outline, car by car |
| Sensor.BorderTouchesEmpty | src/Sensor.ts:83-93 | no border touch exactly when the ray misses every border's first segment |
| Sensor.EdgeTouchesEmpty | src/Sensor.ts:96-106 | no touch on an outline exactly when the ray misses every edge, the closing edge included |
| Sensor.EdgeTouchesOffsets | src/Sensor.ts:97-102 | every edge touch lies within the ray |
| Sensor.BorderOffsets | src/Sensor.ts:83-93 | every border touch lies within the ray |
| Sensor.CarOffsets | src/Sensor.ts:95-107 | every traffic touch lies within the ray |
| Sensor.Touches | src/Sensor.ts:81-107 | every touch the ray finds, on a border or a traffic outline, lies within the ray |
| Sensor.TouchesInOrder | src/Sensor.ts:81-107 | the border touches come first, in border order, and the traffic touches follow, car by car |
| Sensor.MinOffset | src/Sensor.ts:112-114 | `Math.min` of the offsets is at most every offset and is one of them |
| Sensor.FirstWithOffset | src/Sensor.ts:116 | `find` gives the first index with that offset, or none exactly when no touch has it |
| Sensor.NearestIndex | src/Sensor.ts:109-117 | the reference fold is empty only on no touches, and otherwise picks the first touch of least offset |
| Sensor.FirstMinimalUnique | src/Sensor.ts:112-116 | at most one touch is the first of least offset |
| Sensor.FindIsNearest | src/Sensor.ts:112-116 | `find` of the minimum offset always succeeds and yields the reference fold's reading |
| Sensor.ReadingIffTouch | src/Sensor.ts:80-118 | no reading exactly when the ray misses every border's first segment and every traffic edge, the closing edges included; a reading's offset lies in [0, 1] |
| Sensor.EmptyOutlineAddsNothing | src/Sensor.ts:95-96 | a car without an outline adds no touch |
| Sensor.Readings | src/Sensor.ts:71-78 | one reading per ray, in ray order, each the nearest touch |
| Sensor.ReadingsSnoc | src/Sensor.ts:73-77 | one more ray appends its own reading |
| Sensor.TouchBorders | src/Sensor.ts:83-93 | the border loop collects exactly the border touches, in border order |
| Sensor.TouchTraffic | src/Sensor.ts:95-107 | the traffic loop collects exactly the traffic touches, car by car |
| Sensor.TouchOutline | src/Sensor.ts:96-106 | the edge loop collects exactly the touches of one outline, with the `%` wraparound |
| Sensor.Sensor.constructor | src/Sensor.ts:9-17 | 3 rays of length 150 over a quarter turn unless given; no rays and no readings yet |
| Sensor.Sensor.Update | src/Sensor.ts:19-22 | the rays are the fan from the car's pose and the readings are one per ray; both have `rayCount` entries |
| Sensor.Sensor.CastRays | src/Sensor.ts:51-69 | the old rays are dropped and the fan from the car's pose takes their place |
| Sensor.Sensor.SetReadings | src/Sensor.ts:71-78 | the old readings are dropped and the readings of the rays take their place |
| Sensor.Sensor.FindReading | src/Sensor.ts:80-118 | the reading is the reference fold's nearest touch among border and traffic touches |
| TrafficManager.SpawnLane | src/TrafficManager.ts:39 | the spawn lane lies in [0, laneCount) |
| TrafficManager.SpawnLaneBounds | src/TrafficManager.ts:39 | `Math.floor(draw * laneCount)` is nonnegative and below laneCount |
| TrafficManager.SpawnSpeed | src/TrafficManager.ts:44 | the spawned maximum speed is `Math.round(draw * max - 2)`, within half a unit of it; for a nonnegative player maximum it is at least -2 and at most that maximum less 1.5, for a negative one at most -2 and above the maximum less 2.5; a draw of 0 gives -2 |
| TrafficManager.FractionOf | src/TrafficManager.ts:44 | a draw in [0, 1) scales a value to between 0 and that value, whatever its sign |
| TrafficManager.LatestY | src/TrafficManager.ts:31-36 | the last remaining car's y, unless there is none or it is 0, when it is player y - canvas height + 200 |
| TrafficManager.TrafficOptions | src/TrafficManager.ts:38-46 | a spawned car is 50 by 80, scripted, with the drawn maximum speed |
| TrafficManager.Ys | src/TrafficManager.ts:31 | the y of every car, in order |
| TrafficManager.TrafficManager.constructor | src/TrafficManager.ts:55-85 | three fresh scripted cars in lanes 1, 2, 0 at y 600, 200, 0, maximum speed 4, with consecutive ids |
| TrafficManager.TrafficManager.GetTraffic | src/TrafficManager.ts:15-17 | the manager's own list, not a copy |
| TrafficManager.TrafficManager.Update | src/TrafficManager.ts:19-47 | for any player maximum speed: the length is kept; below 400 the list and the id counter are unchanged; otherwise the head is dropped, the rest keep their order, and a fresh car with the next id and the `SpawnSpeed` maximum is spawned 400 above the last remaining car; a damaged car stays frozen |
| TrafficManager.TrafficManager.TickAll | src/TrafficManager.ts:20-22 | every car takes its tick, and a car already damaged keeps its pose and outline |
| Legacy.SpeedBounded | src/car.ts:68-83 | the speed stays in [-max, max]; a speed still positive is at most max - friction, and symmetrically in reverse |
| Legacy.AtRestStaysAtRest | src/car.ts:75-83 | at rest with neither forward nor reverse, the speed stays 0 |
| Legacy.RevisionsDifferAtTheCap | src/car.ts:68-83 | accelerating at the cap of 10, this revision falls back to 9.95 while the current one holds 10 |
| Legacy.Advance | src/car.ts:59-98 | a tick of this revision keeps the speed in range, leaves a car at rest in place, and steers at the new speed |
| Legacy.NextSpeed | src/car.ts:60-83 | for nonnegative maximum and friction the new speed lies in [-max, max]; when the maximum is at least twice the friction, throttling to or past the cap ends at max - friction |
| Legacy.Car.constructor | src/car.ts:5-21 | absent arguments take speed 0, maximum 10, acceleration 0.2, friction 0.05, angle 0, and a default sensor is attached |
| Legacy.Car.Update | src/car.ts:23-26 | the car advances, then its sensor's rays are recast from the new pose |
| Legacy.Car.Move | src/car.ts:59-98 | the pose after the call is this revision's `Advance` of the pose before |
| Legacy.Car.UpdateSpeed | src/car.ts:60-83 | the speed is throttle, then the clamp, then friction, of the old speed |
| Legacy.Car.UpdateAngle | src/car.ts:85-94 | the heading is `Steer` of the old heading at the current speed |
| Legacy.Sensor.constructor | src/sensort.ts:5-12 | 10 rays of length 150 over a quarter turn unless given, and no rays yet |
| Legacy.Sensor.Update | src/sensort.ts:14-16 | the rays are recast from the car's pose |
| Legacy.Sensor.CastRays | src/sensort.ts:29-47 | the old rays are dropped; `rayCount` rays take their place, all from the car's position, ray i at the lerp angle for i |

## Left out

- Rendering (`draw` methods, the visualiser), the animation loop, the frame counter, storage in the
  browser, and keyboard controls. These are display and input plumbing with no logic to state.
- Trigonometry is taken as given. Nothing is proved about the geometry of outlines, ray ends or
  positions beyond their shape.
- IEEE-754 rounding is not modelled: numbers are reals.
- JSON `null` entries in a saved level are not modelled: a saved level holds reals.
- Level.Level.FromJSON: requires at least as many weight rows as inputs. Without them the source's
  feed-forward would read an absent row and throw, which the model does not represent.
- `Math.min` over an argument list too long for the engine is not modelled.
- Road geometry is not part of this model. A road is given as its border polylines, its lane count and
  its lane-centre function.
- `polysIntersect` is imported by the car but not defined in the shown helpers. `Helpers.PolysIntersect`
  is this model's own definition: some edge of one polygon, closing edge included, meets some edge of
  the other.
- The control interface file is not part of this model. Its four signals are the datatype
  `Controls.Flags`.
- The keyboard control is left out. A car's controls are either scripted or network-driven.
- The legacy car's controls are the flags parameter of `Legacy.Car.Update`. Its default
  `new Controls()` (src/car.ts:19) passes no control type, so src/Controls.ts:12-18 installs no key
  listeners and sets forward only; every call in that setting passes forward alone, and the parameter
  also admits any other flags.
- The optional `sensor` and `brain` fields of the current car are always `undefined` in the shown code.
  The car therefore has no sensor field. The sensor and the network-driven control are driven by their
  own methods.
- NeuralNetworkControls.NeuralNetworkControls.Update takes the sensor's readings rather than the sensor.
  It reads nothing else from it, and this avoids a cycle between the car, sensor and controls modules.
- Colours are not modelled.
- Network.Network.FeedForward, Network.Network.Chain, NeuralNetworkControls.NeuralNetworkControls.Update:
  require at least one level. A `neurons` array of fewer than two entries builds no level
  (src/neural-network/Network.ts:7), and feeding it calls the level feed-forward on `undefined`, which
  throws a TypeError at src/neural-network/Level.ts:46. The model does not represent that error.
- The two `console.log` calls of the traffic manager (src/TrafficManager.ts:33-34) are output only,
  and are left out.
- Sensor.BorderHits, Sensor.MissesBorders, Sensor.BorderTouches, Sensor.BorderTouchesEmpty,
  Sensor.BorderOffsets, Sensor.Touches, Sensor.ReadingIffTouch, Sensor.Readings, Sensor.ReadingsSnoc,
  Sensor.TouchBorders, Sensor.Sensor.Update, Sensor.Sensor.SetReadings, Sensor.Sensor.FindReading:
  require every border to have at least two points. On a shorter border src/Sensor.ts:83-93 reads
  `border[1]` as `undefined` and throws a TypeError, which the model does not represent.
- The optional `traffic` argument of the car and the sensor is a sequence. An absent list is the empty
  one, which `traffic || []` and `traffic ?? []` make equivalent.
- Car.Car.Move takes the four signals polled once. The source polls each signal where it is used, and
  nothing changes a control during a tick, so the values are the same.
- The current car's acceleration and friction, and all of the legacy car's parameters, are constants.
  Nothing in the core reassigns them.
- The extra constructor parameters of both sensors (initial `rays` and `readings`) and the legacy
  car's custom `sensor` and `controls` arguments are not modelled. The default sensor is always used,
  and the controls are as said above.
- Sensor.Sensor.SetReadings: the pushes go to a local sequence that is assigned to the field once the
  loop ends. No caller can observe the difference.
- TrafficManager.TrafficManager.TickAll: states only that a damaged car stays frozen. It does not state
  the full effect of every car's tick. Each tick changes the list's cars, and the next car's tick sees
  those changes.
- TrafficManager.TrafficManager.Update: states the same, and keeps the scripted controls as an
  invariant of the manager.
- Car.Car.Update and Car.Car.Reassess: state the effect on traffic cars other than the updated car. The
  updated car may itself appear in the list, as traffic cars do; it never hits itself, because its own
  id is skipped.
