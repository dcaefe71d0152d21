# SBPL motion-primitive generator, modelled in Dafny

This project models the discrete core of `SbplMotionPrimitives`, the class that
generates SBPL motion primitives from a mobility profile. The generator has three steps, plus two queries:

- **Base primitives.** `createMPrimsForAngle0` builds the heading-0 base primitives and the speed table (`mPrim_id2Speed`).
- **Acceptance search.** `createMPrims` runs this search for every discrete heading and every base primitive. Each try goes through these gates in order: accuracy, curve side, point-turn bound, distance cap, and the dedup set of (dx, dy, raw heading) triples.
- **Intermediate poses.** `createIntermediatePoses` adds the intermediate poses and normalises every heading into (-pi, pi].
- **Queries.** `getSpeed` looks up the speed table. `calcDiscreteEndOrientation` converts a yaw back to a discrete heading.

`createPrimitives` runs the first three steps in that order.

The generator is an object whose methods update its fields in place. It is modelled as the class
`Sbpl.SbplMotionPrimitives`:
- The configuration is a constant. Rad-per-angle is computed where it is used (`Poses.RadPerAngle(MPi, N)`).
- `mListPrimitivesAngle0`, `mListPrimitives` and `mPrim_id2Speed` are `seq` fields. The methods reassign them under `modifies` clauses.
- Every loop of the source is a `while` loop with invariants.
- Each generating method is proved equal to a specification function. The source's promises are then proved as lemmas about those functions:
  - `BasePrims.BaseList` and `BasePrims.SpeedTable`;
  - `Search.Run` for one (heading, base primitive) search;
  - `Expansion.AllPrims` for the whole expansion;
  - `Poses.AddPoses`;
  - `Orientation.AsWrittenOrientation`.

Modules follow the structure of the program:

| module | contents |
|---|---|
| `Geometry` | vectors, poses, C `round`, heading normalisation |
| `Primitives` | movement types, mobility, configuration, base and discrete primitives |
| `BasePrims` | the base list and the speed table |
| `Search` | one acceptance search |
| `Expansion` | the whole expansion over headings |
| `Poses` | intermediate poses |
| `Orientation` | yaw back to a discrete heading |
| `Sbpl` | the class |

## Notes on the source

- **Ids are unique only within a heading.** An accepted primitive gets id `b.id * P + prims_added` (`src/sbpl/SbplMotionPrimitives.cpp:247`). The same ids therefore come back for every heading. What is unique is the pair (start heading, id), which is what `Expansion.AllPrimsKeysDistinct` proves. That id is also exactly the index of the primitive's speed in the table.
- **The turn bound is N / 4 rounded down.** Line 237 writes `ceil(mConfig.mNumAngles / 4)`, but the quotient is an integer division, so `ceil` changes nothing. The point-turn gate tests `(d + 1) > N / 4` after `d++` (line 342). With `primAccuracy >= 0`, exactly min(P, N/4 - 1) point turns are therefore accepted per slot, or none when that is not positive (`Search.PointTurnSlot`). With a negative accuracy every point-turn try takes the `continue` at lines 327-330 before the bound is tested, and the loop never ends (`Search.PointTurnNegativeAccuracy`).
- **There is no guard on the number of poses.** Lines 422-424 divide by `numPosesPerPrim - 1`, so with 1 pose they divide by 0.0. The model requires `numPosesPerPrim != 1`. With 0 poses nothing is appended.

## Model

| member | source | states |
|---|---|---|
| Geometry.Round | src/sbpl/SbplMotionPrimitives.cpp:607 | round() gives the integer nearest to x; halfway cases round away from zero |
| Geometry.Wrap | src/sbpl/SbplMotionPrimitives.cpp:521-525 | the normalised heading lies in (-pi, pi] |
| Geometry.WrapUnique | src/sbpl/SbplMotionPrimitives.cpp:521-525 | Wrap is the only value in (-pi, pi] a whole number of turns away from theta |
| Geometry.WrapPeriodic | src/sbpl/SbplMotionPrimitives.cpp:521-525 | adding whole turns does not change the normalised heading |
| Geometry.WrapInRange | src/sbpl/SbplMotionPrimitives.cpp:521-525 | a heading already in (-pi, pi] is left unchanged |
| Primitives.Truncate | src/sbpl/SbplMotionPrimitives.cpp:361-364 | the truncated end heading lies in [0, N) and differs from the raw one by whole turns |
| BasePrims.TurningRadius | src/sbpl/SbplMotionPrimitives.cpp:130 | the turning radius in grid cells is max(1, min radius / grid size) |
| BasePrims.BaseList | src/sbpl/SbplMotionPrimitives.cpp:55-178 | base primitive i has id i (consecutive ids from 0) |
| BasePrims.BaseListOrdered | src/sbpl/SbplMotionPrimitives.cpp:60-178 | order is forward, backward, lateral L/R, point turn +/-, forward turn L/R, backward turn L/R |
| BasePrims.BaseListShaped | src/sbpl/SbplMotionPrimitives.cpp:60-178 | each base primitive has its type's unit vector, turn sign, centre of rotation (+/- radius) and cost multiplier |
| BasePrims.BaseListCount | src/sbpl/SbplMotionPrimitives.cpp:60-178 | a type is emitted exactly when enabled (multiplier > 0; forward turn != 0), once for forward/backward and twice otherwise |
| BasePrims.BaseListEmptyWhenUnset | src/sbpl/SbplMotionPrimitives.cpp:33-36 | an all-zero profile yields no base primitive |
| BasePrims.SpeedTable | src/sbpl/SbplMotionPrimitives.cpp:180-188 | the replicated speed table: each base speed repeated P times, so it has (#base) * P entries |
| BasePrims.SpeedTableIndex | src/sbpl/SbplMotionPrimitives.cpp:180-188 | the table has (#base) * P entries; entry k is the speed of base k / P, negated for backward and backward turn |
| Search.Cursor | src/sbpl/SbplMotionPrimitives.cpp:286-293 | the arc sweep offset cycles through 1..N/4 |
| Search.Probe | src/sbpl/SbplMotionPrimitives.cpp:252-300 | the switch on the movement type: the candidate end cell, raw end heading, rounding error and length of try i (definition) |
| Search.ProbeShape | src/sbpl/SbplMotionPrimitives.cpp:252-300 | a point turn stays at (0, 0) with no error and no length; other types take cell, error and length from the geometry; straight motions keep the heading |
| Search.Gate | src/sbpl/SbplMotionPrimitives.cpp:325-352 | the four checks in source order: continue on accuracy or curve side, break on the point-turn bound or the distance cap (definition) |
| Search.GateVerdicts | src/sbpl/SbplMotionPrimitives.cpp:325-352 | a candidate goes on to the dedup set iff it passes all four checks; it breaks iff it passes the two continue checks and fails the bound or the cap |
| Search.Accept | src/sbpl/SbplMotionPrimitives.cpp:356-367 | the primitive built for an accepted candidate (definition) |
| Search.AcceptedPrimitive | src/sbpl/SbplMotionPrimitives.cpp:356-367 | the accepted primitive has id b.id * P + added, start heading h, the candidate's dedup triple, an end heading in [0, N), the base's type and cost, and no poses |
| Search.Run | src/sbpl/SbplMotionPrimitives.cpp:243-373 | the while loop of one slot from try i: stop at P accepted or when tries run out, skip on continue, halt on break, accept fresh triples (definition; its properties are the Search lemmas below) |
| Search.RunSound | src/sbpl/SbplMotionPrimitives.cpp:243-372 | at most P accepted per slot. Each accepted try cleared every gate, at strictly increasing tries, with ids b.id*P + k. The dedup triples are pairwise distinct. |
| Search.StopEndsSearch | src/sbpl/SbplMotionPrimitives.cpp:341-352 | the point-turn bound and the distance cap end the search: it halts and accepts nothing from that try on |
| Search.RunHaltsOnlyAtQuotaOrBreak | src/sbpl/SbplMotionPrimitives.cpp:243-352 | the search halts only when P have been accepted or some try breaks; it runs out of tries only with fewer than P accepted and no try breaking |
| Search.RunCovers | src/sbpl/SbplMotionPrimitives.cpp:243-372 | every try the loop reaches that clears all four checks is accepted unless its triple is already in the dedup set: its triple is in the initial set or is the triple of a primitive accepted at that try or before |
| Search.RunAcceptsFresh | src/sbpl/SbplMotionPrimitives.cpp:354-369 | a reached try that clears every check, with a triple not seen before it, is one of the accepted tries |
| Search.PointTurnSlot | src/sbpl/SbplMotionPrimitives.cpp:237-269 | point turns: exactly min(P, N/4 - 1) are accepted, the k-th at (0, 0) with raw heading h + k * turn |
| Search.PointTurnNegativeAccuracy | src/sbpl/SbplMotionPrimitives.cpp:327-345 | with a negative accuracy every point-turn try is skipped before the bound; the loop never ends |
| Expansion.HeadingPrims | src/sbpl/SbplMotionPrimitives.cpp:215-374 | the primitives of one heading: each base primitive's search in base order (definition) |
| Expansion.AllPrims | src/sbpl/SbplMotionPrimitives.cpp:213-375 | the whole expansion: the headings 0..N-1 one after another (definition; see AllPrimsFacts) |
| Expansion.SlotFacts | src/sbpl/SbplMotionPrimitives.cpp:243-369 | one slot: at most P primitives, the k-th with id j*P + k, start heading h and the type and cost of base j |
| Expansion.HeadingFacts | src/sbpl/SbplMotionPrimitives.cpp:215-373 | one heading: strictly increasing ids, each leading back to its base primitive, all well formed |
| Expansion.AllPrimsFacts | src/sbpl/SbplMotionPrimitives.cpp:213-375 | the list is grouped by heading 0..N-1 and then by id; every id is below the speed-table length and leads back to a base primitive of the same type and cost |
| Expansion.AllPrimsKeysDistinct | src/sbpl/SbplMotionPrimitives.cpp:247 | no two primitives share (start heading, id) |
| Expansion.SpeedOfEveryPrimitive | src/sbpl/SbplMotionPrimitives.cpp:180-188 | every generated id indexes the speed table at its own type's signed speed |
| Poses.RadPerAngle | src/sbpl/SbplMotionPrimitives.cpp:15 | mRadPerDiscreteAngle is positive and N of them make 2 pi |
| Poses.RawPose | src/sbpl/SbplMotionPrimitives.cpp:471-519 | pose i before normalisation: equal steps along the scaled end vector, equal heading steps for point turns, the arc geometry with the exact end heading last (definition) |
| Poses.PoseAt | src/sbpl/SbplMotionPrimitives.cpp:521-525 | every stored pose heading is in (-pi, pi] |
| Poses.PosesOf | src/sbpl/SbplMotionPrimitives.cpp:471-538 | exactly numPosesPerPrim poses are appended per primitive, all headings in (-pi, pi] |
| Poses.AddPoses | src/sbpl/SbplMotionPrimitives.cpp:409-538 | every primitive of the list with its poses appended; the list keeps its length |
| Poses.AddPosesKeeps | src/sbpl/SbplMotionPrimitives.cpp:409-538 | only the poses change: old poses stay in front, numPosesPerPrim new ones follow |
| Poses.StraightPoses | src/sbpl/SbplMotionPrimitives.cpp:418-480 | straight pose i is i/(n-1) of the grid-scaled end vector, heading the normalised start heading |
| Poses.StraightEnds | src/sbpl/SbplMotionPrimitives.cpp:418-480 | straight motions start at the origin and end at the scaled end cell |
| Poses.PointTurnPoses | src/sbpl/SbplMotionPrimitives.cpp:482-486 | a point turn stays at (0, 0) and turns in equal steps of the raw heading difference |
| Poses.FinalHeading | src/sbpl/SbplMotionPrimitives.cpp:471-525 | the last pose's heading is the normalised discrete end heading, for straight motions, point turns and arcs alike |
| Poses.NormalizeHeading | src/sbpl/SbplMotionPrimitives.cpp:521-525 | the two while loops return Wrap(theta) |
| Orientation.AsWrittenOrientation | src/sbpl/SbplMotionPrimitives.cpp:606-613 | calcDiscreteEndOrientation as written, result in [0, N) |
| Orientation.DiscreteOrientation | src/sbpl/SbplMotionPrimitives.cpp:606-613 | the corrected conversion, result in [0, N) |
| Orientation.DiscreteOrientationRoundTrip | src/sbpl/SbplMotionPrimitives.cpp:606-613 | the yaw of heading k converts back to k |
| Orientation.WrappedHeadingOrientation | src/sbpl/SbplMotionPrimitives.cpp:521-525 | a heading survives normalisation into (-pi, pi] under the corrected conversion |
| Orientation.FinalPoseOrientation | src/sbpl/SbplMotionPrimitives.cpp:508-525 | the last intermediate pose converts back to the primitive's end heading |
| Orientation.AsWrittenOrientationLosesHeading | src/sbpl/SbplMotionPrimitives.cpp:607 | N = 16, heading 4: as written gives 0, corrected gives 4 |
| Sbpl.CreatedPrimitivesFacts | src/sbpl/SbplMotionPrimitives.cpp:24-41 | the final list is sorted, every id finds its type's speed, each primitive has numPosesPerPrim poses and the last converts back to its end heading |
| Sbpl.SbplMotionPrimitives.constructor | src/sbpl/SbplMotionPrimitives.cpp:12-16 | keeps the configuration; all three lists start empty |
| Sbpl.SbplMotionPrimitives.PushBase | src/sbpl/SbplMotionPrimitives.cpp:67-69 | appends one base primitive and its speed; the lists stay numbered and in step |
| Sbpl.SbplMotionPrimitives.PushStraights | src/sbpl/SbplMotionPrimitives.cpp:60-105 | from empty lists: the enabled forward, backward and lateral groups, numbered from 0, with their speeds |
| Sbpl.SbplMotionPrimitives.PushPointTurns | src/sbpl/SbplMotionPrimitives.cpp:107-126 | the point-turn group appended, numbered on, with its speeds |
| Sbpl.SbplMotionPrimitives.PushCurves | src/sbpl/SbplMotionPrimitives.cpp:132-178 | the forward- and backward-turn groups appended, numbered on, with their speeds |
| Sbpl.SbplMotionPrimitives.CreateMPrimsForAngle0 | src/sbpl/SbplMotionPrimitives.cpp:50-191 | the fields become BaseList and SpeedTable; the result is the base list |
| Sbpl.SbplMotionPrimitives.ReplicateSpeeds | src/sbpl/SbplMotionPrimitives.cpp:180-188 | the nested loops repeat each speed P times |
| Sbpl.SbplMotionPrimitives.SlotStep | src/sbpl/SbplMotionPrimitives.cpp:247-372 | one pass of the loop (the switch on the movement type, the four checks in order, the dedup set): the cursor moves on; a break leaves Run stopped; otherwise Run from this try is what the pass accepts followed by Run from the next try |
| Sbpl.SbplMotionPrimitives.SearchSlot | src/sbpl/SbplMotionPrimitives.cpp:233-373 | the while loop with its continue/break gates returns Run's primitives and whether it ended on its own |
| Sbpl.SbplMotionPrimitives.ExpandHeading | src/sbpl/SbplMotionPrimitives.cpp:215-374 | the primitive list grows by HeadingPrims for this heading, the base primitives' searches in order |
| Sbpl.SbplMotionPrimitives.CreateMPrims | src/sbpl/SbplMotionPrimitives.cpp:199-378 | the primitive list becomes AllPrims and is returned |
| Sbpl.SbplMotionPrimitives.CreateIntermediatePoses | src/sbpl/SbplMotionPrimitives.cpp:385-541 | every primitive gets its poses appended in place (AddPoses of the old list) |
| Sbpl.SbplMotionPrimitives.CreatePrimitives | src/sbpl/SbplMotionPrimitives.cpp:24-41 | nothing changes for an all-zero profile; otherwise base list, speed table and the posed expansion |
| Sbpl.SbplMotionPrimitives.GetSpeed | src/sbpl/SbplMotionPrimitives.cpp:615-623 | succeeds iff the id is below the table size, returning the entry; otherwise leaves the speed unchanged |
| Sbpl.SbplMotionPrimitives.CalcDiscreteEndOrientation | src/sbpl/SbplMotionPrimitives.cpp:606-613 | the two wrap loops return AsWrittenOrientation(N, yaw) |

## Left out

- Float geometry of straight and arc candidates. That is the Eigen rotations, scaling by `1.0 + d`, rounding of doubles and the norms (lines 223-231, 254-261, 273-307, 320-323). It is foreign floating-point code. At try i of slot (h, j), what it yields is the parameter `geom(h, j, i)`. The gates, the dedup set, the ids and the raw heading are computed exactly from those values. Point turns need no geometry and are exact.
- Termination of the straight/arc search. The loop at line 243 ends only when P primitives are accepted or a break fires (`Search.RunHaltsOnlyAtQuotaOrBreak`). For straight and arc primitives the distance cap at line 348 is tested only after the accuracy and curve checks (lines 327-339). So growing past 100 cells is not enough: the loop also needs a far candidate that passes both checks, and whether one comes depends on the float geometry. The model therefore runs each search for at most `fuel` tries. `Search.Run` reports in `halted` whether the loop ended on its own.
- Sbpl.SbplMotionPrimitives.SearchSlot: does not return the try indices (`picks`) of the specification function, which exist only to state RunSound.
- Arc intermediate poses. The `RigidBodyState`/`Affine3d` transforms, `acos` and yaw extraction (lines 426-468, 488-514) are foreign float geometry. Before normalisation the pose is the parameter `arc(p, i)`. The one exception is the last heading, which is exactly the discrete end heading times rad-per-angle (line 508-509).
- Scaled centre of rotation of non-arc primitives. The source never assigns it for straight motions and point turns (lines 254-270), so it is uninitialised. In the model a point turn's centre is (0, 0), and a straight motion's centre is the one `geom` yields. Nothing is claimed about either.
- `mRadPerDiscreteAngle` is not a field: every use computes `Poses.RadPerAngle(MPi, N)`, the value line 15 stores. Its uses in the rotations of lines 226-231 and 276 are part of the float geometry.
- M_PI. It is the decimal literal `Orientation.MPi`, used only as a positive real. Doubles are modelled as exact reals, so there is no rounding error, infinity or NaN. The model requires the inputs that would produce those: N > 0 in the constructor, grid size != 0 for the turning radius, and numPosesPerPrim != 1 for the pose steps.
- Integer widths. `unsigned int` and `int` overflow are not modelled; integers are unbounded.
- `storeToFile`: file I/O and stream formatting.
- `createCurvePrimForAngle0` and `calculateOrthogonalIntersection`: float geometry helpers that `createPrimitives` does not call.
- The default constructor: it leaves the configuration default-initialised and is not on the generation path.
- Logging: `LOG_WARN`/`LOG_DEBUG` and the `stringstream` diagnostics, including the warning for partition counts other than 1, 2, 4 or 8. That warning has no other effect.
- `Primitive`, `Triple`, `isSet` and `setDiscreteEndOrientation` are defined in a header that is not part of this model. Assumed from their use here:
  - `isSet` means some multiplier is non-zero;
  - the truncated end heading is the raw one reduced into [0, N);
  - the raw one is kept;
  - triples compare by value.
- The `assert`s on P >= 1 (line 58) and N != 0 (line 209) become preconditions of the methods that reach them.

## Findings

| source | as written | input that shows it | evidently intended | confidence | as-written member | corrected member |
|---|---|---|---|---|---|---|
| src/sbpl/SbplMotionPrimitives.cpp:607 | `round(yaw_rad / mNumAngles)`: the yaw in radians is divided by the number of headings | N = 16, yaw = pi/2 (heading 4): as written gives 0 | `round(yaw_rad / mRadPerDiscreteAngle)`, which gives 4 and turns every pose heading back into its discrete end heading | not executed | Sbpl.SbplMotionPrimitives.CalcDiscreteEndOrientation, Orientation.AsWrittenOrientationLosesHeading | Orientation.DiscreteOrientation, Orientation.FinalPoseOrientation |
