# XPBD particle solver — a Dafny model

This project models the core of a 2D position-based-dynamics toy: particles joined by distance
constraints, bouncing in a canvas and off rotated polygons, stepped by the XPBD scheme. Each
substep runs four phases over the particle array, in place:

- integrate: gravity into the velocity, `positionP := positionX`, `positionX` advanced by velocity·dts·multiplier;
- solve the constraints in list order;
- handle collisions: the canvas boundary clamp and floor contact, polygon contacts, pairwise separation;
- reconstruct the velocity as `(positionX − positionP)/(dts·multiplier)`.

The repository holds the same core several times, and all of it is modelled:

- `XPBD.js` steps a `Config`, and `CollisionDetector.js` is a detector over a `Config` that records contacts;
- `XPBDScene.js` is a solver that owns its scene;
- `main.js` and `js.js` are animation loops that inline the substep over a `Scene`;
- the builders `Config.js`, `SceneBuilder.js`, `Scene.js` and `sceneConfig.js`.

How the model is laid out:

- **Mutable records stay mutable.** `Particle`, `Polygon`, the constraint classes, `Config`,
  `Scene`, `XPBD`, `XPBDScene`, the collision detector and the js.js module state are Dafny
  classes.
- **Phases are methods proved against pure functions.** Every phase is a method with the
  source's loop. It is proved to leave the particles in the state that a pure function on a
  `World` computes. A `World` is a map from each particle to its `(positionX, positionP,
  velocity)`, written `Body`.
- **Properties are lemmas about those functions.** The source's promises are proved as lemmas
  about the `World` functions: exact pair separation, rest-length restoration, no overshoot,
  pinned particles, the velocity round trip, the pair schedule, and the geometry.
- **The transcendentals are parameters.** `sqrt`, `atan2` and `rotateDeg` are fields of a
  `MathLib` value. The only axiom is `Sound(lib)`: sqrt is the non-negative square root, used
  by the lemmas that need lengths. `atan2` and `rotateDeg` carry no axioms.
- **Unseen classes are responses.** The friction response of `EnvironmentCollisionConstraint`
  and the volume solve of `VolumeConstraint` are function-valued parameters that give the new
  `positionX`.

The geometry helpers appear in XPBD.js, CollisionDetector.js, XPBDScene.js, main.js and js.js. The
copies have the same steps but do not call the same Vector2 methods. `normalized()` is called
by the pair corrections of XPBD.js:95, CollisionDetector.js:32 and XPBDScene.js:102, by the edge
normals of XPBD.js:167 and CollisionDetector.js:125, and by Constraints/DistanceConstraint.js:16
and Constraints/MouseDistanceConstraint.js:15. `normalize()` is called by the edge normals of
XPBDScene.js:197 and main.js:218, by the pair corrections of main.js:115 and js.js:126, and by
DistanceConstraint.js:14. XPBDScene.js thus uses both names. Velocity reconstruction divides with `.divided` (XPBD.js:46), `.divide`
(XPBDScene.js:57) or `.devide` (main.js:59, js.js:71). XPBDScene.js, main.js and js.js also spell
the parallel case of `lineSegmentsIntersect` as two branches that both return null. One set of `Geometry` members
models all of them; each member has one row below, citing one of the copies. The static `createBox2x2`,
`createRope` and `createWheel` of SceneBuilder.js (lines 38-91) make the same `add*` calls in the
same order as the `Config` methods of the same name, which model them.

Modules:

| module | file | models |
|---|---|---|
| `Vectors`, `Wrappers` | vectors.dfy, wrappers.dfy | 2D vectors over `real`, `Option`, the math library |
| `Particles` | particles.dfy | `Particle`, `Body`, `World` snapshots |
| `Corrections` | corrections.dfy | per-particle arithmetic: integrate, reconstruct, clamp, pair and constraint corrections |
| `Geometry` | geometry.dfy | closestPointOnSegment, lineSegmentsIntersect, pointInPolygon, closestPointOnPolygon |
| `Polygons` | polygon.dfy | Polygon.js |
| `Constraints`, `RootConstraints` | constraints.dfy, root_constraints.dfy | Constraints/*.js, DistanceConstraint.js |
| `Stages`, `Phases` | stages.dfy, phases.dfy | the phases as World functions, and the loops proved against them |
| `Configs` | config.dfy | Config.js |
| `Solver` | xpbd.dfy | XPBD.js |
| `Detector` | collision_detector.dfy | CollisionDetector.js |
| `SceneSteps`, `SceneSolver` | scene_steps.dfy, xpbd_scene.dfy | the substep over root constraints; XPBDScene.js |
| `Scenes`, `SceneFactories`, `SceneConfigs` | scene.dfy, scene_factories.dfy, scene_config.dfy | Scene.js, sceneConfig.js |
| `SceneBuilders` | scene_builder.dfy | SceneBuilder.js |
| `MainLoop`, `JsLoop` | main_loop.dfy, js_loop.dfy | main.js, js.js |

## Model

| member | source | states |
|---|---|---|
| Solver.XPBD.constructor | XPBD.js:5-7 | the solver keeps the config it is given |
| Solver.XPBD.Update | XPBD.js:9-17 | update leaves the particles exactly as `config.substeps` applications of Substep (integrate, solve, collisions, velocities in that order) would, with the corrected compliance α = stiffness/dts²; as written the first solve throws (see Findings) |
| Solver.SubstepsNext | XPBD.js:11-16 | one loop pass extends i substeps to i + 1 |
| Solver.XPBD.SubstepOnce | XPBD.js:12-15 | one loop body is integrate, solveConstraints, handleCollisions, updateVelocities in order; it changes no list and no setting |
| Solver.XPBD.Integrate | XPBD.js:25-35 | every listed particle takes one integration step with h = dts·multiplier; particles outside the lists are untouched |
| Corrections.IntegratedMeaning | XPBD.js:28-34 | positionP becomes the pre-step positionX; positionX moves by exactly the new velocity·h; a particle with w = 0 keeps its velocity |
| Corrections.AccelerationOfMass | XPBD.js:29-31 | force·w is gravity itself for a particle with mass; a pinned particle gains no velocity |
| Solver.XPBD.SolveConstraints | XPBD.js:37-40 | every distance constraint in list order, then every volume constraint in list order, with the corrected compliance α = stiffness/dts²; as written the first solve throws (see Findings) |
| Stages.ConstraintPassKeepsPinned | XPBD.js:37-38 | a constraint pass changes only positionX and never moves a particle with w = 0 |
| Solver.XPBD.UpdateVelocities | XPBD.js:42-48 | every listed particle gets velocity (positionX − positionP)/(dts·multiplier) |
| Corrections.VelocityRoundTrip | XPBD.js:28-47 | with the same nonzero h and nothing moving positionX in between, reconstruction gives back the velocity integrate computed |
| Stages.IntegrateThenReconstruct | XPBD.js:25-48 | the round trip over a whole particle list: updateVelocities right after integrate changes nothing |
| Solver.XPBD.HandleCollisions | XPBD.js:51-58 | boundary then polygons for each particle in list order, then the pair pass |
| Solver.XPBD.BoundaryCollision | XPBD.js:60-81 | the particle ends in the state BoundaryBody gives for the config's canvas and μ |
| Stages.BoundaryBodyMeaning | XPBD.js:60-81 | no canvas, no change; otherwise only positionX changes; above the floor line it ends within the clamp bounds; below it the contact gets q = (positionP.x, height − radius) and n = (0, −1) |
| Corrections.ClampedMeaning | XPBD.js:66-73 | after the clamp x ≥ radius, x ≤ width − radius when width ≥ 2·radius, y ≥ radius; a position already in bounds is kept; the clamp is idempotent |
| Solver.XPBD.CheckParticleCollision | XPBD.js:83-104 | the particles end as the pair corrections of UpperPairs(n, n), applied in order, leave them |
| Stages.UpperPairsExactlyOnce | XPBD.js:86-87 | the double loop visits exactly the pairs i < j < n, each once |
| Stages.UpperPairsMeaning | XPBD.js:86-87 | the visits of the first k rows are the pairs with i < k, i < j < n, in strictly increasing lexicographic order |
| Stages.PairUpdateMeaning | XPBD.js:91-100 | an overlapping pair at positive distance with wa + wb ≠ 0 ends exactly 2·radius apart along its old direction; a particle with w = 0 does not move; a pair at least 2·radius apart is untouched; no other particle moves |
| Corrections.PairCorrectionMeaning | XPBD.js:94-100 | the same on vectors: after the correction xb − xa = gap·n; w = 0 means no move; no correction when not overlapping |
| Stages.PairFoldFrame | XPBD.js:83-104 | the pair pass never moves a particle outside the list and never changes positionP or a velocity |
| Solver.XPBD.CheckPolygonCollision | XPBD.js:106-116 | for each polygon in order whose winding test contains positionX, the contact at the nearest edge projection of positionP is solved |
| Stages.PolygonBodyMeaning | XPBD.js:106-116 | the polygon stage changes only positionX; a particle no polygon contains is left alone |
| Geometry.PointInPolygon | XPBD.js:118-136 | the result is the winding test Inside (sum of edge angles in vertex order, magnitude above 1e-6); no vertices means not inside |
| Geometry.InsideRotationInvariant | CollisionDetector.js:76-94 | the winding sum and the test do not depend on which vertex the list starts at |
| Geometry.InsideTranslationInvariant | XPBDScene.js:145-163 | moving the polygon and the point by the same offset does not change the test |
| Geometry.ClosestPointOnSegmentIsFoot | XPBD.js:138-150 | None exactly when no point of the segment is a perpendicular foot of p; otherwise the result is a + t(b − a) with 0 ≤ t ≤ 1 and (p − result)·(b − a) = 0 |
| Geometry.ClosestPointOnSegmentIsNearest | CollisionDetector.js:96-108 | a returned projection is no farther from p than any point of the segment |
| Geometry.FootIsNearestOnLine | XPBDScene.js:165-179 | a point of the line whose offset from p is perpendicular to the segment is nearer to p than any other point of the line |
| Geometry.ClosestPointOnPolygon | CollisionDetector.js:110-132 | the scan leaves the contact of the nearest edge offer |
| Geometry.ClosestPointOnPolygonMeaning | XPBD.js:152-174 | both fields are null exactly when no edge offers a projection; otherwise the point lies on some edge k, no earlier edge is as near, no edge's projection is nearer, and the normal is a unit vector perpendicular to edge k |
| Geometry.NearestIsFirstMinimum | main.js:202-225 | the kept offer is no farther than any offer and strictly nearer than every earlier one, so the earliest of equally near edges wins |
| Geometry.NearestNone | XPBD.js:153-171 | nothing is kept exactly when no edge offers a projection |
| Geometry.OfferMeaning | XPBD.js:161-168 | an edge's offer is a point of the edge with a perpendicular offset from p, at the stated distance, with a perpendicular normal |
| Geometry.EdgeNormalPerpendicular | CollisionDetector.js:125-126 | the normal (−t.y, t.x) is perpendicular to the edge b − a |
| Geometry.EdgeNormalUnit | XPBD.js:167-168 | for a proper edge and a sound sqrt the normal has length 1 |
| Geometry.ClosestPointOnPolygonBeatsEdge | XPBDScene.js:181-204 | the returned point is no farther from p than any point of an edge that offers a projection |
| Geometry.LineSegmentsIntersectMeaning | XPBD.js:176-194 | a point is returned exactly when cross(r, s) ≠ 0 and the segments meet, and it lies on both segments; parallel and collinear segments give None |
| Geometry.CrossingOnBothLines | js.js:169-174 | off the parallel case, p1 + t·r and q1 + u·s are the same point |
| Geometry.CrossingUnique | main.js:243-244 | a common point of the two lines has exactly the parameters t and u the source computes |
| Detector.CollisionDetector.constructor | CollisionDetector.js:5-7 | the detector keeps the config it is given |
| Detector.CollisionDetector.FindCollisions | CollisionDetector.js:9-20 | the contact list is emptied first, then every particle takes its turn; the particles end as WorldUpTo computes and the list holds exactly the contacts ContactsAlong records; nothing else in the config changes |
| Detector.DetectContacts | CollisionDetector.js:9-20 | every recorded contact is for an already scanned particle and carries the config's μ; with no canvas and no polygons nothing is recorded |
| Detector.CollisionDetector.CheckEnvironment | CollisionDetector.js:13-15 | one particle's environment turn: the clamp, and the floor and polygon contacts of the clamped particle appended |
| Detector.CollisionDetector.CheckAndSolveParticleCollision | CollisionDetector.js:22-40 | particleA is corrected against every list entry other than itself, in list order |
| Detector.SweepPairsWithPartners | CollisionDetector.js:22-40 | the sweep over the whole list equals the correction of pa against its partners (every other particle) in order |
| Detector.PartnersMeaning | CollisionDetector.js:25-27 | pa's partners are exactly the other list entries; on a list without repeats each appears once |
| Detector.PairedFromBothSides | CollisionDetector.js:13-17 | two different particles of the list are each in the other's partners, so a pair is looked at from both sides |
| Detector.RevisitIdle | CollisionDetector.js:29-38 | a pair just separated to 2·radius, or already apart, is left alone by the visit from the other side |
| Detector.CollisionDetector.CheckBoundaryCollision | CollisionDetector.js:42-62 | positionX is clamped as ClampedBody says; a floor contact is appended exactly when the clamped particle is below the floor; the contact does not move it |
| Detector.ClampedBodyMeaning | CollisionDetector.js:42-55 | no canvas, no change; otherwise x ≥ radius, y ≥ radius, x ≤ width − radius when width ≥ 2·radius; in-bounds positions are kept |
| Detector.FloorContacts | CollisionDetector.js:57-61 | at most one contact, present exactly when the body is below height − radius, with q = (positionP.x, height − radius), n = (0, −1) and the config's μ |
| Detector.CollisionDetector.CheckPolygonCollision | CollisionDetector.js:64-74 | one contact per polygon whose winding test contains positionX, in polygon order, at the nearest edge projection of positionP |
| Detector.PolygonContactsMeaning | CollisionDetector.js:64-74 | each contact is the offer of a polygon that contains positionX; there are none exactly when no polygon does; there are as many as hits |
| Detector.CollisionDetector.CheckOnePolygon | CollisionDetector.js:66-72 | a contained polygon always yields a contact: closestPointOnPolygon never returns null, so the guard never skips |
| Detector.PolygonContactOf | CollisionDetector.js:69-71 | the contact's point and normal are both present or both null, null exactly when no edge offers a projection |
| Constraints.DistanceConstraint.constructor | Constraints/DistanceConstraint.js:3-11 | the rest length is the distance between the two particles at construction; the other fields are stored as given |
| Constraints.DistanceConstraint.Solve | Constraints/DistanceConstraint.js:13-26 | with α given explicitly: A moves by n·λ·wA and B by −n·λ·wB with λ = c/(wA + wB + α), each only when its w ≠ 0; only the two positionX fields change |
| Constraints.DistanceConstraint.AlphaAsWritten | Constraints/DistanceConstraint.js:17 | the compliance the source computes exists only when the constructor got a config with a nonzero dts2, and then α·dts2 = stiffness |
| Constraints.DistanceSolvedAt | Constraints/DistanceConstraint.js:13-26 | on a world only the two endpoints change, each by its guarded push; a constraint from a particle to itself changes nothing |
| Corrections.DistanceSolveRigid | Constraints/DistanceConstraint.js:14-25 | with α = 0 and wA + wB ≠ 0 a solve restores the rest length exactly |
| Corrections.DistanceSolveCompliant | Constraints/DistanceConstraint.js:15-25 | with α > 0 the new violation is c·α/(wA + wB + α): same sign as c and no larger in magnitude |
| Corrections.DistanceSolveGap | Constraints/DistanceConstraint.js:14-25 | after a solve B − A points the old way with signed length L − λ·(wA + wB) |
| Corrections.GuardsAreNeutral | Constraints/DistanceConstraint.js:21-25 | the `w !== 0` guards change nothing arithmetically |
| Corrections.SelfCorrectionInert | Constraints/DistanceConstraint.js:14-20 | a constraint from a particle to itself has a zero correction |
| RootConstraints.DistanceConstraint.constructor | DistanceConstraint.js:3-9 | rest length = distance at construction; α·dts = stiffness, and α = 0 exactly when stiffness = 0 |
| RootConstraints.DistanceConstraint.Solve | DistanceConstraint.js:11-23 | the same step with the stored α; only the two positionX fields change |
| RootConstraints.DistanceSolvedAt | DistanceConstraint.js:11-23 | on a world only the two endpoints change; a constraint from a particle to itself changes nothing |
| Stages.RootPassKeepsPinned | DistanceConstraint.js:18-22 | a pass of root constraints changes only positionX and never moves a particle with w = 0 |
| Constraints.MouseDistanceConstraint.constructor | Constraints/MouseDistanceConstraint.js:5-11 | the fields are stored as given |
| Constraints.MouseDistanceConstraint.AlphaAsWritten | Constraints/MouseDistanceConstraint.js:16 | the compliance exists only when the config carries a nonzero dts, and then α·dts = stiffness |
| Constraints.MouseDistanceConstraint.Solve | Constraints/MouseDistanceConstraint.js:13-23 | with α given explicitly the particle takes MouseStep; the mouse position, positionP and the velocity are untouched |
| Corrections.MouseStepMeaning | Constraints/MouseDistanceConstraint.js:14-21 | with w ≠ 0 the particle ends at distance abs(c − c/α) from the mouse on the same ray; with α = 1 it lands on the mouse; any nonzero w gives the same move |
| Polygons.Polygon.constructor | Polygon.js:5-11 | position, rotation and local vertices are stored, and the cache holds one placed vertex per local vertex |
| Polygons.Polygon.Rotate | Polygon.js:13-16 | the rotation is set, the position is kept, the cache is rebuilt; rotating to the current rotation leaves the cache as it was |
| Polygons.Polygon.Translation | Polygon.js:18-21 | the position is set, the rotation is kept, the cache is rebuilt; moving to the current position leaves the cache as it was |
| Polygons.Polygon.TransfomPoints | Polygon.js:24-33 | vertex i of the result is points[i] rotated by `rotation` degrees and then moved by `position`, in order |
| Configs.Config.constructor | Config.js:11-28 | not paused, dt 0.002, 5 substeps, dts = dt/substeps, gravity (0, 9.81), multiplier 100, μ 0.5, radius 15, mass 1, every list empty, no canvas |
| Configs.Config.AddParticle | Config.js:30-34 | exactly one fresh particle at rest at (x, y) appended; nothing else changes |
| Configs.Config.AddDistanceConstraint | Config.js:36-41 | exactly one constraint appended, rest length = current distance, dt/substeps in the damping slot and no config object |
| Configs.LinkHasNoCompliance | Config.js:36-41 | a constraint built this way has no compliance: its solve reads dts2 from a config it never got |
| Configs.Config.AddEnvironmentCollisionConstraint | Config.js:43-47 | one contact appended, carrying this config's μ |
| Configs.Config.AddPolygon | Config.js:49-53 | one polygon appended, placed at the given position and rotation |
| Configs.Config.SetCanvas | Config.js:55-57 | only the canvas changes |
| Configs.Config.CreateBox2x2 | Config.js:60-72 | 4 fresh particles at the square's corners and 6 constraints, one per pair, appended; the rest is kept |
| Configs.BoxLinksAllPairs | Config.js:66-71 | the six box links join every pair of the four corners exactly once |
| Configs.Config.CreateRope | Config.js:74-89 | `count` fresh particles spaced along the line, the first and last with mass 0, and count − 1 links joining consecutive ones |
| Configs.Config.CreateWheel | Config.js:91-113 | segments + 1 fresh particles: the ring on the circle, then a centre with the default mass; 2·segments links: ring i → (i + 1) mod segments, then spokes |
| Configs.Config.CreateBalloon | Config.js:115-136 | `segments` ring particles, one volume constraint over them with compliance 0.1 and this dts, and `segments` ring links |
| SceneBuilders.BuildDefaultScene | SceneBuilder.js:7-35 | canvas set; 55 particles, the first pinned at (800, 100); 77 constraints, the last two 0–1 (stiffness 1) and 0–5 (0.5); 2 polygons over one square at (200, 400) 30° and (600, 400) −30° |
| SceneBuilders.Populate | SceneBuilder.js:11-18 | the anchor, boxes, rope and wheels: 55 particles and 75 constraints, particle 0 pinned at (800, 100) |
| SceneBuilders.Boxes | SceneBuilder.js:12-15 | four boxes add 16 particles and 24 constraints; the anchor stays first |
| SceneBuilders.Wheels | SceneBuilder.js:17-18 | two wheels of 8 add 18 particles and 32 constraints after the existing ones |
| SceneBuilders.PlaceSquares | SceneBuilder.js:21-28 | two polygons over the same square, at (200, 400) 30° and (600, 400) −30° |
| SceneBuilders.AnchorLinks | SceneBuilder.js:30-32 | links 0–1 with stiffness 1 and 0–5 with 0.5 appended after the 75 others |
| SceneBuilders.CreateBalloon | SceneBuilder.js:93-114 | the ring particles are appended, then a ReferenceError for VolumeConstraint ends the call: no volume constraint and no ring link |
| SceneSolver.XPBDScene.constructor | XPBDScene.js:6-22 | each given option is taken; the rest default to dt 0.002, 5 substeps, gravity (0, 9.81), multiplier 100, μ 0.3, empty lists, radius 15, mass 1; dts = dt/substeps |
| SceneSolver.XPBDScene.Update | XPBDScene.js:24-31 | exactly `substeps` substeps of integrate, solve, collisions, velocities |
| SceneSolver.XPBDScene.SubstepOnce | XPBDScene.js:25-30 | one loop body is the four phases in order |
| SceneSteps.SubstepsNext | XPBDScene.js:25-30 | one loop pass extends i substeps to i + 1 |
| SceneSolver.XPBDScene.Integrate | XPBDScene.js:39-47 | every listed particle takes one integration step with h = dts·multiplier |
| SceneSolver.XPBDScene.SolveConstraints | XPBDScene.js:49-53 | only the constraint list, in list order, each with its stored α; there is no volume pass |
| SceneSolver.XPBDScene.UpdateVelocities | XPBDScene.js:55-59 | every listed particle's velocity is reconstructed by dividing by dts·multiplier |
| SceneSolver.XPBDScene.HandleCollisions | XPBDScene.js:61-67 | boundary then polygons per particle, then the pair pass |
| SceneSolver.XPBDScene.BoundaryCollision | XPBDScene.js:69-89 | no canvas, no change; otherwise the same clamp and floor contact as XPBD.js, with this scene's μ |
| SceneSolver.XPBDScene.CheckParticleCollision | XPBDScene.js:91-111 | every pair i < j, overlap and target both 2·radius |
| SceneSolver.XPBDScene.CheckPolygonCollision | XPBDScene.js:113-120 | containment and the closest point both taken at positionP |
| SceneSteps.ProbeAtPrevious | XPBDScene.js:113-120 | with containment at positionP, a particle whose positionP no polygon contains gets only the boundary stage |
| SceneSolver.SceneQuietSubstep | XPBDScene.js:39-59 | with nonzero dts and multiplier and nothing moving after integrate, a substep ends where integrate left it, velocities included |
| MainLoop.Draw | main.js:29-66 | draw's physics is exactly scene.substeps substeps of DrawPlan |
| MainLoop.SubstepOnce | main.js:33-62 | one substep: integrate, constraints, boundary then polygons per particle, pairs, velocities |
| MainLoop.Integrate | main.js:36-43 | integrate with the scene's gravity and h = dts·multiplier |
| MainLoop.SolveConstraints | main.js:46-48 | the scene's constraints in list order |
| MainLoop.Collide | main.js:50-54 | boundary then polygons for each particle, then the pair pass |
| MainLoop.Sweep | main.js:50-53 | boundary then polygons for each particle in turn |
| MainLoop.UpdateVelocities | main.js:58-60 | velocities reconstructed by dividing by dts·multiplier |
| MainLoop.DrawQuietSubstep | main.js:36-60 | with nonzero dts and multiplier and nothing moving after integrate, a substep ends where integrate left it |
| MainLoop.BoundaryCollision | main.js:88-106 | the clamp and the floor contact with the scene's μ |
| MainLoop.CheckParticleCollision | main.js:107-124 | every pair i < j, overlap and target both 2·scene.radius |
| MainLoop.CheckPolygonCollision | main.js:126-137 | a contact only for polygons whose winding test contains positionP, its point from positionP |
| JsLoop.JsApp.constructor | js.js:21-29 | at load the lists and settings are read from the scene |
| JsLoop.JsApp.Draw | js.js:39-94 | the lists are re-read from the scene, then exactly `substeps` substeps of Current |
| JsLoop.JsApp.Advance | js.js:46-74 | the substep loop over the lists just re-read |
| JsLoop.JsApp.SubstepOnce | js.js:46-74 | one substep: integrate, constraints, boundary per particle, pairs, velocities |
| JsLoop.JsApp.Integrate | js.js:50-55 | integrate with the fixed gravity (0, 9.81), not the scene's, and h = dts·multiplier |
| JsLoop.JsApp.SolveConstraints | js.js:59-61 | the constraints in list order |
| JsLoop.JsApp.Collide | js.js:63-66 | only the boundary for each particle, no polygon collision, then the pair pass |
| JsLoop.JsApp.UpdateVelocities | js.js:71 | the reconstruction divides by dts·100 whatever the multiplier |
| JsLoop.DrawVelocityRoundTrip | js.js:53-71 | in a quiet substep a particle gets back its integrated velocity exactly when the multiplier is 100 or that velocity is zero |
| Corrections.MismatchedRoundTrip | js.js:53-71 | the round trip with h = dts·multiplier forward and dts·100 back holds exactly when multiplier = 100 or the velocity is zero |
| JsLoop.JsApp.BoundaryCollision | js.js:96-116 | the clamp and the floor contact with the captured μ |
| JsLoop.JsApp.CheckParticleCollision | js.js:118-151 | every pair i < j; the overlap test uses 2·particles[i].radius and the target is 2·radius |
| Scenes.Scene.constructor | Scene.js:8-51 | dt 0.002, 5 substeps, dts = dt/5, gravity (0, 9.8), multiplier 100, μ 0.3; 35 distinct particles, the first pinned at (740, 100); 48 constraints, the last three from the anchor to 1, 5, 10 with stiffness 1, 0.5, 0.1; 2 polygons over one square at 30° and −30° |
| Scenes.Scene.Populate | Scene.js:24-34 | the anchor, six boxes and a rope of 10: 35 distinct particles and 45 constraints |
| Scenes.Scene.Boxes | Scene.js:25-30 | six boxes add 24 particles and 36 constraints; the anchor stays first |
| Scenes.Scene.PlaceSquares | Scene.js:38-45 | the shared square and two polygons over it |
| Scenes.Scene.Anchors | Scene.js:47-49 | three links from the anchor appended after the 45 others |
| Scenes.Scene.CreateRope | Scene.js:54-71 | `number` fresh particles with pinned ends and number − 1 consecutive links built with this dts |
| Scenes.Scene.CreateBox2x2 | Scene.js:72-85 | 4 fresh corner particles and 6 links, one per pair |
| SceneConfigs.CreateSceneConfig | sceneConfig.js:6-49 | the record carries dt 0.002, 5 substeps, gravity (0, 9.81), multiplier 100, μ 0.5, radius 15, mass 1 and no dts; 45 distinct particles, the first pinned at (740, 100); 58 constraints, the last three 0–1, 0–5, 9–14; 2 polygons |
| SceneConfigs.Populate | sceneConfig.js:15-23 | the anchor, six boxes and a rope of 20: 45 distinct particles and 55 constraints |
| SceneConfigs.Boxes | sceneConfig.js:17-22 | six boxes add 24 particles and 36 constraints |
| SceneConfigs.PlaceSquares | sceneConfig.js:25-32 | two polygons over one square at 30° and −30° |
| SceneConfigs.AnchorLinks | sceneConfig.js:34-36 | three links with stiffness 1, 0.5 and 0 built with dts = 0.002/5 |
| SceneFactories.CreateBox2x2 | sceneConfig.js:52-65 | 4 fresh corner particles and 6 links, one per pair, in order; distinctness is kept |
| SceneFactories.CreateRope | sceneConfig.js:67-76 | `count` fresh particles with pinned ends and count − 1 consecutive links, all with dts = 0.002/5 |
| Stages.ForEachEffect | XPBD.js:28-34 | over a list without repeats a per-particle loop applies its step once to each listed particle, from its state before the loop, and leaves every other particle alone |
| Stages.PairFoldAppend | XPBD.js:86-103 | running two pair schedules one after the other is running their concatenation |

## Left out

- Drawing, the DOM, audio and the host loop are not modelled. This covers every `draw(ctx)`, Renderer.js, Main.js, Editor.js, SoundManager.js, the `resizeCanvas`/`requestAnimationFrame`/`clearRect` calls, colours and `console.log`.
- Floating point is not modelled. Arithmetic is over `real`. A division by zero gives 0 (`Quot`) instead of Infinity or NaN, and normalising the zero vector gives the zero vector.
- Overflow and loss of precision are not modelled.
- `sqrt`, `Math.atan2`, `cos`, `sin`, `rotateDeg` and π are uninterpreted fields of `MathLib`. Only the square root has an axiom. Nothing is proved about how well the 1e-6 winding cut-off classifies points.
- Vector2.js, Particle.js, EnvironmentCollisionConstraint.js and VolumeConstraint.js are not part of this model. Particle is a class with the fields the solvers use. The contact and volume responses are parameters that give the new positionX; for a contact only positionX changes.
- Constraints.DistanceConstraint.Solve and Constraints.MouseDistanceConstraint.Solve take α as a parameter. As written they read `config.dts2` and `config.dts` from config objects their callers never supply (Config.js:38, Editor.js:107); `AlphaAsWritten` records what the source computes.
- Solver.XPBD.SolveConstraints: solves each distance constraint with the corrected compliance α = stiffness/dts². As written, the constraints that Config.js:38 builds carry no config, so the first solve throws at Constraints/DistanceConstraint.js:17 (see Findings); Solver.XPBD.Update inherits the same correction.
- Vector2 methods: the model assumes that `normalize` and `normalized` are one operation (`Normalized`), and that `divide`, `devide` and `divided` are one operation (`DivVec`). Vector2.js is not part of this model, so which of these names each Vector2 version defines, and whether they agree, is not captured.
- RootConstraints.DistanceConstraint.constructor: requires a nonzero dts, because DistanceConstraint.js:7 divides by it. Every caller passes dt/substeps = 0.0004.
- Geometry.ClosestPointOnSegmentIsFoot: requires a ≠ b, because the source divides by |b − a|². closestPointOnPolygon skips a degenerate edge explicitly, which is what NaN comparisons do in the source.
- JsLoop.DrawVelocityRoundTrip: requires the particle list to be free of repeats, which the js.js builders guarantee but the loop does not check.
- SceneBuilders.BuildDefaultScene: does not state that its 55 particles are distinct objects. The other two scene builders do.
- Scene.js `collisionConstraints` is created empty and never read; it is kept as a field and nothing is proved about it.
- Commented-out code is not modelled. This covers the balloon call in SceneBuilder.js and the disabled collision blocks in main.js, js.js and XPBDScene.js.
- Claims about many frames (settling, energy, convergence) are not modelled.
- The draw loops and XPBD.update are proved against a snapshot of every particle they can touch. Aliasing between the particle list and constraint endpoints outside the list is allowed and handled. A particle listed twice is stepped twice, as in the source.

## Findings

| source | as written | input that shows it | evidently intended | confidence | as-written member | corrected member |
|---|---|---|---|---|---|---|
| Constraints/DistanceConstraint.js:17 with Config.js:36-41 | `addDistanceConstraint` passes dt/substeps into the `damping` slot and no `config`, so `solve` reads `this.config.dts2` from `undefined` and throws | any constraint made by `addDistanceConstraint`, e.g. the 77 of `buildDefaultScene`, on the first `XPBD.update` | compliance α = stiffness/dts² with dts = dt/substeps; a rigid constraint (α = 0) then restores its rest length and a compliant one never overshoots | not executed | Configs.LinkHasNoCompliance | Solver.XPBD.SolveConstraints |
| SceneBuilder.js:104 | `createBalloon` calls `new VolumeConstraint`, which SceneBuilder.js never imports, after the ring particles are already added | `SceneBuilder.createBalloon(config, 1100, 400, 50, 7, 0.1)` (the call commented out at line 19) | one volume constraint over the ring and a ring of links, as `Config.createBalloon` does | not executed | SceneBuilders.CreateBalloon | Configs.Config.CreateBalloon |
