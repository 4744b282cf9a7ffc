# Separating-axis collision demo: collision core in Dafny

A model of the collision core of a raylib demo, `src/main.cpp`. The demo
has boxes (colliders) and a player. It tests the player's box against
every static box with the separating axis theorem, restricted to the three
world axes. It pushes the player out along the minimum translation vector
(MTV) and lands the player when the push is straight up. Single-precision
floats are modelled as exact reals.

Modules, one per file:

- `Vectors` (`vectors.dfy`): `Vec3` and the rotation block of a raylib
  `Matrix`, with the vector operations the core uses.
- `Colliders` (`collider.dfy`): the box geometry as a value (`Box`) and
  the projection radius. It also holds the class `Collider`, with the
  fields the demo keeps per body and `Populate`.
- `Sat` (`sat.dfy`): the overlap test.
  - `Collision` is the specification on values.
  - `CheckCollision` is the loop of `check_collision_collider` on two
    colliders.
  - Lemmas prove that the reported axis is the earliest axis of least
    overlap, that the test is symmetric, and that it is exact for
    unrotated boxes.
- `Players` (`player.dfy`): the player's kinematic state as a value
  (`Kin`) and the class `Player` with `Jump` and `UpdateGravity`.
- `Frame` (`frame.dfy`): one iteration of the game loop, minus the drawing.
  - On values: `Movement`, `Translation`, `Resolve` for one obstacle,
    `Pass` for all of them in list order, and `Advance` for a whole frame.
  - On the objects: `Step` is split into `PrepareFrame` and
    `ResolveObstacles`. It is proved to leave the objects exactly as
    `Advance` says.
  - Lemmas: zero residual overlap after a push, grounding only from
    above, landing is not remembered between frames, and a worked first
    frame with the demo's floor plate as the only obstacle.

## Model

| member | source | states |
|---|---|---|
| Colliders.Collider.Populate | src/main.cpp:33-38 | half-extents become exactly half the size, componentwise. Rotation becomes the identity. Centre, size and flag are unchanged. |
| Colliders.Collider.constructor | src/main.cpp:145-148 | a collider built from a size and a centre, then populated, so `Valid()` holds and the contact flag is down |
| Colliders.Share | src/main.cpp:44-46 | one local axis's term of the projection radius is non-negative when its half-extent is |
| Colliders.ProjectionRadius | src/main.cpp:40-47 | the projection radius of a box with non-negative half-extents is never negative |
| Colliders.UnrotatedRadius | src/main.cpp:40-47 | with the identity rotation, the radius on world axis X, Y or Z is the half-extent along that axis |
| Colliders.Collider.ValidIsAligned | src/main.cpp:33-38 | a populated collider is an unrotated box with half-extents half its size, positive when the size is |
| Colliders.MaxRadiusSquared | src/main.cpp:49-51 | the square of `get_max_radius` is at least the square of every half-extent |
| Colliders.BoundingSphere | src/main.cpp:49-51 | every interior point of an unrotated box lies strictly inside the sphere of radius `get_max_radius` |
| Sat.Overlap | src/main.cpp:101-104 | the overlap on an axis never exceeds the sum of the two projection radii, and equals that sum when the centres are level along the axis |
| Sat.Collision | src/main.cpp:86-118 | no collision exactly when some world axis has overlap <= 0. On a collision, the depth is positive and at most each overlap. The axis is the first world axis whose overlap equals the depth, and every earlier axis has a larger overlap. |
| Sat.CheckCollision | src/main.cpp:86-118 | the loop returns true exactly when `Collision` reports a collision, and the MTV it writes is `Collision`'s. On a miss, the caller's MTV is returned untouched. |
| Sat.CollisionIsMinAxis | src/main.cpp:94-116 | the reported axis is a world axis and is the minimum-overlap axis, earlier axis first on ties |
| Sat.MinAxisUnique | src/main.cpp:109-112 | the strict `<` makes the axis of least overlap unique |
| Sat.SeparatingAxisIsReported | src/main.cpp:104-107 | any axis with overlap <= 0 makes the test report no collision |
| Sat.MinAxisIsReported | src/main.cpp:109-117 | when every overlap is positive, the test reports the minimum axis with its overlap as depth |
| Sat.UnrotatedOverlap | src/main.cpp:97-104 | for unrotated boxes, the overlap on each world axis is the sum of the half-extents less the centre distance along that axis |
| Sat.OverlapSymmetric | src/main.cpp:97-104 | the overlap on any axis does not depend on the order of the two boxes |
| Sat.CollisionSymmetric | src/main.cpp:86-118 | swapping the boxes gives the same verdict, axis and depth |
| Sat.CommonPoint | src/main.cpp:99-107 | colliding unrotated boxes of positive size share an interior point |
| Sat.SeparatedMeansDisjoint | src/main.cpp:99-107 | when the test reports no collision, unrotated boxes share no interior point |
| Sat.ExactForAlignedBoxes | src/main.cpp:99-107 | for unrotated boxes of positive size, the test reports a collision exactly when the boxes share an interior point |
| Sat.ExactForColliders | src/main.cpp:86-118 | for two populated colliders of positive size, the test on their geometry reports a collision exactly when the boxes share an interior point |
| Players.AfterJump | src/main.cpp:77-82 | a jump from the ground sets the vertical speed to 8 and leaves the ground. In the air, a jump changes nothing. The player never ends grounded. |
| Players.JumpOnce | src/main.cpp:77-82 | jumping twice in a row is the same as jumping once |
| Players.AfterGravity | src/main.cpp:71-75 | vertical speed drops by `20 * dt`, horizontal speed is unchanged, and the centre moves by the new velocity times `dt` |
| Players.GravityPullsDown | src/main.cpp:71-75 | over a positive step, the vertical speed strictly drops. The height changes by the old vertical speed times `dt`, less `20 * dt * dt`. |
| Players.GravityVelocityAdditive | src/main.cpp:71-72 | two gravity steps change the velocity as one step of the summed length would |
| Players.Player.constructor | src/main.cpp:136-139 | a player at rest and not grounded, owning a freshly populated collider of the given size and centre |
| Players.Player.UpdateGravity | src/main.cpp:71-75 | the player's new state is `AfterGravity` of the old one |
| Players.Player.Jump | src/main.cpp:77-82 | the player's new state is `AfterJump` of the old one |
| Frame.Movement | src/main.cpp:179-189 | right and left cancel, as do forward and back. A single key moves by `5 * dt` along its axis with the source's signs. Nothing moves vertically. |
| Frame.Grounds | src/main.cpp:224 | a grounding contact is a hit whose push raises the player. On a world axis, a hit grounds exactly when the axis is vertical and the push is upwards. |
| Frame.Translation | src/main.cpp:211-218 | the push is the MTV axis scaled by the depth, either as is or reversed |
| Frame.TranslationMovesAway | src/main.cpp:211-221 | along the world axis of the MTV, the push moves the player's centre away from the obstacle's by exactly the depth. When the centres are level along that axis, the push goes along the positive axis. |
| Frame.Resolve | src/main.cpp:203-228 | a miss changes nothing. A hit records `Collision`'s MTV and the push `Translation` gives for it, and moves the player by that push. The player is grounded afterwards iff it was before or the contact grounds. A grounding contact zeroes only the vertical speed. |
| Frame.ResolutionSeparates | src/main.cpp:211-221 | after a push, the overlap on the reported axis is exactly zero, so testing the pair again reports no collision |
| Frame.GroundsOnlyFromAbove | src/main.cpp:211-227 | a contact lands the player iff the reported axis is vertical and the player's centre is not below the obstacle's |
| Frame.Fold | src/main.cpp:202-229 | resolving a list in order yields one contact per obstacle |
| Frame.Pass | src/main.cpp:202-229 | the obstacle pass yields one contact per obstacle |
| Frame.FoldSplit | src/main.cpp:202-229 | resolving `a + b` in order is resolving `a`, then `b` from where `a` left the player |
| Frame.FoldGrounding | src/main.cpp:223-227 | for any step that lands exactly on grounding contacts, the fold ends grounded iff it started grounded or some contact grounds |
| Frame.FoldVelocity | src/main.cpp:223-227 | for any step that zeroes the vertical speed exactly on grounding contacts, the fold does so iff some contact grounds |
| Frame.FoldPosition | src/main.cpp:218 | for any step that moves by its push, the fold moves the player by the sum of the pushes |
| Frame.PassSplit | src/main.cpp:202-229 | the pass over `a + b` is the pass over `a`, then the pass over `b` from where it left the player |
| Frame.PassContactAt | src/main.cpp:202-229 | contact `i` is the resolution of obstacle `i` from where the first `i` obstacles left the player. After a hit, the player no longer overlaps that obstacle. |
| Frame.PassGrounding | src/main.cpp:223-227 | the pass ends grounded iff it started grounded or some contact pushed the player straight up |
| Frame.PassVelocity | src/main.cpp:223-227 | the pass zeroes the vertical speed iff some contact grounds, and otherwise leaves the velocity alone |
| Frame.PassPosition | src/main.cpp:218 | the player ends at its start plus the sum of all pushes |
| Frame.MoveAndFall | src/main.cpp:174-199 | before the pass: vertical speed is 8 (after a jump from the ground) or the old one, less `20 * dt`. Horizontal speed is unchanged. The centre moves by the intents, then by the new velocity times `dt`. The player is not grounded. |
| Frame.Advance | src/main.cpp:174-229 | one frame yields one contact per obstacle |
| Frame.GroundedOnlyByThisFrame | src/main.cpp:199-227 | after a frame, the player is grounded iff one of this frame's contacts grounded it, and then its vertical speed is zero |
| Frame.ResolveObstacle | src/main.cpp:203-228 | on the objects, one iteration of the collision loop leaves the player as `Resolve` says. Both contact flags are raised exactly on a hit. |
| Frame.PrepareFrame | src/main.cpp:174-199 | on the objects: the player's state becomes `MoveAndFall` of the old one, and every contact flag is down |
| Frame.ResolveObstacles | src/main.cpp:202-229 | on the objects: the player ends as `Pass` says. A flag is raised exactly when it was up already or its obstacle (or, for the player, any obstacle) was hit. |
| Frame.Step | src/main.cpp:172-229 | one frame on the objects ends exactly as `Advance` on the values. The player's flag is up iff any contact hit, each obstacle's flag is up iff its contact hit, and no geometry but the player's centre changes. Every collider stays populated. |
| Frame.SunkIntoFloor | src/main.cpp:136-148 | the 1 x 2 x 1 player sunk by up to 0.8 into the floor plate collides on the vertical axis, with the sink as depth |
| Frame.PushedUpFromFloor | src/main.cpp:211-218 | when the player's centre is not below the obstacle's, the push for a vertical MTV of any depth is straight up by that depth |
| Frame.LandingResolution | src/main.cpp:203-227 | resolving the sunk player against the floor puts its feet back at height 0, at rest and grounded |
| Frame.LandingOnTheFloor | src/main.cpp:136-148 | a first frame with the floor plate as the only obstacle (the randomly placed boxes left out), with no key held and any `dt` up to 0.2, ends grounded, at rest, back at its start, with a single upward contact of depth `20 * dt * dt` |
| Frame.PassSingle | src/main.cpp:202-229 | the pass over one obstacle is the resolution of that obstacle |
| Frame.SinkBound | src/main.cpp:67 | with gravity 20 and `0 < dt <= 0.2`, the one-frame drop `20 * dt * dt` is more than 0 and at most 0.8 |
| Frame.FallFromRest | src/main.cpp:71-75 | with no key held, a player at rest anywhere sinks straight down by `20 * dt * dt` and keeps zero horizontal speed |
| Frame.CoincidentBoxes | src/main.cpp:97-221 | unrotated boxes of positive size with the same centre overlap on every world axis by the sum of their half-extents. The push goes along the positive reported axis, by the full positive depth. |

## Left out

- Window, camera, input polling, drawing and frame timing (`InitWindow`, `IsKeyDown`, `GetFrameTime`, `Collider::draw`, the drawing block). These are raylib I/O. Keys come in as the booleans of `Intents`, and the frame time as the real `dt`.
- The mesh and model fields, `GenMeshCube`, `LoadModelFromMesh` and the destructor are GPU resource calls, outside the collision logic.
- The random placement of the six static boxes (`srand`, `rand`) is nondeterministic. The obstacles are any list of distinct colliders that does not contain the player's collider.
- IEEE single-precision rounding, NaN and `INFINITY`. Reals are exact. The running minimum's `INFINITY` seed is the `Infinity` case of `Sat.Bound`.
- `Vector3Normalize` is the identity on the unit world axes. These are the only axes the test ever reports.
- `get_max_radius` needs a square root. `Colliders.MaxRadiusSquared` models its square.
- Colliders.Collider.constructor: the source's default constructor leaves centre, size and rotation unset. Every use then assigns size and centre and calls `populate`, and the model's constructor does exactly that.
- Sat.CheckCollision: on a miss, the source does not write through the `MTV` pointer. The model takes the caller's value as `prior` and returns it unchanged.
- Sat.ExactForAlignedBoxes: the three-world-axis test is a complete separating-axis test only for unrotated boxes. Exactness is proved under that precondition, and nothing is claimed about rotated boxes (`populate` always sets the identity rotation).
- Frame.Translation: its own contract says only "plus or minus the depth along the axis". The sign rule is stated by `TranslationMovesAway`: the push moves the centres apart along the axis, and goes along the positive axis when they are level.
- The camera spin (`UpdateCamera`) and the window loop condition are left out.
