# Gravity: the bookkeeping of `GameScene`

Gravity is a small SpriteKit game. The player drags the mouse to aim a
rocket and releases it to launch. A planet's radial gravity field then bends
the rocket's path. Reaching the cheese wins; touching the planet destroys the
rocket. Space retries the level and return starts a new one.

This project models the discrete state that `GameScene` keeps beside the
physics engine:

- the attached children, as a sequence of `Node` values, each with the name
  the scene gives it;
- the drag accumulated since the last reset (`deltaX`, `deltaY`) and the power
  the power label shows;
- the one-shot launch flag `haveBeenImpulsed` and `gravityField.isEnabled`;
- the out-of-bounds timer `outOfBoundsDate`;
- the two spawn points.

The event handlers are methods of the class `Scene.GameScene`. They are
proved to keep three invariants:

- every stored node (rocket, planet, gravity field, cheese, the two aim labels,
  the background music) is attached at most once;
- the gravity field is on exactly when the rocket has received its single
  impulse;
- the aim is the sum of the drags since the last reset, and the power label
  shows its rounded magnitude.

The pure helpers are separate modules:

- `Geometry` has `CGPoint.distance`, handled through the squared distance, and
  `CGLine.getPoint`.
- `Spawn` has the rocket-spawn rejection sampler. It runs over a finite
  sequence of random draws.
- `Nodes` has the child list operations: name lookup, `removeFromParent`, and
  the filter in `removeChildren`.

What the physics engine, the view and the clock supply arrives as method
parameters:

- the rocket's position;
- whether the rocket is in view;
- the current time;
- the names of the two contact bodies;
- the random draws;
- the cheese spawn point.

The model follows the code in three places where a reader might expect
otherwise:

- The out-of-bounds timer is cleared only by a restart. It is never cleared
  when the rocket comes back into view. After a brief excursion, the prompts
  therefore appear as soon as the rocket leaves the view again later. Update
  states this: an existing timer is never changed.
- The sampler accepts points with `x² + y² ≥ 150²`, so a point at exactly
  150 is accepted.
- `haveGrabbedTheCheese` moves `cheeseInitPosition` to the origin. A retry
  after a victory therefore keeps the cheese spot at (0, 0), the planet's
  centre.

## Model

| member | source | states |
|---|---|---|
| Geometry.SquaredDistance | Gravity/GameScene.swift:314-319 | the squared distance used in place of `CGPoint.distance` is never negative |
| Geometry.DistanceBelowIffSquaredBelow | Gravity/GameScene.swift:314-319 | for the non-negative `d` whose square is the squared distance, `d < bound` holds exactly when the squared distance is below `bound²`, in both directions |
| Geometry.GetPoint | Gravity/GameScene.swift:333-335 | a point exists exactly when `yCoefficient` is non-zero; it has the requested abscissa and satisfies the line equation |
| Geometry.GetPointIsTheLinePoint | Gravity/GameScene.swift:333-335 | every point on the line is the one `getPoint` returns for its abscissa, so the returned point is unique |
| Spawn.ScaledFraction | Gravity/GameScene.swift:308-309 | a fraction in [0, 1) of an interval's length stays within [0, length) |
| Spawn.RandomPoint | Gravity/GameScene.swift:307-312 | `CGPoint.random` lies in the half-open rectangle `[minX, maxX) × [minY, maxY)` |
| Spawn.RandomRocketPosition | Gravity/GameScene.swift:106-114 | a returned point lies in `[-480, 0) × [-320, 0)` and is not rejected by the test; a point is returned exactly when some draw's candidate passes the test |
| Spawn.RandomRocketPositionIsFirstAccepted | Gravity/GameScene.swift:106-114 | the result is the candidate of the first draw the test accepts, and every earlier candidate was rejected |
| Spawn.Candidate | Gravity/GameScene.swift:107 | the candidate drawn from one unit draw lies in the spawn rectangle `[-480, 0) × [-320, 0)` |
| Spawn.TooClose | Gravity/GameScene.swift:108 | the rejection test; its meaning is stated by Spawn.TooCloseIsNearPlanet |
| Spawn.TooCloseIsNearPlanet | Gravity/GameScene.swift:108 | the rejection test `pow(x,2) + pow(y,2) < pow(150,2)` is the squared distance from the planet's centre being below 150² |
| Spawn.RocketSpawnAvoidsPlanet | Gravity/GameScene.swift:106-114 | a spawned rocket is at least 150 from the planet's centre, and neither coordinate is zero |
| Nodes.Name | Gravity/GameScene.swift:50 | the name each node is given at lines 50, 60, 69, 102 and 149; its lookups are stated by Nodes.ChildNodeWithName and Nodes.SurvivesRestartIsMusic |
| Nodes.AtMostOnceAppend | Gravity/GameScene.swift:51 | attaching a node keeps every stored node attached at most once, exactly when the node is not a stored node that is already attached |
| Nodes.AtMostOnceCount | Gravity/GameScene.swift:27-34 | under the invariant each stored node occurs at most once in the children |
| Nodes.ChildNodeWithName | Gravity/GameScene.swift:159 | `childNode(withName:)` finds the first child with that name, and finds none exactly when no child carries it |
| Nodes.RetryLabelLookup | Gravity/GameScene.swift:158-164 | looking up "retry label" succeeds exactly when the retry prompt is attached |
| Nodes.Without | Gravity/GameScene.swift:214 | after `removeFromParent` the node is no longer a child |
| Nodes.WithoutCount | Gravity/GameScene.swift:214 | `removeFromParent` removes every occurrence of the node and keeps every other node as often as before |
| Nodes.WithoutKeeps | Gravity/GameScene.swift:214 | any other node is a child afterwards exactly when it was one before |
| Nodes.WithoutAbsent | Gravity/GameScene.swift:175 | detaching a node that is not attached leaves the children unchanged |
| Nodes.AtMostOnceWithout | Gravity/GameScene.swift:214 | detaching a node keeps the at-most-once invariant |
| Nodes.SurvivesRestart | Gravity/GameScene.swift:287 | the loop's test `name == "background music"`; Nodes.SurvivesRestartIsMusic states which node passes it |
| Nodes.Survivors | Gravity/GameScene.swift:284-292 | the children `removeChildren` keeps; stated by Nodes.SurvivorsCount and the three lemmas below |
| Nodes.SurvivesRestartIsMusic | Gravity/GameScene.swift:287 | the only node named "background music" is the background music |
| Nodes.SurvivorsCount | Gravity/GameScene.swift:284-292 | after `removeChildren` a node is attached as often as before if it is named "background music", and otherwise not at all |
| Nodes.SurvivorsAreNothingOrTheMusic | Gravity/GameScene.swift:284-292 | under the invariant, `removeChildren` leaves either nothing or the background music alone |
| Nodes.SurvivorsWithMusic | Gravity/GameScene.swift:284-292 | under the invariant, with the music attached, exactly the music survives `removeChildren` |
| Nodes.SurvivorsWithoutMusic | Gravity/GameScene.swift:284-292 | without the music attached, `removeChildren` leaves nothing |
| Nodes.ChildrenToRemove | Gravity/GameScene.swift:285-290 | the list the loop builds holds every child not named "background music", as often as it is attached, and no music |
| Nodes.Retained | Gravity/GameScene.swift:291 | `removeChildren(in:)` drops every occurrence of the listed nodes and keeps every other node as often as before |
| Nodes.RetainedIsSurvivors | Gravity/GameScene.swift:291 | removing any list that holds exactly the non-music children leaves the music children in their order |
| Nodes.RemovingChildrenKeepsMusic | Gravity/GameScene.swift:284-292 | removing the list the loop builds leaves exactly the "background music" children in their order |
| Scene.Abs | Gravity/GameScene.swift:301-303 | `CGFloat.abs` is non-negative and equals the value or its negation |
| Scene.Impulse | Gravity/GameScene.swift:209 | the impulse times 5 is `(-deltaX, deltaY)`: the aim scaled down by 5 with the x-axis reversed |
| Scene.Power | Gravity/GameScene.swift:234 | the shown power is a non-negative integer within one half of `abs(deltaX) + abs(deltaY)` |
| Scene.SumOfDragsAppend | Gravity/GameScene.swift:228-229 | one more drag adds its deltas to the accumulated aim |
| Scene.WithPrompts | Gravity/GameScene.swift:145-156 | `showLabels` attaches the retry and change-level prompts after the unchanged previous children |
| Scene.WithPromptsIsAtMostOnce | Gravity/GameScene.swift:145-156 | showing the prompts keeps the at-most-once invariant |
| Scene.AfterDestroy | Gravity/GameScene.swift:213-217 | after `destroyRocket` the rocket is detached, and the explosion and the retry prompt are attached |
| Scene.AfterDestroyKeepsOthers | Gravity/GameScene.swift:213-217 | `destroyRocket` detaches nothing but the rocket |
| Scene.AfterDestroyIsAtMostOnce | Gravity/GameScene.swift:213-217 | `destroyRocket` keeps the at-most-once invariant |
| Scene.AfterCheeseGrab | Gravity/GameScene.swift:219-225 | after `haveGrabbedTheCheese` the cheese and the background music are detached, and the mariachi music and the victory label are attached |
| Scene.AfterCheeseGrabKeepsOthers | Gravity/GameScene.swift:219-225 | `haveGrabbedTheCheese` detaches nothing but the cheese and the background music |
| Scene.AfterCheeseGrabIsAtMostOnce | Gravity/GameScene.swift:219-225 | `haveGrabbedTheCheese` keeps the at-most-once invariant |
| Scene.AppendingUnstored | Gravity/GameScene.swift:145-156 | attaching nodes that the scene does not store, such as labels and effects, keeps the invariant |
| Scene.WithMusic | Gravity/GameScene.swift:194-196 | after the music check the background music is attached, and nothing changes if it already was |
| Scene.SetUp | Gravity/GameScene.swift:188-192 | the five set-up steps; their effect is stated by Scene.SetUpStepsAreNew and Scene.SetUpCount |
| Scene.Restarted | Gravity/GameScene.swift:184-197 | after `restartGame` the background music is always attached; the rest is stated by Scene.RestartedShape, Scene.RestartedCount and Scene.RestartHidesPrompts |
| Scene.SetUpStepsAreNew | Gravity/GameScene.swift:188-192 | when at most the music survived, each set-up step attaches a node not yet attached |
| Scene.SetUpCount | Gravity/GameScene.swift:188-192 | the five set-up steps attach each stored node other than the music exactly once |
| Scene.SetUpIsAtMostOnce | Gravity/GameScene.swift:188-192 | the set-up after a scene holding at most the music keeps the invariant |
| Scene.RestartedShape | Gravity/GameScene.swift:184-197 | music that was playing stays first, before the set-up nodes; otherwise new music is attached last |
| Scene.SetUpAfterMusicCount | Gravity/GameScene.swift:184-197 | surviving music followed by the set-up nodes holds each stored node exactly once and nothing else |
| Scene.SetUpThenMusicCount | Gravity/GameScene.swift:184-197 | the set-up nodes followed by new music hold each stored node exactly once and nothing else |
| Scene.RestartedCount | Gravity/GameScene.swift:184-197 | after `restartGame` every stored node is attached exactly once and nothing else is, whatever was attached before |
| Scene.RestartedIsAtMostOnce | Gravity/GameScene.swift:184-197 | `restartGame` establishes the at-most-once invariant |
| Scene.RestartHidesPrompts | Gravity/GameScene.swift:184-197 | after `restartGame` no "retry label" is attached, so the prompts are hidden |
| Scene.IsRocketPlanetContact | Gravity/GameScene.swift:125-129 | the contact test of `didBegin`; stated by Scene.ContactIsUnordered |
| Scene.ContactIsUnordered | Gravity/GameScene.swift:125-129 | the rocket–planet contact test holds exactly when the two body names, taken as an unordered pair, are "rocket" and "planet" |
| Scene.GameScene.LabelsAreVisible | Gravity/GameScene.swift:158-164 | `labelsAreVisible` holds exactly when the retry prompt is attached |
| Scene.GameScene.BackgroundMusicIsPlaying | Gravity/GameScene.swift:180-182 | `backgroundMusicIsPlaying` is the lookup of "background music" among the children; Scene.GameScene.RestartGame relies on it |
| Scene.GameScene.constructor | Gravity/GameScene.swift:39-42 | `sceneDidLoad` starts a new level: the scene is the restarted empty scene with the sampled rocket spawn and the given cheese spawn, and the invariants hold |
| Scene.GameScene.AddChild | Gravity/GameScene.swift:51 | `addChild` appends the node; a stored node may only be attached when it is not attached already |
| Scene.GameScene.RemoveFromParent | Gravity/GameScene.swift:214 | `removeFromParent` detaches the node |
| Scene.GameScene.RemoveChildren | Gravity/GameScene.swift:284-292 | the loop and the removal leave exactly the "background music" children in their order |
| Scene.GameScene.SetupRocket | Gravity/GameScene.swift:44-52 | a new rocket is attached whose physics body has had no impulse |
| Scene.GameScene.SetupGravity | Gravity/GameScene.swift:75-81 | a new gravity field is attached and switched off |
| Scene.GameScene.SetupLabels | Gravity/GameScene.swift:83-98 | the aim is zeroed, the angle and power labels are attached, and the power label shows no value |
| Scene.GameScene.SetUpLevel | Gravity/GameScene.swift:188-192 | rocket, planet, gravity field, cheese and the two labels are attached in this order; the launch and aim state are reset |
| Scene.GameScene.RestartGame | Gravity/GameScene.swift:184-197 | all three invariants are established; the children become the restarted children; the timer, the launch flag, the gravity field, the impulses and the aim are reset; both spawn points are kept, since they are outside the frame |
| Scene.GameScene.StartAnotherGame | Gravity/GameScene.swift:199-203 | new spawn points (the sampled rocket position and the given cheese point), then a full restart |
| Scene.GameScene.ApplyImpulse | Gravity/GameScene.swift:208-211 | the rocket receives the impulse `(-deltaX/5, deltaY/5)` and the gravity field is switched on |
| Scene.GameScene.MouseDragged | Gravity/GameScene.swift:227-238 | the aim grows by the event's deltas, the power label shows the power of the new aim, and the invariants are kept |
| Scene.GameScene.MouseUp | Gravity/GameScene.swift:242-247 | the first release since a restart applies exactly one impulse, sets the flag and switches gravity on; any later release changes nothing |
| Scene.GameScene.KeyDown | Gravity/GameScene.swift:249-258 | space restarts and keeps the spawn points; return restarts with new spawn points; both reset the aim and clear the power label; any other key changes nothing |
| Scene.GameScene.ShowLabels | Gravity/GameScene.swift:145-156 | the two prompts are attached and `labelsAreVisible` holds afterwards |
| Scene.GameScene.DestroyRocket | Gravity/GameScene.swift:213-217 | the rocket is detached, an explosion and the prompts are attached, `labelsAreVisible` holds, and the invariant is kept |
| Scene.GameScene.DidBegin | Gravity/GameScene.swift:123-131 | with the rocket attached, a rocket–planet contact in either order destroys it; any other contact, or a contact after the rocket is gone, changes nothing |
| Scene.GameScene.PlayMariachiMusic | Gravity/GameScene.swift:173-178 | the background music is detached and the mariachi music attached |
| Scene.GameScene.ShowVictoryLabel | Gravity/GameScene.swift:166-171 | the victory label is attached |
| Scene.GameScene.HaveGrabbedTheCheese | Gravity/GameScene.swift:219-225 | the cheese spot moves to the origin, the children become those after the grab, and the invariant is kept |
| Scene.GameScene.Update | Gravity/GameScene.swift:262-282 | with the rocket within 40 of the cheese spot, the cheese is grabbed; with the rocket out of view and no prompt visible, an unset timer starts at `now`, and a timer more than 2 seconds old shows the prompts; an existing timer is never changed |

## Left out

- Rendering is not modelled: textures, sizes, positions, `SKAction` animations, fonts and label texts. Each node is only its identity and name.
- Physics is not modelled: gravity falloff, collisions and velocity integration. Scene.GameScene.ApplyImpulse only records the impulse vector on the rocket's body.
- Scene.GameScene.MouseDragged: the `atan2` rotation of the rocket and the angle label's text are left out. Only the power is modelled, and as a real-number rounding rather than a `CGFloat` one.
- Scene.GameScene.Update: the velocity-based rotation is left out. The distance test is stated on squared distances; Geometry.DistanceBelowIffSquaredBelow links it to `CGPoint.distance`. The view test `view!.frame.contains` is the boolean parameter `rocketInView`. `Date()` is the parameter `now`, in seconds.
- Scene.GameScene.DidBegin: the contact's two body names are parameters. A missing node or name is `None`.
- `getRandomCheesePosition` is not modelled: its `cos`/`sin` formula divides by the rocket's coordinates. The cheese point is a parameter of StartAnotherGame and of the constructor.
- Spawn.RandomRocketPosition: the random draws are a finite input sequence, so the result is `None` when every draw is rejected. The source recurses until it finds a point.
- Geometry.SquaredDistance: `sqrt` is not modelled. Comparisons with the distance go through Geometry.DistanceBelowIffSquaredBelow.
- Geometry.GetPoint: for `yCoefficient == 0` it returns `None`. The source divides by zero and returns a point with an infinite or NaN ordinate.
- Geometry.DistanceBelowIffSquaredBelow relates the distance to a bound only for a non-negative bound.
- Audio is not modelled: creating, loading and playing `SKAudioNode`. The music nodes are plain children.
- The explosion's timed `removeFromParent` at the end of its animation is not modelled. An explosion stays attached until the next restart.
- `CGFloat` and `Date` arithmetic is modelled with exact reals: the `+=` in `mouseDragged`, `-deltaX/5`, the `pow` comparisons at lines 108 and 268, and `timeIntervalSinceNow`. Rounding and overflow of floating point are not modelled.
- The key handler's logging in its default case is not modelled.
- Nodes are values, not object references. A stored node is its current instance. Detaching a stored node by value is the same as `removeFromParent`, because the invariant keeps each stored node attached at most once. Equal prompts or explosions cannot be told apart.
