/**
 * The bookkeeping of `GameScene`: which nodes are attached, the aim
 * accumulated from mouse drags, the one-shot impulse, the gravity field's
 * switch, the out-of-bounds timer and the two spawn points. Rendering,
 * sound and the physics engine are outside the model; what they supply
 * (the rocket's position, whether it is in view, the clock, the random
 * draws) arrives as parameters.
 */
module Scene {
  import opened Optional
  import opened Geometry
  import opened Spawn
  import opened Nodes

  /** `NSEvent.keyCode`, an unsigned 16-bit value. */
  newtype KeyCode = k: int | 0 <= k < 0x1_0000

  /** The space bar: retry the same level. */
  const SpaceKeyCode: KeyCode := 0x31
  /** The return key: a new level. */
  const ReturnKeyCode: KeyCode := 36

  /** The rocket grabs the cheese when their centres are closer than this. */
  const CheeseReach := 40.0
  /** Seconds the rocket may stay out of view before the prompts appear. */
  const GracePeriod := 2.0
  /** The accumulated drag is divided by this to give the impulse. */
  const ImpulseDivisor := 5.0

  function Abs(t: real): (a: real)
    ensures a >= 0.0 && (a == t || a == -t)
  {
    if t < 0.0 then -t else t
  }

  /**
   * The power shown while aiming: `(|deltaX| + |deltaY|).rounded()`, which
   * rounds to the nearest integer and halfway cases away from zero.
   */
  function Power(deltaX: real, deltaY: real): (power: int)
    ensures power >= 0
    ensures power as real - 0.5 <= Abs(deltaX) + Abs(deltaY) < power as real + 0.5
  {
    (Abs(deltaX) + Abs(deltaY) + 0.5).Floor
  }

  /** The impulse `applyImpulse` gives the rocket for the accumulated drag. */
  function Impulse(deltaX: real, deltaY: real): (v: Vector)
    ensures v.dx * ImpulseDivisor == -deltaX && v.dy * ImpulseDivisor == deltaY
  {
    Vector(-deltaX / ImpulseDivisor, deltaY / ImpulseDivisor)
  }

  /** The sum of a list of drag deltas. */
  function SumOfDrags(drags: seq<Vector>): Vector
    decreases |drags|
  {
    if drags == [] then Vector(0.0, 0.0)
    else
      var rest := SumOfDrags(drags[1..]);
      Vector(drags[0].dx + rest.dx, drags[0].dy + rest.dy)
  }

  /** One more drag adds its deltas to the sum. */
  lemma {:induction false} SumOfDragsAppend(drags: seq<Vector>, drag: Vector)
    ensures SumOfDrags(drags + [drag]) == Vector(SumOfDrags(drags).dx + drag.dx, SumOfDrags(drags).dy + drag.dy)
    decreases |drags|
  {
    if drags != [] {
      assert (drags + [drag])[1..] == drags[1..] + [drag];
      SumOfDragsAppend(drags[1..], drag);
    } else {
      assert [drag][1..] == [];
    }
  }

  /** `showLabels`: the retry and change-level prompts are added after the other children. */
  function WithPrompts(children: seq<Node>): (r: seq<Node>)
    ensures RetryLabel in r && ChangeLevelLabel in r
    ensures |r| == |children| + 2 && r[..|children|] == children
  {
    children + [RetryLabel, ChangeLevelLabel]
  }

  /** The prompts are not stored nodes, so showing them keeps the invariant. */
  lemma WithPromptsIsAtMostOnce(children: seq<Node>)
    requires AtMostOnce(children)
    ensures AtMostOnce(WithPrompts(children))
  {
    AppendingUnstored(children, [RetryLabel, ChangeLevelLabel]);
  }

  /** `destroyRocket(at:)`: the rocket goes, an explosion and the prompts come. */
  function AfterDestroy(children: seq<Node>, pos: Point): (r: seq<Node>)
    ensures Rocket !in r
    ensures RetryLabel in r && Explosion(pos) in r
  {
    WithPrompts(Without(children, Rocket) + [Explosion(pos)])
  }

  /** Destroying the rocket detaches nothing else. */
  lemma AfterDestroyKeepsOthers(children: seq<Node>, pos: Point, m: Node)
    requires m in children && m != Rocket
    ensures m in AfterDestroy(children, pos)
  {
    var exploded := Without(children, Rocket) + [Explosion(pos)];
    WithoutKeeps(children, Rocket, m);
    assert m in exploded;
    assert AfterDestroy(children, pos)[..|exploded|] == exploded;
  }

  lemma AfterDestroyIsAtMostOnce(children: seq<Node>, pos: Point)
    requires AtMostOnce(children)
    ensures AtMostOnce(AfterDestroy(children, pos))
  {
    AtMostOnceWithout(children, Rocket);
    AtMostOnceAppend(Without(children, Rocket), Explosion(pos));
    WithPromptsIsAtMostOnce(Without(children, Rocket) + [Explosion(pos)]);
  }

  /**
   * `haveGrabbedTheCheese`: the music and the cheese go, victory music and
   * label come. The music is detached a second time by `playMariachiMusic`,
   * which finds it already gone (`WithoutAbsent`).
   */
  function AfterCheeseGrab(children: seq<Node>): (r: seq<Node>)
    ensures Cheese !in r && BackgroundMusic !in r
    ensures MariachiMusic in r && VictoryLabel in r
  {
    var withoutMusic := Without(children, BackgroundMusic);
    WithoutKeeps(withoutMusic, Cheese, BackgroundMusic);
    Without(withoutMusic, Cheese) + [MariachiMusic] + [VictoryLabel]
  }

  /** Grabbing the cheese detaches nothing but the cheese and the background music. */
  lemma AfterCheeseGrabKeepsOthers(children: seq<Node>, m: Node)
    requires m in children && m != Cheese && m != BackgroundMusic
    ensures m in AfterCheeseGrab(children)
  {
    var withoutMusic := Without(children, BackgroundMusic);
    WithoutKeeps(children, BackgroundMusic, m);
    WithoutKeeps(withoutMusic, Cheese, m);
    var removed := Without(withoutMusic, Cheese);
    assert AfterCheeseGrab(children)[..|removed|] == removed;
  }

  lemma AfterCheeseGrabIsAtMostOnce(children: seq<Node>)
    requires AtMostOnce(children)
    ensures AtMostOnce(AfterCheeseGrab(children))
  {
    var withoutMusic := Without(children, BackgroundMusic);
    AtMostOnceWithout(children, BackgroundMusic);
    AtMostOnceWithout(withoutMusic, Cheese);
    var removed := Without(withoutMusic, Cheese);
    AtMostOnceAppend(removed, MariachiMusic);
    AtMostOnceAppend(removed + [MariachiMusic], VictoryLabel);
  }

  /** Appending nodes that are not stored keeps the invariant. */
  lemma {:induction false} AppendingUnstored(children: seq<Node>, added: seq<Node>)
    requires AtMostOnce(children)
    requires forall i | 0 <= i < |added| :: !IsStored(added[i])
    ensures AtMostOnce(children + added)
    decreases |added|
  {
    if added != [] {
      var init := added[..|added| - 1];
      AppendingUnstored(children, init);
      AtMostOnceAppend(children + init, added[|added| - 1]);
      assert children + init + [added[|added| - 1]] == children + added;
    } else {
      assert children + added == children;
    }
  }

  /**
   * The children after `setupRocket`, `setupPlanet`, `setupGravity`,
   * `setupCheese` and `setupLabels`, one attachment at a time.
   */
  function SetUp(kept: seq<Node>): seq<Node> {
    kept + [Rocket] + [Planet] + [GravityField] + [Cheese] + [AngleLabel] + [PowerLabel]
  }

  /**
   * When only the music survived, each set-up node is attached to a scene
   * that does not hold it yet.
   */
  lemma SetUpStepsAreNew(kept: seq<Node>)
    requires kept == [] || kept == [BackgroundMusic]
    ensures Rocket !in kept
    ensures Planet !in kept + [Rocket]
    ensures GravityField !in kept + [Rocket] + [Planet]
    ensures Cheese !in kept + [Rocket] + [Planet] + [GravityField]
    ensures AngleLabel !in kept + [Rocket] + [Planet] + [GravityField] + [Cheese]
    ensures PowerLabel !in kept + [Rocket] + [Planet] + [GravityField] + [Cheese]
  {
  }

  /**
   * `restartGame`'s children: the surviving music and the freshly set-up
   * nodes, then new music when none is playing. Music that was playing
   * stays first; otherwise new music comes last.
   */
  function Restarted(children: seq<Node>): (r: seq<Node>)
    requires AtMostOnce(children)
    ensures BackgroundMusic in r
  {
    WithMusic(SetUp(Survivors(children)))
  }

  /** Background music is added when none is attached. */
  function WithMusic(children: seq<Node>): (r: seq<Node>)
    ensures BackgroundMusic in r
    ensures BackgroundMusic in children ==> r == children
  {
    if BackgroundMusic in children then children else children + [BackgroundMusic]
  }

  /** Set-up attaches each stored node other than the music once after the kept ones. */
  lemma SetUpCount(kept: seq<Node>, n: Node)
    ensures multiset(SetUp(kept))[n]
      == multiset(kept)[n] + if IsStored(n) && n != BackgroundMusic then 1 else 0
  {
  }

  /** Set-up after a scene holding at most the music attaches no stored node twice. */
  lemma SetUpIsAtMostOnce(kept: seq<Node>)
    requires kept == [] || kept == [BackgroundMusic]
    ensures AtMostOnce(SetUp(kept))
  {
    SetUpStepsAreNew(kept);
    AtMostOnceAppend([], BackgroundMusic);
    assert [] + [BackgroundMusic] == [BackgroundMusic];
    AtMostOnceAppend(kept, Rocket);
    AtMostOnceAppend(kept + [Rocket], Planet);
    AtMostOnceAppend(kept + [Rocket] + [Planet], GravityField);
    AtMostOnceAppend(kept + [Rocket] + [Planet] + [GravityField], Cheese);
    AtMostOnceAppend(kept + [Rocket] + [Planet] + [GravityField] + [Cheese], AngleLabel);
    AtMostOnceAppend(kept + [Rocket] + [Planet] + [GravityField] + [Cheese] + [AngleLabel], PowerLabel);
  }

  /** A restart attaches every stored node exactly once and nothing else, whatever was attached before. */
  lemma RestartedCount(children: seq<Node>, n: Node)
    requires AtMostOnce(children)
    ensures multiset(Restarted(children))[n] == if IsStored(n) then 1 else 0
  {
    RestartedShape(children);
    if BackgroundMusic in children {
      SetUpAfterMusicCount(n);
    } else {
      SetUpThenMusicCount(n);
    }
  }

  /** The restarted children: the music that survived before the set-up nodes, or new music after them. */
  lemma RestartedShape(children: seq<Node>)
    requires AtMostOnce(children)
    ensures BackgroundMusic in children ==> Restarted(children) == SetUp([BackgroundMusic])
    ensures BackgroundMusic !in children ==> Restarted(children) == SetUp([]) + [BackgroundMusic]
  {
    if BackgroundMusic in children {
      SurvivorsWithMusic(children);
    } else {
      SurvivorsWithoutMusic(children);
    }
  }

  /** Music that survived a restart, then the set-up nodes: each stored node once. */
  lemma SetUpAfterMusicCount(n: Node)
    ensures multiset(SetUp([BackgroundMusic]))[n] == if IsStored(n) then 1 else 0
  {
  }

  /** The set-up nodes, then new music: each stored node once. */
  lemma SetUpThenMusicCount(n: Node)
    ensures multiset(SetUp([]) + [BackgroundMusic])[n] == if IsStored(n) then 1 else 0
  {
  }

  /** The restarted scene attaches no stored node twice. */
  lemma RestartedIsAtMostOnce(children: seq<Node>)
    requires AtMostOnce(children)
    ensures AtMostOnce(Restarted(children))
  {
    RestartedShape(children);
    if BackgroundMusic in children {
      SetUpIsAtMostOnce([BackgroundMusic]);
    } else {
      SetUpIsAtMostOnce([]);
      SetUpCount([], BackgroundMusic);
      AtMostOnceAppend(SetUp([]), BackgroundMusic);
    }
  }

  /** After a restart no prompt is visible, so the out-of-bounds timer can run again. */
  lemma RestartHidesPrompts(children: seq<Node>)
    requires AtMostOnce(children)
    ensures ChildNodeWithName(Restarted(children), RetryLabelName).None?
  {
    var r := Restarted(children);
    RestartedCount(children, RetryLabel);
    assert RetryLabel !in r;
    RetryLabelLookup(r);
  }

  class GameScene {
    var children: seq<Node>
    var deltaX: real
    var deltaY: real
    var haveBeenImpulsed: bool
    /** `gravityField.isEnabled` of the current gravity field. */
    var gravityFieldEnabled: bool
    /** When the rocket was first seen out of view, in seconds. */
    var outOfBoundsDate: Option<real>
    var rocketInitPosition: Point
    var cheeseInitPosition: Point
    /** The impulses applied to the current rocket's physics body. */
    var rocketImpulses: seq<Vector>
    /** The number shown by the power label; `None` while it reads "Power: - ". */
    var shownPower: Option<int>
    /** The drag deltas received since the aim was last reset. */
    ghost var drags: seq<Vector>

    /** The scene's invariant: its three independent parts. */
    ghost predicate Valid()
      reads this
    {
      ChildrenValid() && LaunchValid() && AimValid()
    }

    /** Each stored node is attached at most once. */
    predicate ChildrenValid()
      reads this`children
    {
      AtMostOnce(children)
    }

    /** The gravity field is on, and the rocket has had its one impulse, exactly after the launch. */
    predicate LaunchValid()
      reads this`gravityFieldEnabled, this`haveBeenImpulsed, this`rocketImpulses
    {
      && gravityFieldEnabled == haveBeenImpulsed
      && |rocketImpulses| == (if haveBeenImpulsed then 1 else 0)
    }

    /** The aim is the sum of the drags since the last reset, and the power label shows its power. */
    ghost predicate AimValid()
      reads this`deltaX, this`deltaY, this`drags, this`shownPower
    {
      && SumOfDrags(drags) == Vector(deltaX, deltaY)
      && shownPower == (if drags == [] then None else Some(Power(deltaX, deltaY)))
    }

    /** `labelsAreVisible`: a child named "retry label" is attached. */
    predicate LabelsAreVisible()
      reads this
      ensures LabelsAreVisible() <==> RetryLabel in children
    {
      RetryLabelLookup(children);
      ChildNodeWithName(children, RetryLabelName).Some?
    }

    /** `backgroundMusicIsPlaying`: the background music node is attached. */
    predicate BackgroundMusicIsPlaying()
      reads this
    {
      BackgroundMusic in children
    }

    /**
     * The scene as `sceneDidLoad` leaves it: a new level started from an
     * empty scene.
     */
    constructor (draws: seq<UnitDraw>, cheesePosition: Point)
      requires AllUnitDraws(draws) && RandomRocketPosition(draws).Some?
      ensures Valid()
      ensures children == Restarted([])
      ensures rocketInitPosition == RandomRocketPosition(draws).value
      ensures cheeseInitPosition == cheesePosition
      ensures !haveBeenImpulsed && !gravityFieldEnabled && outOfBoundsDate == None
      ensures deltaX == 0.0 && deltaY == 0.0 && rocketImpulses == [] && shownPower == None
    {
      children := [];
      deltaX, deltaY := 0.0, 0.0;
      haveBeenImpulsed, gravityFieldEnabled := false, false;
      outOfBoundsDate := None;
      rocketInitPosition, cheeseInitPosition := Origin, Origin;
      rocketImpulses := [];
      shownPower := None;
      drags := [];
      new;
      StartAnotherGame(draws, cheesePosition);
    }

    method AddChild(n: Node)
      requires IsStored(n) ==> n !in children
      modifies this`children
      ensures children == old(children) + [n]
    {
      children := children + [n];
    }

    method RemoveFromParent(n: Node)
      modifies this`children
      ensures children == Without(old(children), n)
    {
      children := Without(children, n);
    }

    /**
     * `removeChildren`: collect every child not named "background music",
     * then detach them all.
     */
    method RemoveChildren()
      modifies this`children
      ensures children == Survivors(old(children))
    {
      var childrenToRemove: seq<Node> := [];
      for i := 0 to |children|
        invariant childrenToRemove == ChildrenToRemove(children[..i])
      {
        assert children[..i + 1][..i] == children[..i];
        if Name(children[i]) != Some(BackgroundMusicName) {
          childrenToRemove := childrenToRemove + [children[i]];
        }
      }
      assert children[..|children|] == children;
      RemovingChildrenKeepsMusic(children);
      children := Retained(children, childrenToRemove);
    }

    method SetupRocket()
      requires Rocket !in children
      modifies this`children, this`rocketImpulses
      ensures children == old(children) + [Rocket] && rocketImpulses == []
    {
      AddChild(Rocket);
      rocketImpulses := [];
    }

    method SetupGravity()
      requires GravityField !in children
      modifies this`children, this`gravityFieldEnabled
      ensures children == old(children) + [GravityField] && !gravityFieldEnabled
    {
      AddChild(GravityField);
      gravityFieldEnabled := false;
    }

    /** `setupLabels`: the aim is reset and fresh angle and power labels show "-". */
    method SetupLabels()
      requires AngleLabel !in children && PowerLabel !in children
      modifies this`children, this`deltaX, this`deltaY, this`shownPower, this`drags
      ensures children == old(children) + [AngleLabel] + [PowerLabel]
      ensures deltaX == 0.0 && deltaY == 0.0 && shownPower == None && drags == []
      ensures AimValid()
    {
      deltaX := 0.0;
      deltaY := 0.0;
      drags := [];
      AddChild(AngleLabel);
      AddChild(PowerLabel);
      shownPower := None;
    }

    /**
     * The five set-up steps of `restartGame` in order: `setupRocket`,
     * `setupPlanet`, `setupGravity`, `setupCheese` and `setupLabels`.
     */
    method SetUpLevel()
      requires children == [] || children == [BackgroundMusic]
      modifies this`children, this`rocketImpulses, this`gravityFieldEnabled
      modifies this`deltaX, this`deltaY, this`shownPower, this`drags
      ensures children == SetUp(old(children))
      ensures rocketImpulses == [] && !gravityFieldEnabled && AimValid()
      ensures deltaX == 0.0 && deltaY == 0.0 && shownPower == None && drags == []
    {
      SetUpStepsAreNew(children);
      SetupRocket();
      AddChild(Planet);
      SetupGravity();
      AddChild(Cheese);
      SetupLabels();
    }

    /** `restartGame`: the same level from the start, keeping the music that plays. */
    method RestartGame()
      requires ChildrenValid()
      modifies this`children, this`outOfBoundsDate, this`haveBeenImpulsed, this`gravityFieldEnabled
      modifies this`rocketImpulses, this`deltaX, this`deltaY, this`shownPower, this`drags
      ensures Valid()
      ensures children == Restarted(old(children))
      ensures outOfBoundsDate == None && !haveBeenImpulsed && !gravityFieldEnabled
      ensures deltaX == 0.0 && deltaY == 0.0 && rocketImpulses == [] && shownPower == None && drags == []
    {
      ghost var before := children;
      SurvivorsAreNothingOrTheMusic(before);
      RemoveChildren();
      outOfBoundsDate := None;
      haveBeenImpulsed := false;
      SetUpLevel();
      if !BackgroundMusicIsPlaying() {
        AddChild(BackgroundMusic);
      }
      RestartedIsAtMostOnce(before);
    }

    /** `startAnotherGame`: new spawn points, then a restart. */
    method StartAnotherGame(draws: seq<UnitDraw>, cheesePosition: Point)
      requires Valid()
      requires AllUnitDraws(draws) && RandomRocketPosition(draws).Some?
      modifies this
      ensures Valid()
      ensures children == Restarted(old(children))
      ensures outOfBoundsDate == None && !haveBeenImpulsed && !gravityFieldEnabled
      ensures deltaX == 0.0 && deltaY == 0.0 && rocketImpulses == [] && shownPower == None && drags == []
      ensures rocketInitPosition == RandomRocketPosition(draws).value
      ensures cheeseInitPosition == cheesePosition
    {
      rocketInitPosition := RandomRocketPosition(draws).value;
      cheeseInitPosition := cheesePosition;
      RestartGame();
    }

    /** `applyImpulse`: push the rocket by the aim and switch gravity on. */
    method ApplyImpulse()
      modifies this`rocketImpulses, this`gravityFieldEnabled
      ensures rocketImpulses == old(rocketImpulses) + [Impulse(deltaX, deltaY)]
      ensures gravityFieldEnabled
    {
      rocketImpulses := rocketImpulses + [Impulse(deltaX, deltaY)];
      gravityFieldEnabled := true;
    }

    /** `mouseDragged`: accumulate the drag and show the power it gives. */
    method MouseDragged(dx: real, dy: real)
      requires Valid()
      modifies this`deltaX, this`deltaY, this`drags, this`shownPower
      ensures Valid()
      ensures deltaX == old(deltaX) + dx && deltaY == old(deltaY) + dy
      ensures drags == old(drags) + [Vector(dx, dy)]
      ensures shownPower == Some(Power(deltaX, deltaY))
    {
      SumOfDragsAppend(drags, Vector(dx, dy));
      deltaX := deltaX + dx;
      deltaY := deltaY + dy;
      drags := drags + [Vector(dx, dy)];
      shownPower := Some(Power(deltaX, deltaY));
    }

    /** `mouseUp`: the first release of an attempt launches the rocket; later ones do nothing. */
    method MouseUp()
      requires Valid()
      modifies this`haveBeenImpulsed, this`rocketImpulses, this`gravityFieldEnabled
      ensures Valid()
      ensures old(haveBeenImpulsed) ==> unchanged(this)
      ensures !old(haveBeenImpulsed) ==>
        && haveBeenImpulsed && gravityFieldEnabled
        && rocketImpulses == [Impulse(deltaX, deltaY)]
    {
      if !haveBeenImpulsed {
        ApplyImpulse();
        haveBeenImpulsed := true;
      }
    }

    /** `keyDown(with:)`: space retries, return starts a new level, other keys are only logged. */
    method KeyDown(keyCode: KeyCode, draws: seq<UnitDraw>, cheesePosition: Point)
      requires Valid()
      requires keyCode == ReturnKeyCode ==> AllUnitDraws(draws) && RandomRocketPosition(draws).Some?
      modifies this
      ensures Valid()
      ensures keyCode == SpaceKeyCode ==>
        && children == Restarted(old(children)) && outOfBoundsDate == None && !haveBeenImpulsed
        && rocketImpulses == [] && deltaX == 0.0 && deltaY == 0.0
        && shownPower == None && drags == []
        && rocketInitPosition == old(rocketInitPosition) && cheeseInitPosition == old(cheeseInitPosition)
      ensures keyCode == ReturnKeyCode ==>
        && children == Restarted(old(children)) && outOfBoundsDate == None && !haveBeenImpulsed
        && rocketImpulses == [] && deltaX == 0.0 && deltaY == 0.0
        && shownPower == None && drags == []
        && rocketInitPosition == RandomRocketPosition(draws).value && cheeseInitPosition == cheesePosition
      ensures keyCode != SpaceKeyCode && keyCode != ReturnKeyCode ==> unchanged(this)
    {
      if keyCode == SpaceKeyCode {
        RestartGame();
      } else if keyCode == ReturnKeyCode {
        StartAnotherGame(draws, cheesePosition);
      }
    }

    /** `showLabels`: display the retry and change-level prompts. */
    method ShowLabels()
      modifies this`children
      ensures children == WithPrompts(old(children))
      ensures LabelsAreVisible()
    {
      AddChild(RetryLabel);
      AddChild(ChangeLevelLabel);
    }

    /** `destroyRocket(at:)`: detach the rocket, show an explosion and the prompts. */
    method DestroyRocket(pos: Point)
      requires ChildrenValid()
      modifies this`children
      ensures ChildrenValid()
      ensures children == AfterDestroy(old(children), pos)
      ensures Rocket !in children && LabelsAreVisible()
    {
      ghost var before := children;
      RemoveFromParent(Rocket);
      AddChild(Explosion(pos));
      ShowLabels();
      AfterDestroyIsAtMostOnce(before, pos);
    }

    /**
     * `didBegin(_:)`: a contact between the rocket and the planet, in either
     * order, destroys the rocket if it is still attached; any other contact
     * is ignored.
     */
    method DidBegin(bodyA: Option<string>, bodyB: Option<string>, contactPoint: Point)
      requires Valid()
      modifies this`children
      ensures Valid()
      ensures old(Rocket in children) && IsRocketPlanetContact(bodyA, bodyB) ==>
        children == AfterDestroy(old(children), contactPoint)
      ensures !(old(Rocket in children) && IsRocketPlanetContact(bodyA, bodyB)) ==> children == old(children)
      ensures IsRocketPlanetContact(bodyA, bodyB) ==> Rocket !in children
    {
      if Rocket in children {
        if bodyA == Some(RocketName) && bodyB == Some(PlanetName) {
          DestroyRocket(contactPoint);
        } else if bodyA == Some(PlanetName) && bodyB == Some(RocketName) {
          DestroyRocket(contactPoint);
        }
      }
    }

    /** `playMariachiMusic`: the background music stops and the victory music starts. */
    method PlayMariachiMusic()
      modifies this`children
      ensures children == Without(old(children), BackgroundMusic) + [MariachiMusic]
    {
      RemoveFromParent(BackgroundMusic);
      AddChild(MariachiMusic);
    }

    /** `showVictoryLabel`: the victory label is attached. */
    method ShowVictoryLabel()
      modifies this`children
      ensures children == old(children) + [VictoryLabel]
    {
      AddChild(VictoryLabel);
    }

    /** `haveGrabbedTheCheese`: victory music and label; the cheese's spot moves to the origin. */
    method HaveGrabbedTheCheese()
      requires ChildrenValid()
      modifies this`children, this`cheeseInitPosition
      ensures ChildrenValid()
      ensures children == AfterCheeseGrab(old(children))
      ensures cheeseInitPosition == Origin
    {
      AfterCheeseGrabIsAtMostOnce(children);
      cheeseInitPosition := Origin;
      RemoveFromParent(BackgroundMusic);
      ghost var withoutMusic := children;
      RemoveFromParent(Cheese);
      WithoutKeeps(withoutMusic, Cheese, BackgroundMusic);
      WithoutAbsent(children, BackgroundMusic);
      PlayMariachiMusic();
      ShowVictoryLabel();
    }

    /**
     * `update(_:)`, without the rotation: the cheese check, then the
     * out-of-bounds timer. The rocket's position and whether it is in view
     * come from the physics engine and the view; `now` is the clock.
     */
    method Update(rocketPosition: Point, rocketInView: bool, now: real)
      requires Valid()
      modifies this`children, this`cheeseInitPosition, this`outOfBoundsDate
      ensures Valid()
      ensures
        var grabbed := SquaredDistance(rocketPosition, old(cheeseInitPosition)) < CheeseReach * CheeseReach;
        var afterGrab := if grabbed then AfterCheeseGrab(old(children)) else old(children);
        var outOfView := !rocketInView && RetryLabel !in afterGrab;
        && cheeseInitPosition == (if grabbed then Origin else old(cheeseInitPosition))
        && outOfBoundsDate == (if outOfView && old(outOfBoundsDate).None? then Some(now) else old(outOfBoundsDate))
        && children == (if outOfView && old(outOfBoundsDate).Some? && now - old(outOfBoundsDate).value > GracePeriod
                        then WithPrompts(afterGrab) else afterGrab)
      ensures old(outOfBoundsDate).Some? ==> outOfBoundsDate == old(outOfBoundsDate)
    {
      if SquaredDistance(rocketPosition, cheeseInitPosition) < CheeseReach * CheeseReach {
        HaveGrabbedTheCheese();
      }
      if !rocketInView && !LabelsAreVisible() {
        match outOfBoundsDate
        case Some(date) =>
          if date - now < -GracePeriod {
            WithPromptsIsAtMostOnce(children);
            ShowLabels();
          }
        case None =>
          outOfBoundsDate := Some(now);
      }
    }
  }

  /** The condition of `didBegin(_:)`: the two bodies are the rocket and the planet, in either order. */
  predicate IsRocketPlanetContact(bodyA: Option<string>, bodyB: Option<string>) {
    || (bodyA == Some(RocketName) && bodyB == Some(PlanetName))
    || (bodyA == Some(PlanetName) && bodyB == Some(RocketName))
  }

  /** The contact test depends only on the unordered pair of body names. */
  lemma ContactIsUnordered(bodyA: Option<string>, bodyB: Option<string>)
    ensures IsRocketPlanetContact(bodyA, bodyB) <==>
      multiset{bodyA, bodyB} == multiset{Some(RocketName), Some(PlanetName)}
  {
  }
}
