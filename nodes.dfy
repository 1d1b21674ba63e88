/**
 * The scene's children. SpriteKit keeps them as an ordered list of node
 * objects, some of which carry a name string that the scene looks up. Here
 * a child is a `Node` value saying which of the scene's nodes it is, and
 * `Name` gives the name the scene assigns to it (or none).
 */
module Nodes {
  import opened Optional
  import opened Geometry

  datatype Node =
    | Rocket            // rocketSprite
    | Planet            // planetSprite
    | GravityField      // gravityField
    | Cheese            // cheeseSprite
    | AngleLabel        // angleLabel
    | PowerLabel        // powerLabel
    | BackgroundMusic   // backgroundMusic
    | RetryLabel        // the "retry" prompt of showLabels
    | ChangeLevelLabel  // the "change level" prompt of showLabels
    | Explosion(at: Point)
    | VictoryLabel
    | MariachiMusic

  const RocketName := "rocket"
  const PlanetName := "planet"
  const CheeseName := "cheese"
  const BackgroundMusicName := "background music"
  const RetryLabelName := "retry label"

  /** The `name` property the scene gives each node; the others stay unnamed. */
  function Name(n: Node): Option<string> {
    match n
    case Rocket => Some(RocketName)
    case Planet => Some(PlanetName)
    case Cheese => Some(CheeseName)
    case BackgroundMusic => Some(BackgroundMusicName)
    case RetryLabel => Some(RetryLabelName)
    case _ => None
  }

  /**
   * The nodes the scene holds in a stored property and creates afresh on
   * every restart; each is attached at most once.
   */
  predicate IsStored(n: Node) {
    n.Rocket? || n.Planet? || n.GravityField? || n.Cheese? || n.AngleLabel? || n.PowerLabel? || n.BackgroundMusic?
  }

  /** No stored node is attached twice: each stored child is absent from those before it. */
  predicate AtMostOnce(children: seq<Node>)
    decreases |children|
  {
    if children == [] then true
    else
      var prefix := children[..|children| - 1];
      var last := children[|children| - 1];
      AtMostOnce(prefix) && (IsStored(last) ==> last !in prefix)
  }

  /** Attaching one more child keeps the invariant exactly when that child is not a stored node already attached. */
  lemma AtMostOnceAppend(children: seq<Node>, n: Node)
    ensures AtMostOnce(children + [n]) <==> AtMostOnce(children) && (IsStored(n) ==> n !in children)
  {
  }

  /** Under the invariant every stored node occurs at most once. */
  lemma {:induction false} AtMostOnceCount(children: seq<Node>, n: Node)
    requires AtMostOnce(children) && IsStored(n)
    ensures multiset(children)[n] <= 1
    decreases |children|
  {
    if children != [] {
      var prefix := children[..|children| - 1];
      assert children == prefix + [children[|children| - 1]];
      AtMostOnceCount(prefix, n);
    }
  }

  /** `childNode(withName:)`: the position of the first child with that name. */
  function ChildNodeWithName(children: seq<Node>, name: string): (r: Option<nat>)
    ensures r.Some? ==> r.value < |children| && Name(children[r.value]) == Some(name)
    ensures r.Some? ==> forall j | 0 <= j < r.value :: Name(children[j]) != Some(name)
    ensures r.None? <==> forall j | 0 <= j < |children| :: Name(children[j]) != Some(name)
    decreases |children|
  {
    if children == [] then None
    else if Name(children[0]) == Some(name) then Some(0)
    else
      match ChildNodeWithName(children[1..], name)
      case None => None
      case Some(k) => Some(k + 1)
  }

  /** Only the retry prompt carries the name "retry label", so looking it up finds exactly that node. */
  lemma RetryLabelLookup(children: seq<Node>)
    ensures ChildNodeWithName(children, RetryLabelName).Some? <==> RetryLabel in children
  {
  }

  /** The children once `n` has been detached (`removeFromParent`). */
  function Without(children: seq<Node>, n: Node): (r: seq<Node>)
    ensures n !in r
    decreases |children|
  {
    if children == [] then []
    else
      var last := children[|children| - 1];
      assert children == children[..|children| - 1] + [last];
      Without(children[..|children| - 1], n) + if last == n then [] else [last]
  }

  /** Detaching `n` removes all its occurrences and keeps every other node as often as before. */
  lemma {:induction false} WithoutCount(children: seq<Node>, n: Node, m: Node)
    ensures multiset(Without(children, n))[m] == if m == n then 0 else multiset(children)[m]
    decreases |children|
  {
    if children != [] {
      var last := children[|children| - 1];
      assert children == children[..|children| - 1] + [last];
      WithoutCount(children[..|children| - 1], n, m);
    }
  }

  /** Detaching `n` keeps every other node attached, and attaches nothing new. */
  lemma WithoutKeeps(children: seq<Node>, n: Node, m: Node)
    requires m != n
    ensures m in Without(children, n) <==> m in children
  {
  }

  /** Detaching a node that is not attached changes nothing. */
  lemma {:induction false} WithoutAbsent(children: seq<Node>, n: Node)
    requires n !in children
    ensures Without(children, n) == children
    decreases |children|
  {
    if children != [] {
      var prefix := children[..|children| - 1];
      WithoutAbsent(prefix, n);
      assert children == prefix + [children[|children| - 1]];
    }
  }

  /** Detaching a node keeps the invariant. */
  lemma {:induction false} AtMostOnceWithout(children: seq<Node>, n: Node)
    requires AtMostOnce(children)
    ensures AtMostOnce(Without(children, n))
    decreases |children|
  {
    if children != [] {
      var prefix := children[..|children| - 1];
      var last := children[|children| - 1];
      AtMostOnceWithout(prefix, n);
      if last != n {
        assert Without(children, n) == Without(prefix, n) + [last];
        WithoutKeeps(prefix, n, last);
        AtMostOnceAppend(Without(prefix, n), last);
      } else {
        assert Without(children, n) == Without(prefix, n) + [] == Without(prefix, n);
      }
    }
  }

  /** The children `restartGame` keeps: those named "background music". */
  predicate SurvivesRestart(n: Node) {
    Name(n) == Some(BackgroundMusicName)
  }

  /** Only the background music carries the name "background music". */
  lemma SurvivesRestartIsMusic(n: Node)
    ensures SurvivesRestart(n) <==> n == BackgroundMusic
  {
  }

  /** The children that survive `removeChildren`, in their order. */
  function Survivors(children: seq<Node>): seq<Node>
    decreases |children|
  {
    if children == [] then []
    else
      var last := children[|children| - 1];
      Survivors(children[..|children| - 1]) + if SurvivesRestart(last) then [last] else []
  }

  /** A node survives as often as it was attached if it is named "background music", else never. */
  lemma {:induction false} SurvivorsCount(children: seq<Node>, m: Node)
    ensures multiset(Survivors(children))[m] == if SurvivesRestart(m) then multiset(children)[m] else 0
    decreases |children|
  {
    if children != [] {
      var last := children[|children| - 1];
      assert children == children[..|children| - 1] + [last];
      SurvivorsCount(children[..|children| - 1], m);
    }
  }

  /** With every stored node attached at most once, at most the music survives. */
  lemma SurvivorsAreNothingOrTheMusic(children: seq<Node>)
    requires AtMostOnce(children)
    ensures Survivors(children) == [] || Survivors(children) == [BackgroundMusic]
  {
    if BackgroundMusic in children {
      SurvivorsWithMusic(children);
    } else {
      SurvivorsWithoutMusic(children);
    }
  }

  /** With the music attached, and every stored node at most once, the music alone survives. */
  lemma {:induction false} SurvivorsWithMusic(children: seq<Node>)
    requires AtMostOnce(children) && BackgroundMusic in children
    ensures Survivors(children) == [BackgroundMusic]
    decreases |children|
  {
    var prefix := children[..|children| - 1];
    var last := children[|children| - 1];
    assert children == prefix + [last];
    if last == BackgroundMusic {
      SurvivorsWithoutMusic(prefix);
      assert Survivors(children) == [] + [BackgroundMusic];
    } else {
      SurvivorsWithMusic(prefix);
      SurvivesRestartIsMusic(last);
      assert Survivors(children) == Survivors(prefix) + [];
    }
  }

  /** Without the music attached, nothing survives. */
  lemma {:induction false} SurvivorsWithoutMusic(children: seq<Node>)
    requires BackgroundMusic !in children
    ensures Survivors(children) == []
    decreases |children|
  {
    if children != [] {
      var prefix := children[..|children| - 1];
      var last := children[|children| - 1];
      assert children == prefix + [last];
      SurvivorsWithoutMusic(prefix);
      SurvivesRestartIsMusic(last);
      assert Survivors(children) == [] + [];
    }
  }

  /** The list `removeChildren` builds: every child not named "background music", in order. */
  function ChildrenToRemove(children: seq<Node>): (r: seq<Node>)
    ensures forall m :: multiset(r)[m] == if SurvivesRestart(m) then 0 else multiset(children)[m]
    decreases |children|
  {
    if children == [] then []
    else
      var last := children[|children| - 1];
      assert children == children[..|children| - 1] + [last];
      ChildrenToRemove(children[..|children| - 1]) + if SurvivesRestart(last) then [] else [last]
  }

  /** `removeChildren(in:)`: the children that are not in `toRemove`. */
  function Retained(children: seq<Node>, toRemove: seq<Node>): (r: seq<Node>)
    ensures forall m :: multiset(r)[m] == if m in toRemove then 0 else multiset(children)[m]
    decreases |children|
  {
    if children == [] then []
    else
      var last := children[|children| - 1];
      assert children == children[..|children| - 1] + [last];
      Retained(children[..|children| - 1], toRemove) + if last in toRemove then [] else [last]
  }

  /**
   * Removing any list that holds exactly the non-surviving children leaves
   * the survivors, in their order.
   */
  lemma {:induction false} RetainedIsSurvivors(children: seq<Node>, toRemove: seq<Node>)
    requires forall i | 0 <= i < |children| :: children[i] in toRemove <==> !SurvivesRestart(children[i])
    ensures Retained(children, toRemove) == Survivors(children)
    decreases |children|
  {
    if children != [] {
      var prefix := children[..|children| - 1];
      assert forall i | 0 <= i < |prefix| :: prefix[i] == children[i];
      RetainedIsSurvivors(prefix, toRemove);
    }
  }

  /** What `removeChildren` leaves: every "background music" child and nothing else. */
  lemma RemovingChildrenKeepsMusic(children: seq<Node>)
    ensures Retained(children, ChildrenToRemove(children)) == Survivors(children)
  {
    var toRemove := ChildrenToRemove(children);
    forall i | 0 <= i < |children|
      ensures children[i] in toRemove <==> !SurvivesRestart(children[i])
    {
      assert children[i] in multiset(children);
      assert children[i] in toRemove <==> multiset(toRemove)[children[i]] > 0;
    }
    RetainedIsSurvivors(children, toRemove);
  }
}
