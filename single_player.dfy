/**
 * The single-player world (`src/components/world/index.js`): the nav mesh
 * picked out of the ship model while it is traversed, and the per-frame
 * tick that waits for the player and the nav mesh, advances the walk
 * animation on any attempted planar move, and undoes moves off the floor.
 */
module SinglePlayer {
  import opened Js
  import Floor

  /** A node of the ship model as the traverse callback sees it, with the material flags it sets. */
  datatype SkeldNode = SkeldNode(
    isMesh: bool, name: string, visible: bool, y: real,
    doubleSide: bool, frustumCulled: bool, transparent: bool)

  /** The name the nav mesh carries in the model. */
  const NavMeshName: string := "nav-mesh"

  predicate IsNavMesh(n: SkeldNode) {
    n.isMesh && n.name == NavMeshName
  }

  /**
   * What the traverse callback does to one node: a mesh becomes double-sided,
   * never frustum-culled and transparent, and the nav mesh is also hidden
   * and lowered by 1; any other node is left alone.
   */
  function Prepared(n: SkeldNode): (r: SkeldNode)
    ensures r.isMesh == n.isMesh && r.name == n.name
    ensures !n.isMesh ==> r == n
    ensures n.isMesh ==> r.doubleSide && !r.frustumCulled && r.transparent
    ensures IsNavMesh(n) ==> !r.visible && r.y == n.y - 1.0
    ensures !IsNavMesh(n) ==> r.visible == n.visible && r.y == n.y
  {
    if !n.isMesh then n
    else
      var lowered := if n.name == NavMeshName then n.(visible := false, y := n.y - 1.0) else n;
      lowered.(doubleSide := true, frustumCulled := false, transparent := true)
  }

  /** Preparing is idempotent on everything but the nav mesh, which sinks by 1 each time. */
  lemma PreparedTwice(n: SkeldNode)
    ensures !IsNavMesh(n) ==> Prepared(Prepared(n)) == Prepared(n)
    ensures IsNavMesh(n) ==> Prepared(Prepared(n)).y == n.y - 2.0
  {
  }

  /** The node `nav.current` ends on: the last nav mesh in traversal order, if any. */
  function LastNav(nodes: seq<SkeldNode>): (r: Option<nat>)
    ensures r.Some? ==> r.value < |nodes| && IsNavMesh(nodes[r.value]) &&
                        forall j :: r.value < j < |nodes| ==> !IsNavMesh(nodes[j])
    ensures r.None? ==> forall j :: 0 <= j < |nodes| ==> !IsNavMesh(nodes[j])
  {
    if nodes == [] then None
    else if IsNavMesh(nodes[|nodes| - 1]) then Some(|nodes| - 1)
    else LastNav(nodes[..|nodes| - 1])
  }

  class World {
    /** `player.current.position`. */
    var position: Vec3
    /** Whether the astronaut loader has run: it sets `astronaut`, `mixer` and `player` together. */
    var loaded: bool
    /** `nav.current`, as the index of that node in the ship model's traversal order. */
    var nav: Option<nat>
    /** `astronaut.current.rotation.y`. */
    var heading: real
    /** How many times `mixer.current.update` has run. */
    var mixerTicks: nat
    /** How many frames have been rendered. */
    var renders: nat
    /** Whether `setAnimationLoop(animate)` is in force. */
    var looping: bool

    /** The component as mounted: nothing loaded, the loop running. */
    constructor ()
      ensures !loaded && nav == None && mixerTicks == 0 && renders == 0 && looping
    {
      position := Vec3(0.0, 0.0, 0.0);
      loaded, nav, heading := false, None, 0.0;
      mixerTicks, renders := 0, 0;
      looping := true;
    }

    /** The ship loader callback: traverse the model's nodes in place and keep the last nav mesh. */
    method OnSkeldLoaded(nodes: array<SkeldNode>)
      modifies this, nodes
      ensures forall i :: 0 <= i < nodes.Length ==> nodes[i] == Prepared(old(nodes[i]))
      ensures nav == (if LastNav(old(nodes[..])).Some? then LastNav(old(nodes[..])) else old(nav))
      ensures position == old(position) && loaded == old(loaded) && mixerTicks == old(mixerTicks)
      ensures renders == old(renders) && looping == old(looping) && heading == old(heading)
    {
      ghost var before := nodes[..];
      ghost var found: Option<nat> := None;
      for i := 0 to nodes.Length
        invariant forall j :: 0 <= j < i ==> nodes[j] == Prepared(before[j])
        invariant forall j :: i <= j < nodes.Length ==> nodes[j] == before[j]
        invariant found == LastNav(before[..i])
        invariant nav == (if found.Some? then found else old(nav))
        invariant position == old(position) && loaded == old(loaded) && mixerTicks == old(mixerTicks)
        invariant renders == old(renders) && looping == old(looping) && heading == old(heading)
      {
        assert before[..i + 1][..i] == before[..i];
        var node := nodes[i];
        if node.isMesh {
          if node.name == NavMeshName {
            node := node.(visible := false, y := node.y - 1.0);
            nav := Some(i);
            found := Some(i);
          }
          node := node.(doubleSide := true, frustumCulled := false, transparent := true);
        }
        nodes[i] := node;
      }
      assert before[..nodes.Length] == before;
    }

    /** The astronaut loader callback: the player group is created at the origin. */
    method OnAstronautLoaded()
      modifies this
      ensures loaded && position == Vec3(0.0, 0.0, 0.0)
      ensures nav == old(nav) && mixerTicks == old(mixerTicks) && renders == old(renders) && looping == old(looping)
      ensures heading == old(heading)
    {
      loaded := true;
      position := Vec3(0.0, 0.0, 0.0);
    }

    /**
     * `animate()`. `bearing` is `Math.atan2(diffX, diffZ)` for the camera,
     * `moved` is where `controls.current.update()` leaves the player, and
     * `hits` the downward ray's hit count on the nav mesh.
     */
    method Animate(bearing: real, moved: Vec3, hits: nat)
      modifies this
      ensures renders == old(renders) + 1
      ensures !(loaded && nav.Some?) ==>
        position == old(position) && mixerTicks == old(mixerTicks) && heading == old(heading)
      ensures loaded && nav.Some? ==>
        position == Floor.Resolve(old(position), moved, Some(hits)) && heading == bearing &&
        mixerTicks == old(mixerTicks) + (if Floor.AttemptedPlanarMove(old(position), moved) then 1 else 0)
      ensures loaded == old(loaded) && nav == old(nav) && looping == old(looping)
    {
      if loaded && nav.Some? {
        var oldPosition := position;
        // `astronaut.current` is set by the same loader as `player.current`.
        heading := bearing;
        position := moved;
        var diffX := oldPosition.x - position.x;
        var diffZ := oldPosition.z - position.z;
        // `mixer.current` is set by that loader too.
        if (diffX != 0.0 || diffZ != 0.0) && loaded {
          mixerTicks := mixerTicks + 1;
        }
        if hits == 0 {
          position := position.(x := position.x + diffX);
          position := position.(z := position.z + diffZ);
        }
      }
      renders := renders + 1;
    }

    /** The effect cleanup: `setAnimationLoop(null)`. */
    method StopLoop()
      modifies this
      ensures !looping
      ensures position == old(position) && mixerTicks == old(mixerTicks) && renders == old(renders)
      ensures nav == old(nav) && loaded == old(loaded) && heading == old(heading)
    {
      looping := false;
    }
  }
}
