/**
 * The floor-collision rule shared by the multiplayer engine
 * (`src/components/Engine/index.js`) and the single-player world
 * (`src/components/world/index.js`): after the controls move the player, a
 * ray is cast straight down at the nav mesh, and with zero hits the planar
 * move is undone while the height the controls set is kept.
 */
module Floor {
  import opened Js

  /**
   * The position after the tick's revert step. `hits` is the number of
   * downward-ray hits on the nav mesh, or `None` when there is no nav mesh
   * to test against. Reverting is `p.x += old.x - p.x` (and the same on z),
   * which in exact arithmetic restores the old coordinate.
   */
  function Resolve(before: Vec3, moved: Vec3, hits: Option<nat>): (r: Vec3)
    ensures r.y == moved.y
    ensures hits == Some(0) ==> r.x == before.x && r.z == before.z
    ensures hits != Some(0) ==> r == moved
  {
    if hits == Some(0) then
      var diffX := before.x - moved.x;
      var diffZ := before.z - moved.z;
      Vec3(moved.x + diffX, moved.y, moved.z + diffZ)
    else moved
  }

  /** Whether the controls attempted a planar move: `diffX || diffZ` is truthy. */
  predicate AttemptedPlanarMove(before: Vec3, moved: Vec3) {
    before.x - moved.x != 0.0 || before.z - moved.z != 0.0
  }

  /** A tick ends either where the controls put the player or back on the old x/z: never anywhere else. */
  lemma ResolveIsMovedOrReverted(before: Vec3, moved: Vec3, hits: Option<nat>)
    ensures var r := Resolve(before, moved, hits);
            r == moved || r == Vec3(before.x, moved.y, before.z)
  {
  }

  /** A reverted tick never changes the planar position, however far the controls tried to go. */
  lemma RevertedTickKeepsPlanarPosition(before: Vec3, moved: Vec3)
    ensures var r := Resolve(before, moved, Some(0));
            !AttemptedPlanarMove(before, r)
  {
  }

  /** Resolving is idempotent: resolving an already resolved position against the same snapshot changes nothing. */
  lemma ResolveIdempotent(before: Vec3, moved: Vec3, hits: Option<nat>)
    ensures Resolve(before, Resolve(before, moved, hits), hits) == Resolve(before, moved, hits)
  {
  }
}
