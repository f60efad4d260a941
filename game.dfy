/**
 * The headset scene component (`src/components/game/index.js`): the refs
 * that `rotatePlayer` and `movePlayer` read and write each frame.
 */
module GameScene {
  import opened Js
  import opened Thumbstick

  class World {
    /** `player.current.position`. */
    var position: Vec3
    /** `prevGamePads.current`, keyed by input-source identity. */
    var pads: map<nat, PadSample>
    /** How many times `mixer.current.update` has run. */
    var mixerTicks: nat
    /** Whether the astronaut loader has run: it sets `astronaut`, `mixer` and `player` together. */
    var loaded: bool
    /** `astronaut.current.rotation.y`. */
    var heading: real

    /** The part of the state `movePlayer` works on. */
    function State(): Rig
      reads this
    {
      Rig(position, pads, mixerTicks)
    }

    /** The component as mounted: no model loaded and an empty `prevGamePads`. */
    constructor ()
      ensures !loaded && pads == map[] && mixerTicks == 0
    {
      position := Vec3(0.0, 0.0, 0.0);
      pads := map[];
      mixerTicks := 0;
      loaded := false;
      heading := 0.0;
    }

    /** The astronaut loader callback: the player group is created at the origin. */
    method OnAstronautLoaded()
      modifies this
      ensures loaded && position == Vec3(0.0, 0.0, 0.0)
      ensures pads == old(pads) && mixerTicks == old(mixerTicks) && heading == old(heading)
    {
      loaded := true;
      position := Vec3(0.0, 0.0, 0.0);
    }

    /** `rotatePlayer()`, given `Math.atan2(diffX, diffZ)` as `bearing`: a no-op until the astronaut exists. */
    method RotatePlayer(bearing: real)
      modifies this
      ensures heading == Rotated(loaded, old(heading), bearing)
      ensures State() == old(State()) && loaded == old(loaded)
    {
      if loaded {
        heading := bearing + Pi;
      }
    }

    /**
     * `movePlayer()`. `session` is `renderer.current.xr.getSession()` and
     * `facing` the XR camera's world direction. Returns whether it threw.
     */
    method MovePlayer(session: Option<Sources>, facing: Vec3) returns (threw: bool)
      modifies this
      ensures Step(State(), threw) == Move(Game, loaded, old(State()), facing, session)
      ensures loaded == old(loaded) && heading == old(heading)
    {
      var handedness := "unknown";
      if session.None? {
        return false;
      }
      var iterable := IsIterable(session.value);
      if iterable.None? {
        return true;
      }
      if !iterable.value {
        return false;
      }
      var sources := session.value.items;
      ghost var start := State();
      for k := 0 to |sources|
        invariant loaded == old(loaded) && heading == old(heading)
        invariant RunFrom(Game, loaded, State(), facing, handedness, sources[k..]) ==
                  RunFrom(Game, loaded, start, facing, "unknown", sources)
      {
        var source := sources[k];
        assert sources[k..][0] == source && sources[k..][1..] == sources[k + 1..];
        if source.handedness != "" {
          handedness := source.handedness;
        }
        if source.gamepad.None? {
          continue;
        }
        var axes := source.gamepad.value;
        var data := PadSample(handedness, axes);
        if source.id in pads {
          // `if (mixer)` tests the ref, so it always passes; `mixer.current` is unset until the astronaut loads.
          if !loaded {
            return true;
          }
          mixerTicks := mixerTicks + 1;
          position := SteerLoop(position, facing, handedness, axes);
        }
        pads := pads[source.id := data];
      }
      threw := false;
    }
  }
}
