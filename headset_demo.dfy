/**
 * The stand-alone headset demo (`src/assets/js/index.js`): module-level
 * globals that `rotatePlayer` and `movePlayer` read and write each frame.
 */
module HeadsetDemo {
  import opened Js
  import opened Thumbstick

  class Demo {
    /** `player.position`. */
    var position: Vec3
    /** `prevGamePads`, keyed by input-source identity. */
    var pads: map<nat, PadSample>
    /** How many times `mixer.update` has run. */
    var mixerTicks: nat
    /** Whether the model loader has run: it sets `astronaut`, `mixer` and `player` together. */
    var loaded: bool
    /** `astronaut.rotation.y`. */
    var heading: real

    /** The part of the state `movePlayer` works on. */
    function State(): Rig
      reads this
    {
      Rig(position, pads, mixerTicks)
    }

    /** The module as loaded: `player`, `mixer` and `astronaut` undefined, `prevGamePads` empty. */
    constructor ()
      ensures !loaded && pads == map[] && mixerTicks == 0
    {
      position := Vec3(0.0, 0.0, 0.0);
      pads := map[];
      mixerTicks := 0;
      loaded := false;
      heading := 0.0;
    }

    /** The model loader callback: the player group is created at the origin. */
    method OnAstronautLoaded()
      modifies this
      ensures loaded && position == Vec3(0.0, 0.0, 0.0)
      ensures pads == old(pads) && mixerTicks == old(mixerTicks) && heading == old(heading)
    {
      loaded := true;
      position := Vec3(0.0, 0.0, 0.0);
    }

    /** `rotatePlayer()`, given `Math.atan2(diffX, diffZ)` as `bearing`: a no-op until the astronaut exists. */
    method RotatePlayer(bearing: real)
      modifies this
      ensures heading == Rotated(loaded, old(heading), bearing)
      ensures State() == old(State()) && loaded == old(loaded)
    {
      if loaded {
        heading := bearing + Pi;
      }
    }

    /**
     * The `data.axes.forEach(...)`: reaching `player.position` while `player`
     * is undefined throws before anything changes.
     */
    method ApplyAxes(facing: Vec3, hand: string, axes: seq<real>) returns (threw: bool)
      modifies this
      ensures threw <==> !loaded && ((|axes| > 2 && hand == "left") || |axes| > 3)
      ensures threw ==> position == old(position)
      ensures !threw ==> position == Steer(old(position), facing, hand, axes)
      ensures pads == old(pads) && mixerTicks == old(mixerTicks) && loaded == old(loaded) && heading == old(heading)
    {
      var start := position;
      for i := 0 to |axes|
        invariant pads == old(pads) && mixerTicks == old(mixerTicks) && loaded == old(loaded) && heading == old(heading)
        invariant !loaded ==> !(i > 2 && hand == "left") && i <= 3
        invariant i <= 2 ==> position == start
        invariant i == 3 ==> position == AfterAxis2(start, facing, hand, axes)
        invariant i >= 4 ==> position == Steer(start, facing, hand, axes)
      {
        if i == 2 && hand == "left" {
          if !loaded {
            return true;
          }
          position := position.(x := position.x - facing.z * MovementSpeed * axes[2]);
          position := position.(z := position.z + facing.x * MovementSpeed * axes[2]);
        }
        if i == 3 {
          if !loaded {
            return true;
          }
          if hand == "left" {
            position := position.(y := position.y - MovementSpeed * axes[3]);
          } else {
            position := position.(x := position.x - facing.x * MovementSpeed * axes[3]);
            position := position.(z := position.z - facing.z * MovementSpeed * axes[3]);
          }
        }
      }
      threw := false;
    }

    /**
     * `movePlayer()`. `session` is `renderer.xr.getSession()` and `facing`
     * the XR camera's world direction. Returns whether it threw.
     */
    method MovePlayer(session: Option<Sources>, facing: Vec3) returns (threw: bool)
      modifies this
      ensures Step(State(), threw) == Move(Demo, loaded, old(State()), facing, session)
      ensures loaded == old(loaded) && heading == old(heading)
    {
      var handedness := "unknown";
      if session.None? {
        return false;
      }
      var iterable := IsIterable(session.value);
      if iterable.None? {
        return true;
      }
      if !iterable.value {
        return false;
      }
      var sources := session.value.items;
      ghost var start := State();
      for k := 0 to |sources|
        invariant loaded == old(loaded) && heading == old(heading)
        invariant RunFrom(Demo, loaded, State(), facing, handedness, sources[k..]) ==
                  RunFrom(Demo, loaded, start, facing, "unknown", sources)
      {
        var source := sources[k];
        assert sources[k..][0] == source && sources[k..][1..] == sources[k + 1..];
        if source.handedness != "" {
          handedness := source.handedness;
        }
        if source.gamepad.None? {
          continue;
        }
        var axes := source.gamepad.value;
        var data := PadSample(handedness, axes);
        if source.id in pads {
          if loaded {
            mixerTicks := mixerTicks + 1;
          }
          var failed := ApplyAxes(facing, handedness, axes);
          if failed {
            return true;
          }
        }
        pads := pads[source.id := data];
      }
      threw := false;
    }
  }
}
