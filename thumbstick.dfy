/**
 * Headset thumbstick locomotion, as `movePlayer` does it in both
 * `src/components/game/index.js` and `src/assets/js/index.js`: a loop over
 * the XR input sources that carries the handedness forward, records every
 * gamepad's axes in `prevGamePads`, and moves the player only from a
 * source's second sample on.
 *
 * The two files differ only in what happens before the astronaut model has
 * loaded (see `Variant`); everything else is shared here as reference
 * definitions, and each file's loop is proved equal to them.
 */
module Thumbstick {
  import opened Js

  /** `PLAYER_SPEED`. */
  const PlayerSpeed: real := 1.0

  /** `movementSpeed = PLAYER_SPEED * 0.1`. */
  const MovementSpeed: real := PlayerSpeed * 0.1

  /**
   * An XR input source. `id` is the object's identity (the key of
   * `prevGamePads`); an empty `handedness` is a falsy one; `gamepad` is
   * `None` when the source has none, and otherwise its `axes`.
   */
  datatype InputSource = InputSource(id: nat, handedness: string, gamepad: Option<seq<real>>)

  /** The `data` object stored in `prevGamePads`: the carried handedness and a copy of the axes. */
  datatype PadSample = PadSample(handedness: string, axes: seq<real>)

  /**
   * `session.inputSources` as `isIterable` sees it: `null`, `undefined`, an
   * object without an iterator function, or an iterable of sources.
   */
  datatype Sources = NullSources | UndefinedSources | NotIterable | Iterable(items: seq<InputSource>)

  /**
   * `isIterable(obj)`: `false` for `null`, otherwise whether
   * `obj[Symbol.iterator]` is a function. Reading a property of `undefined`
   * throws a `TypeError`, shown as `None`.
   */
  function IsIterable(obj: Sources): (r: Option<bool>)
    ensures r.None? <==> obj == UndefinedSources
    ensures obj == NullSources ==> r == Some(false)
    ensures r == Some(true) <==> obj.Iterable?
  {
    match obj
    case NullSources => Some(false)
    case UndefinedSources => None
    case NotIterable => Some(false)
    case Iterable(_) => Some(true)
  }

  /** `if (source && source.handedness) handedness = source.handedness`. */
  function Handedness(prior: string, source: InputSource): string
  {
    if source.handedness != "" then source.handedness else prior
  }

  /** The position after the `i === 2` branch of the `forEach`: a left hand strafes on x/z. */
  function AfterAxis2(pos: Vec3, facing: Vec3, hand: string, axes: seq<real>): Vec3 {
    if |axes| > 2 && hand == "left" then
      Vec3(pos.x - facing.z * MovementSpeed * axes[2], pos.y, pos.z + facing.x * MovementSpeed * axes[2])
    else pos
  }

  /** The position after the `i === 3` branch: a left hand moves on y, any other hand along the camera on x/z. */
  function AfterAxis3(pos: Vec3, facing: Vec3, hand: string, axes: seq<real>): Vec3 {
    if |axes| <= 3 then pos
    else if hand == "left" then pos.(y := pos.y - MovementSpeed * axes[3])
    else Vec3(pos.x - facing.x * MovementSpeed * axes[3], pos.y, pos.z - facing.z * MovementSpeed * axes[3])
  }

  /** The whole `data.axes.forEach(...)`: only indices 2 and 3 act, in that order. */
  function Steer(pos: Vec3, facing: Vec3, hand: string, axes: seq<real>): Vec3 {
    AfterAxis3(AfterAxis2(pos, facing, hand, axes), facing, hand, axes)
  }

  /** For a left hand, axis 2 strafes on x/z and axis 3 moves y, each scaled by `MovementSpeed`. */
  lemma SteerLeft(pos: Vec3, facing: Vec3, axes: seq<real>)
    ensures var r := Steer(pos, facing, "left", axes);
            var a2 := if |axes| > 2 then axes[2] else 0.0;
            var a3 := if |axes| > 3 then axes[3] else 0.0;
            r.x == pos.x - facing.z * MovementSpeed * a2 &&
            r.y == pos.y - MovementSpeed * a3 &&
            r.z == pos.z + facing.x * MovementSpeed * a2
  {
  }

  /** For any other hand y never changes, and axis 3 alone moves x/z along the camera. */
  lemma SteerOtherHand(pos: Vec3, facing: Vec3, hand: string, axes: seq<real>)
    requires hand != "left"
    ensures var r := Steer(pos, facing, hand, axes);
            var a3 := if |axes| > 3 then axes[3] else 0.0;
            r.y == pos.y &&
            r.x == pos.x - facing.x * MovementSpeed * a3 &&
            r.z == pos.z - facing.z * MovementSpeed * a3
  {
  }

  /** For a hand other than the left one, the value on axis 2 changes no coordinate. */
  lemma Axis2IgnoredForOtherHands(pos: Vec3, facing: Vec3, hand: string, axes: seq<real>, v: real)
    requires hand != "left" && |axes| > 2
    ensures Steer(pos, facing, hand, axes[2 := v]) == Steer(pos, facing, hand, axes)
  {
    var changed := axes[2 := v];
    assert AfterAxis2(pos, facing, hand, changed) == pos == AfterAxis2(pos, facing, hand, axes);
    assert |changed| == |axes| && (|axes| > 3 ==> changed[3] == axes[3]);
    assert AfterAxis3(pos, facing, hand, changed) == AfterAxis3(pos, facing, hand, axes);
  }

  /** For the left hand, the value on axis 3 changes only y. */
  lemma Axis3MovesOnlyYForLeft(pos: Vec3, facing: Vec3, axes: seq<real>, v: real)
    requires |axes| > 3
    ensures var a := Steer(pos, facing, "left", axes[3 := v]);
            var b := Steer(pos, facing, "left", axes);
            a.x == b.x && a.z == b.z
  {
  }

  /** The `forEach` over the axes as the source runs it, index by index. */
  method SteerLoop(pos: Vec3, facing: Vec3, hand: string, axes: seq<real>) returns (p: Vec3)
    ensures p == Steer(pos, facing, hand, axes)
  {
    p := pos;
    for i := 0 to |axes|
      invariant i <= 2 ==> p == pos
      invariant i == 3 ==> p == AfterAxis2(pos, facing, hand, axes)
      invariant i >= 4 ==> p == Steer(pos, facing, hand, axes)
    {
      if i == 2 && hand == "left" {
        p := p.(x := p.x - facing.z * MovementSpeed * axes[2]);
        p := p.(z := p.z + facing.x * MovementSpeed * axes[2]);
      }
      if i == 3 {
        if hand == "left" {
          p := p.(y := p.y - MovementSpeed * axes[3]);
        } else {
          p := p.(x := p.x - facing.x * MovementSpeed * axes[3]);
          p := p.(z := p.z - facing.z * MovementSpeed * axes[3]);
        }
      }
    }
  }

  /**
   * Which file's `movePlayer`. Before the astronaut loads, `Game` throws at
   * `mixer.current.update` (its `if (mixer)` tests the ref object, which is
   * always truthy), while `Demo` skips the unset `mixer` and throws only when
   * the `forEach` reaches `player.position` with `player` still undefined.
   */
  datatype Variant = Game | Demo

  /** What `movePlayer` reads and writes: the player position, `prevGamePads`, and the number of `mixer.update` calls. */
  datatype Rig = Rig(position: Vec3, pads: map<nat, PadSample>, mixerTicks: nat)

  /** The state after a step, and whether the step threw. A throw leaves the state as it was when it happened. */
  datatype Step = Step(rig: Rig, threw: bool)

  /** Whether handling a source that has a previous sample throws because the astronaut has not loaded. */
  predicate ThrowsUnloaded(v: Variant, hand: string, axes: seq<real>) {
    v == Game || (|axes| > 2 && hand == "left") || |axes| > 3
  }

  /** The loop body for one source, with `hand` the handedness already carried to it. */
  function Visit(v: Variant, loaded: bool, rig: Rig, facing: Vec3, hand: string, source: InputSource): (r: Step)
    ensures source.gamepad.None? ==> r == Step(rig, false)
    ensures source.gamepad.Some? && source.id !in rig.pads ==>
      r == Step(rig.(pads := rig.pads[source.id := PadSample(hand, source.gamepad.value)]), false)
    ensures r.threw <==>
      source.gamepad.Some? && source.id in rig.pads && !loaded && ThrowsUnloaded(v, hand, source.gamepad.value)
    ensures r.threw ==> r.rig == rig
    ensures !r.threw && source.gamepad.Some? ==> r.rig.pads == rig.pads[source.id := PadSample(hand, source.gamepad.value)]
    ensures !r.threw ==>
      r.rig.mixerTicks == rig.mixerTicks + (if source.gamepad.Some? && source.id in rig.pads && loaded then 1 else 0)
  {
    match source.gamepad
    case None => Step(rig, false)
    case Some(axes) =>
      var data := PadSample(hand, axes);
      if source.id !in rig.pads then Step(rig.(pads := rig.pads[source.id := data]), false)
      else if !loaded && ThrowsUnloaded(v, hand, axes) then Step(rig, true)
      else
        var ticks := if loaded then rig.mixerTicks + 1 else rig.mixerTicks;
        Step(Rig(Steer(rig.position, facing, hand, axes), rig.pads[source.id := data], ticks), false)
  }

  /** A source's first sample is recorded and moves nothing; a later one moves by `Steer`. */
  lemma VisitMoves(v: Variant, loaded: bool, rig: Rig, facing: Vec3, hand: string, source: InputSource)
    ensures var r := Visit(v, loaded, rig, facing, hand, source);
            !r.threw ==>
            r.rig.position ==
              (if source.gamepad.Some? && source.id in rig.pads
               then Steer(rig.position, facing, hand, source.gamepad.value)
               else rig.position)
  {
  }

  /** Before the astronaut loads, a `Demo` source whose axes never reach the player leaves the position where it was. */
  lemma UnloadedDemoStaysPut(rig: Rig, facing: Vec3, hand: string, source: InputSource)
    requires source.gamepad.Some? && source.id in rig.pads
    requires !ThrowsUnloaded(Demo, hand, source.gamepad.value)
    ensures Visit(Demo, false, rig, facing, hand, source) ==
      Step(rig.(pads := rig.pads[source.id := PadSample(hand, source.gamepad.value)]), false)
  {
  }

  /** The `for...of` over the sources from the current one on, stopping at the first throw. */
  function RunFrom(v: Variant, loaded: bool, rig: Rig, facing: Vec3, hand: string, sources: seq<InputSource>): Step
    decreases |sources|
  {
    if sources == [] then Step(rig, false)
    else
      var h := Handedness(hand, sources[0]);
      var s := Visit(v, loaded, rig, facing, h, sources[0]);
      if s.threw then s else RunFrom(v, loaded, s.rig, facing, h, sources[1..])
  }

  /**
   * `movePlayer()` as a reference definition: nothing without a session,
   * a throw when `isIterable` throws, nothing when the sources are not
   * iterable, and otherwise the loop starting from handedness `unknown`.
   */
  function Move(v: Variant, loaded: bool, rig: Rig, facing: Vec3, session: Option<Sources>): (r: Step)
    ensures session.None? ==> r == Step(rig, false)
    ensures session.Some? && session.value == UndefinedSources ==> r == Step(rig, true)
  {
    match session
    case None => Step(rig, false)
    case Some(sources) =>
      match IsIterable(sources)
      case None => Step(rig, true)
      case Some(iterable) =>
        if iterable then RunFrom(v, loaded, rig, facing, "unknown", sources.items) else Step(rig, false)
  }

  /** The handedness carried to source `i`: that of the latest source up to `i` that reports one, else `hand`. */
  function CarriedHand(hand: string, sources: seq<InputSource>, i: nat): string
    requires i < |sources|
    decreases i
  {
    var before := if i == 0 then hand else CarriedHand(hand, sources, i - 1);
    Handedness(before, sources[i])
  }

  /** Handedness carries forward: a source that reports none inherits from the latest earlier source that did. */
  lemma {:induction false} CarriedHandIsLatest(hand: string, sources: seq<InputSource>, i: nat, j: nat)
    requires j <= i < |sources|
    requires sources[j].handedness != ""
    requires forall k :: j < k <= i ==> sources[k].handedness == ""
    ensures CarriedHand(hand, sources, i) == sources[j].handedness
    decreases i
  {
    if i > j {
      CarriedHandIsLatest(hand, sources, i - 1, j);
    }
  }

  /** With no source up to `i` reporting a handedness, source `i` still sees the initial one. */
  lemma {:induction false} CarriedHandDefault(hand: string, sources: seq<InputSource>, i: nat)
    requires i < |sources|
    requires forall k :: 0 <= k <= i ==> sources[k].handedness == ""
    ensures CarriedHand(hand, sources, i) == hand
    decreases i
  {
    if i > 0 {
      CarriedHandDefault(hand, sources, i - 1);
    }
  }

  /** Every source after the first sees the handedness carried from the ones before it. */
  lemma CarriedHandShift(hand: string, sources: seq<InputSource>, i: nat)
    requires 0 < i < |sources|
    ensures CarriedHand(hand, sources, i) == CarriedHand(Handedness(hand, sources[0]), sources[1..], i - 1)
    decreases i
  {
    if i > 1 {
      CarriedHandShift(hand, sources, i - 1);
    }
  }

  /** Distinct sources are distinct objects, so each has its own `prevGamePads` key. */
  predicate DistinctIds(sources: seq<InputSource>) {
    forall i, j :: 0 <= i < j < |sources| ==> sources[i].id != sources[j].id
  }

  /**
   * A loop that does not throw ends with every gamepad source recorded in
   * `prevGamePads` with its own axes and the handedness carried to it, and
   * with every other key as it was.
   */
  lemma {:induction false} RunRecordsEverySource(v: Variant, loaded: bool, rig: Rig, facing: Vec3, hand: string,
                                                 sources: seq<InputSource>)
    requires DistinctIds(sources)
    requires !RunFrom(v, loaded, rig, facing, hand, sources).threw
    ensures var pads := RunFrom(v, loaded, rig, facing, hand, sources).rig.pads;
            (forall i :: 0 <= i < |sources| && sources[i].gamepad.Some? ==>
               sources[i].id in pads &&
               pads[sources[i].id] == PadSample(CarriedHand(hand, sources, i), sources[i].gamepad.value)) &&
            (forall id :: id in rig.pads && (forall i :: 0 <= i < |sources| ==> sources[i].id != id) ==>
               id in pads && pads[id] == rig.pads[id]) &&
            (forall id :: id in pads ==> id in rig.pads || exists i :: 0 <= i < |sources| && sources[i].id == id)
    decreases |sources|
  {
    if sources != [] {
      var h := Handedness(hand, sources[0]);
      var s := Visit(v, loaded, rig, facing, h, sources[0]);
      var rest := sources[1..];
      assert DistinctIds(rest) by {
        forall i, j | 0 <= i < j < |rest| ensures rest[i].id != rest[j].id {
          assert rest[i] == sources[i + 1] && rest[j] == sources[j + 1];
        }
      }
      RunRecordsEverySource(v, loaded, s.rig, facing, h, rest);
      var pads := RunFrom(v, loaded, rig, facing, hand, sources).rig.pads;
      assert pads == RunFrom(v, loaded, s.rig, facing, h, rest).rig.pads;
      forall i | 0 <= i < |sources| && sources[i].gamepad.Some?
        ensures sources[i].id in pads
        ensures pads[sources[i].id] == PadSample(CarriedHand(hand, sources, i), sources[i].gamepad.value)
      {
        if i == 0 {
          forall k | 0 <= k < |rest| ensures rest[k].id != sources[0].id {
            assert rest[k] == sources[k + 1];
          }
        } else {
          assert rest[i - 1] == sources[i];
          CarriedHandShift(hand, sources, i);
        }
      }
      forall id | id in pads
        ensures id in rig.pads || exists i :: 0 <= i < |sources| && sources[i].id == id
      {
        if id !in rig.pads && id != sources[0].id {
          var k :| 0 <= k < |rest| && rest[k].id == id;
          assert sources[k + 1].id == id;
        }
      }
      forall id | id in rig.pads && (forall i :: 0 <= i < |sources| ==> sources[i].id != id)
        ensures id in pads && pads[id] == rig.pads[id]
      {
        forall k | 0 <= k < |rest| ensures rest[k].id != id {
          assert rest[k] == sources[k + 1];
        }
      }
    }
  }

  /** Before the astronaut loads, a loop that does not throw never updates the mixer. */
  lemma {:induction false} RunTicksOnlyWhenLoaded(v: Variant, rig: Rig, facing: Vec3, hand: string, sources: seq<InputSource>)
    requires !RunFrom(v, false, rig, facing, hand, sources).threw
    ensures RunFrom(v, false, rig, facing, hand, sources).rig.mixerTicks == rig.mixerTicks
    decreases |sources|
  {
    if sources != [] {
      var h := Handedness(hand, sources[0]);
      var s := Visit(v, false, rig, facing, h, sources[0]);
      RunTicksOnlyWhenLoaded(v, s.rig, facing, h, sources[1..]);
    }
  }

  /** In `Game`, before the astronaut loads, any source with a previous sample makes the loop throw. */
  lemma GameThrowsBeforeLoad(rig: Rig, facing: Vec3, hand: string, source: InputSource)
    requires source.gamepad.Some? && source.id in rig.pads
    ensures Visit(Game, false, rig, facing, hand, source).threw
  {
  }

  /** Sources that all see their first sample only record, whatever has loaded: the position and mixer stay. */
  lemma {:induction false} FirstSamplesNeverMove(v: Variant, loaded: bool, rig: Rig, facing: Vec3, hand: string,
                                                 sources: seq<InputSource>)
    requires DistinctIds(sources)
    requires forall i :: 0 <= i < |sources| ==> sources[i].id !in rig.pads
    ensures var r := RunFrom(v, loaded, rig, facing, hand, sources);
            !r.threw && r.rig.position == rig.position && r.rig.mixerTicks == rig.mixerTicks
    decreases |sources|
  {
    if sources != [] {
      var h := Handedness(hand, sources[0]);
      var s := Visit(v, loaded, rig, facing, h, sources[0]);
      var rest := sources[1..];
      assert DistinctIds(rest) by {
        forall i, j | 0 <= i < j < |rest| ensures rest[i].id != rest[j].id {
          assert rest[i] == sources[i + 1] && rest[j] == sources[j + 1];
        }
      }
      forall i | 0 <= i < |rest| ensures rest[i].id !in s.rig.pads {
        assert rest[i] == sources[i + 1];
      }
      FirstSamplesNeverMove(v, loaded, s.rig, facing, h, rest);
    }
  }

  /** `Math.PI`. */
  const Pi: real := 3.141592653589793

  /** The astronaut's `rotation.y` after `rotatePlayer`, given `Math.atan2(diffX, diffZ)` as `bearing`; unchanged until it has loaded. */
  function Rotated(loaded: bool, heading: real, bearing: real): real
  {
    if loaded then bearing + Pi else heading
  }

  /**
   * Once loaded, the heading depends on the bearing alone: the previous
   * heading is forgotten, and rotating again towards the same bearing
   * changes nothing. Before loading, no bearing changes the heading.
   */
  lemma RotatedSettles(heading: real, other: real, bearing: real, later: real)
    ensures Rotated(true, heading, bearing) == Rotated(true, other, bearing)
    ensures Rotated(true, Rotated(true, heading, bearing), bearing) == Rotated(true, heading, bearing)
    ensures Rotated(false, heading, bearing) == Rotated(false, heading, later) == heading
    ensures bearing != later ==> Rotated(true, heading, bearing) != Rotated(true, heading, later)
  {
  }
}
