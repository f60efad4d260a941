/**
 * The multiplayer scene (`src/components/Engine/index.js`): the registry of
 * remote players fed by store events, the lobby-settings HUD, and the
 * per-frame tick that moves the local player, reverts a move off the nav
 * mesh and publishes the result to the store.
 *
 * Store events are handler calls on this state, one at a time. A snapshot
 * whose `val()` is `null` is `None`. A handler that throws a `TypeError`
 * keeps every change it made before the throw.
 */
module Engine {
  import opened Js
  import Floor
  import CreateHud

  /** An object in the scene, by identity. */
  type MeshId = nat

  /** The value of a `players/{name}` child: its `username` and the rest, which only the remote `Player` reads. */
  datatype PlayerData = PlayerData(username: Value, body: map<string, Value>)

  /**
   * A registry entry: the `Player` made from the `child_added` data, the
   * data it was last updated with, its mesh, and whether its `mixer` exists.
   */
  datatype RemotePlayer = RemotePlayer(origin: PlayerData, latest: PlayerData, mesh: MeshId, hasMixer: bool)

  /** A stored `rotation` object. */
  datatype Rotation = Rotation(x: Option<real>, y: Option<real>, z: Option<real>)

  /** A stored `players/{name}` record: the children the tick writes, and every other child. */
  datatype Stored = Stored(position: Option<Vec3>, rotation: Option<Rotation>, rest: map<string, Value>)

  /** The key `players.current[data.username]` uses: the property-key rendering of the username. */
  function KeyOf(username: Value): string {
    ToString(username)
  }

  /** The store path of a player's record, relative to `lobbies/{id}`. */
  function PlayerPath(key: string): string {
    "players/" + key
  }

  /**
   * `ref.child('players/' + name).update({ position: {x, y, z}, rotation: { y } })`:
   * `update` replaces each named child whole, so the stored rotation keeps
   * only `y`, and the record's other children are untouched.
   */
  function Publish(record: Option<Stored>, position: Vec3, rotationY: real): (r: Stored)
    ensures r.position == Some(position)
    ensures r.rotation == Some(Rotation(None, Some(rotationY), None))
    ensures r.rest == (if record.Some? then record.value.rest else map[])
  {
    var rest := if record.Some? then record.value.rest else map[];
    Stored(Some(position), Some(Rotation(None, Some(rotationY), None)), rest)
  }

  /** Publishing is a pure overwrite of the two children: publishing twice is publishing the second time. */
  lemma PublishOverwrites(record: Option<Stored>, p1: Vec3, y1: real, p2: Vec3, y2: real)
    ensures Publish(Some(Publish(record, p1, y1)), p2, y2) == Publish(record, p2, y2)
  {
  }

  /** A HUD mesh in `hudScene`, by identity. */
  datatype HudObject = HudObject(serial: nat, mesh: CreateHud.HudMesh)

  class World {
    /** The local `username` from the app context. */
    const username: Value
    /** `window.innerWidth` and `window.innerHeight`, the defaults of `createHud`. */
    const innerWidth: int
    const innerHeight: int

    /** `player.current.position` and `player.current.rotation.y`. */
    var position: Vec3
    var rotationY: real
    /** `player.current.speed`. */
    var speed: Value
    /** How many `Controls` have been built. */
    var controlsBuilt: nat

    /** `players.current`, keyed by username. */
    var players: map<string, RemotePlayer>
    /** The remote-player meshes in `scene.current`. */
    var scene: set<MeshId>
    /** The paths with `updatePlayer` attached to `value`. */
    var valueListeners: set<string>
    /** `lobbies/{id}/players` in the store. */
    var store: map<string, Stored>
    /** Identities for new meshes. */
    var nextMesh: nat

    /** `hud.current` and the HUD meshes in `hudScene.current`. */
    var hud: Option<HudObject>
    var hudScene: set<HudObject>
    var nextHud: nat

    /** Whether `renderer.current.setAnimationLoop(animate)` is in force. */
    var looping: bool

    /**
     * What every handler keeps true: each entry sits under the key of the
     * username it was created from, that username is never the local one,
     * and the HUD scene holds at most the current HUD.
     */
    ghost predicate Valid()
      reads this
    {
      (forall k :: k in players ==> KeyOf(players[k].origin.username) == k && players[k].origin.username != username) &&
      (forall k :: k in players ==> players[k].mesh < nextMesh) &&
      (forall m :: m in scene ==> m < nextMesh) &&
      hudScene <= (if hud.Some? then {hud.value} else {}) &&
      (hud.Some? ==> hud.value.serial < nextHud)
    }

    /** The component as mounted: the local player at the origin with speed 1, an empty registry and no HUD. */
    constructor (username: Value, innerWidth: int, innerHeight: int, store: map<string, Stored>)
      ensures Valid()
      ensures this.username == username && this.innerWidth == innerWidth && this.innerHeight == innerHeight
      ensures this.store == store && players == map[] && scene == {} && valueListeners == {}
      ensures hud == None && hudScene == {} && speed == Int(1) && controlsBuilt == 1 && looping
    {
      this.username, this.innerWidth, this.innerHeight := username, innerWidth, innerHeight;
      position, rotationY, speed, controlsBuilt := Vec3(0.0, 0.0, 0.0), 0.0, Int(1), 1;
      players, scene, valueListeners, this.store, nextMesh := map[], {}, {}, store, 0;
      hud, hudScene, nextHud := None, {}, 0;
      looping := true;
    }

    /**
     * The `child_added` handler: a player is created, its mesh added and
     * `updatePlayer` attached, only for a username that is not the local
     * one and has no entry yet.
     */
    method OnChildAdded(snap: Option<PlayerData>)
      requires Valid()
      modifies this
      ensures Valid()
      ensures var creates := snap.Some? && snap.value.username != username && KeyOf(snap.value.username) !in old(players);
              if creates then
                var key := KeyOf(snap.value.username);
                players == old(players)[key := RemotePlayer(snap.value, snap.value, old(nextMesh), false)] &&
                scene == old(scene) + {old(nextMesh)} &&
                valueListeners == old(valueListeners) + {PlayerPath(key)}
              else
                players == old(players) && scene == old(scene) && valueListeners == old(valueListeners)
      ensures store == old(store) && position == old(position) && hud == old(hud) && hudScene == old(hudScene)
      ensures speed == old(speed) && looping == old(looping)
      ensures rotationY == old(rotationY) && controlsBuilt == old(controlsBuilt)
    {
      if snap.None? {
        return;
      }
      var data := snap.value;
      if data.username != username && KeyOf(data.username) !in players {
        CreatePlayer(data);
        valueListeners := valueListeners + {PlayerPath(KeyOf(data.username))};
      }
    }

    /** `createPlayer(data)`: register a new `Player` under its username and add its mesh to the scene. */
    method CreatePlayer(data: PlayerData)
      requires Valid() && data.username != username
      modifies this
      ensures Valid()
      ensures players == old(players)[KeyOf(data.username) := RemotePlayer(data, data, old(nextMesh), false)]
      ensures scene == old(scene) + {old(nextMesh)} && nextMesh == old(nextMesh) + 1
      ensures valueListeners == old(valueListeners) && store == old(store) && position == old(position)
      ensures hud == old(hud) && hudScene == old(hudScene) && speed == old(speed) && looping == old(looping)
      ensures rotationY == old(rotationY) && controlsBuilt == old(controlsBuilt)
    {
      players := players[KeyOf(data.username) := RemotePlayer(data, data, nextMesh, false)];
      scene := scene + {nextMesh};
      nextMesh := nextMesh + 1;
    }

    /** The remote `Player`'s own loader finishing: its `mixer` now exists. */
    method OnMixerReady(key: string)
      requires Valid()
      modifies this
      ensures Valid()
      ensures key in old(players) ==> players == old(players)[key := old(players)[key].(hasMixer := true)]
      ensures key !in old(players) ==> players == old(players)
      ensures scene == old(scene) && valueListeners == old(valueListeners) && store == old(store)
      ensures position == old(position) && hud == old(hud) && hudScene == old(hudScene)
      ensures speed == old(speed) && looping == old(looping)
      ensures rotationY == old(rotationY) && controlsBuilt == old(controlsBuilt)
    {
      if key in players {
        players := players[key := players[key].(hasMixer := true)];
      }
    }

    /**
     * `updatePlayer(snap)`: null data does nothing; a username without an
     * entry throws at `player.mixer`; an entry is updated only if its
     * `mixer` exists. Returns whether it threw.
     */
    method UpdatePlayer(snap: Option<PlayerData>) returns (threw: bool)
      requires Valid()
      modifies this
      ensures Valid()
      ensures threw <==> snap.Some? && KeyOf(snap.value.username) !in old(players)
      ensures var key := if snap.Some? then KeyOf(snap.value.username) else "";
              if snap.Some? && key in old(players) && old(players)[key].hasMixer
              then players == old(players)[key := old(players)[key].(latest := snap.value)]
              else players == old(players)
      ensures scene == old(scene) && valueListeners == old(valueListeners) && store == old(store)
      ensures position == old(position) && hud == old(hud) && hudScene == old(hudScene)
      ensures speed == old(speed) && looping == old(looping)
      ensures rotationY == old(rotationY) && controlsBuilt == old(controlsBuilt)
    {
      if snap.None? {
        return false;
      }
      var key := KeyOf(snap.value.username);
      if key !in players {
        return true;
      }
      var player := players[key];
      if player.hasMixer {
        players := players[key := player.(latest := snap.value)];
      }
      threw := false;
    }

    /**
     * `removePlayer(snap)`: detaches `updatePlayer`, then removes the
     * entry's mesh from the scene (throwing when there is no entry). The
     * `indexOf`/`slice` pair leaves the registry as it was.
     */
    method RemovePlayer(snap: Option<PlayerData>) returns (threw: bool)
      requires Valid()
      modifies this
      ensures Valid()
      ensures players == old(players)
      ensures threw <==> snap.Some? && KeyOf(snap.value.username) !in old(players)
      ensures snap.None? ==> valueListeners == old(valueListeners) && scene == old(scene)
      ensures snap.Some? ==> valueListeners == old(valueListeners) - {PlayerPath(KeyOf(snap.value.username))}
      ensures snap.Some? && !threw ==> scene == old(scene) - {old(players)[KeyOf(snap.value.username)].mesh}
      ensures threw ==> scene == old(scene)
      ensures store == old(store) && position == old(position) && hud == old(hud) && hudScene == old(hudScene)
      ensures speed == old(speed) && looping == old(looping)
      ensures rotationY == old(rotationY) && controlsBuilt == old(controlsBuilt)
    {
      if snap.None? {
        return false;
      }
      var key := KeyOf(snap.value.username);
      valueListeners := valueListeners - {PlayerPath(key)};
      if key !in players {
        return true;
      }
      var player := players[key];
      scene := scene - {player.mesh};
      // `players.current.slice(playerIndex, 1)` builds a new array and discards it.
      threw := false;
    }

    /**
     * The `child_removed` handler returns `removePlayer` without calling it:
     * whatever the snapshot, no listener is detached and no mesh leaves the scene.
     */
    method OnChildRemoved(snap: Option<PlayerData>)
      modifies this
      ensures unchanged(this)
    {
    }

    /** The cleanup of the registry effect: only the local player's record is removed from the store. */
    method Teardown()
      requires Valid()
      modifies this
      ensures Valid()
      ensures store == old(store) - {KeyOf(username)}
      ensures players == old(players) && scene == old(scene) && valueListeners == old(valueListeners)
      ensures position == old(position) && hud == old(hud) && hudScene == old(hudScene)
      ensures speed == old(speed) && looping == old(looping)
      ensures rotationY == old(rotationY) && controlsBuilt == old(controlsBuilt)
    {
      store := store - {KeyOf(username)};
    }

    /**
     * `animate()`. `moved` and `turnedY` are where `controls.current.update()`
     * leaves the player; `hits` is the downward ray's hit count, or `None`
     * when the stage has no nav mesh. Every tick publishes, with no threshold.
     */
    method Animate(moved: Vec3, turnedY: real, hits: Option<nat>)
      requires Valid()
      modifies this
      ensures Valid()
      ensures position == Floor.Resolve(old(position), moved, hits) && rotationY == turnedY
      ensures var key := KeyOf(username);
              store == old(store)[key := Publish(if key in old(store) then Some(old(store)[key]) else None, position, turnedY)]
      ensures players == old(players) && scene == old(scene) && valueListeners == old(valueListeners)
      ensures hud == old(hud) && hudScene == old(hudScene) && speed == old(speed)
      ensures looping == old(looping) && controlsBuilt == old(controlsBuilt)
    {
      var oldPosition := position;
      position, rotationY := moved, turnedY;
      if hits.Some? {
        if hits.value == 0 {
          position := position.(x := position.x + (oldPosition.x - position.x));
          position := position.(z := position.z + (oldPosition.z - position.z));
        }
      }
      var key := KeyOf(username);
      var record := if key in store then Some(store[key]) else None;
      store := store[key := Publish(record, position, rotationY)];
    }

    /** The cleanup of the animation effect: `setAnimationLoop(null)`. */
    method StopLoop()
      requires Valid()
      modifies this
      ensures Valid()
      ensures !looping
      ensures position == old(position) && store == old(store) && players == old(players)
      ensures scene == old(scene) && valueListeners == old(valueListeners) && hud == old(hud) && hudScene == old(hudScene)
      ensures speed == old(speed) && rotationY == old(rotationY) && controlsBuilt == old(controlsBuilt)
    {
      looping := false;
    }

    /**
     * `updateHud(snap)` as written: it calls `createHud({ data })`, whose
     * `text` is then `undefined`, so drawing the HUD throws after the old
     * HUD was already removed. `hud.current` keeps the removed mesh.
     * Returns whether it threw.
     */
    method UpdateHudAsWritten(snap: Option<CreateHud.Settings>) returns (threw: bool)
      requires Valid()
      modifies this
      ensures Valid()
      ensures snap.None? ==> !threw && hud == old(hud) && hudScene == old(hudScene) && speed == old(speed)
      ensures snap.None? ==> controlsBuilt == old(controlsBuilt)
      ensures snap.Some? ==> threw && hud == old(hud) && hudScene == {}
      ensures snap.Some? ==> speed == Get(snap.value, "playerSpeed") && controlsBuilt == old(controlsBuilt) + 1
      ensures players == old(players) && scene == old(scene) && store == old(store) && position == old(position)
      ensures valueListeners == old(valueListeners) && looping == old(looping) && rotationY == old(rotationY)
    {
      if snap.None? {
        return false;
      }
      var data := snap.value;
      speed := Get(data, "playerSpeed");
      controlsBuilt := controlsBuilt + 1;
      if hud.Some? {
        hudScene := hudScene - {hud.value};
      }
      var built := CreateHud.CreateHud(CreateHud.HudArgs(None, None, innerWidth, innerHeight));
      assert built.Threw?;
      return true;
    }

    /**
     * `updateHud(snap)` with the settings passed as the HUD's `text`: the old
     * HUD is removed before the new one is added, so `hudScene` ends holding
     * exactly the new HUD, which shows the settings.
     */
    method UpdateHud(snap: Option<CreateHud.Settings>)
      requires Valid()
      modifies this
      ensures Valid()
      ensures snap.None? ==> hud == old(hud) && hudScene == old(hudScene) && speed == old(speed)
      ensures snap.None? ==> controlsBuilt == old(controlsBuilt)
      ensures snap.Some? ==> speed == Get(snap.value, "playerSpeed") && controlsBuilt == old(controlsBuilt) + 1
      ensures snap.Some? ==> hud.Some? && hudScene == {hud.value} && hud.value.serial == old(nextHud)
      ensures snap.Some? ==>
        hud.value.mesh.texture == CreateHud.TextTexture(CreateHud.HudCanvas(snap.value, innerWidth, innerHeight))
      ensures players == old(players) && scene == old(scene) && store == old(store) && position == old(position)
      ensures valueListeners == old(valueListeners) && looping == old(looping) && rotationY == old(rotationY)
    {
      if snap.None? {
        return;
      }
      var data := snap.value;
      speed := Get(data, "playerSpeed");
      controlsBuilt := controlsBuilt + 1;
      if hud.Some? {
        hudScene := hudScene - {hud.value};
      }
      assert hudScene == {};
      var built := CreateHud.CreateHud(CreateHud.HudArgs(Some(data), None, innerWidth, innerHeight));
      AddHud(built.mesh);
    }

    /** `hud.current = createHud(...)` then `hudScene.current.add(hud.current)`, on an emptied HUD scene. */
    method AddHud(mesh: CreateHud.HudMesh)
      requires Valid() && hudScene == {}
      modifies this
      ensures Valid()
      ensures hud == Some(HudObject(old(nextHud), mesh)) && hudScene == {hud.value}
      ensures players == old(players) && scene == old(scene) && store == old(store) && position == old(position)
      ensures valueListeners == old(valueListeners) && looping == old(looping) && rotationY == old(rotationY)
      ensures speed == old(speed) && controlsBuilt == old(controlsBuilt)
    {
      var created := HudObject(nextHud, mesh);
      hud := Some(created);
      nextHud := nextHud + 1;
      hudScene := hudScene + {created};
    }
  }

  /** The invariant in words: the HUD scene never holds more than one HUD. */
  lemma HudSceneAtMostOne(w: World)
    requires w.Valid()
    ensures |w.hudScene| <= 1
  {
    var allowed := if w.hud.Some? then {w.hud.value} else {};
    assert |allowed| <= 1;
    SubsetCardinality(w.hudScene, allowed);
  }

  lemma SubsetCardinality<T>(a: set<T>, b: set<T>)
    requires a <= b
    ensures |a| <= |b|
  {
    assert b == a + (b - a);
  }

  /** As written, every non-null settings snapshot makes `createHud` throw: the HUD is never drawn. */
  lemma HudAsWrittenAlwaysThrows(width: int, height: int)
    ensures CreateHud.HudFor(CreateHud.HudArgs(None, None, width, height)).Threw?
  {
  }

  /** With the settings as `text`, `createHud` always yields a HUD mesh showing the sixteen settings lines. */
  lemma HudWithTextIsDrawn(data: CreateHud.Settings, width: int, height: int)
    ensures var r := CreateHud.HudFor(CreateHud.HudArgs(Some(data), None, width, height));
            r.Mesh? && r.mesh.texture.TextTexture? && |r.mesh.texture.canvas.drawn| == 16
  {
    CreateHud.LinesDescend(data, width, height);
  }
}
