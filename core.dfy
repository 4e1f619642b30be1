/**
 * `GLEngine` of modules/core.py: the keyboard state machine, the elapsed
 * time, the mouse gate and the per-frame walk over the scenes. The window,
 * the clock that delivers the callbacks, the debug GUI and the printed
 * messages are not modelled; the GL context is reduced to the flags the
 * engine sets on it and a log of its clear and flip calls.
 */
module Core {
  import opened GlMath
  import Camera
  import Scene
  import Model

  /** The key symbols the engine tests for; any other key is `Other`. */
  datatype Key =
    | J | K | R | L | M
    | Z | S | Q | D | A | E | Right | Left | Up | Down
    | Other(code: int)

  /** The movement keys, in the order `handle_key_pressed` tests them. */
  const MoveKeys: seq<Key> := [Z, S, Q, D, A, E, Right, Left, Up, Down]

  /** The ten keys that move the camera while held. */
  predicate IsMoveKey(k: Key)
  {
    k.Z? || k.S? || k.Q? || k.D? || k.A? || k.E? || k.Right? || k.Left? || k.Up? || k.Down?
  }

  /** The direction `handle_key_pressed` passes to `camera.move` for a held key. */
  function Direction(k: Key): string
  {
    if k == Z then "forward"
    else if k == S then "backward"
    else if k == Q then "straf_left"
    else if k == D then "straf_right"
    else if k == A then "straf_up"
    else if k == E then "straf_down"
    else if k == Right then "right"
    else if k == Left then "left"
    else if k == Up then "up"
    else if k == Down then "down"
    else ""
  }

  /** `self._keys_state.get(k)` is truthy: the key is present and True. */
  predicate Held(keys: map<Key, bool>, k: Key)
  {
    k in keys && keys[k]
  }

  /** What the key handlers change: the three toggles, the GL wireframe flag and the held-key map. */
  datatype Controls = Controls(debug: bool, wireMode: bool, mouseControls: bool, wireframe: bool, keys: map<Key, bool>)

  /** `on_key_press` on the controls: each toggle flips exactly when its key is pressed, and only a movement key touches the held keys. */
  function OnPress(c: Controls, k: Key): (r: Controls)
    ensures r.debug != c.debug <==> k == J
    ensures r.wireMode != c.wireMode <==> k == K
    ensures r.mouseControls != c.mouseControls <==> k == M
    ensures k == K ==> r.wireframe == r.wireMode
    ensures k != K ==> r.wireframe == c.wireframe
    ensures r.keys != c.keys ==> IsMoveKey(k)
  {
    if k == J then c.(debug := !c.debug)
    else if k == K then c.(wireMode := !c.wireMode, wireframe := !c.wireMode)
    else if k == M then c.(mouseControls := !c.mouseControls)
    else if IsMoveKey(k) then c.(keys := c.keys[k := true])
    else c
  }

  /** The camera calls `on_key_press` makes: R resets the camera, L looks at the scene. */
  function PressCalls(k: Key): seq<Camera.Call>
  {
    if k == R then [Camera.ResetCall] else if k == L then [Camera.LookAtSceneCall] else []
  }

  /** `on_key_release` on the controls: a movement key is no longer held, and nothing else changes. */
  function OnRelease(c: Controls, k: Key): (r: Controls)
    ensures IsMoveKey(k) ==> !Held(r.keys, k)
    ensures r.(keys := c.keys) == c
    ensures !IsMoveKey(k) ==> r == c
  {
    if IsMoveKey(k) then c.(keys := c.keys[k := false]) else c
  }

  /** One `if` of `handle_key_pressed`: a move in k's direction when k is held. */
  function Step(keys: map<Key, bool>, k: Key, dt: real): seq<Camera.Call>
  {
    if Held(keys, k) then [Camera.MoveCall(Direction(k), dt)] else []
  }

  /** The moves the first n `if`s of `handle_key_pressed` issue: those of MoveKeys[..n], in order. */
  function MovesUpTo(keys: map<Key, bool>, n: nat, dt: real): seq<Camera.Call>
    requires n <= |MoveKeys|
  {
    if n == 0 then [] else MovesUpTo(keys, n - 1, dt) + Step(keys, MoveKeys[n - 1], dt)
  }

  /** `handle_key_pressed`: one move per held movement key, in the order of MoveKeys. */
  function MovesOf(keys: map<Key, bool>, dt: real): (r: seq<Camera.Call>)
    ensures |r| <= |MoveKeys|
    ensures forall j :: 0 <= j < |MoveKeys| ==>
              multiset(r)[Camera.MoveCall(Direction(MoveKeys[j]), dt)] == if Held(keys, MoveKeys[j]) then 1 else 0
  {
    MovesShape(keys, |MoveKeys|, dt);
    MovesUpTo(keys, |MoveKeys|, dt)
  }

  /** The sum of the tick lengths. */
  function Sum(ticks: seq<real>): real
  {
    if ticks == [] then 0.0 else Sum(ticks[..|ticks| - 1]) + ticks[|ticks| - 1]
  }

  /** Pressing a movement key marks it held and changes nothing else. */
  lemma PressHolds(c: Controls, k: Key)
    requires IsMoveKey(k)
    ensures Held(OnPress(c, k).keys, k)
    ensures forall other :: other != k ==> (other in OnPress(c, k).keys <==> other in c.keys)
    ensures forall other :: other != k && other in c.keys ==> OnPress(c, k).keys[other] == c.keys[other]
    ensures OnPress(c, k).(keys := c.keys) == c
  {
  }

  /** Releasing a movement key marks it not held and changes nothing else. */
  lemma ReleaseClears(c: Controls, k: Key)
    requires IsMoveKey(k)
    ensures !Held(OnRelease(c, k).keys, k) && k in OnRelease(c, k).keys
    ensures forall other :: other != k ==> (other in OnRelease(c, k).keys <==> other in c.keys)
    ensures forall other :: other != k && other in c.keys ==> OnRelease(c, k).keys[other] == c.keys[other]
    ensures OnRelease(c, k).(keys := c.keys) == c
  {
  }

  /** A key that is not a movement key leaves the held-key map as it is, on press and on release. */
  lemma OtherKeysKeepHeld(c: Controls, k: Key)
    requires !IsMoveKey(k)
    ensures OnPress(c, k).keys == c.keys
    ensures OnRelease(c, k) == c
  {
  }

  /** J and M flip their flag and touch nothing else; pressing either twice restores the controls. */
  lemma ToggleTwice(c: Controls, k: Key)
    requires k == J || k == M
    ensures k == J ==> OnPress(c, k) == c.(debug := !c.debug)
    ensures k == M ==> OnPress(c, k) == c.(mouseControls := !c.mouseControls)
    ensures OnPress(OnPress(c, k), k) == c
  {
  }

  /**
   * K flips wire mode and sets the GL wireframe flag to its new value;
   * pressing it twice restores wire mode, and the wireframe flag then
   * agrees with it.
   */
  lemma WireToggle(c: Controls)
    ensures OnPress(c, K).wireMode == !c.wireMode && OnPress(c, K).wireframe == OnPress(c, K).wireMode
    ensures OnPress(c, K).(wireMode := c.wireMode, wireframe := c.wireframe) == c
    ensures OnPress(OnPress(c, K), K) == c.(wireframe := c.wireMode)
  {
  }

  /** Only R and L reach the camera on a key press, with one call each. */
  lemma PressCallsOnly(k: Key)
    ensures |PressCalls(k)| <= 1
    ensures PressCalls(k) != [] <==> k == R || k == L
  {
  }

  /** The moves of the first n keys come first: they are a prefix of the moves of the first m, for n <= m. */
  lemma {:induction false} MovesPrefix(keys: map<Key, bool>, n: nat, m: nat, dt: real)
    requires n <= m <= |MoveKeys|
    ensures |MovesUpTo(keys, n, dt)| <= |MovesUpTo(keys, m, dt)|
    ensures MovesUpTo(keys, m, dt)[..|MovesUpTo(keys, n, dt)|] == MovesUpTo(keys, n, dt)
  {
    if n < m {
      MovesPrefix(keys, n, m - 1, dt);
    }
  }

  /**
   * Every move issued is a `move` call with the tick's dt, and the move of
   * each of the first n keys that is held is issued exactly once.
   */
  lemma {:induction false} MovesShape(keys: map<Key, bool>, n: nat, dt: real)
    requires n <= |MoveKeys|
    ensures |MovesUpTo(keys, n, dt)| <= n
    ensures forall c :: c in MovesUpTo(keys, n, dt) ==> c.MoveCall? && c.dt == dt
    ensures forall j :: 0 <= j < |MoveKeys| ==>
              multiset(MovesUpTo(keys, n, dt))[Camera.MoveCall(Direction(MoveKeys[j]), dt)] ==
              if j < n && Held(keys, MoveKeys[j]) then 1 else 0
  {
    if n > 0 {
      MovesShape(keys, n - 1, dt);
    }
    forall j | 0 <= j < |MoveKeys|
      ensures multiset(MovesUpTo(keys, n, dt))[Camera.MoveCall(Direction(MoveKeys[j]), dt)] ==
              if j < n && Held(keys, MoveKeys[j]) then 1 else 0
    {
      MovesCount(keys, n, j, dt);
    }
  }

  /** Every move issued is the move of one of the first n keys that is held: nothing else is issued. */
  lemma {:induction false} MovesFrom(keys: map<Key, bool>, n: nat, dt: real)
    requires n <= |MoveKeys|
    ensures forall c :: c in MovesUpTo(keys, n, dt) ==>
              exists j :: 0 <= j < n && Held(keys, MoveKeys[j]) && c == Camera.MoveCall(Direction(MoveKeys[j]), dt)
  {
    if n > 0 {
      MovesFrom(keys, n - 1, dt);
    }
  }

  /** Key j's move occurs once among the moves of the first n keys when j < n and the key is held, and otherwise not at all. */
  lemma {:induction false} MovesCount(keys: map<Key, bool>, n: nat, j: nat, dt: real)
    requires n <= |MoveKeys| && j < |MoveKeys|
    ensures multiset(MovesUpTo(keys, n, dt))[Camera.MoveCall(Direction(MoveKeys[j]), dt)] ==
            if j < n && Held(keys, MoveKeys[j]) then 1 else 0
  {
    if n > 0 {
      var c := Camera.MoveCall(Direction(MoveKeys[j]), dt);
      MovesCount(keys, n - 1, j, dt);
      StepCount(keys, MoveKeys[n - 1], c, dt);
      if j != n - 1 {
        DirectionsDistinct(j, n - 1);
      }
      assert multiset(MovesUpTo(keys, n, dt))[c] == multiset(MovesUpTo(keys, n - 1, dt))[c] + multiset(Step(keys, MoveKeys[n - 1], dt))[c];
    }
  }

  /** One `if` of `handle_key_pressed` issues the call c once when its key is held and c is that key's move, and otherwise not at all. */
  lemma StepCount(keys: map<Key, bool>, k: Key, c: Camera.Call, dt: real)
    ensures multiset(Step(keys, k, dt))[c] == if Held(keys, k) && c == Camera.MoveCall(Direction(k), dt) then 1 else 0
  {
  }

  /** With none of the first n keys held, nothing is issued. */
  lemma {:induction false} MovesNone(keys: map<Key, bool>, n: nat, dt: real)
    requires n <= |MoveKeys|
    requires forall j :: 0 <= j < n ==> !Held(keys, MoveKeys[j])
    ensures MovesUpTo(keys, n, dt) == []
  {
    if n > 0 {
      MovesNone(keys, n - 1, dt);
    }
  }

  /** Among the first n keys, key j is moved exactly when it is held; a key from n on is not moved. */
  lemma {:induction false} MovesHeld(keys: map<Key, bool>, n: nat, j: nat, dt: real)
    requires n <= |MoveKeys| && j < |MoveKeys|
    ensures Camera.MoveCall(Direction(MoveKeys[j]), dt) in MovesUpTo(keys, n, dt) <==> j < n && Held(keys, MoveKeys[j])
  {
    if n > 0 {
      MovesHeld(keys, n - 1, j, dt);
      if j != n - 1 {
        DirectionsDistinct(j, n - 1);
      }
    }
  }

  /** The ten movement keys have ten different directions. */
  lemma DirectionsDistinct(i: nat, j: nat)
    requires i < |MoveKeys| && j < |MoveKeys| && i != j
    ensures Direction(MoveKeys[i]) != Direction(MoveKeys[j])
  {
    MoveKeysAt();
  }

  /** The entries of MoveKeys, one by one. */
  lemma MoveKeysAt()
    ensures |MoveKeys| == 10
    ensures MoveKeys[0] == Z && MoveKeys[1] == S && MoveKeys[2] == Q && MoveKeys[3] == D && MoveKeys[4] == A
    ensures MoveKeys[5] == E && MoveKeys[6] == Right && MoveKeys[7] == Left && MoveKeys[8] == Up && MoveKeys[9] == Down
  {
  }

  /** MoveKeys lists exactly the movement keys. */
  lemma MoveKeysListed(k: Key)
    ensures IsMoveKey(k) <==> exists j :: 0 <= j < |MoveKeys| && MoveKeys[j] == k
  {
    MoveKeysAt();
  }

  /**
   * `handle_key_pressed` moves the camera in a movement key's direction
   * exactly when the key is held, once, with the tick's dt, and issues
   * nothing else.
   */
  lemma MovesIffHeld(keys: map<Key, bool>, k: Key, dt: real)
    requires IsMoveKey(k)
    ensures Camera.MoveCall(Direction(k), dt) in MovesOf(keys, dt) <==> Held(keys, k)
    ensures multiset(MovesOf(keys, dt))[Camera.MoveCall(Direction(k), dt)] == if Held(keys, k) then 1 else 0
    ensures |MovesOf(keys, dt)| <= 10
    ensures forall c :: c in MovesOf(keys, dt) ==> c.MoveCall? && c.dt == dt
  {
    MoveKeysListed(k);
    var j :| 0 <= j < |MoveKeys| && MoveKeys[j] == k;
    MovesHeld(keys, |MoveKeys|, j, dt);
    MovesShape(keys, |MoveKeys|, dt);
  }

  /** With no movement key held (in particular before any key event), no move is issued. */
  lemma NothingHeldNoMoves(keys: map<Key, bool>, dt: real)
    requires forall k :: IsMoveKey(k) ==> !Held(keys, k)
    ensures MovesOf(keys, dt) == []
  {
    forall j | 0 <= j < |MoveKeys|
      ensures !Held(keys, MoveKeys[j])
    {
      MoveKeysListed(MoveKeys[j]);
    }
    MovesNone(keys, |MoveKeys|, dt);
  }

  /** Adding one tick adds its length to the sum. */
  lemma SumAppend(ticks: seq<real>, dt: real)
    ensures Sum(ticks + [dt]) == Sum(ticks) + dt
  {
    assert (ticks + [dt])[..|ticks|] == ticks;
  }

  /** The sum of a concatenation is the sum of the parts. */
  lemma {:induction false} SumConcat(a: seq<real>, b: seq<real>)
    ensures Sum(a + b) == Sum(a) + Sum(b)
  {
    if b == [] {
      assert a + b == a;
    } else {
      var c, x := b[..|b| - 1], b[|b| - 1];
      assert b == c + [x];
      assert a + b == (a + c) + [x];
      SumAppend(a + c, x);
      SumConcat(a, c);
      SumAppend(c, x);
    }
  }

  /** The scenes the engine holds: a plain `Scene` or a `CompanionCubeScene`, whose `render` differs. */
  datatype SceneRef = PlainScene(scene: Scene.Scene) | CompanionCubeScene(scene: Scene.Scene)

  /** The calls the engine makes on the GL context and the window, and the scenes it walks. */
  datatype Event =
    | Clear(color: Vec3)
    | Flip
    | Rendered(index: nat, ok: bool)
    | Destroyed(index: nat, ok: bool)

  /** The clear colour of the framebuffer. */
  const Gold := Vec3(0.9, 0.8, 0.01)

  /** The capabilities `enable_only` switches on. */
  datatype Capability = DepthTest | CullFace | ProgramPointSize

  /** The index of the first scene whose render raises; |ss| when none does. */
  ghost function FirstFailing(ss: seq<SceneRef>): (n: nat)
    reads *
    ensures n <= |ss|
  {
    if ss == [] || !ss[0].scene.Renders() then 0 else 1 + FirstFailing(ss[1..])
  }

  /** Every scene before FirstFailing renders, and the one at FirstFailing does not. */
  lemma {:induction false} FirstFailingMeans(ss: seq<SceneRef>)
    ensures forall i :: 0 <= i < FirstFailing(ss) ==> ss[i].scene.Renders()
    ensures FirstFailing(ss) < |ss| ==> !ss[FirstFailing(ss)].scene.Renders()
  {
    if ss != [] && ss[0].scene.Renders() {
      FirstFailingMeans(ss[1..]);
    }
  }

  /** The index of the first scene whose destroy raises; |ss| when none does. */
  ghost function FirstLeaking(ss: seq<SceneRef>): (n: nat)
    reads *
    ensures n <= |ss|
  {
    if ss == [] || !ss[0].scene.Releases() then 0 else 1 + FirstLeaking(ss[1..])
  }

  /** Every scene before FirstLeaking is destroyed whole, and the one at FirstLeaking raises. */
  lemma {:induction false} FirstLeakingMeans(ss: seq<SceneRef>)
    ensures forall i :: 0 <= i < FirstLeaking(ss) ==> ss[i].scene.Releases()
    ensures FirstLeaking(ss) < |ss| ==> !ss[FirstLeaking(ss)].scene.Releases()
  {
    if ss != [] && ss[0].scene.Releases() {
      FirstLeakingMeans(ss[1..]);
    }
  }

  /** Scenes 0 .. n - 1 rendered without raising. */
  function RenderedPasses(n: nat): (r: seq<Event>)
    ensures |r| == n && forall k :: 0 <= k < n ==> r[k] == Rendered(k, true)
  {
    if n == 0 then [] else RenderedPasses(n - 1) + [Rendered(n - 1, true)]
  }

  /** Scenes 0 .. n - 1 destroyed without raising. */
  function DestroyedPasses(n: nat): (r: seq<Event>)
    ensures |r| == n && forall k :: 0 <= k < n ==> r[k] == Destroyed(k, true)
  {
    if n == 0 then [] else DestroyedPasses(n - 1) + [Destroyed(n - 1, true)]
  }

  class Engine {
    var debug: bool
    var wireMode: bool
    var cullFace: bool
    var mouseControls: bool
    /** `gl_context.wireframe`, false until K is pressed. */
    var wireframe: bool
    /** `gl_context.enable_only`'s capabilities. */
    var enabled: set<Capability>
    var time: real
    ghost var ticks: seq<real>
    var keys: map<Key, bool>
    var camera: Camera.Camera
    var scenes: seq<SceneRef>
    var events: seq<Event>

    /** Elapsed time is the sum of the ticks delivered so far. */
    ghost predicate Valid()
      reads this`time, this`ticks
    {
      time == Sum(ticks)
    }

    /** The state the key handlers read and write. */
    function State(): Controls
      reads this`debug, this`wireMode, this`mouseControls, this`wireframe, this`keys
    {
      Controls(debug, wireMode, mouseControls, wireframe, keys)
    }

    function SceneObjects(): set<Scene.Scene>
      reads this`scenes
    {
      set r | r in scenes :: r.scene
    }

    function SceneModels(): set<Model.Model>
      reads this`scenes, SceneObjects()`entries
    {
      set r, m | r in scenes && m in r.scene.ModelObjects() :: m
    }

    /**
     * `GLEngine.__init__`: the flags as given, time 0, no key state, the
     * capabilities the cull-face flag selects, a cleared framebuffer, a
     * fresh camera and no scenes.
     */
    constructor(debug: bool, mouseControls: bool, cullFace: bool, wireMode: bool)
      ensures Valid() && time == 0.0 && ticks == []
      ensures State() == Controls(debug, wireMode, mouseControls, false, map[])
      ensures this.cullFace == cullFace
      ensures enabled == if cullFace then {DepthTest, CullFace, ProgramPointSize} else {DepthTest, ProgramPointSize}
      ensures events == [Clear(Gold)]
      ensures fresh(camera) && camera.calls == [] && scenes == []
    {
      this.debug := debug;
      this.wireMode := wireMode;
      this.cullFace := cullFace;
      this.mouseControls := mouseControls;
      wireframe := false;
      time := 0.0;
      ticks := [];
      keys := map[];
      if cullFace {
        enabled := {DepthTest, CullFace, ProgramPointSize};
      } else {
        enabled := {DepthTest, ProgramPointSize};
      }
      events := [Clear(Gold)];
      camera := new Camera.Camera();
      scenes := [];
    }

    /** `set_scenes`. */
    method SetScenes(scenes: seq<SceneRef>)
      modifies this`scenes
      ensures this.scenes == scenes
    {
      this.scenes := scenes;
    }

    /** `update_time`: one clock tick of length dt. */
    method UpdateTime(dt: real)
      requires Valid()
      modifies this`time, this`ticks
      ensures Valid() && ticks == old(ticks) + [dt] && time == old(time) + dt
    {
      SumAppend(ticks, dt);
      time := time + dt;
      ticks := ticks + [dt];
    }

    /** `on_key_press`: the toggles, the camera reset and look-at, and marking a movement key held. */
    method OnKeyPress(symbol: Key)
      modifies this`debug, this`wireMode, this`mouseControls, this`wireframe, this`keys, camera`calls
      ensures State() == OnPress(old(State()), symbol)
      ensures camera.calls == old(camera.calls) + PressCalls(symbol)
    {
      if symbol == J {
        debug := !debug;
      }
      if symbol == K {
        wireMode := !wireMode;
        wireframe := wireMode;
      }
      if symbol == R {
        camera.ResetCamera();
      }
      if symbol == L {
        camera.LookAtScene();
      }
      if symbol == M {
        mouseControls := !mouseControls;
      }
      if IsMoveKey(symbol) {
        keys := keys[symbol := true];
      }
    }

    /** `on_key_release`: marking a movement key not held. */
    method OnKeyRelease(symbol: Key)
      modifies this`keys
      ensures State() == OnRelease(old(State()), symbol)
    {
      if IsMoveKey(symbol) {
        keys := keys[symbol := false];
      }
    }

    /** `handle_key_pressed`: one `camera.move` per held movement key, in the order of MoveKeys. */
    method HandleKeyPressed(dt: real)
      modifies camera`calls
      ensures camera.calls == old(camera.calls) + MovesOf(keys, dt)
    {
      ghost var start, held := camera.calls, keys;
      MoveKeysAt();
      MoveWhenHeld(Z, 0, dt, start, held);
      MoveWhenHeld(S, 1, dt, start, held);
      MoveWhenHeld(Q, 2, dt, start, held);
      MoveWhenHeld(D, 3, dt, start, held);
      MoveWhenHeld(A, 4, dt, start, held);
      MoveWhenHeld(E, 5, dt, start, held);
      MoveWhenHeld(Right, 6, dt, start, held);
      MoveWhenHeld(Left, 7, dt, start, held);
      MoveWhenHeld(Up, 8, dt, start, held);
      MoveWhenHeld(Down, 9, dt, start, held);
    }

    /** The `if` of `handle_key_pressed` for k, the n-th movement key: move in k's direction when k is held. */
    method MoveWhenHeld(k: Key, n: nat, dt: real, ghost start: seq<Camera.Call>, ghost held: map<Key, bool>)
      requires n < |MoveKeys| && MoveKeys[n] == k && keys == held
      requires camera.calls == start + MovesUpTo(held, n, dt)
      modifies camera`calls
      ensures keys == held && camera.calls == start + MovesUpTo(held, n + 1, dt)
    {
      if Held(keys, k) {
        camera.Move(Direction(k), dt);
      }
    }

    /** `on_mouse_motion`: the camera rotates only while mouse controls are on. */
    method OnMouseMotion(x: real, y: real, dx: real, dy: real)
      modifies camera`calls
      ensures camera.calls == old(camera.calls) + if mouseControls then [Camera.RotateCall(x, y, dx, dy)] else []
    {
      if mouseControls {
        camera.Rotate(x, y, dx, dy);
      }
    }

    /**
     * `render`: clear the framebuffer, render the scenes in list order and
     * flip the window. A scene whose render raises stops the frame there,
     * before the flip.
     */
    method Render(dt: real) returns (ok: bool)
      modifies this`events, SceneObjects()`draws
      modifies SceneModels()`modelMatrix, SceneModels()`transforms, SceneModels()`uniforms
      ensures ok <==> old(FirstFailing(scenes)) == |scenes|
      ensures ok ==> events == old(events) + [Clear(Gold)] + RenderedPasses(|scenes|) + [Flip]
      ensures !ok ==> var n := old(FirstFailing(scenes));
                      events == old(events) + [Clear(Gold)] + RenderedPasses(n) + [Rendered(n, false)]
    {
      var ss := scenes;
      ghost var models := SceneModels();
      ghost var failing := FirstFailing(ss);
      FirstFailingMeans(ss);
      events := events + [Clear(Gold)];
      ghost var cleared := events;
      var i := 0;
      ok := true;
      while i < |ss|
        invariant i <= failing && events == cleared + RenderedPasses(i)
      {
        var r := ss[i];
        assert r.scene in SceneObjects();
        assert r.scene.ModelObjects() <= models;
        r.scene.RendersKept();
        var sceneOk := RenderScene(r);
        if !sceneOk {
          assert i == failing;
          events := events + [Rendered(i, false)];
          ok := false;
          return;
        }
        events := events + [Rendered(i, true)];
        i := i + 1;
      }
      events := events + [Flip];
    }

    /**
     * `scene.render()`, dispatched on the scene's class; it raises when the
     * scene's list holds a tuple or a model without a texture or a vertex array.
     */
    static method RenderScene(r: SceneRef) returns (ok: bool)
      modifies r.scene`draws, r.scene.ModelObjects()`modelMatrix, r.scene.ModelObjects()`transforms, r.scene.ModelObjects()`uniforms
      ensures ok <==> old(r.scene.Renders())
    {
      if r.PlainScene? {
        ok := r.scene.Render();
      } else {
        ok := r.scene.CompanionCubeRender();
      }
    }

    /** `scene.destroy()`: it raises when the scene's list holds a tuple or a model without a texture. */
    static method DestroyScene(r: SceneRef) returns (ok: bool)
      modifies r.scene`destroyed
      ensures ok <==> old(r.scene.Releases())
    {
      ok := r.scene.Destroy();
    }

    /** `on_close`: destroy the scenes in list order; a scene whose destroy raises stops the walk. */
    method OnClose() returns (ok: bool)
      modifies this`events, SceneObjects()`destroyed
      ensures ok <==> old(FirstLeaking(scenes)) == |scenes|
      ensures ok ==> events == old(events) + DestroyedPasses(|scenes|)
      ensures !ok ==> var n := old(FirstLeaking(scenes));
                      events == old(events) + DestroyedPasses(n) + [Destroyed(n, false)]
    {
      var ss := scenes;
      ghost var failing := FirstLeaking(ss);
      FirstLeakingMeans(ss);
      var i := 0;
      ok := true;
      while i < |ss|
        invariant i <= failing && events == old(events) + DestroyedPasses(i)
      {
        var r := ss[i];
        assert r.scene in SceneObjects();
        r.scene.ReleasesKept();
        var sceneOk := DestroyScene(r);
        if !sceneOk {
          assert i == failing;
          events := events + [Destroyed(i, false)];
          ok := false;
          return;
        }
        events := events + [Destroyed(i, true)];
        i := i + 1;
      }
    }
  }
}
