/**
 * modules/scene.py: a scene keeps a list of models and, frame by frame,
 * uploads the camera and model matrices into each model's program before
 * drawing it.
 *
 * The list normally holds Model objects, but `add_model` appends a
 * `(model, shader_name)` tuple. Every other method reads attributes of the
 * entries (`shader_program`, `model_matrix`, `transform`, `render`,
 * `destroy`), so a loop that reaches a tuple raises AttributeError there,
 * after the entries before it have been processed. `Model.render` and
 * `Model.destroy` also call into the model's texture, which raises
 * AttributeError when no texture was set, and `Model.render` then draws
 * the model's vertex array, which raises the same way when `set_vao` was
 * never called. A method that raises returns false here, with the state it
 * leaves behind.
 *
 * Drawing is recorded as the model drawn together with its uniform table at
 * that moment; releasing a model's GPU objects is recorded as the model.
 */
module Scene {
  import opened Wrappers
  import opened GlMath
  import opened Uniforms
  import opened Surfaces
  import Camera
  import Model

  datatype Entry = Bare(model: Model.Model) | Paired(model: Model.Model, shaderName: string)

  /** One `model.render()`: the model and the uniforms its program holds when drawn. */
  datatype Draw = Draw(model: Model.Model, uniforms: Table)

  function Models(entries: seq<Entry>): (r: seq<Model.Model>)
    ensures |r| == |entries|
    ensures forall i :: 0 <= i < |entries| ==> r[i] == entries[i].model
  {
    if entries == [] then [] else [entries[0].model] + Models(entries[1..])
  }

  /** How many entries a loop over the list gets through before it meets a tuple. */
  function FirstPair(entries: seq<Entry>): (r: nat)
    ensures r <= |entries|
    ensures forall i :: 0 <= i < r ==> entries[i].Bare?
    ensures r < |entries| ==> entries[r].Paired?
  {
    if entries == [] || entries[0].Paired? then 0 else 1 + FirstPair(entries[1..])
  }

  /** The first entry that makes `destroy` raise: a tuple, or a model without a texture. */
  function FirstUntextured(entries: seq<Entry>): (r: nat)
    reads Models(entries)`texture
    ensures r <= |entries|
    ensures forall i :: 0 <= i < r ==> entries[i].Bare? && entries[i].model.texture.Some?
    ensures r < |entries| ==> entries[r].Paired? || entries[r].model.texture.None?
    ensures r <= FirstPair(entries)
  {
    if entries == [] || entries[0].Paired? || entries[0].model.texture.None? then 0
    else 1 + FirstUntextured(entries[1..])
  }

  /** The first entry that makes `render` raise: a tuple, or a model without a texture or without a vertex array. */
  function FirstBroken(entries: seq<Entry>): (r: nat)
    reads Models(entries)`texture, Models(entries)`vao
    ensures r <= |entries|
    ensures forall i :: 0 <= i < r ==> entries[i].Bare? && entries[i].model.texture.Some? && entries[i].model.vao.Some?
    ensures r < |entries| ==> entries[r].Paired? || entries[r].model.texture.None? || entries[r].model.vao.None?
    ensures r <= FirstPair(entries)
  {
    if entries == [] || entries[0].Paired? || entries[0].model.texture.None? || entries[0].model.vao.None? then 0
    else 1 + FirstBroken(entries[1..])
  }

  /** `render` never gets further down the list than `destroy`: it stops at every entry `destroy` stops at. */
  lemma {:induction false} BrokenBeforeUntextured(entries: seq<Entry>)
    ensures FirstBroken(entries) <= FirstUntextured(entries)
  {
    if entries != [] && entries[0].Bare? && entries[0].model.texture.Some? && entries[0].model.vao.Some? {
      BrokenBeforeUntextured(entries[1..]);
    }
  }

  /** FirstBroken depends only on the entries and on their models' textures and vertex arrays. */
  twostate lemma FirstBrokenKept(entries: seq<Entry>)
    requires forall i :: 0 <= i < |entries| ==>
               old(allocated(entries[i].model)) && unchanged(entries[i].model`texture, entries[i].model`vao)
    ensures FirstBroken(entries) == old(FirstBroken(entries))
  {
  }

  /** FirstUntextured depends only on the entries and on their models' textures. */
  twostate lemma FirstUntexturedKept(entries: seq<Entry>)
    requires forall i :: 0 <= i < |entries| ==> old(allocated(entries[i].model)) && unchanged(entries[i].model`texture)
    ensures FirstUntextured(entries) == old(FirstUntextured(entries))
  {
  }

  /** How many models `destroy` releases: up to the first tuple, or up to and including the first model without a texture. */
  function Released(entries: seq<Entry>): (n: nat)
    reads Models(entries)`texture
    ensures n <= |entries|
  {
    var b := FirstUntextured(entries);
    if b < |entries| && entries[b].Bare? then b + 1 else b
  }

  /**
   * How many passes `CompanionCubeScene.render` starts: up to the first
   * tuple, or up to and including the first model it cannot draw.
   */
  function Passes(entries: seq<Entry>): (n: nat)
    reads Models(entries)`texture, Models(entries)`vao
    ensures n <= |entries|
  {
    var b := FirstBroken(entries);
    if b < |entries| && entries[b].Bare? then b + 1 else b
  }

  /** Appending a tuple never moves the first tuple: it is either an earlier one or the new one. */
  lemma {:induction false} FirstPairAppend(entries: seq<Entry>, m: Model.Model, name: string)
    ensures FirstPair(entries + [Paired(m, name)]) == FirstPair(entries)
  {
    if entries != [] {
      assert (entries + [Paired(m, name)])[1..] == entries[1..] + [Paired(m, name)];
      FirstPairAppend(entries[1..], m, name);
    }
  }

  /**
   * Python's `type(data) == float or int` parses as `(type(data) == float) or
   * int`, and the class object `int` is truthy.
   */
  predicate TypeTest(data: Value)
  {
    data.NumberValue? || ClassIsTruthy
  }

  const ClassIsTruthy := true

  /** The uniforms `render` uploads: the model's matrix, then the camera's view matrix. */
  function Synced(t: Table, modelMatrix: Mat, view: Mat): Table
  {
    t[ModelMatrixName := Written(MatrixValue(modelMatrix))][ViewMatrixName := Written(MatrixValue(view))]
  }

  /** After the uploads the program holds both matrices as written buffers and every other uniform as before. */
  lemma SyncedHolds(t: Table, modelMatrix: Mat, view: Mat)
    ensures Holds(Synced(t, modelMatrix, view), ModelMatrixName, Written(MatrixValue(modelMatrix)))
    ensures Holds(Synced(t, modelMatrix, view), ViewMatrixName, Written(MatrixValue(view)))
    ensures forall name :: name in t && name != ModelMatrixName && name != ViewMatrixName ==>
              Holds(Synced(t, modelMatrix, view), name, t[name])
    ensures Synced(t, modelMatrix, view).Keys == t.Keys + {ModelMatrixName, ViewMatrixName}
  {
    assert ModelMatrixName != ViewMatrixName by {
      assert ModelMatrixName[0] != ViewMatrixName[0];
    }
  }

  /** Uploading again with the same camera and model matrix changes nothing. */
  lemma SyncedIdempotent(t: Table, modelMatrix: Mat, view: Mat)
    ensures Synced(Synced(t, modelMatrix, view), modelMatrix, view) == Synced(t, modelMatrix, view)
  {
    assert ModelMatrixName != ViewMatrixName by {
      assert ModelMatrixName[0] != ViewMatrixName[0];
    }
  }

  /** `glm.rotate(0.02, glm.vec3(0, 1, 0))`: the turn `CompanionCubeScene.render` gives every model each frame. */
  const CubeSpin := Rotation(0.02, Vec3(0.0, 1.0, 0.0))

  /** How many of the first n entries hold the model m: the number of times a pass over them turns m. */
  function Visits(entries: seq<Entry>, n: nat, m: Model.Model): (r: nat)
    requires n <= |entries|
    ensures r <= n
  {
    if n == 0 then 0 else Visits(entries, n - 1, m) + (if entries[n - 1].model == m then 1 else 0)
  }

  /** The matrix m0 after k right-multiplications by r. */
  function Turned(m0: Mat, r: Mat, k: nat): Mat
  {
    if k == 0 then m0 else Product(Turned(m0, r, k - 1), r)
  }

  /** Where `CompanionCubeScene.render` stores the camera position: only in the first entry's program. */
  function EyeOf(entries: seq<Entry>, m: Model.Model, eye: Vec3): (r: Option<Vec3>)
    ensures r.Some? <==> 0 < |entries| && m == entries[0].model
  {
    if 0 < |entries| && m == entries[0].model then Some(eye) else None
  }

  /** A model's matrix and uniform table at some moment. */
  datatype Snapshot = Snapshot(matrix: Mat, uniforms: Table)

  /** The uniforms one pass of `CompanionCubeScene.render` leaves: the two matrices, and the eye position where one is given. */
  function CubeSynced(t: Table, modelMatrix: Mat, view: Mat, eye: Option<Vec3>): Table
  {
    var s := Synced(t, modelMatrix, view);
    if eye.Some? then s[CameraPositionName := Assigned(VectorValue(eye.value))] else s
  }

  /**
   * Every model's matrix and uniform table once `CompanionCubeScene.render`
   * has made `turns` turns and `stores` rounds of uploads over entries, from
   * the matrices and tables in start.
   */
  function SpunState(start: map<Model.Model, Snapshot>, entries: seq<Entry>, turns: nat, stores: nat, view: Mat, eye: Vec3): (r: map<Model.Model, Snapshot>)
    requires stores <= turns <= |entries|
    ensures r.Keys == start.Keys
    ensures forall m :: m in r && Visits(entries, turns, m) == 0 ==> r[m].matrix == start[m].matrix
  {
    map m | m in start ::
      Snapshot(Turned(start[m].matrix, CubeSpin, Visits(entries, turns, m)),
               if stores == 0 then start[m].uniforms
               else CubeSynced(start[m].uniforms, Turned(start[m].matrix, CubeSpin, Visits(entries, stores, m)), view, EyeOf(entries, m, eye)))
  }

  /**
   * What the j-th draw of `CompanionCubeScene.render` records, from the
   * matrices and tables in `start`: entry j's model after it was turned once
   * per visit up to and including pass j, with the uniforms that pass left.
   */
  function SpunDraw(start: map<Model.Model, Snapshot>, entries: seq<Entry>, j: nat, view: Mat, eye: Vec3): (r: Draw)
    requires j < |entries|
    ensures r.model == entries[j].model
  {
    var m := entries[j].model;
    var s := if m in start then start[m] else Snapshot(Identity, map[]);
    Draw(m, CubeSynced(s.uniforms, Turned(s.matrix, CubeSpin, Visits(entries, j + 1, m)), view, EyeOf(entries, m, eye)))
  }

  /** Draw j records entry j's model with the uniforms its program holds once pass j is over. */
  lemma SpunDrawIs(start: map<Model.Model, Snapshot>, entries: seq<Entry>, j: nat, view: Mat, eye: Vec3)
    requires j < |entries| && entries[j].model in SpunState(start, entries, j + 1, j + 1, view, eye)
    ensures SpunDraw(start, entries, j, view, eye) ==
            Draw(entries[j].model, SpunState(start, entries, j + 1, j + 1, view, eye)[entries[j].model].uniforms)
  {
  }

  /** The first n draws, in order. */
  function SpunDraws(start: map<Model.Model, Snapshot>, entries: seq<Entry>, n: nat, view: Mat, eye: Vec3): (r: seq<Draw>)
    requires n <= |entries|
    ensures |r| == n
  {
    if n == 0 then [] else SpunDraws(start, entries, n - 1, view, eye) + [SpunDraw(start, entries, n - 1, view, eye)]
  }

  /**
   * The j-th draw is of entry j's model, and its program then holds what it
   * holds once j + 1 passes are over.
   */
  lemma {:induction false} SpunDrawsAt(start: map<Model.Model, Snapshot>, entries: seq<Entry>, n: nat, j: nat, view: Mat, eye: Vec3)
    requires j < n <= |entries| && entries[j].model in start
    ensures SpunDraws(start, entries, n, view, eye)[j].model == entries[j].model
    ensures SpunDraws(start, entries, n, view, eye)[j].uniforms == SpunState(start, entries, j + 1, j + 1, view, eye)[entries[j].model].uniforms
  {
    if j < n - 1 {
      SpunDrawsAt(start, entries, n - 1, j, view, eye);
    }
  }

  /** A pass over the first n entries turns a model once for every one of them that holds it. */
  lemma {:induction false} VisitsCount(entries: seq<Entry>, n: nat, m: Model.Model)
    requires n <= |entries|
    ensures Visits(entries, n, m) == multiset(Models(entries)[..n])[m]
  {
    if n > 0 {
      VisitsCount(entries, n - 1, m);
      assert Models(entries)[..n] == Models(entries)[..n - 1] + [entries[n - 1].model];
    }
  }

  /**
   * After one pass a program holds the model matrix and the view matrix as
   * written buffers, the eye position by assignment where one is given, and
   * every other uniform as before.
   */
  lemma CubeSyncedHolds(t: Table, modelMatrix: Mat, view: Mat, eye: Option<Vec3>)
    ensures Holds(CubeSynced(t, modelMatrix, view, eye), ModelMatrixName, Written(MatrixValue(modelMatrix)))
    ensures Holds(CubeSynced(t, modelMatrix, view, eye), ViewMatrixName, Written(MatrixValue(view)))
    ensures eye.Some? ==> Holds(CubeSynced(t, modelMatrix, view, eye), CameraPositionName, Assigned(VectorValue(eye.value)))
    ensures forall name :: name != ModelMatrixName && name != ViewMatrixName && (name == CameraPositionName ==> eye.None?) ==>
              (name in CubeSynced(t, modelMatrix, view, eye) <==> name in t) &&
              (name in t ==> CubeSynced(t, modelMatrix, view, eye)[name] == t[name])
  {
    assert CameraPositionName != ModelMatrixName && CameraPositionName != ViewMatrixName by {
      assert CameraPositionName[0] != ModelMatrixName[0] && CameraPositionName[0] != ViewMatrixName[0];
    }
    SyncedHolds(t, modelMatrix, view);
  }

  /**
   * After n > 0 passes a model has been turned once for each of the first n
   * entries that holds it, and its program holds what one pass stores, with
   * that matrix, over the table it had before the passes.
   */
  lemma SpunStateHolds(start: map<Model.Model, Snapshot>, entries: seq<Entry>, n: nat, view: Mat, eye: Vec3, m: Model.Model)
    requires 0 < n <= |entries| && m in start
    ensures m in SpunState(start, entries, n, n, view, eye)
    ensures SpunState(start, entries, n, n, view, eye)[m].matrix == Turned(start[m].matrix, CubeSpin, multiset(Models(entries)[..n])[m])
    ensures SpunState(start, entries, n, n, view, eye)[m].uniforms ==
              CubeSynced(start[m].uniforms, SpunState(start, entries, n, n, view, eye)[m].matrix, view, EyeOf(entries, m, eye))
  {
    VisitsCount(entries, n, m);
  }

  /** Before the first pass nothing has changed. */
  lemma SpunStart(start: map<Model.Model, Snapshot>, entries: seq<Entry>, view: Mat, eye: Vec3)
    ensures SpunState(start, entries, 0, 0, view, eye) == start
  {
    assert SpunState(start, entries, 0, 0, view, eye).Keys == start.Keys;
  }

  /** Every model after `model.transform(rotation)` turned `turned` by CubeSpin. */
  function TurnedOnce(s: map<Model.Model, Snapshot>, turned: Model.Model): map<Model.Model, Snapshot>
  {
    if turned in s then s[turned := Snapshot(Product(s[turned].matrix, CubeSpin), s[turned].uniforms)] else s
  }

  /** The turn of pass i counts one more visit of entry i's model. */
  lemma SpunTurn(start: map<Model.Model, Snapshot>, entries: seq<Entry>, i: nat, view: Mat, eye: Vec3)
    requires i < |entries|
    ensures TurnedOnce(SpunState(start, entries, i, i, view, eye), entries[i].model) == SpunState(start, entries, i + 1, i, view, eye)
  {
    var turned := TurnedOnce(SpunState(start, entries, i, i, view, eye), entries[i].model);
    var after := SpunState(start, entries, i + 1, i, view, eye);
    assert turned.Keys == after.Keys;
    forall m | m in after
      ensures turned[m] == after[m]
    {
    }
  }

  /** Every program after `load_model_matrix()` and `load_view_matrix()`. */
  function Uploaded(s: map<Model.Model, Snapshot>, view: Mat): map<Model.Model, Snapshot>
  {
    map m | m in s :: Snapshot(s[m].matrix, Synced(s[m].uniforms, s[m].matrix, view))
  }

  /** The first model's program after the camera position was assigned to it. */
  function EyeStored(s: map<Model.Model, Snapshot>, first: Model.Model, eye: Vec3): map<Model.Model, Snapshot>
  {
    if first in s then s[first := Snapshot(s[first].matrix, s[first].uniforms[CameraPositionName := Assigned(VectorValue(eye))])]
    else s
  }

  /** The uploads of pass i bring every program from what pass i - 1 left to what pass i leaves. */
  lemma SpunStore(start: map<Model.Model, Snapshot>, entries: seq<Entry>, i: nat, view: Mat, eye: Vec3)
    requires i < |entries|
    ensures EyeStored(Uploaded(SpunState(start, entries, i + 1, i, view, eye), view), entries[0].model, eye) ==
            SpunState(start, entries, i + 1, i + 1, view, eye)
  {
    var before := SpunState(start, entries, i + 1, i, view, eye);
    var stored := EyeStored(Uploaded(before, view), entries[0].model, eye);
    var after := SpunState(start, entries, i + 1, i + 1, view, eye);
    assert stored.Keys == after.Keys;
    forall m | m in after
      ensures stored[m] == after[m]
    {
      SpunStoreAt(start, entries, i, view, eye, m);
    }
  }

  lemma SpunStoreAt(start: map<Model.Model, Snapshot>, entries: seq<Entry>, i: nat, view: Mat, eye: Vec3, m: Model.Model)
    requires i < |entries| && m in start
    ensures m in EyeStored(Uploaded(SpunState(start, entries, i + 1, i, view, eye), view), entries[0].model, eye)
    ensures EyeStored(Uploaded(SpunState(start, entries, i + 1, i, view, eye), view), entries[0].model, eye)[m] ==
            SpunState(start, entries, i + 1, i + 1, view, eye)[m]
  {
    var mm := Turned(start[m].matrix, CubeSpin, Visits(entries, i + 1, m));
    var before := SpunState(start, entries, i + 1, i, view, eye);
    assert Uploaded(before, view)[m] == Snapshot(mm, Synced(before[m].uniforms, mm, view));
    if i > 0 {
      CubeSyncedAgain(start[m].uniforms, Turned(start[m].matrix, CubeSpin, Visits(entries, i, m)), mm, view, EyeOf(entries, m, eye));
    }
  }

  /** A later pass overwrites everything an earlier one stored, whatever the model matrix was then. */
  lemma CubeSyncedAgain(t: Table, before: Mat, after: Mat, view: Mat, eye: Option<Vec3>)
    ensures CubeSynced(CubeSynced(t, before, view, eye), after, view, eye) == CubeSynced(t, after, view, eye)
  {
    var again := CubeSynced(CubeSynced(t, before, view, eye), after, view, eye);
    var once := CubeSynced(t, after, view, eye);
    CubeSyncedHolds(CubeSynced(t, before, view, eye), after, view, eye);
    CubeSyncedHolds(t, before, view, eye);
    CubeSyncedHolds(t, after, view, eye);
    assert again.Keys == once.Keys;
    forall name | name in once
      ensures again[name] == once[name]
    {
    }
  }

  class Scene {
    var camera: Camera.Camera
    var entries: seq<Entry>
    var draws: seq<Draw>
    var destroyed: seq<Model.Model>

    function ModelObjects(): set<Model.Model>
      reads this`entries
    {
      set i | 0 <= i < |entries| :: entries[i].model
    }

    /** `render` draws every entry without raising. */
    predicate Renders()
      reads this`entries, Models(entries)`texture, Models(entries)`vao
    {
      FirstBroken(entries) == |entries|
    }

    /** Renders() is kept by every step that leaves the list and its models' textures and vertex arrays alone. */
    twostate lemma RendersKept()
      requires old(allocated(this)) && unchanged(this`entries)
      requires forall i :: 0 <= i < |entries| ==>
                 old(allocated(entries[i].model)) && unchanged(entries[i].model`texture, entries[i].model`vao)
      ensures Renders() == old(Renders())
    {
      FirstBrokenKept(entries);
    }

    /** `destroy` releases every entry without raising. */
    predicate Releases()
      reads this`entries, Models(entries)`texture
    {
      FirstUntextured(entries) == |entries|
    }

    /** Releases() is kept by every step that leaves the list and its models' textures alone. */
    twostate lemma ReleasesKept()
      requires old(allocated(this)) && unchanged(this`entries)
      requires forall i :: 0 <= i < |entries| ==> old(allocated(entries[i].model)) && unchanged(entries[i].model`texture)
      ensures Releases() == old(Releases())
    {
      FirstUntexturedKept(entries);
    }

    /** The models a loop over the list reaches before the first tuple. */
    function Reached(): set<Model.Model>
      reads this`entries
    {
      set i | 0 <= i < FirstPair(entries) :: entries[i].model
    }

    /** `Scene.__init__`: the engine's camera and an empty model list. */
    constructor(camera: Camera.Camera)
      ensures this.camera == camera && entries == [] && draws == [] && destroyed == []
    {
      this.camera := camera;
      entries := [];
      draws := [];
      destroyed := [];
    }

    /** `set_models`: the list becomes the given models. */
    method SetModels(models: seq<Model.Model>)
      modifies this`entries
      ensures Models(entries) == models && FirstPair(entries) == |entries|
    {
      entries := seq(|models|, i requires 0 <= i < |models| => Bare(models[i]));
      assert Models(entries) == models;
    }

    /** `add_model`: one `(model, shader_name)` tuple at the end. */
    method AddModel(model: Model.Model, shaderName: string)
      modifies this`entries
      ensures entries == old(entries) + [Paired(model, shaderName)]
      ensures FirstPair(entries) == FirstPair(old(entries)) < |entries|
    {
      FirstPairAppend(entries, model, shaderName);
      entries := entries + [Paired(model, shaderName)];
    }

    /**
     * `load_uniform`: the entry at a Python index, which must be a model; its
     * program then holds `data` by direct assignment, never by `.write`.
     */
    method LoadUniform(index: int, attribute: string, data: Value) returns (ok: bool)
      modifies ModelObjects()`uniforms
      ensures ok <==> PyIndex(entries, index).Some? && PyIndex(entries, index).value.Bare?
      ensures ok ==> var m := PyIndex(entries, index).value.model;
                     m.uniforms == old(m.uniforms)[attribute := Assigned(data)]
      ensures forall m :: m in ModelObjects() && (!ok || m != PyIndex(entries, index).value.model) ==>
                m.uniforms == old(m.uniforms)
    {
      var entry := PyIndex(entries, index);
      if entry.None? || entry.value.Paired? {
        return false;
      }
      var m := entry.value.model;
      if TypeTest(data) {
        m.uniforms := m.uniforms[attribute := Assigned(data)];
      } else {
        assert false;
      }
      ok := true;
    }

    /** `load_projection_matrix`: every reached model's program holds the camera's projection. */
    method LoadProjectionMatrix() returns (ok: bool)
      modifies ModelObjects()`uniforms
      ensures ok <==> FirstPair(entries) == |entries|
      ensures forall m :: m in ModelObjects() ==>
                m.uniforms == if m in Reached() then old(m.uniforms)[ProjectionMatrixName := Written(MatrixValue(camera.projection))]
                              else old(m.uniforms)
    {
      var value := Written(MatrixValue(camera.projection));
      var i := 0;
      while i < |entries|
        invariant i <= FirstPair(entries)
        invariant forall m :: m in ModelObjects() ==>
                    m.uniforms == if m in (set j | 0 <= j < i :: entries[j].model) then old(m.uniforms)[ProjectionMatrixName := value]
                                  else old(m.uniforms)
      {
        if entries[i].Paired? {
          return false;
        }
        var m := entries[i].model;
        m.uniforms := m.uniforms[ProjectionMatrixName := value];
        i := i + 1;
      }
      ok := true;
    }

    /** `load_view_matrix`: every reached model's program holds the camera's view matrix. */
    method LoadViewMatrix() returns (ok: bool)
      modifies ModelObjects()`uniforms
      ensures ok <==> FirstPair(entries) == |entries|
      ensures forall m :: m in ModelObjects() ==>
                m.uniforms == if m in Reached() then old(m.uniforms)[ViewMatrixName := Written(MatrixValue(camera.view))]
                              else old(m.uniforms)
    {
      var value := Written(MatrixValue(camera.view));
      var i := 0;
      while i < |entries|
        invariant i <= FirstPair(entries)
        invariant forall m :: m in ModelObjects() ==>
                    m.uniforms == if m in (set j | 0 <= j < i :: entries[j].model) then old(m.uniforms)[ViewMatrixName := value]
                                  else old(m.uniforms)
      {
        if entries[i].Paired? {
          return false;
        }
        var m := entries[i].model;
        m.uniforms := m.uniforms[ViewMatrixName := value];
        i := i + 1;
      }
      ok := true;
    }

    /** `load_model_matrix`: every reached model's program holds that model's own matrix. */
    method LoadModelMatrix() returns (ok: bool)
      modifies ModelObjects()`uniforms
      ensures ok <==> FirstPair(entries) == |entries|
      ensures forall m :: m in ModelObjects() ==>
                m.uniforms == if m in Reached() then old(m.uniforms)[ModelMatrixName := Written(MatrixValue(m.modelMatrix))]
                              else old(m.uniforms)
    {
      var i := 0;
      while i < |entries|
        invariant i <= FirstPair(entries)
        invariant forall m :: m in ModelObjects() ==>
                    m.uniforms == if m in (set j | 0 <= j < i :: entries[j].model)
                                  then old(m.uniforms)[ModelMatrixName := Written(MatrixValue(m.modelMatrix))]
                                  else old(m.uniforms)
      {
        if entries[i].Paired? {
          return false;
        }
        var m := entries[i].model;
        m.uniforms := m.uniforms[ModelMatrixName := Written(MatrixValue(m.modelMatrix))];
        i := i + 1;
      }
      ok := true;
    }
  
    /**
     * The two uploads that open every pass of `render`'s loop:
     * `load_model_matrix()` then `load_view_matrix()`.
     */
    method Upload() returns (ok: bool)
      modifies ModelObjects()`uniforms
      ensures ok <==> FirstPair(entries) == |entries|
      ensures !ok ==> forall m :: m in ModelObjects() ==>
                m.uniforms == if m in Reached() then old(m.uniforms)[ModelMatrixName := Written(MatrixValue(m.modelMatrix))]
                              else old(m.uniforms)
      ensures ok ==> forall m :: m in ModelObjects() ==> m.uniforms == Synced(old(m.uniforms), m.modelMatrix, camera.view)
      ensures FirstBroken(entries) == old(FirstBroken(entries))
    {
      ok := LoadModelMatrix();
      if ok {
        ok := LoadViewMatrix();
      }
    }

    /**
     * `render`: for each entry, upload every model's matrix and the view
     * matrix, then draw that entry's model. A tuple anywhere makes the first
     * upload raise after the models before it; a model without a texture
     * or a vertex array raises when it is drawn, after the uploads.
     */
    method Render() returns (ok: bool)
      modifies ModelObjects()`uniforms, this`draws
      ensures ok <==> old(FirstBroken(entries)) == |entries|
      ensures FirstPair(entries) < |entries| ==>
                draws == old(draws) &&
                forall m :: m in ModelObjects() ==>
                  m.uniforms == if m in Reached() then old(m.uniforms)[ModelMatrixName := Written(MatrixValue(m.modelMatrix))]
                                else old(m.uniforms)
      ensures FirstPair(entries) == |entries| ==>
                (forall m :: m in ModelObjects() ==> m.uniforms == Synced(old(m.uniforms), m.modelMatrix, camera.view)) &&
                |draws| == |old(draws)| + old(FirstBroken(entries)) && draws[..|old(draws)|] == old(draws) &&
                forall j :: 0 <= j < old(FirstBroken(entries)) ==>
                  draws[|old(draws)| + j] == Draw(entries[j].model, entries[j].model.uniforms)
    {
      if |entries| == 0 {
        return true;
      }
      ok := Upload();
      if ok {
        ok := DrawAll();
      }
    }

    /** `Upload` when every program already holds what it would write: nothing changes. */
    method Reupload()
      requires FirstPair(entries) == |entries|
      requires forall m :: m in ModelObjects() ==> Synced(m.uniforms, m.modelMatrix, camera.view) == m.uniforms
      modifies ModelObjects()`uniforms
      ensures forall m :: m in ModelObjects() ==> m.uniforms == old(m.uniforms)
    {
      var ok := Upload();
    }

    /**
     * `render`'s loop once its first upload has met no tuple: every program
     * then holds its model's matrix and the view matrix, so each later upload
     * writes the values already there, and the models are drawn in list order
     * until one without a texture or a vertex array raises.
     */
    method DrawAll() returns (ok: bool)
      requires FirstPair(entries) == |entries|
      requires forall m :: m in ModelObjects() ==> Synced(m.uniforms, m.modelMatrix, camera.view) == m.uniforms
      modifies ModelObjects()`uniforms, this`draws
      ensures ok <==> old(FirstBroken(entries)) == |entries|
      ensures forall m :: m in ModelObjects() ==> m.uniforms == old(m.uniforms)
      ensures |draws| == |old(draws)| + old(FirstBroken(entries)) && draws[..|old(draws)|] == old(draws)
      ensures forall j :: 0 <= j < old(FirstBroken(entries)) ==>
                draws[|old(draws)| + j] == Draw(entries[j].model, entries[j].model.uniforms)
    {
      var es := entries;
      ghost var broken := old(FirstBroken(entries));
      var drawn: seq<Draw> := [];
      var i := 0;
      while i < |es|
        invariant i <= broken && |drawn| == i && draws == old(draws)
        invariant forall m :: m in ModelObjects() ==> m.uniforms == old(m.uniforms)
        invariant forall j :: 0 <= j < i ==> drawn[j] == Draw(es[j].model, es[j].model.uniforms)
      {
        if i > 0 {
          Reupload();
        }
        var m := es[i].model;
        if m.texture.None? || m.vao.None? {
          assert old(m.texture).None? || old(m.vao).None?;
          break;
        }
        assert old(m.texture).Some? && old(m.vao).Some?;
        drawn := drawn + [Draw(m, m.uniforms)];
        i := i + 1;
      }
      assert i == broken;
      draws := draws + drawn;
      ok := i == |es|;
    }

    /**
     * `CompanionCubeScene.render`: each pass turns its entry's model by
     * CubeSpin, uploads every model's matrix and the view matrix, stores the
     * camera position in the first entry's program and draws the entry's
     * model. A tuple makes the first pass raise, at `transform` when it is the
     * first entry and at `load_model_matrix` otherwise, after the first model
     * was turned.
     */
    method CompanionCubeRender() returns (ok: bool)
      modifies ModelObjects()`modelMatrix, ModelObjects()`transforms, ModelObjects()`uniforms, this`draws
      ensures ok <==> old(FirstBroken(entries)) == |entries|
      ensures FirstPair(entries) < |entries| && entries[0].Paired? ==>
                draws == old(draws) &&
                forall m :: m in ModelObjects() ==> m.modelMatrix == old(m.modelMatrix) && m.uniforms == old(m.uniforms)
      ensures FirstPair(entries) < |entries| && entries[0].Bare? ==>
                draws == old(draws) &&
                forall m :: m in ModelObjects() ==>
                  m.modelMatrix == (if m == entries[0].model then Product(old(m.modelMatrix), CubeSpin) else old(m.modelMatrix)) &&
                  m.uniforms == if m in Reached() then old(m.uniforms)[ModelMatrixName := Written(MatrixValue(m.modelMatrix))]
                                else old(m.uniforms)
      ensures FirstPair(entries) == |entries| ==>
                State() == SpunState(old(State()), entries, old(Passes(entries)), old(Passes(entries)), camera.view, camera.position) &&
                |draws| == |old(draws)| + old(FirstBroken(entries)) && draws[..|old(draws)|] == old(draws) &&
                draws[|old(draws)|..] == SpunDraws(old(State()), entries, old(FirstBroken(entries)), camera.view, camera.position)
    {
      if FirstPair(entries) < |entries| {
        if entries[0].Bare? {
          entries[0].model.Transform(CubeSpin);
          ok := LoadModelMatrix();
        }
        return false;
      }
      ok := SpinAll();
    }

    /** Every model's matrix and uniform table. */
    ghost function State(): map<Model.Model, Snapshot>
      reads this`entries, ModelObjects()`modelMatrix, ModelObjects()`uniforms
    {
      map m | m in ModelObjects() :: Snapshot(m.modelMatrix, m.uniforms)
    }

    /** `model.transform(rotation)` in pass i of `CompanionCubeScene.render`. */
    method Turn(i: nat, ghost start: map<Model.Model, Snapshot>)
      requires i < |entries|
      requires State() == SpunState(start, entries, i, i, camera.view, camera.position)
      modifies ModelObjects()`modelMatrix, ModelObjects()`transforms
      ensures State() == SpunState(start, entries, i + 1, i, camera.view, camera.position)
    {
      TurnOne(i);
      SpunTurn(start, entries, i, camera.view, camera.position);
    }

    /** Entry i's model turned by CubeSpin; nothing else changes. */
    method TurnOne(i: nat)
      requires i < |entries|
      modifies ModelObjects()`modelMatrix, ModelObjects()`transforms
      ensures State() == TurnedOnce(old(State()), entries[i].model)
    {
      ghost var before := State();
      var turned := entries[i].model;
      turned.Transform(CubeSpin);
      forall m | m in ModelObjects()
        ensures State()[m] == TurnedOnce(before, turned)[m]
      {
        assert before[m] == Snapshot(old(m.modelMatrix), old(m.uniforms));
      }
    }

    /**
     * The uploads of pass i of `CompanionCubeScene.render`, on a list without
     * tuples: every model's matrix, the view matrix, then the camera position
     * into the first entry's program.
     */
    method Store(i: nat, ghost start: map<Model.Model, Snapshot>)
      requires FirstPair(entries) == |entries| && i < |entries|
      requires State() == SpunState(start, entries, i + 1, i, camera.view, camera.position)
      modifies ModelObjects()`uniforms
      ensures State() == SpunState(start, entries, i + 1, i + 1, camera.view, camera.position)
    {
      UploadAll();
      StoreEye();
      SpunStore(start, entries, i, camera.view, camera.position);
    }

    /** `load_model_matrix()` then `load_view_matrix()` on a list without tuples. */
    method UploadAll()
      requires FirstPair(entries) == |entries|
      modifies ModelObjects()`uniforms
      ensures State() == Uploaded(old(State()), camera.view)
    {
      ghost var before := State();
      var uploaded := Upload();
      forall m | m in ModelObjects()
        ensures State()[m] == Uploaded(before, camera.view)[m]
      {
        assert before[m] == Snapshot(m.modelMatrix, old(m.uniforms));
      }
    }

    /** `self.models[0].shader_program['camera_position'] = self.app.camera.position` on a non-empty list without tuples. */
    method StoreEye()
      requires FirstPair(entries) == |entries| > 0
      modifies ModelObjects()`uniforms
      ensures State() == EyeStored(old(State()), entries[0].model, camera.position)
    {
      ghost var before := State();
      var stored := LoadUniform(0, CameraPositionName, VectorValue(camera.position));
      forall m | m in ModelObjects()
        ensures State()[m] == EyeStored(before, entries[0].model, camera.position)[m]
      {
        assert before[m] == Snapshot(m.modelMatrix, old(m.uniforms));
      }
    }

    /** One pass of `CompanionCubeScene.render`'s loop up to the draw, on a list without tuples; d is what the pass draws. */
    method SpinPass(i: nat, ghost start: map<Model.Model, Snapshot>) returns (d: Draw)
      requires FirstPair(entries) == |entries| && i < |entries|
      requires State() == SpunState(start, entries, i, i, camera.view, camera.position)
      modifies ModelObjects()`modelMatrix, ModelObjects()`transforms, ModelObjects()`uniforms
      ensures State() == SpunState(start, entries, i + 1, i + 1, camera.view, camera.position)
      ensures d == SpunDraw(start, entries, i, camera.view, camera.position)
      ensures FirstBroken(entries) == old(FirstBroken(entries))
    {
      Step(i, start);
      var m := entries[i].model;
      d := Draw(m, m.uniforms);
      StateAt(i);
      SpunDrawIs(start, entries, i, camera.view, camera.position);
      FirstBrokenKept(entries);
    }

    /** The turn and the uploads of pass i, on a list without tuples. */
    method Step(i: nat, ghost start: map<Model.Model, Snapshot>)
      requires FirstPair(entries) == |entries| && i < |entries|
      requires State() == SpunState(start, entries, i, i, camera.view, camera.position)
      modifies ModelObjects()`modelMatrix, ModelObjects()`transforms, ModelObjects()`uniforms
      ensures State() == SpunState(start, entries, i + 1, i + 1, camera.view, camera.position)
    {
      Turn(i, start);
      Store(i, start);
    }

    /** Entry i's model is in State(), with its current uniform table. */
    lemma StateAt(i: nat)
      requires i < |entries|
      ensures entries[i].model in State() && State()[entries[i].model].uniforms == entries[i].model.uniforms
    {
      assert entries[i].model in ModelObjects();
    }

    /** `CompanionCubeScene.render` over a list without tuples. */
    method SpinAll() returns (ok: bool)
      requires FirstPair(entries) == |entries|
      modifies ModelObjects()`modelMatrix, ModelObjects()`transforms, ModelObjects()`uniforms, this`draws
      ensures ok <==> old(FirstBroken(entries)) == |entries|
      ensures State() == SpunState(old(State()), entries, old(Passes(entries)), old(Passes(entries)), camera.view, camera.position)
      ensures |draws| == |old(draws)| + old(FirstBroken(entries)) && draws[..|old(draws)|] == old(draws)
      ensures draws[|old(draws)|..] == SpunDraws(old(State()), entries, old(FirstBroken(entries)), camera.view, camera.position)
    {
      var drawn;
      ok, drawn := SpinLoop();
      draws := draws + drawn;
      assert draws[|old(draws)|..] == drawn;
    }

    /** The loop of `CompanionCubeScene.render` over a list without tuples; drawn is what it draws, in order. */
    method SpinLoop() returns (ok: bool, drawn: seq<Draw>)
      requires FirstPair(entries) == |entries|
      modifies ModelObjects()`modelMatrix, ModelObjects()`transforms, ModelObjects()`uniforms
      ensures ok <==> old(FirstBroken(entries)) == |entries|
      ensures State() == SpunState(old(State()), entries, old(Passes(entries)), old(Passes(entries)), camera.view, camera.position)
      ensures drawn == SpunDraws(old(State()), entries, old(FirstBroken(entries)), camera.view, camera.position)
    {
      var es := entries;
      ghost var broken := old(FirstBroken(entries));
      ghost var passes := old(Passes(entries));
      ghost var start := old(State());
      ghost var view, eye := camera.view, camera.position;
      SpunStart(start, es, view, eye);
      assert passes == if broken < |es| then broken + 1 else broken;
      drawn := [];
      var i := 0;
      ok := true;
      while i < |es|
        invariant i <= broken && es == entries && FirstBroken(entries) == broken
        invariant ok && view == camera.view && eye == camera.position
        invariant State() == SpunState(start, es, i, i, view, eye)
        invariant drawn == SpunDraws(start, es, i, view, eye)
      {
        var d := SpinPass(i, start);
        if es[i].model.texture.None? || es[i].model.vao.None? {
          assert passes == i + 1;
          ok := false;
          break;
        }
        assert es[i].Bare? && i != broken;
        drawn := drawn + [d];
        i := i + 1;
      }
      assert i == broken;
      assert State() == SpunState(start, es, passes, passes, view, eye);
    }

    /** `destroy`: release the models in list order, stopping at a tuple or after a model without a texture. */
    method Destroy() returns (ok: bool)
      modifies this`destroyed
      ensures ok <==> Releases()
      ensures |destroyed| == |old(destroyed)| + Released(entries) && destroyed[..|old(destroyed)|] == old(destroyed)
      ensures forall j :: 0 <= j < Released(entries) ==> destroyed[|old(destroyed)| + j] == entries[j].model
    {
      var es := entries;
      ghost var broken := FirstUntextured(es);
      ghost var count := Released(es);
      var released: seq<Model.Model> := [];
      var i := 0;
      while i < |es|
        invariant i <= broken
        invariant |released| == i
        invariant forall j :: 0 <= j < i ==> released[j] == es[j].model
      {
        var entry := es[i];
        if entry.Paired? {
          assert i == broken && count == i;
          break;
        }
        released := released + [entry.model];
        if entry.model.texture.None? {
          assert i == broken && count == i + 1;
          break;
        }
        i := i + 1;
      }
      assert |released| == count;
      destroyed := destroyed + released;
      ok := i == |es|;
    }
  }
}
