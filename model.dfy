/**
 * modules/model.py: the Material presets and property setters, the Model
 * base class's transform and setters, and the vertex layout each Model
 * subclass declares for its mesh.
 */
module Model {
  import opened Wrappers
  import opened GlMath
  import opened Uniforms
  import opened Layout
  import Mesh

  /** One row of the preset table: shininess and the ambient, diffuse and specular reflectances. */
  datatype Coefficients = Coefficients(brightness: real, ambient: Vec3, diffuse: Vec3, specular: Vec3)

  /** `set_default_material`'s elif chain: the coefficients a name selects, None for a name matching no branch. */
  function Preset(name: string): Option<Coefficients>
  {
    if name == "basic" then Some(Coefficients(42.0, Vec3(1.0, 1.0, 1.0), Vec3(1.0, 1.0, 1.0), Vec3(1.0, 1.0, 1.0)))
    else if name == "brass" then Some(Coefficients(27.8974, Vec3(0.329412, 0.223529, 0.027451), Vec3(0.780392, 0.568627, 0.113725), Vec3(0.992157, 0.941176, 0.807843)))
    else if name == "bronze" then Some(Coefficients(25.6, Vec3(0.2125, 0.1275, 0.054), Vec3(0.714, 0.4284, 0.18144), Vec3(0.393548, 0.271906, 0.166721)))
    else if name == "polished_bronze" then Some(Coefficients(76.8, Vec3(0.25, 0.148, 0.06475), Vec3(0.4, 0.2368, 0.1036), Vec3(0.774597, 0.458561, 0.200621)))
    else if name == "chrome" then Some(Coefficients(84.48, Vec3(0.25, 0.25, 0.25), Vec3(0.4, 0.4, 0.4), Vec3(0.774597, 0.774597, 0.774597)))
    else if name == "copper" then Some(Coefficients(12.8, Vec3(0.19125, 0.0735, 0.0225), Vec3(0.7038, 0.27048, 0.0828), Vec3(0.256777, 0.137622, 0.086014)))
    else if name == "polished_copper" then Some(Coefficients(51.2, Vec3(0.2295, 0.08825, 0.0275), Vec3(0.5508, 0.2118, 0.066), Vec3(0.580594, 0.223257, 0.0695701)))
    else if name == "gold" then Some(Coefficients(51.2, Vec3(0.24725, 0.1995, 0.0745), Vec3(0.75164, 0.60648, 0.22648), Vec3(0.628281, 0.555802, 0.366065)))
    else if name == "polished_gold" then Some(Coefficients(83.2, Vec3(0.24725, 0.2245, 0.0645), Vec3(0.34615, 0.3143, 0.0903), Vec3(0.797357, 0.723991, 0.208006)))
    else if name == "pewter" then Some(Coefficients(9.84615, Vec3(0.105882, 0.058824, 0.113725), Vec3(0.427451, 0.470588, 0.541176), Vec3(0.333333, 0.333333, 0.521569)))
    else if name == "silver" then Some(Coefficients(51.2, Vec3(0.19225, 0.19225, 0.19225), Vec3(0.50754, 0.50754, 0.50754), Vec3(0.508273, 0.508273, 0.508273)))
    else if name == "polished_silver" then Some(Coefficients(89.6, Vec3(0.23125, 0.23125, 0.23125), Vec3(0.2775, 0.2775, 0.2775), Vec3(0.773911, 0.773911, 0.773911)))
    else if name == "emerald" then Some(Coefficients(76.8, Vec3(0.0215, 0.1745, 0.0215), Vec3(0.07568, 0.61424, 0.07568), Vec3(0.633, 0.727811, 0.633)))
    else if name == "jade" then Some(Coefficients(12.8, Vec3(0.135, 0.2225, 0.1575), Vec3(0.54, 0.89, 0.63), Vec3(0.316228, 0.316228, 0.316228)))
    else if name == "obsidian" then Some(Coefficients(38.4, Vec3(0.05375, 0.05, 0.06625), Vec3(0.18275, 0.17, 0.22525), Vec3(0.332741, 0.328634, 0.346435)))
    else if name == "pearl" then Some(Coefficients(113.664, Vec3(0.25, 0.20725, 0.20725), Vec3(1.0, 0.829, 0.829), Vec3(0.296648, 0.296648, 0.296648)))
    else if name == "ruby" then Some(Coefficients(76.8, Vec3(0.1745, 0.01175, 0.01175), Vec3(0.61424, 0.04136, 0.04136), Vec3(0.727811, 0.626959, 0.626959)))
    else if name == "turquoise" then Some(Coefficients(12.8, Vec3(0.1, 0.18725, 0.1745), Vec3(0.396, 0.74151, 0.69102), Vec3(0.297254, 0.30829, 0.306678)))
    else if name == "black_plastic" then Some(Coefficients(32.0, Vec3(0.0, 0.0, 0.0), Vec3(0.01, 0.01, 0.01), Vec3(0.5, 0.5, 0.5)))
    else if name == "cyan_plastic" then Some(Coefficients(32.0, Vec3(0.0, 0.1, 0.06), Vec3(0.0, 0.50980392, 0.50980392), Vec3(0.50196078, 0.50196078, 0.50196078)))
    else if name == "green_plastic" then Some(Coefficients(32.0, Vec3(0.0, 0.0, 0.0), Vec3(0.1, 0.35, 0.1), Vec3(0.45, 0.55, 0.45)))
    else if name == "red_plastic" then Some(Coefficients(32.0, Vec3(0.0, 0.0, 0.0), Vec3(0.5, 0.0, 0.0), Vec3(0.7, 0.6, 0.6)))
    else if name == "white_plastic" then Some(Coefficients(32.0, Vec3(0.0, 0.0, 0.0), Vec3(0.55, 0.55, 0.55), Vec3(0.7, 0.7, 0.7)))
    else if name == "yellow_plastic" then Some(Coefficients(32.0, Vec3(0.0, 0.0, 0.0), Vec3(0.5, 0.5, 0.0), Vec3(0.6, 0.6, 0.5)))
    else if name == "black_rubber" then Some(Coefficients(10.0, Vec3(0.02, 0.02, 0.02), Vec3(0.01, 0.01, 0.01), Vec3(0.4, 0.4, 0.4)))
    else if name == "cyan_rubber" then Some(Coefficients(10.0, Vec3(0.02, 0.05, 0.05), Vec3(0.4, 0.5, 0.5), Vec3(0.04, 0.7, 0.7)))
    else if name == "green_rubber" then Some(Coefficients(10.0, Vec3(0.0, 0.05, 0.0), Vec3(0.4, 0.5, 0.4), Vec3(0.04, 0.7, 0.04)))
    else if name == "red_rubber" then Some(Coefficients(10.0, Vec3(0.05, 0.0, 0.0), Vec3(0.5, 0.4, 0.4), Vec3(0.7, 0.04, 0.04)))
    else if name == "white_rubber" then Some(Coefficients(10.0, Vec3(0.05, 0.05, 0.05), Vec3(0.5, 0.5, 0.5), Vec3(0.7, 0.7, 0.7)))
    else if name == "yellow_rubber" then Some(Coefficients(10.0, Vec3(0.05, 0.05, 0.0), Vec3(0.5, 0.5, 0.4), Vec3(0.7, 0.7, 0.04)))
    else None
  }

  const PresetNames: set<string> :=
    {"basic", "brass", "bronze", "polished_bronze", "chrome",
     "copper", "polished_copper", "gold", "polished_gold", "pewter",
     "silver", "polished_silver", "emerald", "jade", "obsidian",
     "pearl", "ruby", "turquoise", "black_plastic", "cyan_plastic",
     "green_plastic", "red_plastic", "white_plastic", "yellow_plastic", "black_rubber",
     "cyan_rubber", "green_rubber", "red_rubber", "white_rubber", "yellow_rubber"}

  /** Exactly the 30 names of the chain select a preset. */
  lemma PresetDefined(name: string)
    ensures Preset(name).Some? <==> name in PresetNames
  {
  }

  predicate InUnit(v: Vec3)
  {
    0.0 <= v.x <= 1.0 && 0.0 <= v.y <= 1.0 && 0.0 <= v.z <= 1.0
  }

  /** Every preset's shininess lies in [9.84615, 113.664] and every reflectance component in [0, 1]. */
  lemma PresetBounds(name: string)
    requires Preset(name).Some?
    ensures 9.84615 <= Preset(name).value.brightness <= 113.664
    ensures InUnit(Preset(name).value.ambient) && InUnit(Preset(name).value.diffuse) && InUnit(Preset(name).value.specular)
  {
    PresetDefined(name);
    if name == "basic" {
    } else if name == "brass" {
    } else if name == "bronze" {
    } else if name == "polished_bronze" {
    } else if name == "chrome" {
    } else if name == "copper" {
    } else if name == "polished_copper" {
    } else if name == "gold" {
    } else if name == "polished_gold" {
    } else if name == "pewter" {
    } else if name == "silver" {
    } else if name == "polished_silver" {
    } else if name == "emerald" {
    } else if name == "jade" {
    } else if name == "obsidian" {
    } else if name == "pearl" {
    } else if name == "ruby" {
    } else if name == "turquoise" {
    } else if name == "black_plastic" {
    } else if name == "cyan_plastic" {
    } else if name == "green_plastic" {
    } else if name == "red_plastic" {
    } else if name == "white_plastic" {
    } else if name == "yellow_plastic" {
    } else if name == "black_rubber" {
    } else if name == "cyan_rubber" {
    } else if name == "green_rubber" {
    } else if name == "red_rubber" {
    } else if name == "white_rubber" {
    } else if name == "yellow_rubber" {
    }
  }

  /** The four `_`-fields of a Material; None is a field never assigned, whose property read raises AttributeError. */
  datatype Fields = Fields(brightness: Option<real>, ambient: Option<Vec3>, diffuse: Option<Vec3>, specular: Option<Vec3>)

  const Unassigned := Fields(None, None, None, None)

  /** The `if`/`elif` chain of `set_default_material`: a known name assigns all four fields, any other leaves them. */
  function ApplyPreset(f: Fields, name: string): (r: Fields)
    ensures Preset(name).None? ==> r == f
    ensures Preset(name).Some? ==> r.brightness.Some? && r.ambient.Some? && r.diffuse.Some? && r.specular.Some?
    ensures Preset(name).Some? ==> r.brightness.value == Preset(name).value.brightness
  {
    match Preset(name)
    case None => f
    case Some(c) => Fields(Some(c.brightness), Some(c.ambient), Some(c.diffuse), Some(c.specular))
  }

  /** A recognised name sets all four fields to its row; any other name leaves them as they were. */
  lemma ApplyPresetEffect(f: Fields, name: string)
    ensures name !in PresetNames ==> ApplyPreset(f, name) == f
    ensures name in PresetNames ==>
              && ApplyPreset(f, name).brightness == Some(Preset(name).value.brightness)
              && ApplyPreset(f, name).ambient == Some(Preset(name).value.ambient)
              && ApplyPreset(f, name).diffuse == Some(Preset(name).value.diffuse)
              && ApplyPreset(f, name).specular == Some(Preset(name).value.specular)
  {
    PresetDefined(name);
  }

  /** `if name:` -- None and the empty string fall back to `'basic'`. */
  function PresetChoice(name: Option<string>): (r: string)
    ensures name.Some? && name.value != "" ==> r == name.value
    ensures name.None? || name.value == "" ==> r == "basic"
  {
    if name.Some? && name.value != "" then name.value else "basic"
  }

  /** Python truthiness of the brightness argument: None and 0 are false. */
  predicate TruthyReal(b: Option<real>)
  {
    b.Some? && b.value != 0.0
  }

  /**
   * The fields `Material.__init__` leaves: the preset first, then each truthy
   * argument over it. A truthy argument always wins, and without a name (or
   * with an empty one) every field is assigned.
   */
  function Construct(brightness: Option<real>, ambient: Option<Vec3>, diffuse: Option<Vec3>, specular: Option<Vec3>,
                     name: Option<string>): (r: Fields)
    ensures TruthyReal(brightness) ==> r.brightness == brightness
    ensures ambient.Some? ==> r.ambient == ambient
    ensures diffuse.Some? ==> r.diffuse == diffuse
    ensures specular.Some? ==> r.specular == specular
    ensures name.None? || name.value == "" ==> r.brightness.Some? && r.ambient.Some? && r.diffuse.Some? && r.specular.Some?
  {
    var f := ApplyPreset(Unassigned, PresetChoice(name));
    Fields(if TruthyReal(brightness) then brightness else f.brightness,
           if ambient.Some? then ambient else f.ambient,
           if diffuse.Some? then diffuse else f.diffuse,
           if specular.Some? then specular else f.specular)
  }

  /** `Material()`: shininess 42 and every reflectance (1, 1, 1). */
  lemma ConstructDefault()
    ensures Construct(None, None, None, None, None)
            == Fields(Some(42.0), Some(Vec3(1.0, 1.0, 1.0)), Some(Vec3(1.0, 1.0, 1.0)), Some(Vec3(1.0, 1.0, 1.0)))
  {
  }

  /** A name the chain does not know and no overrides: no field is ever assigned. */
  lemma ConstructUnknownName(name: string)
    requires name != "" && name !in PresetNames
    ensures Construct(None, None, None, None, Some(name)) == Unassigned
  {
    PresetDefined(name);
  }

  /**
   * Each field is the argument when that is truthy and the chosen preset's
   * value otherwise; a brightness of 0 counts as absent, and an empty name
   * as no name.
   */
  lemma ConstructOverrides(brightness: Option<real>, ambient: Option<Vec3>, diffuse: Option<Vec3>, specular: Option<Vec3>,
                           name: Option<string>)
    ensures var r := Construct(brightness, ambient, diffuse, specular, name);
            var p := ApplyPreset(Unassigned, PresetChoice(name));
            && (TruthyReal(brightness) ==> r.brightness == brightness)
            && (!TruthyReal(brightness) ==> r.brightness == p.brightness)
            && (ambient.Some? ==> r.ambient == ambient) && (ambient.None? ==> r.ambient == p.ambient)
            && (diffuse.Some? ==> r.diffuse == diffuse) && (diffuse.None? ==> r.diffuse == p.diffuse)
            && (specular.Some? ==> r.specular == specular) && (specular.None? ==> r.specular == p.specular)
    ensures Construct(Some(0.0), ambient, diffuse, specular, name) == Construct(None, ambient, diffuse, specular, name)
    ensures Construct(brightness, ambient, diffuse, specular, Some("")) == Construct(brightness, ambient, diffuse, specular, None)
  {
  }

  class Material {
    var brightness: Option<real>
    var ambient: Option<Vec3>
    var diffuse: Option<Vec3>
    var specular: Option<Vec3>

    function State(): Fields
      reads this
    {
      Fields(brightness, ambient, diffuse, specular)
    }

    /** `Material.__init__` (modules/model.py:31-49). */
    constructor(brightness: Option<real>, ambient: Option<Vec3>, diffuse: Option<Vec3>, specular: Option<Vec3>,
                name: Option<string>)
      ensures State() == Construct(brightness, ambient, diffuse, specular, name)
    {
      this.brightness, this.ambient, this.diffuse, this.specular := None, None, None, None;
      new;
      SetDefaultMaterial(PresetChoice(name));
      if TruthyReal(brightness) {
        this.brightness := brightness;
      }
      if ambient.Some? {
        this.ambient := ambient;
      }
      if diffuse.Some? {
        this.diffuse := diffuse;
      }
      if specular.Some? {
        this.specular := specular;
      }
    }

    /** `set_default_material(name)`. */
    method SetDefaultMaterial(name: string)
      modifies this
      ensures State() == ApplyPreset(old(State()), name)
    {
      match Preset(name)
      case None =>
      case Some(c) =>
        brightness, ambient, diffuse, specular := Some(c.brightness), Some(c.ambient), Some(c.diffuse), Some(c.specular);
    }

    /** The `surface_brightness` setter: stores the value as given, whatever its truthiness. */
    method SetBrightness(b: real)
      modifies this
      ensures State() == old(State()).(brightness := Some(b))
    {
      brightness := Some(b);
    }

    method SetAmbient(v: Vec3)
      modifies this
      ensures State() == old(State()).(ambient := Some(v))
    {
      ambient := Some(v);
    }

    method SetDiffuse(v: Vec3)
      modifies this
      ensures State() == old(State()).(diffuse := Some(v))
    {
      diffuse := Some(v);
    }

    method SetSpecular(v: Vec3)
      modifies this
      ensures State() == old(State()).(specular := Some(v))
    {
      specular := Some(v);
    }
  }

  /** A texture object, known by the image it was loaded from. */
  datatype Texture = Texture(path: string)

  /** The matrix `m` after `m *= t` for each t in turn: the transforms compose on the right. */
  function Composed(m: Mat, transforms: seq<Mat>): Mat
    decreases |transforms|
  {
    if transforms == [] then m else Composed(Product(m, transforms[0]), transforms[1..])
  }

  lemma {:induction false} ComposedAppend(m: Mat, transforms: seq<Mat>, t: Mat)
    ensures Composed(m, transforms + [t]) == Product(Composed(m, transforms), t)
    decreases |transforms|
  {
    if transforms != [] {
      assert (transforms + [t])[1..] == transforms[1..] + [t];
      ComposedAppend(Product(m, transforms[0]), transforms[1..], t);
    }
  }

  /** A vertex array as `set_vao` declares it: the layout string and the attribute names it binds. */
  datatype VertexArray = VertexArray(format: string, attributes: seq<string>)

  class Model {
    var position: Vec3
    var modelMatrix: Mat
    var material: Material
    var texture: Option<Texture>
    /** The vertex array `set_vao` binds; None until a subclass calls it, and `render` then raises. */
    var vao: Option<VertexArray>
    /** The uniform table of the model's shader program. */
    var uniforms: Table
    /** Every matrix passed to `transform` so far, in order. */
    ghost var transforms: seq<Mat>

    ghost predicate Valid()
      reads this
    {
      modelMatrix == Composed(Translate(Identity, position), transforms)
    }

    /** `Model.__init__` (modules/model.py:245-255): translated identity, default material, no texture and no vertex array. */
    constructor(position: Vec3)
      ensures Valid() && transforms == []
      ensures this.position == position && modelMatrix == Translate(Identity, position)
      ensures fresh(material) && material.State() == Construct(None, None, None, None, None)
      ensures texture == None && vao == None && uniforms == map[]
    {
      this.position := position;
      modelMatrix := Translate(Identity, position);
      material := new Material(None, None, None, None, None);
      texture := None;
      vao := None;
      uniforms := map[];
      transforms := [];
    }

    /** `transform`: `self._model_matrix *= t`. */
    method Transform(t: Mat)
      modifies this`modelMatrix, this`transforms
      ensures old(Valid()) ==> Valid()
      ensures modelMatrix == Product(old(modelMatrix), t)
      ensures transforms == old(transforms) + [t]
    {
      ComposedAppend(Translate(Identity, position), transforms, t);
      modelMatrix := Product(modelMatrix, t);
      transforms := transforms + [t];
    }

    method SetMaterial(m: Material)
      modifies this`material
      ensures material == m
    {
      material := m;
    }

    method SetTexture(t: Texture)
      modifies this`texture
      ensures texture == Some(t)
    {
      texture := Some(t);
    }

    /** `set_vao`: binds one buffer under a format string and its attribute names. */
    method SetVao(format: string, attributes: seq<string>)
      modifies this`vao
      ensures vao == Some(VertexArray(format, attributes))
    {
      vao := Some(VertexArray(format, attributes));
    }
  }

  /** The Model subclasses. */
  datatype Kind =
    | CompanionCubeModel | WoodenBoxModel | MetalBoxModel | GoldenBoxModel | TexturedCubeModel
    | ColoredCubeModel | WireCubeModel

  /** Floats per vertex of each subclass's mesh rows. */
  function KindStride(k: Kind): nat
  {
    if k.ColoredCubeModel? then 6 else if k.WireCubeModel? then 3 else 8
  }

  /** The rows each subclass uploads: its mesh's `get_vertex_data`. */
  function KindVertexData(k: Kind): (r: seq<seq<real>>)
    ensures forall i :: 0 <= i < |r| ==> |r[i]| == KindStride(k)
  {
    if k.ColoredCubeModel? then Mesh.SolidCubeVertexData()
    else if k.WireCubeModel? then Mesh.WireCubeVertexData()
    else Mesh.TexturedCubeVertexData()
  }

  /** The format each subclass passes to `set_vao`; for the wire cube, the corrected one (see WireCubeLayoutAsWritten). */
  function KindFormat(k: Kind): string
  {
    match k
    case ColoredCubeModel => ColorPositionFormat
    case WireCubeModel => PositionFormat
    case _ => TexturedFormat
  }

  function KindAttributes(k: Kind): seq<string>
  {
    match k
    case ColoredCubeModel => ["in_color", "in_position"]
    case WireCubeModel => ["in_position"]
    case _ => ["in_texcoord", "in_normal", "in_position"]
  }

  /** The preset a subclass applies to its material after construction. */
  function KindPreset(k: Kind): Option<string>
  {
    match k
    case MetalBoxModel => Some("chrome")
    case GoldenBoxModel => Some("polished_gold")
    case _ => None
  }

  /** Every subclass's declared layout fits its mesh's rows: one name per attribute and a stride equal to the row width. */
  lemma KindLayoutFits(k: Kind)
    ensures Fits(KindFormat(k), KindAttributes(k), KindVertexData(k))
  {
    KindParsed(k);
  }

  /** Each subclass's format string parses, one attribute per name, with the stride of its rows. */
  lemma KindParsed(k: Kind)
    ensures ParseFormat(KindFormat(k)).Some? && |ParseFormat(KindFormat(k)).value| == |KindAttributes(k)|
    ensures Stride(ParseFormat(KindFormat(k)).value) == KindStride(k)
  {
    KnownFormats();
  }

  lemma ColoredCubeLayout()
    ensures Fits(ColorPositionFormat, ["in_color", "in_position"], Mesh.SolidCubeVertexData())
  {
    KnownFormats();
  }

  lemma WireCubeLayout()
    ensures Fits(PositionFormat, ["in_position"], Mesh.WireCubeVertexData())
  {
    KnownFormats();
  }

  lemma TexturedLayout(names: seq<string>)
    requires |names| == 3
    ensures Fits(TexturedFormat, names, Mesh.TexturedCubeVertexData())
  {
    KnownFormats();
  }

  /** The material fields a subclass ends up with: `Material()`'s defaults, then its preset if it has one. */
  function KindFields(k: Kind): Fields
  {
    var f := Construct(None, None, None, None, None);
    if KindPreset(k).Some? then ApplyPreset(f, KindPreset(k).value) else f
  }

  /** A subclass with a preset carries exactly that preset's row (chrome for MetalBoxModel, polished gold for
      GoldenBoxModel); every other subclass keeps shininess 42 and reflectances (1, 1, 1). */
  lemma KindMaterial(k: Kind)
    ensures KindPreset(k).Some? ==>
              && KindPreset(k).value in PresetNames
              && Preset(KindPreset(k).value).Some?
              && var c := Preset(KindPreset(k).value).value;
                 KindFields(k) == Fields(Some(c.brightness), Some(c.ambient), Some(c.diffuse), Some(c.specular))
    ensures k == MetalBoxModel ==> KindFields(k).brightness == Some(84.48)
    ensures k == GoldenBoxModel ==> KindFields(k).brightness == Some(83.2)
    ensures KindPreset(k).None? ==>
              KindFields(k) == Fields(Some(42.0), Some(Vec3(1.0, 1.0, 1.0)), Some(Vec3(1.0, 1.0, 1.0)), Some(Vec3(1.0, 1.0, 1.0)))
  {
  }

  /** The layout WireCubeModel declares in the source. */
  const WireCubeFormatAsWritten := ColorPositionFormat
  const WireCubeAttributesAsWritten := ["in_color", "in_position"]

  /** As written, the wire cube's layout asks for 6 floats per vertex while its mesh rows hold 3. */
  lemma WireCubeLayoutAsWritten()
    ensures ParseFormat(WireCubeFormatAsWritten) == Some([3, 3]) && Stride([3, 3]) == 6
    ensures forall k :: 0 <= k < |Mesh.WireCubeVertexData()| ==> |Mesh.WireCubeVertexData()[k]| == 3
    ensures !Fits(WireCubeFormatAsWritten, WireCubeAttributesAsWritten, Mesh.WireCubeVertexData())
  {
    KnownFormats();
    assert |Mesh.WireCubeVertexData()[0]| == 3;
  }
}
