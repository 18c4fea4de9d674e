/**
 * A scene material (src/base/scene/material.cpp): a record of shading
 * parameters plus the file name of a diffuse texture, read from and saved to
 * a property tree.
 */
module SceneMaterial {
  import opened Wrappers
  import opened Float32
  import opened PropertyTree

  /** A glm::vec3 of floats. */
  type Vec3 = s: seq<Float> | |s| == 3 witness [Zero, Zero, Zero]

  /** glm::vec3(1.0f): the colour every read starts from. */
  const White: Vec3 := [One, One, One]

  const AlbedoKey := "albedo"
  const RoughnessKey := "roughness"
  const DiffuseColorKey := "diffuseColor"
  const SpecularColorKey := "specularColor"
  const DiffuseTextureKey := "diffuseTexture"

  /** The shading parameters uploaded to the GPU (MaterialUBO). */
  datatype MaterialUBO = MaterialUBO(albedo: Float, roughness: Float, diffuseColor: Vec3, specularColor: Vec3)

  /** Everything a Material holds: its record and the diffuse texture's file name. */
  datatype MaterialValue = MaterialValue(data: MaterialUBO, diffuseFilename: string)

  /** The exceptions reading can raise. */
  datatype ReadError =
    | NoSuchChild(key: string)       // get_child on a missing key (ptree_bad_path)
    | BadData(key: string)           // an array element whose text is not a float (ptree_bad_data)
    | WrongArrayFormat(key: string)  // a colour array with a fourth element (logic_error)

  /** The exception `diffuseTexture` raises when no file name is set. */
  datatype TextureError = EmptyFilename

  /** What reading leaves in the material, and the error it raised if any: there is no rollback. */
  datatype ReadOutcome = ReadOutcome(value: MaterialValue, error: Option<ReadError>)

  /** What one colour loop leaves in its colour, and the error it raised if any. */
  datatype ColorOutcome = ColorOutcome(color: Vec3, error: Option<ReadError>)

  predicate NaNFree(d: MaterialUBO) {
    && !IsNaN(d.albedo) && !IsNaN(d.roughness)
    && !IsNaN(d.diffuseColor[0]) && !IsNaN(d.diffuseColor[1]) && !IsNaN(d.diffuseColor[2])
    && !IsNaN(d.specularColor[0]) && !IsNaN(d.specularColor[1]) && !IsNaN(d.specularColor[2])
  }

  /** Every float field is finite: no infinity and no NaN. */
  predicate FiniteFields(d: MaterialUBO)
    ensures FiniteFields(d) ==> NaNFree(d)
  {
    && IsFinite(d.albedo) && IsFinite(d.roughness)
    && IsFinite(d.diffuseColor[0]) && IsFinite(d.diffuseColor[1]) && IsFinite(d.diffuseColor[2])
    && IsFinite(d.specularColor[0]) && IsFinite(d.specularColor[1]) && IsFinite(d.specularColor[2])
  }

  /** The keys `save` writes. */
  const MaterialKeys := {AlbedoKey, RoughnessKey, DiffuseColorKey, SpecularColorKey, DiffuseTextureKey}

  // ---------------------------------------------------------------- reading

  /** Every element of an array node holds text that converts to a float. */
  predicate AllParse(elems: seq<(string, Tree)>, text: FloatText) {
    forall j :: 0 <= j < |elems| ==> text.parse(elems[j].1.data).Some?
  }

  /** The floats held by the elements of an array node. */
  function Values(elems: seq<(string, Tree)>, text: FloatText): (vs: seq<Float>)
    requires AllParse(elems, text)
    ensures |vs| == |elems|
    ensures forall j :: 0 <= j < |elems| ==> text.parse(elems[j].1.data) == Some(vs[j])
  {
    if elems == [] then [] else [text.parse(elems[0].1.data).value] + Values(elems[1..], text)
  }

  /** Index of the first element whose text does not convert (|elems| if there is none). */
  function FirstUnparsed(elems: seq<(string, Tree)>, text: FloatText): (p: nat)
    ensures p <= |elems| && AllParse(elems[..p], text)
    ensures p < |elems| ==> text.parse(elems[p].1.data).None?
  {
    if elems == [] then 0
    else if text.parse(elems[0].1.data).None? then 0
    else
      var p := 1 + FirstUnparsed(elems[1..], text);
      assert forall j :: 1 <= j < p ==> elems[..p][j] == elems[1..][..p - 1][j - 1];
      p
  }

  /** `color` with components i .. i+|vals|-1 replaced by `vals`. */
  function Overlay(color: Vec3, i: nat, vals: seq<Float>): (r: Vec3)
    requires i + |vals| <= 3
  {
    color[..i] + vals + color[i + |vals|..]
  }

  /**
   * The colour loop of `read` from element counter i on: each element is
   * rejected when i has reached 3, otherwise converted and written to
   * component i. Components already written stay written when it throws.
   */
  function FillColor(color: Vec3, elems: seq<(string, Tree)>, i: nat, key: string, text: FloatText): (r: ColorOutcome)
    requires i <= 3
    ensures r.error in {None, Some(BadData(key)), Some(WrongArrayFormat(key))}
    ensures r.error.None? ==> i + |elems| <= 3
    decreases |elems|
  {
    if elems == [] then ColorOutcome(color, None)
    else if i >= 3 then ColorOutcome(color, Some(WrongArrayFormat(key)))
    else match text.parse(elems[0].1.data)
      case None => ColorOutcome(color, Some(BadData(key)))
      case Some(v) => FillColor(color[i := v], elems[1..], i + 1, key, text)
  }

  /** One colour array read into a fresh white colour, the counter starting at 0. */
  function ReadColor(elems: seq<(string, Tree)>, key: string, text: FloatText): (r: ColorOutcome)
    ensures r.error in {None, Some(BadData(key)), Some(WrongArrayFormat(key))}
    ensures r.error.None? ==> |elems| <= 3
    ensures elems == [] ==> r == ColorOutcome(White, None)
  {
    FillColor(White, elems, 0, key, text)
  }

  /** The elements of the first child under `key`; none when the key is absent. */
  function ArrayElements(t: Tree, key: string): (elems: seq<(string, Tree)>)
    ensures !HasKey(t, key) ==> elems == []
  {
    match GetChildOptional(t, key)
    case None => []
    case Some(c) => c.children
  }

  /**
   * `Material::read(tree)`: what the material holds after reading `t`, starting
   * from `prior`, and the error raised, if any.
   */
  function ReadMaterial(t: Tree, text: FloatText, prior: MaterialValue): (r: ReadOutcome)
    ensures !HasKey(t, AlbedoKey) ==> r.value.data.albedo == One
    ensures !HasKey(t, RoughnessKey) ==> r.value.data.roughness == Zero
    ensures forall c, v :: GetChildOptional(t, AlbedoKey) == Some(c) && text.parse(c.data) == Some(v)
                           ==> r.value.data.albedo == v
    ensures forall c, v :: GetChildOptional(t, RoughnessKey) == Some(c) && text.parse(c.data) == Some(v)
                           ==> r.value.data.roughness == v
    ensures !HasKey(t, DiffuseColorKey) ==> r.value.data.diffuseColor == White
    ensures !HasKey(t, SpecularColorKey) ==> r.value.data.specularColor == White
    ensures r.error.Some? ==> r.value.diffuseFilename == prior.diffuseFilename
    ensures r.error.None? && !HasKey(t, DiffuseTextureKey) ==> r.value.diffuseFilename == ""
    ensures r.error.None? ==> forall c :: GetChildOptional(t, DiffuseTextureKey) == Some(c)
                                         ==> r.value.diffuseFilename == c.data
  {
    var albedo := GetOr(t, AlbedoKey, text.parse, One);
    var roughness := GetOr(t, RoughnessKey, text.parse, Zero);
    var diffuse := ReadColor(ArrayElements(t, DiffuseColorKey), DiffuseColorKey, text);
    if diffuse.error.Some? then
      ReadOutcome(MaterialValue(MaterialUBO(albedo, roughness, diffuse.color, White), prior.diffuseFilename),
                  diffuse.error)
    else
      var specular := ReadColor(ArrayElements(t, SpecularColorKey), SpecularColorKey, text);
      var data := MaterialUBO(albedo, roughness, diffuse.color, specular.color);
      if specular.error.Some? then
        ReadOutcome(MaterialValue(data, prior.diffuseFilename), specular.error)
      else
        ReadOutcome(MaterialValue(data, GetString(t, DiffuseTextureKey, "")), None)
  }

  /**
   * `Material::read(root, name)`: reads the child `name` of `root`;
   * a missing child raises before anything is written.
   */
  function ReadObject(root: Tree, name: string, text: FloatText, prior: MaterialValue): (r: ReadOutcome)
    ensures !HasKey(root, name) ==> r == ReadOutcome(prior, Some(NoSuchChild(name)))
  {
    match GetChildOptional(root, name)
    case None => ReadOutcome(prior, Some(NoSuchChild(name)))
    case Some(c) => ReadMaterial(c, text, prior)
  }

  // ----------------------------------------------------------------- saving

  /** The elements `save` pushes back for the components in `c`, in order. */
  function ColorElements(c: seq<Float>, text: FloatText): seq<(string, Tree)>
    decreases |c|
  {
    if c == [] then [] else ColorElements(c[..|c| - 1], text) + [("", Leaf(text.format(c[|c| - 1])))]
  }

  /** The array node `save` builds for a colour. */
  function ColorArray(c: Vec3, text: FloatText): Tree {
    Tree("", ColorElements(c, text))
  }

  /** `Material::save(tree)`: `tree` with the material's five entries put or added. */
  function SaveMaterial(t: Tree, v: MaterialValue, text: FloatText): (r: Tree)
    ensures r.data == t.data
    ensures forall k :: k !in MaterialKeys ==> GetChildOptional(r, k) == GetChildOptional(t, k)
  {
    var t1 := Put(t, AlbedoKey, text.format(v.data.albedo));
    var t2 := Put(t1, RoughnessKey, text.format(v.data.roughness));
    var t3 := AddChild(t2, DiffuseColorKey, ColorArray(v.data.diffuseColor, text));
    var t4 := AddChild(t3, SpecularColorKey, ColorArray(v.data.specularColor, text));
    PutKeepsOthers(t, AlbedoKey, text.format(v.data.albedo));
    PutKeepsOthers(t1, RoughnessKey, text.format(v.data.roughness));
    AddChildKeepsOthers(t2, DiffuseColorKey, ColorArray(v.data.diffuseColor, text));
    AddChildKeepsOthers(t3, SpecularColorKey, ColorArray(v.data.specularColor, text));
    PutKeepsOthers(t4, DiffuseTextureKey, v.diffuseFilename);
    Put(t4, DiffuseTextureKey, v.diffuseFilename)
  }

  /** `Material::save(root, name)`: a fresh tree saved and added to `root` under `name`. */
  function SaveObject(root: Tree, name: string, v: MaterialValue, text: FloatText): (r: Tree)
    ensures r.data == root.data
    ensures !HasKey(root, name) ==> GetChildOptional(r, name) == Some(SaveMaterial(Empty, v, text))
    ensures HasKey(root, name) ==> GetChildOptional(r, name) == GetChildOptional(root, name)
    ensures forall k :: k != name ==> GetChildOptional(r, k) == GetChildOptional(root, k)
  {
    GetAfterAddChild(root, name, SaveMaterial(Empty, v, text), name);
    AddChildKeepsOthers(root, name, SaveMaterial(Empty, v, text));
    AddChild(root, name, SaveMaterial(Empty, v, text))
  }

  // --------------------------------------------------------------- equality

  /** glm's `==` on vec3: componentwise float `==`. */
  predicate VecEq(a: Vec3, b: Vec3) {
    Eq(a[0], b[0]) && Eq(a[1], b[1]) && Eq(a[2], b[2])
  }

  /** `Material::equal`: exact field-wise comparison, with no tolerance on floats. */
  predicate FieldsEqual(a: MaterialValue, b: MaterialValue)
    ensures FieldsEqual(a, b) ==> NaNFree(a.data) && NaNFree(b.data) && a.diffuseFilename == b.diffuseFilename
    ensures a == b ==> (FieldsEqual(a, b) <==> NaNFree(a.data))
  {
    && Eq(a.data.albedo, b.data.albedo)
    && Eq(a.data.roughness, b.data.roughness)
    && VecEq(a.data.diffuseColor, b.data.diffuseColor)
    && VecEq(a.data.specularColor, b.data.specularColor)
    && a.diffuseFilename == b.diffuseFilename
  }

  // ------------------------------------------------------ colour loop lemmas

  /**
   * Running the colour loop over p elements that all convert writes their
   * values to components i .. i+p-1 and continues with the rest.
   */
  lemma {:induction false} FillColorPrefix(color: Vec3, elems: seq<(string, Tree)>, i: nat, key: string,
                                           text: FloatText, p: nat)
    requires p <= |elems| && i + p <= 3 && AllParse(elems[..p], text)
    ensures FillColor(color, elems, i, key, text)
         == FillColor(Overlay(color, i, Values(elems[..p], text)), elems[p..], i + p, key, text)
    decreases p
  {
    if p == 0 {
      assert Overlay(color, i, Values(elems[..0], text)) == color;
      assert elems[0..] == elems;
    } else {
      var v := text.parse(elems[0].1.data).value;
      assert text.parse(elems[..p][0].1.data).Some?;
      var rest := elems[1..];
      assert rest[..p - 1] == elems[..p][1..];
      assert AllParse(rest[..p - 1], text);
      FillColorPrefix(color[i := v], rest, i + 1, key, text, p - 1);
      assert Values(elems[..p], text) == [v] + Values(rest[..p - 1], text);
      assert Overlay(color[i := v], i + 1, Values(rest[..p - 1], text))
          == Overlay(color, i, Values(elems[..p], text));
      assert rest[p - 1..] == elems[p..];
    }
  }

  /**
   * What one colour array leaves behind, by where its first unconvertible
   * element p lies: (1) before the fourth element, the components before it
   * are written and the rest stay white, and BadData is raised; (2) otherwise a
   * fourth element raises WrongArrayFormat after all three components were
   * written; (3) otherwise the k <= 3 values overwrite components 0 .. k-1 and
   * the rest stay white.
   */
  lemma ReadColorCases(elems: seq<(string, Tree)>, key: string, text: FloatText)
    ensures var r, p := ReadColor(elems, key, text), FirstUnparsed(elems, text);
            && (p < |elems| && p < 3 ==>
                  r == ColorOutcome(Overlay(White, 0, Values(elems[..p], text)), Some(BadData(key))))
            && (p >= 3 && |elems| > 3 ==>
                  r == ColorOutcome(Values(elems[..3], text), Some(WrongArrayFormat(key))))
            && (p == |elems| && |elems| <= 3 ==>
                  r == ColorOutcome(Overlay(White, 0, Values(elems, text)), None))
  {
    var p := FirstUnparsed(elems, text);
    if p < |elems| && p < 3 {
      FillColorPrefix(White, elems, 0, key, text, p);
    } else if |elems| > 3 {
      assert elems[..p][..3] == elems[..3];
      FillColorPrefix(White, elems, 0, key, text, 3);
      assert Overlay(White, 0, Values(elems[..3], text)) == Values(elems[..3], text);
    } else if p == |elems| {
      FillColorPrefix(White, elems, 0, key, text, p);
      assert elems[..p] == elems;
    }
  }

  /** A colour array reads without error exactly when it has at most 3 elements, all floats. */
  lemma ReadColorSucceeds(elems: seq<(string, Tree)>, key: string, text: FloatText)
    ensures ReadColor(elems, key, text).error.None? <==> |elems| <= 3 && AllParse(elems, text)
  {
    ReadColorCases(elems, key, text);
    var p := FirstUnparsed(elems, text);
    if p == |elems| {
      assert elems[..p] == elems;
    }
  }

  // --------------------------------------------------- material read lemmas

  /** An array node is read without error: at most 3 elements, all floats. */
  predicate WellFormedColor(elems: seq<(string, Tree)>, text: FloatText) {
    |elems| <= 3 && AllParse(elems, text)
  }

  /**
   * When reading fails. Each colour array is checked on its own against the
   * limit of 3 (the counter restarts for the specular array), and the
   * specular array is only looked at once the diffuse one has been read.
   */
  lemma ReadMaterialErrors(t: Tree, text: FloatText, prior: MaterialValue)
    ensures var r, d, s := ReadMaterial(t, text, prior), ArrayElements(t, DiffuseColorKey),
                           ArrayElements(t, SpecularColorKey);
            && (r.error.None? <==> WellFormedColor(d, text) && WellFormedColor(s, text))
            && (r.error == Some(WrongArrayFormat(DiffuseColorKey)) <==> |d| > 3 && AllParse(d[..3], text))
            && (r.error == Some(WrongArrayFormat(SpecularColorKey)) <==>
                  WellFormedColor(d, text) && |s| > 3 && AllParse(s[..3], text))
  {
    var d, s := ArrayElements(t, DiffuseColorKey), ArrayElements(t, SpecularColorKey);
    ReadMaterialError(t, text, prior);
    var de := ReadColor(d, DiffuseColorKey, text).error;
    var se := ReadColor(s, SpecularColorKey, text).error;
    assert ReadMaterial(t, text, prior).error == if de.Some? then de else se;
    ReadColorSucceeds(d, DiffuseColorKey, text);
    ReadColorSucceeds(s, SpecularColorKey, text);
    WrongFormatCase(d, DiffuseColorKey, text);
    WrongFormatCase(s, SpecularColorKey, text);
  }

  /** The error of a read is the diffuse array's, or else the specular array's. */
  lemma ReadMaterialError(t: Tree, text: FloatText, prior: MaterialValue)
    ensures var d := ReadColor(ArrayElements(t, DiffuseColorKey), DiffuseColorKey, text);
            ReadMaterial(t, text, prior).error
              == if d.error.Some? then d.error
                 else ReadColor(ArrayElements(t, SpecularColorKey), SpecularColorKey, text).error
  {
  }

  /** A colour array raises WrongArrayFormat exactly when its first three elements convert and a fourth exists. */
  lemma WrongFormatCase(elems: seq<(string, Tree)>, key: string, text: FloatText)
    ensures ReadColor(elems, key, text).error == Some(WrongArrayFormat(key))
        <==> |elems| > 3 && AllParse(elems[..3], text)
  {
    ReadColorCases(elems, key, text);
    var p := FirstUnparsed(elems, text);
    if p >= 3 && |elems| > 3 {
      assert elems[..p][..3] == elems[..3];
    }
  }

  /**
   * There is no rollback: when the diffuse array has a fourth element, albedo,
   * roughness and all three diffuse components have already been written, the
   * specular colour has been reset to white and the file name is untouched.
   */
  lemma ReadFailsAfterWriting(t: Tree, text: FloatText, prior: MaterialValue)
    requires |ArrayElements(t, DiffuseColorKey)| > 3
    requires AllParse(ArrayElements(t, DiffuseColorKey)[..3], text)
    ensures ReadMaterial(t, text, prior)
         == ReadOutcome(MaterialValue(MaterialUBO(GetOr(t, AlbedoKey, text.parse, One),
                                                  GetOr(t, RoughnessKey, text.parse, Zero),
                                                  Values(ArrayElements(t, DiffuseColorKey)[..3], text),
                                                  White),
                                      prior.diffuseFilename),
                        Some(WrongArrayFormat(DiffuseColorKey)))
  {
    var d := ArrayElements(t, DiffuseColorKey);
    ReadColorCases(d, DiffuseColorKey, text);
    var p := FirstUnparsed(d, text);
    assert d[..p][..3] == d[..3];
  }

  /**
   * The specular half of the same: when the diffuse array is well formed and
   * the specular one has a fourth element, albedo, roughness, the whole
   * diffuse colour and all three specular components have been written, and
   * the file name is untouched.
   */
  lemma SpecularFailsAfterWriting(t: Tree, text: FloatText, prior: MaterialValue)
    requires WellFormedColor(ArrayElements(t, DiffuseColorKey), text)
    requires |ArrayElements(t, SpecularColorKey)| > 3
    requires AllParse(ArrayElements(t, SpecularColorKey)[..3], text)
    ensures ReadMaterial(t, text, prior)
         == ReadOutcome(MaterialValue(MaterialUBO(GetOr(t, AlbedoKey, text.parse, One),
                                                  GetOr(t, RoughnessKey, text.parse, Zero),
                                                  Overlay(White, 0, Values(ArrayElements(t, DiffuseColorKey), text)),
                                                  Values(ArrayElements(t, SpecularColorKey)[..3], text)),
                                      prior.diffuseFilename),
                        Some(WrongArrayFormat(SpecularColorKey)))
  {
    var d, s := ArrayElements(t, DiffuseColorKey), ArrayElements(t, SpecularColorKey);
    ReadColorSucceeds(d, DiffuseColorKey, text);
    ReadColorCases(d, DiffuseColorKey, text);
    var pd := FirstUnparsed(d, text);
    assert d[..pd] == d;
    ReadColorCases(s, SpecularColorKey, text);
    var ps := FirstUnparsed(s, text);
    assert s[..ps][..3] == s[..3];
  }

  // ------------------------------------------------------ save/read lemmas

  /** `save` writes exactly one element per component, in component order. */
  lemma {:induction false} ColorElementsShape(c: seq<Float>, text: FloatText)
    ensures |ColorElements(c, text)| == |c|
    ensures forall k :: 0 <= k < |c| ==> ColorElements(c, text)[k] == ("", Leaf(text.format(c[k])))
    decreases |c|
  {
    if c != [] {
      ColorElementsShape(c[..|c| - 1], text);
    }
  }

  /** A saved colour array reads back as the colour, when its text round-trips. */
  lemma SavedColorReadsBack(c: Vec3, key: string, text: FloatText)
    requires RoundTrips(text) && IsFinite(c[0]) && IsFinite(c[1]) && IsFinite(c[2])
    ensures ReadColor(ColorArray(c, text).children, key, text) == ColorOutcome(c, None)
  {
    var elems := ColorArray(c, text).children;
    ColorElementsShape(c, text);
    assert forall k :: 0 <= k < 3 ==> text.parse(elems[k].1.data) == Some(c[k]);
    ReadColorCases(elems, key, text);
    assert Values(elems, text) == c;
  }

  /**
   * What each of the five keys reads in a saved tree, provided the tree had no
   * colour arrays before (`add_child` appends, and a lookup finds the first).
   */
  lemma SavedLookups(t: Tree, v: MaterialValue, text: FloatText)
    requires !HasKey(t, DiffuseColorKey) && !HasKey(t, SpecularColorKey)
    ensures var saved := SaveMaterial(t, v, text);
            && GetChildOptional(saved, AlbedoKey).Some?
            && GetChildOptional(saved, AlbedoKey).value.data == text.format(v.data.albedo)
            && GetChildOptional(saved, RoughnessKey).Some?
            && GetChildOptional(saved, RoughnessKey).value.data == text.format(v.data.roughness)
            && GetChildOptional(saved, DiffuseColorKey) == Some(ColorArray(v.data.diffuseColor, text))
            && GetChildOptional(saved, SpecularColorKey) == Some(ColorArray(v.data.specularColor, text))
            && GetChildOptional(saved, DiffuseTextureKey).Some?
            && GetChildOptional(saved, DiffuseTextureKey).value.data == v.diffuseFilename
  {
    var t1 := Put(t, AlbedoKey, text.format(v.data.albedo));
    var t2 := Put(t1, RoughnessKey, text.format(v.data.roughness));
    var diffuse, specular := ColorArray(v.data.diffuseColor, text), ColorArray(v.data.specularColor, text);
    var t3 := AddChild(t2, DiffuseColorKey, diffuse);
    var t4 := AddChild(t3, SpecularColorKey, specular);
    var t5 := Put(t4, DiffuseTextureKey, v.diffuseFilename);
    // albedo
    GetAfterPut(t, AlbedoKey, text.format(v.data.albedo));
    GetOtherAfterPut(t1, RoughnessKey, text.format(v.data.roughness), AlbedoKey);
    GetAfterAddChild(t2, DiffuseColorKey, diffuse, AlbedoKey);
    GetAfterAddChild(t3, SpecularColorKey, specular, AlbedoKey);
    GetOtherAfterPut(t4, DiffuseTextureKey, v.diffuseFilename, AlbedoKey);
    // roughness
    GetAfterPut(t1, RoughnessKey, text.format(v.data.roughness));
    GetAfterAddChild(t2, DiffuseColorKey, diffuse, RoughnessKey);
    GetAfterAddChild(t3, SpecularColorKey, specular, RoughnessKey);
    GetOtherAfterPut(t4, DiffuseTextureKey, v.diffuseFilename, RoughnessKey);
    // diffuse colour
    GetOtherAfterPut(t, AlbedoKey, text.format(v.data.albedo), DiffuseColorKey);
    GetOtherAfterPut(t1, RoughnessKey, text.format(v.data.roughness), DiffuseColorKey);
    GetAfterAddChild(t2, DiffuseColorKey, diffuse, SpecularColorKey);
    GetAfterAddChild(t3, SpecularColorKey, specular, DiffuseColorKey);
    GetOtherAfterPut(t4, DiffuseTextureKey, v.diffuseFilename, DiffuseColorKey);
    // specular colour
    GetOtherAfterPut(t, AlbedoKey, text.format(v.data.albedo), SpecularColorKey);
    GetOtherAfterPut(t1, RoughnessKey, text.format(v.data.roughness), SpecularColorKey);
    GetOtherAfterPut(t4, DiffuseTextureKey, v.diffuseFilename, SpecularColorKey);
    // texture
    GetAfterPut(t4, DiffuseTextureKey, v.diffuseFilename);
  }

  /**
   * `save` always writes both colour arrays with exactly three elements, so
   * reading a saved tree never raises WrongArrayFormat, whatever the float text.
   */
  lemma SavedArraysNeverOverflow(t: Tree, v: MaterialValue, text: FloatText, prior: MaterialValue)
    requires !HasKey(t, DiffuseColorKey) && !HasKey(t, SpecularColorKey)
    ensures |ArrayElements(SaveMaterial(t, v, text), DiffuseColorKey)| == 3
    ensures |ArrayElements(SaveMaterial(t, v, text), SpecularColorKey)| == 3
    ensures ReadMaterial(SaveMaterial(t, v, text), text, prior).error !in
              {Some(WrongArrayFormat(DiffuseColorKey)), Some(WrongArrayFormat(SpecularColorKey))}
  {
    SavedLookups(t, v, text);
    ColorElementsShape(v.data.diffuseColor, text);
    ColorElementsShape(v.data.specularColor, text);
    ReadMaterialErrors(SaveMaterial(t, v, text), text, prior);
  }

  /**
   * Round trip: reading what `save` wrote reproduces all five fields, given
   * that the float text round-trips and every field is finite.
   */
  lemma SaveThenRead(t: Tree, v: MaterialValue, text: FloatText, prior: MaterialValue)
    requires RoundTrips(text) && FiniteFields(v.data)
    requires !HasKey(t, DiffuseColorKey) && !HasKey(t, SpecularColorKey)
    ensures ReadMaterial(SaveMaterial(t, v, text), text, prior) == ReadOutcome(v, None)
  {
    var saved := SaveMaterial(t, v, text);
    SavedLookups(t, v, text);
    SavedColorReadsBack(v.data.diffuseColor, DiffuseColorKey, text);
    SavedColorReadsBack(v.data.specularColor, SpecularColorKey, text);
    assert GetOr(saved, AlbedoKey, text.parse, One) == v.data.albedo;
    assert GetOr(saved, RoughnessKey, text.parse, Zero) == v.data.roughness;
  }

  /** The same round trip through `save(root, name)` and `read(root, name)`. */
  lemma SaveObjectThenReadObject(root: Tree, name: string, v: MaterialValue, text: FloatText, prior: MaterialValue)
    requires RoundTrips(text) && FiniteFields(v.data) && !HasKey(root, name)
    ensures ReadObject(SaveObject(root, name, v, text), name, text, prior) == ReadOutcome(v, None)
  {
    GetAfterAddChild(root, name, SaveMaterial(Empty, v, text), name);
    SaveThenRead(Empty, v, text, prior);
  }

  /**
   * `save(root, name)` appends: when `root` already has a child `name`,
   * reading `name` back still finds the earlier child.
   */
  lemma SaveObjectShadowed(root: Tree, name: string, v: MaterialValue, text: FloatText, prior: MaterialValue)
    requires HasKey(root, name)
    ensures ReadObject(SaveObject(root, name, v, text), name, text, prior) == ReadObject(root, name, text, prior)
  {
    GetAfterAddChild(root, name, SaveMaterial(Empty, v, text), name);
  }

  // ------------------------------------------------------- equality lemmas

  /** `equal` is reflexive exactly for materials with no NaN field. */
  lemma EqualReflexive(a: MaterialValue)
    ensures FieldsEqual(a, a) <==> NaNFree(a.data)
  {
  }

  /** `equal` fails as soon as one field differs, and holds of identical NaN-free materials. */
  lemma EqualFieldwise(a: MaterialValue, b: MaterialValue)
    ensures !Eq(a.data.albedo, b.data.albedo) ==> !FieldsEqual(a, b)
    ensures !Eq(a.data.roughness, b.data.roughness) ==> !FieldsEqual(a, b)
    ensures !VecEq(a.data.diffuseColor, b.data.diffuseColor) ==> !FieldsEqual(a, b)
    ensures !VecEq(a.data.specularColor, b.data.specularColor) ==> !FieldsEqual(a, b)
    ensures a.diffuseFilename != b.diffuseFilename ==> !FieldsEqual(a, b)
    ensures a == b && NaNFree(a.data) ==> FieldsEqual(a, b)
  {
  }

  /** A material with finite fields, saved and read back, is `equal` to the original. */
  lemma SavedMaterialEqual(t: Tree, v: MaterialValue, text: FloatText, prior: MaterialValue)
    requires RoundTrips(text) && FiniteFields(v.data)
    requires !HasKey(t, DiffuseColorKey) && !HasKey(t, SpecularColorKey)
    ensures FieldsEqual(v, ReadMaterial(SaveMaterial(t, v, text), text, prior).value)
  {
    SaveThenRead(t, v, text, prior);
    EqualReflexive(v);
  }

  // ------------------------------------------------------------ the class

  class Material {
    /** `_data` */
    var data: MaterialUBO
    /** `_diffuseFilename` */
    var diffuseFilename: string

    function Value(): MaterialValue
      reads this
    {
      MaterialValue(data, diffuseFilename)
    }

    /**
     * The record's initial contents come from its declaration, which is not
     * part of this model; the file name, a `std::string`, starts empty.
     */
    constructor (initial: MaterialUBO)
      ensures Value() == MaterialValue(initial, "")
    {
      data := initial;
      diffuseFilename := "";
    }

    /** `read(root, name)`: reads the child `name` of `root`. */
    method ReadFrom(root: Tree, name: string, text: FloatText) returns (error: Option<ReadError>)
      modifies this
      ensures ReadOutcome(Value(), error) == ReadObject(root, name, text, old(Value()))
    {
      var child := GetChildOptional(root, name);
      if child.None? {
        return Some(NoSuchChild(name));
      }
      error := Read(child.value, text);
    }

    /**
     * `read(tree)`: the fields are assigned one after another and each colour
     * array is copied in place, component by component; an error leaves the
     * fields written so far as they are.
     */
    method Read(tree: Tree, text: FloatText) returns (error: Option<ReadError>)
      modifies this
      ensures ReadOutcome(Value(), error) == ReadMaterial(tree, text, old(Value()))
    {
      data := data.(albedo := GetOr(tree, AlbedoKey, text.parse, One));
      data := data.(roughness := GetOr(tree, RoughnessKey, text.parse, Zero));
      var diffColor := GetChildOptional(tree, DiffuseColorKey);
      var specularColor := GetChildOptional(tree, SpecularColorKey);
      data := data.(diffuseColor := White);
      data := data.(specularColor := White);
      error := CopyDiffuse(if diffColor.Some? then diffColor.value.children else [], text);
      if error.Some? {
        return;
      }
      error := CopySpecular(if specularColor.Some? then specularColor.value.children else [], text);
      if error.Some? {
        return;
      }
      diffuseFilename := GetString(tree, DiffuseTextureKey, "");
    }

    /** The diffuse colour loop: component i is overwritten by the i-th element. */
    method CopyDiffuse(elems: seq<(string, Tree)>, text: FloatText) returns (error: Option<ReadError>)
      requires data.diffuseColor == White
      modifies this
      ensures var r := ReadColor(elems, DiffuseColorKey, text);
              data == old(data).(diffuseColor := r.color) && error == r.error
      ensures diffuseFilename == old(diffuseFilename)
    {
      var i := 0;
      while i < |elems|
        invariant i <= |elems| && i <= 3
        invariant FillColor(data.diffuseColor, elems[i..], i, DiffuseColorKey, text)
               == ReadColor(elems, DiffuseColorKey, text)
        invariant data == old(data).(diffuseColor := data.diffuseColor)
        invariant diffuseFilename == old(diffuseFilename)
      {
        if i >= 3 {
          return Some(WrongArrayFormat(DiffuseColorKey));
        }
        var c := text.parse(elems[i].1.data);
        if c.None? {
          return Some(BadData(DiffuseColorKey));
        }
        assert elems[i..][1..] == elems[i + 1..];
        data := data.(diffuseColor := data.diffuseColor[i := c.value]);
        i := i + 1;
      }
      error := None;
    }

    /** The specular colour loop, with its own counter starting again at 0. */
    method CopySpecular(elems: seq<(string, Tree)>, text: FloatText) returns (error: Option<ReadError>)
      requires data.specularColor == White
      modifies this
      ensures var r := ReadColor(elems, SpecularColorKey, text);
              data == old(data).(specularColor := r.color) && error == r.error
      ensures diffuseFilename == old(diffuseFilename)
    {
      var i := 0;
      while i < |elems|
        invariant i <= |elems| && i <= 3
        invariant FillColor(data.specularColor, elems[i..], i, SpecularColorKey, text)
               == ReadColor(elems, SpecularColorKey, text)
        invariant data == old(data).(specularColor := data.specularColor)
        invariant diffuseFilename == old(diffuseFilename)
      {
        if i >= 3 {
          return Some(WrongArrayFormat(SpecularColorKey));
        }
        var c := text.parse(elems[i].1.data);
        if c.None? {
          return Some(BadData(SpecularColorKey));
        }
        assert elems[i..][1..] == elems[i + 1..];
        data := data.(specularColor := data.specularColor[i := c.value]);
        i := i + 1;
      }
      error := None;
    }

    /** `save(root, name)`: the material saved into a fresh tree, added to `root` under `name`. */
    method SaveTo(root: Tree, name: string, text: FloatText) returns (r: Tree)
      ensures r == SaveObject(root, name, Value(), text)
    {
      var material := Save(Empty, text);
      r := AddChild(root, name, material);
    }

    /** `save(tree)`: puts the scalars and builds each colour array element by element. */
    method Save(tree: Tree, text: FloatText) returns (r: Tree)
      ensures r == SaveMaterial(tree, Value(), text)
    {
      r := Put(tree, AlbedoKey, text.format(data.albedo));
      r := Put(r, RoughnessKey, text.format(data.roughness));
      var diffColor := Empty;
      for v := 0 to 3
        invariant diffColor == Tree("", ColorElements(data.diffuseColor[..v], text))
      {
        var value := Empty.(data := text.format(data.diffuseColor[v]));
        diffColor := AddChild(diffColor, "", value);
        assert data.diffuseColor[..v + 1][..v] == data.diffuseColor[..v];
      }
      assert data.diffuseColor[..3] == data.diffuseColor;
      r := AddChild(r, DiffuseColorKey, diffColor);
      var specColor := Empty;
      for v := 0 to 3
        invariant specColor == Tree("", ColorElements(data.specularColor[..v], text))
      {
        var value := Empty.(data := text.format(data.specularColor[v]));
        specColor := AddChild(specColor, "", value);
        assert data.specularColor[..v + 1][..v] == data.specularColor[..v];
      }
      assert data.specularColor[..3] == data.specularColor;
      r := AddChild(r, SpecularColorKey, specColor);
      r := Put(r, DiffuseTextureKey, diffuseFilename);
    }

    /** `data()`: the record, returned by value. */
    function Data(): (d: MaterialUBO)
      reads this
      ensures d == Value().data
    {
      data
    }

    /**
     * `diffuseTexture(device)`: raises when no file name is set, otherwise
     * hands the file name to the image loader (the loader is not modelled).
     */
    method DiffuseTexture() returns (r: Result<string, TextureError>)
      ensures r.Failure? <==> diffuseFilename == ""
      ensures r.Success? ==> r.value == diffuseFilename
    {
      if diffuseFilename == "" {
        return Failure(EmptyFilename);
      }
      return Success(diffuseFilename);
    }

    method SetAlbedo(albedo: Float)
      modifies this
      ensures Value() == old(Value()).(data := old(data).(albedo := albedo))
    {
      data := data.(albedo := albedo);
    }

    method SetRoughness(roughness: Float)
      modifies this
      ensures Value() == old(Value()).(data := old(data).(roughness := roughness))
    {
      data := data.(roughness := roughness);
    }

    method SetDiffuseColor(color: Vec3)
      modifies this
      ensures Value() == old(Value()).(data := old(data).(diffuseColor := color))
    {
      data := data.(diffuseColor := color);
    }

    method SetSpecularColor(color: Vec3)
      modifies this
      ensures Value() == old(Value()).(data := old(data).(specularColor := color))
    {
      data := data.(specularColor := color);
    }

    method SetDiffuseTexture(filename: string)
      modifies this
      ensures Value() == old(Value()).(diffuseFilename := filename)
    {
      diffuseFilename := filename;
    }

    /** `equal(material)`: field-wise comparison with another material. */
    predicate Equal(other: Material)
      reads this, other
      ensures Equal(other) ==> diffuseFilename == other.diffuseFilename
      ensures other == this ==> (Equal(other) <==> NaNFree(data))
    {
      FieldsEqual(Value(), other.Value())
    }
  }
}
