/** The tool-argument schemas of schemas.ts, as total predicates over raw JSON
    arguments, together with parsers into typed arguments (what a successful
    schema parse returns) and encoders back to JSON.

    A `z.object({...})` accepts any JSON object whose listed keys are valid;
    keys it does not list are ignored (and dropped from the parsed value).
    `.optional()` means the key may be absent.  `.passthrough()` on an empty
    object schema accepts every object and keeps all of its keys. */
module Schemas {
  import opened Values

  // ---------------------------------------------------------------------
  // Resource types

  /** The resource collections of the editor, `ResourceTypes` in schemas.ts. */
  datatype ResourceType =
    | Objects | Textures | Meshes | Materials | Animations | Skins
    | Images | Shaders | Pipelines | Fonts | MorphTargets | ParticleEffects

  const ResourceTypes: seq<string> := [
    "objects", "textures", "meshes", "materials", "animations", "skins",
    "images", "shaders", "pipelines", "fonts", "morphTargets", "particleEffects"
  ]

  function TypeName(t: ResourceType): string
  {
    match t
    case Objects => "objects"
    case Textures => "textures"
    case Meshes => "meshes"
    case Materials => "materials"
    case Animations => "animations"
    case Skins => "skins"
    case Images => "images"
    case Shaders => "shaders"
    case Pipelines => "pipelines"
    case Fonts => "fonts"
    case MorphTargets => "morphTargets"
    case ParticleEffects => "particleEffects"
  }

  /** `z.enum(ResourceTypes)`: accepts exactly the twelve listed names. */
  function ParseResourceType(s: string): (r: Option<ResourceType>)
    ensures r.Some? <==> s in ResourceTypes
    ensures r.Some? ==> TypeName(r.value) == s
  {
    if s == "objects" then Some(Objects)
    else if s == "textures" then Some(Textures)
    else if s == "meshes" then Some(Meshes)
    else if s == "materials" then Some(Materials)
    else if s == "animations" then Some(Animations)
    else if s == "skins" then Some(Skins)
    else if s == "images" then Some(Images)
    else if s == "shaders" then Some(Shaders)
    else if s == "pipelines" then Some(Pipelines)
    else if s == "fonts" then Some(Fonts)
    else if s == "morphTargets" then Some(MorphTargets)
    else if s == "particleEffects" then Some(ParticleEffects)
    else None
  }

  /** Every resource type is accepted under its own name, and only under it. */
  lemma ResourceTypeRoundTrip(t: ResourceType)
    ensures TypeName(t) in ResourceTypes
    ensures ParseResourceType(TypeName(t)) == Some(t)
  {
  }

  // ---------------------------------------------------------------------
  // Building blocks

  /** `z.string()` */
  predicate IsString(j: Json) { j.JStr? }

  /** `z.number()` */
  predicate IsNumber(j: Json) { j.JNum? }

  /** `z.object({}).passthrough()`: any object, every key kept. */
  predicate IsObject(j: Json) { j.JObj? }

  /** `item.array()` */
  predicate IsArrayOf(j: Json, item: Json -> bool)
  {
    j.JArr? && forall i :: 0 <= i < |j.items| ==> item(j.items[i])
  }

  /** `z.number().array().length(n)` */
  predicate IsNumberVector(j: Json, n: nat)
  {
    IsArrayOf(j, IsNumber) && |j.items| == n
  }

  /** A key that must be present and valid. */
  predicate Required(f: map<string, Json>, key: string, valid: Json -> bool)
  {
    key in f && valid(f[key])
  }

  /** A key marked `.optional()`: absent, or present and valid. */
  predicate Optional(f: map<string, Json>, key: string, valid: Json -> bool)
  {
    key !in f || valid(f[key])
  }

  function ParseString(j: Json): (r: Option<string>)
    ensures r.Some? <==> IsString(j)
    ensures r.Some? ==> j == JStr(r.value)
  {
    if j.JStr? then Some(j.str) else None
  }

  function ParseNumber(j: Json): (r: Option<real>)
    ensures r.Some? <==> IsNumber(j)
    ensures r.Some? ==> j == JNum(r.value)
  {
    if j.JNum? then Some(j.n) else None
  }

  function ParseObject(j: Json): (r: Option<map<string, Json>>)
    ensures r.Some? <==> IsObject(j)
    ensures r.Some? ==> j == JObj(r.value)
  {
    if j.JObj? then Some(j.fields) else None
  }

  /** Parse every element of an array with `item`; fails if any element fails. */
  function ParseItems<T>(items: seq<Json>, item: Json -> Option<T>): (r: Option<seq<T>>)
    ensures r.Some? <==> forall i :: 0 <= i < |items| ==> item(items[i]).Some?
    ensures r.Some? ==> |r.value| == |items|
    ensures r.Some? ==> forall i :: 0 <= i < |items| ==> r.value[i] == item(items[i]).value
  {
    if items == [] then Some([])
    else
      match item(items[0])
      case None => None
      case Some(x) =>
        match ParseItems(items[1..], item)
        case None => None
        case Some(xs) => Some([x] + xs)
  }

  function ParseArray<T>(j: Json, item: Json -> Option<T>): (r: Option<seq<T>>)
  {
    if j.JArr? then ParseItems(j.items, item) else None
  }

  /** A required key parsed with `p`. */
  function ParseRequired<T>(f: map<string, Json>, key: string, p: Json -> Option<T>): Option<T>
  {
    if key in f then p(f[key]) else None
  }

  /** An optional key parsed with `p`: `Some(None)` when absent, `None` when invalid. */
  function ParseOptional<T>(f: map<string, Json>, key: string, p: Json -> Option<T>): Option<Option<T>>
  {
    if key !in f then Some(None)
    else match p(f[key])
      case None => None
      case Some(v) => Some(Some(v))
  }

  function EncodeArray<T>(xs: seq<T>, encode: T -> Json): (j: Json)
    ensures j.JArr? && |j.items| == |xs|
    ensures forall i :: 0 <= i < |xs| ==> j.items[i] == encode(xs[i])
  {
    JArr(seq(|xs|, i requires 0 <= i < |xs| => encode(xs[i])))
  }

  /** Add `key` to an object under construction when the value is present. */
  function WithOptional<T>(f: map<string, Json>, key: string, v: Option<T>, encode: T -> Json): map<string, Json>
  {
    if v.Some? then f[key := encode(v.value)] else f
  }

  /** Decoding an encoded array gives back the elements, as long as decoding
      an encoded element gives back the element. */
  lemma ParseEncodedArray<T>(xs: seq<T>, encode: T -> Json, p: Json -> Option<T>)
    requires forall x :: p(encode(x)) == Some(x)
    ensures ParseArray(EncodeArray(xs, encode), p) == Some(xs)
  {
    var j := EncodeArray(xs, encode);
    forall i | 0 <= i < |xs| ensures p(j.items[i]) == Some(xs[i]) {
      assert j.items[i] == encode(xs[i]);
    }
    var r := ParseItems(j.items, p);
    assert r.value == xs;
  }

  // ---------------------------------------------------------------------
  // Vectors

  type Vec3 = v: seq<real> | |v| == 3 witness [0.0, 0.0, 0.0]
  type Vec4 = v: seq<real> | |v| == 4 witness [0.0, 0.0, 0.0, 0.0]

  function JNumber(x: real): Json { JNum(x) }

  /** An accepted array of numbers is exactly the encoding of the numbers read. */
  lemma ParsedNumbersEncode(j: Json)
    ensures ParseArray(j, ParseNumber).Some? ==> j == EncodeVector(ParseArray(j, ParseNumber).value)
  {
    if ParseArray(j, ParseNumber).None? {
      return;
    }
    var v := ParseArray(j, ParseNumber).value;
    var e := EncodeVector(v);
    forall i | 0 <= i < |j.items| ensures e.items[i] == j.items[i] {
      assert ParseNumber(j.items[i]).Some?;
    }
    assert e.items == j.items;
  }

  function ParseVec3(j: Json): (r: Option<Vec3>)
    ensures r.Some? <==> IsNumberVector(j, 3)
    ensures r.Some? ==> j == EncodeVector(r.value)
  {
    ParsedNumbersEncode(j);
    match ParseArray(j, ParseNumber)
    case Some(v) => if |v| == 3 then Some(v) else None
    case None => None
  }

  function ParseVec4(j: Json): (r: Option<Vec4>)
    ensures r.Some? <==> IsNumberVector(j, 4)
    ensures r.Some? ==> j == EncodeVector(r.value)
  {
    ParsedNumbersEncode(j);
    match ParseArray(j, ParseNumber)
    case Some(v) => if |v| == 4 then Some(v) else None
    case None => None
  }

  function EncodeVector(v: seq<real>): (j: Json)
  {
    EncodeArray(v, JNumber)
  }

  lemma Vec3RoundTrip(v: Vec3)
    ensures ParseVec3(EncodeVector(v)) == Some(v)
  {
    ParseEncodedArray(v, JNumber, ParseNumber);
  }

  lemma Vec4RoundTrip(v: Vec4)
    ensures ParseVec4(EncodeVector(v)) == Some(v)
  {
    ParseEncodedArray(v, JNumber, ParseNumber);
  }

  // ---------------------------------------------------------------------
  // queryResourcesSchema

  datatype Query = Query(
    resourceType: ResourceType,
    ids: Option<seq<string>>,
    includeFilter: Option<map<string, Json>>,
    excludeFilter: Option<map<string, Json>>)

  predicate IsStringArray(j: Json) { IsArrayOf(j, IsString) }

  predicate ValidResourceType(j: Json) { j.JStr? && j.str in ResourceTypes }

  predicate ValidQuery(j: Json)
  {
    && j.JObj?
    && Required(j.fields, "resourceType", ValidResourceType)
    && Optional(j.fields, "ids", IsStringArray)
    && Optional(j.fields, "includeFilter", IsObject)
    && Optional(j.fields, "excludeFilter", IsObject)
  }

  function ParseResourceTypeJson(j: Json): (r: Option<ResourceType>)
    ensures r.Some? <==> ValidResourceType(j)
  {
    if j.JStr? then ParseResourceType(j.str) else None
  }

  function ParseStringArray(j: Json): (r: Option<seq<string>>)
    ensures r.Some? <==> IsStringArray(j)
  {
    ParseArray(j, ParseString)
  }

  function ParseQuery(j: Json): (r: Option<Query>)
    ensures r.Some? <==> ValidQuery(j)
  {
    if !j.JObj? then None
    else
      var f := j.fields;
      var rt := ParseRequired(f, "resourceType", ParseResourceTypeJson);
      var ids := ParseOptional(f, "ids", ParseStringArray);
      var inc := ParseOptional(f, "includeFilter", ParseObject);
      var exc := ParseOptional(f, "excludeFilter", ParseObject);
      if rt.Some? && ids.Some? && inc.Some? && exc.Some?
      then Some(Query(rt.value, ids.value, inc.value, exc.value))
      else None
  }

  function JString(s: string): Json { JStr(s) }
  function JObject(f: map<string, Json>): Json { JObj(f) }
  function JStrings(ss: seq<string>): Json { EncodeArray(ss, JString) }

  function EncodeQuery(q: Query): Json
  {
    var f := map["resourceType" := JStr(TypeName(q.resourceType))];
    var f := WithOptional(f, "ids", q.ids, JStrings);
    var f := WithOptional(f, "includeFilter", q.includeFilter, JObject);
    var f := WithOptional(f, "excludeFilter", q.excludeFilter, JObject);
    JObj(f)
  }

  lemma QueryRoundTrip(q: Query)
    ensures ParseQuery(EncodeQuery(q)) == Some(q)
  {
    if q.ids.Some? {
      ParseEncodedArray(q.ids.value, JString, ParseString);
    }
    ResourceTypeRoundTrip(q.resourceType);
  }

  /** `ids`, `includeFilter` and `excludeFilter` may all be left out: a query
      naming only a resource type is valid exactly when the type is known. */
  lemma QueryFiltersOptional(s: string)
    ensures ValidQuery(JObj(map["resourceType" := JStr(s)])) <==> s in ResourceTypes
  {
  }

  // ---------------------------------------------------------------------
  // modifyObjectsSchema

  datatype AddComponent = AddComponent(componentType: string, properties: map<string, Json>)
  datatype ModifyComponent = ModifyComponent(index: real, properties: map<string, Json>)

  /** One entry of `modifications`; every field is optional. */
  datatype Modification = Modification(
    name: Option<string>,
    id: Option<string>,
    parentId: Option<string>,
    position: Option<Vec3>,
    rotation: Option<Vec4>,
    scaling: Option<Vec3>,
    addComponents: Option<seq<AddComponent>>,
    modifyComponents: Option<seq<ModifyComponent>>,
    removeComponents: Option<seq<real>>)

  predicate IsVec3(j: Json) { IsNumberVector(j, 3) }
  predicate IsVec4(j: Json) { IsNumberVector(j, 4) }
  predicate IsNumberArray(j: Json) { IsArrayOf(j, IsNumber) }

  predicate ValidAddComponent(j: Json)
  {
    j.JObj? && Required(j.fields, "type", IsString) && Required(j.fields, "properties", IsObject)
  }

  predicate ValidModifyComponent(j: Json)
  {
    j.JObj? && Required(j.fields, "index", IsNumber) && Required(j.fields, "properties", IsObject)
  }

  predicate IsAddComponentArray(j: Json) { IsArrayOf(j, ValidAddComponent) }
  predicate IsModifyComponentArray(j: Json) { IsArrayOf(j, ValidModifyComponent) }

  predicate ValidModification(j: Json)
  {
    && j.JObj?
    && Optional(j.fields, "name", IsString)
    && Optional(j.fields, "id", IsString)
    && Optional(j.fields, "parentId", IsString)
    && Optional(j.fields, "position", IsVec3)
    && Optional(j.fields, "rotation", IsVec4)
    && Optional(j.fields, "scaling", IsVec3)
    && Optional(j.fields, "addComponents", IsAddComponentArray)
    && Optional(j.fields, "modifyComponents", IsModifyComponentArray)
    && Optional(j.fields, "removeComponents", IsNumberArray)
  }

  predicate IsModificationArray(j: Json) { IsArrayOf(j, ValidModification) }

  /** The arguments of `modify_objects`. */
  predicate ValidModifyObjects(j: Json)
  {
    j.JObj? && Required(j.fields, "modifications", IsModificationArray)
  }

  function ParseAddComponent(j: Json): (r: Option<AddComponent>)
    ensures r.Some? <==> ValidAddComponent(j)
  {
    if !j.JObj? then None
    else
      var t := ParseRequired(j.fields, "type", ParseString);
      var p := ParseRequired(j.fields, "properties", ParseObject);
      if t.Some? && p.Some? then Some(AddComponent(t.value, p.value)) else None
  }

  function ParseModifyComponent(j: Json): (r: Option<ModifyComponent>)
    ensures r.Some? <==> ValidModifyComponent(j)
  {
    if !j.JObj? then None
    else
      var i := ParseRequired(j.fields, "index", ParseNumber);
      var p := ParseRequired(j.fields, "properties", ParseObject);
      if i.Some? && p.Some? then Some(ModifyComponent(i.value, p.value)) else None
  }

  function ParseAddComponents(j: Json): (r: Option<seq<AddComponent>>)
    ensures r.Some? <==> IsAddComponentArray(j)
  {
    ParseArray(j, ParseAddComponent)
  }

  function ParseModifyComponents(j: Json): (r: Option<seq<ModifyComponent>>)
    ensures r.Some? <==> IsModifyComponentArray(j)
  {
    ParseArray(j, ParseModifyComponent)
  }

  function ParseNumberArray(j: Json): (r: Option<seq<real>>)
    ensures r.Some? <==> IsNumberArray(j)
    ensures r.Some? ==> j == EncodeVector(r.value)
  {
    ParsedNumbersEncode(j);
    ParseArray(j, ParseNumber)
  }

  function ParseModification(j: Json): (r: Option<Modification>)
    ensures r.Some? <==> ValidModification(j)
  {
    if !j.JObj? then None
    else
      var f := j.fields;
      var name := ParseOptional(f, "name", ParseString);
      var id := ParseOptional(f, "id", ParseString);
      var parentId := ParseOptional(f, "parentId", ParseString);
      var position := ParseOptional(f, "position", ParseVec3);
      var rotation := ParseOptional(f, "rotation", ParseVec4);
      var scaling := ParseOptional(f, "scaling", ParseVec3);
      var add := ParseOptional(f, "addComponents", ParseAddComponents);
      var changed := ParseOptional(f, "modifyComponents", ParseModifyComponents);
      var remove := ParseOptional(f, "removeComponents", ParseNumberArray);
      if && name.Some? && id.Some? && parentId.Some?
         && position.Some? && rotation.Some? && scaling.Some?
         && add.Some? && changed.Some? && remove.Some?
      then Some(Modification(name.value, id.value, parentId.value,
                             position.value, rotation.value, scaling.value,
                             add.value, changed.value, remove.value))
      else None
  }

  function ParseModifyObjects(j: Json): (r: Option<seq<Modification>>)
    ensures r.Some? <==> ValidModifyObjects(j)
  {
    if j.JObj? then ParseRequired(j.fields, "modifications", (a: Json) => ParseArray(a, ParseModification))
    else None
  }

  function EncodeAddComponent(c: AddComponent): Json
  {
    JObj(map["type" := JStr(c.componentType), "properties" := JObj(c.properties)])
  }

  function EncodeModifyComponent(c: ModifyComponent): Json
  {
    JObj(map["index" := JNum(c.index), "properties" := JObj(c.properties)])
  }

  function EncodeAddComponents(cs: seq<AddComponent>): Json { EncodeArray(cs, EncodeAddComponent) }
  function EncodeModifyComponents(cs: seq<ModifyComponent>): Json { EncodeArray(cs, EncodeModifyComponent) }
  function EncodeVec3(v: Vec3): Json { EncodeVector(v) }
  function EncodeVec4(v: Vec4): Json { EncodeVector(v) }

  /** `v`, encoded, when present. */
  function Encoded<T>(v: Option<T>, encode: T -> Json): Option<Json>
  {
    if v.Some? then Some(encode(v.value)) else None
  }

  /** The keys `modifyObjectsSchema` lists for a modification entry. */
  const ModificationKeys: set<string> := {
    "name", "id", "parentId", "position", "rotation", "scaling",
    "addComponents", "modifyComponents", "removeComponents"
  }

  /** The JSON a modification carries under `key`, if any. */
  function ModificationField(m: Modification, key: string): Option<Json>
  {
    if key == "name" then Encoded(m.name, JString)
    else if key == "id" then Encoded(m.id, JString)
    else if key == "parentId" then Encoded(m.parentId, JString)
    else if key == "position" then Encoded(m.position, EncodeVec3)
    else if key == "rotation" then Encoded(m.rotation, EncodeVec4)
    else if key == "scaling" then Encoded(m.scaling, EncodeVec3)
    else if key == "addComponents" then Encoded(m.addComponents, EncodeAddComponents)
    else if key == "modifyComponents" then Encoded(m.modifyComponents, EncodeModifyComponents)
    else if key == "removeComponents" then Encoded(m.removeComponents, EncodeVector)
    else None
  }

  /** A modification as a JSON object holding only its present fields. */
  function EncodeModification(m: Modification): Json
  {
    JObj(map k | k in ModificationKeys && ModificationField(m, k).Some? :: ModificationField(m, k).value)
  }

  /** An optional key holding an encoded value parses back to that value. */
  lemma ParseOptionalEncoded<T>(f: map<string, Json>, key: string, v: Option<T>, encode: T -> Json, p: Json -> Option<T>)
    requires key in f <==> v.Some?
    requires v.Some? ==> f[key] == encode(v.value) && p(encode(v.value)) == Some(v.value)
    ensures ParseOptional(f, key, p) == Some(v)
  {
  }

  /** A modification is parsed field by field. */
  lemma ParseModificationByFields(m: Modification, f: map<string, Json>)
    requires ParseOptional(f, "name", ParseString) == Some(m.name)
    requires ParseOptional(f, "id", ParseString) == Some(m.id)
    requires ParseOptional(f, "parentId", ParseString) == Some(m.parentId)
    requires ParseOptional(f, "position", ParseVec3) == Some(m.position)
    requires ParseOptional(f, "rotation", ParseVec4) == Some(m.rotation)
    requires ParseOptional(f, "scaling", ParseVec3) == Some(m.scaling)
    requires ParseOptional(f, "addComponents", ParseAddComponents) == Some(m.addComponents)
    requires ParseOptional(f, "modifyComponents", ParseModifyComponents) == Some(m.modifyComponents)
    requires ParseOptional(f, "removeComponents", ParseNumberArray) == Some(m.removeComponents)
    ensures ParseModification(JObj(f)) == Some(m)
  {
  }

  lemma ModificationIdsRoundTrip(m: Modification)
    ensures ParseOptional(EncodeModification(m).fields, "name", ParseString) == Some(m.name)
    ensures ParseOptional(EncodeModification(m).fields, "id", ParseString) == Some(m.id)
    ensures ParseOptional(EncodeModification(m).fields, "parentId", ParseString) == Some(m.parentId)
  {
    var f := EncodeModification(m).fields;
    ParseOptionalEncoded(f, "name", m.name, JString, ParseString);
    ParseOptionalEncoded(f, "id", m.id, JString, ParseString);
    ParseOptionalEncoded(f, "parentId", m.parentId, JString, ParseString);
  }

  lemma ModificationVectorsRoundTrip(m: Modification)
    ensures ParseOptional(EncodeModification(m).fields, "position", ParseVec3) == Some(m.position)
    ensures ParseOptional(EncodeModification(m).fields, "rotation", ParseVec4) == Some(m.rotation)
    ensures ParseOptional(EncodeModification(m).fields, "scaling", ParseVec3) == Some(m.scaling)
  {
    var f := EncodeModification(m).fields;
    if m.position.Some? { Vec3RoundTrip(m.position.value); }
    ParseOptionalEncoded(f, "position", m.position, EncodeVec3, ParseVec3);
    if m.rotation.Some? { Vec4RoundTrip(m.rotation.value); }
    ParseOptionalEncoded(f, "rotation", m.rotation, EncodeVec4, ParseVec4);
    if m.scaling.Some? { Vec3RoundTrip(m.scaling.value); }
    ParseOptionalEncoded(f, "scaling", m.scaling, EncodeVec3, ParseVec3);
  }

  lemma ModificationComponentsRoundTrip(m: Modification)
    ensures ParseOptional(EncodeModification(m).fields, "addComponents", ParseAddComponents) == Some(m.addComponents)
    ensures ParseOptional(EncodeModification(m).fields, "modifyComponents", ParseModifyComponents) == Some(m.modifyComponents)
    ensures ParseOptional(EncodeModification(m).fields, "removeComponents", ParseNumberArray) == Some(m.removeComponents)
  {
    var f := EncodeModification(m).fields;
    if m.addComponents.Some? {
      ParseEncodedArray(m.addComponents.value, EncodeAddComponent, ParseAddComponent);
    }
    ParseOptionalEncoded(f, "addComponents", m.addComponents, EncodeAddComponents, ParseAddComponents);
    if m.modifyComponents.Some? {
      ParseEncodedArray(m.modifyComponents.value, EncodeModifyComponent, ParseModifyComponent);
    }
    ParseOptionalEncoded(f, "modifyComponents", m.modifyComponents, EncodeModifyComponents, ParseModifyComponents);
    if m.removeComponents.Some? {
      ParseEncodedArray(m.removeComponents.value, JNumber, ParseNumber);
    }
    ParseOptionalEncoded(f, "removeComponents", m.removeComponents, EncodeVector, ParseNumberArray);
  }

  /** Parsing an encoded modification gives it back unchanged. */
  lemma ModificationRoundTrip(m: Modification)
    ensures ParseModification(EncodeModification(m)) == Some(m)
  {
    ModificationIdsRoundTrip(m);
    ModificationVectorsRoundTrip(m);
    ModificationComponentsRoundTrip(m);
    ParseModificationByFields(m, EncodeModification(m).fields);
  }

  /** Parsing encoded `modify_objects` arguments gives back every entry. */
  lemma ModifyObjectsRoundTrip(ms: seq<Modification>)
    ensures ParseModifyObjects(JObj(map["modifications" := EncodeArray(ms, EncodeModification)])) == Some(ms)
  {
    forall m ensures ParseModification(EncodeModification(m)) == Some(m) {
      ModificationRoundTrip(m);
    }
    ParseEncodedArray(ms, EncodeModification, ParseModification);
  }

  /** Every field of a modification is optional: the empty entry is valid and
      parses to an entry with no fields. */
  lemma EmptyModificationValid()
    ensures ParseModification(JObj(map[])) == Some(Modification(None, None, None, None, None, None, None, None, None))
  {
  }

  /** `position` and `scaling` are accepted only with exactly three numbers,
      `rotation` only with exactly four. */
  lemma VectorFieldLengths(v: Json)
    ensures ValidModification(JObj(map["position" := v])) <==> IsNumberVector(v, 3)
    ensures ValidModification(JObj(map["scaling" := v])) <==> IsNumberVector(v, 3)
    ensures ValidModification(JObj(map["rotation" := v])) <==> IsNumberVector(v, 4)
  {
  }

  // ---------------------------------------------------------------------
  // importSceneFilesSchema and importFilesSchema

  datatype SceneImport = SceneImport(path: string, parentId: Option<string>)
  datatype FileImport = FileImport(path: string)

  predicate ValidSceneImport(j: Json)
  {
    j.JObj? && Required(j.fields, "path", IsString) && Optional(j.fields, "parentId", IsString)
  }

  predicate ValidFileImport(j: Json)
  {
    j.JObj? && Required(j.fields, "path", IsString)
  }

  predicate IsSceneImportArray(j: Json) { IsArrayOf(j, ValidSceneImport) }
  predicate IsFileImportArray(j: Json) { IsArrayOf(j, ValidFileImport) }

  /** The arguments of `import_scenes`. */
  predicate ValidImportScenes(j: Json)
  {
    j.JObj? && Required(j.fields, "imports", IsSceneImportArray)
  }

  /** The arguments of `import_files`. */
  predicate ValidImportFiles(j: Json)
  {
    j.JObj? && Required(j.fields, "imports", IsFileImportArray)
  }

  function ParseSceneImport(j: Json): (r: Option<SceneImport>)
    ensures r.Some? <==> ValidSceneImport(j)
  {
    if !j.JObj? then None
    else
      var path := ParseRequired(j.fields, "path", ParseString);
      var parent := ParseOptional(j.fields, "parentId", ParseString);
      if path.Some? && parent.Some? then Some(SceneImport(path.value, parent.value)) else None
  }

  function ParseFileImport(j: Json): (r: Option<FileImport>)
    ensures r.Some? <==> ValidFileImport(j)
  {
    if !j.JObj? then None
    else
      var path := ParseRequired(j.fields, "path", ParseString);
      if path.Some? then Some(FileImport(path.value)) else None
  }

  function ParseImportScenes(j: Json): (r: Option<seq<SceneImport>>)
    ensures r.Some? <==> ValidImportScenes(j)
  {
    if j.JObj? then ParseRequired(j.fields, "imports", (a: Json) => ParseArray(a, ParseSceneImport))
    else None
  }

  function ParseImportFiles(j: Json): (r: Option<seq<FileImport>>)
    ensures r.Some? <==> ValidImportFiles(j)
  {
    if j.JObj? then ParseRequired(j.fields, "imports", (a: Json) => ParseArray(a, ParseFileImport))
    else None
  }

  function EncodeSceneImport(s: SceneImport): Json
  {
    JObj(WithOptional(map["path" := JStr(s.path)], "parentId", s.parentId, JString))
  }

  function EncodeFileImport(f: FileImport): Json
  {
    JObj(map["path" := JStr(f.path)])
  }

  lemma ImportScenesRoundTrip(imports: seq<SceneImport>)
    ensures ParseImportScenes(JObj(map["imports" := EncodeArray(imports, EncodeSceneImport)])) == Some(imports)
  {
    ParseEncodedArray(imports, EncodeSceneImport, ParseSceneImport);
  }

  lemma ImportFilesRoundTrip(imports: seq<FileImport>)
    ensures ParseImportFiles(JObj(map["imports" := EncodeArray(imports, EncodeFileImport)])) == Some(imports)
  {
    ParseEncodedArray(imports, EncodeFileImport, ParseFileImport);
  }

  /** An `import_files` entry needs only `path`: every valid `import_scenes`
      argument is also a valid `import_files` argument, but not the other way
      round, since a scene import's `parentId` must be a string. */
  lemma SceneImportsAreFileImports(j: Json)
    ensures ValidImportScenes(j) ==> ValidImportFiles(j)
    ensures !ValidImportScenes(JObj(map["imports" := JArr([JObj(map["path" := JStr("a.glb"), "parentId" := JNum(1.0)])])]))
    ensures ValidImportFiles(JObj(map["imports" := JArr([JObj(map["path" := JStr("a.glb"), "parentId" := JNum(1.0)])])]))
  {
    if ValidImportScenes(j) {
      var items := j.fields["imports"].items;
      forall i | 0 <= i < |items| ensures ValidFileImport(items[i]) {
        assert ValidSceneImport(items[i]);
      }
    }
    var bad := JObj(map["path" := JStr("a.glb"), "parentId" := JNum(1.0)]);
    assert !ValidSceneImport(JArr([bad]).items[0]);
  }
}
