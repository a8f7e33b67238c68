/**
 * `ModelDefinition`: the Swagger `definitions` the generator ships. The
 * response envelopes and error definitions are map literals; a model's own
 * definition is built from its database columns, its `$visible`, `$hidden`
 * and extra API fields. Class loading, reflection and the database schema
 * are inputs here: a model arrives as a `ModelInfo`.
 */
module ModelDefinitions {
  import opened Wrappers
  import opened JsonValues
  import opened Framework
  import Params

  /** `new ReflectionClass($class)` failed: the class does not exist. */
  datatype DefinitionError = UnknownClass(cls: string)

  const RefPrefix := "#/definitions/"

  const ObjectType: Json := Obj([("type", Str("object"))])

  /** A JSON reference to a named definition. */
  function Ref(name: string): Json {
    Obj([("$ref", Str(RefPrefix + name))])
  }

  /** The envelope every API response shares: a message, a result flag and a payload. */
  function Envelope(payload: Json): Json {
    Obj([
      ("type", Str("object")),
      ("properties", Obj([
        ("message", MessageProperty),
        ("result", ResultProperty),
        ("payload", payload)]))])
  }

  /** The `properties` map of a definition. */
  function PropertiesOf(def: Json): Fields {
    match Field(def, "properties")
    case Some(ps) => AsFields(ps)
    case None => []
  }

  const MessageProperty: Json := Obj([("type", Str("string"))])

  const ResultProperty: Json := Obj([("type", Str("boolean")), ("default", Bool(true))])

  /** A definition built as an object with a property list exposes that list. */
  lemma ObjectProperties(props: Fields)
    ensures PropertiesOf(Obj([("type", Str("object")), ("properties", Obj(props))])) == props
  {
    var fs := [("type", Str("object")), ("properties", Obj(props))];
    GetAt(fs, 1);
  }

  lemma EnvelopeProperties(payload: Json)
    ensures Field(Envelope(payload), "type") == Some(Str("object"))
    ensures Get(PropertiesOf(Envelope(payload)), "message") == Some(MessageProperty)
    ensures Get(PropertiesOf(Envelope(payload)), "result") == Some(ResultProperty)
    ensures Get(PropertiesOf(Envelope(payload)), "payload") == Some(payload)
  {
    var props := [("message", MessageProperty), ("result", ResultProperty), ("payload", payload)];
    ObjectProperties(props);
    GetAt(props, 0);
    GetAt(props, 1);
    GetAt(props, 2);
  }

  const NumberType: Json := Obj([("type", Str("number"))])

  /** The `SuccessResponse` definition `getAllModelDefinitions` always adds. */
  const SuccessResponseDefinition: Json := Envelope(ObjectType)

  /** The `Paginator` definition `getAllModelDefinitions` always adds. */
  const PaginatorDefinition: Json :=
    Obj([
      ("type", Str("object")),
      ("properties", Obj([
        ("current_page", NumberType),
        ("per_page", Obj([("type", Str("number")), ("default", Num(50))])),
        ("from", NumberType),
        ("to", NumberType),
        ("total", NumberType),
        ("last_page", NumberType)]))])

  /** `getAllErrorDefinitions`: three definitions of the same envelope. */
  const ErrorDefinitions: Fields := [
    ("ApiErrorUnauthorized", Envelope(ObjectType)),
    ("ApiErrorAccessDenied", Envelope(ObjectType)),
    ("ApiError", Envelope(ObjectType))
  ]

  const ErrorNames: seq<string> := ["ApiErrorUnauthorized", "ApiErrorAccessDenied", "ApiError"]

  lemma ErrorDefinitionsShape()
    ensures Keys(ErrorDefinitions) == ErrorNames
    ensures UniqueKeys(ErrorDefinitions)
    ensures forall k :: k in ErrorNames ==> Get(ErrorDefinitions, k) == Some(Envelope(ObjectType))
  {
    GetAt(ErrorDefinitions, 0);
    GetAt(ErrorDefinitions, 1);
    GetAt(ErrorDefinitions, 2);
  }

  /** `getSuccessResponseDefinition($responseName, $successObject)` */
  function SuccessDefinition(responseName: string, successObject: string, fw: Helpers): (r: Result<Fields, DefinitionError>)
    ensures r.Success? <==> fw.shortClassName(successObject).Some?
    ensures r.Failure? ==> r.error == UnknownClass(successObject)
    ensures r.Success? ==> Keys(r.value) == [responseName]
    ensures r.Success? ==>
      Get(PropertiesOf(r.value[0].1), "payload") == Some(Ref(fw.shortClassName(successObject).value))
  {
    match fw.shortClassName(successObject)
    case None => Failure(UnknownClass(successObject))
    case Some(shortName) =>
      EnvelopeProperties(Ref(shortName));
      Success([(responseName, Envelope(Ref(shortName)))])
  }

  function PaginatedProperties(shortName: string): Fields {
    [("message", MessageProperty),
     ("result", ResultProperty),
     ("payload", Obj([("type", Str("array")), ("items", Ref(shortName))])),
     ("paginator", Ref("Paginator"))]
  }

  /** `getSuccessResponsePaginatedDefinition($responseName, $successObject)` */
  function PaginatedDefinition(responseName: string, successObject: string, fw: Helpers): (r: Result<Fields, DefinitionError>)
    ensures r.Success? <==> fw.shortClassName(successObject).Some?
    ensures r.Failure? ==> r.error == UnknownClass(successObject)
    ensures r.Success? ==> Keys(r.value) == [responseName]
    ensures r.Success? ==>
      Get(PropertiesOf(r.value[0].1), "payload") ==
        Some(Obj([("type", Str("array")), ("items", Ref(fw.shortClassName(successObject).value))]))
    ensures r.Success? ==> Get(PropertiesOf(r.value[0].1), "paginator") == Some(Ref("Paginator"))
  {
    match fw.shortClassName(successObject)
    case None => Failure(UnknownClass(successObject))
    case Some(shortName) =>
      var props := PaginatedProperties(shortName);
      ObjectProperties(props);
      GetAt(props, 2);
      GetAt(props, 3);
      Success([(responseName, Obj([("type", Str("object")), ("properties", Obj(props))]))])
  }

  /**
   * Both success definitions share the message and result properties of the
   * envelope (the error definitions are that envelope too); they differ only
   * in what the payload holds.
   */
  lemma EnvelopeShared(responseName: string, successObject: string, fw: Helpers)
    requires fw.shortClassName(successObject).Some?
    ensures var plain := SuccessDefinition(responseName, successObject, fw).value[0].1;
      var paged := PaginatedDefinition(responseName, successObject, fw).value[0].1;
      && Get(PropertiesOf(plain), "message") == Get(PropertiesOf(paged), "message") == Some(MessageProperty)
      && Get(PropertiesOf(plain), "result") == Get(PropertiesOf(paged), "result") == Some(ResultProperty)
      && Field(plain, "type") == Field(paged, "type") == Some(Str("object"))
  {
    var shortName := fw.shortClassName(successObject).value;
    EnvelopeProperties(Ref(shortName));
    var props := PaginatedProperties(shortName);
    ObjectProperties(props);
    GetAt(props, 0);
    GetAt(props, 1);
    GetAt([("type", Str("object")), ("properties", Obj(props))], 0);
  }

  /** `getAllDefinitions`: `array_merge` of the model and the error definitions. */
  function AllDefinitions(modelDefinitions: Fields): Fields {
    PutAll(modelDefinitions, ErrorDefinitions)
  }

  /** On a name clash the error definition wins; every other model definition is kept. */
  lemma AllDefinitionsErrorsWin(modelDefinitions: Fields)
    ensures forall k :: k in ErrorNames ==> Get(AllDefinitions(modelDefinitions), k) == Some(Envelope(ObjectType))
    ensures forall k :: k !in ErrorNames ==> Get(AllDefinitions(modelDefinitions), k) == Get(modelDefinitions, k)
    ensures UniqueKeys(modelDefinitions) ==> UniqueKeys(AllDefinitions(modelDefinitions))
  {
    ErrorDefinitionsShape();
  }

  // ---------------------------------------------------------------------
  // A model's own definition
  // ---------------------------------------------------------------------

  /** One entry of `getExtraApiFields()`: a list entry (integer key) or a named one. */
  datatype ExtraField = Listed(name: string) | Keyed(key: string, value: Json)

  /**
   * What reflection and the database say about a model class: its short
   * name, its columns as (name, database type), and its visible, extra and
   * hidden fields. A model without `getExtraApiFields` has no extras.
   */
  datatype ModelInfo = ModelInfo(
    shortName: string,
    columns: seq<(string, string)>,
    visible: seq<string>,
    extra: seq<ExtraField>,
    hidden: seq<string>)

  /** Every column typed with the Swagger name of its database type. */
  function ColumnFields(columns: seq<(string, string)>): Fields
    decreases |columns|
  {
    if columns == [] then []
    else
      var c := columns[|columns| - 1];
      Put(ColumnFields(columns[..|columns| - 1]), c.0, Str(Params.SwaggerDataType(c.1)))
  }

  /** The type a visible key receives: its column type, or `'string'` when it has none. */
  function VisibleType(fields: Fields, k: string): Json {
    if IsSet(Obj(fields), k) then Get(fields, k).value else Str("string")
  }

  function VisibleFields(fields: Fields, visible: seq<string>): Fields
    decreases |visible|
  {
    if visible == [] then []
    else
      var k := visible[|visible| - 1];
      Put(VisibleFields(fields, visible[..|visible| - 1]), k, VisibleType(fields, k))
  }

  /** An empty visible list keeps every column. */
  function SelectedFields(fields: Fields, visible: seq<string>): Fields {
    if visible == [] then fields else VisibleFields(fields, visible)
  }

  function ExtraKey(e: ExtraField): string {
    match e
    case Listed(n) => n
    case Keyed(k, _) => k
  }

  function ExtraValue(e: ExtraField): Json {
    match e
    case Listed(_) => Str("string")
    case Keyed(_, v) => v
  }

  function WithExtras(fields: Fields, extras: seq<ExtraField>): Fields
    decreases |extras|
  {
    if extras == [] then fields
    else
      var e := extras[|extras| - 1];
      Put(WithExtras(fields, extras[..|extras| - 1]), ExtraKey(e), ExtraValue(e))
  }

  /** The fields a model shows: selected columns, plus extras, minus hidden keys. */
  function ShownFields(m: ModelInfo): Fields {
    RemoveAll(WithExtras(SelectedFields(ColumnFields(m.columns), m.visible), m.extra), m.hidden)
  }

  /** The Swagger property for one shown field. */
  function PropertyOf(v: Json): (r: Json)
    ensures r.Obj? && r.fields != []
    ensures r.fields[0].0 == "type" || r.fields[0].0 == "$ref"
  {
    if v.Obj? && IsSet(v, "type") then
      var t := Field(v, "type").value;
      if LooselyIs(t, "array") && IsSet(v, "items") then
        var items := Field(v, "items").value;
        if items.Arr? || items.Obj? then
          var itemType := Field(items, "type").GetOr(Null);
          if IsSet(items, "format") then
            Obj([("type", t), ("items", Obj([("type", itemType), ("format", Field(items, "format").value)]))])
          else
            Obj([("type", t), ("items", Obj([("type", itemType)]))])
        else
          Obj([("type", t), ("items", Obj([("$ref", Str(RefPrefix + Text(items)))]))])
      else if LooselyIs(t, "object") && IsSet(v, "items") then
        Obj([("$ref", Str(RefPrefix + Text(Field(v, "items").value)))])
      else if IsSet(v, "format") then
        Obj([("type", t), ("format", Field(v, "format").value)])
      else
        Obj([("type", t)])
    else
      Obj([("type", v)])
  }

  /** A field described by a map with a type keeps that type whenever it has one. */
  lemma PropertyTypeKept(v: Json)
    requires v.Obj? && IsSet(v, "type")
    ensures Field(PropertyOf(v), "type").Some? ==> Field(PropertyOf(v), "type") == Field(v, "type")
  {
    var r := PropertyOf(v);
    if r.fields[0].0 == "type" {
      assert Get(r.fields, "type") == Some(r.fields[0].1);
    } else {
      assert r == Obj([("$ref", Str(RefPrefix + Text(Field(v, "items").value)))]);
      assert Get(r.fields, "type") == None by { assert Get(r.fields[1..], "type") == None; }
    }
  }

  /**
   * A field described by a map with a type becomes a bare reference exactly when
   * the type is (loosely) `'object'`, not `'array'`, and it names items.
   */
  lemma PropertyRefIff(v: Json)
    requires v.Obj? && IsSet(v, "type")
    ensures Field(PropertyOf(v), "$ref").Some? <==>
      !LooselyIs(Field(v, "type").value, "array") && LooselyIs(Field(v, "type").value, "object") && IsSet(v, "items")
  {
    var r := PropertyOf(v);
    if r.fields[0].0 == "$ref" {
      assert Get(r.fields, "$ref") == Some(r.fields[0].1);
    } else {
      assert r.fields[0].0 == "type";
      assert forall i :: 0 <= i < |r.fields| ==> r.fields[i].0 != "$ref";
      assert "$ref" !in Keys(r.fields);
    }
  }

  /** A scalar field value is the property's type. */
  lemma PropertyOfScalar(v: Json)
    requires !v.Obj?
    ensures Field(PropertyOf(v), "type") == Some(v)
    ensures |PropertyOf(v).fields| == 1
  {
  }

  function PropertiesOfFields(fields: Fields): Fields
    decreases |fields|
  {
    if fields == [] then []
    else
      var f := fields[|fields| - 1];
      Put(PropertiesOfFields(fields[..|fields| - 1]), f.0, PropertyOf(f.1))
  }

  /** The definition for a property list: `properties` only when there are some. */
  function DefinitionOf(properties: Fields): Json {
    Obj([("type", Str("object"))] + (if properties == [] then [] else [("properties", Obj(properties))]))
  }

  /** `getModelDefinition($class)`: the short name and the definition. */
  function ModelDefinition(m: ModelInfo): (string, Json) {
    (m.shortName, DefinitionOf(PropertiesOfFields(ShownFields(m))))
  }

  // Field selection, step by step.

  /** Membership in a non-empty sequence, split at its last element. */
  lemma InSnoc<T>(s: seq<T>, x: T)
    requires s != []
    ensures x in s <==> x in s[..|s| - 1] || x == s[|s| - 1]
  {
    assert s == s[..|s| - 1] + [s[|s| - 1]];
  }

  lemma Snoc<T>(s: seq<T>)
    requires s != []
    ensures s == s[..|s| - 1] + [s[|s| - 1]]
  {
  }

  /** A key list without repetitions. */
  predicate Distinct(ks: seq<string>) {
    forall i, j :: 0 <= i < j < |ks| ==> ks[i] != ks[j]
  }

  lemma {:induction false} ColumnFieldsUnique(columns: seq<(string, string)>)
    ensures UniqueKeys(ColumnFields(columns))
    decreases |columns|
  {
    if columns != [] {
      var c := columns[|columns| - 1];
      ColumnFieldsUnique(columns[..|columns| - 1]);
      PutUnique(ColumnFields(columns[..|columns| - 1]), c.0, Str(Params.SwaggerDataType(c.1)));
    }
  }

  /** A non-empty visible list selects exactly its own keys, typed from the columns or `'string'`. */
  lemma {:induction false} VisibleFieldsSpec(fields: Fields, visible: seq<string>)
    ensures forall k ::
      Get(VisibleFields(fields, visible), k) == (if k in visible then Some(VisibleType(fields, k)) else None)
    decreases |visible|
  {
    if visible != [] {
      var init := visible[..|visible| - 1];
      var last := visible[|visible| - 1];
      VisibleFieldsSpec(fields, init);
      forall k
        ensures Get(VisibleFields(fields, visible), k) == (if k in visible then Some(VisibleType(fields, k)) else None)
      {
        InSnoc(visible, k);
      }
    }
  }

  lemma {:induction false} VisibleFieldsUnique(fields: Fields, visible: seq<string>)
    ensures UniqueKeys(VisibleFields(fields, visible))
    decreases |visible|
  {
    if visible != [] {
      var init := visible[..|visible| - 1];
      var last := visible[|visible| - 1];
      VisibleFieldsUnique(fields, init);
      PutUnique(VisibleFields(fields, init), last, VisibleType(fields, last));
    }
  }

  /** Distinct visible keys come out in their visible order. */
  lemma {:induction false} VisibleFieldsKeys(fields: Fields, visible: seq<string>)
    requires Distinct(visible)
    ensures Keys(VisibleFields(fields, visible)) == visible
    decreases |visible|
  {
    if visible != [] {
      var init := visible[..|visible| - 1];
      var last := visible[|visible| - 1];
      assert Distinct(init);
      VisibleFieldsKeys(fields, init);
      Snoc(visible);
    }
  }

  /** The last extra field naming a key, if any. */
  function LastExtra(extras: seq<ExtraField>, k: string): Option<Json>
    decreases |extras|
  {
    if extras == [] then None
    else if ExtraKey(extras[|extras| - 1]) == k then Some(ExtraValue(extras[|extras| - 1]))
    else LastExtra(extras[..|extras| - 1], k)
  }

  /** Extra fields override selected ones, the last extra for a key winning; other keys are untouched. */
  lemma {:induction false} WithExtrasSpec(fields: Fields, extras: seq<ExtraField>)
    ensures forall k ::
      Get(WithExtras(fields, extras), k) == (if LastExtra(extras, k).Some? then LastExtra(extras, k) else Get(fields, k))
    ensures UniqueKeys(fields) ==> UniqueKeys(WithExtras(fields, extras))
    decreases |extras|
  {
    if extras != [] {
      var e := extras[|extras| - 1];
      WithExtrasSpec(fields, extras[..|extras| - 1]);
      if UniqueKeys(fields) {
        PutUnique(WithExtras(fields, extras[..|extras| - 1]), ExtraKey(e), ExtraValue(e));
      }
    }
  }

  /**
   * The shown fields of a model: hidden keys never appear; other keys take the
   * last extra naming them, else the visible selection (or every column when
   * nothing is marked visible).
   */
  lemma ShownFieldsSpec(m: ModelInfo)
    ensures UniqueKeys(ShownFields(m))
    ensures forall k :: k in m.hidden ==> Get(ShownFields(m), k) == None
    ensures forall k :: k !in m.hidden && LastExtra(m.extra, k).Some? ==>
      Get(ShownFields(m), k) == LastExtra(m.extra, k)
    ensures forall k :: k !in m.hidden && LastExtra(m.extra, k).None? && m.visible != [] ==>
      Get(ShownFields(m), k) == if k in m.visible then Some(VisibleType(ColumnFields(m.columns), k)) else None
    ensures forall k :: k !in m.hidden && LastExtra(m.extra, k).None? && m.visible == [] ==>
      Get(ShownFields(m), k) == Get(ColumnFields(m.columns), k)
  {
    var columns := ColumnFields(m.columns);
    ColumnFieldsUnique(m.columns);
    VisibleFieldsSpec(columns, m.visible);
    VisibleFieldsUnique(columns, m.visible);
    var selected := SelectedFields(columns, m.visible);
    WithExtrasSpec(selected, m.extra);
  }

  /** With unique keys, the properties are the fields shaped one by one, in the same order. */
  lemma {:induction false} PropertiesOfFieldsKeys(fields: Fields)
    requires UniqueKeys(fields)
    ensures Keys(PropertiesOfFields(fields)) == Keys(fields)
    decreases |fields|
  {
    if fields != [] {
      UniqueSnoc(fields);
      PropertiesOfFieldsKeys(fields[..|fields| - 1]);
    }
  }

  lemma {:induction false} PropertiesOfFieldsSpec(fields: Fields)
    requires UniqueKeys(fields)
    ensures forall k ::
      Get(PropertiesOfFields(fields), k) == (if Get(fields, k).Some? then Some(PropertyOf(Get(fields, k).value)) else None)
    decreases |fields|
  {
    if fields != [] {
      var init := fields[..|fields| - 1];
      var f := fields[|fields| - 1];
      UniqueSnoc(fields);
      PropertiesOfFieldsSpec(init);
      Snoc(fields);
      forall k
        ensures Get(fields, k) == if k in Keys(init) then Get(init, k) else if k == f.0 then Some(f.1) else None
      {
        GetAppend(init, f, k);
      }
    }
  }

  /**
   * A model's definition is an object whose `properties` holds one property
   * per shown field, in order, and is present only when some field is shown.
   */
  lemma ModelDefinitionSpec(m: ModelInfo)
    ensures ModelDefinition(m).0 == m.shortName
    ensures Field(ModelDefinition(m).1, "type") == Some(Str("object"))
    ensures Field(ModelDefinition(m).1, "properties").Some? <==> ShownFields(m) != []
    ensures Keys(PropertiesOf(ModelDefinition(m).1)) == Keys(ShownFields(m))
    ensures forall k ::
      Get(PropertiesOf(ModelDefinition(m).1), k) == (if Get(ShownFields(m), k).Some? then Some(PropertyOf(Get(ShownFields(m), k).value)) else None)
  {
    var shown := ShownFields(m);
    var props := PropertiesOfFields(shown);
    ShownFieldsSpec(m);
    PropertiesOfFieldsSpec(shown);
    PropertiesOfFieldsKeys(shown);
    assert |props| == |Keys(shown)| == |shown|;
    if props == [] {
      assert PropertiesOf(ModelDefinition(m).1) == [];
    } else {
      ObjectProperties(props);
      assert PropertiesOf(ModelDefinition(m).1) == props;
      GetAt(ModelDefinition(m).1.fields, 1);
    }
  }

  // ---------------------------------------------------------------------
  // All model definitions
  // ---------------------------------------------------------------------

  /** One step of the merge: a hidden or already defined name is skipped. */
  function AddModel(defs: Fields, m: ModelInfo, hidden: seq<string>): Fields {
    var (name, definition) := ModelDefinition(m);
    if name in hidden || IsSet(Obj(defs), name) then defs else Put(defs, name, definition)
  }

  function ModelDefinitionsOf(models: seq<ModelInfo>, hidden: seq<string>): Fields
    decreases |models|
  {
    if models == [] then []
    else AddModel(ModelDefinitionsOf(models[..|models| - 1], hidden), models[|models| - 1], hidden)
  }

  /** `getAllModelDefinitions()`, with the config flag and hidden list as parameters. */
  function AllModelDefinitions(enabled: bool, models: seq<ModelInfo>, hidden: seq<string>): Fields {
    if !enabled then []
    else Put(Put(ModelDefinitionsOf(models, hidden), "SuccessResponse", SuccessResponseDefinition), "Paginator", PaginatorDefinition)
  }

  /** The first model with a given short name, in load order. */
  function FirstNamed(models: seq<ModelInfo>, name: string): Option<ModelInfo> {
    if models == [] then None
    else if models[0].shortName == name then Some(models[0])
    else FirstNamed(models[1..], name)
  }

  lemma {:induction false} FirstNamedSnoc(models: seq<ModelInfo>, m: ModelInfo, name: string)
    ensures FirstNamed(models + [m], name) ==
      if FirstNamed(models, name).Some? then FirstNamed(models, name)
      else if m.shortName == name then Some(m) else None
  {
    if models != [] {
      assert (models + [m])[1..] == models[1..] + [m];
      FirstNamedSnoc(models[1..], m, name);
    }
  }

  /** The definition a visible name receives: that of the first model carrying it. */
  function ExpectedDefinition(models: seq<ModelInfo>, hidden: seq<string>, name: string): Option<Json> {
    if name in hidden then None
    else match FirstNamed(models, name)
      case None => None
      case Some(m) => Some(ModelDefinition(m).1)
  }

  /** Hidden names are skipped and the first model with a name wins over later ones. */
  lemma {:induction false} ModelDefinitionsFirstWins(models: seq<ModelInfo>, hidden: seq<string>)
    ensures forall name :: Get(ModelDefinitionsOf(models, hidden), name) == ExpectedDefinition(models, hidden, name)
    decreases |models|
  {
    if models != [] {
      var init := models[..|models| - 1];
      var m := models[|models| - 1];
      var defs := ModelDefinitionsOf(init, hidden);
      ModelDefinitionsFirstWins(init, hidden);
      Snoc(models);
      assert ModelDefinitionsOf(models, hidden) == AddModel(defs, m, hidden);
      forall name
        ensures Get(ModelDefinitionsOf(models, hidden), name) == ExpectedDefinition(models, hidden, name)
      {
        FirstNamedSnoc(init, m, name);
      }
    }
  }

  lemma {:induction false} ModelDefinitionsUnique(models: seq<ModelInfo>, hidden: seq<string>)
    ensures UniqueKeys(ModelDefinitionsOf(models, hidden))
    decreases |models|
  {
    if models != [] {
      var init := models[..|models| - 1];
      var defs := ModelDefinitionsOf(init, hidden);
      ModelDefinitionsUnique(init, hidden);
      var (n, d) := ModelDefinition(models[|models| - 1]);
      PutUnique(defs, n, d);
    }
  }

  /**
   * With the flag off there are no model definitions. With it on, the two
   * fixed definitions are always present and every other name is defined by
   * the first non-hidden model carrying it.
   */
  lemma AllModelDefinitionsSpec(enabled: bool, models: seq<ModelInfo>, hidden: seq<string>)
    ensures !enabled ==> AllModelDefinitions(enabled, models, hidden) == []
    ensures enabled ==> Get(AllModelDefinitions(enabled, models, hidden), "SuccessResponse") == Some(SuccessResponseDefinition)
    ensures enabled ==> Get(AllModelDefinitions(enabled, models, hidden), "Paginator") == Some(PaginatorDefinition)
    ensures enabled ==> forall name :: name != "SuccessResponse" && name != "Paginator" ==>
      Get(AllModelDefinitions(enabled, models, hidden), name) == ExpectedDefinition(models, hidden, name)
    ensures UniqueKeys(AllModelDefinitions(enabled, models, hidden))
  {
    ModelDefinitionsFirstWins(models, hidden);
    ModelDefinitionsUnique(models, hidden);
    var defs := ModelDefinitionsOf(models, hidden);
    PutUnique(defs, "SuccessResponse", SuccessResponseDefinition);
    PutUnique(Put(defs, "SuccessResponse", SuccessResponseDefinition), "Paginator", PaginatorDefinition);
  }

  /** The paginated success definition's `Paginator` reference resolves whenever model definitions are on. */
  lemma PaginatorResolves(enabled: bool, models: seq<ModelInfo>, hidden: seq<string>, responseName: string, successObject: string, fw: Helpers)
    requires enabled && fw.shortClassName(successObject).Some?
    ensures var paged := PaginatedDefinition(responseName, successObject, fw).value[0].1;
      Get(PropertiesOf(paged), "paginator") == Some(Ref("Paginator")) &&
      Get(AllDefinitions(AllModelDefinitions(enabled, models, hidden)), "Paginator").Some?
  {
    AllModelDefinitionsSpec(enabled, models, hidden);
    AllDefinitionsErrorsWin(AllModelDefinitions(enabled, models, hidden));
  }

  // ---------------------------------------------------------------------
  // The loops of `getModelDefinition` and `getAllModelDefinitions`
  // ---------------------------------------------------------------------

  method CollectColumns(columns: seq<(string, string)>) returns (fields: Fields)
    ensures fields == ColumnFields(columns)
  {
    fields := [];
    var i := 0;
    while i < |columns|
      invariant 0 <= i <= |columns|
      invariant fields == ColumnFields(columns[..i])
    {
      assert columns[..i + 1][..i] == columns[..i];
      fields := Put(fields, columns[i].0, Str(Params.SwaggerDataType(columns[i].1)));
      i := i + 1;
    }
    assert columns[..i] == columns;
  }

  method SelectVisible(fields: Fields, visible: seq<string>) returns (selected: Fields)
    ensures selected == SelectedFields(fields, visible)
  {
    if visible == [] {
      return fields;
    }
    selected := [];
    var i := 0;
    while i < |visible|
      invariant 0 <= i <= |visible|
      invariant selected == VisibleFields(fields, visible[..i])
    {
      assert visible[..i + 1][..i] == visible[..i];
      var k := visible[i];
      if IsSet(Obj(fields), k) {
        selected := Put(selected, k, Get(fields, k).value);
      } else {
        selected := Put(selected, k, Str("string"));
      }
      i := i + 1;
    }
    assert visible[..i] == visible;
  }

  method AddExtras(fields: Fields, extras: seq<ExtraField>) returns (result: Fields)
    ensures result == WithExtras(fields, extras)
  {
    result := fields;
    var i := 0;
    while i < |extras|
      invariant 0 <= i <= |extras|
      invariant result == WithExtras(fields, extras[..i])
    {
      assert extras[..i + 1][..i] == extras[..i];
      ghost var before := result;
      if extras[i].Listed? {
        result := Put(result, extras[i].name, Str("string"));
      } else {
        result := Put(result, extras[i].key, extras[i].value);
      }
      assert result == Put(before, ExtraKey(extras[i]), ExtraValue(extras[i]));
      i := i + 1;
    }
    assert extras[..i] == extras;
  }

  method RemoveHidden(fields: Fields, hidden: seq<string>) returns (result: Fields)
    ensures result == RemoveAll(fields, hidden)
  {
    result := fields;
    var i := 0;
    while i < |hidden|
      invariant 0 <= i <= |hidden|
      invariant RemoveAll(result, hidden[i..]) == RemoveAll(fields, hidden)
    {
      assert hidden[i..][1..] == hidden[i + 1..];
      result := Remove(result, hidden[i]);
      i := i + 1;
    }
  }

  method ShapeProperties(fields: Fields) returns (properties: Fields)
    ensures properties == PropertiesOfFields(fields)
  {
    properties := [];
    var i := 0;
    while i < |fields|
      invariant 0 <= i <= |fields|
      invariant properties == PropertiesOfFields(fields[..i])
    {
      assert fields[..i + 1][..i] == fields[..i];
      properties := Put(properties, fields[i].0, PropertyOf(fields[i].1));
      i := i + 1;
    }
    assert fields[..i] == fields;
  }

  method CollectShownFields(m: ModelInfo) returns (selected: Fields)
    ensures selected == ShownFields(m)
  {
    var fields := CollectColumns(m.columns);
    selected := SelectVisible(fields, m.visible);
    selected := AddExtras(selected, m.extra);
    selected := RemoveHidden(selected, m.hidden);
  }

  /** `getModelDefinition($class)` */
  method BuildModelDefinition(m: ModelInfo) returns (name: string, definition: Json)
    ensures (name, definition) == ModelDefinition(m)
  {
    var selected := CollectShownFields(m);
    var properties := ShapeProperties(selected);
    name := m.shortName;
    var fields: Fields := [("type", Str("object"))];
    if |properties| > 0 {
      fields := fields + [("properties", Obj(properties))];
    } else {
      assert fields == fields + [];
    }
    definition := Obj(fields);
  }

  /** `getAllModelDefinitions()` */
  method BuildAllModelDefinitions(enabled: bool, models: seq<ModelInfo>, hidden: seq<string>) returns (definitions: Fields)
    ensures definitions == AllModelDefinitions(enabled, models, hidden)
  {
    if !enabled {
      return [];
    }
    definitions := [];
    var i := 0;
    while i < |models|
      invariant 0 <= i <= |models|
      invariant definitions == ModelDefinitionsOf(models[..i], hidden)
    {
      assert models[..i + 1][..i] == models[..i];
      var name, definition := BuildModelDefinition(models[i]);
      if name !in hidden && !IsSet(Obj(definitions), name) {
        definitions := Put(definitions, name, definition);
      }
      i := i + 1;
    }
    assert models[..i] == models;
    definitions := Put(definitions, "SuccessResponse", SuccessResponseDefinition);
    definitions := Put(definitions, "Paginator", PaginatorDefinition);
  }
}
