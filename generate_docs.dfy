/**
 * `GenerateDocsCommand`: the selection of the routes to document, the method
 * a route is called with, and the projection of the registered calls into a
 * Swagger 2.0 document and a Postman environment (`createSwaggerJson`).
 * Hitting the routes, the console, the environment and the output files are
 * not modelled; the registered calls, the model definitions, the application
 * URL and the random fallback of the operation id are inputs.
 */
module DocsCommand {
  import opened Wrappers
  import opened Strings
  import opened JsonValues
  import opened Framework
  import opened Params
  import opened ApiCalls
  import DocBuilders
  import ModelDefinitions
  import SwaggerDocs
  import PostmanEnvironments

  /** The exceptions the command throws. */
  datatype CommandError =
    | ApiCallsNotDefined        // APICallsNotDefinedException: no call was registered
    | InvalidType(docType: string)
    | UnknownClass(cls: string) // ReflectionException from a short class name
    | DefinitionExists(name: string)
    | MissingCollectionFormat(param: string) // TypeError: `getCollectionFormat(): string` of an array parameter whose format was never set

  // ---------------------------------------------------------------- hitRoutesAndLoadDocs

  /** The parts of a framework route the command reads. */
  datatype Route = Route(uri: string, methods: seq<string>)

  /** `strpos($route->uri(), 'api') === 0` */
  predicate IsApiRoute(r: Route) {
    StartsWith(r.uri, "api")
  }

  /** The API routes, in their order. */
  function ApiRoutes(routes: seq<Route>): seq<Route> {
    if routes == [] then []
    else
      var last := routes[|routes| - 1];
      ApiRoutes(routes[..|routes| - 1]) + (if IsApiRoute(last) then [last] else [])
  }

  /** A route is kept exactly when it is an API route. */
  lemma {:induction false} ApiRoutesMembers(routes: seq<Route>)
    ensures forall r :: r in ApiRoutes(routes) <==> r in routes && IsApiRoute(r)
  {
    if routes != [] {
      var init := routes[..|routes| - 1];
      ApiRoutesMembers(init);
      assert routes == init + [routes[|routes| - 1]];
    }
  }

  /** A list of API routes only is kept whole and in order. */
  lemma {:induction false} ApiRoutesAll(routes: seq<Route>)
    requires forall i :: 0 <= i < |routes| ==> IsApiRoute(routes[i])
    ensures ApiRoutes(routes) == routes
  {
    if routes != [] {
      var init := routes[..|routes| - 1];
      ApiRoutesAll(init);
      assert routes == init + [routes[|routes| - 1]];
    }
  }

  /** The filtering loop that collects the API routes. */
  method FilterApiRoutes(routes: seq<Route>) returns (api: seq<Route>)
    ensures api == ApiRoutes(routes)
  {
    api := [];
    var i := 0;
    while i < |routes|
      invariant 0 <= i <= |routes|
      invariant api == ApiRoutes(routes[..i])
    {
      assert routes[..i + 1][..i] == routes[..i];
      if IsApiRoute(routes[i]) {
        api := api + [routes[i]];
      }
      i := i + 1;
    }
    assert routes[..i] == routes;
  }

  /** The check once the routes were hit: no registered call is an error. */
  function LoadedCalls(calls: seq<CallRecord>): (r: Result<seq<CallRecord>, CommandError>)
    ensures r.Failure? <==> calls == []
    ensures r.Failure? ==> r.error == ApiCallsNotDefined
    ensures r.Success? ==> r.value == calls
  {
    if |calls| == 0 then Failure(ApiCallsNotDefined) else Success(calls)
  }

  /**
   * `getRouteInformation($route)['method']`: the only method, else `GET` when
   * it is one of them; otherwise the variable is never assigned (None).
   */
  function RouteMethod(methods: seq<string>): Option<string> {
    if |methods| == 1 then Some(methods[0])
    else if "GET" in methods then Some("GET")
    else None
  }

  /** The method chosen is one of the route's, `GET` whenever the route accepts it, and exists unless the route has several methods and none is `GET`. */
  lemma RouteMethodSpec(methods: seq<string>)
    ensures RouteMethod(methods).Some? ==> RouteMethod(methods).value in methods
    ensures "GET" in methods ==> RouteMethod(methods) == Some("GET")
    ensures RouteMethod(methods).None? <==> |methods| != 1 && "GET" !in methods
  {
  }

  // ---------------------------------------------------------------- the merged parameter list

  /** `findByDefinition($title)` over the registered calls: the first one defined under `title`. */
  function FirstDefined(calls: seq<CallRecord>, title: string): (r: Option<CallRecord>)
    ensures r.None? <==> forall i :: 0 <= i < |calls| ==> !DocBuilders.DefinedAs(calls[i].define, title)
    ensures r.Some? ==> r.value in calls && DocBuilders.DefinedAs(r.value.define, title)
  {
    if calls == [] then None
    else if DocBuilders.DefinedAs(calls[0].define, title) then Some(calls[0])
    else
      assert forall i :: 1 <= i < |calls| ==> calls[1..][i - 1] == calls[i];
      FirstDefined(calls[1..], title)
  }

  /** The call found is the first one, in registration order, defined under the title. */
  lemma {:induction false} FirstDefinedIsFirst(calls: seq<CallRecord>, title: string, i: nat)
    requires i < |calls| && DocBuilders.DefinedAs(calls[i].define, title)
    requires forall j :: 0 <= j < i ==> !DocBuilders.DefinedAs(calls[j].define, title)
    ensures FirstDefined(calls, title) == Some(calls[i])
  {
    if i > 0 {
      FirstDefinedIsFirst(calls[1..], title, i - 1);
    }
  }

  /** What one `use`d name contributes: the fragment's params, then its headers; nothing when unresolved. */
  function FragmentParams(calls: seq<CallRecord>, title: string): seq<ParamRecord> {
    match FirstDefined(calls, title)
    case Some(c) => c.params + c.headers
    case None => []
  }

  /** The contributions of every `use`d name, in order. */
  function UsedParams(calls: seq<CallRecord>, use: seq<string>): seq<ParamRecord> {
    if use == [] then []
    else UsedParams(calls, use[..|use| - 1]) + FragmentParams(calls, use[|use| - 1])
  }

  /** `$allParams`: the call's headers, its params, then what its `use`d fragments contribute. */
  function MergedParams(calls: seq<CallRecord>, item: CallRecord): seq<ParamRecord> {
    item.headers + item.params + UsedParams(calls, item.use)
  }

  /** The fragments contribute in the order they are used. */
  lemma {:induction false} UsedParamsAppend(calls: seq<CallRecord>, u: seq<string>, v: seq<string>)
    ensures UsedParams(calls, u + v) == UsedParams(calls, u) + UsedParams(calls, v)
    decreases |v|
  {
    if v == [] {
      assert u + v == u;
    } else {
      var w := v[..|v| - 1];
      var last := FragmentParams(calls, v[|v| - 1]);
      assert UsedParams(calls, u + v) == UsedParams(calls, u + w) + last by {
        assert (u + v)[..|u + v| - 1] == u + w;
        assert (u + v)[|u + v| - 1] == v[|v| - 1];
      }
      assert UsedParams(calls, u + w) == UsedParams(calls, u) + UsedParams(calls, w) by {
        UsedParamsAppend(calls, u, w);
      }
    }
  }

  /** Names no registered call defines are ignored. */
  lemma {:induction false} UsedParamsUnresolved(calls: seq<CallRecord>, use: seq<string>)
    requires forall i :: 0 <= i < |use| ==> FirstDefined(calls, use[i]).None?
    ensures UsedParams(calls, use) == []
  {
    if use != [] {
      UsedParamsUnresolved(calls, use[..|use| - 1]);
    }
  }

  lemma ConcatAssoc<T>(a: seq<T>, b: seq<T>, c: seq<T>)
    ensures a + b + c == a + (b + c)
  {
  }

  lemma UsedParamsSnoc(calls: seq<CallRecord>, use: seq<string>, i: nat)
    requires i < |use|
    ensures UsedParams(calls, use[..i + 1]) == UsedParams(calls, use[..i]) + FragmentParams(calls, use[i])
  {
    assert use[..i + 1][..i] == use[..i];
  }

  /** The merging loop over `use`. */
  method MergeParams(calls: seq<CallRecord>, item: CallRecord) returns (all: seq<ParamRecord>)
    ensures all == MergedParams(calls, item)
  {
    var base := item.headers + item.params;
    var use := item.use;
    all := base;
    var i := 0;
    while i < |use|
      invariant 0 <= i <= |use|
      invariant all == base + UsedParams(calls, use[..i])
    {
      UsedParamsSnoc(calls, use, i);
      ConcatAssoc(base, UsedParams(calls, use[..i]), FragmentParams(calls, use[i]));
      var child := FirstDefined(calls, use[i]);
      if child.Some? {
        ConcatAssoc(all, child.value.params, child.value.headers);
        all := all + child.value.params + child.value.headers;
      }
      i := i + 1;
    }
    assert use[..i] == use;
  }

  // ---------------------------------------------------------------- the security split

  const ApiKeyHeader := "x-api-key"
  const AccessTokenHeader := "x-access-token"

  /** The security scheme a header stands for, by its lower-cased name. */
  function SchemeOf(p: ParamRecord): Option<string> {
    if p.location == Some(LocationHeader) then
      var field := Lower(p.name);
      if field == ApiKeyHeader then Some("apiKey")
      else if field == AccessTokenHeader then Some("accessToken")
      else None
    else None
  }

  /** A Swagger security requirement naming one scheme with no scopes. */
  function Requirement(scheme: string): Json {
    Obj([(scheme, Arr([]))])
  }

  /** `$securityDefinitions`: one requirement per security header, in order. */
  function SecurityOf(ps: seq<ParamRecord>): seq<Json> {
    if ps == [] then []
    else
      var last := ps[|ps| - 1];
      SecurityOf(ps[..|ps| - 1]) + (if SchemeOf(last).Some? then [Requirement(SchemeOf(last).value)] else [])
  }

  /** `$filteredParams`: every parameter that is not a security header, in order. */
  function Filtered(ps: seq<ParamRecord>): seq<ParamRecord> {
    if ps == [] then []
    else
      var last := ps[|ps| - 1];
      Filtered(ps[..|ps| - 1]) + (if SchemeOf(last).None? then [last] else [])
  }

  /** The splitting loop. */
  method SplitSecurity(ps: seq<ParamRecord>) returns (security: seq<Json>, filtered: seq<ParamRecord>)
    ensures security == SecurityOf(ps)
    ensures filtered == Filtered(ps)
  {
    security, filtered := [], [];
    var i := 0;
    while i < |ps|
      invariant 0 <= i <= |ps|
      invariant security == SecurityOf(ps[..i])
      invariant filtered == Filtered(ps[..i])
    {
      assert ps[..i + 1][..i] == ps[..i];
      var p := ps[i];
      if p.location == Some(LocationHeader) {
        var field := Lower(p.name);
        if field == ApiKeyHeader || field == AccessTokenHeader {
          if field == ApiKeyHeader {
            security := security + [Requirement("apiKey")];
          } else {
            security := security + [Requirement("accessToken")];
          }
          i := i + 1;
          continue;
        }
      }
      filtered := filtered + [p];
      i := i + 1;
    }
    assert ps[..i] == ps;
  }

  /** Every parameter goes to exactly one side of the split. */
  lemma {:induction false} SplitCounts(ps: seq<ParamRecord>)
    ensures |SecurityOf(ps)| + |Filtered(ps)| == |ps|
  {
    if ps != [] {
      SplitCounts(ps[..|ps| - 1]);
    }
  }

  /** The kept parameters are exactly those that are not security headers. */
  lemma {:induction false} FilteredMembers(ps: seq<ParamRecord>)
    ensures forall p :: p in Filtered(ps) <==> p in ps && SchemeOf(p).None?
  {
    if ps != [] {
      var init := ps[..|ps| - 1];
      FilteredMembers(init);
      assert ps == init + [ps[|ps| - 1]];
    }
  }

  /** The split of a concatenation is the concatenation of the splits, so both sides keep their order. */
  lemma {:induction false} SplitAppend(a: seq<ParamRecord>, b: seq<ParamRecord>)
    ensures SecurityOf(a + b) == SecurityOf(a) + SecurityOf(b)
    ensures Filtered(a + b) == Filtered(a) + Filtered(b)
    decreases |b|
  {
    if b == [] {
      assert a + b == a;
    } else {
      var init := b[..|b| - 1];
      var last := b[|b| - 1];
      assert (a + b)[..|a + b| - 1] == a + init;
      assert (a + b)[|a + b| - 1] == last;
      SplitAppend(a, init);
      ConcatAssoc(SecurityOf(a), SecurityOf(init), if SchemeOf(last).Some? then [Requirement(SchemeOf(last).value)] else []);
      ConcatAssoc(Filtered(a), Filtered(init), if SchemeOf(last).None? then [last] else []);
    }
  }

  /** Without security headers, nothing is split off. */
  lemma {:induction false} SplitNone(ps: seq<ParamRecord>)
    requires forall i :: 0 <= i < |ps| ==> SchemeOf(ps[i]).None?
    ensures SecurityOf(ps) == []
    ensures Filtered(ps) == ps
  {
    if ps != [] {
      var init := ps[..|ps| - 1];
      assert forall i :: 0 <= i < |init| ==> init[i] == ps[i];
      SplitNone(init);
      assert SchemeOf(ps[|ps| - 1]).None?;
      assert Filtered(ps) == Filtered(init) + [ps[|ps| - 1]];
      assert init + [ps[|ps| - 1]] == ps;
    }
  }

  /** A single security header becomes its requirement and is dropped from the parameters. */
  lemma SplitOne(p: ParamRecord)
    requires SchemeOf(p).Some?
    ensures SecurityOf([p]) == [Requirement(SchemeOf(p).value)]
    ensures Filtered([p]) == []
  {
    assert [p][..0] == [];
  }

  // ---------------------------------------------------------------- dotted names

  /** The middle segments of a nested name: `[seg][0]` each. */
  function Bracketed(segs: seq<string>): string {
    if segs == [] then ""
    else Bracketed(segs[..|segs| - 1]) + "[" + segs[|segs| - 1] + "][0]"
  }

  /** The name written from its dot-separated parts. */
  function NestedName(parts: seq<string>): string
    requires |parts| >= 1
  {
    if |parts| == 1 then parts[0]
    else parts[0] + "[0]" + Bracketed(parts[1..|parts| - 1]) + "[" + parts[|parts| - 1] + "]"
  }

  /** The parameter name as written into the document. */
  function RewrittenName(name: string): string {
    NestedName(Split(name, '.'))
  }

  /** The rewriting loop over the name's parts. */
  method RewriteName(name: string) returns (r: string)
    ensures r == RewrittenName(name)
  {
    var parts := Split(name, '.');
    var count := |parts|;
    if count <= 1 {
      return parts[0];
    }
    r := "";
    for i := 0 to count
      invariant i == 0 ==> r == ""
      invariant 0 < i < count ==> r == parts[0] + "[0]" + Bracketed(parts[1..i])
      invariant i == count ==> r == NestedName(parts)
    {
      if i == 0 {
        r := parts[i] + "[0]";
        assert parts[1..1] == [];
      } else if i == count - 1 {
        r := r + "[" + parts[i] + "]";
      } else {
        assert parts[1..i + 1][..i - 1] == parts[1..i];
        r := r + "[" + parts[i] + "][0]";
      }
    }
  }

  /** A name without a dot is kept as it is. */
  lemma RewrittenPlain(name: string)
    requires '.' !in name
    ensures RewrittenName(name) == name
  {
  }

  /** `a.b` becomes `a[0][b]`. */
  lemma RewrittenTwo(a: string, b: string)
    requires '.' !in a && '.' !in b
    ensures RewrittenName(a + "." + b) == a + "[0][" + b + "]"
  {
    SplitHead(a, '.', b);
    assert a + "." + b == a + ['.'] + b;
    assert Split(a + "." + b, '.') == [a, b];
    assert [a, b][1..1] == [];
  }

  /** `a.b.c` becomes `a[0][b][0][c]`. */
  lemma RewrittenThree(a: string, b: string, c: string)
    requires '.' !in a && '.' !in b && '.' !in c
    ensures RewrittenName(a + "." + b + "." + c) == a + "[0][" + b + "][0][" + c + "]"
  {
    ThreeParts(a, b, c);
    NestedThree(a, b, c);
  }

  lemma ThreeParts(a: string, b: string, c: string)
    requires '.' !in a && '.' !in b && '.' !in c
    ensures Split(a + "." + b + "." + c, '.') == [a, b, c]
  {
    SplitHead(b, '.', c);
    assert a + "." + b + "." + c == a + ['.'] + (b + ['.'] + c);
    SplitHead(a, '.', b + ['.'] + c);
  }

  lemma NestedThree(a: string, b: string, c: string)
    ensures NestedName([a, b, c]) == a + "[0][" + b + "][0][" + c + "]"
  {
    assert [a, b, c][1..2] == [b];
    assert Bracketed([b]) == "[" + b + "][0]" by {
      assert [b][..0] == [];
    }
  }

  /** A dotted name always comes out with a bracket right after its first part. */
  lemma RewrittenDotted(name: string)
    requires '.' in name
    ensures '[' in RewrittenName(name)
  {
    var parts := Split(name, '.');
    var i := IndexOfChar(name, '.');
    assert parts == [name[..i]] + Split(name[i + 1..], '.');
    var r := RewrittenName(name);
    assert r == parts[0] + "[0]" + Bracketed(parts[1..|parts| - 1]) + "[" + parts[|parts| - 1] + "]";
    assert r[|parts[0]|] == '[';
  }

  // ---------------------------------------------------------------- one parameter

  /** A parameter without a location: `query` for a `get`, else `formData`. */
  function LocationOf(p: ParamRecord, verb: string): string {
    match p.location
    case Some(l) => l
    case None => if verb == "get" then LocationQuery else LocationForm
  }

  /** `strtolower($param->getDataType())`, where `getDataType()` upper-cases the first letter. */
  function TypeOf(p: ParamRecord): string {
    Lower(Ucfirst(p.dataType))
  }

  /** The written type is the stored type lower-cased: the first-letter upper-casing is undone. */
  lemma TypeOfLower(p: ParamRecord)
    ensures TypeOf(p) == Lower(p.dataType)
  {
    var s := p.dataType;
    if s != [] {
      assert LowerChar(UpperChar(s[0])) == LowerChar(s[0]);
      assert forall i :: 1 <= i < |s| ==> Ucfirst(s)[i] == s[i];
    }
  }

  /** `$dataType === 'Model' && $model = $param->getModel()` */
  predicate IsModelParam(p: ParamRecord) {
    Ucfirst(p.dataType) == "Model" && Truthy(p.model)
  }

  /** The Postman example: the variable, else the default value, else the example, whichever is first not empty. */
  function PostmanExample(p: ParamRecord): Json {
    Elvis(Str(p.variable.GetOr("")), Elvis(p.defaultValue, p.example))
  }

  /** The fields of a typed parameter before any example: an array parameter adds its format and items. */
  function ListedData(p: ParamRecord, name: string, location: string): Fields {
    var t := TypeOf(p);
    var base := TypedBase(p, name, location, t);
    if t == TypeArray then Put(Put(base, "collectionFormat", OptStr(p.collectionFormat)), "items", p.items) else base
  }

  /** In Postman mode a non-empty example is added: at the top level of a form field, else in a schema. */
  function WithExample(listed: Fields, t: string, location: string, example: Json, postman: bool): Fields {
    if postman && Truthy(example) then
      if location == LocationForm then Put(listed, "example", example)
      else Put2(Put2(listed, "schema", "type", Str(t)), "schema", "example", example)
    else listed
  }

  /** The fields of a typed parameter, built in the order the command assigns them. */
  function TypedData(p: ParamRecord, name: string, location: string, postman: bool): Fields {
    WithExample(ListedData(p, name, location), TypeOf(p), location, PostmanExample(p), postman)
  }

  /**
   * The body parameter of a model: a reference to the model's definition.
   * A null description is written as `null` here and in `TypedBase`.
   */
  function ModelData(p: ParamRecord, shortName: string): Json {
    Obj([("name", Str("body")), ("in", Str(LocationBody)), ("required", Bool(p.required)),
         ("description", OptStr(p.description)), ("schema", ModelDefinitions.Ref(shortName))])
  }

  /**
   * `$paramData` for one parameter, or the exception of an unknown model
   * class, or the `TypeError` of an array parameter without a collection
   * format: the getter is typed `string` and the property has no default,
   * so only the constructor's or `setDataType`'s exact `array` sets it.
   */
  function ParamData(p: ParamRecord, name: string, location: string, postman: bool, fw: Helpers): Result<Json, CommandError> {
    if IsModelParam(p) then
      match fw.shortClassName(Text(p.model))
      case None => Failure(UnknownClass(Text(p.model)))
      case Some(shortName) => Success(ModelData(p, shortName))
    else if TypeOf(p) == TypeArray && p.collectionFormat.None? then Failure(MissingCollectionFormat(p.name))
    else Success(Obj(TypedData(p, name, location, postman)))
  }

  /** What the command writes for one parameter. */
  function ParamEntry(p: ParamRecord, verb: string, postman: bool, fw: Helpers): Result<Json, CommandError> {
    ParamData(p, RewrittenName(p.name), LocationOf(p, verb), postman, fw)
  }

  /**
   * The five fields every typed parameter starts with. `getDescription()`
   * is typed `string`, so PHP would throw on a null description; through
   * `handle` such a parameter has already failed in `getApiDoc`.
   */
  function TypedBase(p: ParamRecord, name: string, location: string, t: string): Fields {
    [("name", Str(name)), ("in", Str(location)), ("required", Bool(p.required)),
     ("description", OptStr(p.description)), ("type", Str(t))]
  }

  lemma TypedBaseFields(p: ParamRecord, name: string, location: string, t: string)
    ensures var base := TypedBase(p, name, location, t);
      && Get(base, "name") == Some(Str(name))
      && Get(base, "in") == Some(Str(location))
      && Get(base, "required") == Some(Bool(p.required))
      && Get(base, "type") == Some(Str(t))
      && Get(base, "collectionFormat") == None && Get(base, "items") == None
      && Get(base, "example") == None && Get(base, "schema") == None
  {
    var e0, e1, e2, e3, e4 := ("name", Str(name)), ("in", Str(location)), ("required", Bool(p.required)),
                              ("description", OptStr(p.description)), ("type", Str(t));
    Get5(e0, e1, e2, e3, e4, "name");
    Get5(e0, e1, e2, e3, e4, "in");
    Get5(e0, e1, e2, e3, e4, "required");
    Get5(e0, e1, e2, e3, e4, "type");
    Get5(e0, e1, e2, e3, e4, "collectionFormat");
    Get5(e0, e1, e2, e3, e4, "items");
    Get5(e0, e1, e2, e3, e4, "example");
    Get5(e0, e1, e2, e3, e4, "schema");
  }

  /** Adding the example touches only `example` and `schema`. */
  lemma WithExampleKeeps(listed: Fields, t: string, location: string, example: Json, postman: bool, k: string)
    requires k != "example" && k != "schema"
    ensures Get(WithExample(listed, t, location, example, postman), k) == Get(listed, k)
  {
  }

  /** The listed fields agree with the five base fields, except for the two an array adds. */
  lemma ListedKeeps(p: ParamRecord, name: string, location: string, k: string)
    requires k != "collectionFormat" && k != "items"
    ensures Get(ListedData(p, name, location), k) == Get(TypedBase(p, name, location, TypeOf(p)), k)
  {
  }

  /** A typed parameter carries its rewritten name, its location, its flag and its lower-cased type. */
  lemma TypedDataFields(p: ParamRecord, name: string, location: string, postman: bool)
    ensures var d := TypedData(p, name, location, postman);
      && Get(d, "name") == Some(Str(name))
      && Get(d, "in") == Some(Str(location))
      && Get(d, "required") == Some(Bool(p.required))
      && Get(d, "type") == Some(Str(Lower(p.dataType)))
  {
    var listed := ListedData(p, name, location);
    TypedBaseFields(p, name, location, TypeOf(p));
    TypeOfLower(p);
    ListedKeeps(p, name, location, "name");
    ListedKeeps(p, name, location, "in");
    ListedKeeps(p, name, location, "required");
    ListedKeeps(p, name, location, "type");
    WithExampleKeeps(listed, TypeOf(p), location, PostmanExample(p), postman, "name");
    WithExampleKeeps(listed, TypeOf(p), location, PostmanExample(p), postman, "in");
    WithExampleKeeps(listed, TypeOf(p), location, PostmanExample(p), postman, "required");
    WithExampleKeeps(listed, TypeOf(p), location, PostmanExample(p), postman, "type");
  }

  /**
   * `collectionFormat` and `items` are written exactly for array parameters,
   * with the parameter's values; a format that was never set does not reach
   * here (see `TypedParamData`).
   */
  lemma TypedDataArray(p: ParamRecord, name: string, location: string, postman: bool)
    ensures var d := TypedData(p, name, location, postman);
      && (Get(d, "collectionFormat").Some? <==> Lower(p.dataType) == TypeArray)
      && (Get(d, "items").Some? <==> Lower(p.dataType) == TypeArray)
      && (Lower(p.dataType) == TypeArray ==> Get(d, "items") == Some(p.items))
      && (Lower(p.dataType) == TypeArray && p.collectionFormat.Some? ==>
            Get(d, "collectionFormat") == Some(Str(p.collectionFormat.value)))
  {
    var listed := ListedData(p, name, location);
    TypedBaseFields(p, name, location, TypeOf(p));
    TypeOfLower(p);
    WithExampleKeeps(listed, TypeOf(p), location, PostmanExample(p), postman, "collectionFormat");
    WithExampleKeeps(listed, TypeOf(p), location, PostmanExample(p), postman, "items");
  }

  /** Outside Postman mode, or without an example value, no example is written. */
  lemma TypedDataNoExample(p: ParamRecord, name: string, location: string, postman: bool)
    requires !postman || !Truthy(PostmanExample(p))
    ensures var d := TypedData(p, name, location, postman);
      Get(d, "example") == None && Get(d, "schema") == None
  {
    ListedNoExample(p, name, location);
  }

  /** In Postman mode a form field carries the example at the top level. */
  lemma TypedDataFormExample(p: ParamRecord, name: string, postman: bool)
    requires postman && Truthy(PostmanExample(p))
    ensures var d := TypedData(p, name, LocationForm, postman);
      Get(d, "example") == Some(PostmanExample(p)) && Get(d, "schema") == None
  {
    ListedNoExample(p, name, LocationForm);
  }

  /** In Postman mode any other parameter carries the example in a schema with its type. */
  lemma TypedDataSchemaExample(p: ParamRecord, name: string, location: string, postman: bool)
    requires postman && Truthy(PostmanExample(p)) && location != LocationForm
    ensures var d := TypedData(p, name, location, postman);
      && Get(d, "example") == None
      && Get(d, "schema").Some? && Field(Get(d, "schema").value, "type") == Some(Str(Lower(p.dataType)))
      && Field(Get(d, "schema").value, "example") == Some(PostmanExample(p))
  {
    var listed := ListedData(p, name, location);
    var t := TypeOf(p);
    TypeOfLower(p);
    ListedNoExample(p, name, location);
    var once := Put2(listed, "schema", "type", Str(t));
    var inner := Put([], "type", Str(t));
    FirstSchemaEntry(listed, t);
    assert TypedData(p, name, location, postman) == Put2(once, "schema", "example", PostmanExample(p));
    SchemaExample(once, inner, t, PostmanExample(p));
  }

  lemma ListedNoExample(p: ParamRecord, name: string, location: string)
    ensures Get(ListedData(p, name, location), "example") == None
    ensures Get(ListedData(p, name, location), "schema") == None
  {
    TypedBaseFields(p, name, location, TypeOf(p));
    ListedKeeps(p, name, location, "example");
    ListedKeeps(p, name, location, "schema");
  }

  /** The first nested assignment creates the schema with its type. */
  lemma FirstSchemaEntry(listed: Fields, t: string)
    requires Get(listed, "schema") == None && Get(listed, "example") == None
    ensures Get(Put2(listed, "schema", "type", Str(t)), "schema") == Some(Obj(Put([], "type", Str(t))))
    ensures Get(Put2(listed, "schema", "type", Str(t)), "example") == None
  {
  }

  /** The second nested assignment keeps the type the first one wrote. */
  lemma SchemaExample(once: Fields, inner: Fields, t: string, example: Json)
    requires Get(once, "schema") == Some(Obj(inner)) && Get(inner, "type") == Some(Str(t))
    ensures var twice := Put2(once, "schema", "example", example);
      && Get(twice, "example") == Get(once, "example")
      && Get(twice, "schema").Some?
      && Field(Get(twice, "schema").value, "type") == Some(Str(t))
      && Field(Get(twice, "schema").value, "example") == Some(example)
  {
    assert Get(Put2(once, "schema", "example", example), "schema") == Some(Obj(Put(inner, "example", example)));
  }

  /** The example is the first of variable, default value and example that is not empty. */
  lemma PostmanExampleOrder(p: ParamRecord)
    ensures p.variable.Some? && !EmptyStr(p.variable.value) ==> PostmanExample(p) == Str(p.variable.value)
    ensures (p.variable.None? || EmptyStr(p.variable.value)) && Truthy(p.defaultValue) ==> PostmanExample(p) == p.defaultValue
    ensures (p.variable.None? || EmptyStr(p.variable.value)) && !Truthy(p.defaultValue) ==> PostmanExample(p) == p.example
  {
  }

  /**
   * A typed parameter fails exactly when it is an array without a
   * collection format, and is otherwise written as its typed fields.
   */
  lemma TypedParamData(p: ParamRecord, name: string, location: string, postman: bool, fw: Helpers)
    requires !IsModelParam(p)
    ensures var r := ParamData(p, name, location, postman, fw);
      && (r.Failure? <==> Lower(p.dataType) == TypeArray && p.collectionFormat.None?)
      && (r.Failure? ==> r.error == MissingCollectionFormat(p.name))
      && (r.Success? ==> r.value == Obj(TypedData(p, name, location, postman)))
  {
    TypeOfLower(p);
  }

  /** A model parameter becomes the request body referring to the model's definition, or fails on an unknown class. */
  lemma ModelParamData(p: ParamRecord, name: string, location: string, postman: bool, fw: Helpers)
    requires IsModelParam(p)
    ensures var r := ParamData(p, name, location, postman, fw);
      && (r.Failure? <==> fw.shortClassName(Text(p.model)).None?)
      && (r.Success? ==>
            Field(r.value, "name") == Some(Str("body")) && Field(r.value, "in") == Some(Str(LocationBody))
            && Field(r.value, "schema") == Some(ModelDefinitions.Ref(fw.shortClassName(Text(p.model)).value)))
  {
    if fw.shortClassName(Text(p.model)).Some? {
      var fs := ModelData(p, fw.shortClassName(Text(p.model)).value).fields;
      GetAt(fs, 1);
      GetAt(fs, 4);
    }
  }

  // ---------------------------------------------------------------- the response definition

  /** `str_replace(['/', ' '], '', ucwords($group) . ucwords($name)) . 'Response'` */
  function ResponseName(group: string, name: string): string {
    ReplaceAll(ReplaceAll(Ucwords(group) + Ucwords(name), "/", ""), " ", "") + "Response"
  }

  /** The name is the upper-cased words of group and name with every slash and space removed. */
  lemma ResponseNameSpec(group: string, name: string)
    ensures ResponseName(group, name) == Without(Without(Ucwords(group) + Ucwords(name), '/'), ' ') + "Response"
    ensures '/' !in ResponseName(group, name) && ' ' !in ResponseName(group, name)
  {
    var words := Ucwords(group) + Ucwords(name);
    ReplaceCharByEmpty(words, '/');
    ReplaceCharByEmpty(Without(words, '/'), ' ');
    WithoutKeepsOut(Without(words, '/'), '/', ' ');
  }

  /** The definition an operation refers to when it declares no success object. */
  const GenericResponse := "SuccessResponse"

  /**
   * The response name of one call and the definitions after it: the plain
   * definition is built first, the paginated one replaces it, and a name
   * already defined is an error.
   */
  function ResponseDefinition(item: CallRecord, definitions: Fields, fw: Helpers): (r: Result<(string, Fields), CommandError>)
    ensures r.Failure? ==> r.error.UnknownClass? || r.error.DefinitionExists?
  {
    var plain := !EmptyStr(item.successObject);
    var paged := !EmptyStr(item.successPaginatedObject);
    if !plain && !paged then Success((GenericResponse, definitions))
    else
      var name := ResponseName(item.group, item.name);
      var first := if plain then ModelDefinitions.SuccessDefinition(name, item.successObject, fw) else Success([]);
      if first.Failure? then Failure(UnknownClass(item.successObject))
      else
        var chosen := if paged then ModelDefinitions.PaginatedDefinition(name, item.successPaginatedObject, fw) else first;
        if chosen.Failure? then Failure(UnknownClass(item.successPaginatedObject))
        else if IsSet(Obj(definitions), name) then Failure(DefinitionExists(name))
        else Success((name, PutAll(definitions, chosen.value)))
  }

  /** Without a success object the operation refers to `SuccessResponse` and nothing is defined. */
  lemma ResponseGeneric(item: CallRecord, definitions: Fields, fw: Helpers)
    requires EmptyStr(item.successObject) && EmptyStr(item.successPaginatedObject)
    ensures ResponseDefinition(item, definitions, fw) == Success((GenericResponse, definitions))
  {
  }

  /** When both objects are set, the paginated definition is the one stored. */
  lemma ResponsePaginatedWins(item: CallRecord, definitions: Fields, fw: Helpers)
    requires !EmptyStr(item.successObject) && !EmptyStr(item.successPaginatedObject)
    requires fw.shortClassName(item.successObject).Some? && fw.shortClassName(item.successPaginatedObject).Some?
    requires !IsSet(Obj(definitions), ResponseName(item.group, item.name))
    ensures var r := ResponseDefinition(item, definitions, fw);
      var paged := ModelDefinitions.PaginatedDefinition(ResponseName(item.group, item.name), item.successPaginatedObject, fw).value;
      && r.Success? && r.value.0 == ResponseName(item.group, item.name)
      && Get(r.value.1, r.value.0) == Some(paged[0].1)
  {
    var name := ResponseName(item.group, item.name);
    var paged := ModelDefinitions.PaginatedDefinition(name, item.successPaginatedObject, fw).value;
    assert Keys(paged) == [name];
    assert paged == [(name, paged[0].1)];
  }

  /** A response name that is already defined is rejected. */
  lemma ResponseDuplicate(item: CallRecord, definitions: Fields, fw: Helpers)
    requires !EmptyStr(item.successObject) || !EmptyStr(item.successPaginatedObject)
    requires !EmptyStr(item.successObject) ==> fw.shortClassName(item.successObject).Some?
    requires !EmptyStr(item.successPaginatedObject) ==> fw.shortClassName(item.successPaginatedObject).Some?
    requires IsSet(Obj(definitions), ResponseName(item.group, item.name))
    ensures ResponseDefinition(item, definitions, fw) == Failure(DefinitionExists(ResponseName(item.group, item.name)))
  {
  }

  /** A stored response is one assignment of the response name, which was not set before. */
  lemma ResponseStored(item: CallRecord, definitions: Fields, fw: Helpers)
    requires ResponseDefinition(item, definitions, fw).Success?
    ensures var r := ResponseDefinition(item, definitions, fw).value;
      r.1 == definitions || (!IsSet(Obj(definitions), r.0) && exists v :: r.1 == Put(definitions, r.0, v))
  {
    if !EmptyStr(item.successObject) || !EmptyStr(item.successPaginatedObject) {
      var name := ResponseName(item.group, item.name);
      var plain := !EmptyStr(item.successObject);
      var paged := !EmptyStr(item.successPaginatedObject);
      var first := if plain then ModelDefinitions.SuccessDefinition(name, item.successObject, fw) else Success([]);
      var chosen := if paged then ModelDefinitions.PaginatedDefinition(name, item.successPaginatedObject, fw) else first;
      assert chosen.Success? && !IsSet(Obj(definitions), name);
      assert ResponseDefinition(item, definitions, fw).value == (name, PutAll(definitions, chosen.value));
      assert Keys(chosen.value) == [name];
      PutAllOne(definitions, chosen.value);
      assert PutAll(definitions, chosen.value) == Put(definitions, name, chosen.value[0].1);
    }
  }

  /** A stored response adds its one name and changes no definition that was already set. */
  lemma ResponseAdds(item: CallRecord, definitions: Fields, fw: Helpers)
    requires ResponseDefinition(item, definitions, fw).Success?
    ensures var r := ResponseDefinition(item, definitions, fw).value;
      && (forall k :: k != r.0 ==> Get(r.1, k) == Get(definitions, k))
      && (forall k :: IsSet(Obj(definitions), k) ==> Get(r.1, k) == Get(definitions, k))
      && (UniqueKeys(definitions) ==> UniqueKeys(r.1))
  {
    var r := ResponseDefinition(item, definitions, fw).value;
    ResponseStored(item, definitions, fw);
    if r.1 != definitions {
      var v :| r.1 == Put(definitions, r.0, v);
      if UniqueKeys(definitions) {
        PutUnique(definitions, r.0, v);
      }
    }
  }

  // ---------------------------------------------------------------- the operation

  /** `ltrim($basePath, '/')` */
  const BasePath := "/api/v1"
  const VersionPrefix := "api/v1"

  /** `$pathSuffix`: the route with every `api/v1` removed. */
  function PathSuffix(route: string): string {
    ReplaceAll(route, VersionPrefix, "")
  }

  /** A route under `api/v1` is stored under the rest of its path. */
  lemma PathSuffixOfVersioned(rest: string)
    requires !Contains(rest, VersionPrefix)
    ensures PathSuffix(VersionPrefix + rest) == rest
  {
    var route := VersionPrefix + rest;
    assert route[..|VersionPrefix|] == VersionPrefix;
    ReplaceAllHit(route, VersionPrefix, "");
    assert route[|VersionPrefix|..] == rest;
    ReplaceAllAbsent(rest, VersionPrefix, "");
  }

  /** An empty `consumes` becomes JSON and URL-encoded forms. */
  function ConsumesOf(cs: seq<string>): seq<string> {
    if cs == [] then [ConsumeJson, ConsumeFormUrlencoded] else cs
  }

  function StrList(ss: seq<string>): (r: seq<Json>)
    ensures |r| == |ss| && forall i :: 0 <= i < |ss| ==> r[i] == Str(ss[i])
  {
    seq(|ss|, i requires 0 <= i < |ss| => Str(ss[i]))
  }

  lemma StrListTwo(a: string, b: string)
    ensures StrList([a, b]) == [Str(a), Str(b)]
  {
    var l := StrList([a, b]);
    assert l[0] == Str(a) && l[1] == Str(b);
  }

  /** One entry of `responses`: a reference to a definition and a description. */
  function ResponseEntry(definition: string, description: string): Json {
    Obj([("schema", ModelDefinitions.Ref(definition)), ("description", Str(description))])
  }

  const UnauthorizedDescription := "Authentication failed"
  const AccessDeniedDescription := "Access denied"
  const GenericErrorDescription := "Generic API error. Check `message` for more information."

  /** The four responses of every operation: the success definition and the three error definitions. */
  function Responses(responseName: string): Json {
    Obj([("200", ResponseEntry(responseName, responseName)),
         ("401", ResponseEntry("ApiErrorUnauthorized", UnauthorizedDescription)),
         ("403", ResponseEntry("ApiErrorAccessDenied", AccessDeniedDescription)),
         ("422", ResponseEntry("ApiError", GenericErrorDescription))])
  }

  /**
   * The success response refers to the definition of the response name, and
   * the three error responses to the three error definitions every document
   * carries.
   */
  lemma ResponsesRefer(responseName: string)
    ensures Field(Responses(responseName), "200") == Some(ResponseEntry(responseName, responseName))
    ensures Field(Responses(responseName), "401") == Some(ResponseEntry(ModelDefinitions.ErrorNames[0], UnauthorizedDescription))
    ensures Field(Responses(responseName), "403") == Some(ResponseEntry(ModelDefinitions.ErrorNames[1], AccessDeniedDescription))
    ensures Field(Responses(responseName), "422") == Some(ResponseEntry(ModelDefinitions.ErrorNames[2], GenericErrorDescription))
  {
    var rs := Responses(responseName).fields;
    Get4(rs[0], rs[1], rs[2], rs[3], "200");
    Get4(rs[0], rs[1], rs[2], rs[3], "401");
    Get4(rs[0], rs[1], rs[2], rs[3], "403");
    Get4(rs[0], rs[1], rs[2], rs[3], "422");
  }

  /** `$pathData` */
  function OperationData(item: CallRecord, operationId: string, parameters: seq<Json>, security: seq<Json>, responseName: string): Json {
    Obj([("tags", Arr([Str(item.group)])),
         ("summary", Str(item.name)),
         ("consumes", Arr(StrList(ConsumesOf(item.consumes)))),
         ("produces", Arr([Str(ConsumeJson)])),
         ("operationId", Str(operationId)),
         ("description", Str(item.description)),
         ("parameters", Arr(parameters)),
         ("security", Arr(security)),
         ("responses", Responses(responseName))])
  }

  /** The operation lists the parameters and the security requirements it was given. */
  lemma OperationDataLists(item: CallRecord, operationId: string, parameters: seq<Json>, security: seq<Json>, responseName: string)
    ensures var d := OperationData(item, operationId, parameters, security, responseName);
      && Field(d, "parameters") == Some(Arr(parameters))
      && Field(d, "security") == Some(Arr(security))
  {
    var fs := OperationData(item, operationId, parameters, security, responseName).fields;
    var e0, e1, e2, e3, e4 := fs[0], fs[1], fs[2], fs[3], fs[4];
    var e5, e6, e7, e8 := fs[5], fs[6], fs[7], fs[8];
    assert fs == [e0, e1, e2, e3, e4, e5, e6, e7, e8];
    Get9(e0, e1, e2, e3, e4, e5, e6, e7, e8, "parameters");
    Get5(e0, e1, e2, e3, e4, "parameters");
    Get4(e5, e6, e7, e8, "parameters");
    Get9(e0, e1, e2, e3, e4, e5, e6, e7, e8, "security");
    Get5(e0, e1, e2, e3, e4, "security");
    Get4(e5, e6, e7, e8, "security");
  }

  /** The operation carries its responses, and an empty `consumes` gets the two defaults. */
  lemma OperationDataResponses(item: CallRecord, operationId: string, parameters: seq<Json>, security: seq<Json>, responseName: string)
    ensures var d := OperationData(item, operationId, parameters, security, responseName);
      && Field(d, "responses") == Some(Responses(responseName))
      && (item.consumes == [] ==> Field(d, "consumes") == Some(Arr([Str(ConsumeJson), Str(ConsumeFormUrlencoded)])))
      && (item.consumes != [] ==> Field(d, "consumes") == Some(Arr(StrList(item.consumes))))
  {
    var fs := OperationData(item, operationId, parameters, security, responseName).fields;
    var e0, e1, e2, e3, e4 := fs[0], fs[1], fs[2], fs[3], fs[4];
    var e5, e6, e7, e8 := fs[5], fs[6], fs[7], fs[8];
    assert fs == [e0, e1, e2, e3, e4, e5, e6, e7, e8];
    Get9(e0, e1, e2, e3, e4, e5, e6, e7, e8, "responses");
    Get5(e0, e1, e2, e3, e4, "responses");
    Get4(e5, e6, e7, e8, "responses");
    Get9(e0, e1, e2, e3, e4, e5, e6, e7, e8, "consumes");
    Get5(e0, e1, e2, e3, e4, "consumes");
    StrListTwo(ConsumeJson, ConsumeFormUrlencoded);
  }

  // ---------------------------------------------------------------- createSwaggerJson

  /** What the command has built so far: the Swagger schema, the environment's variables and the definitions. */
  datatype Build = Build(schema: Fields, variables: seq<PostmanEnvironments.Variable>, definitions: Fields)

  /** Every written parameter, in order, or the first exception. */
  function ParamEntries(ps: seq<ParamRecord>, verb: string, postman: bool, fw: Helpers): (r: Result<seq<Json>, CommandError>)
    ensures r.Success? ==> |r.value| == |ps|
    ensures r.Failure? ==> r.error.UnknownClass? || r.error.MissingCollectionFormat?
  {
    if ps == [] then Success([])
    else
      var front := ParamEntries(ps[..|ps| - 1], verb, postman, fw);
      if front.Failure? then front
      else
        var e := ParamEntry(ps[|ps| - 1], verb, postman, fw);
        if e.Failure? then Failure(e.error) else Success(front.value + [e.value])
  }

  /** The environment after one `addVariable(name, default)` per written parameter. */
  function EnvAfter(vs: seq<PostmanEnvironments.Variable>, ps: seq<ParamRecord>): seq<PostmanEnvironments.Variable> {
    if ps == [] then vs
    else
      var last := ps[|ps| - 1];
      PostmanEnvironments.Upserted(EnvAfter(vs, ps[..|ps| - 1]), RewrittenName(last.name), last.defaultValue)
  }

  /** One more parameter: its entry is appended and its variable upserted. */
  lemma ParamEntriesNext(vs: seq<PostmanEnvironments.Variable>, ps: seq<ParamRecord>, i: nat, verb: string, postman: bool, fw: Helpers)
    requires i < |ps|
    ensures var front := ParamEntries(ps[..i], verb, postman, fw);
      var e := ParamEntry(ps[i], verb, postman, fw);
      front.Success? ==> ParamEntries(ps[..i + 1], verb, postman, fw) == if e.Success? then Success(front.value + [e.value]) else Failure(e.error)
    ensures EnvAfter(vs, ps[..i + 1]) == PostmanEnvironments.Upserted(EnvAfter(vs, ps[..i]), RewrittenName(ps[i].name), ps[i].defaultValue)
  {
    assert ps[..i + 1][..i] == ps[..i];
  }

  /** The environment keeps one variable per key. */
  lemma {:induction false} EnvAfterUnique(vs: seq<PostmanEnvironments.Variable>, ps: seq<ParamRecord>)
    requires PostmanEnvironments.UniqueVariables(vs)
    ensures PostmanEnvironments.UniqueVariables(EnvAfter(vs, ps))
  {
    if ps != [] {
      var last := ps[|ps| - 1];
      EnvAfterUnique(vs, ps[..|ps| - 1]);
      PostmanEnvironments.UpsertedUnique(EnvAfter(vs, ps[..|ps| - 1]), RewrittenName(last.name), last.defaultValue);
    }
  }

  /** Every written parameter has a variable named after it in the environment. */
  lemma {:induction false} EnvAfterHasNames(vs: seq<PostmanEnvironments.Variable>, ps: seq<ParamRecord>, i: nat)
    requires i < |ps|
    ensures PostmanEnvironments.HasKey(EnvAfter(vs, ps), RewrittenName(ps[i].name))
  {
    var init := ps[..|ps| - 1];
    var last := ps[|ps| - 1];
    var before := EnvAfter(vs, init);
    var key := RewrittenName(ps[i].name);
    if i < |ps| - 1 {
      EnvAfterHasNames(vs, init, i);
      var j :| 0 <= j < |before| && before[j].key == key;
      assert EnvAfter(vs, ps)[j].key == key;
    } else if PostmanEnvironments.HasKey(before, key) {
      var j :| 0 <= j < |before| && before[j].key == key;
      assert EnvAfter(vs, ps)[j].key == key;
    } else {
      assert EnvAfter(vs, ps)[|before|].key == key;
    }
  }

  /** A failure among the first parameters is the result for the whole list. */
  lemma {:induction false} ParamEntriesFailure(ps: seq<ParamRecord>, k: nat, verb: string, postman: bool, fw: Helpers)
    requires k <= |ps| && ParamEntries(ps[..k], verb, postman, fw).Failure?
    ensures ParamEntries(ps, verb, postman, fw) == ParamEntries(ps[..k], verb, postman, fw)
  {
    if k < |ps| {
      var init := ps[..|ps| - 1];
      assert init[..k] == ps[..k];
      ParamEntriesFailure(init, k, verb, postman, fw);
    } else {
      assert ps[..k] == ps;
    }
  }

  /** `createSwaggerJson`'s work for one call. */
  function ItemStep(b: Build, calls: seq<CallRecord>, item: CallRecord, postman: bool, fw: Helpers, token: string): Result<Build, CommandError> {
    if EmptyStr(item.route) then Success(b)
    else
      var verb := Lower(item.httpMethod);
      var merged := MergedParams(calls, item);
      var filtered := Filtered(merged);
      var parameters := ParamEntries(filtered, verb, postman, fw);
      if parameters.Failure? then Failure(parameters.error)
      else
        var response := ResponseDefinition(item, b.definitions, fw);
        if response.Failure? then Failure(response.error)
        else
          var data := OperationData(item, OperationIdOf(item, fw, token), parameters.value, SecurityOf(merged), response.value.0);
          Success(Build(SwaggerDocs.WithPathData(b.schema, PathSuffix(item.route), verb, data),
                        EnvAfter(b.variables, filtered), response.value.1))
  }

  /** The work for the first `n` calls, in order; `tokens(i)` is the random fallback of the `i`-th call's operation id. */
  function Steps(start: Build, calls: seq<CallRecord>, n: nat, postman: bool, fw: Helpers, tokens: nat -> string): Result<Build, CommandError>
    requires n <= |calls|
  {
    if n == 0 then Success(start)
    else
      match Steps(start, calls, n - 1, postman, fw, tokens)
      case Failure(e) => Failure(e)
      case Success(b) => ItemStep(b, calls, calls[n - 1], postman, fw, tokens(n - 1))
  }

  /** The schema before the first call: default, with the base path and the server URL set. */
  function StartSchema(appName: string, dateStamp: string, appUrl: string, fw: Helpers): Fields {
    SwaggerDocs.WithServerUrl(Put(SwaggerDocs.DefaultSchema(appName, dateStamp), "basePath", Str(BasePath)), appUrl, fw)
  }

  /** What the command holds before the first call: the start schema, no variables, and the model and error definitions. */
  function StartBuild(modelDefinitions: Fields, appName: string, dateStamp: string, appUrl: string, fw: Helpers): Build {
    Build(StartSchema(appName, dateStamp, appUrl, fw), [], ModelDefinitions.AllDefinitions(modelDefinitions))
  }

  /** After the last call the definitions are written into the schema. */
  function Finished(built: Result<Build, CommandError>): Result<Build, CommandError> {
    match built
    case Failure(e) => Failure(e)
    case Success(b) => Success(Build(Put(b.schema, "definitions", Obj(b.definitions)), b.variables, b.definitions))
  }

  /** `createSwaggerJson($type)`: the schema with its definitions, and the environment's variables. */
  function SwaggerJson(calls: seq<CallRecord>, docType: string, modelDefinitions: Fields, appName: string,
                       dateStamp: string, appUrl: string, fw: Helpers, tokens: nat -> string): Result<Build, CommandError> {
    if docType != "api" && docType != "postman" then Failure(InvalidType(docType))
    else Finished(Steps(StartBuild(modelDefinitions, appName, dateStamp, appUrl, fw), calls, |calls|, docType == "postman", fw, tokens))
  }

  /** A failure among the first calls is the result for all of them. */
  lemma {:induction false} StepsFailure(start: Build, calls: seq<CallRecord>, k: nat, n: nat, postman: bool, fw: Helpers, tokens: nat -> string)
    requires k <= n <= |calls| && Steps(start, calls, k, postman, fw, tokens).Failure?
    ensures Steps(start, calls, n, postman, fw, tokens) == Steps(start, calls, k, postman, fw, tokens)
  {
    if k < n {
      StepsFailure(start, calls, k, n - 1, postman, fw, tokens);
    }
  }

  /** The parameter list succeeds exactly when every parameter does. */
  lemma {:induction false} ParamEntriesSucceed(ps: seq<ParamRecord>, verb: string, postman: bool, fw: Helpers)
    ensures ParamEntries(ps, verb, postman, fw).Success? <==>
      forall i :: 0 <= i < |ps| ==> ParamEntry(ps[i], verb, postman, fw).Success?
  {
    if ps != [] {
      var init := ps[..|ps| - 1];
      ParamEntriesSucceed(init, verb, postman, fw);
      assert forall i :: 0 <= i < |init| ==> init[i] == ps[i];
      if ParamEntries(init, verb, postman, fw).Failure? {
        assert exists i :: 0 <= i < |init| && !ParamEntry(init[i], verb, postman, fw).Success?;
      }
    }
  }

  /** A written parameter list holds each parameter's entry, in order. */
  lemma {:induction false} ParamEntriesValues(ps: seq<ParamRecord>, verb: string, postman: bool, fw: Helpers)
    requires ParamEntries(ps, verb, postman, fw).Success?
    ensures forall i :: 0 <= i < |ps| ==>
      ParamEntry(ps[i], verb, postman, fw).Success? &&
      ParamEntries(ps, verb, postman, fw).value[i] == ParamEntry(ps[i], verb, postman, fw).value
  {
    if ps != [] {
      var init := ps[..|ps| - 1];
      var front := ParamEntries(init, verb, postman, fw);
      var e := ParamEntry(ps[|ps| - 1], verb, postman, fw);
      ParamEntriesValues(init, verb, postman, fw);
      assert front.Success? && e.Success?;
      var all := ParamEntries(ps, verb, postman, fw).value;
      assert all == front.value + [e.value];
      forall i | 0 <= i < |ps|
        ensures ParamEntry(ps[i], verb, postman, fw).Success? && all[i] == ParamEntry(ps[i], verb, postman, fw).value
      {
        if i < |init| {
          assert init[i] == ps[i];
          var pe := ParamEntry(init[i], verb, postman, fw);
          assert pe.Success? && front.value[i] == pe.value;
          assert all[i] == front.value[i];
        } else {
          assert ps[i] == ps[|ps| - 1];
        }
      }
    }
  }

  /** The failures of one call: an unknown model class, an array parameter without a format or a response name defined twice. */
  lemma ItemStepErrors(b: Build, calls: seq<CallRecord>, item: CallRecord, postman: bool, fw: Helpers, token: string)
    requires ItemStep(b, calls, item, postman, fw, token).Failure?
    ensures ItemStep(b, calls, item, postman, fw, token).error.UnknownClass? ||
            ItemStep(b, calls, item, postman, fw, token).error.MissingCollectionFormat? ||
            ItemStep(b, calls, item, postman, fw, token).error.DefinitionExists?
  {
    var parameters := ParamEntries(Filtered(MergedParams(calls, item)), Lower(item.httpMethod), postman, fw);
    if parameters.Failure? {
      assert ItemStep(b, calls, item, postman, fw, token) == Failure(parameters.error);
    } else {
      var response := ResponseDefinition(item, b.definitions, fw);
      assert ItemStep(b, calls, item, postman, fw, token) == Failure(response.error);
    }
  }

  /**
   * A stored call's operation sits under the route's path suffix and the
   * lower-cased method; it lists the written parameters, without the
   * security headers, and one security requirement per security header.
   */
  lemma ItemStepStores(b: Build, calls: seq<CallRecord>, item: CallRecord, postman: bool, fw: Helpers, token: string)
    requires !EmptyStr(item.route) && ItemStep(b, calls, item, postman, fw, token).Success?
    ensures var merged := MergedParams(calls, item);
      var parameters := ParamEntries(Filtered(merged), Lower(item.httpMethod), postman, fw);
      var op := SwaggerDocs.Operation(ItemStep(b, calls, item, postman, fw, token).value.schema, PathSuffix(item.route), Lower(item.httpMethod));
      && parameters.Success? && op.Some?
      && Field(op.value, "parameters") == Some(Arr(parameters.value))
      && Field(op.value, "security") == Some(Arr(SecurityOf(merged)))
  {
    var verb := Lower(item.httpMethod);
    var merged := MergedParams(calls, item);
    var parameters := ParamEntries(Filtered(merged), verb, postman, fw);
    var response := ResponseDefinition(item, b.definitions, fw);
    var data := OperationData(item, OperationIdOf(item, fw, token), parameters.value, SecurityOf(merged), response.value.0);
    assert ItemStep(b, calls, item, postman, fw, token).value.schema == SwaggerDocs.WithPathData(b.schema, PathSuffix(item.route), verb, data);
    SwaggerDocs.WithPathDataStores(b.schema, PathSuffix(item.route), verb, data);
    OperationDataLists(item, OperationIdOf(item, fw, token), parameters.value, SecurityOf(merged), response.value.0);
  }

  /**
   * One call changes only its own operation: every other operation and every
   * other key of the schema stay, every definition already set keeps its
   * value, and keys and variables stay unique.
   */
  lemma ItemStepKeeps(b: Build, calls: seq<CallRecord>, item: CallRecord, postman: bool, fw: Helpers, token: string)
    requires ItemStep(b, calls, item, postman, fw, token).Success?
    ensures var next := ItemStep(b, calls, item, postman, fw, token).value;
      && (forall k :: k != "paths" ==> Get(next.schema, k) == Get(b.schema, k))
      && (forall k :: IsSet(Obj(b.definitions), k) ==> Get(next.definitions, k) == Get(b.definitions, k))
      && (UniqueKeys(b.definitions) ==> UniqueKeys(next.definitions))
      && (PostmanEnvironments.UniqueVariables(b.variables) ==> PostmanEnvironments.UniqueVariables(next.variables))
  {
    if !EmptyStr(item.route) {
      var verb := Lower(item.httpMethod);
      var merged := MergedParams(calls, item);
      var filtered := Filtered(merged);
      var parameters := ParamEntries(filtered, verb, postman, fw);
      var response := ResponseDefinition(item, b.definitions, fw);
      var data := OperationData(item, OperationIdOf(item, fw, token), parameters.value, SecurityOf(merged), response.value.0);
      assert ItemStep(b, calls, item, postman, fw, token).value ==
        Build(SwaggerDocs.WithPathData(b.schema, PathSuffix(item.route), verb, data), EnvAfter(b.variables, filtered), response.value.1);
      SwaggerDocs.WithPathDataFrame(b.schema, PathSuffix(item.route), verb, data);
      ResponseAdds(item, b.definitions, fw);
      if PostmanEnvironments.UniqueVariables(b.variables) {
        EnvAfterUnique(b.variables, filtered);
      }
    }
  }

  /** What one call keeps, the first `n` calls keep. */
  lemma {:induction false} StepsKeep(start: Build, calls: seq<CallRecord>, n: nat, postman: bool, fw: Helpers, tokens: nat -> string)
    requires n <= |calls| && Steps(start, calls, n, postman, fw, tokens).Success?
    ensures var b := Steps(start, calls, n, postman, fw, tokens).value;
      && (forall k :: k != "paths" ==> Get(b.schema, k) == Get(start.schema, k))
      && (forall k :: IsSet(Obj(start.definitions), k) ==> Get(b.definitions, k) == Get(start.definitions, k))
      && (UniqueKeys(start.definitions) ==> UniqueKeys(b.definitions))
      && (PostmanEnvironments.UniqueVariables(start.variables) ==> PostmanEnvironments.UniqueVariables(b.variables))
  {
    if n > 0 {
      StepsKeep(start, calls, n - 1, postman, fw, tokens);
      var prev := Steps(start, calls, n - 1, postman, fw, tokens).value;
      ItemStepKeeps(prev, calls, calls[n - 1], postman, fw, tokens(n - 1));
      forall k | IsSet(Obj(start.definitions), k)
        ensures Get(Steps(start, calls, n, postman, fw, tokens).value.definitions, k) == Get(start.definitions, k)
      {
        assert IsSet(Obj(prev.definitions), k);
      }
    }
  }

  /** The environment keeps one variable per key through the first `n` calls. */
  lemma StepsUniqueVariables(start: Build, calls: seq<CallRecord>, n: nat, postman: bool, fw: Helpers, tokens: nat -> string)
    requires n <= |calls| && Steps(start, calls, n, postman, fw, tokens).Success?
    requires PostmanEnvironments.UniqueVariables(start.variables)
    ensures PostmanEnvironments.UniqueVariables(Steps(start, calls, n, postman, fw, tokens).value.variables)
  {
    StepsKeep(start, calls, n, postman, fw, tokens);
  }

  /** The first `n` calls fail only on an unknown model class, an array parameter without a format or a response name defined twice. */
  lemma {:induction false} StepsErrors(start: Build, calls: seq<CallRecord>, n: nat, postman: bool, fw: Helpers, tokens: nat -> string)
    requires n <= |calls| && Steps(start, calls, n, postman, fw, tokens).Failure?
    ensures Steps(start, calls, n, postman, fw, tokens).error.UnknownClass? ||
            Steps(start, calls, n, postman, fw, tokens).error.MissingCollectionFormat? ||
            Steps(start, calls, n, postman, fw, tokens).error.DefinitionExists?
  {
    if Steps(start, calls, n - 1, postman, fw, tokens).Failure? {
      StepsErrors(start, calls, n - 1, postman, fw, tokens);
    } else {
      var prev := Steps(start, calls, n - 1, postman, fw, tokens).value;
      ItemStepErrors(prev, calls, calls[n - 1], postman, fw, tokens(n - 1));
    }
  }

  /** Only `api` and `postman` are accepted, and an invalid type is the only cause of `InvalidType`. */
  lemma SwaggerJsonType(calls: seq<CallRecord>, docType: string, modelDefinitions: Fields, appName: string,
                        dateStamp: string, appUrl: string, fw: Helpers, tokens: nat -> string)
    ensures SwaggerJson(calls, docType, modelDefinitions, appName, dateStamp, appUrl, fw, tokens).Failure? &&
            SwaggerJson(calls, docType, modelDefinitions, appName, dateStamp, appUrl, fw, tokens).error.InvalidType?
      <==> docType != "api" && docType != "postman"
  {
    if docType == "api" || docType == "postman" {
      var start := StartBuild(modelDefinitions, appName, dateStamp, appUrl, fw);
      var built := Steps(start, calls, |calls|, docType == "postman", fw, tokens);
      assert SwaggerJson(calls, docType, modelDefinitions, appName, dateStamp, appUrl, fw, tokens) == Finished(built);
      if built.Failure? {
        StepsErrors(start, calls, |calls|, docType == "postman", fw, tokens);
        assert Finished(built) == Failure(built.error);
      }
    }
  }

  /** The start schema carries the base path `/api/v1`. */
  lemma StartSchemaBasePath(appName: string, dateStamp: string, appUrl: string, fw: Helpers)
    ensures Get(StartSchema(appName, dateStamp, appUrl, fw), "basePath") == Some(Str(BasePath))
  {
  }

  /**
   * A generated document has the base path `/api/v1` and all definitions
   * under `definitions`; the three error definitions are the built-in ones
   * whatever the models define; keys and environment variables are unique.
   */
  lemma SwaggerJsonDocument(calls: seq<CallRecord>, docType: string, modelDefinitions: Fields, appName: string,
                            dateStamp: string, appUrl: string, fw: Helpers, tokens: nat -> string)
    requires SwaggerJson(calls, docType, modelDefinitions, appName, dateStamp, appUrl, fw, tokens).Success?
    ensures var b := SwaggerJson(calls, docType, modelDefinitions, appName, dateStamp, appUrl, fw, tokens).value;
      && Get(b.schema, "basePath") == Some(Str(BasePath))
      && Get(b.schema, "definitions") == Some(Obj(b.definitions))
      && (forall k :: k in ModelDefinitions.ErrorNames ==> Get(b.definitions, k) == Get(ModelDefinitions.ErrorDefinitions, k))
      && (UniqueKeys(modelDefinitions) ==> UniqueKeys(b.definitions))
      && PostmanEnvironments.UniqueVariables(b.variables)
  {
    var start := StartBuild(modelDefinitions, appName, dateStamp, appUrl, fw);
    var postman := docType == "postman";
    var steps := Steps(start, calls, |calls|, postman, fw, tokens);
    assert SwaggerJson(calls, docType, modelDefinitions, appName, dateStamp, appUrl, fw, tokens) == Finished(steps);
    var built := steps.value;
    StepsKeep(start, calls, |calls|, postman, fw, tokens);
    assert Get(built.schema, "basePath") == Some(Str(BasePath)) by {
      StartSchemaBasePath(appName, dateStamp, appUrl, fw);
    }
    assert forall k :: k in ModelDefinitions.ErrorNames ==> Get(built.definitions, k) == Get(ModelDefinitions.ErrorDefinitions, k) by {
      ModelDefinitions.AllDefinitionsErrorsWin(modelDefinitions);
      ModelDefinitions.ErrorDefinitionsShape();
      forall k | k in ModelDefinitions.ErrorNames
        ensures Get(built.definitions, k) == Get(ModelDefinitions.ErrorDefinitions, k)
      {
        assert IsSet(Obj(start.definitions), k);
      }
    }
    assert UniqueKeys(modelDefinitions) ==> UniqueKeys(start.definitions) by {
      ModelDefinitions.AllDefinitionsErrorsWin(modelDefinitions);
    }
  }

  // ---------------------------------------------------------------- the command's loops

  /** One parameter of the loop: its entry, and its variable in the environment once the entry is written. */
  method AddParameter(env: PostmanEnvironments.PostmanEnvironment, p: ParamRecord, verb: string, postman: bool, fw: Helpers)
    returns (data: Result<Json, CommandError>)
    requires env.Valid()
    modifies env
    ensures env.Valid()
    ensures data == ParamEntry(p, verb, postman, fw)
    ensures env.variables == if data.Success? then PostmanEnvironments.Upserted(old(env.variables), RewrittenName(p.name), p.defaultValue)
      else old(env.variables)
  {
    var name := RewriteName(p.name);
    var location := LocationOf(p, verb);
    data := ParamData(p, name, location, postman, fw);
    if data.Success? {
      env.AddVariable(name, p.defaultValue);
    }
  }

  /** The loop over the kept parameters: each is written and added to the environment. */
  method AddParameters(env: PostmanEnvironments.PostmanEnvironment, ps: seq<ParamRecord>, verb: string, postman: bool, fw: Helpers)
    returns (r: Result<seq<Json>, CommandError>)
    requires env.Valid()
    modifies env
    ensures env.Valid()
    ensures r == ParamEntries(ps, verb, postman, fw)
    ensures r.Success? ==> env.variables == EnvAfter(old(env.variables), ps)
  {
    ghost var start := env.variables;
    var parameters: seq<Json> := [];
    var i := 0;
    while i < |ps|
      invariant 0 <= i <= |ps|
      invariant ParamEntries(ps[..i], verb, postman, fw) == Success(parameters)
      invariant env.variables == EnvAfter(start, ps[..i])
    {
      EnvAfterUnique(start, ps[..i]);
      var data := AddParameter(env, ps[i], verb, postman, fw);
      ParamEntriesNext(start, ps, i, verb, postman, fw);
      if data.Failure? {
        ParamEntriesFailure(ps, i + 1, verb, postman, fw);
        return Failure(data.error);
      }
      parameters := parameters + [data.value];
      i := i + 1;
    }
    assert ps[..i] == ps;
    EnvAfterUnique(start, ps);
    r := Success(parameters);
  }

  /** The body of the loop over the calls. */
  method AddOperation(swagger: SwaggerDocs.SwaggerV2, env: PostmanEnvironments.PostmanEnvironment, calls: seq<CallRecord>,
                      item: CallRecord, definitions: Fields, postman: bool, fw: Helpers, token: string)
    returns (r: Result<Fields, CommandError>)
    requires env.Valid()
    modifies swagger, env
    ensures env.Valid()
    ensures var step := ItemStep(Build(old(swagger.schema), old(env.variables), definitions), calls, item, postman, fw, token);
      && (r.Failure? <==> step.Failure?)
      && (r.Failure? ==> r.error == step.error)
      && (r.Success? ==> r.value == step.value.definitions && swagger.schema == step.value.schema && env.variables == step.value.variables)
  {
    if EmptyStr(item.route) {
      return Success(definitions);
    }
    var verb := Lower(item.httpMethod);
    var all := MergeParams(calls, item);
    var security, filtered := SplitSecurity(all);
    var parameters := AddParameters(env, filtered, verb, postman, fw);
    if parameters.Failure? {
      return Failure(parameters.error);
    }
    var pathSuffix := PathSuffix(item.route);
    var response := ResponseDefinition(item, definitions, fw);
    if response.Failure? {
      return Failure(response.error);
    }
    var data := OperationData(item, OperationIdOf(item, fw, token), parameters.value, security, response.value.0);
    swagger.AddPathData(pathSuffix, verb, data);
    r := Success(response.value.1);
  }

  /** The Swagger document before the first call: the base path and the server URL are set. */
  method NewSwagger(appName: string, dateStamp: string, appUrl: string, fw: Helpers) returns (swagger: SwaggerDocs.SwaggerV2)
    ensures fresh(swagger)
    ensures swagger.schema == StartSchema(appName, dateStamp, appUrl, fw)
  {
    swagger := new SwaggerDocs.SwaggerV2(appName, dateStamp);
    swagger.SetBasePath(Str(BasePath));
    swagger.SetServerUrl(appUrl, fw);
  }

  /** The loop over the calls: each adds its operation, its variables and its response definition. */
  method AddOperations(swagger: SwaggerDocs.SwaggerV2, env: PostmanEnvironments.PostmanEnvironment, calls: seq<CallRecord>,
                       start: Build, postman: bool, fw: Helpers, tokens: nat -> string)
    returns (r: Result<Build, CommandError>)
    requires env.Valid() && swagger.schema == start.schema && env.variables == start.variables
    modifies swagger, env
    ensures env.Valid()
    ensures r == Steps(start, calls, |calls|, postman, fw, tokens)
    ensures r.Success? ==> swagger.schema == r.value.schema && env.variables == r.value.variables
  {
    var current := start.definitions;
    var i := 0;
    while i < |calls|
      invariant 0 <= i <= |calls|
      invariant PostmanEnvironments.UniqueVariables(start.variables)
      invariant Steps(start, calls, i, postman, fw, tokens) == Success(Build(swagger.schema, env.variables, current))
    {
      StepsUniqueVariables(start, calls, i, postman, fw, tokens);
      var step := AddOperation(swagger, env, calls, calls[i], current, postman, fw, tokens(i));
      if step.Failure? {
        StepsFailure(start, calls, i + 1, |calls|, postman, fw, tokens);
        return Failure(step.error);
      }
      current := step.value;
      i := i + 1;
    }
    StepsUniqueVariables(start, calls, i, postman, fw, tokens);
    r := Success(Build(swagger.schema, env.variables, current));
  }

  /** The loop over the calls, then the definitions written into the schema. */
  method AddAll(swagger: SwaggerDocs.SwaggerV2, env: PostmanEnvironments.PostmanEnvironment, calls: seq<CallRecord>,
                start: Build, postman: bool, fw: Helpers, tokens: nat -> string)
    returns (r: Result<Build, CommandError>)
    requires env.Valid() && swagger.schema == start.schema && env.variables == start.variables
    modifies swagger, env
    ensures r == Finished(Steps(start, calls, |calls|, postman, fw, tokens))
  {
    var built := AddOperations(swagger, env, calls, start, postman, fw, tokens);
    if built.Failure? {
      return Failure(built.error);
    }
    swagger.AddToSchema("definitions", Obj(built.value.definitions));
    r := Success(Build(swagger.schema, env.variables, built.value.definitions));
  }

  /** `createSwaggerJson($type)` */
  method CreateSwaggerJson(calls: seq<CallRecord>, docType: string, modelDefinitions: Fields, appName: string,
                           dateStamp: string, appUrl: string, fw: Helpers, tokens: nat -> string)
    returns (r: Result<Build, CommandError>)
    ensures r == SwaggerJson(calls, docType, modelDefinitions, appName, dateStamp, appUrl, fw, tokens)
  {
    if docType != "api" && docType != "postman" {
      return Failure(InvalidType(docType));
    }
    var env := new PostmanEnvironments.PostmanEnvironment();
    var swagger := NewSwagger(appName, dateStamp, appUrl, fw);
    r := AddAll(swagger, env, calls, StartBuild(modelDefinitions, appName, dateStamp, appUrl, fw), docType == "postman", fw, tokens);
  }
}
