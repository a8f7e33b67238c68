/**
 * `PostmanCollectionBuilder`: turns the Swagger document into the one Postman
 * imports. Host and schemes become `{{host}}` and `{{scheme}}` placeholders,
 * both header schemes get a `{{...}}` example, and, to work around Postman
 * importing only the first security requirement of an operation, every later
 * requirement naming a defined scheme is moved into the operation's
 * parameters as a string-typed header definition.
 */
module PostmanCollectionBuilders {
  import opened Wrappers
  import opened JsonValues

  /** The example schema given to the `apiKey` scheme. */
  const ApiKeyExample: Json := Obj([("type", Str("string")), ("example", Str("{{x-api-key}}"))])

  /** The example schema given to the `accessToken` scheme. */
  const AccessTokenExample: Json := Obj([("type", Str("string")), ("example", Str("{{x-access-token}}"))])

  /** The first scheme, or `http` when there is none. */
  function Protocol(schema: Fields): string {
    match Get(schema, "schemes")
    case Some(Arr(xs)) => if xs != [] && xs[0] != Null then Text(xs[0]) else "http"
    case Some(Str(s)) => if s != [] then [s[0]] else "http"
    case Some(Obj(fs)) => if Get(fs, "0").Some? && Get(fs, "0").value != Null then Text(Get(fs, "0").value) else "http"
    case _ => "http"
  }

  /** `$schema[$key] ?? ''` as text. */
  function TextOr(schema: Fields, key: string): string {
    match Get(schema, key)
    case Some(v) => Text(v)
    case None => ""
  }

  /** `getServerUrl($path)` */
  function ServerUrl(schema: Fields, path: string): (url: string)
    ensures |url| >= |Protocol(schema)| + 3 && url[..|Protocol(schema)| + 3] == Protocol(schema) + "://"
    ensures |url| >= |path| && url[|url| - |path|..] == path
  {
    var prefix := Protocol(schema) + "://";
    var url := prefix + TextOr(schema, "host") + TextOr(schema, "basePath") + path;
    assert url[..|prefix|] == prefix;
    assert url[|url| - |path|..] == path;
    url
  }

  /** A security definition as a header parameter: the same fields with `type` forced to `string`. */
  function AsHeaderParam(def: Json): Json {
    Obj(Put(AsFields(def), "type", Str("string")))
  }

  /** The parameter is typed `string` and otherwise carries the definition's fields. */
  lemma AsHeaderParamSpec(def: Json, k: string)
    ensures AsHeaderParam(def).Obj?
    ensures Get(AsHeaderParam(def).fields, k) == if k == "type" then Some(Str("string")) else Field(def, k)
  {
  }

  /** The definitions of the schemes a requirement names, in the requirement's order. */
  function RuleDefinitions(rule: Fields, defs: Fields): (r: seq<Json>)
    ensures |r| <= |rule|
  {
    if rule == [] then []
    else
      var name := rule[|rule| - 1].0;
      RuleDefinitions(rule[..|rule| - 1], defs) +
        (if IsSet(Obj(defs), name) then [AsHeaderParam(Get(defs, name).value)] else [])
  }

  /** A requirement is moved when it names at least one defined scheme. */
  predicate Moves(rule: Json, defs: Fields) {
    RuleDefinitions(AsFields(rule), defs) != []
  }

  /** The definitions appended to `parameters` for the requirements `rules`, in order. */
  function MovedDefinitions(rules: seq<Json>, defs: Fields): seq<Json> {
    if rules == [] then []
    else MovedDefinitions(rules[..|rules| - 1], defs) + RuleDefinitions(AsFields(rules[|rules| - 1]), defs)
  }

  /** The requirements `rules` that stay under `security`, in order. */
  function KeptRules(rules: seq<Json>, defs: Fields): (r: seq<Json>)
    ensures |r| <= |rules|
  {
    if rules == [] then []
    else
      var last := rules[|rules| - 1];
      KeptRules(rules[..|rules| - 1], defs) + (if Moves(last, defs) then [] else [last])
  }

  /** The list under `parameters`; an absent, null or empty value is the empty list. */
  function ParamItems(op: Fields): seq<Json> {
    match Get(op, "parameters")
    case Some(Arr(xs)) => xs
    case _ => []
  }

  /** An operation's `security` is a list and its `parameters` can be appended to. */
  predicate WellFormedOperation(op: Fields) {
    && (IsSet(Obj(op), "security") ==> Get(op, "security").value.Arr?)
    && (match Get(op, "parameters")
        case None => true
        case Some(p) => p == Null || p.Arr? || p == Obj([]))
  }

  /** The workaround applied to one operation. */
  function MovedSecurity(op: Fields, defs: Fields): (r: Fields)
    requires WellFormedOperation(op)
  {
    if !IsSet(Obj(op), "security") then op
    else
      var items := Get(op, "security").value.items;
      if items == [] then op
      else
        var moved := MovedDefinitions(items[1..], defs);
        if moved == [] then op
        else Put(Put(op, "parameters", Arr(ParamItems(op) + moved)), "security", Arr([items[0]] + KeptRules(items[1..], defs)))
  }

  predicate WellFormedOperations(ops: Fields) {
    forall j :: 0 <= j < |ops| && ops[j].1.Obj? ==> WellFormedOperation(ops[j].1.fields)
  }

  predicate WellFormedPaths(paths: Fields) {
    forall i :: 0 <= i < |paths| && paths[i].1.Obj? ==> WellFormedOperations(paths[i].1.fields)
  }

  /** The document's operations have the shape the workaround needs. */
  predicate WellFormedSchema(schema: Fields) {
    match Get(schema, "paths")
    case Some(Obj(ps)) => WellFormedPaths(ps)
    case _ => true
  }

  /** The workaround applied to every operation of one path; a non-map entry is left alone. */
  function MovedOperations(ops: Fields, defs: Fields): (r: Fields)
    requires WellFormedOperations(ops)
    ensures Keys(r) == Keys(ops)
  {
    if ops == [] then []
    else
      var last := ops[|ops| - 1];
      var init := MovedOperations(ops[..|ops| - 1], defs);
      KeysSnoc(ops);
      if last.1.Obj? then init + [(last.0, Obj(MovedSecurity(last.1.fields, defs)))] else init + [last]
  }

  /** The workaround applied to every path. */
  function MovedPaths(paths: Fields, defs: Fields): (r: Fields)
    requires WellFormedPaths(paths)
    ensures Keys(r) == Keys(paths)
  {
    if paths == [] then []
    else
      var last := paths[|paths| - 1];
      var init := MovedPaths(paths[..|paths| - 1], defs);
      KeysSnoc(paths);
      if last.1.Obj? then init + [(last.0, Obj(MovedOperations(last.1.fields, defs)))] else init + [last]
  }

  /** The security definitions once both schemes carry their example schema. */
  function ExampleDefinitions(schema: Fields): Fields {
    var defs := match Get(schema, "securityDefinitions") case Some(d) => AsFields(d) case None => [];
    Put2(Put2(defs, "apiKey", "schema", ApiKeyExample), "accessToken", "schema", AccessTokenExample)
  }

  /** Host and schemes point at the environment's `{{host}}` and `{{scheme}}` variables. */
  function Placeholders(schema: Fields): (r: Fields)
    ensures Get(r, "host") == Some(Str("{{host}}"))
    ensures Get(r, "schemes") == Some(Arr([Str("{{scheme}}")]))
    ensures forall k :: k != "host" && k != "schemes" ==> Get(r, k) == Get(schema, k)
  {
    Put(Put(schema, "host", Str("{{host}}")), "schemes", Arr([Str("{{scheme}}")]))
  }

  /** The document `getOutput()` leaves in the builder. */
  function PostmanSchema(schema: Fields): Fields
    requires WellFormedSchema(schema)
  {
    var defs := ExampleDefinitions(schema);
    var placed := Put(Placeholders(schema), "securityDefinitions", Obj(defs));
    match Get(schema, "paths")
    case Some(Obj(ps)) => Put(placed, "paths", Obj(MovedPaths(ps, defs)))
    case _ => placed
  }

  lemma {:induction false} RuleDefinitionsEmpty(rule: Fields, defs: Fields)
    ensures RuleDefinitions(rule, defs) == [] <==> forall i :: 0 <= i < |rule| ==> !IsSet(Obj(defs), rule[i].0)
  {
    if rule != [] {
      var init := rule[..|rule| - 1];
      RuleDefinitionsEmpty(init, defs);
      assert forall i :: 0 <= i < |init| ==> init[i] == rule[i];
    }
  }

  /** A requirement whose schemes are all undefined stays; one naming a defined scheme moves. */
  lemma MovesIff(rule: Json, defs: Fields)
    ensures Moves(rule, defs) <==> exists i :: 0 <= i < |AsFields(rule)| && IsSet(Obj(defs), AsFields(rule)[i].0)
  {
    RuleDefinitionsEmpty(AsFields(rule), defs);
  }

  /** The requirements that stay are exactly those that do not move, in their order. */
  lemma {:induction false} KeptRulesSpec(rules: seq<Json>, defs: Fields)
    ensures forall x :: x in KeptRules(rules, defs) <==> x in rules && !Moves(x, defs)
  {
    if rules != [] {
      var init := rules[..|rules| - 1];
      KeptRulesSpec(init, defs);
      assert rules == init + [rules[|rules| - 1]];
    }
  }

  /** Nothing is appended exactly when no requirement moves, and then every requirement stays. */
  lemma {:induction false} MovedDefinitionsEmpty(rules: seq<Json>, defs: Fields)
    ensures MovedDefinitions(rules, defs) == [] <==> KeptRules(rules, defs) == rules
  {
    if rules != [] {
      var init := rules[..|rules| - 1];
      MovedDefinitionsEmpty(init, defs);
      assert rules == init + [rules[|rules| - 1]];
      if KeptRules(rules, defs) == rules {
        assert KeptRules(init, defs) == init by {
          assert |KeptRules(init, defs)| <= |init|;
          assert rules[..|rules| - 1] == KeptRules(rules, defs)[..|rules| - 1];
        }
      }
    }
  }

  /** Moving keeps the first requirement and loses none: each one either stays or moves. */
  lemma {:induction false} KeptRulesCount(rules: seq<Json>, defs: Fields)
    ensures |KeptRules(rules, defs)| + |MovedRules(rules, defs)| == |rules|
  {
    if rules != [] {
      KeptRulesCount(rules[..|rules| - 1], defs);
    }
  }

  /** The requirements `rules` that move, in order. */
  function MovedRules(rules: seq<Json>, defs: Fields): seq<Json> {
    if rules == [] then []
    else
      var last := rules[|rules| - 1];
      MovedRules(rules[..|rules| - 1], defs) + (if Moves(last, defs) then [last] else [])
  }

  /**
   * One operation under the workaround: the first requirement always stays,
   * and a later one stays exactly when it names no defined scheme.
   */
  lemma MovedSecurityRules(op: Fields, defs: Fields)
    requires WellFormedOperation(op) && IsSet(Obj(op), "security")
    requires Get(op, "security").value.items != []
    ensures var items := Get(op, "security").value.items;
      Get(MovedSecurity(op, defs), "security") == Some(Arr([items[0]] + KeptRules(items[1..], defs)))
  {
    var items := Get(op, "security").value.items;
    var rest := items[1..];
    var moved := MovedDefinitions(rest, defs);
    if moved == [] {
      assert MovedSecurity(op, defs) == op;
      MovedDefinitionsEmpty(rest, defs);
      assert [items[0]] + rest == items;
    } else {
      var params := Put(op, "parameters", Arr(ParamItems(op) + moved));
      assert MovedSecurity(op, defs) == Put(params, "security", Arr([items[0]] + KeptRules(rest, defs)));
    }
  }

  /** The parameters grow by the moved definitions, and nothing but `security` and `parameters` changes. */
  lemma MovedSecurityParams(op: Fields, defs: Fields)
    requires WellFormedOperation(op) && IsSet(Obj(op), "security")
    requires Get(op, "security").value.items != []
    ensures var moved := MovedDefinitions(Get(op, "security").value.items[1..], defs);
      moved != [] ==> Get(MovedSecurity(op, defs), "parameters") == Some(Arr(ParamItems(op) + moved))
    ensures forall k :: k != "security" && k != "parameters" ==> Get(MovedSecurity(op, defs), k) == Get(op, k)
  {
  }

  /** An operation without requirements, or with only one, is left exactly as it was. */
  lemma MovedSecurityUntouched(op: Fields, defs: Fields)
    requires WellFormedOperation(op)
    requires !IsSet(Obj(op), "security") || |Get(op, "security").value.items| <= 1
    ensures MovedSecurity(op, defs) == op
  {
    if IsSet(Obj(op), "security") {
      var items := Get(op, "security").value.items;
      if items != [] {
        assert items[1..] == [];
      }
    }
  }

  /**
   * The workaround on the two requirements the generator emits: `apiKey`
   * stays first and the `accessToken` definition becomes the last parameter.
   */
  lemma MovesAccessToken(op: Fields, defs: Fields, apiKey: Json, accessToken: Json)
    requires WellFormedOperation(op)
    requires Get(op, "security") == Some(Arr([apiKey, accessToken]))
    requires AsFields(accessToken) == [("accessToken", Arr([]))]
    requires IsSet(Obj(defs), "accessToken")
    ensures Get(MovedSecurity(op, defs), "security") == Some(Arr([apiKey]))
    ensures Get(MovedSecurity(op, defs), "parameters") ==
      Some(Arr(ParamItems(op) + [AsHeaderParam(Get(defs, "accessToken").value)]))
  {
    var items := [apiKey, accessToken];
    assert items[1..] == [accessToken];
    assert [accessToken][..0] == [];
    var rule := AsFields(accessToken);
    assert rule[..0] == [];
    assert RuleDefinitions(rule, defs) == [AsHeaderParam(Get(defs, "accessToken").value)];
    assert MovedDefinitions([accessToken], defs) == [AsHeaderParam(Get(defs, "accessToken").value)];
    assert KeptRules([accessToken], defs) == [];
    assert [items[0]] + KeptRules(items[1..], defs) == [apiKey];
    MovedSecurityRules(op, defs);
    MovedSecurityParams(op, defs);
  }

  /** Past the placeholders, `getOutput()` writes only the security definitions and the paths. */
  lemma PostmanSchemaOver(schema: Fields, k: string)
    requires WellFormedSchema(schema)
    requires k != "securityDefinitions" && k != "paths"
    ensures Get(PostmanSchema(schema), k) == Get(Placeholders(schema), k)
  {
  }

  /** `getOutput()` points the host at the `{{host}}` environment variable. */
  lemma PostmanSchemaHost(schema: Fields)
    requires WellFormedSchema(schema)
    ensures Get(PostmanSchema(schema), "host") == Some(Str("{{host}}"))
  {
    PostmanSchemaOver(schema, "host");
  }

  /** `getOutput()` makes `{{scheme}}` the only scheme. */
  lemma PostmanSchemaSchemes(schema: Fields)
    requires WellFormedSchema(schema)
    ensures Get(PostmanSchema(schema), "schemes") == Some(Arr([Str("{{scheme}}")]))
  {
    PostmanSchemaOver(schema, "schemes");
  }

  /** `getOutput()` touches only the host, the schemes, the security definitions and the paths. */
  lemma PostmanSchemaFrame(schema: Fields, k: string)
    requires WellFormedSchema(schema)
    requires k != "host" && k != "schemes" && k != "securityDefinitions" && k != "paths"
    ensures Get(PostmanSchema(schema), k) == Get(schema, k)
  {
    PostmanSchemaOver(schema, k);
  }

  /** After `getOutput()` the server URL is built from the two placeholders and the unchanged base path. */
  lemma PostmanServerUrl(schema: Fields, path: string)
    requires WellFormedSchema(schema)
    ensures ServerUrl(PostmanSchema(schema), path) == "{{scheme}}" + "://" + "{{host}}" + TextOr(schema, "basePath") + path
  {
    var out := PostmanSchema(schema);
    PostmanSchemaHost(schema);
    PostmanSchemaSchemes(schema);
    PostmanSchemaFrame(schema, "basePath");
    ServerUrlOf(out, path, "{{scheme}}", "{{host}}");
  }

  /** With a single text scheme and a text host, the URL is `scheme://host` + base path + path. */
  lemma ServerUrlOf(schema: Fields, path: string, scheme: string, host: string)
    requires Get(schema, "schemes") == Some(Arr([Str(scheme)]))
    requires Get(schema, "host") == Some(Str(host))
    ensures ServerUrl(schema, path) == scheme + "://" + host + TextOr(schema, "basePath") + path
  {
  }

  /** Both header schemes get their placeholder example; every other scheme is as it was. */
  lemma ExampleDefinitionsSpec(schema: Fields)
    ensures Field(Get(ExampleDefinitions(schema), "apiKey").value, "schema") == Some(ApiKeyExample)
    ensures Field(Get(ExampleDefinitions(schema), "accessToken").value, "schema") == Some(AccessTokenExample)
    ensures forall k :: k != "apiKey" && k != "accessToken" ==>
      Get(ExampleDefinitions(schema), k) == Get(AsFields(Get(schema, "securityDefinitions").GetOr(Null)), k)
  {
  }

  /** `getOutput()` keeps every path and every method, and applies the workaround to each operation. */
  lemma PostmanSchemaPaths(schema: Fields, ps: Fields)
    requires WellFormedSchema(schema)
    requires Get(schema, "paths") == Some(Obj(ps))
    ensures Get(PostmanSchema(schema), "paths") == Some(Obj(MovedPaths(ps, ExampleDefinitions(schema))))
    ensures Keys(MovedPaths(ps, ExampleDefinitions(schema))) == Keys(ps)
  {
  }

  /** The document `getOutput()` builds when there is a map of paths. */
  lemma PostmanSchemaMoved(schema: Fields, ps: Fields)
    requires WellFormedSchema(schema) && Get(schema, "paths") == Some(Obj(ps))
    ensures WellFormedPaths(ps)
    ensures PostmanSchema(schema) ==
      Put(Put(Placeholders(schema), "securityDefinitions", Obj(ExampleDefinitions(schema))), "paths",
          Obj(MovedPaths(ps, ExampleDefinitions(schema))))
  {
  }

  /** The document `getOutput()` builds when there is no map of paths. */
  lemma PostmanSchemaPlaced(schema: Fields)
    requires WellFormedSchema(schema) && !(Get(schema, "paths").Some? && Get(schema, "paths").value.Obj?)
    ensures PostmanSchema(schema) == Put(Placeholders(schema), "securityDefinitions", Obj(ExampleDefinitions(schema)))
  {
  }

  /** The builder's document. */
  class PostmanCollectionBuilder {
    var schema: Fields

    constructor()
      ensures schema == []
    {
      schema := [];
    }

    /** `setSchema($schema)` replaces the whole document. */
    method SetSchema(s: Fields)
      modifies this
      ensures schema == s
    {
      schema := s;
    }

    /** `getOutput()`: the placeholders, the example schemas, then the by-reference walk over every operation. */
    method GetOutput() returns (output: Fields)
      requires WellFormedSchema(schema)
      modifies this
      ensures schema == PostmanSchema(old(schema))
      ensures output == schema
    {
      var original := schema;
      var defs := ExampleDefinitions(original);
      var placed := Put(original, "host", Str("{{host}}"));
      placed := Put(placed, "schemes", Arr([Str("{{scheme}}")]));
      placed := Put(placed, "securityDefinitions", Obj(defs));
      if Get(original, "paths").Some? && Get(original, "paths").value.Obj? {
        var ps := Get(original, "paths").value.fields;
        var moved := MovePaths(ps, defs);
        schema := Put(placed, "paths", Obj(moved));
        PostmanSchemaMoved(original, ps);
      } else {
        schema := placed;
        PostmanSchemaPlaced(original);
      }
      output := schema;
    }
  }

  /** One operation: the `for` loop from index 1, then the writes it made. */
  method MoveSecurity(op: Fields, defs: Fields) returns (r: Fields)
    requires WellFormedOperation(op)
    ensures r == MovedSecurity(op, defs)
  {
    if !IsSet(Obj(op), "security") {
      return op;
    }
    var items := Get(op, "security").value.items;
    if items == [] {
      return op;
    }
    var moved, kept := SplitRules(items[1..], defs);
    if moved == [] {
      return op;
    }
    r := Put(op, "parameters", Arr(ParamItems(op) + moved));
    r := Put(r, "security", Arr([items[0]] + kept));
  }

  /** The `for` loop over the requirements after the first. */
  method SplitRules(rules: seq<Json>, defs: Fields) returns (moved: seq<Json>, kept: seq<Json>)
    ensures moved == MovedDefinitions(rules, defs)
    ensures kept == KeptRules(rules, defs)
  {
    moved := [];
    kept := [];
    var i := 0;
    while i < |rules|
      invariant 0 <= i <= |rules|
      invariant moved == MovedDefinitions(rules[..i], defs)
      invariant kept == KeptRules(rules[..i], defs)
    {
      assert rules[..i + 1][..i] == rules[..i];
      var found := SchemesOf(AsFields(rules[i]), defs);
      moved := moved + found;
      if found == [] {
        kept := kept + [rules[i]];
      }
      i := i + 1;
    }
    assert rules[..i] == rules;
  }

  /** The `foreach` over one requirement's scheme names. */
  method SchemesOf(rule: Fields, defs: Fields) returns (found: seq<Json>)
    ensures found == RuleDefinitions(rule, defs)
  {
    found := [];
    var j := 0;
    while j < |rule|
      invariant 0 <= j <= |rule|
      invariant found == RuleDefinitions(rule[..j], defs)
    {
      assert rule[..j + 1][..j] == rule[..j];
      var name := rule[j].0;
      if IsSet(Obj(defs), name) {
        found := found + [AsHeaderParam(Get(defs, name).value)];
      }
      j := j + 1;
    }
    assert rule[..j] == rule;
  }

  /** The `foreach` over one path's methods. */
  method MoveOperations(ops: Fields, defs: Fields) returns (r: Fields)
    requires WellFormedOperations(ops)
    ensures r == MovedOperations(ops, defs)
  {
    r := [];
    var j := 0;
    while j < |ops|
      invariant 0 <= j <= |ops|
      invariant r == MovedOperations(ops[..j], defs)
    {
      assert ops[..j + 1][..j] == ops[..j];
      if ops[j].1.Obj? {
        var op := MoveSecurity(ops[j].1.fields, defs);
        r := r + [(ops[j].0, Obj(op))];
      } else {
        r := r + [ops[j]];
      }
      j := j + 1;
    }
    assert ops[..j] == ops;
  }

  /** The `foreach` over the paths. */
  method MovePaths(paths: Fields, defs: Fields) returns (r: Fields)
    requires WellFormedPaths(paths)
    ensures r == MovedPaths(paths, defs)
  {
    r := [];
    var i := 0;
    while i < |paths|
      invariant 0 <= i <= |paths|
      invariant r == MovedPaths(paths[..i], defs)
    {
      assert paths[..i + 1][..i] == paths[..i];
      if paths[i].1.Obj? {
        var ops := MoveOperations(paths[i].1.fields, defs);
        r := r + [(paths[i].0, Obj(ops))];
      } else {
        r := r + [paths[i]];
      }
      i := i + 1;
    }
    assert paths[..i] == paths;
  }
}
