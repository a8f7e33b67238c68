/**
 * `PostmanRoundTrip`: the Postman collection the docs command writes is the
 * one the API-test command reads back. An operation generated for a call
 * with both security headers names the `apiKey` and the `accessToken`
 * schemes; `PostmanCollectionBuilder::getOutput()` moves the second one into
 * the parameters, and `PostmanCollectionReader::getPathData()` appends the
 * definitions of the schemes that stayed. Each header then reaches the
 * generated test exactly once.
 */
module PostmanRoundTrip {
  import opened Wrappers
  import opened JsonValues
  import Builder = PostmanCollectionBuilders
  import Reader = PostmanCollectionReaders
  import DocsCommand
  import ApiCalls

  /** The two requirements an operation carries when its call sends both security headers. */
  const BothHeaders: seq<Json> := [DocsCommand.Requirement("apiKey"), DocsCommand.Requirement("accessToken")]

  /** The collection's security definitions are the ones with the placeholder examples. */
  lemma PostmanDefinitions(schema: Fields)
    requires Builder.WellFormedSchema(schema)
    ensures Get(Builder.PostmanSchema(schema), "securityDefinitions") == Some(Obj(Builder.ExampleDefinitions(schema)))
  {
    var defs := Builder.ExampleDefinitions(schema);
    var placed := Put(Builder.Placeholders(schema), "securityDefinitions", Obj(defs));
    match Get(schema, "paths")
    case Some(Obj(ps)) =>
      Builder.PostmanSchemaMoved(schema, ps);
      assert Builder.PostmanSchema(schema) == Put(placed, "paths", Obj(Builder.MovedPaths(ps, defs)));
    case _ =>
      Builder.PostmanSchemaPlaced(schema);
  }

  /** Both header schemes are defined, each with its example schema. */
  lemma HeaderSchemesDefined(schema: Fields, name: string)
    requires name == "apiKey" || name == "accessToken"
    ensures var defs := Builder.ExampleDefinitions(schema);
      Get(defs, name).Some? && Get(defs, name).value.Obj? && Get(Get(defs, name).value.fields, "schema").Some?
  {
    var base := match Get(schema, "securityDefinitions") case Some(d) => AsFields(d) case None => [];
    var once := Put2(base, "apiKey", "schema", Builder.ApiKeyExample);
    assert Builder.ExampleDefinitions(schema) == Put2(once, "accessToken", "schema", Builder.AccessTokenExample);
    if name == "apiKey" {
      assert "apiKey" != "accessToken" by {
        assert |"apiKey"| == 6;
      }
    }
  }

  /** A map with a field is truthy. */
  lemma TruthyWithField(fs: Fields, k: string)
    requires Get(fs, k).Some?
    ensures Truthy(Obj(fs))
  {
  }

  /** Reading the collection back finds both header schemes, as non-empty maps. */
  lemma ReadHeaderScheme(schema: Fields, name: string)
    requires Builder.WellFormedSchema(schema)
    requires name == "apiKey" || name == "accessToken"
    ensures var defs := Builder.ExampleDefinitions(schema);
      && Get(defs, name).Some? && Get(defs, name).value.Obj? && Truthy(Get(defs, name).value)
      && Reader.SecurityParam(Builder.PostmanSchema(schema), name) == Get(defs, name)
  {
    var defs := Builder.ExampleDefinitions(schema);
    PostmanDefinitions(schema);
    HeaderSchemesDefined(schema, name);
    var d := Get(defs, name).value;
    TruthyWithField(d.fields, "schema");
    TruthyWithField(defs, name);
    assert Reader.SecurityParam(Builder.PostmanSchema(schema), name) == Get(AsFields(Obj(defs)), name);
  }

  /**
   * One operation through the builder and the reader: the declared
   * parameters, then the moved `accessToken` header, then the `apiKey`
   * header from the requirement that stayed; neither header twice.
   */
  lemma SecurityHeadersOnce(schema: Fields, op: Fields)
    requires Builder.WellFormedSchema(schema) && Builder.WellFormedOperation(op)
    requires Get(op, "security") == Some(Arr(BothHeaders))
    ensures var defs := Builder.ExampleDefinitions(schema);
      Reader.OperationParams(Builder.PostmanSchema(schema), Obj(Builder.MovedSecurity(op, defs))) ==
        Builder.ParamItems(op) + [Builder.AsHeaderParam(Get(defs, "accessToken").value), Get(defs, "apiKey").value]
  {
    var defs := Builder.ExampleDefinitions(schema);
    var out := Builder.PostmanSchema(schema);
    var apiKey := DocsCommand.Requirement("apiKey");
    var accessToken := DocsCommand.Requirement("accessToken");
    ReadHeaderScheme(schema, "apiKey");
    ReadHeaderScheme(schema, "accessToken");
    Builder.MovesAccessToken(op, defs, apiKey, accessToken);
    var header := Builder.AsHeaderParam(Get(defs, "accessToken").value);
    var key := Get(defs, "apiKey").value;
    ReadApiKeyOnly(out, Builder.MovedSecurity(op, defs), Builder.ParamItems(op) + [header], key);
    AppendTwo(Builder.ParamItems(op), header, key);
  }

  /** Appending two items one at a time or together gives the same list. */
  lemma AppendTwo(xs: seq<Json>, x: Json, y: Json)
    ensures xs + [x] + [y] == xs + [x, y]
  {
  }

  /** An operation whose only requirement left is `apiKey` is read as its parameters, then the `apiKey` definition. */
  lemma ReadApiKeyOnly(out: Fields, op: Fields, parameters: seq<Json>, apiKey: Json)
    requires Get(op, "parameters") == Some(Arr(parameters))
    requires Get(op, "security") == Some(Arr([DocsCommand.Requirement("apiKey")]))
    requires Reader.SecurityParam(out, "apiKey") == Some(apiKey) && Truthy(apiKey)
    ensures Reader.OperationParams(out, Obj(op)) == parameters + [apiKey]
  {
    var rule := DocsCommand.Requirement("apiKey");
    assert Reader.SecurityRules(Obj(op)) == [rule];
    assert [rule][..0] == [];
    Reader.RuleParamsSingle(out, "apiKey", Arr([]));
    assert Reader.SecurityParams(out, [rule]) == [apiKey];
  }

  /**
   * End to end: the operation `createSwaggerJson` writes for a call with
   * both security headers is read back with its written parameters, then
   * the `accessToken` header, then the `apiKey` header.
   */
  lemma GeneratedOperationRead(schema: Fields, item: ApiCalls.CallRecord, operationId: string,
                               parameters: seq<Json>, responseName: string)
    requires Builder.WellFormedSchema(schema)
    ensures var op := DocsCommand.OperationData(item, operationId, parameters, BothHeaders, responseName).fields;
      var defs := Builder.ExampleDefinitions(schema);
      && Builder.WellFormedOperation(op)
      && Reader.OperationParams(Builder.PostmanSchema(schema), Obj(Builder.MovedSecurity(op, defs))) ==
           parameters + [Builder.AsHeaderParam(Get(defs, "accessToken").value), Get(defs, "apiKey").value]
  {
    var op := DocsCommand.OperationData(item, operationId, parameters, BothHeaders, responseName).fields;
    DocsCommand.OperationDataLists(item, operationId, parameters, BothHeaders, responseName);
    assert Builder.WellFormedOperation(op);
    assert Builder.ParamItems(op) == parameters;
    SecurityHeadersOnce(schema, op);
  }
}
