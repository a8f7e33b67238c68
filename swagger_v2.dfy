/**
 * `SwaggerV2`: the Swagger 2.0 document the generator fills in. The default
 * schema follows the "Swagger Object" of the OpenAPI Specification 2.0, with
 * the two API-key header schemes of the "Security Definitions Object".
 */
module SwaggerDocs {
  import opened Wrappers
  import opened JsonValues
  import opened Framework

  /** The `x-api-key` header scheme. */
  const ApiKeyScheme: Json := Obj([
    ("type", Str("apiKey")),
    ("name", Str("x-api-key")),
    ("in", Str("header")),
    ("description", Str("API Key for application"))])

  /** The `x-access-token` header scheme. */
  const AccessTokenScheme: Json := Obj([
    ("type", Str("apiKey")),
    ("name", Str("x-access-token")),
    ("in", Str("header")),
    ("description", Str("Unique user authentication token"))])

  const SecurityDefinitions: Fields := [("apiKey", ApiKeyScheme), ("accessToken", AccessTokenScheme)]

  /**
   * `getDefaultSchema()`; the application name and the `Ymd` date stamp of
   * the version are parameters.
   */
  function DefaultSchema(appName: string, dateStamp: string): Fields {
    [("swagger", Str("2.0")),
     ("info", Obj([("title", Str(appName + " API")), ("version", Str("1.0.0." + dateStamp))])),
     ("host", Null),
     ("schemes", Arr([])),
     ("basePath", Null),
     ("paths", Arr([])),
     ("securityDefinitions", Obj(SecurityDefinitions))]
  }

  /** The default document is a Swagger 2.0 document with no host or schemes yet. */
  lemma DefaultSchemaShape(appName: string, dateStamp: string)
    ensures Get(DefaultSchema(appName, dateStamp), "swagger") == Some(Str("2.0"))
    ensures Get(DefaultSchema(appName, dateStamp), "host") == Some(Null)
    ensures Get(DefaultSchema(appName, dateStamp), "schemes") == Some(Arr([]))
  {
    var s := DefaultSchema(appName, dateStamp);
    GetAt(s, 0);
    GetAt(s, 2);
    GetAt(s, 3);
  }

  /** The default document has no base path yet. */
  lemma DefaultSchemaNoBasePath(appName: string, dateStamp: string)
    ensures Get(DefaultSchema(appName, dateStamp), "basePath") == Some(Null)
  {
    GetAt(DefaultSchema(appName, dateStamp), 4);
  }

  /** The default document has no paths yet. */
  lemma DefaultSchemaNoPaths(appName: string, dateStamp: string)
    ensures Get(DefaultSchema(appName, dateStamp), "paths") == Some(Arr([]))
  {
    GetAt(DefaultSchema(appName, dateStamp), 5);
  }

  /** The default document declares exactly the two header schemes. */
  lemma DefaultSchemaSecurity(appName: string, dateStamp: string)
    ensures Get(DefaultSchema(appName, dateStamp), "securityDefinitions") == Some(Obj(SecurityDefinitions))
  {
    GetAt(DefaultSchema(appName, dateStamp), 6);
  }

  /** The default schemes are the `x-api-key` and `x-access-token` headers, under those scheme names. */
  lemma SecuritySchemesShape()
    ensures Get(SecurityDefinitions, "apiKey") == Some(ApiKeyScheme)
    ensures Get(SecurityDefinitions, "accessToken") == Some(AccessTokenScheme)
    ensures Field(ApiKeyScheme, "name") == Some(Str("x-api-key"))
    ensures Field(AccessTokenScheme, "name") == Some(Str("x-access-token"))
  {
    GetAt(SecurityDefinitions, 1);
    GetAt(ApiKeyScheme.fields, 1);
    GetAt(AccessTokenScheme.fields, 1);
  }

  /** Both default schemes are sent in a header. */
  lemma SecuritySchemesInHeader()
    ensures Field(ApiKeyScheme, "in") == Some(Str("header")) && Field(AccessTokenScheme, "in") == Some(Str("header"))
  {
    GetAt(ApiKeyScheme.fields, 2);
    GetAt(AccessTokenScheme.fields, 2);
  }

  /** The operation stored for a path and method, if any. */
  function Operation(schema: Fields, path: string, verb: string): Option<Json> {
    match Get(schema, "paths")
    case None => None
    case Some(paths) =>
      match Field(paths, path)
      case None => None
      case Some(item) => Field(item, verb)
  }

  /** `$schema['paths'][$path][$method] = $data` */
  function WithPathData(schema: Fields, path: string, verb: string, data: Json): Fields {
    Put(schema, "paths", Obj(Put2(PathsOf(schema), path, verb, data)))
  }

  function PathsOf(schema: Fields): Fields {
    match Get(schema, "paths") case Some(ps) => AsFields(ps) case None => []
  }

  lemma OperationIn(schema: Fields, p: string, m: string)
    ensures Operation(schema, p, m) ==
      if Get(PathsOf(schema), p).Some? then Get(AsFields(Get(PathsOf(schema), p).value), m) else None
  {
  }

  /** `addPathData` stores the operation under its path and method. */
  lemma WithPathDataStores(schema: Fields, path: string, verb: string, data: Json)
    ensures Operation(WithPathData(schema, path, verb, data), path, verb) == Some(data)
  {
    OperationIn(WithPathData(schema, path, verb, data), path, verb);
  }

  /** `addPathData` leaves every other path and method, and every other top-level key, as it was. */
  lemma WithPathDataFrame(schema: Fields, path: string, verb: string, data: Json)
    ensures forall p, m :: (p, m) != (path, verb) ==>
      Operation(WithPathData(schema, path, verb, data), p, m) == Operation(schema, p, m)
    ensures forall k :: k != "paths" ==> Get(WithPathData(schema, path, verb, data), k) == Get(schema, k)
  {
    var r := WithPathData(schema, path, verb, data);
    assert PathsOf(r) == Put2(PathsOf(schema), path, verb, data);
    forall p, m | (p, m) != (path, verb)
      ensures Operation(r, p, m) == Operation(schema, p, m)
    {
      OperationIn(r, p, m);
      OperationIn(schema, p, m);
    }
  }

  /** `setServerUrl($url)`: host from the URL, schemes a one-element list of its scheme. */
  function WithServerUrl(schema: Fields, url: string, fw: Helpers): (r: Fields)
    ensures Get(r, "host") == Some(OptStr(fw.urlHost(url)))
    ensures Get(r, "schemes") == Some(Arr([OptStr(fw.urlScheme(url))]))
    ensures forall k :: k != "host" && k != "schemes" ==> Get(r, k) == Get(schema, k)
  {
    Put(Put(schema, "host", OptStr(fw.urlHost(url))), "schemes", Arr([OptStr(fw.urlScheme(url))]))
  }

  class SwaggerV2 {
    var schema: Fields

    constructor(appName: string, dateStamp: string)
      ensures schema == DefaultSchema(appName, dateStamp)
    {
      schema := DefaultSchema(appName, dateStamp);
    }

    method SetBasePath(basePath: Json)
      modifies this
      ensures schema == Put(old(schema), "basePath", basePath)
    {
      schema := Put(schema, "basePath", basePath);
    }

    method SetHost(host: Json)
      modifies this
      ensures schema == Put(old(schema), "host", host)
    {
      schema := Put(schema, "host", host);
    }

    method SetSchemes(schemes: Json)
      modifies this
      ensures schema == Put(old(schema), "schemes", schemes)
    {
      schema := Put(schema, "schemes", schemes);
    }

    method SetServerUrl(url: string, fw: Helpers)
      modifies this
      ensures schema == WithServerUrl(old(schema), url, fw)
    {
      SetHost(OptStr(fw.urlHost(url)));
      SetSchemes(Arr([OptStr(fw.urlScheme(url))]));
    }

    method AddPathData(path: string, verb: string, data: Json)
      modifies this
      ensures schema == WithPathData(old(schema), path, verb, data)
    {
      schema := WithPathData(schema, path, verb, data);
    }

    /** `addToSchema($key, $value)`, inherited from the base generator: only `key` changes. */
    method AddToSchema(key: string, value: Json)
      modifies this
      ensures schema == Put(old(schema), key, value)
    {
      schema := Put(schema, key, value);
    }

    /** `getSchema()` and `getOutput()`: the schema as it stands, unchanged. */
    method GetOutput() returns (output: Fields)
      ensures output == schema
    {
      output := schema;
    }
  }
}
