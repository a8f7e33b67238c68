/**
 * `PostmanCollectionReader`: reads back the Postman-flavoured Swagger
 * document and the local Postman environment, and lists every operation
 * with its parameters resolved against the environment's variables. The two
 * files are given already parsed: the document as an ordered map and the
 * environment file as a value.
 */
module PostmanCollectionReaders {
  import opened Wrappers
  import opened Strings
  import opened JsonValues
  import Params
  import PostmanEnvironments

  /** `InvalidArgumentException`: the environment file has no `values`. */
  datatype ReaderError = NoValues

  /** What `foreach` visits: the items of a list or the values of a map; a scalar visits nothing. */
  function Members(j: Json): (r: seq<Json>)
    ensures j.Arr? ==> r == j.items
    ensures j.Obj? ==> |r| == |j.fields| && forall i :: 0 <= i < |r| ==> r[i] == j.fields[i].1
  {
    match j
    case Arr(xs) => xs
    case Obj(fs) => seq(|fs|, i requires 0 <= i < |fs| => fs[i].1)
    case _ => []
  }

  // ---------------------------------------------------------------------
  // getPathVersion
  // ---------------------------------------------------------------------

  /** `/(v\d+)/` can start matching at `i`: a `v` followed by a digit. */
  predicate VersionAt(s: string, i: int) {
    0 <= i && i + 1 < |s| && s[i] == 'v' && IsDigit(s[i + 1])
  }

  /** The longest run of digits at the start of `s` (what the greedy `\d+` takes). */
  function DigitRun(s: string): (r: string)
    ensures |r| <= |s| && r == s[..|r|]
    ensures forall k :: 0 <= k < |r| ==> IsDigit(r[k])
    ensures |r| == |s| || !IsDigit(s[|r|])
  {
    if s != [] && IsDigit(s[0]) then [s[0]] + DigitRun(s[1..]) else []
  }

  /** `getPathVersion()` on the base path's text: the first match of `/(v\d+)/`, or `''`. */
  function PathVersion(basePath: string): string
    decreases |basePath|
  {
    if |basePath| < 2 then ""
    else if VersionAt(basePath, 0) then "v" + DigitRun(basePath[1..])
    else PathVersion(basePath[1..])
  }

  /** The version is empty exactly when the base path has no `v` followed by a digit. */
  lemma {:induction false} PathVersionEmpty(s: string)
    ensures PathVersion(s) == "" <==> !exists i :: VersionAt(s, i)
    decreases |s|
  {
    if |s| < 2 {
      assert forall i :: !VersionAt(s, i);
    } else if VersionAt(s, 0) {
    } else {
      PathVersionEmpty(s[1..]);
      assert forall i :: VersionAt(s, i) ==> i >= 1 && VersionAt(s[1..], i - 1);
      assert forall i :: VersionAt(s[1..], i) ==> VersionAt(s, i + 1);
    }
  }

  /**
   * Where `i` is the first place a `v` meets a digit, the version is the text
   * at `i`: the `v` and every digit that follows it.
   */
  lemma {:induction false} PathVersionAt(s: string, i: nat)
    requires VersionAt(s, i)
    requires forall j :: 0 <= j < i ==> !VersionAt(s, j)
    ensures var r := PathVersion(s);
      && |r| >= 2 && i + |r| <= |s| && s[i..i + |r|] == r && r[0] == 'v'
      && (forall k :: 1 <= k < |r| ==> IsDigit(r[k]))
      && (i + |r| == |s| || !IsDigit(s[i + |r|]))
    decreases i
  {
    if i == 0 {
      var d := DigitRun(s[1..]);
      assert d != [] by { assert IsDigit(s[1..][0]); }
      assert s[1..][..|d|] == s[1..1 + |d|];
      assert ("v" + d)[1..] == d;
    } else {
      assert !VersionAt(s, 0);
      forall j | 0 <= j < i - 1 ensures !VersionAt(s[1..], j) {
        assert !VersionAt(s, j + 1);
      }
      PathVersionAt(s[1..], i - 1);
      var r := PathVersion(s);
      assert s[1..][i - 1..i - 1 + |r|] == s[i..i + |r|];
    }
  }

  // ---------------------------------------------------------------------
  // parseEnvVariable
  // ---------------------------------------------------------------------

  /** `parseEnvVariable` trims the same characters `Param::setVariable` does: whitespace, NUL and braces. */
  const EnvTrim: set<char> := DefaultTrim + {'{', '}'}

  /** `$env['key'] === $name`; an entry that is not a map has no key. */
  predicate KeyIs(entry: Json, name: string) {
    Field(entry, "key") == Some(Str(name))
  }

  /** `$env['value']`; a missing value reads as null. */
  function ValueOf(entry: Json): Json {
    Field(entry, "value").GetOr(Null)
  }

  /** The value of the first environment entry whose key is `name`. */
  function EnvValue(env: seq<Json>, name: string): (r: Option<Json>)
    ensures r.Some? <==> exists i :: 0 <= i < |env| && KeyIs(env[i], name)
  {
    if env == [] then None
    else if KeyIs(env[0], name) then Some(ValueOf(env[0]))
    else
      assert forall i :: 1 <= i < |env| ==> env[1..][i - 1] == env[i];
      EnvValue(env[1..], name)
  }

  /**
   * `parseEnvVariable($s)`: a text without `{{` is returned as it is;
   * otherwise the trimmed name is looked up, and an unknown name comes back
   * without its braces.
   */
  function ParsedEnv(s: Json, env: seq<Json>): Json {
    if !Contains(Text(s), "{{") then s
    else
      var name := Trim(Text(s), EnvTrim);
      match EnvValue(env, name)
      case Some(v) => v
      case None => Str(name)
  }

  /** A value without a placeholder opening is not substituted. */
  lemma ParsedEnvPlain(s: Json, env: seq<Json>)
    requires !Contains(Text(s), "{{")
    ensures ParsedEnv(s, env) == s
  {
  }

  /** An unknown placeholder comes back as its name, with no brace or whitespace left at either end. */
  lemma ParsedEnvUnknown(s: Json, env: seq<Json>)
    requires Contains(Text(s), "{{")
    requires forall i :: 0 <= i < |env| ==> !KeyIs(env[i], Trim(Text(s), EnvTrim))
    ensures ParsedEnv(s, env).Str?
    ensures Params.CleanName(ParsedEnv(s, env).s)
  {
    var name := Trim(Text(s), EnvTrim);
    assert EnvValue(env, name).None?;
    assert ParsedEnv(s, env) == Str(name);
    assert EnvTrim == Params.VariableTrim;
  }

  lemma {:induction false} EnvValueOfVariables(vs: seq<PostmanEnvironments.Variable>, key: string)
    ensures EnvValue(PostmanEnvironments.VariablesJson(vs), key) == PostmanEnvironments.Lookup(vs, key)
    decreases |vs|
  {
    var js := PostmanEnvironments.VariablesJson(vs);
    if vs != [] {
      VariableFields(vs[0]);
      assert js[1..] == PostmanEnvironments.VariablesJson(vs[1..]);
      EnvValueOfVariables(vs[1..], key);
    }
  }

  lemma VariableFields(v: PostmanEnvironments.Variable)
    ensures Field(PostmanEnvironments.VariableJson(v), "key") == Some(Str(v.key))
    ensures ValueOf(PostmanEnvironments.VariableJson(v)) == v.value
  {
    var fs := PostmanEnvironments.VariableJson(v).fields;
    assert fs[0].0 != "value" by { assert |fs[0].0| == 3; }
    assert Get(fs, "value") == Get(fs[1..], "value");
    assert fs[1..] == [("value", v.value)];
  }

  lemma StartsWithContains(s: string, p: string)
    requires StartsWith(s, p)
    ensures Contains(s, p)
  {
  }

  /**
   * Round trip with `PostmanEnvironment`: the placeholder `Param::setVariable`
   * writes for a name resolves, in the environment written by
   * `PostmanEnvironment::getOutput`, to the value of the first variable with
   * that key, and to the bare name when there is none.
   */
  lemma EnvironmentRoundTrip(vs: seq<PostmanEnvironments.Variable>, v: string)
    ensures var key := Trim(v, Params.VariableTrim);
      ParsedEnv(Str(Params.NormalizeVariable(v)), PostmanEnvironments.VariablesJson(vs)) ==
        match PostmanEnvironments.Lookup(vs, key)
        case Some(value) => value
        case None => Str(key)
  {
    var key := Trim(v, Params.VariableTrim);
    var placeholder := Params.NormalizeVariable(v);
    Params.NormalizeVariableShape(v);
    StartsWithContains(placeholder, "{{");
    Params.TrimBraced(key);
    assert Trim(placeholder, EnvTrim) == key;
    EnvValueOfVariables(vs, key);
  }

  // ---------------------------------------------------------------------
  // getSecurityParamByName
  // ---------------------------------------------------------------------

  /**
   * `getSecurityParamByName($name)`: nothing when `securityDefinitions` is
   * empty, else the definition stored under `name` (None is PHP's null).
   */
  function SecurityParam(schema: Fields, name: string): Option<Json> {
    match Get(schema, "securityDefinitions")
    case None => None
    case Some(defs) => if !Truthy(defs) then None else Get(AsFields(defs), name)
  }

  /** A definition is found exactly when the document defines a scheme of that name. */
  lemma SecurityParamSpec(schema: Fields, name: string)
    ensures SecurityParam(schema, name).Some? <==>
      Get(schema, "securityDefinitions").Some? && name in Keys(AsFields(Get(schema, "securityDefinitions").value))
    ensures SecurityParam(schema, name).Some? ==>
      SecurityParam(schema, name) == Get(AsFields(Get(schema, "securityDefinitions").value), name)
  {
    match Get(schema, "securityDefinitions")
    case None =>
    case Some(defs) =>
      if !Truthy(defs) {
        assert AsFields(defs) == [];
      }
  }

  // ---------------------------------------------------------------------
  // getBaseUri and parseParamEnvVariables
  // ---------------------------------------------------------------------

  /** `getBaseUri($path)`: the substituted base path, then the substituted path unless it is empty. */
  function BaseUri(schema: Fields, env: seq<Json>, path: string): string {
    Text(ParsedEnv(Get(schema, "basePath").GetOr(Null), env))
      + (if EmptyStr(path) then "" else Text(ParsedEnv(Str(path), env)))
  }

  /** Without placeholders the URI is the base path's text followed by the path; `"0"` is dropped as falsy. */
  lemma BaseUriPlain(schema: Fields, env: seq<Json>, path: string)
    requires !Contains(Text(Get(schema, "basePath").GetOr(Null)), "{{") && !Contains(path, "{{")
    ensures BaseUri(schema, env, path) == Text(Get(schema, "basePath").GetOr(Null)) + (if EmptyStr(path) then "" else path)
  {
  }

  /** The example a parameter gives: its own `example`, else `schema.example`, else `''`; substituted. */
  function ParamValue(p: Json, env: seq<Json>): Json {
    if IsSet(p, "example") then ParsedEnv(Field(p, "example").value, env)
    else if IsSet(Field(p, "schema").GetOr(Null), "example") then ParsedEnv(Field(Field(p, "schema").value, "example").value, env)
    else Str("")
  }

  /** `$param['param_value'] = ...` */
  function WithParamValue(p: Json, env: seq<Json>): Json {
    Obj(Put(AsFields(p), "param_value", ParamValue(p, env)))
  }

  /** `parseParamEnvVariables($params)` */
  function ParamsWithValues(ps: seq<Json>, env: seq<Json>): (r: seq<Json>)
    ensures |r| == |ps|
    decreases |ps|
  {
    if ps == [] then []
    else ParamsWithValues(ps[..|ps| - 1], env) + [WithParamValue(ps[|ps| - 1], env)]
  }

  lemma ParamsWithValuesSnoc(ps: seq<Json>, env: seq<Json>, i: nat)
    requires i < |ps|
    ensures ParamsWithValues(ps[..i + 1], env) == ParamsWithValues(ps[..i], env) + [WithParamValue(ps[i], env)]
  {
    assert ps[..i + 1][..i] == ps[..i];
  }

  lemma {:induction false} ParamsWithValuesAt(ps: seq<Json>, env: seq<Json>, i: nat)
    requires i < |ps|
    ensures ParamsWithValues(ps, env)[i] == WithParamValue(ps[i], env)
    decreases |ps|
  {
    if i < |ps| - 1 {
      ParamsWithValuesAt(ps[..|ps| - 1], env, i);
    }
  }

  /** Each parameter keeps its place and its other fields, and gains `param_value`. */
  lemma ParamsWithValuesSpec(ps: seq<Json>, env: seq<Json>, i: nat, k: string)
    requires i < |ps| && ps[i].Obj?
    ensures ParamsWithValues(ps, env)[i].Obj?
    ensures Get(ParamsWithValues(ps, env)[i].fields, k) ==
      if k == "param_value" then Some(ParamValue(ps[i], env)) else Get(ps[i].fields, k)
  {
    ParamsWithValuesAt(ps, env, i);
  }

  /** A parameter with an `example` takes it over `schema.example`. */
  lemma ParamValuePrefersExample(p: Json, env: seq<Json>)
    requires IsSet(p, "example")
    ensures ParamValue(p, env) == ParsedEnv(Field(p, "example").value, env)
  {
  }

  // ---------------------------------------------------------------------
  // groupBy('in')
  // ---------------------------------------------------------------------

  /** The key `groupBy` files a value under: null as `''`, booleans as `0`/`1`. */
  function GroupKey(v: Option<Json>): string {
    match v
    case None => ""
    case Some(Null) => ""
    case Some(Bool(b)) => if b then "1" else "0"
    case Some(Num(n)) => IntToString(n)
    case Some(Str(s)) => s
    case Some(_) => "Array"
  }

  function InOf(p: Json): string {
    GroupKey(Field(p, "in"))
  }

  function GroupItems(o: Option<Json>): seq<Json> {
    match o
    case Some(Arr(xs)) => xs
    case _ => []
  }

  /** `collect($ps)->groupBy('in')->toArray()`: groups in order of first appearance. */
  function GroupBy(ps: seq<Json>): Fields
    decreases |ps|
  {
    if ps == [] then []
    else
      var g := GroupBy(ps[..|ps| - 1]);
      var k := InOf(ps[|ps| - 1]);
      Put(g, k, Arr(GroupItems(Get(g, k)) + [ps[|ps| - 1]]))
  }

  /** The parameters whose location is `k`, in their order. */
  function InLocation(ps: seq<Json>, k: string): seq<Json>
    decreases |ps|
  {
    if ps == [] then []
    else InLocation(ps[..|ps| - 1], k) + (if InOf(ps[|ps| - 1]) == k then [ps[|ps| - 1]] else [])
  }

  /** Every location that occurs holds exactly its parameters, in order; no other location appears. */
  lemma {:induction false} GroupBySpec(ps: seq<Json>, k: string)
    ensures Get(GroupBy(ps), k) == if InLocation(ps, k) == [] then None else Some(Arr(InLocation(ps, k)))
    decreases |ps|
  {
    if ps != [] {
      var init := ps[..|ps| - 1];
      var last := ps[|ps| - 1];
      var g := GroupBy(init);
      GroupBySpec(init, k);
      if InOf(last) == k {
        assert GroupItems(Get(g, k)) == InLocation(init, k);
        assert InLocation(ps, k) == InLocation(init, k) + [last];
      } else {
        assert InLocation(ps, k) == InLocation(init, k);
      }
    }
  }

  /** Each location appears once. */
  lemma {:induction false} GroupByUnique(ps: seq<Json>)
    ensures UniqueKeys(GroupBy(ps))
    decreases |ps|
  {
    if ps != [] {
      var g := GroupBy(ps[..|ps| - 1]);
      GroupByUnique(ps[..|ps| - 1]);
      var k := InOf(ps[|ps| - 1]);
      PutUnique(g, k, Arr(GroupItems(Get(g, k)) + [ps[|ps| - 1]]));
    }
  }

  // ---------------------------------------------------------------------
  // getPathData
  // ---------------------------------------------------------------------

  /** One element of `getPathData()`'s output. */
  datatype PathEntry = PathEntry(
    uri: string,
    verb: string,
    tags: Json,
    summary: Json,
    description: Json,
    operationId: Json,
    parameters: seq<Json>,
    paramLocations: Fields)

  /** The definitions of the schemes one requirement names, where they are found and truthy. */
  function RuleParams(schema: Fields, rule: Fields): seq<Json>
    decreases |rule|
  {
    if rule == [] then []
    else
      var p := SecurityParam(schema, rule[|rule| - 1].0);
      RuleParams(schema, rule[..|rule| - 1]) + (if p.Some? && Truthy(p.value) then [p.value] else [])
  }

  /** The definitions appended for every requirement of `security`, in order. */
  function SecurityParams(schema: Fields, rules: seq<Json>): seq<Json>
    decreases |rules|
  {
    if rules == [] then []
    else SecurityParams(schema, rules[..|rules| - 1]) + RuleParams(schema, AsFields(rules[|rules| - 1]))
  }

  /** One more member of a requirement: its definition is appended when it is set. */
  lemma RuleParamsNext(schema: Fields, rule: Fields, k: nat)
    requires k < |rule|
    ensures var p := SecurityParam(schema, rule[k].0);
      RuleParams(schema, rule[..k + 1]) == RuleParams(schema, rule[..k]) + (if p.Some? && Truthy(p.value) then [p.value] else [])
  {
    assert rule[..k + 1][..k] == rule[..k];
  }

  lemma AppendAssoc(a: seq<Json>, b: seq<Json>, c: seq<Json>)
    ensures a + b + c == a + (b + c)
  {
  }

  /** `$methodValues['security']` when it is set, else nothing. */
  function SecurityRules(op: Json): seq<Json> {
    if IsSet(op, "security") then Members(Field(op, "security").value) else []
  }

  /** The declared parameters followed by the security definitions. */
  function OperationParams(schema: Fields, op: Json): seq<Json> {
    Members(Field(op, "parameters").GetOr(Null)) + SecurityParams(schema, SecurityRules(op))
  }

  /** `$a[$k] ?? $default` */
  function FieldOr(j: Json, k: string, default: Json): Json {
    if IsSet(j, k) then Field(j, k).value else default
  }

  function Entry(schema: Fields, env: seq<Json>, uri: string, verb: string, op: Json): PathEntry {
    var ps := OperationParams(schema, op);
    PathEntry(uri, verb, FieldOr(op, "tags", Null), FieldOr(op, "summary", Null),
      FieldOr(op, "description", Str("")), FieldOr(op, "operationId", Str("")),
      ps, GroupBy(ParamsWithValues(ps, env)))
  }

  /** The entries of one path, one per method, in order. */
  function OperationEntries(schema: Fields, env: seq<Json>, uri: string, ops: Fields): (r: seq<PathEntry>)
    ensures |r| == |ops|
    decreases |ops|
  {
    if ops == [] then []
    else
      var last := ops[|ops| - 1];
      OperationEntries(schema, env, uri, ops[..|ops| - 1]) + [Entry(schema, env, uri, last.0, last.1)]
  }

  /** The entries of every path, in document order. */
  function PathEntries(schema: Fields, env: seq<Json>, paths: Fields): seq<PathEntry>
    decreases |paths|
  {
    if paths == [] then []
    else
      var last := paths[|paths| - 1];
      PathEntries(schema, env, paths[..|paths| - 1])
        + OperationEntries(schema, env, BaseUri(schema, env, last.0), AsFields(last.1))
  }

  lemma OperationEntriesSnoc(schema: Fields, env: seq<Json>, uri: string, ops: Fields, j: nat)
    requires j < |ops|
    ensures OperationEntries(schema, env, uri, ops[..j + 1]) ==
      OperationEntries(schema, env, uri, ops[..j]) + [Entry(schema, env, uri, ops[j].0, ops[j].1)]
  {
    assert ops[..j + 1][..j] == ops[..j];
  }

  lemma PathEntriesSnoc(schema: Fields, env: seq<Json>, paths: Fields, i: nat)
    requires i < |paths|
    ensures PathEntries(schema, env, paths[..i + 1]) ==
      PathEntries(schema, env, paths[..i]) + OperationEntries(schema, env, BaseUri(schema, env, paths[i].0), AsFields(paths[i].1))
  {
    assert paths[..i + 1][..i] == paths[..i];
  }

  function PathsOf(schema: Fields): Fields {
    AsFields(Get(schema, "paths").GetOr(Null))
  }

  /** `getPathData()` */
  function PathData(schema: Fields, env: seq<Json>): seq<PathEntry> {
    PathEntries(schema, env, PathsOf(schema))
  }

  /** The declared parameters come first and keep their order. */
  lemma OperationParamsDeclaredFirst(schema: Fields, op: Json)
    ensures var declared := Members(Field(op, "parameters").GetOr(Null));
      |declared| <= |OperationParams(schema, op)| && OperationParams(schema, op)[..|declared|] == declared
  {
    var declared := Members(Field(op, "parameters").GetOr(Null));
    assert (declared + SecurityParams(schema, SecurityRules(op)))[..|declared|] == declared;
  }

  /** A requirement naming one defined scheme contributes that scheme's definition. */
  lemma RuleParamsSingle(schema: Fields, name: string, value: Json)
    requires SecurityParam(schema, name).Some? && Truthy(SecurityParam(schema, name).value)
    ensures RuleParams(schema, [(name, value)]) == [SecurityParam(schema, name).value]
  {
    assert [(name, value)][..0] == [];
  }

  /** A requirement naming only an undefined scheme contributes nothing. */
  lemma RuleParamsUnknown(schema: Fields, name: string, value: Json)
    requires SecurityParam(schema, name).None?
    ensures RuleParams(schema, [(name, value)]) == []
  {
    assert [(name, value)][..0] == [];
  }

  /** There is one entry per method of every path. */
  lemma {:induction false} PathEntriesCount(schema: Fields, env: seq<Json>, paths: Fields)
    ensures |PathEntries(schema, env, paths)| == OperationCount(paths)
    decreases |paths|
  {
    if paths != [] {
      PathEntriesCount(schema, env, paths[..|paths| - 1]);
    }
  }

  function OperationCount(paths: Fields): nat
    decreases |paths|
  {
    if paths == [] then 0 else OperationCount(paths[..|paths| - 1]) + |AsFields(paths[|paths| - 1].1)|
  }

  /**
   * An entry takes its URI from its path, its method from its key, its
   * parameters with the security definitions added, and groups the
   * substituted parameters by location.
   */
  lemma {:induction false} OperationEntriesAt(schema: Fields, env: seq<Json>, uri: string, ops: Fields, j: nat)
    requires j < |ops|
    ensures OperationEntries(schema, env, uri, ops)[j] == Entry(schema, env, uri, ops[j].0, ops[j].1)
    decreases |ops|
  {
    if j < |ops| - 1 {
      OperationEntriesAt(schema, env, uri, ops[..|ops| - 1], j);
    }
  }

  // ---------------------------------------------------------------------
  // The reader
  // ---------------------------------------------------------------------

  class PostmanCollectionReader {
    /** The Postman-flavoured document, as `readSchemaFile` parsed it. */
    var schema: Fields
    /** The environment's `values`, as `readEnvironmentFile` stored them. */
    var env: Json

    /** `readSchemaFile()` with the parsed document as input; the environment is not read yet. */
    constructor(document: Fields)
      ensures schema == document && env == Null
    {
      schema := document;
      env := Null;
    }

    /** `readEnvironmentFile()` with the decoded file as input: its `values` must be set. */
    method ReadEnvironmentFile(content: Json) returns (r: Outcome<ReaderError>)
      modifies this
      ensures schema == old(schema)
      ensures IsSet(content, "values") ==> r == Pass && env == Field(content, "values").value
      ensures !IsSet(content, "values") ==> r == Fail(NoValues) && env == old(env)
    {
      if IsSet(content, "values") {
        env := Field(content, "values").value;
        r := Pass;
      } else {
        r := Fail(NoValues);
      }
    }

    /** `getPathVersion()` */
    method GetPathVersion() returns (version: string)
      ensures version == PathVersion(Text(Get(schema, "basePath").GetOr(Null)))
    {
      version := PathVersion(Text(Get(schema, "basePath").GetOr(Null)));
    }

    /** `parseEnvVariable($s)`: a search over the environment that stops at the first equal key. */
    method ParseEnvVariable(s: Json) returns (r: Json)
      ensures r == ParsedEnv(s, Members(env))
    {
      if !Contains(Text(s), "{{") {
        return s;
      }
      var name := Trim(Text(s), EnvTrim);
      var entries := Members(env);
      r := Str(name);
      var i := 0;
      while i < |entries|
        invariant 0 <= i <= |entries|
        invariant EnvValue(entries, name) == EnvValue(entries[i..], name)
        invariant r == Str(name)
      {
        if KeyIs(entries[i], name) {
          r := ValueOf(entries[i]);
          return;
        }
        assert entries[i..][1..] == entries[i + 1..];
        i := i + 1;
      }
    }

    /** `getSecurityParamByName($name)`: a search over the definitions that returns the first equal key. */
    method GetSecurityParamByName(name: string) returns (r: Option<Json>)
      ensures r == SecurityParam(schema, name)
    {
      var defs := Get(schema, "securityDefinitions");
      if defs.None? || !Truthy(defs.value) {
        return None;
      }
      var fs := AsFields(defs.value);
      var i := 0;
      while i < |fs|
        invariant 0 <= i <= |fs|
        invariant Get(fs, name) == Get(fs[i..], name)
      {
        if fs[i].0 == name {
          return Some(fs[i].1);
        }
        assert fs[i..][1..] == fs[i + 1..];
        i := i + 1;
      }
      return None;
    }

    /** `getBaseUri($path)` */
    method GetBaseUri(path: string) returns (uri: string)
      ensures uri == BaseUri(schema, Members(env), path)
    {
      var base := ParseEnvVariable(Get(schema, "basePath").GetOr(Null));
      uri := Text(base);
      if !EmptyStr(path) {
        var p := ParseEnvVariable(Str(path));
        uri := uri + Text(p);
      }
    }

    /** The closure of `parseParamEnvVariables` up to the assignment of `param_value`. */
    method ParamValueOf(p: Json) returns (value: Json)
      ensures value == ParamValue(p, Members(env))
    {
      value := Str("");
      if IsSet(p, "example") {
        value := ParseEnvVariable(Field(p, "example").value);
      } else if IsSet(Field(p, "schema").GetOr(Null), "example") {
        value := ParseEnvVariable(Field(Field(p, "schema").value, "example").value);
      }
    }

    /** `parseParamEnvVariables($params)`: the map over the parameters. */
    method ParseParamEnvVariables(ps: seq<Json>) returns (r: seq<Json>)
      ensures r == ParamsWithValues(ps, Members(env))
    {
      ghost var e := Members(env);
      r := [];
      var i := 0;
      while i < |ps|
        invariant 0 <= i <= |ps|
        invariant r == ParamsWithValues(ps[..i], e)
      {
        var value := ParamValueOf(ps[i]);
        ParamsWithValuesSnoc(ps, e, i);
        r := r + [Obj(Put(AsFields(ps[i]), "param_value", value))];
        i := i + 1;
      }
      assert ps[..i] == ps;
    }

    /** The inner `foreach ($secRule as $key => ...)` loop. */
    method AddRuleParams(rule: Fields, parameters: seq<Json>) returns (r: seq<Json>)
      ensures r == parameters + RuleParams(schema, rule)
    {
      r := parameters;
      var k := 0;
      while k < |rule|
        invariant 0 <= k <= |rule|
        invariant r == parameters + RuleParams(schema, rule[..k])
      {
        RuleParamsNext(schema, rule, k);
        ghost var done := RuleParams(schema, rule[..k]);
        var param := GetSecurityParamByName(rule[k].0);
        if param.Some? && Truthy(param.value) {
          AppendAssoc(parameters, done, [param.value]);
          r := r + [param.value];
        } else {
          assert done + [] == done;
        }
        k := k + 1;
      }
      assert rule[..k] == rule;
    }

    /** The security loop of `getPathData()` for one operation. */
    method AddSecurityParams(rules: seq<Json>, parameters: seq<Json>) returns (r: seq<Json>)
      ensures r == parameters + SecurityParams(schema, rules)
    {
      r := parameters;
      var k := 0;
      while k < |rules|
        invariant 0 <= k <= |rules|
        invariant r == parameters + SecurityParams(schema, rules[..k])
      {
        assert rules[..k + 1][..k] == rules[..k];
        ghost var done := SecurityParams(schema, rules[..k]);
        r := AddRuleParams(AsFields(rules[k]), r);
        AppendAssoc(parameters, done, RuleParams(schema, AsFields(rules[k])));
        k := k + 1;
      }
      assert rules[..k] == rules;
    }

    /** The body of the inner `foreach ($pathOperations as $method => $methodValues)` loop. */
    method OperationEntry(uri: string, verb: string, op: Json) returns (e: PathEntry)
      ensures e == Entry(schema, Members(env), uri, verb, op)
    {
      var parameters := Members(Field(op, "parameters").GetOr(Null));
      if IsSet(op, "security") {
        parameters := AddSecurityParams(Members(Field(op, "security").value), parameters);
      }
      var substituted := ParseParamEnvVariables(parameters);
      e := PathEntry(uri, verb, FieldOr(op, "tags", Null), FieldOr(op, "summary", Null),
        FieldOr(op, "description", Str("")), FieldOr(op, "operationId", Str("")),
        parameters, GroupBy(substituted));
    }

    /** The inner `foreach ($pathOperations as $method => $methodValues)` loop. */
    method PathOperationEntries(uri: string, ops: Fields) returns (entries: seq<PathEntry>)
      ensures entries == OperationEntries(schema, Members(env), uri, ops)
    {
      ghost var vars := Members(env);
      entries := [];
      var j := 0;
      while j < |ops|
        invariant 0 <= j <= |ops|
        invariant entries == OperationEntries(schema, vars, uri, ops[..j])
      {
        var e := OperationEntry(uri, ops[j].0, ops[j].1);
        OperationEntriesSnoc(schema, vars, uri, ops, j);
        entries := entries + [e];
        j := j + 1;
      }
      assert ops[..j] == ops;
    }

    /** `getPathData()` */
    method GetPathData() returns (output: seq<PathEntry>)
      ensures output == PathData(schema, Members(env))
    {
      var paths := PathsOf(schema);
      output := [];
      var i := 0;
      while i < |paths|
        invariant 0 <= i <= |paths|
        invariant output == PathEntries(schema, Members(env), paths[..i])
      {
        PathEntriesSnoc(schema, Members(env), paths, i);
        var fullPath := GetBaseUri(paths[i].0);
        var entries := PathOperationEntries(fullPath, AsFields(paths[i].1));
        output := output + entries;
        i := i + 1;
      }
      assert paths[..i] == paths;
    }
  }
}
