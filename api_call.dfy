/**
 * One documented endpoint (`APICall`): its fields, the `setParams`
 * shorthand loop, header upsert, response examples, the memoised
 * operation id and the apiDoc comment block it renders.
 *
 * PHP's null is written as "" for the string fields (name, route, group,
 * description, success objects, operation id): every reader of those
 * fields treats null and "" alike (`empty()`, interpolation, `?? ''`).
 */
module ApiCalls {
  import opened Wrappers
  import opened Strings
  import opened JsonValues
  import opened Framework
  import opened Params

  const ConsumeJson := "application/json"
  const ConsumeMultipartForm := "multipart/form-data"
  const ConsumeFormUrlencoded := "application/x-www-form-urlencoded"

  /** `setDefine($title, $description)`: this call is a fragment other calls can `use`. */
  datatype Define = Define(title: string, description: string)

  /** One entry of `successExamples`/`errorExamples`. */
  datatype ResponseExample = ResponseExample(text: string, statusCode: string, message: string)

  /** An element of `successParams`: a `Param` or a raw apiDoc text. */
  datatype DocEntry = Typed(param: ParamRecord) | Raw(text: string)

  /** An element given to `setParams`: a shorthand string, a `Param`, or anything else. */
  datatype ParamInput = Shorthand(text: string) | Given(param: ParamRecord) | NotAParam

  /** The exceptions thrown while building or rendering a call. */
  datatype DocError =
    | InvalidParam          // setParams: neither a string nor a Param
    | MissingFieldName      // getApiDoc: a Param with an empty name
    | NullDescription       // getApiDoc: `getDescription(): string` on a null description

  /** The state of an `APICall`. */
  datatype CallRecord = CallRecord(
    version: string,
    httpMethod: string,
    name: string,
    route: string,
    group: string,
    params: seq<ParamRecord>,
    description: string,
    successParams: seq<DocEntry>,
    requestExample: Json,
    headers: seq<ParamRecord>,
    define: Option<Define>,
    use: seq<string>,
    addDefaultHeaders: bool,
    successExamples: seq<ResponseExample>,
    errorExamples: seq<ResponseExample>,
    successObject: string,
    successPaginatedObject: string,
    operationId: string,
    consumes: seq<string>)

  /** The field defaults of a new `APICall`. */
  function NewCall(): CallRecord {
    CallRecord("1.0.0", "", "", "", "", [], "", [], Arr([]), [], None, [], true, [], [], "", "", "", [])
  }

  // ---------------------------------------------------------------- setParams

  /** The parameter one element of `setParams` stands for. */
  function ParamOf(input: ParamInput, fw: Helpers): ParamRecord
    requires !input.NotAParam?
  {
    match input
    case Shorthand(text) => ParseShorthand(text, fw)
    case Given(p) => p
  }

  /** The list `setParams` stores, or the exception it throws. */
  function ParsedParams(inputs: seq<ParamInput>, fw: Helpers): (r: Result<seq<ParamRecord>, DocError>)
    ensures r.Success? <==> forall i :: 0 <= i < |inputs| ==> !inputs[i].NotAParam?
    ensures r.Failure? ==> r.error == InvalidParam
    ensures r.Success? ==> |r.value| == |inputs|
    ensures r.Success? ==> forall i :: 0 <= i < |inputs| ==> r.value[i] == ParamOf(inputs[i], fw)
    decreases |inputs|
  {
    if inputs == [] then Success([])
    else
      var last := inputs[|inputs| - 1];
      var front := ParsedParams(inputs[..|inputs| - 1], fw);
      if front.Failure? then front
      else if last.NotAParam? then Failure(InvalidParam)
      else Success(front.value + [ParamOf(last, fw)])
  }

  /** `new Param($args[0])` followed by the segment loop of `setParams`. */
  method ParseParamObject(text: string, fw: Helpers) returns (p: Param)
    ensures fresh(p)
    ensures p.Record() == ParseShorthand(text, fw)
  {
    var args := Split(text, '|');
    p := new Param(args[0], TypeString, None, None, fw);
    var i := 1;
    while i < |args|
      invariant 1 <= i <= |args|
      invariant p.Record() == ApplySegments(NewParam(args[0], TypeString, None, None, fw), args[1..i], fw)
      modifies p
    {
      ApplySegmentTo(p, args[i], fw);
      assert args[1..i + 1] == args[1..i] + [args[i]];
      ApplySegmentsSnoc(NewParam(args[0], TypeString, None, None, fw), args[1..i], args[i], fw);
      i := i + 1;
    }
    assert args[1..i] == args[1..];
  }

  // ---------------------------------------------------------------- headers

  /** Every header named like `h` replaced by `h`, in place. */
  function ReplaceNamed(hs: seq<ParamRecord>, h: ParamRecord): (r: seq<ParamRecord>)
    ensures |r| == |hs|
    ensures forall j :: 0 <= j < |hs| ==> r[j] == if hs[j].name == h.name then h else hs[j]
  {
    seq(|hs|, j requires 0 <= j < |hs| => if hs[j].name == h.name then h else hs[j])
  }

  predicate HasNamed(hs: seq<ParamRecord>, n: string) {
    exists j :: 0 <= j < |hs| && hs[j].name == n
  }

  /** The header list after `addHeader($h, $allowDuplicate)`. */
  function AddedHeader(hs: seq<ParamRecord>, h: ParamRecord, allowDuplicate: bool): seq<ParamRecord> {
    if !allowDuplicate && HasNamed(hs, h.name) then ReplaceNamed(hs, h) else hs + [h]
  }

  predicate UniqueNames(hs: seq<ParamRecord>) {
    forall i, j :: 0 <= i < j < |hs| ==> hs[i].name != hs[j].name
  }

  /** Upsert without duplicates: one header per name, the new one in place of the old or at the end. */
  lemma AddedHeaderUpsert(hs: seq<ParamRecord>, h: ParamRecord)
    ensures var r := AddedHeader(hs, h, false);
      && (HasNamed(hs, h.name) ==> |r| == |hs|)
      && (!HasNamed(hs, h.name) ==> r == hs + [h])
      && HasNamed(r, h.name)
      && (forall j :: 0 <= j < |r| && r[j].name == h.name ==> r[j] == h)
      && (forall j :: 0 <= j < |hs| && hs[j].name != h.name ==> r[j] == hs[j])
  {
    var r := AddedHeader(hs, h, false);
    if HasNamed(hs, h.name) {
      var j :| 0 <= j < |hs| && hs[j].name == h.name;
      assert r[j] == h;
    } else {
      assert r[|hs|] == h;
    }
  }

  /** Upsert keeps names unique. */
  lemma AddedHeaderUnique(hs: seq<ParamRecord>, h: ParamRecord)
    requires UniqueNames(hs)
    ensures UniqueNames(AddedHeader(hs, h, false))
  {
    var r := AddedHeader(hs, h, false);
    if !HasNamed(hs, h.name) {
      assert r == hs + [h];
      assert forall i :: 0 <= i < |hs| ==> r[i] == hs[i] && r[i].name != h.name;
    }
  }

  /** Adding the same header twice without duplicates is the same as adding it once. */
  lemma AddedHeaderIdempotent(hs: seq<ParamRecord>, h: ParamRecord)
    ensures AddedHeader(AddedHeader(hs, h, false), h, false) == AddedHeader(hs, h, false)
  {
    var r := AddedHeader(hs, h, false);
    AddedHeaderUpsert(hs, h);
    assert HasNamed(r, h.name);
    var r2 := AddedHeader(r, h, false);
    assert r2 == ReplaceNamed(r, h);
    assert |r2| == |r|;
    assert forall j :: 0 <= j < |r| ==> r2[j] == r[j];
  }

  /** `addHeader` with duplicates allowed always appends. */
  lemma AddedHeaderDuplicate(hs: seq<ParamRecord>, h: ParamRecord)
    ensures AddedHeader(hs, h, true) == hs + [h]
  {
  }

  /** The headers after `setHeaders($hs)`: each one added in order. */
  function AddedHeaders(hs: seq<ParamRecord>, added: seq<ParamRecord>): seq<ParamRecord>
    decreases |added|
  {
    if added == [] then hs
    else AddedHeader(AddedHeaders(hs, added[..|added| - 1]), added[|added| - 1], false)
  }

  /** `setHeaders` keeps header names unique. */
  lemma {:induction false} AddedHeadersUnique(hs: seq<ParamRecord>, added: seq<ParamRecord>)
    requires UniqueNames(hs)
    ensures UniqueNames(AddedHeaders(hs, added))
    decreases |added|
  {
    if added != [] {
      AddedHeadersUnique(hs, added[..|added| - 1]);
      AddedHeaderUnique(AddedHeaders(hs, added[..|added| - 1]), added[|added| - 1]);
    }
  }

  /** What `getDataType`'s caller sees once `addHeader` forced the location. */
  function AsHeader(p: ParamRecord): ParamRecord {
    p.(location := Some(LocationHeader))
  }

  /** The headers `setHeaders` stores for a list of `Param` objects. */
  function HeaderRecords(hs: seq<Param>): (r: seq<ParamRecord>)
    reads hs
    ensures |r| == |hs|
    ensures forall j :: 0 <= j < |hs| ==> r[j] == AsHeader(hs[j].Record())
  {
    seq(|hs|, j requires 0 <= j < |hs| reads hs => AsHeader(hs[j].Record()))
  }

  // ---------------------------------------------------------------- examples

  /** `getStatusTextByCode($code, $text)`: a truthy explicit message, else the status table, else `Unknown`. */
  function StatusLabel(code: string, text: Option<string>, fw: Helpers): (r: string)
    ensures text.Some? && !EmptyStr(text.value) ==> r == text.value
    ensures (text.None? || EmptyStr(text.value)) && fw.statusText(code).Some? ==> r == fw.statusText(code).value
    ensures (text.None? || EmptyStr(text.value)) && fw.statusText(code).None? ==> r == "Unknown"
  {
    if text.Some? && !EmptyStr(text.value) then text.value
    else fw.statusText(code).GetOr("Unknown")
  }

  /** Status codes beginning with `2` are success responses. */
  predicate IsSuccessCode(code: string) {
    StartsWith(code, "2")
  }

  /** The examples that the stored responses of one kind become, in order. */
  function StoredExamples(stored: seq<(string, string)>, success: bool, fw: Helpers): (r: seq<ResponseExample>)
    ensures |r| <= |stored|
    decreases |stored|
  {
    if stored == [] then []
    else
      var front := StoredExamples(stored[..|stored| - 1], success, fw);
      var (code, content) := stored[|stored| - 1];
      if IsSuccessCode(code) == success then front + [ResponseExample(content, code, StatusLabel(code, None, fw))]
      else front
  }

  /** Each example is of the requested kind and comes from a stored response, labelled from the status table. */
  lemma {:induction false} StoredExamplesSpec(stored: seq<(string, string)>, success: bool, fw: Helpers)
    ensures forall e :: e in StoredExamples(stored, success, fw) ==>
      && IsSuccessCode(e.statusCode) == success
      && (e.statusCode, e.text) in stored
      && e.message == StatusLabel(e.statusCode, None, fw)
    decreases |stored|
  {
    if stored != [] {
      var init := stored[..|stored| - 1];
      StoredExamplesSpec(init, success, fw);
      var (code, content) := stored[|stored| - 1];
      var front := StoredExamples(init, success, fw);
      forall e | e in StoredExamples(stored, success, fw)
        ensures IsSuccessCode(e.statusCode) == success
        ensures (e.statusCode, e.text) in stored
        ensures e.message == StatusLabel(e.statusCode, None, fw)
      {
        if e in front {
          assert (e.statusCode, e.text) in init;
        } else {
          assert e == ResponseExample(content, code, StatusLabel(code, None, fw));
          assert stored[|stored| - 1] == (code, content);
        }
      }
    }
  }

  /** Every stored response becomes exactly one example, success or error. */
  lemma {:induction false} StoredExamplesPartition(stored: seq<(string, string)>, fw: Helpers)
    ensures |StoredExamples(stored, true, fw)| + |StoredExamples(stored, false, fw)| == |stored|
    decreases |stored|
  {
    if stored != [] {
      StoredExamplesPartition(stored[..|stored| - 1], fw);
    }
  }

  // ---------------------------------------------------------------- operation id

  /** The non-empty values of group, method and name, in that order. */
  function OperationIdParts(group: string, httpMethod: string, name: string): seq<string> {
    (if EmptyStr(group) then [] else [group])
    + (if EmptyStr(httpMethod) then [] else [httpMethod])
    + (if EmptyStr(name) then [] else [name])
  }

  /** The id derived when none is stored; `token` stands for `Str::random(10)`. */
  function DerivedOperationId(c: CallRecord, fw: Helpers, token: string): string {
    var joined := Join(OperationIdParts(c.group, c.httpMethod, c.name), "_");
    fw.snake(Lower(if EmptyStr(joined) then token else joined))
  }

  /** What `getOperationId()` returns. */
  function OperationIdOf(c: CallRecord, fw: Helpers, token: string): string {
    if EmptyStr(c.operationId) then DerivedOperationId(c, fw, token) else c.operationId
  }

  /** The random fallback is used exactly when group, method and name are all empty. */
  lemma OperationIdFallback(group: string, httpMethod: string, name: string)
    ensures EmptyStr(Join(OperationIdParts(group, httpMethod, name), "_"))
      <==> EmptyStr(group) && EmptyStr(httpMethod) && EmptyStr(name)
  {
    var parts := OperationIdParts(group, httpMethod, name);
    if |parts| >= 2 {
      var j := Join(parts, "_");
      assert j == parts[0] + "_" + Join(parts[1..], "_");
      assert j[|parts[0]|] == '_';
    } else if |parts| == 1 {
      assert Join(parts, "_") == parts[0];
    }
  }

  /** With group, method and name all given, the id is built from `group_method_name`. */
  lemma OperationIdAllParts(c: CallRecord, fw: Helpers, token: string)
    requires EmptyStr(c.operationId)
    requires !EmptyStr(c.group) && !EmptyStr(c.httpMethod) && !EmptyStr(c.name)
    ensures OperationIdOf(c, fw, token) == fw.snake(Lower(c.group + "_" + c.httpMethod + "_" + c.name))
  {
    var parts := OperationIdParts(c.group, c.httpMethod, c.name);
    assert parts == [c.group, c.httpMethod, c.name];
    assert parts[1..] == [c.httpMethod, c.name];
    assert parts[1..][1..] == [c.name];
    assert Join(parts[1..], "_") == c.httpMethod + "_" + c.name;
    assert Join(parts, "_") == c.group + "_" + (c.httpMethod + "_" + c.name);
    assert Join(parts, "_") == c.group + "_" + c.httpMethod + "_" + c.name;
    OperationIdFallback(c.group, c.httpMethod, c.name);
    assert DerivedOperationId(c, fw, token) == fw.snake(Lower(Join(parts, "_")));
  }

  /** Once cached, the id comes back unchanged whatever the random fallback would give. */
  lemma OperationIdCached(c: CallRecord, fw: Helpers, t1: string, t2: string)
    requires !EmptyStr(OperationIdOf(c, fw, t1))
    ensures OperationIdOf(c.(operationId := OperationIdOf(c, fw, t1)), fw, t2) == OperationIdOf(c, fw, t1)
  {
  }

  /** An id given to `setOperationId` is returned verbatim. */
  lemma OperationIdGiven(c: CallRecord, id: string, fw: Helpers, token: string)
    requires !EmptyStr(id)
    ensures OperationIdOf(c.(operationId := id), fw, token) == id
  {
  }

  // ---------------------------------------------------------------- apiDoc

  /** `$fieldName`, bracketed when the parameter is optional. */
  function FieldLabel(p: ParamRecord): (r: string)
    ensures p.required ==> r == p.name
    ensures !p.required ==> |r| == |p.name| + 2 && r[0] == '[' && r[1..|r| - 1] == p.name && r[|r| - 1] == ']'
  {
    if p.required then p.name else "[" + p.name + "]"
  }

  /** The apiDoc line of one `Param` under `@tag`, or the exception it raises. */
  function ParamLine(tag: string, p: ParamRecord): (r: Result<string, DocError>)
    ensures r.Success? <==> !EmptyStr(p.name) && p.description.Some?
    ensures EmptyStr(p.name) ==> r == Failure(MissingFieldName)
  {
    if EmptyStr(p.name) then Failure(MissingFieldName)
    else if p.description.None? then Failure(NullDescription)
    else Success("@" + tag + " {" + Ucfirst(p.dataType) + "} " + FieldLabel(p) + " " + p.description.value)
  }

  predicate Renderable(p: ParamRecord) {
    !EmptyStr(p.name) && p.description.Some?
  }

  /** Every `Param` of a non-empty list renders when those before the last and the last one do. */
  lemma AllRenderableSnoc(ps: seq<ParamRecord>, init: seq<ParamRecord>)
    requires ps != [] && init == ps[..|ps| - 1]
    ensures (forall i :: 0 <= i < |ps| ==> Renderable(ps[i])) <==>
      (forall i :: 0 <= i < |init| ==> Renderable(init[i])) && Renderable(ps[|ps| - 1])
  {
    assert forall i :: 0 <= i < |init| ==> init[i] == ps[i];
  }

  /** The lines of a list of `Param`s, or the first exception. */
  function ParamLines(tag: string, ps: seq<ParamRecord>): (r: Result<seq<string>, DocError>)
    ensures r.Success? <==> forall i :: 0 <= i < |ps| ==> Renderable(ps[i])
    ensures r.Success? ==> |r.value| == |ps|
    decreases |ps|
  {
    if ps == [] then Success([])
    else
      var front := ParamLines(tag, ps[..|ps| - 1]);
      AllRenderableSnoc(ps, ps[..|ps| - 1]);
      if front.Failure? then front
      else
        var line := ParamLine(tag, ps[|ps| - 1]);
        if line.Failure? then Failure(line.error) else Success(front.value + [line.value])
  }

  function EntryLine(e: DocEntry): Result<string, DocError> {
    match e
    case Typed(p) => ParamLine("apiSuccess", p)
    case Raw(text) => Success("@apiSuccess " + text)
  }

  predicate EntryRenderable(e: DocEntry) {
    e.Raw? || Renderable(e.param)
  }

  /** The lines of `successParams`, where raw texts pass through. */
  function EntryLines(es: seq<DocEntry>): (r: Result<seq<string>, DocError>)
    ensures r.Success? <==> forall i :: 0 <= i < |es| ==> EntryRenderable(es[i])
    ensures r.Success? ==> |r.value| == |es|
    decreases |es|
  {
    if es == [] then Success([])
    else
      var front := EntryLines(es[..|es| - 1]);
      assert forall i :: 0 <= i < |es| - 1 ==> es[..|es| - 1][i] == es[i];
      if front.Failure? then front
      else
        var line := EntryLine(es[|es| - 1]);
        if line.Failure? then Failure(line.error) else Success(front.value + [line.value])
  }

  /** The opening lines: define, description, version, the endpoint line and the group. */
  function HeadLines(c: CallRecord): seq<string> {
    ["###"]
    + (if c.define.Some? then ["@apiDefine " + c.define.value.title + " " + c.define.value.description] else [])
    + (if EmptyStr(c.description) then [] else ["@apiDescription " + c.description])
    + ["@apiVersion " + c.version,
       "@api {" + c.httpMethod + "} " + c.route + " " + c.name,
       "@apiGroup " + Ucwords(c.group)]
  }

  function UseLines(use: seq<string>): (r: seq<string>)
    ensures |r| == |use|
    ensures forall i :: 0 <= i < |use| ==> r[i] == "@apiUse " + use[i]
  {
    seq(|use|, i requires 0 <= i < |use| => "@apiUse " + use[i])
  }

  /** The request example, when there is one; a failed `json_encode` gives an empty line. */
  function RequestExampleLines(example: Json, fw: Helpers): seq<string> {
    if Truthy(example) then ["@apiParamExample {json} Request Example ", fw.jsonEncode(example).GetOr("")] else []
  }

  function ExampleLines(es: seq<ResponseExample>, header: string): (r: seq<string>)
    ensures |r| == 2 * |es|
    decreases |es|
  {
    if es == [] then []
    else
      var e := es[|es| - 1];
      ExampleLines(es[..|es| - 1], header) + [header + e.statusCode + " " + e.message, e.text]
  }

  const SuccessExampleHeader := "@apiSuccessExample {json} Success-Response / HTTP "
  const ErrorExampleHeader := "@apiErrorExample {json} Error-Response / HTTP "

  /** The lines that come before the examples, or the exception thrown while writing them. */
  function DocBody(c: CallRecord, fw: Helpers): (r: Result<seq<string>, DocError>)
    ensures r.Success? <==>
      && (forall i :: 0 <= i < |c.params| ==> Renderable(c.params[i]))
      && (forall i :: 0 <= i < |c.successParams| ==> EntryRenderable(c.successParams[i]))
      && (forall i :: 0 <= i < |c.headers| ==> Renderable(c.headers[i]))
  {
    var p :- ParamLines("apiParam", c.params);
    var s :- EntryLines(c.successParams);
    var h :- ParamLines("apiHeader", c.headers);
    Success(HeadLines(c) + p + s + h + UseLines(c.use) + RequestExampleLines(c.requestExample, fw))
  }

  /** The whole comment block from the body and the examples, joined by CRLF. */
  function DocText(body: seq<string>, c: CallRecord): string {
    Join(body + ExampleLines(c.successExamples, SuccessExampleHeader)
      + ExampleLines(c.errorExamples, ErrorExampleHeader) + ["###"], "\r\n")
  }

  /** The state after `addStoredApiResponses()`, given what `getStoredApiResponses()` found. */
  function WithStoredResponses(c: CallRecord, stored: seq<(string, string)>, fw: Helpers, token: string): CallRecord {
    if c.successExamples != [] then c
    else c.(operationId := OperationIdOf(c, fw, token),
            successExamples := StoredExamples(stored, true, fw),
            errorExamples := c.errorExamples + StoredExamples(stored, false, fw))
  }

  /** The first and last pieces of an `implode` with at least two pieces. */
  lemma {:induction false} JoinEnds(parts: seq<string>, sep: string)
    requires |parts| >= 2
    ensures StartsWith(Join(parts, sep), parts[0] + sep)
    ensures EndsWith(Join(parts, sep), sep + parts[|parts| - 1])
    decreases |parts|
  {
    var j := Join(parts, sep);
    assert j == parts[0] + sep + Join(parts[1..], sep);
    assert j[..|parts[0] + sep|] == parts[0] + sep;
    if |parts| == 2 {
      assert Join(parts[1..], sep) == parts[1];
      assert j[|j| - |sep + parts[1]|..] == sep + parts[1];
    } else {
      JoinEnds(parts[1..], sep);
      var tail := Join(parts[1..], sep);
      assert tail[|tail| - |sep + parts[|parts| - 1]|..] == sep + parts[|parts| - 1];
      assert j[|j| - |sep + parts[|parts| - 1]|..] == tail[|tail| - |sep + parts[|parts| - 1]|..];
    }
  }

  /** The comment block opens and closes with `###` lines. */
  lemma DocTextFrame(body: seq<string>, c: CallRecord)
    requires |body| >= 1 && body[0] == "###"
    ensures StartsWith(DocText(body, c), "###\r\n")
    ensures EndsWith(DocText(body, c), "\r\n###")
  {
    var lines := body + ExampleLines(c.successExamples, SuccessExampleHeader)
      + ExampleLines(c.errorExamples, ErrorExampleHeader) + ["###"];
    assert lines[0] == "###" && lines[|lines| - 1] == "###";
    JoinEnds(lines, "\r\n");
  }

  /** The body always starts with the `###` line. */
  lemma DocBodyOpens(c: CallRecord, fw: Helpers)
    requires DocBody(c, fw).Success?
    ensures |DocBody(c, fw).value| >= 1 && DocBody(c, fw).value[0] == "###"
  {
  }

  /** The loop of `getApiDoc` over a list of `Param`s, stopping at the first exception. */
  method RenderParams(tag: string, ps: seq<ParamRecord>) returns (r: Result<seq<string>, DocError>)
    ensures r == ParamLines(tag, ps)
  {
    var lines: seq<string> := [];
    var i := 0;
    while i < |ps|
      invariant 0 <= i <= |ps|
      invariant ParamLines(tag, ps[..i]) == Success(lines)
    {
      assert ps[..i + 1][..i] == ps[..i];
      var line := ParamLine(tag, ps[i]);
      if line.Failure? {
        ParamLinesFailure(tag, ps, i + 1);
        return Failure(line.error);
      }
      lines := lines + [line.value];
      i := i + 1;
    }
    assert ps[..i] == ps;
    r := Success(lines);
  }

  /** Once a prefix fails, the whole list fails with the same exception. */
  lemma {:induction false} ParamLinesFailure(tag: string, ps: seq<ParamRecord>, k: nat)
    requires k <= |ps| && ParamLines(tag, ps[..k]).Failure?
    ensures ParamLines(tag, ps) == ParamLines(tag, ps[..k])
    decreases |ps| - k
  {
    if k < |ps| {
      assert ps[..k + 1][..k] == ps[..k];
      ParamLinesFailure(tag, ps, k + 1);
    } else {
      assert ps[..k] == ps;
    }
  }

  /** The loop of `getApiDoc` over `successParams`. */
  method RenderEntries(es: seq<DocEntry>) returns (r: Result<seq<string>, DocError>)
    ensures r == EntryLines(es)
  {
    var lines: seq<string> := [];
    var i := 0;
    while i < |es|
      invariant 0 <= i <= |es|
      invariant EntryLines(es[..i]) == Success(lines)
    {
      assert es[..i + 1][..i] == es[..i];
      var line := EntryLine(es[i]);
      if line.Failure? {
        EntryLinesFailure(es, i + 1);
        return Failure(line.error);
      }
      lines := lines + [line.value];
      i := i + 1;
    }
    assert es[..i] == es;
    r := Success(lines);
  }

  lemma {:induction false} EntryLinesFailure(es: seq<DocEntry>, k: nat)
    requires k <= |es| && EntryLines(es[..k]).Failure?
    ensures EntryLines(es) == EntryLines(es[..k])
    decreases |es| - k
  {
    if k < |es| {
      assert es[..k + 1][..k] == es[..k];
      EntryLinesFailure(es, k + 1);
    } else {
      assert es[..k] == es;
    }
  }

  // ---------------------------------------------------------------- the object

  class APICall {
    var version: string
    var httpMethod: string
    var name: string
    var route: string
    var group: string
    var params: seq<ParamRecord>
    var description: string
    var successParams: seq<DocEntry>
    var requestExample: Json
    var headers: seq<ParamRecord>
    var define: Option<Define>
    var use: seq<string>
    var addDefaultHeaders: bool
    var successExamples: seq<ResponseExample>
    var errorExamples: seq<ResponseExample>
    var successObject: string
    var successPaginatedObject: string
    var operationId: string
    var consumes: seq<string>

    function Record(): CallRecord
      reads this
    {
      CallRecord(version, httpMethod, name, route, group, params, description, successParams,
        requestExample, headers, define, use, addDefaultHeaders, successExamples, errorExamples,
        successObject, successPaginatedObject, operationId, consumes)
    }

    constructor()
      ensures Record() == NewCall()
    {
      version := "1.0.0";
      httpMethod := "";
      name := "";
      route := "";
      group := "";
      params := [];
      description := "";
      successParams := [];
      requestExample := Arr([]);
      headers := [];
      define := None;
      use := [];
      addDefaultHeaders := true;
      successExamples := [];
      errorExamples := [];
      successObject := "";
      successPaginatedObject := "";
      operationId := "";
      consumes := [];
    }

    method SetRoute(r: string)
      modifies this
      ensures Record() == old(Record()).(route := r)
    {
      route := r;
    }

    method SetGroup(g: string)
      modifies this
      ensures Record() == old(Record()).(group := g)
    {
      group := g;
    }

    method SetMethod(m: string)
      modifies this
      ensures Record() == old(Record()).(httpMethod := m)
    {
      httpMethod := m;
    }

    method SetName(n: string)
      modifies this
      ensures Record() == old(Record()).(name := n)
    {
      name := n;
    }

    method SetDescription(d: string)
      modifies this
      ensures Record() == old(Record()).(description := d)
    {
      description := d;
    }

    /** `setRequestExample(array $e)` */
    method SetRequestExample(e: Json)
      requires e.Arr? || e.Obj?
      modifies this
      ensures Record() == old(Record()).(requestExample := e)
    {
      requestExample := e;
    }

    method SetSuccessParams(es: seq<DocEntry>)
      modifies this
      ensures Record() == old(Record()).(successParams := es)
    {
      successParams := es;
    }

    method SetVersion(v: string)
      modifies this
      ensures Record() == old(Record()).(version := v)
    {
      version := v;
    }

    /** `setDefine($title, $description = '')` */
    method SetDefine(title: string, desc: string)
      modifies this
      ensures Record() == old(Record()).(define := Some(Define(title, desc)))
    {
      define := Some(Define(title, desc));
    }

    /** `setUse($name)` appends to the fragments this call uses. */
    method SetUse(definedName: string)
      modifies this
      ensures Record() == old(Record()).(use := old(use) + [definedName])
    {
      use := use + [definedName];
    }

    method NoDefaultHeaders()
      modifies this
      ensures Record() == old(Record()).(addDefaultHeaders := false)
    {
      addDefaultHeaders := false;
    }

    method SetConsumes(cs: seq<string>)
      modifies this
      ensures Record() == old(Record()).(consumes := cs)
    {
      consumes := cs;
    }

    /** `hasFileUploads()`: the call consumes multipart form data only. */
    method HasFileUploads()
      modifies this
      ensures Record() == old(Record()).(consumes := [ConsumeMultipartForm])
    {
      SetConsumes([ConsumeMultipartForm]);
    }

    method SetSuccessObject(o: string)
      modifies this
      ensures Record() == old(Record()).(successObject := o)
    {
      successObject := o;
    }

    method SetSuccessPaginatedObject(o: string)
      modifies this
      ensures Record() == old(Record()).(successPaginatedObject := o)
    {
      successPaginatedObject := o;
    }

    method SetOperationId(id: string)
      modifies this
      ensures Record() == old(Record()).(operationId := id)
    {
      operationId := id;
    }

    /** `setParams($inputs)`: the list is replaced only when every element is a string or a Param. */
    method SetParams(inputs: seq<ParamInput>, fw: Helpers) returns (r: Outcome<DocError>)
      modifies this
      ensures ParsedParams(inputs, fw).Success? ==>
        r == Pass && Record() == old(Record()).(params := ParsedParams(inputs, fw).value)
      ensures ParsedParams(inputs, fw).Failure? ==>
        r == Fail(InvalidParam) && Record() == old(Record())
    {
      var temp: seq<ParamRecord> := [];
      var i := 0;
      while i < |inputs|
        invariant 0 <= i <= |inputs|
        invariant ParsedParams(inputs[..i], fw) == Success(temp)
        invariant Record() == old(Record())
      {
        assert inputs[..i + 1][..i] == inputs[..i];
        if inputs[i].NotAParam? {
          assert !(forall k :: 0 <= k < |inputs| ==> !inputs[k].NotAParam?);
          return Fail(InvalidParam);
        } else if inputs[i].Given? {
          temp := temp + [inputs[i].param];
        } else {
          var obj := ParseParamObject(inputs[i].text, fw);
          temp := temp + [obj.Record()];
        }
        i := i + 1;
      }
      assert inputs[..i] == inputs;
      params := temp;
      r := Pass;
    }

    /** `addHeader($p, $allowDuplicate)`: `$p` is moved to the header location, then upserted or appended. */
    method AddHeader(p: Param, allowDuplicate: bool)
      modifies this, p
      ensures p.Record() == AsHeader(old(p.Record()))
      ensures Record() == old(Record()).(headers := AddedHeader(old(headers), p.Record(), allowDuplicate))
    {
      p.SetLocation(LocationHeader);
      var h := p.Record();
      var isAdded := false;
      if !allowDuplicate {
        var hs := headers;
        var i := 0;
        while i < |hs|
          invariant 0 <= i <= |hs| && |hs| == |headers|
          invariant forall j :: 0 <= j < i ==> hs[j] == if headers[j].name == h.name then h else headers[j]
          invariant forall j :: i <= j < |hs| ==> hs[j] == headers[j]
          invariant isAdded <==> exists j :: 0 <= j < i && headers[j].name == h.name
        {
          if hs[i].name == h.name {
            hs := hs[i := h];
            isAdded := true;
          }
          i := i + 1;
        }
        assert isAdded <==> HasNamed(headers, h.name);
        if isAdded {
          assert hs == ReplaceNamed(headers, h);
        }
        headers := hs;
      }
      if !isAdded {
        headers := headers + [h];
      }
    }

    /** `setHeaders($hs)`: `addHeader` on each, without duplicates. */
    method SetHeaders(hs: seq<Param>)
      modifies this, hs
      ensures forall j :: 0 <= j < |hs| ==> hs[j].Record() == AsHeader(old(hs[j].Record()))
      ensures Record() == old(Record()).(headers := AddedHeaders(old(headers), old(HeaderRecords(hs))))
    {
      ghost var recs := HeaderRecords(hs);
      var i := 0;
      while i < |hs|
        invariant 0 <= i <= |hs|
        invariant forall j :: 0 <= j < |hs| ==> AsHeader(hs[j].Record()) == recs[j]
        invariant forall j :: 0 <= j < i ==> hs[j].Record() == recs[j]
        invariant Record() == old(Record()).(headers := AddedHeaders(old(headers), recs[..i]))
      {
        label before:
        AddHeader(hs[i], false);
        forall j | 0 <= j <= i
          ensures hs[j].Record() == recs[j]
        {
          if hs[j] != hs[i] {
            assert hs[j].Record() == old@before(hs[j].Record());
          }
        }
        assert recs[..i + 1][..i] == recs[..i];
        i := i + 1;
      }
      assert recs[..i] == recs;
    }

    /** `setSuccessExample($text, $code = 200, $message = null)` */
    method SetSuccessExample(text: string, code: Option<string>, message: Option<string>, fw: Helpers)
      modifies this
      ensures Record() == old(Record()).(successExamples := old(successExamples)
        + [ResponseExample(text, code.GetOr("200"), StatusLabel(code.GetOr("200"), message, fw))])
    {
      var c := code.GetOr("200");
      successExamples := successExamples + [ResponseExample(text, c, StatusLabel(c, message, fw))];
    }

    /** `setErrorExample($text, $code = 404, $message = null)` */
    method SetErrorExample(text: string, code: Option<string>, message: Option<string>, fw: Helpers)
      modifies this
      ensures Record() == old(Record()).(errorExamples := old(errorExamples)
        + [ResponseExample(text, code.GetOr("404"), StatusLabel(code.GetOr("404"), message, fw))])
    {
      var c := code.GetOr("404");
      errorExamples := errorExamples + [ResponseExample(text, c, StatusLabel(c, message, fw))];
    }

    /** `getOperationId()`: derive and cache an id when none is stored. */
    method GetOperationId(fw: Helpers, token: string) returns (id: string)
      modifies this
      ensures id == OperationIdOf(old(Record()), fw, token)
      ensures Record() == old(Record()).(operationId := id)
    {
      if EmptyStr(operationId) {
        var parts: seq<string> := [];
        if !EmptyStr(group) {
          parts := parts + [group];
        }
        if !EmptyStr(httpMethod) {
          parts := parts + [httpMethod];
        }
        if !EmptyStr(name) {
          parts := parts + [name];
        }
        assert parts == OperationIdParts(group, httpMethod, name);
        var joined := Join(parts, "_");
        if EmptyStr(joined) {
          joined := token;
        }
        operationId := fw.snake(Lower(joined));
      }
      id := operationId;
    }

    /**
     * `addStoredApiResponses()`, with `stored` standing for what
     * `getStoredApiResponses()` reads from the response files, in order.
     */
    method AddStoredApiResponses(stored: seq<(string, string)>, fw: Helpers, token: string)
      modifies this
      ensures Record() == WithStoredResponses(old(Record()), stored, fw, token)
    {
      if successExamples == [] {
        var id := GetOperationId(fw, token);
        var i := 0;
        while i < |stored|
          invariant 0 <= i <= |stored|
          invariant successExamples == StoredExamples(stored[..i], true, fw)
          invariant errorExamples == old(errorExamples) + StoredExamples(stored[..i], false, fw)
          invariant Record() == old(Record()).(operationId := id,
            successExamples := successExamples, errorExamples := errorExamples)
        {
          var (code, content) := stored[i];
          var example := ResponseExample(content, code, StatusLabel(code, None, fw));
          assert stored[..i + 1][..i] == stored[..i];
          assert StoredExamples(stored[..i + 1], true, fw)
            == StoredExamples(stored[..i], true, fw) + (if IsSuccessCode(code) then [example] else []);
          assert StoredExamples(stored[..i + 1], false, fw)
            == StoredExamples(stored[..i], false, fw) + (if IsSuccessCode(code) then [] else [example]);
          ghost var successes, errors := successExamples, errorExamples;
          if IsSuccessCode(code) {
            SetSuccessExample(content, Some(code), None, fw);
            assert successExamples == successes + [example];
          } else {
            SetErrorExample(content, Some(code), None, fw);
            assert errorExamples == errors + [example];
          }
          i := i + 1;
        }
        assert stored[..i] == stored;
      }
    }

    /** `getApiDoc()`: the comment block, or the exception thrown for an unnamed or undescribed parameter. */
    method GetApiDoc(stored: seq<(string, string)>, fw: Helpers, token: string) returns (r: Result<string, DocError>)
      modifies this
      ensures DocBody(old(Record()), fw).Failure? ==>
        r == Failure(DocBody(old(Record()), fw).error) && Record() == old(Record())
      ensures DocBody(old(Record()), fw).Success? ==>
        && Record() == WithStoredResponses(old(Record()), stored, fw, token)
        && r == Success(DocText(DocBody(old(Record()), fw).value, Record()))
    {
      var p := RenderParams("apiParam", params);
      if p.Failure? {
        return Failure(p.error);
      }
      var sp := RenderEntries(successParams);
      if sp.Failure? {
        return Failure(sp.error);
      }
      var h := RenderParams("apiHeader", headers);
      if h.Failure? {
        return Failure(h.error);
      }
      var body := HeadLines(Record()) + p.value + sp.value + h.value + UseLines(use)
        + RequestExampleLines(requestExample, fw);
      assert DocBody(old(Record()), fw) == Success(body);
      AddStoredApiResponses(stored, fw, token);
      var lines := body + ExampleLines(successExamples, SuccessExampleHeader)
        + ExampleLines(errorExamples, ErrorExampleHeader) + ["###"];
      r := Success(Join(lines, "\r\n"));
    }
  }
}
