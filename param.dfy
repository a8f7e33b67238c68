/**
 * One documented parameter of an API call (`Param`): its state, its fluent
 * setters, the data-type tables, and the `name|segment|segment` shorthand
 * that `APICall::setParams` turns into a parameter.
 */
module Params {
  import opened Wrappers
  import opened Strings
  import opened JsonValues
  import opened Framework

  // Parameter locations
  const LocationPath := "path"
  const LocationQuery := "query"
  const LocationHeader := "header"
  const LocationCookie := "cookie"
  const LocationBody := "body"
  const LocationForm := "formData"

  // Data types; float and double are both written as "number"
  const TypeString := "string"
  const TypeInt := "integer"
  const TypeNumber := "number"
  const TypeFloat := "number"
  const TypeDouble := "number"
  const TypeBoolean := "boolean"
  const TypeArray := "array"

  /** `Param::getDataTypes()`: the list the shorthand parser tests segments against. */
  const DataTypes: seq<string> := [TypeString, TypeInt, TypeNumber, TypeFloat, TypeDouble, TypeBoolean, TypeArray]

  /** A segment with a colon is no type name and no flag. */
  lemma ColonSegment(seg: string)
    requires ':' in seg
    ensures !EmptyStr(seg) && seg !in DataTypes && seg != "required" && seg != "optional"
  {
    DataTypesMembers(seg);
    assert ':' !in "string" && ':' !in "integer" && ':' !in "number" && ':' !in "boolean" && ':' !in "array";
    assert ':' !in "required" && ':' !in "optional" && ':' !in "0";
  }

  /** The five distinct names in the data-type list, and only those. */
  lemma DataTypesMembers(t: string)
    ensures t in DataTypes <==> t in {"string", "integer", "number", "boolean", "array"}
    ensures |DataTypes| == 7
  {
  }

  /**
   * The state of a `Param`. The field name is PHP's `$fieldName` with null
   * written as ""; a null description, location, collection format or
   * variable is `None`; untyped values are `Json`.
   */
  datatype ParamRecord = ParamRecord(
    name: string,
    required: bool,
    dataType: string,
    defaultValue: Json,
    description: Option<string>,
    location: Option<string>,
    model: Json,
    collectionFormat: Option<string>,
    items: Json,
    variable: Option<string>,
    example: Json)

  /** The items value `setArrayType($t)` stores: `['type' => $t]`. */
  function ArrayItems(t: string): Json {
    Obj([("type", Str(t))])
  }

  /** `setDataType($t)` on the state: an `'array'` type also gets format `'multi'` and string items. */
  function WithDataType(p: ParamRecord, t: string): ParamRecord {
    if t == TypeArray then
      p.(dataType := t, collectionFormat := Some("multi"), items := ArrayItems(TypeString))
    else
      p.(dataType := t)
  }

  /** The characters `setVariable` trims before adding braces: whitespace, NUL and both braces. */
  const VariableTrim: set<char> := DefaultTrim + {'{', '}'}

  /** The final whitespace trim of `setVariable` never touches a braced text. */
  lemma BracedStable(x: string)
    ensures Trim("{{" + x + "}}", DefaultTrim) == "{{" + x + "}}"
  {
    TrimStable("{{" + x + "}}", DefaultTrim);
  }

  /**
   * `setVariable($v)`: trim whitespace and braces, then wrap in `{{`/`}}`.
   * The final whitespace `trim` of the source is left out here because it
   * has nothing to remove (BracedStable); `Param.SetVariable` performs it.
   */
  function NormalizeVariable(v: string): string {
    "{{" + Trim(v, VariableTrim) + "}}"
  }

  /** The name between the braces has no brace or whitespace at either end. */
  predicate CleanName(inner: string) {
    inner == [] || (inner[0] !in VariableTrim && inner[|inner| - 1] !in VariableTrim)
  }

  /** The stored placeholder is braced around a clean name. */
  lemma NormalizeVariableShape(v: string)
    ensures var r := NormalizeVariable(v);
      StartsWith(r, "{{") && EndsWith(r, "}}") && CleanName(r[2..|r| - 2])
  {
    BracedParts(Trim(v, VariableTrim));
  }

  lemma BracedParts(inner: string)
    ensures var r := "{{" + inner + "}}";
      StartsWith(r, "{{") && EndsWith(r, "}}") && r[2..|r| - 2] == inner
  {
  }

  /** Trimming braces and whitespace from a braced clean name gives the name back. */
  lemma TrimBraced(inner: string)
    requires CleanName(inner)
    ensures Trim("{{" + inner + "}}", VariableTrim) == inner
  {
    var r := "{{" + inner + "}}";
    if inner == [] {
      assert r == "{{}}";
      TrimLeftAll(r, VariableTrim);
    } else {
      assert r == "{{" + (inner + "}}");
      TrimLeftPrefix("{{", inner + "}}", VariableTrim);
      TrimRightSuffix(inner, "}}", VariableTrim);
    }
  }

  /** Normalising a normalised placeholder changes nothing. */
  lemma NormalizeVariableIdempotent(v: string)
    ensures NormalizeVariable(NormalizeVariable(v)) == NormalizeVariable(v)
  {
    TrimBraced(Trim(v, VariableTrim));
  }

  /** A dynamic Postman variable keeps its `$`: `{{$randomEmail}}` is already normal. */
  lemma NormalizeDollarVariable()
    ensures NormalizeVariable("{{$randomEmail}}") == "{{$randomEmail}}"
  {
    var inner := "$randomEmail";
    assert "{{$randomEmail}}" == "{{" + inner + "}}";
    TrimBraced(inner);
  }

  /** `ltrim` removes a prefix of trimmable characters and stops at the first other one. */
  lemma {:induction false} TrimLeftPrefix(pre: string, s: string, cs: set<char>)
    requires forall i :: 0 <= i < |pre| ==> pre[i] in cs
    requires s != [] && s[0] !in cs
    ensures TrimLeft(pre + s, cs) == s
    decreases |pre|
  {
    if pre != [] {
      assert (pre + s)[1..] == pre[1..] + s;
      TrimLeftPrefix(pre[1..], s, cs);
    } else {
      assert pre + s == s;
    }
  }

  /** `ltrim` of a text made only of trimmable characters is empty. */
  lemma {:induction false} TrimLeftAll(s: string, cs: set<char>)
    requires forall i :: 0 <= i < |s| ==> s[i] in cs
    ensures TrimLeft(s, cs) == []
    decreases |s|
  {
    if s != [] {
      TrimLeftAll(s[1..], cs);
    }
  }

  /** `rtrim` removes a suffix of trimmable characters and stops at the last other one. */
  lemma {:induction false} TrimRightSuffix(s: string, suf: string, cs: set<char>)
    requires forall i :: 0 <= i < |suf| ==> suf[i] in cs
    requires s == [] || s[|s| - 1] !in cs
    ensures TrimRight(s + suf, cs) == s
    decreases |suf|
  {
    if suf != [] {
      assert (s + suf)[..|s + suf| - 1] == s + suf[..|suf| - 1];
      TrimRightSuffix(s, suf[..|suf| - 1], cs);
    } else {
      assert s + suf == s;
      if s != [] {
        assert TrimRight(s, cs) == s;
      }
    }
  }

  /** `Param::getSwaggerDataType($t)`: lower-case, then map onto the Swagger 2.0 primitive types. */
  function SwaggerDataType(t: string): (r: string)
    ensures r in {"integer", "number", "boolean", "array", "object", "string"}
  {
    var lower := Lower(t);
    if lower == "integer" then "integer"
    else if lower == "float" || lower == "double" then "number"
    else if lower == "boolean" then "boolean"
    else if lower == "array" then "array"
    else if lower == "object" || lower == "model" then "object"
    else "string"
  }

  lemma {:induction false} LowerIdempotent(s: string)
    ensures Lower(Lower(s)) == Lower(s)
  {
    var l := Lower(s);
    assert forall i :: 0 <= i < |s| ==> LowerChar(l[i]) == l[i];
  }

  /** The mapping ignores letter case. */
  lemma SwaggerDataTypeIgnoresCase(t: string)
    ensures SwaggerDataType(t) == SwaggerDataType(Lower(t))
  {
    LowerIdempotent(t);
  }

  /** Every Swagger type name except `number` is mapped to itself. */
  lemma SwaggerDataTypeFixpoints(t: string)
    requires t == "integer" || t == "boolean" || t == "array" || t == "object" || t == "string"
    ensures SwaggerDataType(t) == t
  {
    LowerOfLower(t);
  }

  /**
   * `float` and `double` become `number`, but `number` itself, the value of
   * the `TYPE_NUMBER` constant, falls through to `string`.
   */
  lemma SwaggerDataTypeNumbers()
    ensures SwaggerDataType("float") == "number" && SwaggerDataType("double") == "number"
    ensures SwaggerDataType("number") == "string"
  {
    LowerOfLower("float");
    LowerOfLower("double");
    LowerOfLower("number");
  }

  /** `model` names an object. */
  lemma SwaggerDataTypeModel()
    ensures SwaggerDataType("model") == "object" && SwaggerDataType("Model") == "object"
  {
    LowerOfLower("model");
    assert Lower("Model") == "model";
  }

  lemma LowerOfLower(s: string)
    requires forall i :: 0 <= i < |s| ==> 'a' <= s[i] <= 'z'
    ensures Lower(s) == s
  {
  }

  /** The state the constructor `new Param($name, $dataType, $description, $location)` leaves. */
  function NewParam(name: string, dataType: string, description: Option<string>, location: Option<string>, fw: Helpers): ParamRecord {
    var blank := ParamRecord(name, true, "", Null, None, None, Null, None, Null, None, Null);
    var typed := WithDataType(blank, dataType);
    var described :=
      if (description.None? || EmptyStr(description.value)) && !EmptyStr(name) then
        Some(Ucfirst(fw.reverseSnake(name)))
      else
        description;
    typed.(location := location, description := described)
  }

  /** Defaults of a new parameter: required, typed as given, located as given, described from its name when no description is given. */
  lemma NewParamDefaults(name: string, dataType: string, description: Option<string>, location: Option<string>, fw: Helpers)
    ensures var p := NewParam(name, dataType, description, location, fw);
      && p.name == name && p.required && p.dataType == dataType && p.location == location
      && p.defaultValue == Null && p.model == Null && p.variable == None && p.example == Null
      && (dataType == TypeArray <==> p.collectionFormat == Some("multi"))
      && (dataType == TypeArray ==> p.items == ArrayItems(TypeString))
      && (dataType != TypeArray ==> p.items == Null)
      && (description.Some? && !EmptyStr(description.value) ==> p.description == description)
      && ((description.None? || EmptyStr(description.value)) && !EmptyStr(name) ==>
            p.description == Some(Ucfirst(fw.reverseSnake(name))))
      && ((description.None? || EmptyStr(description.value)) && EmptyStr(name) ==> p.description == description)
  {
  }

  /** The `set*` methods of `Param`, which the shorthand parser may call by name. */
  datatype Setter =
    | Location | Model | DefaultValue | Example | Variable
    | DataType | Description | CollectionFormat | Items | ArrayType

  /** `method_exists($param, $name)` restricted to setters: PHP method names ignore case. */
  function SetterNamed(methodName: string): (r: Option<Setter>)
    ensures r.Some? ==> MethodName(r.value) == Lower(methodName)
  {
    var m := Lower(methodName);
    if m == "setlocation" then Some(Location)
    else if m == "setmodel" then Some(Model)
    else if m == "setdefaultvalue" then Some(DefaultValue)
    else if m == "setexample" then Some(Example)
    else if m == "setvariable" then Some(Variable)
    else if m == "setdatatype" then Some(DataType)
    else if m == "setdescription" then Some(Description)
    else if m == "setcollectionformat" then Some(CollectionFormat)
    else if m == "setitems" then Some(Items)
    else if m == "setarraytype" then Some(ArrayType)
    else None
  }

  /** The lower-cased name of each setter. */
  function MethodName(s: Setter): string {
    match s
    case Location => "setlocation"
    case Model => "setmodel"
    case DefaultValue => "setdefaultvalue"
    case Example => "setexample"
    case Variable => "setvariable"
    case DataType => "setdatatype"
    case Description => "setdescription"
    case CollectionFormat => "setcollectionformat"
    case Items => "setitems"
    case ArrayType => "setarraytype"
  }

  /** Every setter is found under its own name, in any letter case. */
  lemma SetterNamedComplete(s: Setter, name: string)
    requires Lower(name) == MethodName(s)
    ensures SetterNamed(name) == Some(s)
  {
  }

  /** `$param->$setter($arg)` with a string argument, on the state. */
  function ApplySetter(p: ParamRecord, s: Setter, arg: string): ParamRecord {
    match s
    case Location => p.(location := Some(arg))
    case Model => p.(model := Str(arg))
    case DefaultValue => p.(defaultValue := Str(arg))
    case Example => p.(example := Str(arg))
    case Variable => p.(variable := Some(NormalizeVariable(arg)))
    case DataType => WithDataType(p, arg)
    case Description => p.(description := Some(arg))
    case CollectionFormat => p.(collectionFormat := Some(arg))
    case Items => p.(items := Str(arg))
    case ArrayType => p.(items := ArrayItems(arg))
  }

  /** How `setParams` reads one segment after the name, in order of precedence. */
  datatype SegmentKind =
    | Skip
    | TypeSegment
    | RequiredSegment
    | OptionalSegment
    | VariableSegment
    | SetterSegment(setter: Setter, arg: string)
    | DescriptionSegment(text: string)

  function Classify(seg: string, fw: Helpers): SegmentKind {
    if EmptyStr(seg) then Skip
    else if seg in DataTypes then TypeSegment
    else if seg == "required" then RequiredSegment
    else if seg == "optional" then OptionalSegment
    else if StartsWith(seg, "{{") then VariableSegment
    else
      var parts := Split(seg, ':');
      if |parts| > 1 then
        match SetterNamed("set" + fw.studly(parts[0]))
        case Some(s) => SetterSegment(s, parts[1])
        // `$arg` was already overwritten with the text after the first colon
        case None => DescriptionSegment(parts[1])
      else
        DescriptionSegment(seg)
  }

  /** The effect of one segment on the parameter. */
  function ApplySegment(p: ParamRecord, seg: string, fw: Helpers): ParamRecord {
    match Classify(seg, fw)
    case Skip => p
    case TypeSegment => WithDataType(p, seg)
    case RequiredSegment => p.(required := true)
    case OptionalSegment => p.(required := false)
    case VariableSegment => p.(variable := Some(NormalizeVariable(seg)))
    case SetterSegment(s, arg) => ApplySetter(p, s, arg)
    case DescriptionSegment(text) => p.(description := Some(text))
  }

  /** The segments applied left to right. */
  function ApplySegments(p: ParamRecord, segs: seq<string>, fw: Helpers): ParamRecord
    decreases |segs|
  {
    if segs == [] then p
    else ApplySegment(ApplySegments(p, segs[..|segs| - 1], fw), segs[|segs| - 1], fw)
  }

  /** The parameter `setParams` builds from one shorthand string. */
  function ParseShorthand(text: string, fw: Helpers): ParamRecord {
    var args := Split(text, '|');
    ApplySegments(NewParam(args[0], TypeString, None, None, fw), args[1..], fw)
  }

  /** A parameter whose array type came with its format and items keeps both. */
  predicate ArrayReady(p: ParamRecord) {
    p.dataType == TypeArray ==> p.collectionFormat.Some? && p.items != Null
  }

  /** Every segment keeps an array parameter's format and items in place. */
  lemma {:induction false} ApplySegmentsArrayReady(p: ParamRecord, segs: seq<string>, fw: Helpers)
    requires ArrayReady(p)
    ensures ArrayReady(ApplySegments(p, segs, fw))
    decreases |segs|
  {
    if segs != [] {
      ApplySegmentsArrayReady(p, segs[..|segs| - 1], fw);
      ApplySegmentArrayReady(ApplySegments(p, segs[..|segs| - 1], fw), segs[|segs| - 1], fw);
    }
  }

  lemma ApplySegmentArrayReady(p: ParamRecord, seg: string, fw: Helpers)
    requires ArrayReady(p)
    ensures ArrayReady(ApplySegment(p, seg, fw))
  {
    var kind := Classify(seg, fw);
    if kind.SetterSegment? {
      ApplySetterArrayReady(p, kind.setter, kind.arg);
    }
  }

  lemma ApplySetterArrayReady(p: ParamRecord, s: Setter, arg: string)
    requires ArrayReady(p)
    ensures ArrayReady(ApplySetter(p, s, arg))
  {
  }

  /** A parsed parameter is named by its first segment, and an `array` parameter is never left without format or items. */
  lemma ParseShorthandNameAndArrays(text: string, fw: Helpers)
    ensures ParseShorthand(text, fw).name == Split(text, '|')[0]
    ensures ArrayReady(ParseShorthand(text, fw))
  {
    var args := Split(text, '|');
    ApplySegmentsArrayReady(NewParam(args[0], TypeString, None, None, fw), args[1..], fw);
    ApplySegmentsName(NewParam(args[0], TypeString, None, None, fw), args[1..], fw);
  }

  lemma {:induction false} ApplySegmentsName(p: ParamRecord, segs: seq<string>, fw: Helpers)
    ensures ApplySegments(p, segs, fw).name == p.name
    decreases |segs|
  {
    if segs != [] {
      ApplySegmentsName(p, segs[..|segs| - 1], fw);
      ApplySegmentName(ApplySegments(p, segs[..|segs| - 1], fw), segs[|segs| - 1], fw);
    }
  }

  lemma ApplySegmentName(p: ParamRecord, seg: string, fw: Helpers)
    ensures ApplySegment(p, seg, fw).name == p.name
  {
    var kind := Classify(seg, fw);
    if kind.SetterSegment? {
      ApplySetterName(p, kind.setter, kind.arg);
    }
  }

  lemma ApplySetterName(p: ParamRecord, s: Setter, arg: string)
    ensures ApplySetter(p, s, arg).name == p.name
  {
  }

  /** Appending a segment applies it after all the earlier ones. */
  lemma ApplySegmentsSnoc(p: ParamRecord, segs: seq<string>, seg: string, fw: Helpers)
    ensures ApplySegments(p, segs + [seg], fw) == ApplySegment(ApplySegments(p, segs, fw), seg, fw)
  {
    assert (segs + [seg])[..|segs|] == segs;
  }

  /** Later segments win: a final `optional` or `required` decides the flag whatever came before. */
  lemma LaterFlagWins(p: ParamRecord, segs: seq<string>, fw: Helpers)
    ensures !ApplySegments(p, segs + ["optional"], fw).required
    ensures ApplySegments(p, segs + ["required"], fw).required
  {
    ApplySegmentsSnoc(p, segs, "optional", fw);
    ApplySegmentsSnoc(p, segs, "required", fw);
    assert "optional" !in DataTypes && "required" !in DataTypes;
  }

  /** The first two pieces of a segment `prefix:mid` or `prefix:mid:...`. */
  lemma ColonPieces(prefix: string, mid: string, rest: string)
    requires ':' !in prefix && ':' !in mid
    requires rest == [] || rest[0] == ':'
    ensures var parts := Split(prefix + ":" + mid + rest, ':');
      |parts| > 1 && parts[0] == prefix && parts[1] == mid
  {
    var seg := prefix + ":" + mid + rest;
    assert seg == prefix + [':'] + (mid + rest);
    SplitHead(prefix, ':', mid + rest);
    if rest == [] {
      assert mid + rest == mid;
    } else {
      assert mid + rest == mid + [':'] + rest[1..];
      SplitHead(mid, ':', rest[1..]);
    }
  }

  /** A segment that is no type, flag or variable, and whose prefix names no setter, is read as a description. */
  lemma ClassifyUnknownSetter(seg: string, fw: Helpers)
    requires !EmptyStr(seg) && seg !in DataTypes && seg != "required" && seg != "optional"
    requires !StartsWith(seg, "{{")
    requires |Split(seg, ':')| > 1
    requires SetterNamed("set" + fw.studly(Split(seg, ':')[0])).None?
    ensures Classify(seg, fw) == DescriptionSegment(Split(seg, ':')[1])
  {
  }

  /** A colon segment whose prefix names no setter sets the description to the text between the first and second colon. */
  lemma UnknownSetterBecomesDescription(p: ParamRecord, prefix: string, mid: string, rest: string, fw: Helpers)
    requires prefix != [] && ':' !in prefix && ':' !in mid
    requires rest == [] || rest[0] == ':'
    requires !StartsWith(prefix, "{{")
    requires SetterNamed("set" + fw.studly(prefix)).None?
    ensures ApplySegment(p, prefix + ":" + mid + rest, fw) == p.(description := Some(mid))
  {
    var seg := prefix + ":" + mid + rest;
    assert seg[|prefix|] == ':';
    ColonSegment(seg);
    assert !StartsWith(seg, "{{") by {
      if |prefix| >= 2 {
        assert seg[..2] == prefix[..2];
      } else {
        assert seg[1] == ':';
      }
    }
    assert |seg| >= 2;
    ColonPieces(prefix, mid, rest);
    ClassifyUnknownSetter(seg, fw);
  }

  /** A bare `formData` segment is not a type, flag, variable or setter call, so it becomes the description, not the location. */
  lemma FormDataSegmentIsDescription(p: ParamRecord, fw: Helpers)
    ensures ApplySegment(p, "formData", fw) == p.(description := Some("formData"))
  {
    var seg := "formData";
    assert seg !in DataTypes;
    assert ':' !in seg;
    assert seg[0] == 'f' && seg[..2][0] == seg[0];
    ClassifyPlain(seg, fw);
  }

  /** A segment that is no type, flag or variable and has no colon is read as a description. */
  lemma ClassifyPlain(seg: string, fw: Helpers)
    requires !EmptyStr(seg) && seg !in DataTypes && seg != "required" && seg != "optional"
    requires !StartsWith(seg, "{{") && ':' !in seg
    ensures Classify(seg, fw) == DescriptionSegment(seg)
  {
    assert Split(seg, ':') == [seg];
  }

  /** The parameter built from `name|seg|...` is the new parameter with each segment applied in order. */
  lemma ParseShorthandJoin(name: string, segs: seq<string>, fw: Helpers)
    requires '|' !in name
    requires forall k :: 0 <= k < |segs| ==> '|' !in segs[k]
    ensures ParseShorthand(Join([name] + segs, "|"), fw) == ApplySegments(NewParam(name, TypeString, None, None, fw), segs, fw)
  {
    SplitJoin([name] + segs, '|');
    assert ([name] + segs)[1..] == segs;
  }

  /** A colon segment whose prefix names a setter calls it with the text after the first colon. */
  lemma ClassifySetter(seg: string, fw: Helpers, st: Setter)
    requires !EmptyStr(seg) && seg !in DataTypes && seg != "required" && seg != "optional"
    requires !StartsWith(seg, "{{")
    requires |Split(seg, ':')| > 1
    requires SetterNamed("set" + fw.studly(Split(seg, ':')[0])) == Some(st)
    ensures Classify(seg, fw) == SetterSegment(st, Split(seg, ':')[1])
  {
  }

  /** `name:value` with a name that studly-cases to a setter calls that setter with `value`. */
  lemma SetterSegmentApplies(p: ParamRecord, prefix: string, arg: string, fw: Helpers, st: Setter)
    requires prefix != [] && ':' !in prefix && ':' !in arg
    requires !StartsWith(prefix, "{{")
    requires SetterNamed("set" + fw.studly(prefix)) == Some(st)
    ensures ApplySegment(p, prefix + ":" + arg, fw) == ApplySetter(p, st, arg)
  {
    var seg := prefix + ":" + arg;
    assert seg[|prefix|] == ':';
    ColonSegment(seg);
    assert !StartsWith(seg, "{{") by {
      if |prefix| >= 2 {
        assert seg[..2] == prefix[..2];
      } else {
        assert seg[1] == ':';
      }
    }
    assert |seg| >= 2;
    assert seg == prefix + ":" + arg + "";
    ColonPieces(prefix, arg, "");
    ClassifySetter(seg, fw, st);
  }

  lemma SetLocationNamed()
    ensures SetterNamed("setLocation") == Some(Location)
  {
    assert Lower("setLocation") == "setlocation";
    SetterNamedComplete(Location, "setLocation");
  }

  lemma LocationHeaderNoType()
    ensures "location:header" == "location" + ":" + "header"
    ensures !StartsWith("location", "{{")
  {
    assert "location"[0] != '{';
  }

  /** `location:header` calls `setLocation('header')` when `Str::studly` capitalises `location`. */
  lemma LocationSegment(p: ParamRecord, fw: Helpers)
    requires fw.studly("location") == "Location"
    ensures ApplySegment(p, "location:header", fw) == p.(location := Some(LocationHeader))
  {
    SetLocationNamed();
    LocationHeaderNoType();
    SetterSegmentApplies(p, "location", "header", fw, Location);
  }

  /** A typical header shorthand `<name>|location:header|optional`: a string parameter in the header, not required. */
  lemma HeaderShorthand(name: string, fw: Helpers)
    requires '|' !in name
    requires fw.studly("location") == "Location"
    ensures ParseShorthand(name + "|location:header|optional", fw)
      == NewParam(name, TypeString, None, None, fw).(location := Some(LocationHeader), required := false)
  {
    var segs := ["location:header", "optional"];
    HeaderShorthandText(name, segs);
    ParseShorthandJoin(name, segs, fw);
    HeaderSegments(NewParam(name, TypeString, None, None, fw), fw);
  }

  lemma HeaderShorthandText(name: string, segs: seq<string>)
    requires segs == ["location:header", "optional"]
    ensures name + "|location:header|optional" == Join([name] + segs, "|")
  {
    var tail := Join(segs, "|");
    assert segs[1..] == ["optional"];
    assert Join(segs[1..], "|") == "optional";
    assert tail == "location:header" + "|" + "optional";
    assert ([name] + segs)[1..] == segs;
    assert Join([name] + segs, "|") == name + ("|" + tail);
    assert "|" + tail == "|location:header|optional";
  }

  /** The segments `location:header` then `optional` put any parameter in the header and make it optional. */
  lemma HeaderSegments(p: ParamRecord, fw: Helpers)
    requires fw.studly("location") == "Location"
    ensures ApplySegments(p, ["location:header", "optional"], fw) == p.(location := Some(LocationHeader), required := false)
  {
    var p1 := p.(location := Some(LocationHeader));
    assert ["location:header", "optional"] == ["location:header"] + ["optional"];
    ApplySegmentsSnoc(p, ["location:header"], "optional", fw);
    assert ["location:header"] == [] + ["location:header"];
    ApplySegmentsSnoc(p, [], "location:header", fw);
    LocationSegment(p, fw);
    OptionalSegmentApplies(p1, fw);
  }

  lemma OptionalSegmentApplies(p: ParamRecord, fw: Helpers)
    ensures ApplySegment(p, "optional", fw) == p.(required := false)
  {
    assert "optional" !in DataTypes;
  }

  /** The two trims of `setVariable`: braces and whitespace inside, then whitespace around the braced text. */
  method BraceVariable(v: string) returns (r: string)
    ensures r == NormalizeVariable(v)
  {
    var braced := "{{" + Trim(v, VariableTrim) + "}}";
    BracedStable(Trim(v, VariableTrim));
    r := Trim(braced, DefaultTrim);
  }

  /** A `Param` object; its setters return nothing here instead of `$this`. */
  class Param {
    var name: string
    var required: bool
    var dataType: string
    var defaultValue: Json
    var description: Option<string>
    var location: Option<string>
    var model: Json
    var collectionFormat: Option<string>
    var items: Json
    var variable: Option<string>
    var example: Json

    function Record(): ParamRecord
      reads this
    {
      ParamRecord(name, required, dataType, defaultValue, description, location, model,
        collectionFormat, items, variable, example)
    }

    constructor(fieldName: string, dataType: string, description: Option<string>, location: Option<string>, fw: Helpers)
      ensures Record() == NewParam(fieldName, dataType, description, location, fw)
    {
      this.name := fieldName;
      this.required := true;
      this.defaultValue := Null;
      this.model := Null;
      this.variable := None;
      this.example := Null;
      this.description := None;
      // setDataType($dataType) runs before the location and description are set
      this.dataType := dataType;
      this.collectionFormat := None;
      this.items := Null;
      if dataType == TypeArray {
        this.collectionFormat := Some("multi");
        this.items := ArrayItems(TypeString);
      }
      this.location := location;
      if (description.None? || EmptyStr(description.value)) && !EmptyStr(fieldName) {
        this.description := Some(Ucfirst(fw.reverseSnake(fieldName)));
      } else {
        this.description := description;
      }
    }

    /** `getDataType()`: the stored type with its first letter upper-cased. */
    function GetDataType(): (r: string)
      reads this
      ensures |r| == |dataType|
      ensures dataType != [] ==> r[0] == UpperChar(dataType[0]) && r[1..] == dataType[1..]
    {
      Ucfirst(dataType)
    }

    method Required()
      modifies this
      ensures Record() == old(Record()).(required := true)
    {
      required := true;
    }

    method Optional()
      modifies this
      ensures Record() == old(Record()).(required := false)
    {
      required := false;
    }

    /** `dataType($t)`: sets the type and nothing else, unlike `setDataType`. */
    method SetDataTypeOnly(t: string)
      modifies this
      ensures Record() == old(Record()).(dataType := t)
    {
      dataType := t;
    }

    method SetDataType(t: string)
      modifies this
      ensures Record() == WithDataType(old(Record()), t)
      ensures t != TypeArray ==> Record() == old(Record()).(dataType := t)
      ensures t == TypeArray ==> collectionFormat == Some("multi") && items == ArrayItems(TypeString)
    {
      dataType := t;
      if t == TypeArray {
        SetCollectionFormat("multi");
        SetArrayType(TypeString);
      }
    }

    /** `field($name)`: renames the parameter and nothing else. */
    method Field(n: string)
      modifies this
      ensures Record() == old(Record()).(name := n)
    {
      name := n;
    }

    /** `description($d)`: the fluent twin of `setDescription`, for a non-null text. */
    method Describe(d: string)
      modifies this
      ensures Record() == old(Record()).(description := Some(d))
    {
      SetDescription(Some(d));
    }

    /** `defaultValue($v)`: the fluent twin of `setDefaultValue`. */
    method Default(v: Json)
      modifies this
      ensures Record() == old(Record()).(defaultValue := v)
    {
      SetDefaultValue(v);
    }

    method SetVariable(v: string)
      modifies this
      ensures Record() == old(Record()).(variable := Some(NormalizeVariable(v)))
    {
      var cleaned := BraceVariable(v);
      variable := Some(cleaned);
    }

    method SetLocation(l: string)
      modifies this
      ensures Record() == old(Record()).(location := Some(l))
    {
      location := Some(l);
    }

    method SetModel(m: Json)
      modifies this
      ensures Record() == old(Record()).(model := m)
    {
      model := m;
    }

    method SetDefaultValue(v: Json)
      modifies this
      ensures Record() == old(Record()).(defaultValue := v)
    {
      defaultValue := v;
    }

    method SetExample(v: Json)
      modifies this
      ensures Record() == old(Record()).(example := v)
    {
      example := v;
    }

    method SetDescription(d: Option<string>)
      modifies this
      ensures Record() == old(Record()).(description := d)
    {
      description := d;
    }

    method SetCollectionFormat(f: string)
      modifies this
      ensures Record() == old(Record()).(collectionFormat := Some(f))
    {
      collectionFormat := Some(f);
    }

    method SetItems(v: Json)
      modifies this
      ensures Record() == old(Record()).(items := v)
    {
      items := v;
    }

    method SetArrayType(t: string)
      modifies this
      ensures Record() == old(Record()).(items := ArrayItems(t))
    {
      items := ArrayItems(t);
    }
  }

  /** `$param->$functionName($arg)`: call the named setter with a string argument. */
  method Dispatch(p: Param, s: Setter, arg: string)
    modifies p
    ensures p.Record() == ApplySetter(old(p.Record()), s, arg)
  {
    match s
    case Location => p.SetLocation(arg);
    case Model => p.SetModel(Str(arg));
    case DefaultValue => p.SetDefaultValue(Str(arg));
    case Example => p.SetExample(Str(arg));
    case Variable => p.SetVariable(arg);
    case DataType => p.SetDataType(arg);
    case Description => p.SetDescription(Some(arg));
    case CollectionFormat => p.SetCollectionFormat(arg);
    case Items => p.SetItems(Str(arg));
    case ArrayType => p.SetArrayType(arg);
  }

  /** The loop body of `setParams` for one segment, calling the setters the way the parser does. */
  method ApplySegmentTo(p: Param, seg: string, fw: Helpers)
    modifies p
    ensures p.Record() == ApplySegment(old(p.Record()), seg, fw)
  {
    if EmptyStr(seg) {
      return;
    }
    if seg in DataTypes {
      p.SetDataType(seg);
      return;
    }
    if seg == "required" {
      p.Required();
      return;
    }
    if seg == "optional" {
      p.Optional();
      return;
    }
    if StartsWith(seg, "{{") {
      p.SetVariable(seg);
      return;
    }
    var argTypes := Split(seg, ':');
    var arg := seg;
    if |argTypes| > 1 {
      var kind := argTypes[0];
      arg := argTypes[1];
      var setter := SetterNamed("set" + fw.studly(kind));
      if setter.Some? {
        Dispatch(p, setter.value, arg);
        return;
      }
    }
    p.SetDescription(Some(arg));
  }
}
