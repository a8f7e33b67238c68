/**
 * `GenerateApiTestsCommand`: the names and paths of the generated test
 * classes, the rules that decide whether a class is written, and the
 * `<?php` placeholder swap around template rendering. The entries it works
 * on are the collection reader's path entries. Template rendering, the
 * file system and Laravel's reserved-name list are parameters.
 */
module ApiTests {
  import opened Wrappers
  import opened Strings
  import opened JsonValues
  import opened PathLocations
  import opened PostmanCollectionReaders

  // ---------------------------------------------------------------- class and test names

  /** `isset($pathData['tags'][0])` and the value found there. */
  function FirstTag(tags: Json): Option<Json> {
    match tags
    case Arr(xs) => if xs != [] && xs[0] != Null then Some(xs[0]) else None
    case Obj(fs) => (match Get(fs, "0") case Some(v) => if v != Null then Some(v) else None case None => None)
    case Str(s) => if s != [] then Some(Str(s[..1])) else None
    case _ => None
  }

  /** The class name before spaces are removed: first tag, summary, `APITest`. */
  function RawClassName(entry: PathEntry): string {
    var tag := match FirstTag(entry.tags) case Some(t) => Text(t) case None => "";
    var summary := if entry.summary != Null then Text(entry.summary) else "";
    tag + summary + "APITest"
  }

  /** `getClassNameFromPathData($pathData)` */
  function ClassName(entry: PathEntry): string {
    ReplaceAll(RawClassName(entry), " ", "")
  }

  /** The class name is the first tag, then the summary, then `APITest`, with every space removed. */
  lemma ClassNameSpec(entry: PathEntry)
    ensures var tag := match FirstTag(entry.tags) case Some(t) => Text(t) case None => "";
      var summary := if entry.summary != Null then Text(entry.summary) else "";
      ClassName(entry) == Without(tag, ' ') + Without(summary, ' ') + "APITest"
  {
    var tag := match FirstTag(entry.tags) case Some(t) => Text(t) case None => "";
    var summary := if entry.summary != Null then Text(entry.summary) else "";
    ReplaceCharByEmpty(RawClassName(entry), ' ');
    WithoutAppend(tag + summary, "APITest", ' ');
    WithoutAppend(tag, summary, ' ');
    assert ' ' !in "APITest";
    WithoutAbsent("APITest", ' ');
  }

  /** A class name never holds a space and always ends in `APITest`. */
  lemma ClassNameShape(entry: PathEntry)
    ensures ' ' !in ClassName(entry)
    ensures EndsWith(ClassName(entry), "APITest")
  {
    ClassNameSpec(entry);
    ReplaceCharByEmpty(RawClassName(entry), ' ');
  }

  /**
   * With a first tag and a summary free of spaces, the class name is their
   * concatenation: tag `Test` and summary `MANUAL_OVERRIDE` give
   * `TestMANUAL_OVERRIDEAPITest`.
   */
  lemma ClassNameOfWords(entry: PathEntry, tag: string, summary: string)
    requires FirstTag(entry.tags) == Some(Str(tag)) && entry.summary == Str(summary)
    requires ' ' !in tag && ' ' !in summary
    ensures ClassName(entry) == tag + summary + "APITest"
  {
    ClassNameSpec(entry);
    WithoutAbsent(tag, ' ');
    WithoutAbsent(summary, ' ');
  }

  /** The operation id a test is named after; `random` stands for `Str::random(5)`. */
  function TestId(entry: PathEntry, random: string): string {
    if entry.operationId != Null then Text(entry.operationId) else random
  }

  /** `getTestNameFromPathData($pathData)` */
  function TestName(entry: PathEntry, random: string): string {
    TestNameFor(TestId(entry, random))
  }

  /** `strtolower(implode('_', array_map('trim', ['test_api', $id])))` */
  function TestNameFor(id: string): string {
    Lower(Join([Trim(TestPrefix, DefaultTrim), Trim(id, DefaultTrim)], "_"))
  }

  /** Lower-casing twice is lower-casing once. */
  lemma LowerTwice(s: string)
    ensures Lower(Lower(s)) == Lower(s)
  {
  }

  /** The fixed first part of every test name. */
  const TestPrefix := "test_api"

  /** The fixed first part is already trimmed. */
  lemma TestPrefixTrimmed()
    ensures Trim(TestPrefix, DefaultTrim) == TestPrefix
  {
    TrimStable(TestPrefix, DefaultTrim);
  }

  /** The fixed first part and its `_` are already in lower case. */
  lemma TestPrefixLower()
    ensures Lower(TestPrefix + "_") == TestPrefix + "_"
  {
    var s := TestPrefix + "_";
    assert s == ['t', 'e', 's', 't', '_', 'a', 'p', 'i', '_'];
    NoUpperFixed(s);
  }

  /** A text without upper-case letters is its own lower case. */
  lemma NoUpperFixed(s: string)
    requires forall i :: 0 <= i < |s| ==> !('A' <= s[i] <= 'Z')
    ensures Lower(s) == s
  {
  }

  /** `implode` of two pieces puts the separator between them. */
  lemma JoinTwo(a: string, b: string, sep: string)
    ensures Join([a, b], sep) == a + sep + b
  {
    assert [a, b][1..] == [b];
  }

  /** Lower-casing distributes over concatenation. */
  lemma LowerAppend(x: string, y: string)
    ensures Lower(x + y) == Lower(x) + Lower(y)
  {
  }

  /** Lower-casing `p_t` for a lower-case `p_` lower-cases only `t`, and the result is its own lower case. */
  lemma LowerJoinTwo(p: string, t: string)
    requires Lower(p + "_") == p + "_"
    ensures Lower(Join([p, t], "_")) == p + "_" + Lower(t)
    ensures Lower(Lower(Join([p, t], "_"))) == Lower(Join([p, t], "_"))
  {
    JoinTwo(p, t, "_");
    LowerAppend(p + "_", t);
    LowerTwice(Join([p, t], "_"));
  }

  /** A test name is `test_api_` followed by the trimmed operation id in lower case. */
  lemma TestNameSpec(id: string)
    ensures TestNameFor(id) == TestPrefix + "_" + Lower(Trim(id, DefaultTrim))
  {
    TestPrefixTrimmed();
    TestPrefixLower();
    LowerJoinTwo(TestPrefix, Trim(id, DefaultTrim));
  }

  /** A test name holds no upper-case letter. */
  lemma TestNameLower(id: string)
    ensures Lower(TestNameFor(id)) == TestNameFor(id)
  {
    TestPrefixTrimmed();
    TestPrefixLower();
    LowerJoinTwo(TestPrefix, Trim(id, DefaultTrim));
  }

  /**
   * An operation id already trimmed and in lower case is used as it is:
   * `test_get_manual_override` gives `test_api_test_get_manual_override`.
   */
  lemma TestNameOfId(entry: PathEntry, random: string, id: string)
    requires entry.operationId == Str(id)
    requires Trim(id, DefaultTrim) == id && Lower(id) == id
    ensures TestName(entry, random) == TestPrefix + "_" + id
  {
    assert TestId(entry, random) == id;
    TestNameSpec(id);
    assert TestNameFor(id) == TestPrefix + "_" + id;
  }

  // ---------------------------------------------------------------- class paths and namespaces

  /** `rootNamespace()` */
  const RootNamespace := "Tests"

  /** `getPath($name)`; `basePath` is `base_path`. */
  function ClassPath(name: string, basePath: string -> string): string {
    basePath("tests") + ReplaceAll(ReplaceFirst(name, RootNamespace, ""), "\\", "/") + ".php"
  }

  /** `getDefaultNamespace($rootNamespace)` for the command's path version. */
  function DefaultNamespace(rootNamespace: string, sep: Separator, version: string): string {
    rootNamespace + "\\" + ReplaceAll(TestsAutoGenDir(sep, version), "/", "\\")
  }

  /** A class path is under `tests`, ends in `.php`, and holds no backslash after the tests base. */
  lemma ClassPathShape(name: string, basePath: string -> string)
    ensures var r := ClassPath(name, basePath);
      StartsWith(r, basePath("tests")) && EndsWith(r, ".php")
      && '\\' !in r[|basePath("tests")|..]
  {
    var mid := ReplaceAll(ReplaceFirst(name, RootNamespace, ""), "\\", "/");
    ReplaceCharByChar(ReplaceFirst(name, RootNamespace, ""), '\\', '/');
    var r := ClassPath(name, basePath);
    assert r[|basePath("tests")|..] == mid + ".php";
    assert '\\' !in ".php";
  }

  /** With `/` as separator and a version free of backslashes, the namespace is the tests directory in backslashes. */
  lemma DefaultNamespaceSpec(rootNamespace: string, version: string)
    requires '\\' !in version
    ensures DefaultNamespace(rootNamespace, '/', version) == rootNamespace + "\\" + Swapped(TestsAutoGenDir('/', version), '/', '\\')
    ensures '\\' !in TestsAutoGenDir('/', version)
  {
    ReplaceCharByChar(TestsAutoGenDir('/', version), '/', '\\');
    assert '\\' !in "Feature/AutoGen/API";
    if !EmptyStr(version) {
      UpperKeepsSeparatorOut(version, '\\');
    }
  }

  /** `Str::replaceFirst` of a prefix by nothing drops that prefix. */
  lemma ReplaceFirstPrefix(p: string, rest: string)
    requires p != []
    ensures ReplaceFirst(p + rest, p, "") == rest
  {
    assert StartsWith(p + rest, p);
    assert (p + rest)[|p|..] == rest;
  }

  /** Turning the backslashes of `\<dir in backslashes>\<cls>` into slashes gives `/<dir>/<cls>`. */
  lemma BackslashesToSlashes(dir: string, cls: string)
    requires '\\' !in dir && '\\' !in cls
    ensures Swapped("\\" + Swapped(dir, '/', '\\') + "\\" + cls, '\\', '/') == "/" + dir + "/" + cls
  {
    var ns := Swapped(dir, '/', '\\');
    SwapBack(dir, '/', '\\');
    SwappedAppend("\\" + ns, "\\" + cls, '\\', '/');
    SwappedAppend("\\", ns, '\\', '/');
    SwappedAppend("\\", cls, '\\', '/');
    assert Swapped(cls, '\\', '/') == cls;
  }

  /** The class Laravel qualifies into the default namespace, with the root namespace stripped and slashes for backslashes. */
  lemma QualifiedClassPath(basePath: string -> string, version: string, cls: string)
    requires '\\' !in version && '\\' !in cls
    ensures ClassPath(DefaultNamespace(RootNamespace, '/', version) + "\\" + cls, basePath) ==
      basePath("tests") + ("/" + TestsAutoGenDir('/', version) + "/" + cls) + ".php"
  {
    var dir := TestsAutoGenDir('/', version);
    var ns := Swapped(dir, '/', '\\');
    var stripped := "\\" + ns + "\\" + cls;
    var qualified := DefaultNamespace(RootNamespace, '/', version) + "\\" + cls;
    assert '\\' !in dir && qualified == RootNamespace + stripped by {
      DefaultNamespaceSpec(RootNamespace, version);
    }
    assert ReplaceFirst(qualified, RootNamespace, "") == stripped by {
      ReplaceFirstPrefix(RootNamespace, stripped);
    }
    assert ReplaceAll(stripped, "\\", "/") == "/" + dir + "/" + cls by {
      ReplaceCharByChar(stripped, '\\', '/');
      BackslashesToSlashes(dir, cls);
    }
  }

  /**
   * The path `getPath` gives the class Laravel qualifies into the default
   * namespace is the path `getTestFilePath` names for `<class>.php`: both
   * are the tests directory, then the file, under `tests`.
   */
  lemma ClassPathAgreesWithTestFilePath(basePath: string -> string, version: string, cls: string)
    requires '\\' !in version && '\\' !in cls
    ensures var rel := TestsAutoGenDir('/', version) + "/" + cls + ".php";
      && ClassPath(DefaultNamespace(RootNamespace, '/', version) + "\\" + cls, basePath) == basePath("tests") + "/" + rel
      && TestRelativePath('/', version, cls + ".php") == "tests/" + rel
  {
    QualifiedClassPath(basePath, version, cls);
    var dir := TestsAutoGenDir('/', version);
    Regrouped(basePath("tests"), dir, cls, ".php");
    TestRelativeRegrouped(version, cls + ".php");
  }

  /** Regrouping `base + "/" + dir + "/" + name + ext`. */
  lemma Regrouped(base: string, dir: string, name: string, ext: string)
    ensures base + ("/" + dir + "/" + name) + ext == base + "/" + (dir + "/" + name + ext)
  {
  }

  /** The relative test path, regrouped as `tests/` followed by the file under the tests directory. */
  lemma TestRelativeRegrouped(version: string, file: string)
    ensures TestRelativePath('/', version, file) == "tests/" + (TestsAutoGenDir('/', version) + "/" + file)
  {
  }

  // ---------------------------------------------------------------- whether a class is written

  /** Why `generateApiTest` writes nothing. */
  datatype Skip = ReservedName | ClassExists | ManualClassExists

  /** `str_replace('AutoGen', 'Manual', $path)`: where a hand-written test would be. */
  function ManualPath(path: string): string {
    ReplaceAll(path, "AutoGen", "Manual")
  }

  /**
   * The guards of `generateApiTest`, in order: a reserved class name, an
   * existing class without `--force`, then a hand-written counterpart of an
   * `AutoGen` path. `None` means the class is written.
   */
  function SkipReason(reserved: bool, force: bool, classExists: bool, path: string, fileExists: string -> bool): (r: Option<Skip>)
    ensures r.None? <==>
      !reserved && (force || !classExists) && !(Contains(path, "AutoGen") && fileExists(ManualPath(path)))
  {
    if reserved then Some(ReservedName)
    else if !force && classExists then Some(ClassExists)
    else if Contains(path, "AutoGen") && fileExists(ManualPath(path)) then Some(ManualClassExists)
    else None
  }

  /** `--force` does not override a hand-written test: it only lets an existing generated class be overwritten. */
  lemma ForceKeepsManual(classExists: bool, path: string, fileExists: string -> bool)
    requires Contains(path, "AutoGen") && fileExists(ManualPath(path))
    ensures SkipReason(false, true, classExists, path, fileExists) == Some(ManualClassExists)
    ensures SkipReason(false, false, classExists, path, fileExists) != None
  {
  }

  /** A path outside `AutoGen` is never checked for a hand-written counterpart. */
  lemma NoManualCheckOutsideAutoGen(reserved: bool, force: bool, classExists: bool, path: string, fileExists: string -> bool)
    requires !Contains(path, "AutoGen")
    ensures SkipReason(reserved, force, classExists, path, fileExists) ==
      if reserved then Some(ReservedName) else if !force && classExists then Some(ClassExists) else None
  {
  }

  // ---------------------------------------------------------------- the opening tag around rendering

  const OpenTag := "<?php"
  const TagPlaceholder := "--php--"

  /** The first half of `buildTestClass`: a leading `<?php` becomes `--php--`, and whether that happened. */
  function HideOpenTag(compiled: string): (string, bool) {
    if StartsWith(compiled, OpenTag) then (TagPlaceholder + compiled[|OpenTag|..], true)
    else (compiled, false)
  }

  /** The second half: when the tag was hidden, a leading `--php--` becomes `<?php` again. */
  function RestoreOpenTag(view: string, removed: bool): string {
    if removed && StartsWith(view, TagPlaceholder) then OpenTag + view[|TagPlaceholder|..]
    else view
  }

  /** `buildTestClass`: hide the tag, render the template, restore the tag. */
  function BuildTestClass(compiled: string, render: string -> string): string {
    var (hidden, removed) := HideOpenTag(compiled);
    RestoreOpenTag(render(hidden), removed)
  }

  /** Restoring undoes hiding: a rendering that changes nothing gives the compiled class back. */
  lemma OpenTagRoundTrip(compiled: string)
    ensures RestoreOpenTag(HideOpenTag(compiled).0, HideOpenTag(compiled).1) == compiled
  {
    if StartsWith(compiled, OpenTag) {
      var hidden := TagPlaceholder + compiled[|OpenTag|..];
      assert StartsWith(hidden, TagPlaceholder);
      assert hidden[|TagPlaceholder|..] == compiled[|OpenTag|..];
      assert OpenTag + compiled[|OpenTag|..] == compiled;
    }
  }

  /** Only the leading tag is hidden: the rest of the class reaches the template unchanged. */
  lemma HideOnlyLeadingTag(compiled: string)
    requires StartsWith(compiled, OpenTag)
    ensures HideOpenTag(compiled).1
    ensures StartsWith(HideOpenTag(compiled).0, TagPlaceholder)
    ensures HideOpenTag(compiled).0[|TagPlaceholder|..] == compiled[|OpenTag|..]
  {
  }

  /** A class without a leading tag is rendered as it is, and a `--php--` the template writes is kept. */
  lemma NoTagNoSwap(compiled: string, render: string -> string)
    requires !StartsWith(compiled, OpenTag)
    ensures BuildTestClass(compiled, render) == render(compiled)
  {
  }
}
