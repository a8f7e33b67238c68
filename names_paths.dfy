/**
 * `NamesAndPathLocations`: the directory names the commands read from and
 * write to. Every getter is a concatenation on `DIRECTORY_SEPARATOR` over a
 * framework root (`resource_path`, `public_path`, `base_path`), which is
 * passed in. The optional directory creation is not modelled.
 */
module PathLocations {
  import opened Strings

  /** `DIRECTORY_SEPARATOR`: `/`, or a backslash on Windows. */
  type Separator = c: char | c == '/' || c == '\\' witness '/'

  /** The framework's path helpers, each applied to a path relative to its root. */
  datatype Roots = Roots(
    /** `resource_path($p)` */
    resourcePath: string -> string,
    /** `public_path($p)` */
    publicPath: string -> string,
    /** `base_path($p)` */
    basePath: string -> string)

  // ---------------------------------------------------------------- the last path component

  /** The text after the last separator (all of `p` when it has none). */
  function Basename(p: string, sep: Separator): (r: string)
    ensures sep !in r
  {
    if p == [] then []
    else if p[|p| - 1] == sep then []
    else Basename(p[..|p| - 1], sep) + [p[|p| - 1]]
  }

  /** The text before the last separator (empty when it has none). */
  function Dirname(p: string, sep: Separator): string {
    if p == [] then []
    else if p[|p| - 1] == sep then p[..|p| - 1]
    else Dirname(p[..|p| - 1], sep)
  }

  /** `parent . DIRECTORY_SEPARATOR . name` is the child `name` of `parent`. */
  lemma {:induction false} ChildPath(parent: string, name: string, sep: Separator)
    requires sep !in name
    ensures Dirname(parent + [sep] + name, sep) == parent
    ensures Basename(parent + [sep] + name, sep) == name
  {
    var p := parent + [sep] + name;
    if name == [] {
      assert p[..|p| - 1] == parent;
    } else {
      var front := name[..|name| - 1];
      assert p[..|p| - 1] == parent + [sep] + front;
      assert p[|p| - 1] == name[|name| - 1];
      ChildPath(parent, front, sep);
      assert front + [name[|name| - 1]] == name;
    }
  }

  // ---------------------------------------------------------------- the documentation directories

  /** `getDocsDir()`: `resource_path('docs')`. */
  function DocsDir(roots: Roots): string {
    roots.resourcePath("docs")
  }

  /** `getApiResponsesStorageDir()` */
  function ApiResponsesStorageDir(roots: Roots, sep: Separator): string {
    DocsDir(roots) + [sep] + "api_responses"
  }

  /** `getApiResponsesAutoGenDir()` */
  function ApiResponsesAutoGenDir(roots: Roots, sep: Separator): string {
    ApiResponsesStorageDir(roots, sep) + [sep] + "auto_generated"
  }

  /** `getApiResponsesManualDir()` */
  function ApiResponsesManualDir(roots: Roots, sep: Separator): string {
    ApiResponsesStorageDir(roots, sep) + [sep] + "manual"
  }

  /** `getDocsOutputDir()`: `public_path(DIRECTORY_SEPARATOR . 'docs')`. */
  function DocsOutputDir(roots: Roots, sep: Separator): string {
    roots.publicPath([sep] + "docs")
  }

  /** `getApiDocsOutputDir()` */
  function ApiDocsOutputDir(roots: Roots, sep: Separator): string {
    DocsOutputDir(roots, sep) + [sep] + "api"
  }

  /** `getApiDocsDir()` */
  function ApiDocsDir(roots: Roots, sep: Separator): string {
    DocsDir(roots) + [sep] + "apidoc"
  }

  /** `getApiDocsAutoGenDir()` */
  function ApiDocsAutoGenDir(roots: Roots, sep: Separator): string {
    ApiDocsDir(roots, sep) + [sep] + "auto_generated"
  }

  /** `getApiDocsManualDir()` */
  function ApiDocsManualDir(roots: Roots, sep: Separator): string {
    ApiDocsDir(roots, sep) + [sep] + "manual"
  }

  /** The stored API responses live in `api_responses` directly under the docs directory. */
  lemma ResponsesStorageUnderDocs(roots: Roots, sep: Separator)
    ensures Dirname(ApiResponsesStorageDir(roots, sep), sep) == DocsDir(roots)
    ensures Basename(ApiResponsesStorageDir(roots, sep), sep) == "api_responses"
  {
    ChildPath(DocsDir(roots), "api_responses", sep);
  }

  /** The generated and the hand-written responses are two different children of `api_responses`. */
  lemma ResponseDirsUnderStorage(roots: Roots, sep: Separator)
    ensures Dirname(ApiResponsesAutoGenDir(roots, sep), sep) == ApiResponsesStorageDir(roots, sep)
    ensures Dirname(ApiResponsesManualDir(roots, sep), sep) == ApiResponsesStorageDir(roots, sep)
    ensures Basename(ApiResponsesAutoGenDir(roots, sep), sep) == "auto_generated"
    ensures Basename(ApiResponsesManualDir(roots, sep), sep) == "manual"
    ensures ApiResponsesAutoGenDir(roots, sep) != ApiResponsesManualDir(roots, sep)
  {
    ChildPath(ApiResponsesStorageDir(roots, sep), "auto_generated", sep);
    ChildPath(ApiResponsesStorageDir(roots, sep), "manual", sep);
    assert "auto_generated" != "manual" by {
      assert |"manual"| == 6;
    }
  }

  /** The apiDoc sources live in `apidoc` under the docs directory, in two different children. */
  lemma ApiDocsDirsUnderApidoc(roots: Roots, sep: Separator)
    ensures Dirname(ApiDocsDir(roots, sep), sep) == DocsDir(roots)
    ensures Dirname(ApiDocsAutoGenDir(roots, sep), sep) == ApiDocsDir(roots, sep)
    ensures Dirname(ApiDocsManualDir(roots, sep), sep) == ApiDocsDir(roots, sep)
    ensures Basename(ApiDocsAutoGenDir(roots, sep), sep) == "auto_generated"
    ensures Basename(ApiDocsManualDir(roots, sep), sep) == "manual"
  {
    ChildPath(DocsDir(roots), "apidoc", sep);
    ChildPath(ApiDocsDir(roots, sep), "auto_generated", sep);
    ChildPath(ApiDocsDir(roots, sep), "manual", sep);
  }

  /** The generated API docs go to `api` directly under the public docs directory. */
  lemma ApiDocsOutputUnderDocsOutput(roots: Roots, sep: Separator)
    ensures Dirname(ApiDocsOutputDir(roots, sep), sep) == DocsOutputDir(roots, sep)
    ensures Basename(ApiDocsOutputDir(roots, sep), sep) == "api"
  {
    ChildPath(DocsOutputDir(roots, sep), "api", sep);
  }

  // ---------------------------------------------------------------- the generated tests

  /** `getTestsAutoGenDir($apiVersion)`; a null version is written as "". */
  function TestsAutoGenDir(sep: Separator, version: string): string {
    var path := "Feature" + [sep] + "AutoGen" + [sep] + "API";
    if !EmptyStr(version) then path + [sep] + Upper(version) else path
  }

  /** The argument `getTestFilePath` gives to `base_path`. */
  function TestRelativePath(sep: Separator, version: string, relativePath: string): string {
    "tests/" + TestsAutoGenDir(sep, version) + [sep] + relativePath
  }

  /** `getTestFilePath($apiVersion, $relativePath)` */
  function TestFilePath(roots: Roots, sep: Separator, version: string, relativePath: string): string {
    roots.basePath(TestRelativePath(sep, version, relativePath))
  }

  /** Upper-casing never produces a separator. */
  lemma UpperKeepsSeparatorOut(s: string, sep: Separator)
    requires sep !in s
    ensures sep !in Upper(s)
  {
    forall i | 0 <= i < |s|
      ensures Upper(s)[i] != sep
    {
      assert s[i] != sep;
    }
  }

  /** Three separator-free components joined by the separator split back into the three. */
  lemma SplitThree(a: string, b: string, c: string, sep: Separator)
    requires sep !in a && sep !in b && sep !in c
    ensures Split(a + [sep] + b + [sep] + c, sep) == [a, b, c]
  {
    SplitHead(b, sep, c);
    assert a + [sep] + b + [sep] + c == a + [sep] + (b + [sep] + c);
    SplitHead(a, sep, b + [sep] + c);
  }

  /** The unversioned directory name: `Feature`, `AutoGen` and `API` joined by the separator. */
  lemma FixedTestsComponents(sep: Separator)
    ensures sep !in "Feature" && sep !in "AutoGen" && sep !in "API"
  {
  }

  /**
   * The tests directory is `Feature/AutoGen/API`, one component each, with
   * the upper-cased version as a fourth component exactly when the version is
   * not empty.
   */
  lemma TestsAutoGenDirParts(sep: Separator, version: string)
    requires sep !in version
    ensures var parts := Split(TestsAutoGenDir(sep, version), sep);
      && |parts| == (if EmptyStr(version) then 3 else 4)
      && parts[0] == "Feature" && parts[1] == "AutoGen" && parts[2] == "API"
      && (!EmptyStr(version) ==> parts[3] == Upper(version))
  {
    FixedTestsComponents(sep);
    if EmptyStr(version) {
      assert TestsAutoGenDir(sep, version) == "Feature" + [sep] + "AutoGen" + [sep] + "API";
      SplitThree("Feature", "AutoGen", "API", sep);
    } else {
      var v := Upper(version);
      UpperKeepsSeparatorOut(version, sep);
      var t := "AutoGen" + [sep] + "API" + [sep] + v;
      assert TestsAutoGenDir(sep, version) == "Feature" + [sep] + t;
      SplitThree("AutoGen", "API", v, sep);
      SplitHead("Feature", sep, t);
      assert Split(TestsAutoGenDir(sep, version), sep) == ["Feature"] + ["AutoGen", "API", v];
    }
  }

  /** A versioned tests directory is the upper-cased version directly under the unversioned one. */
  lemma VersionedTestsDir(sep: Separator, version: string)
    requires !EmptyStr(version) && sep !in version
    ensures Dirname(TestsAutoGenDir(sep, version), sep) == TestsAutoGenDir(sep, "")
    ensures Basename(TestsAutoGenDir(sep, version), sep) == Upper(version)
  {
    UpperKeepsSeparatorOut(version, sep);
    ChildPath(TestsAutoGenDir(sep, ""), Upper(version), sep);
  }

  /** A test file sits directly in the tests directory, under `tests/`, with the relative path as its name. */
  lemma TestFileInTestsDir(sep: Separator, version: string, relativePath: string)
    requires sep !in relativePath
    ensures Dirname(TestRelativePath(sep, version, relativePath), sep) == "tests/" + TestsAutoGenDir(sep, version)
    ensures Basename(TestRelativePath(sep, version, relativePath), sep) == relativePath
  {
    ChildPath("tests/" + TestsAutoGenDir(sep, version), relativePath, sep);
  }
}
