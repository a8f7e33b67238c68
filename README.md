# laravel-api-helpers documentation pipeline, in Dafny

This project models the in-memory core of the documentation pipeline of
`laravel-api-helpers`. The pipeline has five stages:

- A controller describes an endpoint with an `APICall`. The call holds its
  `Param`s, including the `name|type|required|{{var}}|description` shorthand.
- `DocBuilder::register` fills in what the call leaves empty and records it.
- `GenerateDocsCommand::createSwaggerJson` projects the recorded calls into a
  Swagger 2.0 document (`SwaggerV2`) and a Postman environment
  (`PostmanEnvironment`). It merges headers, params and `use`d fragments,
  splits off the `x-api-key`/`x-access-token` security headers, rewrites
  dotted names and names the response definitions (`ModelDefinition`).
- `PostmanCollectionBuilder` turns that document into the collection Postman
  imports.
- `PostmanCollectionReader`, `PostmanVar` and `GenerateApiTestsCommand` read
  the collection back to name and fill in the generated API tests.

Each source file is one Dafny module:

| module | source file |
|---|---|
| `Params` | `Param.php` |
| `ApiCalls` | `APICall.php` |
| `DocBuilders` | `DocBuilder.php` |
| `DocsCommand` | `GenerateDocsCommand.php` |
| `ModelDefinitions` | `ModelDefinition.php` |
| `FileGenerators` | `BaseFileGenerator.php` |
| `SwaggerDocs` | `SwaggerV2.php` |
| `PostmanEnvironments` | `PostmanEnvironment.php` |
| `PostmanCollectionBuilders` | `PostmanCollectionBuilder.php` |
| `PostmanCollectionReaders` | `PostmanCollectionReader.php` |
| `PostmanVars` | `PostmanVar.php` |
| `ApiTests` | `GenerateApiTestsCommand.php` |
| `PathLocations` | `NamesAndPathLocations.php` |

`PostmanRoundTrip` composes the generator, the collection builder and the
reader. It proves that each security header of an operation comes back
exactly once in the parameters the reader lists.

How the model is shaped:

- **State.** Objects whose methods update fields are classes with those
  fields: `Param`, `APICall`, `DocBuilder`, `SwaggerV2`,
  `PostmanEnvironment`, `PostmanCollectionBuilder` and
  `PostmanCollectionReader`. The loops of the source are methods. Each
  method is proved against a specification function, and the lemmas are
  proved about that function.
- **PHP arrays.** These are the `Json` datatype of `JsonValues`. A map is an
  insertion-ordered list of key/value pairs, so document order is part of
  every statement.
- **Strings.** The PHP string built-ins are written out in `Strings`:
  `empty()`, case mapping, `trim`, `explode`/`implode`, `str_replace`.
  `empty()` treats `""` and `"0"` as empty.
- **Opaque helpers.** The helpers the pipeline calls but does not define are
  fields of one `Framework.Helpers` record of functions, so every property
  holds whatever they compute. These are `Str::snake`, `singular`,
  `studly`, `Text::reverseSnake`, `parse_url`, the HTTP status-text table,
  the reflection short class name, `json_encode` and `Yaml::dump`.

Two details are modelled as the code has them, which is narrower than a
reader might expect:

- `Param::setVariable` trims only whitespace, NUL and braces. A leading `$`
  is kept, as the docblock's `{{$randomExampleEmail}}` example shows.
- `APICall::setParams` never rejects an empty name, although it carries an
  "Invalid param value" exception: its `isset($args[0])` guard always
  holds, because `explode` yields at least one element.

## Model

| member | source | states |
|---|---|---|
| PathLocations.ResponsesStorageUnderDocs | src/Domain/Traits/NamesAndPathLocations.php:14-43 | the stored API responses live in `api_responses`, a direct child of the docs directory |
| PathLocations.ResponseDirsUnderStorage | src/Domain/Traits/NamesAndPathLocations.php:50-75 | `auto_generated` and `manual` are two distinct direct children of the responses directory |
| PathLocations.ApiDocsDirsUnderApidoc | src/Domain/Traits/NamesAndPathLocations.php:114-155 | `apidoc` is a direct child of the docs directory, and its `auto_generated` and `manual` directories are direct children of it |
| PathLocations.ApiDocsOutputUnderDocsOutput | src/Domain/Traits/NamesAndPathLocations.php:82-107 | the generated API docs go to `api`, a direct child of the public docs directory |
| PathLocations.TestsAutoGenDirParts | src/Domain/Traits/NamesAndPathLocations.php:161-170 | the tests directory splits into `Feature`, `AutoGen`, `API`, plus the upper-cased version as a fourth component exactly when the version is not empty |
| PathLocations.VersionedTestsDir | src/Domain/Traits/NamesAndPathLocations.php:161-170 | a versioned tests directory is the upper-cased version directly under the unversioned one |
| PathLocations.TestFileInTestsDir | src/Domain/Traits/NamesAndPathLocations.php:177-180 | a test file sits directly in the tests directory under `tests/`, and its last component is the relative path |
| PostmanVars.BooleanWins | src/Domain/Postman/PostmanVar.php:64-68 | a boolean parameter becomes `true` or `false` by the truthiness of its value, whatever variable that value names |
| PostmanVars.EmailsAgree | src/Domain/Postman/PostmanVar.php:80-83 | both e-mail variables map to `$faker->safeEmail` |
| PostmanVars.QuotedIff | src/Domain/Postman/PostmanVar.php:59-96 | the expression is a quoted literal if and only if the type is not boolean and the value names no known variable |
| PostmanVars.FakerForShape | src/Domain/Postman/PostmanVar.php:70-92 | every known variable maps to an expression starting with `$` or a backslash, never a quote |
| PostmanVars.NoEscaping | src/Domain/Postman/PostmanVar.php:93-95 | a value with nothing to trim on its left is written between quotes unescaped, as it is |
| PostmanVars.LeftTrimmedOnly | src/Domain/Postman/PostmanVar.php:93-95 | the literal loses its leading whitespace and `$`, and its right end is kept |
| PostmanEnvironments.Lookup | src/Domain/FileGenerators/Postman/PostmanEnvironment.php:63-85 | a variable is found if and only if some variable carries the key |
| PostmanEnvironments.Upserted | src/Domain/FileGenerators/Postman/PostmanEnvironment.php:63-85 | a present key keeps the list's length, an absent one is appended last with the new value, and no existing key moves |
| PostmanEnvironments.Removed | src/Domain/FileGenerators/Postman/PostmanEnvironment.php:94-101 | the result is no longer than the list and holds no variable with the key |
| PostmanEnvironments.LookupAppend | src/Domain/FileGenerators/Postman/PostmanEnvironment.php:63-85 | a lookup in a concatenation finds the first part's variable before the second's |
| PostmanEnvironments.UpdatedLookup | src/Domain/FileGenerators/Postman/PostmanEnvironment.php:68-74 | after the `transform` pass the key reads back as the new value when it was present, and every other key's value is unchanged |
| PostmanEnvironments.UpsertedLookup | src/Domain/FileGenerators/Postman/PostmanEnvironment.php:63-85 | after `addVariable` the key reads back as the new value and every other key's value is unchanged |
| PostmanEnvironments.UpsertedHasKey | src/Domain/FileGenerators/Postman/PostmanEnvironment.php:63-85 | after `addVariable` exactly the old keys and the new key are present |
| PostmanEnvironments.UpsertedUnique | src/Domain/FileGenerators/Postman/PostmanEnvironment.php:63-85 | `addVariable` never creates a second variable with the same key |
| PostmanEnvironments.UpsertedTwice | src/Domain/FileGenerators/Postman/PostmanEnvironment.php:63-85 | adding the same variable twice equals adding it once |
| PostmanEnvironments.UpsertedOverwrite | src/Domain/FileGenerators/Postman/PostmanEnvironment.php:63-85 | a later `addVariable` for the same key wins and the list keeps its shape |
| PostmanEnvironments.RemovedLookup | src/Domain/FileGenerators/Postman/PostmanEnvironment.php:94-101 | after `removeVariable` the key is absent and every other key's value is unchanged |
| PostmanEnvironments.RemovedHasKey | src/Domain/FileGenerators/Postman/PostmanEnvironment.php:94-101 | removing one key keeps every other key present exactly when it was |
| PostmanEnvironments.RemovedAbsent | src/Domain/FileGenerators/Postman/PostmanEnvironment.php:94-101 | removing a key that is not there changes nothing |
| PostmanEnvironments.RemovedUndoesUpserted | src/Domain/FileGenerators/Postman/PostmanEnvironment.php:63-101 | removing a variable that was just added as new restores the list exactly |
| PostmanEnvironments.PostmanEnvironment.constructor | src/Domain/FileGenerators/Postman/PostmanEnvironment.php:17-21 | the schema holds only `_postman_variable_scope` = `environment` and there are no variables |
| PostmanEnvironments.PostmanEnvironment.SetName | src/Domain/FileGenerators/Postman/PostmanEnvironment.php:30-35 | the schema gains `name` and the variables are unchanged |
| PostmanEnvironments.PostmanEnvironment.AddVariable | src/Domain/FileGenerators/Postman/PostmanEnvironment.php:63-85 | the loop with its `isUpdated` flag leaves exactly the upserted list, keeps one variable per key and leaves the schema alone |
| PostmanEnvironments.PostmanEnvironment.RemoveVariable | src/Domain/FileGenerators/Postman/PostmanEnvironment.php:94-101 | the `reject` pass leaves exactly the list without the key, keeps one variable per key and leaves the schema alone |
| PostmanEnvironments.PostmanEnvironment.SetServerUrl | src/Domain/FileGenerators/Postman/PostmanEnvironment.php:47-53 | the URL's scheme, then its host, are upserted as the `scheme` and `host` variables |
| PostmanEnvironments.PostmanEnvironment.GetOutput | src/Domain/FileGenerators/Postman/PostmanEnvironment.php:109-116 | the output is the schema with the variable list under `values` and every other key unchanged |
| PostmanEnvironments.ServerUrlOnNewEnvironment | src/Domain/FileGenerators/Postman/PostmanEnvironment.php:47-53 | on a new environment the server URL yields exactly the `scheme` and `host` variables, in that order |
| SwaggerDocs.DefaultSchemaShape | src/Domain/FileGenerators/Swagger/SwaggerV2.php:22-32 | the default document declares Swagger `2.0` and starts with a null host and an empty scheme list |
| SwaggerDocs.DefaultSchemaNoBasePath | src/Domain/FileGenerators/Swagger/SwaggerV2.php:33 | the default document's base path is null until one is set |
| SwaggerDocs.DefaultSchemaNoPaths | src/Domain/FileGenerators/Swagger/SwaggerV2.php:34 | the default document starts with no paths |
| SwaggerDocs.DefaultSchemaSecurity | src/Domain/FileGenerators/Swagger/SwaggerV2.php:35-48 | the default document declares exactly the `apiKey` and `accessToken` schemes |
| SwaggerDocs.SecuritySchemesShape | src/Domain/FileGenerators/Swagger/SwaggerV2.php:36-47 | `apiKey` names the `x-api-key` header and `accessToken` the `x-access-token` header |
| SwaggerDocs.SecuritySchemesInHeader | src/Domain/FileGenerators/Swagger/SwaggerV2.php:35-48 | both schemes are sent in a header |
| SwaggerDocs.WithPathDataStores | src/Domain/FileGenerators/Swagger/SwaggerV2.php:118-123 | after `addPathData` the operation under that path and method is the data given |
| SwaggerDocs.WithPathDataFrame | src/Domain/FileGenerators/Swagger/SwaggerV2.php:118-123 | `addPathData` changes no other path-and-method pair and no top-level key but `paths` |
| SwaggerDocs.WithServerUrl | src/Domain/FileGenerators/Swagger/SwaggerV2.php:85-91 | the host becomes the URL's host, the schemes a one-element list of its scheme, and every other key is kept |
| SwaggerDocs.SwaggerV2.constructor | src/Domain/FileGenerators/Swagger/SwaggerV2.php:10-13 | a new generator holds the default document |
| SwaggerDocs.SwaggerV2.SetBasePath | src/Domain/FileGenerators/Swagger/SwaggerV2.php:61-66 | only `basePath` is set |
| SwaggerDocs.SwaggerV2.SetHost | src/Domain/FileGenerators/Swagger/SwaggerV2.php:68-73 | only `host` is set |
| SwaggerDocs.SwaggerV2.SetSchemes | src/Domain/FileGenerators/Swagger/SwaggerV2.php:101-106 | only `schemes` is set |
| SwaggerDocs.SwaggerV2.SetServerUrl | src/Domain/FileGenerators/Swagger/SwaggerV2.php:85-91 | the document afterwards is the one `WithServerUrl` describes: host and schemes from the URL, nothing else changed |
| SwaggerDocs.SwaggerV2.AddPathData | src/Domain/FileGenerators/Swagger/SwaggerV2.php:118-123 | the document afterwards is the one whose storing and frame properties `WithPathDataStores` and `WithPathDataFrame` prove |
| SwaggerDocs.SwaggerV2.AddToSchema | src/Domain/FileGenerators/BaseFileGenerator.php:24-29 | only the given key is set, to the given value |
| SwaggerDocs.SwaggerV2.GetOutput | src/Domain/FileGenerators/Swagger/SwaggerV2.php:126-140 | the output is the document as it stands, and reading it changes nothing |
| FileGenerators.SchemaGenerator.constructor | src/Domain/FileGenerators/BaseFileGenerator.php:12 | a generator starts with an empty schema |
| FileGenerators.SchemaGenerator.AddToSchema | src/Domain/FileGenerators/BaseFileGenerator.php:24-29 | only the given key is set, to the given value |
| FileGenerators.SchemaGenerator.AppendToSchemaArray | src/Domain/FileGenerators/BaseFileGenerator.php:39-44 | the append fails exactly when the slot holds a string, a number or `true`, leaving the schema unchanged with an error naming the key; an absent, null, `false` or empty slot becomes a one-element list, a list grows at its end, and a non-empty map gets the value under its next integer key |
| FileGenerators.AppendToMapSpec | src/Domain/FileGenerators/BaseFileGenerator.php:39-44 | appending to a non-empty map adds the value under a new integer key above every integer key the map has, keeps the map's entries and order, and leaves the rest of the schema alone |
| FileGenerators.AppendSpec | src/Domain/FileGenerators/BaseFileGenerator.php:39-44 | appending to a list extends it by the value at its end and leaves every other key alone |
| FileGenerators.Write | src/Domain/FileGenerators/BaseFileGenerator.php:56-105 | with `overwrite` off an existing file fails with `FileExistsException`; otherwise the write succeeds exactly when encoding does, with the encoded text, and an encoding failure is `FileGenerationFailedException` |
| FileGenerators.WriteJson | src/Domain/FileGenerators/BaseFileGenerator.php:56-74 | the JSON writer succeeds exactly when the file may be written and the output encodes, and writes the pretty-printed text |
| FileGenerators.WriteYaml | src/Domain/FileGenerators/BaseFileGenerator.php:88-105 | the YAML writer succeeds exactly when the file may be written and the dump succeeds, and writes the dumped text |
| FileGenerators.WriteJsonAsWritten | src/Domain/FileGenerators/BaseFileGenerator.php:56-74 | as written, the JSON writer fails only on an existing file with `overwrite` off |
| FileGenerators.WriteJsonAsWrittenLosesFailure | src/Domain/FileGenerators/BaseFileGenerator.php:62-71 | for an output the encoder rejects, the code as written reports success with an empty file where the intended writer fails |
| FileGenerators.WriteJsonAgrees | src/Domain/FileGenerators/BaseFileGenerator.php:56-74 | whenever encoding succeeds, the code as written and the intended writer give the same result |
| Params.DataTypesMembers | src/Docs/Param.php:65-76 | the data-type list has seven entries naming exactly `string`, `integer`, `number`, `boolean` and `array` (three of them `number`) |
| Params.ColonSegment | src/Docs/APICall.php:258-276 | a segment containing a colon is never empty, a type name or a flag, so it always reaches the colon split |
| Params.NormalizeVariableShape | src/Docs/Param.php:322-330 | the stored variable starts with `{{`, ends with `}}`, and the name between has no brace or whitespace at either end |
| Params.NormalizeVariableIdempotent | src/Docs/Param.php:322-330 | setting an already normalised variable changes nothing |
| Params.NormalizeDollarVariable | src/Docs/Param.php:322-330 | a dynamic Postman variable such as `{{$randomEmail}}` keeps its `$` and is stored as given |
| Params.BracedStable | src/Docs/Param.php:325-327 | the final whitespace trim of `setVariable` has nothing to remove from a braced text |
| Params.SwaggerDataType | src/Docs/Param.php:228-257 | every data type maps to one of the six Swagger primitive names |
| Params.SwaggerDataTypeIgnoresCase | src/Docs/Param.php:230 | the mapping gives the same answer for a name and its lower-case form |
| Params.SwaggerDataTypeFixpoints | src/Docs/Param.php:232-255 | `integer`, `boolean`, `array`, `object` and `string` map to themselves |
| Params.SwaggerDataTypeNumbers | src/Docs/Param.php:236-255 | `float` and `double` map to `number`, while `number` itself, the value of `TYPE_NUMBER`, falls to the default `string` |
| Params.SwaggerDataTypeModel | src/Docs/Param.php:245-247 | `model`, in either case, maps to `object` |
| Params.NewParamDefaults | src/Docs/Param.php:43-53 | a new parameter is required, typed and located as given; an `array` type also gets format `multi` and string items; an empty description is replaced by the upper-cased reverse-snake name exactly when the name is not empty |
| Params.SetterNamed | src/Docs/APICall.php:291-292 | a method name found as a setter is that setter's name up to letter case |
| Params.SetterNamedComplete | src/Docs/APICall.php:291-292 | every setter of `Param` is found under its own name in any letter case |
| Params.ParseShorthandNameAndArrays | src/Docs/APICall.php:248-300 | the parsed parameter is named by the text before the first `\|`, and whenever it ends up typed `array` it has a collection format and items |
| Params.ApplySegmentsArrayReady | src/Docs/APICall.php:256-300 | no segment leaves an `array` parameter without format or items |
| Params.ApplySegmentsName | src/Docs/APICall.php:256-300 | no segment changes the parameter's name |
| Params.LaterFlagWins | src/Docs/APICall.php:269-276 | a final `optional` makes the parameter optional and a final `required` required, whatever came before |
| Params.ClassifyPlain | src/Docs/APICall.php:298-299 | a segment that is no type, flag or variable and has no colon becomes the description |
| Params.ClassifySetter | src/Docs/APICall.php:285-295 | a colon segment whose prefix names a setter calls it with the text after the first colon |
| Params.ClassifyUnknownSetter | src/Docs/APICall.php:285-299 | a colon segment whose prefix names no setter becomes a description holding only the text after the first colon |
| Params.UnknownSetterBecomesDescription | src/Docs/APICall.php:285-299 | `prefix:mid` or `prefix:mid:...` with an unknown prefix sets the description to `mid` alone and changes nothing else |
| Params.FormDataSegmentIsDescription | src/Docs/APICall.php:258-299 | a bare `formData` segment sets the description, not the location |
| Params.SetterSegmentApplies | src/Docs/APICall.php:285-295 | `name:value` whose name studly-cases to a setter has exactly that setter's effect |
| Params.LocationSegment | src/Docs/APICall.php:285-295 | `location:header` puts the parameter in the header and changes nothing else |
| Params.ParseShorthandJoin | src/Docs/APICall.php:248-256 | the parameter built from `name\|seg\|...` is the new string parameter with the segments applied in order |
| Params.HeaderShorthand | src/Docs/APICall.php:248-300 | `<name>\|location:header\|optional` yields the new string parameter, in the header and optional |
| Params.HeaderSegments | src/Docs/APICall.php:256-300 | the segments `location:header` then `optional` move any parameter to the header and make it optional |
| Params.OptionalSegmentApplies | src/Docs/APICall.php:273-275 | an `optional` segment clears the required flag and nothing else |
| Params.BraceVariable | src/Docs/Param.php:322-330 | the two trims of `setVariable` give the normalised placeholder |
| Params.Param.constructor | src/Docs/Param.php:43-53 | the new object's state is the defaults `NewParamDefaults` describes |
| Params.Param.GetDataType | src/Docs/Param.php:106-109 | the type is returned with its first letter upper-cased and the rest as stored |
| Params.Param.Required | src/Docs/Param.php:89-94 | only the required flag changes, to true |
| Params.Param.Optional | src/Docs/Param.php:96-101 | only the required flag changes, to false |
| Params.Param.SetDataTypeOnly | src/Docs/Param.php:114-119 | `dataType()` changes only the type, even to `array` |
| Params.Param.SetDataType | src/Docs/Param.php:335-346 | the type is set; an `array` type also sets format `multi` and string items, and any other type changes nothing else |
| Params.Param.SetVariable | src/Docs/Param.php:322-330 | only the variable changes, to the normalised placeholder |
| Params.Param.SetLocation | src/Docs/Param.php:186-191 | only the location changes |
| Params.Param.SetModel | src/Docs/Param.php:196-201 | only the model changes |
| Params.Param.SetDefaultValue | src/Docs/Param.php:216-221 | only the default value changes |
| Params.Param.SetExample | src/Docs/Param.php:297-302 | only the example changes |
| Params.Param.SetDescription | src/Docs/Param.php:352-356 | only the description changes, possibly to null |
| Params.Param.SetCollectionFormat | src/Docs/Param.php:379-383 | only the collection format changes |
| Params.Param.SetItems | src/Docs/Param.php:390-394 | only the items change |
| Params.Param.SetArrayType | src/Docs/Param.php:396-403 | only the items change, to a map holding the item type |
| Params.Dispatch | src/Docs/APICall.php:291-294 | calling a setter by name has that setter's effect on the state |
| Params.ApplySegmentTo | src/Docs/APICall.php:256-300 | one pass of the segment loop changes the parameter exactly as the segment's classification says |
| Params.Param.Field | src/Docs/Param.php:168-173 | only the name changes |
| Params.Param.Describe | src/Docs/Param.php:150-155 | only the description changes, to the given text |
| Params.Param.Default | src/Docs/Param.php:132-137 | only the default value changes |
| ApiCalls.ParsedParams | src/Docs/APICall.php:241-313 | the list is accepted exactly when every element is a string or a `Param`; then it has one parameter per element, in order, a string parsed by the shorthand rules and a `Param` kept as given; otherwise the error is `InvalidArgumentException` |
| ApiCalls.ParseParamObject | src/Docs/APICall.php:248-300 | the loop over the segments after the name builds exactly the parameter the shorthand rules describe, in a fresh object |
| ApiCalls.ReplaceNamed | src/Docs/APICall.php:464-470 | the list keeps its length, every header with the new header's name is replaced by it in place, and every other header stays |
| ApiCalls.AddedHeaderUpsert | src/Docs/APICall.php:456-478 | without duplicates: a known name keeps the list's length, an unknown one is appended; afterwards the name is present, every header with it is the new one, and headers with other names are unchanged |
| ApiCalls.AddedHeaderUnique | src/Docs/APICall.php:456-478 | adding without duplicates keeps header names unique |
| ApiCalls.AddedHeaderIdempotent | src/Docs/APICall.php:456-478 | adding the same header twice without duplicates equals adding it once |
| ApiCalls.AddedHeaderDuplicate | src/Docs/APICall.php:473-475 | with duplicates allowed the header is always appended |
| ApiCalls.AddedHeadersUnique | src/Docs/APICall.php:439-446 | `setHeaders` keeps header names unique |
| ApiCalls.HeaderRecords | src/Docs/APICall.php:439-446 | one header per given `Param`, each moved to the header location |
| ApiCalls.StatusLabel | src/Docs/APICall.php:638-646 | a truthy explicit message wins; else the status table's text; else `Unknown` |
| ApiCalls.StoredExamples | src/Docs/APICall.php:161-176 | the stored responses of one kind yield at most one example each |
| ApiCalls.StoredExamplesSpec | src/Docs/APICall.php:161-176 | every example is of the requested kind by its leading `2`, comes from a stored response with the same code and text, and is labelled from the status table |
| ApiCalls.StoredExamplesPartition | src/Docs/APICall.php:167-174 | every stored response becomes exactly one example, success or error |
| ApiCalls.OperationIdFallback | src/Docs/APICall.php:719-734 | the random fallback is used exactly when group, method and name are all empty |
| ApiCalls.OperationIdAllParts | src/Docs/APICall.php:715-740 | with group, method and name given and no id stored, the id is the snake-cased lower-case `group_method_name` |
| ApiCalls.OperationIdCached | src/Docs/APICall.php:715-740 | once derived, the cached id is returned again whatever the random fallback would give |
| ApiCalls.OperationIdGiven | src/Docs/APICall.php:715-750 | an id given to `setOperationId` is returned verbatim |
| ApiCalls.FieldLabel | src/Docs/APICall.php:82-84 | a required parameter is written by its name, an optional one as `[name]` |
| ApiCalls.ParamLine | src/Docs/APICall.php:72-86 | a parameter line is written exactly when the name is not empty and the description not null; an empty name is the "requires a fieldname" exception |
| ApiCalls.ParamLines | src/Docs/APICall.php:72-89 | a list of parameters renders exactly when each does, one line each |
| ApiCalls.EntryLines | src/Docs/APICall.php:92-109 | the success parameters render exactly when each `Param` among them does, raw texts always, one line each |
| ApiCalls.UseLines | src/Docs/APICall.php:132-134 | one `@apiUse` line per fragment name, in order |
| ApiCalls.ExampleLines | src/Docs/APICall.php:144-154 | two lines per example, header then text |
| ApiCalls.DocBody | src/Docs/APICall.php:52-140 | the block is written exactly when every parameter, success parameter and header that is a `Param` has a name and a description |
| ApiCalls.JoinEnds | src/Docs/APICall.php:158 | an `implode` of two or more pieces starts with the first piece and the separator and ends with the separator and the last piece |
| ApiCalls.DocTextFrame | src/Docs/APICall.php:52-159 | the comment block starts with `###` and CRLF and ends with CRLF and `###` |
| ApiCalls.DocBodyOpens | src/Docs/APICall.php:54-56 | the block's first line is `###` |
| ApiCalls.RenderParams | src/Docs/APICall.php:72-129 | the loop over `Param`s gives the lines of the list, or the first parameter's exception |
| ApiCalls.ParamLinesFailure | src/Docs/APICall.php:72-129 | once a prefix of the list throws, the whole list throws the same exception |
| ApiCalls.RenderEntries | src/Docs/APICall.php:92-109 | the loop over the success parameters gives their lines, or the first exception |
| ApiCalls.EntryLinesFailure | src/Docs/APICall.php:92-109 | once a prefix of the success parameters throws, the whole list throws the same exception |
| ApiCalls.APICall.constructor | src/Docs/APICall.php:18-43 | a new call has version `1.0.0`, adds default headers, and every other field empty |
| ApiCalls.APICall.SetRoute | src/Docs/APICall.php:223-228 | only the route changes |
| ApiCalls.APICall.SetGroup | src/Docs/APICall.php:326-331 | only the group changes |
| ApiCalls.APICall.SetMethod | src/Docs/APICall.php:344-349 | only the method changes |
| ApiCalls.APICall.SetName | src/Docs/APICall.php:381-386 | only the name changes |
| ApiCalls.APICall.SetDescription | src/Docs/APICall.php:363-368 | only the description changes |
| ApiCalls.APICall.SetRequestExample | src/Docs/APICall.php:399-404 | only the request example changes; it must be an array |
| ApiCalls.APICall.SetSuccessParams | src/Docs/APICall.php:429-434 | only the success parameters change |
| ApiCalls.APICall.SetVersion | src/Docs/APICall.php:513-518 | only the version changes |
| ApiCalls.APICall.SetDefine | src/Docs/APICall.php:531-539 | the call becomes a fragment with that title and description; nothing else changes |
| ApiCalls.APICall.SetUse | src/Docs/APICall.php:552-557 | the fragment name is appended to `use`; nothing else changes |
| ApiCalls.APICall.NoDefaultHeaders | src/Docs/APICall.php:571-576 | only the default-headers flag changes, to false |
| ApiCalls.APICall.SetConsumes | src/Docs/APICall.php:659-664 | only the consumed types change |
| ApiCalls.APICall.HasFileUploads | src/Docs/APICall.php:672-677 | the call consumes multipart form data only |
| ApiCalls.APICall.SetSuccessObject | src/Docs/APICall.php:690-695 | only the success object changes |
| ApiCalls.APICall.SetSuccessPaginatedObject | src/Docs/APICall.php:705-710 | only the paginated success object changes |
| ApiCalls.APICall.SetOperationId | src/Docs/APICall.php:745-750 | only the operation id changes |
| ApiCalls.APICall.SetParams | src/Docs/APICall.php:241-313 | on acceptance the parameters become the parsed list and nothing else changes; on an element that is neither a string nor a `Param` the exception is raised and the call is left as it was |
| ApiCalls.APICall.AddHeader | src/Docs/APICall.php:456-478 | the given `Param` itself is moved to the header location, and the headers become the upserted or appended list `AddedHeaderUpsert` describes |
| ApiCalls.APICall.SetHeaders | src/Docs/APICall.php:439-446 | every given `Param` is moved to the header location and the headers become those added one by one without duplicates |
| ApiCalls.APICall.SetSuccessExample | src/Docs/APICall.php:593-602 | one success example is appended, with code 200 unless given and its label by `StatusLabel` |
| ApiCalls.APICall.SetErrorExample | src/Docs/APICall.php:610-619 | one error example is appended, with code 404 unless given and its label by `StatusLabel` |
| ApiCalls.APICall.GetOperationId | src/Docs/APICall.php:715-740 | the id returned is the stored one or the derived one, and it is stored for the next call |
| ApiCalls.APICall.AddStoredApiResponses | src/Docs/APICall.php:161-176 | with no success example yet, the stored responses become success and error examples by their code, in order; otherwise nothing changes |
| ApiCalls.APICall.GetApiDoc | src/Docs/APICall.php:52-159 | an unnamed or undescribed `Param` throws before any state changes; otherwise the stored responses are added and the result is the body and the examples joined by CRLF |
| DocBuilders.RegisterInert | src/Docs/DocBuilder.php:34-36 | outside documentation mode the call is neither changed nor stored |
| DocBuilders.RegisterFragment | src/Docs/DocBuilder.php:39-46 | a fragment is stored at once with its use list, route, method and name untouched; only an empty group is filled in, with the snake-cased title |
| DocBuilders.RegisterDefaultHeaders | src/Docs/DocBuilder.php:47-50 | a non-fragment that adds default headers gets `default_headers` appended to `use` |
| DocBuilders.RegisterNeedsRoute | src/Docs/DocBuilder.php:53-58 | a non-fragment with no route of its own and no intercepted uri throws and is not stored |
| DocBuilders.RegisterComplete | src/Docs/DocBuilder.php:53-127 | a stored non-fragment always has a route, a method, a group and a name |
| DocBuilders.CompleteCallFills | src/Docs/DocBuilder.php:63-125 | completing a call keeps its route and leaves method, group and name filled in |
| DocBuilders.DefaultNameFilled | src/Docs/DocBuilder.php:86-120 | every default name is at least a verb and a space, so never empty |
| DocBuilders.IndexBeatsSearch | src/Docs/DocBuilder.php:101-112 | for a read whose action mentions both `search` and `index`, the name is `Search <singular group>` |
| DocBuilders.MiscAfterName | src/Docs/DocBuilder.php:85-125 | with no group and no action, the name is derived from the empty group and only afterwards does the group become `Misc` |
| DocBuilders.CompleteCallIn | src/Docs/DocBuilder.php:63-125 | the method, group and name steps on the call object leave exactly the state, stored flag and error of the pure description |
| DocBuilders.DocBuilder.constructor | src/Docs/DocBuilder.php:14-17 | a new registry has no calls and an empty interceptor |
| DocBuilders.DocBuilder.Reset | src/Docs/DocBuilder.php:19-22 | every registered call is forgotten and the interceptor kept |
| DocBuilders.DocBuilder.SetInterceptor | src/Docs/DocBuilder.php:147-152 | all three interceptor slots are overwritten; the calls are kept |
| DocBuilders.DocBuilder.ClearInterceptor | src/Docs/DocBuilder.php:154-157 | all three interceptor slots are emptied; the calls are kept |
| DocBuilders.DocBuilder.Register | src/Docs/DocBuilder.php:32-128 | the call is completed in place as `Registered` describes, appended exactly when stored, and the exception returned when one is thrown |
| DocBuilders.DocBuilder.FindByDefinition | src/Docs/DocBuilder.php:130-145 | the result is absent exactly when no registered call is defined under the title, and otherwise it is the first such call in registration order |
| DocBuilders.DocBuilder.GetApiCalls | src/Docs/DocBuilder.php:159-162 | the registered calls, in registration order |
| ModelDefinitions.ObjectProperties | src/Domain/ModelDefinition.php:328-338 | an object definition built with a property list exposes exactly that list |
| ModelDefinitions.EnvelopeProperties | src/Domain/ModelDefinition.php:76-98 | the response envelope is an object with a string `message`, a boolean `result` defaulting to true, and the given payload |
| ModelDefinitions.ErrorDefinitionsShape | src/Domain/ModelDefinition.php:73-101 | the error definitions are `ApiErrorUnauthorized`, `ApiErrorAccessDenied` and `ApiError`, in that order, each the envelope with an object payload |
| ModelDefinitions.SuccessDefinition | src/Domain/ModelDefinition.php:103-117 | for a class whose short name is known, a one-entry map under the response name whose payload references that short name; an unknown class is the reflection error |
| ModelDefinitions.PaginatedDefinition | src/Domain/ModelDefinition.php:119-139 | for a known class, a one-entry map under the response name whose payload is an array of references to the short name and whose `paginator` references `Paginator`; an unknown class is the reflection error |
| ModelDefinitions.EnvelopeShared | src/Domain/ModelDefinition.php:103-139 | the plain and the paginated success definitions are both objects with the same `message` and `result` properties |
| ModelDefinitions.AllDefinitionsErrorsWin | src/Domain/ModelDefinition.php:148-151 | after the merge each error name holds its error definition, every other name keeps its model definition, and unique names stay unique |
| ModelDefinitions.ColumnFieldsUnique | src/Domain/ModelDefinition.php:239-248 | the column map holds each column name once |
| ModelDefinitions.VisibleFieldsSpec | src/Domain/ModelDefinition.php:256-262 | a visible list selects exactly its own keys, each typed from its column or `string` when there is none |
| ModelDefinitions.VisibleFieldsUnique | src/Domain/ModelDefinition.php:256-262 | the visible selection holds each key once |
| ModelDefinitions.VisibleFieldsKeys | src/Domain/ModelDefinition.php:256-262 | distinct visible keys come out in their visible order |
| ModelDefinitions.WithExtrasSpec | src/Domain/ModelDefinition.php:266-275 | the last extra naming a key decides its value (`string` for a listed name), every other key is kept, and keys stay unique |
| ModelDefinitions.ShownFieldsSpec | src/Domain/ModelDefinition.php:250-280 | hidden keys never appear; other keys take the last extra naming them, else their visible selection, or every column when nothing is marked visible; keys are unique |
| ModelDefinitions.PropertyOf | src/Domain/ModelDefinition.php:283-324 | every property is a non-empty map led by `type` or `$ref` |
| ModelDefinitions.PropertyTypeKept | src/Domain/ModelDefinition.php:284-320 | a field described by a map with a type keeps that type in its property whenever the property has one |
| ModelDefinitions.PropertyRefIff | src/Domain/ModelDefinition.php:284-320 | a typed field becomes a bare reference exactly when its type is loosely `object`, not `array`, and it names items |
| ModelDefinitions.PropertyOfScalar | src/Domain/ModelDefinition.php:321-323 | a scalar field value becomes a one-key property whose type is that value |
| ModelDefinitions.PropertiesOfFieldsKeys | src/Domain/ModelDefinition.php:282-324 | there is one property per shown field, in the fields' order |
| ModelDefinitions.PropertiesOfFieldsSpec | src/Domain/ModelDefinition.php:282-324 | each shown field's property is the one `PropertyOf` gives for its value, and no other key has one |
| ModelDefinitions.ModelDefinitionSpec | src/Domain/ModelDefinition.php:232-341 | a model's definition is named by its short name, is an object, carries `properties` exactly when some field is shown, and holds one property per shown field, in order |
| ModelDefinitions.FirstNamedSnoc | src/Domain/ModelDefinition.php:30-42 | appending a model changes the first model of a name only when no earlier model had it |
| ModelDefinitions.ModelDefinitionsFirstWins | src/Domain/ModelDefinition.php:30-42 | every name holds the definition of the first non-hidden model carrying it, and hidden names hold none |
| ModelDefinitions.ModelDefinitionsUnique | src/Domain/ModelDefinition.php:30-42 | the merged model definitions hold each name once |
| ModelDefinitions.AllModelDefinitionsSpec | src/Domain/ModelDefinition.php:19-65 | with the flag off there are no model definitions; with it on `SuccessResponse` and `Paginator` are always the fixed definitions and every other name follows the first-wins rule; names are unique |
| ModelDefinitions.PaginatorResolves | src/Domain/ModelDefinition.php:52-151 | whenever model definitions are on, the paginated definition's `Paginator` reference names a definition that exists |
| ModelDefinitions.CollectColumns | src/Domain/ModelDefinition.php:238-248 | the column loop gives every column typed with the Swagger name of its database type |
| ModelDefinitions.SelectVisible | src/Domain/ModelDefinition.php:250-263 | the visible loop gives every column when nothing is visible, else the visible selection |
| ModelDefinitions.AddExtras | src/Domain/ModelDefinition.php:265-275 | the extras loop gives the fields with each extra applied in order |
| ModelDefinitions.RemoveHidden | src/Domain/ModelDefinition.php:277-280 | the hidden loop removes every hidden key |
| ModelDefinitions.ShapeProperties | src/Domain/ModelDefinition.php:282-324 | the property loop gives one property per field, as `PropertiesOfFieldsSpec` describes |
| ModelDefinitions.CollectShownFields | src/Domain/ModelDefinition.php:234-280 | the selection steps together give the shown fields |
| ModelDefinitions.BuildModelDefinition | src/Domain/ModelDefinition.php:232-341 | the definition built is the one `ModelDefinitionSpec` describes |
| ModelDefinitions.BuildAllModelDefinitions | src/Domain/ModelDefinition.php:19-65 | the merge loop gives the definitions `AllModelDefinitionsSpec` describes |
| ApiTests.ClassNameSpec | src/Console/Commands/GenerateApiTestsCommand.php:278-293 | the class name is the first tag, then the summary, each without spaces, then `APITest`; a missing tag or summary contributes nothing |
| ApiTests.ClassNameShape | src/Console/Commands/GenerateApiTestsCommand.php:278-293 | a class name never holds a space and always ends in `APITest` |
| ApiTests.ClassNameOfWords | app/tests/Feature/Manual/API/V1/TestMANUAL_OVERRIDEAPITest.php:10 | a tag and a summary without spaces are simply concatenated before `APITest`, as in `TestMANUAL_OVERRIDEAPITest` |
| ApiTests.TestNameSpec | src/Console/Commands/GenerateApiTestsCommand.php:302-313 | a test name is `test_api_` followed by the trimmed operation id in lower case |
| ApiTests.TestNameLower | src/Console/Commands/GenerateApiTestsCommand.php:312 | a test name holds no upper-case letter |
| ApiTests.TestNameOfId | app/tests/Feature/Manual/API/V1/TestMANUAL_OVERRIDEAPITest.php:20 | an operation id that is already trimmed and lower-case is used as it is, as in `test_api_test_get_manual_override` |
| ApiTests.ClassPathShape | src/Console/Commands/GenerateApiTestsCommand.php:233-240 | a class path starts with the tests base, ends in `.php`, and has no backslash after the base |
| ApiTests.DefaultNamespaceSpec | src/Console/Commands/GenerateApiTestsCommand.php:248-253 | the default namespace is the root namespace, a backslash, and the tests directory with its slashes turned into backslashes |
| ApiTests.ReplaceFirstPrefix | src/Console/Commands/GenerateApiTestsCommand.php:235 | stripping the root namespace from a name that starts with it leaves the rest |
| ApiTests.BackslashesToSlashes | src/Console/Commands/GenerateApiTestsCommand.php:237 | the namespace part of a qualified class turns back into the directory path |
| ApiTests.QualifiedClassPath | src/Console/Commands/GenerateApiTestsCommand.php:233-253 | a class qualified into the default namespace is written under the tests base, in the tests directory, as `<class>.php` |
| ApiTests.ClassPathAgreesWithTestFilePath | src/Console/Commands/GenerateApiTestsCommand.php:233-253 | the path `getPath` gives a qualified class and the relative path `getTestFilePath` names for `<class>.php` point at the same file under `tests` |
| ApiTests.SkipReason | src/Console/Commands/GenerateApiTestsCommand.php:98-133 | a class is written exactly when its name is not reserved, it does not exist or `--force` is given, and no hand-written counterpart exists for an `AutoGen` path |
| ApiTests.ForceKeepsManual | src/Console/Commands/GenerateApiTestsCommand.php:117-133 | `--force` does not override a hand-written test; it only lets an existing generated class be overwritten |
| ApiTests.NoManualCheckOutsideAutoGen | src/Console/Commands/GenerateApiTestsCommand.php:127-133 | a path without `AutoGen` is never checked for a hand-written counterpart |
| ApiTests.OpenTagRoundTrip | src/Console/Commands/GenerateApiTestsCommand.php:160-209 | with a rendering that changes nothing, restoring undoes hiding and gives the compiled class back |
| ApiTests.HideOnlyLeadingTag | src/Console/Commands/GenerateApiTestsCommand.php:160-165 | only the leading `<?php` is replaced by `--php--`; the rest of the class reaches the template unchanged |
| ApiTests.NoTagNoSwap | src/Console/Commands/GenerateApiTestsCommand.php:160-209 | a class without a leading `<?php` is rendered as it is, and a `--php--` the template writes is kept |
| DocsCommand.ApiRoutesMembers | src/Console/Commands/GenerateDocsCommand.php:231-236 | a route is kept exactly when its uri starts with `api` |
| DocsCommand.ApiRoutesAll | src/Console/Commands/GenerateDocsCommand.php:231-236 | a list made only of API routes is kept whole and in order |
| DocsCommand.FilterApiRoutes | src/Console/Commands/GenerateDocsCommand.php:231-236 | the filtering loop collects exactly the API routes, in their order |
| DocsCommand.LoadedCalls | src/Console/Commands/GenerateDocsCommand.php:277-286 | no registered call after hitting the routes is the `APICallsNotDefined` error, and it is the only failure; otherwise the calls are passed on |
| DocsCommand.RouteMethodSpec | src/Console/Commands/GenerateDocsCommand.php:748-757 | the chosen method is one of the route's, it is `GET` whenever the route accepts `GET`, and none is chosen exactly when the route has several methods and none is `GET` |
| DocsCommand.FirstDefined | src/Console/Commands/GenerateDocsCommand.php:347-348 | a used name resolves to a registered call defined under it, and to nothing exactly when no registered call is |
| DocsCommand.FirstDefinedIsFirst | src/Docs/DocBuilder.php:130-145 | the call found is the first one, in registration order, defined under the title |
| DocsCommand.UsedParamsAppend | src/Console/Commands/GenerateDocsCommand.php:345-351 | used fragments contribute their parameters in the order they are used |
| DocsCommand.UsedParamsUnresolved | src/Console/Commands/GenerateDocsCommand.php:347-350 | names no registered call defines contribute nothing |
| DocsCommand.MergeParams | src/Console/Commands/GenerateDocsCommand.php:342-351 | the merging loop yields the headers, the params, then each resolved fragment's params and headers, in order |
| DocsCommand.SplitSecurity | src/Console/Commands/GenerateDocsCommand.php:354-374 | the splitting loop yields one requirement per security header and every other parameter, each side in order |
| DocsCommand.SplitCounts | src/Console/Commands/GenerateDocsCommand.php:354-374 | every parameter goes to exactly one side of the split |
| DocsCommand.FilteredMembers | src/Console/Commands/GenerateDocsCommand.php:356-373 | the kept parameters are exactly those that are not `x-api-key` or `x-access-token` headers |
| DocsCommand.SplitAppend | src/Console/Commands/GenerateDocsCommand.php:354-374 | splitting a concatenation concatenates the splits, so both sides keep the encounter order |
| DocsCommand.SplitNone | src/Console/Commands/GenerateDocsCommand.php:354-374 | without security headers nothing is split off and the parameters stay as they are |
| DocsCommand.SplitOne | src/Console/Commands/GenerateDocsCommand.php:357-369 | a security header becomes its scheme's requirement with no scopes and is dropped from the parameters |
| DocsCommand.RewriteName | src/Console/Commands/GenerateDocsCommand.php:386-404 | the rewriting loop over the dot-separated parts computes the bracketed name |
| DocsCommand.RewrittenPlain | src/Console/Commands/GenerateDocsCommand.php:389-390 | a name without a dot is written unchanged |
| DocsCommand.RewrittenTwo | src/Console/Commands/GenerateDocsCommand.php:395-403 | `a.b` is written `a[0][b]` |
| DocsCommand.RewrittenThree | src/Console/Commands/GenerateDocsCommand.php:395-403 | `a.b.c` is written `a[0][b][0][c]` |
| DocsCommand.RewrittenDotted | src/Console/Commands/GenerateDocsCommand.php:391-404 | a dotted name always comes out containing a bracket |
| DocsCommand.TypeOfLower | src/Console/Commands/GenerateDocsCommand.php:432 | the written type is the stored type lower-cased, whatever first-letter upper-casing `getDataType` applied |
| DocsCommand.TypedDataFields | src/Console/Commands/GenerateDocsCommand.php:427-434 | a typed parameter carries its rewritten name, its location, its required flag and its lower-cased type |
| DocsCommand.TypedDataArray | src/Console/Commands/GenerateDocsCommand.php:436-439 | `collectionFormat` and `items` are written exactly for `array` parameters; `items` is the parameter's items and a set format is written as that string |
| DocsCommand.TypedParamData | src/Console/Commands/GenerateDocsCommand.php:426-439 | a non-model parameter fails exactly when it is an `array` whose collection format was never set (the `string` getter's TypeError, src/Docs/Param.php:361-364), and is otherwise written as its typed fields |
| DocsCommand.TypedDataNoExample | src/Console/Commands/GenerateDocsCommand.php:442-458 | outside Postman mode, or with every example source empty, neither `example` nor `schema` is written |
| DocsCommand.TypedDataFormExample | src/Console/Commands/GenerateDocsCommand.php:451-453 | in Postman mode a form field carries the example at the top level and no schema |
| DocsCommand.TypedDataSchemaExample | src/Console/Commands/GenerateDocsCommand.php:454-457 | in Postman mode any other location carries the example inside a schema that also has the lower-cased type |
| DocsCommand.PostmanExampleOrder | src/Console/Commands/GenerateDocsCommand.php:443-449 | the example is the variable if not empty, else the default value if not empty, else the example |
| DocsCommand.ModelParamData | src/Console/Commands/GenerateDocsCommand.php:416-425 | a `Model` parameter with a model becomes the `body` parameter referring to the model's definition, and fails exactly when the class is unknown |
| DocsCommand.ResponseNameSpec | src/Console/Commands/GenerateDocsCommand.php:480-484 | the response name is the upper-cased words of group and name without slashes or spaces, then `Response` |
| DocsCommand.ResponseDefinition | src/Console/Commands/GenerateDocsCommand.php:485-504 | building a response definition fails only on an unknown class or a name already defined |
| DocsCommand.ResponseGeneric | src/Console/Commands/GenerateDocsCommand.php:501-504 | without a success object the operation refers to `SuccessResponse` and no definition is added |
| DocsCommand.ResponsePaginatedWins | src/Console/Commands/GenerateDocsCommand.php:486-500 | with both objects set the paginated definition is the one stored under the response name |
| DocsCommand.ResponseDuplicate | src/Console/Commands/GenerateDocsCommand.php:494-498 | a response name already defined is rejected with its name |
| DocsCommand.ResponseStored | src/Console/Commands/GenerateDocsCommand.php:494-500 | a stored response is a single new assignment of the response name, which was not set before |
| DocsCommand.ResponseAdds | src/Console/Commands/GenerateDocsCommand.php:494-500 | storing a response adds only its name, changes no definition already set and keeps keys unique |
| DocsCommand.PathSuffixOfVersioned | src/Console/Commands/GenerateDocsCommand.php:468 | a route under `api/v1` is stored under the rest of its path |
| DocsCommand.ResponsesRefer | src/Console/Commands/GenerateDocsCommand.php:517-542 | `200` refers to the response name's definition and `401`, `403`, `422` to the three built-in error definitions |
| DocsCommand.OperationDataLists | src/Console/Commands/GenerateDocsCommand.php:506-516 | the operation lists exactly the parameters and the security requirements it was given |
| DocsCommand.OperationDataResponses | src/Console/Commands/GenerateDocsCommand.php:470-475 | the operation carries its responses; an empty `consumes` becomes JSON and URL-encoded forms, any other is kept |
| DocsCommand.ParamEntries | src/Console/Commands/GenerateDocsCommand.php:376-466 | a written parameter list has one entry per parameter, and fails only on an unknown model class or an `array` parameter without a collection format |
| DocsCommand.EnvAfterUnique | src/Console/Commands/GenerateDocsCommand.php:465 | adding the written parameters to the environment keeps one variable per key |
| DocsCommand.EnvAfterHasNames | src/Console/Commands/GenerateDocsCommand.php:465 | every written parameter has a variable under its rewritten name |
| DocsCommand.ParamEntriesFailure | src/Console/Commands/GenerateDocsCommand.php:416-425 | the first failing parameter decides the result of the whole list |
| DocsCommand.ParamEntriesSucceed | src/Console/Commands/GenerateDocsCommand.php:376-466 | the list is written exactly when every parameter is |
| DocsCommand.ParamEntriesValues | src/Console/Commands/GenerateDocsCommand.php:462 | a written list holds each parameter's entry at its own position |
| DocsCommand.StepsFailure | src/Console/Commands/GenerateDocsCommand.php:324-546 | an exception for one call ends the whole loop with that exception |
| DocsCommand.ItemStepErrors | src/Console/Commands/GenerateDocsCommand.php:416-498 | one call fails only on an unknown model class, an `array` parameter without a collection format or a response name defined twice |
| DocsCommand.ItemStepStores | src/Console/Commands/GenerateDocsCommand.php:468-545 | a routed call's operation sits under its path suffix and lower-cased method, lists the written non-security parameters and one requirement per security header |
| DocsCommand.ItemStepKeeps | src/Console/Commands/GenerateDocsCommand.php:324-546 | one call changes only `paths`, keeps every definition already set, and keeps keys and variables unique |
| DocsCommand.StepsKeep | src/Console/Commands/GenerateDocsCommand.php:324-546 | what one call keeps holds through all the calls |
| DocsCommand.StepsUniqueVariables | src/Console/Commands/GenerateDocsCommand.php:465 | the environment keeps one variable per key through all the calls |
| DocsCommand.StepsErrors | src/Console/Commands/GenerateDocsCommand.php:324-546 | the loop fails only on an unknown model class, an `array` parameter without a collection format or a duplicate response name |
| DocsCommand.SwaggerJsonType | src/Console/Commands/GenerateDocsCommand.php:304-306 | the type is rejected exactly when it is neither `api` nor `postman` |
| DocsCommand.StartSchemaBasePath | src/Console/Commands/GenerateDocsCommand.php:311-322 | the document starts with the base path `/api/v1` |
| DocsCommand.SwaggerJsonDocument | src/Console/Commands/GenerateDocsCommand.php:311-548 | a generated document has base path `/api/v1`, all definitions under `definitions`, the built-in error definitions unchanged, unique keys and unique environment variables |
| DocsCommand.AddParameter | src/Console/Commands/GenerateDocsCommand.php:376-466 | one parameter is written and, once written, its variable is upserted into the environment |
| DocsCommand.AddParameters | src/Console/Commands/GenerateDocsCommand.php:376-466 | the parameter loop writes exactly the entries of `ParamEntries` and, on success, upserts each parameter's variable into the environment in order |
| DocsCommand.AddOperation | src/Console/Commands/GenerateDocsCommand.php:327-545 | one pass of the call loop changes the Swagger schema, the environment and the definitions exactly as `ItemStep` does, and fails exactly when it fails |
| DocsCommand.NewSwagger | src/Console/Commands/GenerateDocsCommand.php:320-322 | the new document is the default schema with the base path and server URL set |
| DocsCommand.AddOperations | src/Console/Commands/GenerateDocsCommand.php:324-546 | the call loop computes `Steps` over every call and leaves that schema and environment behind |
| DocsCommand.AddAll | src/Console/Commands/GenerateDocsCommand.php:324-548 | after the loop the definitions are written into the schema |
| DocsCommand.CreateSwaggerJson | src/Console/Commands/GenerateDocsCommand.php:302-548 | the command's document and environment are `SwaggerJson` of the calls, the type and the inputs |
| PostmanCollectionBuilders.ServerUrl | src/Domain/FileGenerators/Postman/PostmanCollectionBuilder.php:22-37 | the URL starts with the first scheme, or `http`, followed by `://`, and ends with the path |
| PostmanCollectionBuilders.ServerUrlOf | src/Domain/FileGenerators/Postman/PostmanCollectionBuilder.php:22-37 | with one text scheme and a text host the URL is scheme, `://`, host, base path, path |
| PostmanCollectionBuilders.AsHeaderParamSpec | src/Domain/FileGenerators/Postman/PostmanCollectionBuilder.php:70-72 | a moved definition becomes a parameter typed `string` that keeps every other field of the definition |
| PostmanCollectionBuilders.RuleDefinitions | src/Domain/FileGenerators/Postman/PostmanCollectionBuilder.php:67-76 | a requirement contributes at most one definition per scheme it names |
| PostmanCollectionBuilders.KeptRules | src/Domain/FileGenerators/Postman/PostmanCollectionBuilder.php:65-77 | moving never adds requirements |
| PostmanCollectionBuilders.MovedOperations | src/Domain/FileGenerators/Postman/PostmanCollectionBuilder.php:58-79 | every method of a path is kept |
| PostmanCollectionBuilders.MovedPaths | src/Domain/FileGenerators/Postman/PostmanCollectionBuilder.php:57-80 | every path is kept |
| PostmanCollectionBuilders.Placeholders | src/Domain/FileGenerators/Postman/PostmanCollectionBuilder.php:44-45 | the host becomes `{{host}}`, the schemes become `[{{scheme}}]`, and nothing else changes |
| PostmanCollectionBuilders.RuleDefinitionsEmpty | src/Domain/FileGenerators/Postman/PostmanCollectionBuilder.php:67-76 | a requirement contributes nothing exactly when none of its schemes is defined |
| PostmanCollectionBuilders.MovesIff | src/Domain/FileGenerators/Postman/PostmanCollectionBuilder.php:67-75 | a requirement moves exactly when it names a defined scheme |
| PostmanCollectionBuilders.KeptRulesSpec | src/Domain/FileGenerators/Postman/PostmanCollectionBuilder.php:65-77 | the requirements that stay are exactly those that do not move |
| PostmanCollectionBuilders.MovedDefinitionsEmpty | src/Domain/FileGenerators/Postman/PostmanCollectionBuilder.php:65-77 | nothing is appended to the parameters exactly when every requirement stays |
| PostmanCollectionBuilders.KeptRulesCount | src/Domain/FileGenerators/Postman/PostmanCollectionBuilder.php:65-77 | each requirement either stays or moves, none is lost or doubled |
| PostmanCollectionBuilders.MovedSecurityRules | src/Domain/FileGenerators/Postman/PostmanCollectionBuilder.php:64-78 | the first requirement always stays; a later one stays exactly when it names no defined scheme, in order |
| PostmanCollectionBuilders.MovedSecurityParams | src/Domain/FileGenerators/Postman/PostmanCollectionBuilder.php:64-78 | the moved definitions are appended to the parameters, and nothing but `security` and `parameters` changes |
| PostmanCollectionBuilders.MovedSecurityUntouched | src/Domain/FileGenerators/Postman/PostmanCollectionBuilder.php:64-65 | an operation with no requirement or only one is left exactly as it was |
| PostmanCollectionBuilders.MovesAccessToken | src/Domain/FileGenerators/Postman/PostmanCollectionBuilder.php:64-78 | on `[apiKey, accessToken]` only `apiKey` stays and the `accessToken` definition becomes the last parameter |
| PostmanCollectionBuilders.PostmanSchemaOver | src/Domain/FileGenerators/Postman/PostmanCollectionBuilder.php:41-83 | beyond the placeholders only the security definitions and the paths are written |
| PostmanCollectionBuilders.PostmanSchemaHost | src/Domain/FileGenerators/Postman/PostmanCollectionBuilder.php:44 | the output's host is `{{host}}` |
| PostmanCollectionBuilders.PostmanSchemaSchemes | src/Domain/FileGenerators/Postman/PostmanCollectionBuilder.php:45 | the output's only scheme is `{{scheme}}` |
| PostmanCollectionBuilders.PostmanSchemaFrame | src/Domain/FileGenerators/Postman/PostmanCollectionBuilder.php:41-83 | every key other than host, schemes, security definitions and paths is unchanged |
| PostmanCollectionBuilders.PostmanServerUrl | src/Domain/FileGenerators/Postman/PostmanCollectionBuilder.php:22-45 | after `getOutput()` the server URL is `{{scheme}}://{{host}}` followed by the unchanged base path and the path |
| PostmanCollectionBuilders.ExampleDefinitionsSpec | src/Domain/FileGenerators/Postman/PostmanCollectionBuilder.php:47-54 | both header schemes get their placeholder example schema and every other scheme is unchanged |
| PostmanCollectionBuilders.PostmanSchemaPaths | src/Domain/FileGenerators/Postman/PostmanCollectionBuilder.php:57-80 | every path and method is kept and the workaround is applied to each operation |
| PostmanCollectionBuilders.PostmanSchemaMoved | src/Domain/FileGenerators/Postman/PostmanCollectionBuilder.php:41-83 | the whole output when the document has a map of paths |
| PostmanCollectionBuilders.PostmanSchemaPlaced | src/Domain/FileGenerators/Postman/PostmanCollectionBuilder.php:41-56 | the whole output when there are no paths to walk |
| PostmanCollectionBuilders.PostmanCollectionBuilder.constructor | src/Domain/FileGenerators/Postman/PostmanCollectionBuilder.php:9-11 | a new builder holds an empty document |
| PostmanCollectionBuilders.PostmanCollectionBuilder.SetSchema | src/Domain/FileGenerators/Postman/PostmanCollectionBuilder.php:14-19 | the document is replaced by the one given |
| PostmanCollectionBuilders.PostmanCollectionBuilder.GetOutput | src/Domain/FileGenerators/Postman/PostmanCollectionBuilder.php:41-83 | the builder's document becomes the Postman document and is returned |
| PostmanCollectionBuilders.MoveSecurity | src/Domain/FileGenerators/Postman/PostmanCollectionBuilder.php:64-78 | the loop over one operation's requirements computes the workaround for that operation |
| PostmanCollectionBuilders.SplitRules | src/Domain/FileGenerators/Postman/PostmanCollectionBuilder.php:65-77 | the `for` loop from index 1 splits the requirements into moved definitions and kept requirements |
| PostmanCollectionBuilders.SchemesOf | src/Domain/FileGenerators/Postman/PostmanCollectionBuilder.php:67-76 | the loop over one requirement collects the definitions of its defined schemes |
| PostmanCollectionBuilders.MoveOperations | src/Domain/FileGenerators/Postman/PostmanCollectionBuilder.php:58-79 | the loop over a path's methods applies the workaround to each |
| PostmanCollectionBuilders.MovePaths | src/Domain/FileGenerators/Postman/PostmanCollectionBuilder.php:57-80 | the loop over the paths applies the workaround to each |
| PostmanCollectionReaders.Members | src/Domain/FileGenerators/Postman/PostmanCollectionReader.php:88-96 | `foreach` visits a list's items, or a map's values in order |
| PostmanCollectionReaders.DigitRun | src/Domain/FileGenerators/Postman/PostmanCollectionReader.php:75 | the greedy `\d+` takes a prefix of digits and stops only at the end or at a non-digit |
| PostmanCollectionReaders.PathVersionEmpty | src/Domain/FileGenerators/Postman/PostmanCollectionReader.php:69-82 | the version is empty exactly when the base path has no `v` followed by a digit |
| PostmanCollectionReaders.PathVersionAt | src/Domain/FileGenerators/Postman/PostmanCollectionReader.php:75-79 | the version is the text at the first `v`-then-digit: `v`, then all the digits that follow |
| PostmanCollectionReaders.EnvValue | src/Domain/FileGenerators/Postman/PostmanCollectionReader.php:167-172 | a value is found exactly when some environment entry has the key |
| PostmanCollectionReaders.ParsedEnvPlain | src/Domain/FileGenerators/Postman/PostmanCollectionReader.php:160-162 | a value without `{{` comes back unchanged |
| PostmanCollectionReaders.ParsedEnvUnknown | src/Domain/FileGenerators/Postman/PostmanCollectionReader.php:164-174 | an unknown placeholder comes back as its bare name, with no brace or whitespace at either end |
| PostmanCollectionReaders.EnvironmentRoundTrip | src/Domain/FileGenerators/Postman/PostmanCollectionReader.php:157-175 | the placeholder a parameter's variable is written as resolves, in the written environment, to the first variable with that key, else to the bare name |
| PostmanCollectionReaders.SecurityParamSpec | src/Domain/FileGenerators/Postman/PostmanCollectionReader.php:184-197 | a definition is found exactly when the document defines a scheme of that name, and it is that scheme's definition |
| PostmanCollectionReaders.BaseUriPlain | src/Domain/FileGenerators/Postman/PostmanCollectionReader.php:199-217 | without placeholders the URI is the base path followed by the path, an empty or `"0"` path being dropped |
| PostmanCollectionReaders.ParamsWithValues | src/Domain/FileGenerators/Postman/PostmanCollectionReader.php:133-148 | the map keeps one parameter per parameter |
| PostmanCollectionReaders.ParamsWithValuesSpec | src/Domain/FileGenerators/Postman/PostmanCollectionReader.php:133-148 | each parameter keeps its place and its fields and gains `param_value` |
| PostmanCollectionReaders.ParamValuePrefersExample | src/Domain/FileGenerators/Postman/PostmanCollectionReader.php:138-142 | a parameter's own `example` is taken over `schema.example` |
| PostmanCollectionReaders.GroupBySpec | src/Domain/FileGenerators/Postman/PostmanCollectionReader.php:116 | each location that occurs holds exactly its parameters, in order, and no other location appears |
| PostmanCollectionReaders.GroupByUnique | src/Domain/FileGenerators/Postman/PostmanCollectionReader.php:116 | each location appears once |
| PostmanCollectionReaders.OperationEntries | src/Domain/FileGenerators/Postman/PostmanCollectionReader.php:91-120 | one entry per method of a path |
| PostmanCollectionReaders.OperationParamsDeclaredFirst | src/Domain/FileGenerators/Postman/PostmanCollectionReader.php:92-103 | the declared parameters come first and keep their order |
| PostmanCollectionReaders.RuleParamsSingle | src/Domain/FileGenerators/Postman/PostmanCollectionReader.php:96-101 | a requirement naming one defined scheme contributes that scheme's definition |
| PostmanCollectionReaders.RuleParamsUnknown | src/Domain/FileGenerators/Postman/PostmanCollectionReader.php:96-101 | a requirement naming an undefined scheme contributes nothing |
| PostmanCollectionReaders.PathEntriesCount | src/Domain/FileGenerators/Postman/PostmanCollectionReader.php:88-121 | there is one entry per method of every path |
| PostmanCollectionReaders.OperationEntriesAt | src/Domain/FileGenerators/Postman/PostmanCollectionReader.php:91-120 | each entry takes its URI from its path, its method from its key, and its parameters with the security definitions added |
| PostmanCollectionReaders.PostmanCollectionReader.constructor | src/Domain/FileGenerators/Postman/PostmanCollectionReader.php:33-38 | the reader holds the parsed document and no environment yet |
| PostmanCollectionReaders.PostmanCollectionReader.ReadEnvironmentFile | src/Domain/FileGenerators/Postman/PostmanCollectionReader.php:45-61 | a file with `values` stores them; one without is rejected and the environment is unchanged |
| PostmanCollectionReaders.PostmanCollectionReader.GetPathVersion | src/Domain/FileGenerators/Postman/PostmanCollectionReader.php:69-82 | the version is the first `v`-and-digits match in the base path, or empty |
| PostmanCollectionReaders.PostmanCollectionReader.ParseEnvVariable | src/Domain/FileGenerators/Postman/PostmanCollectionReader.php:157-175 | the loop that stops at the first equal key computes the substitution |
| PostmanCollectionReaders.PostmanCollectionReader.GetSecurityParamByName | src/Domain/FileGenerators/Postman/PostmanCollectionReader.php:184-197 | the search over the definitions returns the first with the name, or nothing when there are no definitions |
| PostmanCollectionReaders.PostmanCollectionReader.GetBaseUri | src/Domain/FileGenerators/Postman/PostmanCollectionReader.php:199-217 | the substituted base path, then the substituted path unless it is falsy |
| PostmanCollectionReaders.PostmanCollectionReader.ParamValueOf | src/Domain/FileGenerators/Postman/PostmanCollectionReader.php:136-142 | a parameter's substituted example, else its schema's, else empty |
| PostmanCollectionReaders.PostmanCollectionReader.ParseParamEnvVariables | src/Domain/FileGenerators/Postman/PostmanCollectionReader.php:133-148 | the map adds `param_value` to every parameter, in order |
| PostmanCollectionReaders.PostmanCollectionReader.AddRuleParams | src/Domain/FileGenerators/Postman/PostmanCollectionReader.php:96-101 | the loop over one requirement appends the found definitions in order |
| PostmanCollectionReaders.PostmanCollectionReader.AddSecurityParams | src/Domain/FileGenerators/Postman/PostmanCollectionReader.php:94-103 | the loop over the requirements appends their definitions in order |
| PostmanCollectionReaders.PostmanCollectionReader.OperationEntry | src/Domain/FileGenerators/Postman/PostmanCollectionReader.php:92-119 | one operation's entry: URI, method, tags, summary, description, operation id, parameters and grouped locations |
| PostmanCollectionReaders.PostmanCollectionReader.PathOperationEntries | src/Domain/FileGenerators/Postman/PostmanCollectionReader.php:91-120 | the loop over a path's methods yields their entries in order |
| PostmanCollectionReaders.PostmanCollectionReader.GetPathData | src/Domain/FileGenerators/Postman/PostmanCollectionReader.php:84-124 | the loop over the paths yields every operation's entry in document order |
| PostmanRoundTrip.PostmanDefinitions | src/Domain/FileGenerators/Postman/PostmanCollectionBuilder.php:47-54 | the collection's security definitions are the ones with the placeholder examples |
| PostmanRoundTrip.HeaderSchemesDefined | src/Domain/FileGenerators/Postman/PostmanCollectionBuilder.php:47-54 | both header schemes are defined, each with an example schema |
| PostmanRoundTrip.ReadHeaderScheme | src/Domain/FileGenerators/Postman/PostmanCollectionReader.php:184-197 | reading the collection back finds each header scheme as a non-empty definition |
| PostmanRoundTrip.SecurityHeadersOnce | src/Domain/FileGenerators/Postman/PostmanCollectionReader.php:92-103 | an operation with both requirements is read back as its parameters, the moved `accessToken` header, then the `apiKey` header: each header once |
| PostmanRoundTrip.ReadApiKeyOnly | src/Domain/FileGenerators/Postman/PostmanCollectionReader.php:94-103 | an operation left with only `apiKey` is read as its parameters, then the `apiKey` definition |
| PostmanRoundTrip.GeneratedOperationRead | src/Console/Commands/GenerateDocsCommand.php:354-374 | the operation written for a call with both security headers is read back with its written parameters, then the `accessToken` header, then the `apiKey` header |

## Left out

- File system I/O is not modelled.
  - `readSchemaFile` and `readEnvironmentFile` take the parsed document and the decoded environment file as inputs.
  - `getStoredApiResponses` is replaced by the list of stored `(code, content)` pairs it would find.
  - `createDocSourceFiles`, `deleteFilesInDirectory` and the optional directory creation of the `get*Dir` helpers are out.
  - The writers' directory creation is out: a write is the text the file receives.
  - Whether a target file exists is a parameter.
- JSON and YAML encoding and parsing (`json_encode`, `Yaml::dump`, `Yaml::parseFile`) are foreign libraries. They are opaque functions of `Framework.Helpers`, and a failure is their `None`.
- HTTP and console plumbing is not modelled.
  - This covers `handle`, `callRoute`, the kernel request, `Auth`, `checkIsAllowedToRun`, `defineDefaultHeaders` and console output.
  - `getRouteInformation` is modelled only for the method it chooses.
  - The interceptor context that hitting a route sets is an input of `register`.
- The output phase of `createSwaggerJson` after the definitions are stored is not modelled. This covers the sandbox-URL override and the four file writes at `GenerateDocsCommand.php:550-579`, and `writePostmanEnvironments`. They are console, environment and file I/O.
- Randomness and the clock are parameters.
  - The `Str::random` fallback of `getOperationId` is a `token` argument, one per call.
  - The `Ymd` stamp of the Swagger `info.version` is a `dateStamp` argument.
- Reflection and the database are inputs.
  - `getAllModels` and `getTableColumnsFromModel` are replaced by a `ModelInfo` per model.
  - `getModelShortName` and `ReflectionClass::getShortName` are `Framework.Helpers.shortClassName`.
  - `DOCUMENTATION_MODE` and the `oxygen.api.includeModelDefinitions` setting are explicit booleans, and the hidden-class list is an input.
- Blade rendering, temporary files, `cleanup`, `fixCodeStyle`, `generateApiBaseTestCase`, the stubs and the class-existence check are not modelled. They are template and file-system work.
  - Only the `<?php` placeholder swap of `buildTestClass` and the skip rules of `generateApiTest` are modelled.
  - Laravel's reserved-name list is a boolean input.
  - `qualifyClass` is taken as prefixing the default namespace.
- Object identity is not modelled.
  - `APICall` keeps its params and headers, and `DocBuilder` keeps its calls, as values.
  - A `Param` or `APICall` changed after it was added is therefore not seen through the list. For example, `addHeader` setting the location on the caller's own object is not seen.
- Array indices left by removal are not modelled. `removeVariable` (through `reject`) and the `unset` in `PostmanCollectionBuilder::getOutput` keep the original indices, so the encoded list can become a JSON object. The model keeps plain sequences.
- `APICall::setSuccessParams` accepts any array. The model stores a list of parameters, which is what `getApiDoc` reads.
- `APICall::setApiKeyHeader` is not modelled. It is `noDefaultHeaders` followed by `setHeaders` on two fixed headers, and both of those are modelled.
- `Param::getParamLocations`, `Param::toArray` and `Param::jsonSerialize` are not modelled. The first is a constant list nothing else reads; the other two only dump fields for encoding.
- The plain getters of every class are not modelled as members of their own. They read the fields the model exposes.
- DocsCommand.TypedBase: a null description is written as `null`, while `Param::getDescription(): string` throws a TypeError (the same holds for DocsCommand.ModelData). Through `handle` the doc source files are written first, and `APICall::getApiDoc` reads the same getter, so the command has already failed there.
- PostmanCollectionReaders.OperationParams: a missing `parameters` entry is read as an empty list. PHP reads `null` with a warning, and writes `parameters: null` when no security parameter is appended; the model writes `[]`.
- PostmanVars.PostmanToFaker: a list or map value is quoted through its text. PHP 8's `ltrim` throws a TypeError for an array, and the model does not carry that error.
- JsonValues.Pushed: the next integer key of a map ignores negative integer keys and the `PHP_INT_MAX` limit. PHP's own rule for negative keys differs between versions.
- Floating-point values are not modelled: numbers in documents are integers (`JsonValues.Json.Num`), which is all the modelled operations produce.

## Findings

| source | as written | input that shows it | evidently intended | confidence | as-written member | corrected member |
|---|---|---|---|---|---|---|
| src/Domain/FileGenerators/BaseFileGenerator.php:62-71 | `json_encode` signals failure by returning `false`, not by throwing, so the `catch` that raises `FileGenerationFailedException` cannot fire; `file_put_contents` then writes an empty file and the method returns `true` | an output the encoder rejects (for example an invalid UTF-8 string), with `overwrite` true and no existing file | an output that cannot be encoded raises `FileGenerationFailedException` and nothing is written, as the YAML writer does | not executed | FileGenerators.WriteJsonAsWritten (shown by FileGenerators.WriteJsonAsWrittenLosesFailure) | FileGenerators.WriteJson (agreeing with the as-written version whenever encoding succeeds: FileGenerators.WriteJsonAgrees) |
