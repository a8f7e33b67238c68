/**
 * `BaseFileGenerator`: a schema held as an ordered map, two ways of writing
 * into it, and the guards of the JSON and YAML writers. The file system is a
 * parameter (whether the target exists) and a write is its result: the text
 * the file receives.
 */
module FileGenerators {
  import opened Wrappers
  import opened JsonValues
  import opened Framework
  import opened Strings

  datatype SchemaError = NotAList(key: string)

  datatype WriteError =
    | FileExists(path: string)
    /** `FileGenerationFailedException` */
    | GenerationFailed

  /** The schema state shared by every generator. */
  class SchemaGenerator {
    var schema: Fields

    constructor()
      ensures schema == []
    {
      schema := [];
    }

    /** `addToSchema($key, $value)`: only `key` changes. */
    method AddToSchema(key: string, value: Json)
      modifies this
      ensures schema == Put(old(schema), key, value)
    {
      schema := Put(schema, key, value);
    }

    /** `appendToSchemaArray($key, $value)`: `value` goes at the end of the list under `key`. */
    method AppendToSchemaArray(key: string, value: Json) returns (outcome: Outcome<SchemaError>)
      modifies this
      ensures outcome.Pass? <==> Pushed(Get(old(schema), key), value).Some?
      ensures outcome.Pass? ==> schema == Put(old(schema), key, Pushed(Get(old(schema), key), value).value)
      ensures outcome.Fail? ==> schema == old(schema) && outcome.error == NotAList(key)
    {
      var next := Pushed(Get(schema, key), value);
      if next.None? {
        return Fail(NotAList(key));
      }
      schema := Put(schema, key, next.value);
      return Pass;
    }
  }

  /** Appending leaves every other key alone and extends the list under `key` by one element. */
  lemma AppendSpec(schema: Fields, key: string, items: seq<Json>, value: Json)
    requires Get(schema, key) == Some(Arr(items))
    ensures var r := Put(schema, key, Pushed(Get(schema, key), value).value);
      && Get(r, key) == Some(Arr(items + [value]))
      && (forall k :: k != key ==> Get(r, k) == Get(schema, k))
  {
  }

  /**
   * Appending to a non-empty map stores the value under a new integer key
   * above every integer key the map has, keeps the map's own entries, and
   * leaves every other key of the schema alone.
   */
  lemma AppendToMapSpec(schema: Fields, key: string, fs: Fields, value: Json)
    requires Get(schema, key) == Some(Obj(fs)) && fs != []
    ensures var r := Put(schema, key, Pushed(Get(schema, key), value).value);
      var n := NextIndex(fs);
      && (forall k :: k != key ==> Get(r, k) == Get(schema, k))
      && Get(r, key).Some? && Get(r, key).value.Obj?
      && var gs := Get(r, key).value.fields;
      && (forall k :: k in Keys(fs) ==> Get(gs, k) == Get(fs, k))
      && Get(gs, NatToString(n)) == Some(value) && NatToString(n) !in Keys(fs)
      && Keys(gs) == Keys(fs) + [NatToString(n)]
      && (forall i :: 0 <= i < |fs| && IsIndexKey(fs[i].0) ==> DigitsValue(fs[i].0) < n)
  {
    var k := NatToString(NextIndex(fs));
    var gs := fs + [(k, value)];
    assert Pushed(Get(schema, key), value) == Some(Obj(gs));
    NextIndexFresh(fs);
    GetAppend(fs, (k, value), k);
    forall k' | k' in Keys(fs) ensures Get(gs, k') == Get(fs, k') {
      GetAppend(fs, (k, value), k');
    }
    assert Keys(gs) == Keys(fs) + [k] by {
      KeysSnoc(gs);
      assert gs[..|gs| - 1] == fs;
    }
  }

  /**
   * The shared guard of both writers: with `overwrite` off an existing file
   * stops the write before anything is encoded; otherwise the encoded text is
   * written, and an encoding failure is `FileGenerationFailedException`.
   */
  function Write(path: string, overwrite: bool, fileExists: bool, encoded: Option<string>): (r: Result<string, WriteError>)
    ensures !overwrite && fileExists ==> r == Failure(FileExists(path))
    ensures r.Success? <==> (overwrite || !fileExists) && encoded.Some?
    ensures r.Success? ==> encoded == Some(r.value)
    ensures r.Failure? && (overwrite || !fileExists) ==> r.error == GenerationFailed
  {
    if !overwrite && fileExists then Failure(FileExists(path))
    else if encoded.None? then Failure(GenerationFailed)
    else Success(encoded.value)
  }

  /** `writeOutputFileJson`, as its catch block intends. */
  function WriteJson(output: Json, path: string, overwrite: bool, fileExists: bool, fw: Helpers): (r: Result<string, WriteError>)
    ensures r.Success? <==> (overwrite || !fileExists) && fw.prettyJson(output).Some?
    ensures r.Success? ==> fw.prettyJson(output) == Some(r.value)
  {
    Write(path, overwrite, fileExists, fw.prettyJson(output))
  }

  /** `writeOutputFileYaml`: `Yaml::dump` throws, so its catch block does fire. */
  function WriteYaml(output: Json, path: string, overwrite: bool, fileExists: bool, fw: Helpers): (r: Result<string, WriteError>)
    ensures r.Success? <==> (overwrite || !fileExists) && fw.yamlDump(output).Some?
    ensures r.Success? ==> fw.yamlDump(output) == Some(r.value)
  {
    Write(path, overwrite, fileExists, fw.yamlDump(output))
  }

  /**
   * `writeOutputFileJson` as written: `json_encode` reports failure by
   * returning `false` rather than throwing, so the catch block never runs and
   * `file_put_contents` writes `false`, that is the empty string.
   */
  function WriteJsonAsWritten(output: Json, path: string, overwrite: bool, fileExists: bool, fw: Helpers): (r: Result<string, WriteError>)
    ensures r.Failure? <==> !overwrite && fileExists
  {
    if !overwrite && fileExists then Failure(FileExists(path))
    else Success(match fw.prettyJson(output) case Some(text) => text case None => "")
  }

  /** An output the encoder rejects is reported as written successfully, with an empty file. */
  lemma WriteJsonAsWrittenLosesFailure(output: Json, path: string, fw: Helpers)
    requires fw.prettyJson(output).None?
    ensures WriteJsonAsWritten(output, path, true, false, fw) == Success("")
    ensures WriteJson(output, path, true, false, fw) == Failure(GenerationFailed)
  {
  }

  /** Whenever the encoder succeeds, the two versions of the JSON writer agree. */
  lemma WriteJsonAgrees(output: Json, path: string, overwrite: bool, fileExists: bool, fw: Helpers)
    requires fw.prettyJson(output).Some?
    ensures WriteJsonAsWritten(output, path, overwrite, fileExists, fw) == WriteJson(output, path, overwrite, fileExists, fw)
  {
  }
}
