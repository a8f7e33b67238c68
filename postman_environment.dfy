/**
 * `PostmanEnvironment`: a Postman environment file under construction. It
 * keeps the shared schema map and an ordered list of `{key, value}`
 * variables; adding a variable whose key is already present replaces its
 * value in place, any other key is appended, and removing a key drops every
 * variable with that key.
 */
module PostmanEnvironments {
  import opened Wrappers
  import opened JsonValues
  import opened Framework

  datatype Variable = Variable(key: string, value: Json)

  /** Some variable carries `key`. */
  predicate HasKey(vs: seq<Variable>, key: string) {
    exists i :: 0 <= i < |vs| && vs[i].key == key
  }

  /** No two variables share a key. */
  predicate UniqueVariables(vs: seq<Variable>) {
    forall i, j :: 0 <= i < j < |vs| ==> vs[i].key != vs[j].key
  }

  /**
   * The value of the first variable named `key`, as a reader scanning the
   * list front to back with an early exit finds it.
   */
  function Lookup(vs: seq<Variable>, key: string): (r: Option<Json>)
    ensures r.Some? <==> HasKey(vs, key)
  {
    if vs == [] then None
    else if vs[0].key == key then Some(vs[0].value)
    else
      assert forall i :: 1 <= i < |vs| ==> vs[1..][i - 1] == vs[i];
      Lookup(vs[1..], key)
  }

  /** The `transform` pass of `addVariable`: every variable named `key` takes the new value. */
  function Updated(vs: seq<Variable>, key: string, value: Json): (r: seq<Variable>)
    ensures |r| == |vs|
  {
    seq(|vs|, i requires 0 <= i < |vs| => if vs[i].key == key then Variable(key, value) else vs[i])
  }

  /** `addVariable($key, $value)`: replace the value where the key exists, else append. */
  function Upserted(vs: seq<Variable>, key: string, value: Json): (r: seq<Variable>)
    ensures HasKey(vs, key) ==> |r| == |vs|
    ensures !HasKey(vs, key) ==> |r| == |vs| + 1 && r[|vs|] == Variable(key, value)
    ensures forall i :: 0 <= i < |vs| ==> r[i].key == vs[i].key
  {
    if HasKey(vs, key) then Updated(vs, key, value) else vs + [Variable(key, value)]
  }

  /** `removeVariable($key)`: `reject` keeps the other variables in their order. */
  function Removed(vs: seq<Variable>, key: string): (r: seq<Variable>)
    ensures |r| <= |vs|
    ensures !HasKey(r, key)
  {
    if vs == [] then []
    else
      var init := Removed(vs[..|vs| - 1], key);
      var last := vs[|vs| - 1];
      if last.key == key then init
      else
        assert forall i :: 0 <= i < |init| ==> (init + [last])[i] == init[i];
        init + [last]
  }

  /** A variable as it is written to the environment file. */
  function VariableJson(v: Variable): Json {
    Obj([("key", Str(v.key)), ("value", v.value)])
  }

  function VariablesJson(vs: seq<Variable>): (r: seq<Json>)
    ensures |r| == |vs|
  {
    seq(|vs|, i requires 0 <= i < |vs| => VariableJson(vs[i]))
  }

  /** A scan of a concatenation finds the first part's variable before the second's. */
  lemma {:induction false} LookupAppend(a: seq<Variable>, b: seq<Variable>, key: string)
    ensures Lookup(a + b, key) == if HasKey(a, key) then Lookup(a, key) else Lookup(b, key)
  {
    if a == [] {
      assert a + b == b;
    } else {
      assert (a + b)[0] == a[0] && (a + b)[1..] == a[1..] + b;
      LookupAppend(a[1..], b, key);
      if a[0].key == key {
        assert HasKey(a, key) by { assert a[0].key == key; }
      } else {
        assert HasKey(a, key) <==> HasKey(a[1..], key) by {
          if HasKey(a, key) {
            var i :| 0 <= i < |a| && a[i].key == key;
            assert a[1..][i - 1] == a[i];
          }
          if HasKey(a[1..], key) {
            var i :| 0 <= i < |a[1..]| && a[1..][i].key == key;
            assert a[i + 1] == a[1..][i];
          }
        }
      }
    }
  }

  /** After the `transform` pass, the new value is found under `key` and nothing else moves. */
  lemma {:induction false} UpdatedLookup(vs: seq<Variable>, key: string, value: Json, other: string)
    ensures Lookup(Updated(vs, key, value), other) ==
      if other == key && HasKey(vs, key) then Some(value) else Lookup(vs, other)
  {
    if vs != [] {
      var r := Updated(vs, key, value);
      assert r[1..] == Updated(vs[1..], key, value);
      UpdatedLookup(vs[1..], key, value, other);
      assert vs[0].key != key ==> (HasKey(vs, key) <==> HasKey(vs[1..], key)) by {
        if vs[0].key != key && HasKey(vs, key) {
          var i :| 0 <= i < |vs| && vs[i].key == key;
          assert vs[1..][i - 1] == vs[i];
        }
        if HasKey(vs[1..], key) {
          var i :| 0 <= i < |vs[1..]| && vs[1..][i].key == key;
          assert vs[i + 1] == vs[1..][i];
        }
      }
    }
  }

  /** `addVariable` makes `key` read back as the new value and leaves every other key's value alone. */
  lemma UpsertedLookup(vs: seq<Variable>, key: string, value: Json, other: string)
    ensures Lookup(Upserted(vs, key, value), other) == if other == key then Some(value) else Lookup(vs, other)
  {
    if HasKey(vs, key) {
      UpdatedLookup(vs, key, value, other);
    } else {
      LookupAppend(vs, [Variable(key, value)], other);
    }
  }

  /** `addVariable` makes exactly `key` present in addition to the keys already there. */
  lemma UpsertedHasKey(vs: seq<Variable>, key: string, value: Json, other: string)
    ensures HasKey(Upserted(vs, key, value), other) <==> other == key || HasKey(vs, other)
  {
    UpsertedLookup(vs, key, value, other);
  }

  /** `addVariable` never creates a second variable with the same key. */
  lemma UpsertedUnique(vs: seq<Variable>, key: string, value: Json)
    requires UniqueVariables(vs)
    ensures UniqueVariables(Upserted(vs, key, value))
  {
    var r := Upserted(vs, key, value);
    if !HasKey(vs, key) {
      forall i, j | 0 <= i < j < |r| ensures r[i].key != r[j].key {
        if j == |vs| {
          assert r[i] == vs[i];
        }
      }
    }
  }

  /** Adding the same variable twice is the same as adding it once. */
  lemma UpsertedTwice(vs: seq<Variable>, key: string, value: Json)
    ensures Upserted(Upserted(vs, key, value), key, value) == Upserted(vs, key, value)
  {
    var once := Upserted(vs, key, value);
    UpsertedHasKey(vs, key, value, key);
    var twice := Updated(once, key, value);
    assert |twice| == |once|;
    forall i | 0 <= i < |once| ensures twice[i] == once[i] {
      if i < |vs| && HasKey(vs, key) {
        assert once[i] == Updated(vs, key, value)[i];
      }
    }
  }

  /** A later `addVariable` for the same key wins, and the list keeps its shape. */
  lemma UpsertedOverwrite(vs: seq<Variable>, key: string, first: Json, second: Json)
    ensures Upserted(Upserted(vs, key, first), key, second) == Upserted(vs, key, second)
  {
    var once := Upserted(vs, key, first);
    UpsertedHasKey(vs, key, first, key);
    var twice := Updated(once, key, second);
    var direct := Upserted(vs, key, second);
    assert |twice| == |direct|;
    forall i | 0 <= i < |twice| ensures twice[i] == direct[i] {
      if i < |vs| && HasKey(vs, key) {
        assert once[i] == Updated(vs, key, first)[i];
      }
    }
  }

  /** `removeVariable` makes `key` absent and leaves every other key's value alone. */
  lemma {:induction false} RemovedLookup(vs: seq<Variable>, key: string, other: string)
    ensures Lookup(Removed(vs, key), other) == if other == key then None else Lookup(vs, other)
  {
    if vs != [] {
      var init := vs[..|vs| - 1];
      var last := vs[|vs| - 1];
      assert vs == init + [last];
      RemovedLookup(init, key, other);
      LookupAppend(init, [last], other);
      if last.key != key {
        LookupAppend(Removed(init, key), [last], other);
      }
    }
  }

  lemma RemovedHasKey(vs: seq<Variable>, key: string, other: string)
    requires other != key
    ensures HasKey(Removed(vs, key), other) <==> HasKey(vs, other)
  {
    RemovedLookup(vs, key, other);
  }

  /** `removeVariable` on a key that is not there changes nothing. */
  lemma {:induction false} RemovedAbsent(vs: seq<Variable>, key: string)
    requires !HasKey(vs, key)
    ensures Removed(vs, key) == vs
  {
    if vs != [] {
      var init := vs[..|vs| - 1];
      assert !HasKey(init, key) by {
        forall i | 0 <= i < |init| ensures init[i].key != key {
          assert init[i] == vs[i];
        }
      }
      RemovedAbsent(init, key);
      assert vs == init + [vs[|vs| - 1]];
    }
  }

  /** Removing a variable that was just added as new restores the list exactly. */
  lemma RemovedUndoesUpserted(vs: seq<Variable>, key: string, value: Json)
    requires !HasKey(vs, key)
    ensures Removed(Upserted(vs, key, value), key) == vs
  {
    var r := vs + [Variable(key, value)];
    assert r[..|r| - 1] == vs;
    RemovedAbsent(vs, key);
  }

  /** The environment under construction. */
  class PostmanEnvironment {
    var schema: Fields
    var variables: seq<Variable>

    /** Every key names one variable. */
    predicate Valid()
      reads this
    {
      UniqueVariables(variables)
    }

    constructor()
      ensures schema == [("_postman_variable_scope", Str("environment"))]
      ensures variables == []
      ensures Valid()
    {
      schema := Put([], "_postman_variable_scope", Str("environment"));
      variables := [];
    }

    /** `setName($name)` */
    method SetName(name: Json)
      modifies this
      ensures schema == Put(old(schema), "name", name)
      ensures variables == old(variables)
    {
      schema := Put(schema, "name", name);
    }

    /** `addVariable($key, $value)`: one pass that updates matches and records whether any matched. */
    method AddVariable(key: string, value: Json)
      requires Valid()
      modifies this
      ensures variables == Upserted(old(variables), key, value)
      ensures schema == old(schema)
      ensures Valid()
    {
      var isUpdated := false;
      var transformed: seq<Variable> := [];
      var i := 0;
      while i < |variables|
        invariant 0 <= i <= |variables|
        invariant |transformed| == i
        invariant forall j :: 0 <= j < i ==> transformed[j] == Updated(variables, key, value)[j]
        invariant isUpdated <==> exists j :: 0 <= j < i && variables[j].key == key
      {
        var item := variables[i];
        if item.key == key {
          item := Variable(item.key, value);
          isUpdated := true;
        }
        transformed := transformed + [item];
        i := i + 1;
      }
      assert transformed == Updated(variables, key, value);
      if !isUpdated {
        transformed := transformed + [Variable(key, value)];
      }
      UpsertedUnique(variables, key, value);
      variables := transformed;
    }

    /** `removeVariable($key)` */
    method RemoveVariable(key: string)
      requires Valid()
      modifies this
      ensures variables == Removed(old(variables), key)
      ensures schema == old(schema)
      ensures Valid()
    {
      var kept: seq<Variable> := [];
      var i := 0;
      while i < |variables|
        invariant 0 <= i <= |variables|
        invariant kept == Removed(variables[..i], key)
        invariant forall a, b :: 0 <= a < b < |kept| ==> kept[a].key != kept[b].key
        invariant forall a :: 0 <= a < |kept| ==> exists j :: 0 <= j < i && kept[a] == variables[j]
      {
        assert variables[..i + 1][..i] == variables[..i];
        if variables[i].key != key {
          forall a | 0 <= a < |kept| ensures kept[a].key != variables[i].key {
            var j :| 0 <= j < i && kept[a] == variables[j];
          }
          kept := kept + [variables[i]];
        }
        i := i + 1;
      }
      assert variables[..i] == variables;
      variables := kept;
    }

    /** `setServerUrl($url)`: the URL's scheme and host become the `scheme` and `host` variables. */
    method SetServerUrl(url: string, fw: Helpers)
      requires Valid()
      modifies this
      ensures variables == Upserted(Upserted(old(variables), "scheme", OptStr(fw.urlScheme(url))), "host", OptStr(fw.urlHost(url)))
      ensures schema == old(schema)
      ensures Valid()
    {
      AddVariable("scheme", OptStr(fw.urlScheme(url)));
      AddVariable("host", OptStr(fw.urlHost(url)));
    }

    /** `getOutput()`: the schema with the variable list under `values`. */
    method GetOutput() returns (output: Fields)
      ensures Get(output, "values") == Some(Arr(VariablesJson(variables)))
      ensures forall k :: k != "values" ==> Get(output, k) == Get(schema, k)
    {
      output := Put(schema, "values", Arr(VariablesJson(variables)));
    }
  }

  /** A server URL set on a new environment yields exactly the `scheme` and `host` variables, in that order. */
  lemma ServerUrlOnNewEnvironment(scheme: Json, host: Json)
    ensures Upserted(Upserted([], "scheme", scheme), "host", host) == [Variable("scheme", scheme), Variable("host", host)]
  {
    assert !HasKey([Variable("scheme", scheme)], "host");
  }
}
