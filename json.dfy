/**
 * PHP values as the pipeline builds them. A PHP array is either a list
 * (`Arr`) or an insertion-ordered string-keyed map (`Obj`); both empty forms
 * stand for PHP's `[]`. The map operations below are PHP's `$a[$k] = $v`,
 * `unset($a[$k])`, `isset($a[$k])`, `$a[$k][] = $v` and `array_merge`.
 */
module JsonValues {
  import opened Wrappers
  import opened Strings

  datatype Json =
    | Null
    | Bool(b: bool)
    | Num(n: int)
    | Str(s: string)
    | Arr(items: seq<Json>)
    | Obj(fields: seq<(string, Json)>)

  /** An insertion-ordered string-keyed PHP array. */
  type Fields = seq<(string, Json)>

  function Keys(fs: Fields): (ks: seq<string>)
    ensures |ks| == |fs|
    ensures forall i :: 0 <= i < |fs| ==> ks[i] == fs[i].0
  {
    if fs == [] then [] else [fs[0].0] + Keys(fs[1..])
  }

  /** PHP keys are unique; every operation here that adds keys keeps them so. */
  predicate UniqueKeys(fs: Fields) {
    forall i, j :: 0 <= i < j < |fs| ==> fs[i].0 != fs[j].0
  }

  /** `$a[$k] ?? null`, distinguishing a missing key (None) from a null value. */
  function Get(fs: Fields, k: string): (r: Option<Json>)
    ensures r.Some? <==> k in Keys(fs)
  {
    if fs == [] then None
    else if fs[0].0 == k then Some(fs[0].1)
    else Get(fs[1..], k)
  }

  /** `$a[$k] = $v`: an existing key keeps its position, a new key goes last. */
  function Put(fs: Fields, k: string, v: Json): (r: Fields)
    ensures Get(r, k) == Some(v)
    ensures forall k' :: k' != k ==> Get(r, k') == Get(fs, k')
    ensures Keys(r) == if k in Keys(fs) then Keys(fs) else Keys(fs) + [k]
  {
    if fs == [] then [(k, v)]
    else if fs[0].0 == k then
      assert ([(k, v)] + fs[1..])[1..] == fs[1..];
      [(k, v)] + fs[1..]
    else
      var rest := Put(fs[1..], k, v);
      assert ([fs[0]] + rest)[1..] == rest;
      [fs[0]] + rest
  }

  lemma UniqueKeysOf(fs: Fields, gs: Fields)
    requires Keys(fs) == Keys(gs)
    ensures UniqueKeys(fs) <==> UniqueKeys(gs)
  {
    assert forall i :: 0 <= i < |fs| ==> fs[i].0 == Keys(fs)[i] == gs[i].0;
  }

  /** Assignment keeps keys unique. */
  lemma PutUnique(fs: Fields, k: string, v: Json)
    requires UniqueKeys(fs)
    ensures UniqueKeys(Put(fs, k, v))
  {
    var r := Put(fs, k, v);
    if k in Keys(fs) {
      UniqueKeysOf(fs, r);
    } else {
      forall i, j | 0 <= i < j < |r| ensures r[i].0 != r[j].0 {
        assert r[i].0 == Keys(r)[i] && r[j].0 == Keys(r)[j];
        if j == |fs| {
          assert Keys(fs)[i] == r[i].0;
        } else {
          assert Keys(fs)[i] == r[i].0 && Keys(fs)[j] == r[j].0;
        }
      }
    }
  }

  /** `unset($a[$k])`: the rest keep their order. */
  function Remove(fs: Fields, k: string): (r: Fields)
    ensures Get(r, k) == None
    ensures forall k' :: k' != k ==> Get(r, k') == Get(fs, k')
    ensures forall e :: e in r <==> e in fs && e.0 != k
    ensures UniqueKeys(fs) ==> UniqueKeys(r)
  {
    if fs == [] then []
    else if fs[0].0 == k then Remove(fs[1..], k)
    else
      var rest := Remove(fs[1..], k);
      assert ([fs[0]] + rest)[1..] == rest;
      assert UniqueKeys(fs) ==> forall e :: e in rest ==> e.0 != fs[0].0;
      [fs[0]] + rest
  }

  /** `unset` applied to every key of `ks` in turn. */
  function RemoveAll(fs: Fields, ks: seq<string>): (r: Fields)
    ensures forall k :: k in ks ==> Get(r, k) == None
    ensures forall k :: k !in ks ==> Get(r, k) == Get(fs, k)
    ensures UniqueKeys(fs) ==> UniqueKeys(r)
    decreases |ks|
  {
    if ks == [] then fs else RemoveAll(Remove(fs, ks[0]), ks[1..])
  }

  /** `array_merge($fs, $gs)` for string keys: `$gs` wins, first positions are kept. */
  function PutAll(fs: Fields, gs: Fields): (r: Fields)
    ensures forall k :: k !in Keys(gs) ==> Get(r, k) == Get(fs, k)
    ensures UniqueKeys(gs) ==> forall k :: k in Keys(gs) ==> Get(r, k) == Get(gs, k)
    ensures UniqueKeys(fs) ==> UniqueKeys(r)
    decreases |gs|
  {
    if gs == [] then fs
    else
      var next := Put(fs, gs[0].0, gs[0].1);
      assert UniqueKeys(fs) ==> UniqueKeys(next) by {
        if UniqueKeys(fs) { PutUnique(fs, gs[0].0, gs[0].1); }
      }
      assert UniqueKeys(gs) ==> UniqueKeys(gs[1..]) && gs[0].0 !in Keys(gs[1..]);
      PutAll(next, gs[1..])
  }

  /** A key's value is the one at its first position. */
  lemma {:induction false} GetAt(fs: Fields, i: nat)
    requires i < |fs|
    requires forall j :: 0 <= j < i ==> fs[j].0 != fs[i].0
    ensures Get(fs, fs[i].0) == Some(fs[i].1)
  {
    if i > 0 {
      GetAt(fs[1..], i - 1);
    }
  }

  /** Merging a one-entry map is one assignment. */
  lemma PutAllOne(fs: Fields, gs: Fields)
    requires |gs| == 1
    ensures PutAll(fs, gs) == Put(fs, gs[0].0, gs[0].1)
  {
    assert gs[1..] == [];
  }

  /** A lookup in two maps written one after the other finds the first one's entry first. */
  lemma {:induction false} GetConcat(fs: Fields, gs: Fields, k: string)
    ensures Get(fs + gs, k) == if Get(fs, k).Some? then Get(fs, k) else Get(gs, k)
  {
    if fs != [] {
      assert (fs + gs)[1..] == fs[1..] + gs;
      GetConcat(fs[1..], gs, k);
    } else {
      assert fs + gs == gs;
    }
  }

  /** Lookups in map literals of two, four and five entries, one comparison per entry. */
  lemma Get2(a: (string, Json), b: (string, Json), k: string)
    ensures Get([a, b], k) == if k == a.0 then Some(a.1) else if k == b.0 then Some(b.1) else None
  {
    assert [a, b][1..] == [b];
  }

  lemma Get4(a: (string, Json), b: (string, Json), c: (string, Json), d: (string, Json), k: string)
    ensures Get([a, b, c, d], k) ==
      if k == a.0 then Some(a.1) else if k == b.0 then Some(b.1)
      else if k == c.0 then Some(c.1) else if k == d.0 then Some(d.1) else None
  {
    assert [a, b, c, d] == [a, b] + [c, d];
    GetConcat([a, b], [c, d], k);
    Get2(a, b, k);
    Get2(c, d, k);
  }

  lemma Get5(a: (string, Json), b: (string, Json), c: (string, Json), d: (string, Json), e: (string, Json), k: string)
    ensures Get([a, b, c, d, e], k) ==
      if k == a.0 then Some(a.1) else if k == b.0 then Some(b.1) else if k == c.0 then Some(c.1)
      else if k == d.0 then Some(d.1) else if k == e.0 then Some(e.1) else None
  {
    assert [a, b, c, d, e] == [a, b, c, d] + [e];
    GetConcat([a, b, c, d], [e], k);
    Get4(a, b, c, d, k);
  }

  lemma Get9(a: (string, Json), b: (string, Json), c: (string, Json), d: (string, Json), e: (string, Json),
             f: (string, Json), g: (string, Json), h: (string, Json), i: (string, Json), k: string)
    ensures Get([a, b, c, d, e, f, g, h, i], k) ==
      if Get([a, b, c, d, e], k).Some? then Get([a, b, c, d, e], k) else Get([f, g, h, i], k)
  {
    assert [a, b, c, d, e, f, g, h, i] == [a, b, c, d, e] + [f, g, h, i];
    GetConcat([a, b, c, d, e], [f, g, h, i], k);
  }

  lemma KeysSnoc(fs: Fields)
    requires fs != []
    ensures Keys(fs) == Keys(fs[..|fs| - 1]) + [fs[|fs| - 1].0]
  {
    var a := Keys(fs);
    var b := Keys(fs[..|fs| - 1]) + [fs[|fs| - 1].0];
    assert |a| == |b|;
    forall i | 0 <= i < |a| ensures a[i] == b[i] {
      if i < |fs| - 1 {
        assert b[i] == Keys(fs[..|fs| - 1])[i] == fs[i].0;
      }
    }
  }

  /** The last entry of a map with unique keys is not shadowed by an earlier one. */
  lemma UniqueSnoc(fs: Fields)
    requires fs != [] && UniqueKeys(fs)
    ensures UniqueKeys(fs[..|fs| - 1])
    ensures fs[|fs| - 1].0 !in Keys(fs[..|fs| - 1])
    ensures Keys(fs) == Keys(fs[..|fs| - 1]) + [fs[|fs| - 1].0]
  {
    KeysSnoc(fs);
    var init := fs[..|fs| - 1];
    forall j | 0 <= j < |init| ensures Keys(init)[j] != fs[|fs| - 1].0 {
      assert Keys(init)[j] == fs[j].0;
    }
  }

  lemma {:induction false} GetAppend(fs: Fields, e: (string, Json), k: string)
    ensures Get(fs + [e], k) == if k in Keys(fs) then Get(fs, k) else if k == e.0 then Some(e.1) else None
  {
    if fs != [] {
      assert (fs + [e])[1..] == fs[1..] + [e];
      GetAppend(fs[1..], e, k);
    }
  }

  /** `$j[$k]` on a PHP array value; anything else has no keys. */
  function Field(j: Json, k: string): Option<Json> {
    if j.Obj? then Get(j.fields, k) else None
  }

  /** `isset($j[$k])`: present and not null. */
  predicate IsSet(j: Json, k: string) {
    Field(j, k).Some? && Field(j, k).value != Null
  }

  /** The fields of a PHP array used as a map; a list or a scalar has none. */
  function AsFields(j: Json): Fields {
    if j.Obj? then j.fields else []
  }

  /** PHP's boolean conversion (`if ($x)`, `empty()`). */
  predicate Truthy(j: Json) {
    match j
    case Null => false
    case Bool(b) => b
    case Num(n) => n != 0
    case Str(s) => !EmptyStr(s)
    case Arr(xs) => xs != []
    case Obj(fs) => fs != []
  }

  /** PHP's string conversion of a value (`(string) $x`, string interpolation). */
  function Text(j: Json): string {
    match j
    case Null => ""
    case Bool(b) => if b then "1" else ""
    case Num(n) => IntToString(n)
    case Str(s) => s
    case Arr(_) => "Array"
    case Obj(_) => "Array"
  }

  /** PHP 8's `$j == 'w'` (and `switch` matching) against a non-empty, non-numeric literal word `w`. */
  predicate LooselyIs(j: Json, w: string) {
    j == Str(w) || j == Bool(true)
  }

  /** PHP's `$a ?: $b`. */
  function Elvis(a: Json, b: Json): (r: Json)
    ensures Truthy(a) ==> r == a
    ensures !Truthy(a) ==> r == b
  {
    if Truthy(a) then a else b
  }

  /** A PHP string-or-null as a value: None is `null`. */
  function OptStr(o: Option<string>): Json {
    match o
    case Some(s) => Str(s)
    case None => Null
  }

  /** PHP's key cast turns `0` and a decimal numeral without a leading zero into an integer key. */
  predicate IsIndexKey(k: string) {
    && k != []
    && (forall i :: 0 <= i < |k| ==> IsDigit(k[i]))
    && (k[0] == '0' ==> |k| == 1)
  }

  /** The number a run of decimal digits denotes. */
  function DigitsValue(k: string): nat
    requires forall i :: 0 <= i < |k| ==> IsDigit(k[i])
  {
    if k == [] then 0
    else
      assert IsDigit(k[|k| - 1]);
      10 * DigitsValue(k[..|k| - 1]) + (k[|k| - 1] as int - '0' as int)
  }

  /** The key `$a[] = $v` uses on a map: one past its largest non-negative integer key, or 0. */
  function NextIndex(fs: Fields): (n: nat)
    ensures forall i :: 0 <= i < |fs| && IsIndexKey(fs[i].0) ==> DigitsValue(fs[i].0) < n
    ensures n > 0 ==> exists i :: 0 <= i < |fs| && IsIndexKey(fs[i].0) && DigitsValue(fs[i].0) + 1 == n
  {
    if fs == [] then 0
    else
      var rest := NextIndex(fs[1..]);
      assert forall i :: 1 <= i < |fs| ==> fs[i] == fs[1..][i - 1];
      var k := fs[0].0;
      if IsIndexKey(k) && DigitsValue(k) + 1 > rest then DigitsValue(k) + 1 else rest
  }

  /** The decimal text of a number is an integer key denoting that number. */
  lemma {:induction false} NatToStringIndex(n: nat)
    ensures IsIndexKey(NatToString(n)) && DigitsValue(NatToString(n)) == n
    decreases n
  {
    var s := NatToString(n);
    if n >= 10 {
      var front := NatToString(n / 10);
      NatToStringIndex(n / 10);
      assert s[..|s| - 1] == front;
      assert s[0] == front[0];
    }
  }

  /** The next index, written as a key, is a key the map does not have yet. */
  lemma NextIndexFresh(fs: Fields)
    ensures NatToString(NextIndex(fs)) !in Keys(fs)
  {
    NatToStringIndex(NextIndex(fs));
  }

  /**
   * `$x[] = $v` on the current value of a slot: an absent, null, `false` or
   * empty slot becomes a one-element list, a list grows at its end, and a
   * non-empty map gets `v` under its next integer key. None is the `Error`
   * PHP throws for a string, a number or `true`.
   */
  function Pushed(current: Option<Json>, v: Json): (r: Option<Json>)
    ensures (current.None? || current == Some(Null) || current == Some(Bool(false)) || current == Some(Obj([]))) ==>
      r == Some(Arr([v]))
    ensures current.Some? && current.value.Arr? ==> r == Some(Arr(current.value.items + [v]))
    ensures current.Some? && current.value.Obj? && current.value.fields != [] ==>
      var fs := current.value.fields;
      && r.Some? && r.value.Obj? && |r.value.fields| == |fs| + 1 && r.value.fields[..|fs|] == fs
      && var (k, x) := r.value.fields[|fs|];
      && x == v && IsIndexKey(k) && k !in Keys(fs)
      && (forall i :: 0 <= i < |fs| && IsIndexKey(fs[i].0) ==> DigitsValue(fs[i].0) < DigitsValue(k))
    ensures r.None? <==> current.Some? && (current.value.Str? || current.value.Num? || current.value == Bool(true))
  {
    match current
    case None => Some(Arr([v]))
    case Some(Null) => Some(Arr([v]))
    case Some(Bool(b)) => if b then None else Some(Arr([v]))
    case Some(Arr(xs)) => Some(Arr(xs + [v]))
    case Some(Obj(fs)) =>
      if fs == [] then Some(Arr([v]))
      else
        NatToStringIndex(NextIndex(fs));
        NextIndexFresh(fs);
        Some(Obj(fs + [(NatToString(NextIndex(fs)), v)]))
    case Some(_) => None
  }

  /** Nested string-keyed assignment `$a[$k1][$k2] = $v`; a missing or list value becomes a map. */
  function Put2(fs: Fields, k1: string, k2: string, v: Json): (r: Fields)
    ensures Get(r, k1).Some? && Get(r, k1).value.Obj?
    ensures Get(Get(r, k1).value.fields, k2) == Some(v)
    ensures forall k' :: k' != k1 ==> Get(r, k') == Get(fs, k')
  {
    var inner := if Get(fs, k1).Some? then AsFields(Get(fs, k1).value) else [];
    Put(fs, k1, Obj(Put(inner, k2, v)))
  }
}
