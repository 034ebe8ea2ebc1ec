/**
 * Python's dynamic JSON-like values (`Dict[str, Any]` metadata, decoded
 * model payloads) and the few dict operations the services use.
 * A dict keeps its keys in insertion order next to the key/value map, so
 * that iteration order is available where output text depends on it.
 */
module Json {
  import opened Wrappers
  import Text

  datatype Value =
    | Null
    | Bool(b: bool)
    | Int(i: int)
    | Float(r: real, repr: string)   // `repr` is Python's `str(float)` of the number
    | Str(s: string)
    | List(items: seq<Value>)
    | Obj(d: Dict)

  datatype Dict = Dict(keys: seq<string>, vals: map<string, Value>)

  /** The key order lists every key of the map exactly once. */
  predicate ValidDict(d: Dict) {
    (forall k :: k in d.vals ==> k in d.keys)
    && (forall k :: k in d.keys ==> k in d.vals)
    && (forall i, j :: 0 <= i < j < |d.keys| ==> d.keys[i] != d.keys[j])
  }

  const Empty: Dict := Dict([], map[])

  /** `k in d`. */
  predicate Has(d: Dict, k: string) {
    k in d.vals
  }

  /** `d.get(k)`: `None` (here `Null`) when the key is absent. */
  function Get(d: Dict, k: string): Value {
    if k in d.vals then d.vals[k] else Null
  }

  /** `d.get(k, default)`. */
  function GetOr(d: Dict, k: string, default: Value): (r: Value)
    ensures k in d.vals ==> r == d.vals[k]
    ensures k !in d.vals ==> r == default
  {
    if k in d.vals then d.vals[k] else default
  }

  /** `d[k] = v`: a new key goes to the end of the order, an existing key keeps its place. */
  function Put(d: Dict, k: string, v: Value): (r: Dict)
    ensures r.vals == d.vals[k := v]
  {
    Dict(if k in d.vals then d.keys else d.keys + [k], d.vals[k := v])
  }

  lemma PutValid(d: Dict, k: string, v: Value)
    requires ValidDict(d)
    ensures ValidDict(Put(d, k, v))
  {
  }

  /** `d[k] = v` skipped for `None`: the entry a dump with `exclude_none` writes. */
  function PutUnlessNull(d: Dict, k: string, v: Value): (r: Dict)
    ensures r.vals == if v == Null then d.vals else d.vals[k := v]
  {
    if v == Null then d else Put(d, k, v)
  }

  /** No key occurs twice. */
  predicate Distinct(ks: seq<string>) {
    forall i, j :: 0 <= i < j < |ks| ==> ks[i] != ks[j]
  }

  /**
   * The dict with `ks[i]` mapped to `vs[i]`, in the order of `ks`, leaving out
   * the `None` values: what a dump with `exclude_none` produces from a record.
   */
  function FromEntries(ks: seq<string>, vs: seq<Value>): (r: Dict)
    requires |ks| == |vs|
    ensures forall k :: k in r.vals ==> k in ks && r.vals[k] != Null
    decreases |ks|
  {
    if ks == [] then Empty
    else
      var n := |ks| - 1;
      assert forall k :: k in ks[..n] ==> k in ks;
      PutUnlessNull(FromEntries(ks[..n], vs[..n]), ks[n], vs[n])
  }

  /** With distinct keys every key reads back its own value (`None` when it was left out). */
  lemma {:induction false} FromEntriesLookup(ks: seq<string>, vs: seq<Value>, i: nat)
    requires |ks| == |vs| && i < |ks| && Distinct(ks)
    ensures Get(FromEntries(ks, vs), ks[i]) == vs[i]
    decreases |ks|
  {
    var n := |ks| - 1;
    var prefix := FromEntries(ks[..n], vs[..n]);
    assert FromEntries(ks, vs) == PutUnlessNull(prefix, ks[n], vs[n]);
    if i < n {
      assert Distinct(ks[..n]) by {
        forall a, b | 0 <= a < b < n ensures ks[..n][a] != ks[..n][b] {
          assert ks[..n][a] == ks[a] && ks[..n][b] == ks[b];
        }
      }
      FromEntriesLookup(ks[..n], vs[..n], i);
      assert ks[..n][i] == ks[i] && vs[..n][i] == vs[i];
      assert ks[i] != ks[n];
      assert Get(prefix, ks[i]) == vs[i];
    }
  }

  /** The keys of `ks` that `d` holds, in the order of `ks`. */
  function KeysIn(ks: seq<string>, d: Dict): (r: seq<string>)
    ensures forall k :: k in r <==> k in ks && k in d.vals
    decreases |ks|
  {
    if ks == [] then []
    else
      var n := |ks| - 1;
      assert ks == ks[..n] + [ks[n]];
      KeysIn(ks[..n], d) + (if ks[n] in d.vals then [ks[n]] else [])
  }

  /** Two dicts holding the same keys of `ks` pick the same keys out of `ks`. */
  lemma {:induction false} KeysInSame(ks: seq<string>, d: Dict, e: Dict)
    requires forall k :: k in ks ==> (k in d.vals <==> k in e.vals)
    ensures KeysIn(ks, d) == KeysIn(ks, e)
    decreases |ks|
  {
    if ks != [] {
      var n := |ks| - 1;
      assert forall k :: k in ks[..n] ==> k in ks;
      KeysInSame(ks[..n], d, e);
    }
  }

  /**
   * With distinct keys the dict lists exactly the keys it kept, in the order
   * of `ks`, each once.
   */
  lemma {:induction false} FromEntriesKeys(ks: seq<string>, vs: seq<Value>)
    requires |ks| == |vs| && Distinct(ks)
    ensures FromEntries(ks, vs).keys == KeysIn(ks, FromEntries(ks, vs))
    ensures ValidDict(FromEntries(ks, vs))
    decreases |ks|
  {
    if ks != [] {
      var n := |ks| - 1;
      var prefix := FromEntries(ks[..n], vs[..n]);
      var r := FromEntries(ks, vs);
      assert r == PutUnlessNull(prefix, ks[n], vs[n]);
      assert Distinct(ks[..n]) by {
        forall a, b | 0 <= a < b < n ensures ks[..n][a] != ks[..n][b] {
          assert ks[..n][a] == ks[a] && ks[..n][b] == ks[b];
        }
      }
      FromEntriesKeys(ks[..n], vs[..n]);
      assert ks[n] !in ks[..n];
      assert ks[n] !in prefix.vals;
      KeysInSame(ks[..n], r, prefix);
      assert KeysIn(ks, r) == KeysIn(ks[..n], r) + (if ks[n] in r.vals then [ks[n]] else []);
    }
  }

  /** `d.setdefault(k, v)`: writes only when the key is absent. */
  function SetDefault(d: Dict, k: string, v: Value): (r: Dict)
    ensures k in d.vals ==> r == d
    ensures k !in d.vals ==> r == Put(d, k, v)
  {
    if k in d.vals then d else Put(d, k, v)
  }

  /** `d.pop(k, None)` without the returned value. */
  function Remove(d: Dict, k: string): (r: Dict)
    ensures r.vals == d.vals - {k}
  {
    Dict(Without(d.keys, k), d.vals - {k})
  }

  lemma RemoveValid(d: Dict, k: string)
    requires ValidDict(d)
    ensures ValidDict(Remove(d, k))
  {
    WithoutDistinct(d.keys, k);
  }

  lemma {:induction false} RemoveAllValid(d: Dict, ks: seq<string>)
    requires ValidDict(d)
    ensures ValidDict(RemoveAll(d, ks))
    decreases |ks|
  {
    if ks != [] {
      RemoveValid(d, ks[0]);
      RemoveAllValid(Remove(d, ks[0]), ks[1..]);
    }
  }

  /** `d.pop(k, None)` for every key of `ks`. */
  function RemoveAll(d: Dict, ks: seq<string>): (r: Dict)
    ensures forall k :: k in r.vals <==> k in d.vals && k !in ks
    ensures forall k :: k in r.vals ==> r.vals[k] == d.vals[k]
    decreases |ks|
  {
    if ks == [] then d else RemoveAll(Remove(d, ks[0]), ks[1..])
  }

  function Without(keys: seq<string>, k: string): (r: seq<string>)
    ensures forall x :: x in r <==> x in keys && x != k
  {
    if keys == [] then []
    else if keys[0] == k then Without(keys[1..], k)
    else [keys[0]] + Without(keys[1..], k)
  }

  lemma {:induction false} WithoutDistinct(keys: seq<string>, k: string)
    requires Distinct(keys)
    ensures Distinct(Without(keys, k))
  {
    if keys != [] {
      assert Distinct(keys[1..]) by {
        forall a, b | 0 <= a < b < |keys| - 1 ensures keys[1..][a] != keys[1..][b] {
          assert keys[1..][a] == keys[a + 1] && keys[1..][b] == keys[b + 1];
        }
      }
      WithoutDistinct(keys[1..], k);
      if keys[0] != k {
        var rest := Without(keys[1..], k);
        assert keys[0] !in rest;
        assert Without(keys, k) == [keys[0]] + rest;
      }
    }
  }

  /** `d.update(u)`: every entry of `u`, in `u`'s order, overwrites or extends `d`. */
  function Update(d: Dict, u: Dict): (r: Dict)
    ensures r.vals == d.vals + u.vals || !ValidDict(u)
  {
    UpdateKeys(d, u, u.keys)
  }

  function UpdateKeys(d: Dict, u: Dict, ks: seq<string>): (r: Dict)
    ensures forall k :: k in r.vals <==> k in d.vals || k in ks
    ensures forall k :: k in r.vals ==> r.vals[k] == if k in ks then Get(u, k) else d.vals[k]
    decreases |ks|
  {
    if ks == [] then d
    else
      var k := ks[|ks| - 1];
      var r := Put(UpdateKeys(d, u, ks[..|ks| - 1]), k, Get(u, k));
      assert forall x :: x in ks <==> x in ks[..|ks| - 1] || x == k by {
        assert ks == ks[..|ks| - 1] + [k];
      }
      r
  }

  /** The entries of `d` in iteration order, as `d.items()` lists them. */
  function Items(d: Dict): (r: seq<(string, Value)>)
    ensures |r| <= |d.keys|
    ensures forall i :: 0 <= i < |r| ==> r[i].0 in d.vals && r[i].1 == d.vals[r[i].0]
    decreases |d.keys|
  {
    if d.keys == [] then []
    else
      var k := d.keys[0];
      var rest := Items(Dict(d.keys[1..], d.vals));
      if k in d.vals then [(k, d.vals[k])] + rest else rest
  }

  /** Every key of the key order that has a value is an item. */
  lemma {:induction false} ItemsComplete(d: Dict, k: string)
    requires k in d.vals && k in d.keys
    ensures exists i :: 0 <= i < |Items(d)| && Items(d)[i].0 == k
    decreases |d.keys|
  {
    var rest := Dict(d.keys[1..], d.vals);
    if d.keys[0] == k {
      assert Items(d)[0].0 == k;
    } else {
      assert k in rest.keys;
      ItemsComplete(rest, k);
      var i :| 0 <= i < |Items(rest)| && Items(rest)[i].0 == k;
      if d.keys[0] in d.vals {
        assert Items(d) == [(d.keys[0], d.vals[d.keys[0]])] + Items(rest);
        assert Items(d)[i + 1] == Items(rest)[i];
      } else {
        assert Items(d) == Items(rest);
      }
    }
  }

  /** Python truthiness of a value. */
  predicate Truthy(v: Value) {
    match v
    case Null => false
    case Bool(b) => b
    case Int(i) => i != 0
    case Float(r, _) => r != 0.0
    case Str(s) => s != []
    case List(items) => items != []
    case Obj(d) => d.vals != map[]
  }

  /** The dict inside a value, when `isinstance(value, dict)`. */
  function AsDict(v: Value): Option<Dict> {
    if v.Obj? then Some(v.d) else None
  }

  /** `str(value)`: the text itself for a string, Python's display form otherwise. */
  function PyStr(v: Value): string {
    if v.Str? then v.s else Repr(v)
  }

  /** Python's `repr` (string escapes are not modelled). */
  function Repr(v: Value): string
    decreases v, 1
  {
    match v
    case Null => "None"
    case Bool(b) => if b then "True" else "False"
    case Int(i) => Text.IntToString(i)
    case Float(_, repr) => repr
    case Str(s) => "'" + s + "'"
    case List(items) => "[" + ReprList(v, 0) + "]"
    case Obj(d) => "{" + ReprEntries(v, d, d.keys) + "}"
  }

  function ReprList(v: Value, i: nat): string
    requires v.List? && i <= |v.items|
    decreases v, 0, |v.items| - i
  {
    if i == |v.items| then ""
    else if i == |v.items| - 1 then Repr(v.items[i])
    else Repr(v.items[i]) + ", " + ReprList(v, i + 1)
  }

  function ReprEntries(v: Value, d: Dict, ks: seq<string>): string
    requires v == Obj(d)
    decreases v, 0, |ks|
  {
    if ks == [] then ""
    else
      var head := if ks[0] in d.vals then "'" + ks[0] + "': " + Repr(d.vals[ks[0]]) else "";
      var tail := ReprEntries(v, d, ks[1..]);
      if head == [] then tail else if tail == [] then head else head + ", " + tail
  }
}
