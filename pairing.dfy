/** The field list of `--add` and `--update`: a flat list `[k0, v0, k1, v1, ...]`
    turned into a mapping by `dict(zip(fields[::2], fields[1::2]))`. */
module Pairing {

  /** The slice `s[start::2]`: the elements at positions start, start + 2, ... */
  function EveryOtherFrom<T>(s: seq<T>, start: nat): (r: seq<T>)
    ensures |r| == if start < |s| then (|s| - start + 1) / 2 else 0
    ensures forall k :: 0 <= k < |r| ==> r[k] == s[start + 2 * k]
    decreases |s| - start
  {
    if start < |s| then [s[start]] + EveryOtherFrom(s, start + 2) else []
  }

  /** `zip(a, b)`: pairs elementwise and stops at the end of the shorter input. */
  function Zip<A, B>(a: seq<A>, b: seq<B>): (r: seq<(A, B)>)
    ensures |r| == if |a| <= |b| then |a| else |b|
    ensures forall k :: 0 <= k < |r| ==> r[k] == (a[k], b[k])
  {
    if a == [] || b == [] then [] else [(a[0], b[0])] + Zip(a[1..], b[1..])
  }

  /** `zip(fields[::2], fields[1::2])`: pair k is (fields[2k], fields[2k+1]); a trailing
      unpaired element has no partner and is dropped. */
  function Pairs<T>(fields: seq<T>): (r: seq<(T, T)>)
    ensures |r| == |fields| / 2
    ensures forall k :: 0 <= k < |r| ==> r[k] == (fields[2 * k], fields[2 * k + 1])
  {
    Zip(EveryOtherFrom(fields, 0), EveryOtherFrom(fields, 1))
  }

  /** Position i holds the last pair of ps whose key is `key`. */
  ghost predicate LastWith<K, V>(ps: seq<(K, V)>, key: K, i: int)
  {
    0 <= i < |ps| && ps[i].0 == key && forall j :: i < j < |ps| ==> ps[j].0 != key
  }

  /** `dict(ps)`: the pairs are stored left to right, so a later pair overwrites an
      earlier one with the same key. */
  function DictOf<K, V>(ps: seq<(K, V)>): map<K, V>
  {
    if ps == [] then map[] else DictOf(ps[..|ps| - 1])[ps[|ps| - 1].0 := ps[|ps| - 1].1]
  }

  /** The keys of `dict(ps)` are exactly the keys of its pairs. */
  lemma {:induction false} DictOfKeys<K, V>(ps: seq<(K, V)>)
    ensures DictOf(ps).Keys == set i | 0 <= i < |ps| :: ps[i].0
  {
    if ps != [] {
      var init := ps[..|ps| - 1];
      DictOfKeys(init);
      var keys := set i | 0 <= i < |ps| :: ps[i].0;
      var initKeys := set i | 0 <= i < |init| :: init[i].0;
      assert keys == initKeys + {ps[|ps| - 1].0} by {
        forall key | key in keys ensures key in initKeys + {ps[|ps| - 1].0} {
          var i :| 0 <= i < |ps| && ps[i].0 == key;
          if i < |init| {
            assert init[i].0 == key;
          }
        }
      }
    }
  }

  /** The value `dict(ps)` holds for a key is the one of that key's last pair. */
  lemma {:induction false} DictOfLast<K, V>(ps: seq<(K, V)>, i: nat)
    requires i < |ps| && LastWith(ps, ps[i].0, i)
    ensures ps[i].0 in DictOf(ps) && DictOf(ps)[ps[i].0] == ps[i].1
  {
    var init := ps[..|ps| - 1];
    if i < |init| {
      assert init[i] == ps[i];
      assert LastWith(init, init[i].0, i);
      DictOfLast(init, i);
    }
  }

  /** The document data built from a flat field list, main.py:45 and main.py:58. */
  function FieldData(fields: seq<string>): map<string, string>
  {
    DictOf(Pairs(fields))
  }

  /** A key is in the mapping exactly when it stands at an even position that has a
      value after it. */
  lemma FieldDataKeys(fields: seq<string>, key: string)
    ensures key in FieldData(fields) <==>
            exists k :: 0 <= k < |fields| / 2 && fields[2 * k] == key
  {
    var ps := Pairs(fields);
    DictOfKeys(ps);
    if key in FieldData(fields) {
      var k :| 0 <= k < |ps| && ps[k].0 == key;
      assert fields[2 * k] == key;
    }
    if exists k :: 0 <= k < |fields| / 2 && fields[2 * k] == key {
      var k :| 0 <= k < |fields| / 2 && fields[2 * k] == key;
      assert ps[k].0 == key;
    }
  }

  /** When a key occurs more than once, its value is the one after its last occurrence. */
  lemma FieldDataLastWins(fields: seq<string>, k: nat)
    requires 2 * k + 1 < |fields|
    requires forall j :: k < j < |fields| / 2 ==> fields[2 * j] != fields[2 * k]
    ensures fields[2 * k] in FieldData(fields)
    ensures FieldData(fields)[fields[2 * k]] == fields[2 * k + 1]
  {
    var ps := Pairs(fields);
    var key := fields[2 * k];
    assert ps[k] == (key, fields[2 * k + 1]);
    forall j | k < j < |ps| ensures ps[j].0 != key {
      assert ps[j] == (fields[2 * j], fields[2 * j + 1]);
    }
    DictOfLast(ps, k);
  }

  /** An odd trailing element never reaches the mapping. */
  lemma TrailingElementDropped(fields: seq<string>)
    requires |fields| % 2 == 1
    ensures FieldData(fields) == FieldData(fields[..|fields| - 1])
  {
    var shorter := fields[..|fields| - 1];
    assert Pairs(fields) == Pairs(shorter);
  }

  /** Appending one more key and value overrides that key and keeps the rest. */
  lemma AppendOverrides(fields: seq<string>, key: string, value: string)
    requires |fields| % 2 == 0
    ensures FieldData(fields + [key, value]) == FieldData(fields)[key := value]
  {
    var longer := fields + [key, value];
    assert Pairs(longer) == Pairs(fields) + [(key, value)];
    assert Pairs(longer)[..|Pairs(longer)| - 1] == Pairs(fields);
  }

  /** With distinct keys, `dict` keeps every pair: the mapping has one entry per pair. */
  lemma {:induction false} DictOfDistinctSize<K, V>(ps: seq<(K, V)>)
    requires forall i, j :: 0 <= i < j < |ps| ==> ps[i].0 != ps[j].0
    ensures |DictOf(ps)| == |ps|
  {
    if ps != [] {
      var init, last := ps[..|ps| - 1], ps[|ps| - 1];
      DictOfDistinctSize(init);
      DictOfKeys(init);
      forall i | 0 <= i < |init| ensures init[i].0 != last.0 {
        assert init[i] == ps[i];
      }
    }
  }

  /** A flat list of 2k elements whose keys are distinct yields exactly k entries. */
  lemma FieldDataSize(fields: seq<string>)
    requires forall i, j :: 0 <= i < j < |fields| / 2 ==> fields[2 * i] != fields[2 * j]
    ensures |FieldData(fields)| == |fields| / 2
  {
    var ps := Pairs(fields);
    forall i, j | 0 <= i < j < |ps| ensures ps[i].0 != ps[j].0 {
      assert ps[i].0 == fields[2 * i] && ps[j].0 == fields[2 * j];
    }
    DictOfDistinctSize(ps);
  }

  /** `--add users name Alice age 30` stores `{name: "Alice", age: "30"}`. */
  lemma AddScenarioData()
    ensures FieldData(["name", "Alice", "age", "30"]) == map["name" := "Alice", "age" := "30"]
  {
    var fields := ["name", "Alice", "age", "30"];
    var ps := Pairs(fields);
    assert ps == [("name", "Alice"), ("age", "30")];
    assert DictOf(ps[..1]) == map["name" := "Alice"];
  }
}
