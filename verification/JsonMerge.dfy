/** Merging JSON objects (src/utils.rs). */
module JsonMerge {
  import opened Wrappers
  import opened Ordering

  datatype Json =
    | Null
    | Bool(b: bool)
    | Number(n: int)
    | Text(s: string)
    | Array(items: seq<Json>)
    | Object(fields: map<string, Json>)

  type JsonMap = map<string, Json>

  datatype JsonMergeError = JsonMergeError(key: string, oldValue: Json, newValue: Json)

  /** The clashes met when visiting `keys` of `from` in turn. */
  function ConflictsOver(keys: seq<string>, from: JsonMap, into: JsonMap): (r: seq<JsonMergeError>)
    requires forall k :: k in keys ==> k in from
  {
    if keys == [] then []
    else
      var k := keys[|keys| - 1];
      var before := ConflictsOver(keys[..|keys| - 1], from, into);
      if k in into && from[k] != into[k]
      then before + [JsonMergeError(k, from[k], into[k])]
      else before
  }

  lemma ConflictsStep(keys: seq<string>, i: nat, from: JsonMap, into: JsonMap)
    requires i < |keys| && forall k :: k in keys ==> k in from
    ensures ConflictsOver(keys[..i + 1], from, into) ==
            ConflictsOver(keys[..i], from, into) +
            if keys[i] in into && from[keys[i]] != into[keys[i]]
            then [JsonMergeError(keys[i], from[keys[i]], into[keys[i]])] else []
  {
    assert keys[..i + 1][..i] == keys[..i];
  }

  function Conflicts(from: JsonMap, into: JsonMap): seq<JsonMergeError> {
    ConflictsOver(SortedKeys(from.Keys), from, into)
  }

  /** What `MergeJson` returns for the merged map: `None` when nothing was copied. */
  function Merged(from: JsonMap, into: JsonMap): Option<JsonMap> {
    if from.Keys <= into.Keys then None else Some(from + into)
  }

  /** `result` is `into` with the entries of `from` at `keys` copied where absent. */
  ghost predicate Copied(keys: seq<string>, from: JsonMap, into: JsonMap, result: JsonMap) {
    && (forall k :: k in keys ==> k in from)
    && (forall k :: k in result <==> k in into || k in keys)
    && (forall k :: k in result ==> result[k] == if k in into then into[k] else from[k])
  }

  lemma CopiedStep(keys: seq<string>, i: nat, from: JsonMap, into: JsonMap, result: JsonMap)
    requires i < |keys| && keys[i] in from && Copied(keys[..i], from, into, result)
    requires keys[i] !in keys[..i]
    ensures keys[i] !in result ==>
              Copied(keys[..i + 1], from, into, result[keys[i] := from[keys[i]]]) && keys[i] !in into
    ensures keys[i] in result ==>
              Copied(keys[..i + 1], from, into, result) && keys[i] in into && result[keys[i]] == into[keys[i]]
  {
    assert forall k :: k in keys[..i + 1] <==> k in keys[..i] || k == keys[i];
  }

  lemma NothingCopied(from: JsonMap, into: JsonMap)
    ensures Copied([], from, into, into) && ConflictsOver([], from, into) == []
  {
  }

  lemma CopiedAll(keys: seq<string>, from: JsonMap, into: JsonMap, result: JsonMap)
    requires Copied(keys, from, into, result)
    requires forall k :: k in from ==> k in keys
    ensures result == from + into
    ensures result == into <==> from.Keys <= into.Keys
    ensures from.Keys <= into.Keys <==> forall k :: k in from ==> k in into
    ensures result.Keys == from.Keys + into.Keys
    ensures forall k :: k in result ==> result[k] == if k in into then into[k] else from[k]
  {
    if from.Keys <= into.Keys {
      assert result.Keys == into.Keys;
    }
  }

  /**
    Copies the entries of `from` that `into` lacks. A shared key keeps its new
    value, and is reported when the two values differ.
   */
  method MergeJson(from: JsonMap, into: JsonMap) returns (merged: Option<JsonMap>, errors: seq<JsonMergeError>)
    ensures merged == Merged(from, into)
    ensures merged.None? <==> forall k :: k in from ==> k in into
    ensures merged.Some? ==> merged.value.Keys == from.Keys + into.Keys
    ensures merged.Some? ==> forall k :: k in merged.value ==>
              merged.value[k] == if k in into then into[k] else from[k]
    ensures errors == Conflicts(from, into)
  {
    hide Copied, ConflictsOver;
    var result := into;
    var changed := false;
    errors := [];
    NothingCopied(from, into);
    var keys := SortedKeys(from.Keys);
    AscendingDistinct(keys);
    for i := 0 to |keys|
      invariant Copied(keys[..i], from, into, result)
      invariant changed <==> result != into
      invariant errors == ConflictsOver(keys[..i], from, into)
    {
      var key := keys[i];
      ConflictsStep(keys, i, from, into);
      CopiedStep(keys, i, from, into, result);
      if key !in result {
        result := result[key := from[key]];
        changed := true;
      } else if from[key] != result[key] {
        errors := errors + [JsonMergeError(key, from[key], result[key])];
      }
    }
    assert keys[..|keys|] == keys;
    CopiedAll(keys, from, into, result);
    merged := if changed then Some(result) else None;
  }

  /** A clash is reported for exactly the shared keys whose values differ. */
  lemma {:induction false} ConflictsOverExact(keys: seq<string>, from: JsonMap, into: JsonMap)
    requires Ascending(keys) && forall k :: k in keys ==> k in from
    ensures var es := ConflictsOver(keys, from, into);
            && (forall e :: e in es <==>
                 e.key in keys && e.key in into && e.oldValue == from[e.key] && e.newValue == into[e.key]
                 && e.oldValue != e.newValue)
            && (forall i, j :: 0 <= i < j < |es| ==> Below(es[i].key, es[j].key))
  {
    if keys != [] {
      var n := |keys| - 1;
      ConflictsOverExact(keys[..n], from, into);
      AscendingDistinct(keys);
      assert forall k :: k in keys <==> k in keys[..n] || k == keys[n];
    }
  }

  /**
    The reported clashes: one for each shared key with different values, both
    values recorded, in ascending key order.
   */
  lemma MergeReportsExactConflicts(from: JsonMap, into: JsonMap)
    ensures var es := Conflicts(from, into);
            && (forall k :: (exists e :: e in es && e.key == k) <==> k in from && k in into && from[k] != into[k])
            && (forall e :: e in es ==> e.key in from && e.key in into && e == JsonMergeError(e.key, from[e.key], into[e.key]))
            && (forall i, j :: 0 <= i < j < |es| ==> Below(es[i].key, es[j].key))
  {
    var es := Conflicts(from, into);
    ConflictsOverExact(SortedKeys(from.Keys), from, into);
    forall k
      ensures (exists e :: e in es && e.key == k) <==> k in from && k in into && from[k] != into[k]
    {
      if k in from && k in into && from[k] != into[k] {
        assert JsonMergeError(k, from[k], into[k]) in es;
      }
    }
  }

  /** No clash is reported exactly when the merge loses no old value. */
  lemma NoConflictsIffSubmap(from: JsonMap, into: JsonMap)
    ensures Conflicts(from, into) == [] <==>
            forall k :: k in from ==> k in MergeResult(from, into) && MergeResult(from, into)[k] == from[k]
  {
    MergeReportsExactConflicts(from, into);
    var es := Conflicts(from, into);
    if es != [] {
      assert es[0] in es;
    }
    forall k | k in from && k in into && from[k] != into[k]
      ensures es != []
    {
      var e :| e in es && e.key == k;
    }
  }

  lemma {:induction false} ConflictsOverSame(keys: seq<string>, from: JsonMap, a: JsonMap, b: JsonMap)
    requires forall k :: k in keys ==> k in from
    requires forall k :: k in keys ==> (k in a && a[k] != from[k] <==> k in b && b[k] != from[k])
    requires forall k :: k in keys && k in a && a[k] != from[k] ==> a[k] == b[k]
    ensures ConflictsOver(keys, from, a) == ConflictsOver(keys, from, b)
  {
    if keys != [] {
      ConflictsOverSame(keys[..|keys| - 1], from, a, b);
    }
  }

  /** The map a reader sees after the merge has been written back. */
  function MergeResult(from: JsonMap, into: JsonMap): JsonMap {
    Merged(from, into).GetOr(into)
  }

  /** Merging into the result again copies nothing and reports the same clashes. */
  lemma RemergeIsStable(from: JsonMap, into: JsonMap)
    ensures Merged(from, MergeResult(from, into)) == None
    ensures Conflicts(from, MergeResult(from, into)) == Conflicts(from, into)
  {
    ConflictsOverSame(SortedKeys(from.Keys), from, MergeResult(from, into), into);
  }

  /** Migrating `a` into `b` into `c` gives the same map in either order. */
  lemma MergeAssociative(a: JsonMap, b: JsonMap, c: JsonMap)
    ensures MergeResult(a, MergeResult(b, c)) == MergeResult(MergeResult(a, b), c)
  {
    assert forall x: JsonMap, y: JsonMap :: MergeResult(x, y) == x + y;
  }
}
