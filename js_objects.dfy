/** The order in which JavaScript lists an ordinary object's own string keys
  * (`Object.keys`, `Object.values`): first the keys that are array indices,
  * in ascending numeric order, then every other key in insertion order, as
  * the ECMAScript language specification's OrdinaryOwnPropertyKeys lays
  * down. */
module JsObjects {
  import opened Seqs
  import opened JsValues

  /** The largest array index, 2^32 - 2. */
  const MaxArrayIndex: nat := 4294967294

  /** An array index: the canonical decimal text (no sign, no leading zero)
    * of an integer from 0 to 2^32 - 2. */
  predicate IsArrayIndex(key: string)
  {
    && |key| > 0
    && AllDigits(key)
    && (key[0] != '0' || |key| == 1)
    && DigitsValue(key) <= MaxArrayIndex
  }

  predicate IsNamedKey(key: string)
  {
    !IsArrayIndex(key)
  }

  /** The numeric value of an array index; other keys are not compared. */
  function IndexOrder(key: string): int
  {
    if IsArrayIndex(key) then DigitsValue(key) else -1
  }

  /** `Object.keys(o)` for an object whose keys were added in the order
    * `keys`: the same keys, each as often as given. */
  function OwnKeys(keys: seq<string>): (r: seq<string>)
    ensures multiset(r) == multiset(keys)
    ensures |r| == |keys|
    ensures forall k :: k in r <==> k in keys
  {
    FilterPartition(keys, IsArrayIndex, IsNamedKey);
    var r := SortBy(Filter(keys, IsArrayIndex), IndexOrder) + Filter(keys, IsNamedKey);
    assert |multiset(r)| == |r| && |multiset(keys)| == |keys|;
    assert forall k :: k in r <==> k in multiset(r);
    r
  }

  /** The array indices come first, in ascending numeric order, followed by
    * the other keys in insertion order. */
  lemma OwnKeysOrder(keys: seq<string>)
    ensures var n := |Filter(keys, IsArrayIndex)|;
            var r := OwnKeys(keys);
            && n <= |r|
            && (forall i :: 0 <= i < n ==> IsArrayIndex(r[i]))
            && (forall i, j :: 0 <= i < j < n ==> DigitsValue(r[i]) <= DigitsValue(r[j]))
            && r[n..] == Filter(keys, IsNamedKey)
  {
    var indices := Filter(keys, IsArrayIndex);
    var sorted := SortBy(indices, IndexOrder);
    var r := OwnKeys(keys);
    assert |sorted| == |indices|;
    assert r[..|indices|] == sorted;
    forall i | 0 <= i < |indices|
      ensures IsArrayIndex(r[i])
    {
      assert r[i] == sorted[i] && sorted[i] in multiset(indices);
    }
  }

  /** Keys of which none is an array index are listed in insertion order. */
  lemma NamedKeysInInsertionOrder(keys: seq<string>)
    requires forall k :: k in keys ==> IsNamedKey(k)
    ensures OwnKeys(keys) == keys
  {
    FilterAll(keys, IsNamedKey);
    FilterNone(keys, IsArrayIndex);
  }

  /** Keys listed once stay listed once. */
  lemma OwnKeysDistinct(keys: seq<string>)
    requires Distinct(keys)
    ensures Distinct(OwnKeys(keys))
  {
    DistinctPermutation(keys, OwnKeys(keys));
  }

  /** A place name added after another is still listed first when it is
    * integer-like. */
  lemma IntegerLikeKeyFirst()
    ensures OwnKeys(["Poblacion", "12"]) == ["12", "Poblacion"]
  {
    var keys := ["Poblacion", "12"];
    TwelveIsIndex();
    PoblacionIsNamed();
    assert keys[1..] == ["12"] && ["12"][1..] == [];
    var indices := Filter(keys, IsArrayIndex);
    assert indices == ["12"];
    assert SortBy(indices, IndexOrder) == ["12"];
    assert Filter(keys, IsNamedKey) == ["Poblacion"];
  }

  lemma TwelveIsIndex()
    ensures IsArrayIndex("12")
  {
    assert "12"[..1] == "1";
    assert DigitsValue("12") == 12;
  }

  lemma PoblacionIsNamed()
    ensures IsNamedKey("Poblacion")
  {
    assert !IsDigit("Poblacion"[0]);
  }
}
