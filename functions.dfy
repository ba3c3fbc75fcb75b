/**
 * Plain JavaScript objects used as dictionaries, and the `objectEntries`
 * polyfill of `src/util/functions.ts`.
 */
module Functions {

  /**
   * A plain object: its own keys in `Object.keys` order, and the value of
   * each key.
   */
  datatype Dict<T> = Dict(keys: seq<string>, values: map<string, T>) {

    /** Keys are distinct and are exactly the keys that have a value. */
    ghost predicate Valid() {
      && (forall i, j :: 0 <= i < j < |keys| ==> keys[i] != keys[j])
      && (forall k :: k in values <==> k in keys)
    }
  }

  /** `objectEntries(obj)`: one `[key, value]` pair per own key, in key order. */
  function ObjectEntries<T>(obj: Dict<T>): (r: seq<(string, T)>)
    requires obj.Valid()
    ensures |r| == |obj.keys|
    ensures forall i :: 0 <= i < |r| ==> r[i].0 == obj.keys[i]
    ensures forall i :: 0 <= i < |r| ==> r[i].0 in obj.values && r[i].1 == obj.values[r[i].0]
    ensures forall i, j :: 0 <= i < j < |r| ==> r[i].0 != r[j].0
    ensures forall k :: k in obj.values <==> exists i :: 0 <= i < |r| && r[i].0 == k
  {
    seq(|obj.keys|, i requires 0 <= i < |obj.keys| => (obj.keys[i], obj.values[obj.keys[i]]))
  }

  /** The object whose entries are `entries` (the inverse direction, `Object.fromEntries`). */
  function FromEntries<T>(entries: seq<(string, T)>): (d: Dict<T>)
    decreases |entries|
  {
    if |entries| == 0 then Dict([], map[])
    else
      var last := entries[|entries| - 1];
      var d := FromEntries(entries[..|entries| - 1]);
      Dict(d.keys + [last.0], d.values[last.0 := last.1])
  }

  /** The keys of `FromEntries(entries)` are the entries' keys, and so are its values. */
  lemma {:induction false} FromEntriesShape<T>(entries: seq<(string, T)>)
    ensures |FromEntries(entries).keys| == |entries|
    ensures forall i :: 0 <= i < |entries| ==> FromEntries(entries).keys[i] == entries[i].0
    ensures forall k :: k in FromEntries(entries).values <==> exists i :: 0 <= i < |entries| && entries[i].0 == k
    ensures (forall i, j :: 0 <= i < j < |entries| ==> entries[i].0 != entries[j].0) ==>
              forall i :: 0 <= i < |entries| ==> FromEntries(entries).values[entries[i].0] == entries[i].1
    decreases |entries|
  {
    if |entries| > 0 {
      var init := entries[..|entries| - 1];
      FromEntriesShape(init);
      assert forall i :: 0 <= i < |init| ==> init[i] == entries[i];
    }
  }

  /** Rebuilding an object from its entries gives the object back. */
  lemma ObjectEntriesRoundTrip<T>(obj: Dict<T>)
    requires obj.Valid()
    ensures FromEntries(ObjectEntries(obj)) == obj
  {
    RoundTripKeys(obj);
    RoundTripValues(obj);
  }

  /** The rebuilt object has the original keys, in the original order. */
  lemma RoundTripKeys<T>(obj: Dict<T>)
    requires obj.Valid()
    ensures FromEntries(ObjectEntries(obj)).keys == obj.keys
  {
    var e := ObjectEntries(obj);
    FromEntriesShape(e);
    assert forall i :: 0 <= i < |obj.keys| ==> FromEntries(e).keys[i] == e[i].0;
  }

  /** The rebuilt object holds the original value under every key. */
  lemma RoundTripValues<T>(obj: Dict<T>)
    requires obj.Valid()
    ensures FromEntries(ObjectEntries(obj)).values == obj.values
  {
    var d := FromEntries(ObjectEntries(obj));
    forall k | k in obj.values ensures k in d.values && d.values[k] == obj.values[k] {
      RoundTripValueAt(obj, k);
    }
    forall k | k in d.values ensures k in obj.values {
      RoundTripKeyFrom(obj, k);
    }
  }

  /** A key of the object keeps its value through the round trip. */
  lemma RoundTripValueAt<T>(obj: Dict<T>, k: string)
    requires obj.Valid() && k in obj.values
    ensures var d := FromEntries(ObjectEntries(obj)); k in d.values && d.values[k] == obj.values[k]
  {
    var e := ObjectEntries(obj);
    FromEntriesShape(e);
    var i :| 0 <= i < |obj.keys| && obj.keys[i] == k;
    assert e[i].0 == k;
  }

  /** The round trip adds no key. */
  lemma RoundTripKeyFrom<T>(obj: Dict<T>, k: string)
    requires obj.Valid() && k in FromEntries(ObjectEntries(obj)).values
    ensures k in obj.values
  {
    FromEntriesShape(ObjectEntries(obj));
  }

  /** An object has no entries exactly when it has no keys. */
  lemma ObjectEntriesEmpty<T>(obj: Dict<T>)
    requires obj.Valid()
    ensures ObjectEntries(obj) == [] <==> obj.values == map[]
  {
    if |obj.keys| > 0 {
      assert obj.keys[0] in obj.values;
    }
  }
}
