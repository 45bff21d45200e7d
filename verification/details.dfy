/**
 * The `details` record of a decision: an insertion-ordered mapping from
 * string keys to scalar values, the way a dictionary literal builds it.
 */
module DecisionDetails {

  datatype Option<T> = None | Some(value: T)

  /** The scalars a details entry can hold. */
  datatype Value = StrValue(s: string) | IntValue(i: int) | BoolValue(b: bool) | RealValue(r: real)

  /** Entries in insertion order. */
  type Entries = seq<(string, Value)>

  /** No key occurs twice, as in a dictionary. */
  predicate DistinctKeys(entries: Entries)
  {
    forall i, j :: 0 <= i < j < |entries| ==> entries[i].0 != entries[j].0
  }

  /** Dictionary lookup: the value stored under `key`, if any. */
  function Get(entries: Entries, key: string): (v: Option<Value>)
    ensures v.None? <==> forall i :: 0 <= i < |entries| ==> entries[i].0 != key
    ensures v.Some? ==> (key, v.value) in entries
  {
    if |entries| == 0 then None
    else if entries[0].0 == key then Some(entries[0].1)
    else
      var rest := Get(entries[1..], key);
      assert forall i :: 1 <= i < |entries| ==> entries[i] == entries[1..][i - 1];
      rest
  }

  /** In a record with distinct keys, looking up the key of an entry yields that entry's value. */
  lemma {:induction false} GetAt(entries: Entries, i: int)
    requires DistinctKeys(entries)
    requires 0 <= i < |entries|
    ensures Get(entries, entries[i].0) == Some(entries[i].1)
  {
    if i > 0 {
      var rest := entries[1..];
      assert rest[i - 1] == entries[i];
      assert DistinctKeys(rest) by {
        forall a, b | 0 <= a < b < |rest| ensures rest[a].0 != rest[b].0 {
          assert rest[a] == entries[a + 1] && rest[b] == entries[b + 1];
        }
      }
      GetAt(rest, i - 1);
      assert entries[0].0 != entries[i].0;
    }
  }
}
