/** The plain collator `collate_fn(batch)` (naacl/utils.py:106-108): it turns
    a list of records into one record holding, for each key of the first
    record, the list of that key's values in example order. */
module Collation {
  import opened Wrappers

  datatype CollateError =
    | EmptyBatch    // `batch[0]` raises IndexError
    | MissingKey    // some example lacks a key of the first one: KeyError

  /** Every example has every key of the first example. */
  predicate HasFirstKeys<K, V>(batch: seq<map<K, V>>)
    requires |batch| > 0
  {
    forall i, k :: 0 <= i < |batch| && k in batch[0] ==> k in batch[i]
  }

  /** `{key: [example[key] for example in batch] for key in batch[0].keys()}`. */
  function Transpose<K, V>(batch: seq<map<K, V>>): (r: Result<map<K, seq<V>>, CollateError>)
    ensures r == Err(EmptyBatch) <==> |batch| == 0
    ensures r == Err(MissingKey) <==> |batch| > 0 && exists i, k :: 0 <= i < |batch| && k in batch[0] && k !in batch[i]
    ensures r.Ok? ==> r.value.Keys == batch[0].Keys
    ensures r.Ok? ==> forall k :: k in r.value ==> |r.value[k]| == |batch|
    ensures r.Ok? ==> forall k, i :: k in r.value && 0 <= i < |batch| ==> k in batch[i] && r.value[k][i] == batch[i][k]
  {
    if |batch| == 0 then Err(EmptyBatch)
    else if !HasFirstKeys(batch) then Err(MissingKey)
    else Ok(map k | k in batch[0] :: seq(|batch|, i requires 0 <= i < |batch| => batch[i][k]))
  }

  /** The inverse direction: the `n` records whose values are the columns' entries. */
  function Untranspose<K, V>(columns: map<K, seq<V>>, n: nat): (batch: seq<map<K, V>>)
    requires forall k :: k in columns ==> |columns[k]| == n
    ensures |batch| == n
    ensures forall i :: 0 <= i < n ==> batch[i].Keys == columns.Keys
  {
    seq(n, i requires 0 <= i < n => map k | k in columns :: columns[k][i])
  }

  /** When every example has exactly the first example's keys, transposing
      loses nothing: untransposing gives the batch back. */
  lemma TransposeRoundTrip<K, V>(batch: seq<map<K, V>>)
    requires |batch| > 0
    requires forall i :: 0 <= i < |batch| ==> batch[i].Keys == batch[0].Keys
    ensures Transpose(batch).Ok?
    ensures Untranspose(Transpose(batch).value, |batch|) == batch
  {
    var cols := Transpose(batch).value;
    var back := Untranspose(cols, |batch|);
    forall i | 0 <= i < |batch|
      ensures back[i] == batch[i]
    {
      assert back[i].Keys == batch[i].Keys;
      forall k | k in back[i]
        ensures back[i][k] == batch[i][k]
      {
      }
    }
  }

  /** Conversely, transposing the records made from equal-length columns
      gives the columns back. */
  lemma UntransposeRoundTrip<K, V>(columns: map<K, seq<V>>, n: nat)
    requires n > 0
    requires forall k :: k in columns ==> |columns[k]| == n
    ensures Transpose(Untranspose(columns, n)) == Ok(columns)
  {
    var batch := Untranspose(columns, n);
    var r := Transpose(batch);
    assert HasFirstKeys(batch);
    assert r.Ok? && r.value.Keys == columns.Keys;
    forall k | k in columns
      ensures r.value[k] == columns[k]
    {
      assert |r.value[k]| == n;
      forall i | 0 <= i < n
        ensures r.value[k][i] == columns[k][i]
      {
      }
    }
    assert r.value == columns;
  }

  /** Keys that only later examples have are dropped. */
  lemma LaterKeysDropped<K, V>(batch: seq<map<K, V>>, i: nat, k: K)
    requires 0 <= i < |batch| && k in batch[i] && k !in batch[0]
    ensures Transpose(batch).Ok? ==> k !in Transpose(batch).value
  {
  }
}
