/**
 * Cell values, rows and records: the dictionaries that travel between the
 * HTTP layer, the request queue and the DataFrames of the detector.
 */
module Records {

  /** A cell of a DataFrame or a value of a request field. */
  datatype Value = IntV(i: int) | StrV(s: string) | FloatV(f: real)

  /** One DataFrame row, addressed by column name. */
  type Row = map<string, Value>

  /** A Python dict: its entries in insertion order. */
  type Record = seq<(string, Value)>

  /** Python's `min` and `max` on two integers. */
  function Min(a: int, b: int): int { if a < b then a else b }

  function Max(a: int, b: int): int { if a < b then b else a }

  function Keys(rec: Record): (ks: seq<string>)
    ensures |ks| == |rec|
    ensures forall i :: 0 <= i < |rec| ==> ks[i] == rec[i].0
  {
    seq(|rec|, i requires 0 <= i < |rec| => rec[i].0)
  }

  predicate Distinct<T(==)>(s: seq<T>)
  {
    forall i, j :: 0 <= i < j < |s| ==> s[i] != s[j]
  }

  /** A dict never holds a key twice. */
  predicate DistinctKeys(rec: Record)
  {
    Distinct(Keys(rec))
  }

  /** The record read as a row: what `pd.DataFrame([rec])` puts in its only row. */
  function RowOf(rec: Record): (row: Row)
    ensures row.Keys == set i | 0 <= i < |rec| :: rec[i].0
  {
    if rec == [] then map[]
    else RowOf(rec[..|rec| - 1])[rec[|rec| - 1].0 := rec[|rec| - 1].1]
  }

  /** With distinct keys, every entry of the dict is found under its key. */
  lemma {:induction false} RowOfLookup(rec: Record, i: nat)
    requires DistinctKeys(rec)
    requires i < |rec|
    ensures rec[i].0 in RowOf(rec) && RowOf(rec)[rec[i].0] == rec[i].1
  {
    var n := |rec| - 1;
    if i < n {
      var front := rec[..n];
      assert Keys(front) == Keys(rec)[..n];
      RowOfLookup(front, i);
      assert rec[i].0 != rec[n].0 by { assert Keys(rec)[i] != Keys(rec)[n]; }
    }
  }
}
