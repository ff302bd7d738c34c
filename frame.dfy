/**
 * A pandas DataFrame reduced to what the detector uses: an ordered list of
 * distinct column names and rows addressed by column name. `Table` is the
 * value; `Frame` is the mutable object the detector copies, drops columns
 * from and assigns columns to.
 */
module DataFrames {
  import opened Records

  datatype Table = Table(columns: seq<string>, rows: seq<Row>)

  function Elems(cols: seq<string>): set<string>
  {
    set i | 0 <= i < |cols| :: cols[i]
  }

  lemma ElemsConcat(a: seq<string>, b: seq<string>)
    ensures Elems(a + b) == Elems(a) + Elems(b)
  {
    var ab := a + b;
    forall c | c in Elems(ab) ensures c in Elems(a) + Elems(b) {
      var i :| 0 <= i < |ab| && ab[i] == c;
      if i >= |a| { assert b[i - |a|] == c; }
    }
    forall c | c in Elems(a) ensures c in Elems(ab) {
      var i :| 0 <= i < |a| && a[i] == c;
      assert ab[i] == c;
    }
    forall c | c in Elems(b) ensures c in Elems(ab) {
      var i :| 0 <= i < |b| && b[i] == c;
      assert ab[|a| + i] == c;
    }
  }

  lemma DistinctConcat(a: seq<string>, b: seq<string>)
    requires Distinct(a) && Distinct(b) && Elems(a) !! Elems(b)
    ensures Distinct(a + b)
  {
    var ab := a + b;
    forall i, j | 0 <= i < j < |ab| ensures ab[i] != ab[j] {
      if j < |a| {
      } else if i >= |a| {
        assert ab[i] == b[i - |a|] && ab[j] == b[j - |a|];
      } else {
        assert ab[i] in Elems(a) && ab[j] == b[j - |a|] && ab[j] in Elems(b);
      }
    }
  }

  /** Distinct column names, and every row holds exactly the columns. */
  predicate WellFormed(t: Table)
  {
    && Distinct(t.columns)
    && forall r :: 0 <= r < |t.rows| ==> t.rows[r].Keys == Elems(t.columns)
  }

  /** The names of `cols` that are not in `gone`, in their original order. */
  function Kept(cols: seq<string>, gone: set<string>): (r: seq<string>)
    ensures Elems(r) == Elems(cols) - gone
    ensures Distinct(cols) ==> Distinct(r)
    ensures Elems(cols) !! gone ==> r == cols
  {
    if cols == [] then []
    else
      ElemsConcat([cols[0]], cols[1..]);
      assert cols == [cols[0]] + cols[1..];
      assert Elems([cols[0]]) == {cols[0]} by { assert [cols[0]][0] == cols[0]; }
      var rest := Kept(cols[1..], gone);
      if cols[0] in gone then rest
      else
        ElemsConcat([cols[0]], rest);
        if Distinct(cols) then
          assert cols[0] !in Elems(cols[1..]);
          DistinctConcat([cols[0]], rest);
          [cols[0]] + rest
        else [cols[0]] + rest
  }

  /** Removing one set of names and then another is removing both at once. */
  lemma {:induction false} KeptTwice(cols: seq<string>, a: set<string>, b: set<string>)
    ensures Kept(Kept(cols, a), b) == Kept(cols, a + b)
  {
    if cols != [] {
      KeptTwice(cols[1..], a, b);
      if cols[0] !in a {
        assert ([cols[0]] + Kept(cols[1..], a))[1..] == Kept(cols[1..], a);
      }
    }
  }

  /** Dropping a column only when the frame has it; otherwise the table is returned as it was. */
  function DropIfPresent(t: Table, col: string): (r: Table)
    requires WellFormed(t)
    ensures WellFormed(r)
    ensures Elems(r.columns) == Elems(t.columns) - {col}
    ensures |r.rows| == |t.rows|
    ensures forall i, c :: 0 <= i < |t.rows| && c in t.rows[i] && c != col ==> c in r.rows[i] && r.rows[i][c] == t.rows[i][c]
  {
    if col !in t.columns then t
    else Table(Kept(t.columns, {col}), seq(|t.rows|, i requires 0 <= i < |t.rows| => t.rows[i] - {col}))
  }

  /** Dropping keeps the remaining columns in their order, and dropping an absent column changes nothing. */
  lemma DropIfPresentOrder(t: Table, col: string)
    requires WellFormed(t)
    ensures DropIfPresent(t, col).columns == Kept(t.columns, {col})
    ensures col !in t.columns ==> DropIfPresent(t, col) == t
  {
  }

  /**
   * Column assignment: an existing column keeps its place and is overwritten,
   * a new one is appended at the end.
   */
  function WithColumn(t: Table, col: string, vals: seq<Value>): (r: Table)
    requires WellFormed(t) && |vals| == |t.rows|
    ensures WellFormed(r)
    ensures r.columns == if col in t.columns then t.columns else t.columns + [col]
    ensures |r.rows| == |t.rows|
    ensures forall i :: 0 <= i < |t.rows| ==> r.rows[i] == t.rows[i][col := vals[i]]
  {
    ElemsConcat(t.columns, [col]);
    assert Elems([col]) == {col} by { assert [col][0] == col; }
    assert col !in t.columns ==> Distinct(t.columns + [col]) by {
      if col !in t.columns { DistinctConcat(t.columns, [col]); }
    }
    Table(if col in t.columns then t.columns else t.columns + [col],
          seq(|t.rows|, i requires 0 <= i < |t.rows| => t.rows[i][col := vals[i]]))
  }

  /** The cells of a present column, top to bottom. */
  function ColumnValues(t: Table, col: string): (vals: seq<Value>)
    requires WellFormed(t) && col in t.columns
    ensures |vals| == |t.rows|
    ensures forall i :: 0 <= i < |t.rows| ==> vals[i] == t.rows[i][col]
  {
    seq(|t.rows|, i requires 0 <= i < |t.rows| => t.rows[i][col])
  }

  class Frame {
    var columns: seq<string>
    var rows: seq<Row>

    function Contents(): Table
      reads this
    {
      Table(columns, rows)
    }

    ghost predicate Valid()
      reads this
    {
      WellFormed(Contents())
    }

    constructor (t: Table)
      requires WellFormed(t)
      ensures Valid() && Contents() == t
    {
      columns, rows := t.columns, t.rows;
    }

    /** A copy of the frame: a fresh frame with the same contents; later changes to either do not reach the other. */
    method Copy() returns (c: Frame)
      requires Valid()
      ensures fresh(c) && c.Valid() && c.Contents() == Contents()
    {
      c := new Frame(Contents());
    }

    /** In-place removal of a column, which the detector only asks for when the column is present. */
    method Drop(col: string)
      requires Valid() && col in columns
      modifies this
      ensures Valid() && Contents() == DropIfPresent(old(Contents()), col)
    {
      var t := DropIfPresent(Contents(), col);
      columns, rows := t.columns, t.rows;
    }

    /** In-place assignment of a whole column. */
    method Assign(col: string, vals: seq<Value>)
      requires Valid() && |vals| == |rows|
      modifies this
      ensures Valid() && Contents() == WithColumn(old(Contents()), col, vals)
    {
      var t := WithColumn(Contents(), col, vals);
      columns, rows := t.columns, t.rows;
    }
  }
}
