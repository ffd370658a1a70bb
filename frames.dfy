/**
 * The one-row pandas DataFrame app.py builds from `input_data`: an ordered
 * list of distinct column labels, each holding one cell. The string
 * coercion loop rewrites its cells in place; indexing it with the model's
 * required feature names projects it onto those columns.
 */
module Frames {
  import opened Values
  import opened Wrappers

  /** A projected row: the column labels in order, each with its cell. */
  type Row = seq<(string, Value)>

  /** The labels of a list of columns have no repeats. */
  predicate Distinct(names: seq<string>) {
    forall i, j :: 0 <= i < j < |names| ==> names[i] != names[j]
  }

  /**
   * The cells after `df[col] = df[col].astype(str)` has run for every col
   * of names that is a column: those columns hold their string form, the
   * others are untouched.
   */
  function Coerced(cells: map<string, Value>, names: seq<string>, numeral: real -> string): map<string, Value> {
    map c | c in cells :: if c in names then AsString(cells[c], numeral) else cells[c]
  }

  /** Coercion keeps the columns, turns each named one into a string and leaves the rest alone. */
  lemma CoercedColumns(cells: map<string, Value>, names: seq<string>, numeral: real -> string)
    ensures Coerced(cells, names, numeral).Keys == cells.Keys
    ensures forall c :: c in cells && c in names ==> Coerced(cells, names, numeral)[c].Str?
    ensures forall c :: c in cells && c !in names ==> Coerced(cells, names, numeral)[c] == cells[c]
  {
  }

  /** A string column is unchanged, so coercing twice is coercing once. */
  lemma {:induction false} CoercedIdempotent(cells: map<string, Value>, names: seq<string>, numeral: real -> string)
    ensures Coerced(Coerced(cells, names, numeral), names, numeral) == Coerced(cells, names, numeral)
  {
    var once := Coerced(cells, names, numeral);
    forall c | c in once
      ensures Coerced(once, names, numeral)[c] == once[c]
    {
      if c in names {
        AsStringIdempotent(cells[c], numeral);
      }
    }
  }

  /** When every named column already holds a string, coercion changes nothing. */
  lemma CoercedStrings(cells: map<string, Value>, names: seq<string>, numeral: real -> string)
    requires forall c :: c in cells && c in names ==> cells[c].Str?
    ensures Coerced(cells, names, numeral) == cells
  {
  }

  /** Coercing one more name extends a coercion by that one column, if it is one. */
  lemma CoercedStep(start: map<string, Value>, names: seq<string>, col: string, numeral: real -> string)
    ensures var cells := Coerced(start, names, numeral);
      Coerced(start, names + [col], numeral)
        == if col in cells then cells[col := AsString(cells[col], numeral)] else cells
  {
    if col in start && col in names {
      AsStringIdempotent(start[col], numeral);
    }
  }

  /** The required names that are not columns, in the order required lists them. */
  function Missing(cells: map<string, Value>, required: seq<string>): (missing: seq<string>)
    ensures forall n :: n in missing <==> n in required && n !in cells
    ensures |missing| <= |required|
  {
    if required == [] then []
    else if required[0] in cells then Missing(cells, required[1..])
    else [required[0]] + Missing(cells, required[1..])
  }

  /**
   * `df[required_features]`: the row of the required columns in the
   * required order, or a KeyError naming the required columns the frame
   * lacks. Columns that are not required are dropped.
   */
  function Select(cells: map<string, Value>, required: seq<string>): (r: Result<Row, seq<string>>)
    ensures r.Failure? <==> exists n :: n in required && n !in cells
    ensures r.Failure? ==> r.error != [] && forall n :: n in r.error <==> n in required && n !in cells
    ensures r.Success? ==> |r.value| == |required|
    ensures r.Success? ==> forall i :: 0 <= i < |required| ==>
      required[i] in cells && r.value[i].0 == required[i] && r.value[i].1 == cells[required[i]]
  {
    var missing := Missing(cells, required);
    if missing != [] then
      assert missing[0] in missing;
      Failure(missing)
    else
      Success(seq(|required|, i requires 0 <= i < |required| => (required[i], cells[required[i]])))
  }

  /** The labels of a row, in order. */
  function Labels(row: Row): (names: seq<string>)
    ensures |names| == |row| && forall i :: 0 <= i < |row| ==> names[i] == row[i].0
  {
    seq(|row|, i requires 0 <= i < |row| => row[i].0)
  }

  /** A successful projection has exactly the required columns, in the required order. */
  lemma SelectLabels(cells: map<string, Value>, required: seq<string>)
    requires Select(cells, required).Success?
    ensures Labels(Select(cells, required).value) == required
  {
  }

  /**
   * Only the required columns matter: two frames that agree on which
   * required names they hold, and on those cells, project alike, whatever
   * other columns they carry.
   */
  lemma SelectIgnoresExtras(cells1: map<string, Value>, cells2: map<string, Value>, required: seq<string>)
    requires forall n :: n in required ==> (n in cells1 <==> n in cells2)
    requires forall n :: n in required && n in cells1 ==> cells1[n] == cells2[n]
    ensures Select(cells1, required) == Select(cells2, required)
  {
    MissingAgrees(cells1, cells2, required);
    var r1, r2 := Select(cells1, required), Select(cells2, required);
    if r1.Success? {
      assert r2.Success?;
      assert forall i :: 0 <= i < |required| ==> r1.value[i] == r2.value[i];
      assert r1.value == r2.value;
    }
  }

  lemma {:induction false} MissingAgrees(cells1: map<string, Value>, cells2: map<string, Value>, required: seq<string>)
    requires forall n :: n in required ==> (n in cells1 <==> n in cells2)
    ensures Missing(cells1, required) == Missing(cells2, required)
  {
    if required != [] {
      MissingAgrees(cells1, cells2, required[1..]);
    }
  }

  /** The one-row frame `pd.DataFrame(input_data)` builds, and rewrites in place. */
  class Frame {
    /** The column labels, in the order of the dictionary's keys. */
    var columns: seq<string>
    /** The single cell of each column. */
    var cells: map<string, Value>

    /** A dictionary's keys are distinct, and every column holds a cell. */
    ghost predicate Valid()
      reads this
    {
      Distinct(columns) && forall c :: c in cells <==> c in columns
    }

    /** `pd.DataFrame(input_data)` for a dictionary with the given key order and mapping. */
    constructor (keys: seq<string>, values: map<string, Value>)
      requires Distinct(keys)
      requires forall c :: c in values <==> c in keys
      ensures Valid() && columns == keys && cells == values
    {
      columns := keys;
      cells := values;
    }

    /**
     * The coercion loop of app.py: for each name in turn that is a column,
     * that column's cell is replaced by its string form, in place; the
     * column order is left alone.
     */
    method CoerceStrings(names: seq<string>, numeral: real -> string)
      requires Valid()
      modifies this
      ensures Valid() && columns == old(columns)
      ensures cells == Coerced(old(cells), names, numeral)
    {
      var i := 0;
      while i < |names|
        invariant 0 <= i <= |names|
        invariant Valid() && columns == old(columns)
        invariant cells == Coerced(old(cells), names[..i], numeral)
      {
        var col := names[i];
        CoercedStep(old(cells), names[..i], col, numeral);
        if col in columns {
          cells := cells[col := AsString(cells[col], numeral)];
        }
        assert names[..i + 1] == names[..i] + [col];
        i := i + 1;
      }
      assert names[..i] == names;
    }
  }
}
