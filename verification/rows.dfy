/**
 * `oracle_row_factory`: turns a positional result tuple into a record keyed
 * by the lower-cased column names of the cursor's description, with a
 * database NULL read as the empty string.
 */
module Rows {
  import opened Text

  /** A column value as the driver returns it; `Other` stands for every
      other driver type (floats, dates, LOBs), passed through untouched. */
  datatype Value = Null | Str(s: string) | Int(i: int) | Other(repr: string)

  /** One entry of `cursor.description`; only its first element, the name, is read. */
  datatype ColumnDescription = ColumnDescription(name: string)

  type Row = map<string, Value>

  /** `[d[0].lower() for d in cursor.description]` */
  function ColumnNames(description: seq<ColumnDescription>): (names: seq<string>)
    ensures |names| == |description|
    ensures forall i :: 0 <= i < |description| ==> names[i] == Lower(description[i].name)
  {
    seq(|description|, i requires 0 <= i < |description| => Lower(description[i].name))
  }

  /** `a if a is not None else ''` */
  function NullToEmpty(v: Value): Value
  {
    if v.Null? then Str("") else v
  }

  function Min(a: nat, b: nat): nat
  {
    if a <= b then a else b
  }

  /** Position `j` holds the last occurrence of its name in `names`. */
  predicate LastOccurrence(names: seq<string>, j: int)
  {
    0 <= j < |names| && forall j' :: j < j' < |names| ==> names[j'] != names[j]
  }

  /**
   * `dict(pairs)` on pairs given as two sequences of one length: each pair is
   * stored in turn, so the value of a name is that of its last occurrence.
   */
  function Dict(names: seq<string>, values: seq<Value>): (row: Row)
    requires |names| == |values|
    ensures forall k :: k in row <==> k in names
    ensures forall j :: LastOccurrence(names, j) ==> row[names[j]] == values[j]
    ensures forall k :: k in row ==> row[k] in values
    decreases |names|
  {
    if |names| == 0 then map[]
    else
      var n := |names| - 1;
      var prefix := Dict(names[..n], values[..n]);
      DictStep(names, values, prefix);
      prefix[names[n] := values[n]]
  }

  /** Storing the last pair on top of the dictionary of the others. */
  lemma DictStep(names: seq<string>, values: seq<Value>, prefix: Row)
    requires |names| == |values| > 0
    requires var n := |names| - 1;
      && (forall k :: k in prefix <==> k in names[..n])
      && (forall j :: LastOccurrence(names[..n], j) ==> prefix[names[..n][j]] == values[..n][j])
      && (forall k :: k in prefix ==> prefix[k] in values[..n])
    ensures var n := |names| - 1;
      var row := prefix[names[n] := values[n]];
      && (forall k :: k in row <==> k in names)
      && (forall j :: LastOccurrence(names, j) ==> row[names[j]] == values[j])
      && (forall k :: k in row ==> row[k] in values)
  {
    var n := |names| - 1;
    var row := prefix[names[n] := values[n]];
    assert names == names[..n] + [names[n]];
    assert values == values[..n] + [values[n]];
    forall j | LastOccurrence(names, j) ensures row[names[j]] == values[j] {
      if j < n {
        assert LastOccurrence(names[..n], j);
        assert names[..n][j] == names[j];
      }
    }
  }

  /** `[a if a is not None else '' for a in args]` */
  function Normalized(args: seq<Value>): (values: seq<Value>)
    ensures |values| == |args|
    ensures forall i :: 0 <= i < |args| ==> values[i] == NullToEmpty(args[i])
  {
    seq(|args|, i requires 0 <= i < |args| => NullToEmpty(args[i]))
  }

  /**
   * `create_row(*args)`: `dict(zip(names, Normalized(args)))`;
   * `zip` stops at the shorter of the two sequences.
   */
  function CreateRow(names: seq<string>, args: seq<Value>): (row: Row)
  {
    var n := Min(|names|, |args|);
    Dict(names[..n], Normalized(args[..n]))
  }

  /** The row factory built from a cursor description, applied to one fetched tuple. */
  function RowFactory(description: seq<ColumnDescription>): (seq<Value> -> Row)
  {
    args => CreateRow(ColumnNames(description), args)
  }

  /** The keys of a produced row are exactly the lower-cased names of the paired columns. */
  lemma RowKeys(description: seq<ColumnDescription>, args: seq<Value>, k: string)
    ensures k in CreateRow(ColumnNames(description), args) <==>
      exists j :: 0 <= j < Min(|description|, |args|) && Lower(description[j].name) == k
  {
    var names := ColumnNames(description);
    var n := Min(|names|, |args|);
    if k in names[..n] {
      var j :| 0 <= j < n && names[..n][j] == k;
      assert Lower(description[j].name) == k;
    }
  }

  /** Each paired column whose name does not recur later holds its value, NULL read as "". */
  lemma RowValues(names: seq<string>, args: seq<Value>, j: int)
    requires LastOccurrence(names[..Min(|names|, |args|)], j)
    ensures CreateRow(names, args)[names[j]] == NullToEmpty(args[j])
  {
    var n := Min(|names|, |args|);
    assert names[..n][j] == names[j];
    assert Normalized(args[..n])[j] == NullToEmpty(args[j]);
  }

  /** A row never holds NULL: every NULL became the empty string. */
  lemma RowHasNoNull(names: seq<string>, args: seq<Value>)
    ensures Null !in CreateRow(names, args).Values
  {
    var n := Min(|names|, |args|);
    var values := Normalized(args[..n]);
    assert forall i :: 0 <= i < |values| ==> values[i] != Null;
    assert Null !in values;
  }

  /** Two columns whose names lower-case alike give one key, holding the value of the later column. */
  lemma DuplicateLastWins(first: ColumnDescription, second: ColumnDescription, args: seq<Value>)
    requires Lower(first.name) == Lower(second.name)
    requires |args| == 2
    ensures RowFactory([first, second])(args) == map[Lower(first.name) := NullToEmpty(args[1])]
  {
  }

  /** Two distinct names give a two-entry dictionary. */
  lemma DictOfTwo(a: string, b: string, va: Value, vb: Value)
    requires a != b
    ensures Dict([a, b], [va, vb]) == map[a := va, b := vb]
  {
    assert [a, b][..1] == [a] && [va, vb][..1] == [va];
  }

  /** Columns `COL1`, `COL2` and the tuple `(None, "x")` give `{"col1": "", "col2": "x"}`. */
  lemma TwoColumnExample()
    ensures RowFactory([ColumnDescription("COL1"), ColumnDescription("COL2")])([Null, Str("x")])
      == map["col1" := Str(""), "col2" := Str("x")]
  {
    assert Lower("COL1") == "col1" && Lower("COL2") == "col2";
    assert ColumnNames([ColumnDescription("COL1"), ColumnDescription("COL2")]) == ["col1", "col2"];
    assert Normalized([Null, Str("x")]) == [Str(""), Str("x")];
    DictOfTwo("col1", "col2", Str(""), Str("x"));
  }
}
