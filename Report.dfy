/**
 * OutputManager.generate_excel_bytes (main.py:55-78): build a table from the data,
 * make sure the report's three columns exist, and hand it to the spreadsheet
 * encoder. The table stands for the pandas DataFrame; the encoder is not modelled
 * beyond whether it succeeds.
 */
module Report {
  import opened Wrappers
  import opened Errors
  import opened Aggregation

  /** A Python dict with string values, keys in insertion order. */
  datatype Row = Row(fields: seq<(string, string)>)

  /** What the caller passes: None, a list of dicts, or a single dict. */
  datatype Data = NoneData | ListData(rows: seq<Row>) | DictData(row: Row)

  /** A table cell: a string, or NaN where a row lacked the column's key. */
  datatype Cell = Text(s: string) | NaN

  /** A data frame: its column names in order, and per row a cell for every column. */
  datatype Frame = Frame(columns: seq<string>, rows: seq<map<string, Cell>>)

  /** The columns every report carries, in this order. */
  const ReportColumns: seq<string> := ["name", "date", "products"]

  ghost predicate WellFormed(f: Frame) {
    forall k :: 0 <= k < |f.rows| ==> forall c :: c in f.columns <==> c in f.rows[k]
  }

  /** `data or []`, then a non-list wrapped in a list; an empty dict is falsy too. */
  function CleanData(data: Data): (rows: seq<Row>)
    ensures data.NoneData? || data == ListData([]) || data == DictData(Row([])) ==> rows == []
    ensures data.DictData? && data.row.fields != [] ==> rows == [data.row]
    ensures data.ListData? ==> rows == data.rows
  {
    match data
    case NoneData => []
    case ListData(rows) => rows
    case DictData(row) => if row.fields == [] then [] else [row]
  }

  /** `cols` followed by the keys of `fields` not seen before, in order of first appearance. */
  function AddKeys(cols: seq<string>, fields: seq<(string, string)>): (r: seq<string>)
    ensures |cols| <= |r| && r[..|cols|] == cols
    ensures forall c :: c in r <==> c in cols || exists i :: 0 <= i < |fields| && fields[i].0 == c
    decreases |fields|
  {
    if fields == [] then cols
    else
      var key := fields[0].0;
      var r := AddKeys(if key in cols then cols else cols + [key], fields[1..]);
      assert forall i :: 1 <= i < |fields| ==> fields[1..][i - 1] == fields[i];
      r
  }

  /** The columns pandas derives from a list of dicts: every key, in order of first appearance. */
  function ColumnsFrom(cols: seq<string>, rows: seq<Row>): seq<string>
    decreases |rows|
  {
    if rows == [] then cols else ColumnsFrom(AddKeys(cols, rows[0].fields), rows[1..])
  }

  /** The derived columns extend the ones given, by exactly the keys of the rows. */
  lemma {:induction false} ColumnsFromKeys(cols: seq<string>, rows: seq<Row>)
    ensures var r := ColumnsFrom(cols, rows);
            |cols| <= |r| && r[..|cols|] == cols &&
            forall c :: c in r <==>
              c in cols || exists k, i :: 0 <= k < |rows| && 0 <= i < |rows[k].fields| && rows[k].fields[i].0 == c
    decreases |rows|
  {
    if rows != [] {
      var next := AddKeys(cols, rows[0].fields);
      var r := ColumnsFrom(cols, rows);
      assert r == ColumnsFrom(next, rows[1..]);
      ColumnsFromKeys(next, rows[1..]);
      assert r[..|next|][..|cols|] == r[..|cols|];
      forall c
        ensures c in r <==>
                  c in cols || exists k, i :: 0 <= k < |rows| && 0 <= i < |rows[k].fields| && rows[k].fields[i].0 == c
      {
        if c in r && c !in cols {
          if c in next {
            var i :| 0 <= i < |rows[0].fields| && rows[0].fields[i].0 == c;
            assert rows[0].fields[i].0 == c;
          } else {
            var k, i :| 0 <= k < |rows[1..]| && 0 <= i < |rows[1..][k].fields| && rows[1..][k].fields[i].0 == c;
            assert rows[k + 1].fields[i].0 == c;
          }
        }
        if exists k, i :: 0 <= k < |rows| && 0 <= i < |rows[k].fields| && rows[k].fields[i].0 == c {
          var k, i :| 0 <= k < |rows| && 0 <= i < |rows[k].fields| && rows[k].fields[i].0 == c;
          if k == 0 {
            assert c in next;
          } else {
            assert rows[1..][k - 1].fields[i].0 == c;
          }
        }
      }
    }
  }

  /** The cell of a dict for a column. */
  function Lookup(fields: seq<(string, string)>, key: string): Cell {
    if fields == [] then NaN
    else if fields[0].0 == key then Text(fields[0].1)
    else Lookup(fields[1..], key)
  }

  /** A cell is NaN exactly when the dict lacks the key; otherwise it holds the key's first value. */
  lemma {:induction false} LookupFinds(fields: seq<(string, string)>, key: string)
    ensures Lookup(fields, key).NaN? <==> forall i :: 0 <= i < |fields| ==> fields[i].0 != key
    ensures Lookup(fields, key).Text? ==>
              exists i :: 0 <= i < |fields| && fields[i] == (key, Lookup(fields, key).s) &&
                          forall j :: 0 <= j < i ==> fields[j].0 != key
    decreases |fields|
  {
    if fields != [] && fields[0].0 != key {
      LookupFinds(fields[1..], key);
      assert forall i :: 1 <= i < |fields| ==> fields[1..][i - 1] == fields[i];
      if Lookup(fields, key).Text? {
        var i :| 0 <= i < |fields[1..]| && fields[1..][i] == (key, Lookup(fields, key).s) &&
                 forall j :: 0 <= j < i ==> fields[1..][j].0 != key;
        assert fields[i + 1] == (key, Lookup(fields, key).s);
      }
    } else if fields != [] {
      assert fields[0] == (key, Lookup(fields, key).s);
    }
  }

  /** pd.DataFrame(rows). */
  function FrameOf(rows: seq<Row>): (f: Frame)
    ensures WellFormed(f) && |f.rows| == |rows|
  {
    var columns := ColumnsFrom([], rows);
    Frame(columns, seq(|rows|, k requires 0 <= k < |rows| => map c | c in columns :: Lookup(rows[k].fields, c)))
  }

  /**
   * The cells of the table of a list of dicts: a dict's own value for a key it has, NaN
   * for one it lacks.
   */
  lemma FrameCells(rows: seq<Row>)
    ensures var f := FrameOf(rows);
            forall k, c :: 0 <= k < |rows| && c in f.columns ==>
              (f.rows[k][c].NaN? <==> forall i :: 0 <= i < |rows[k].fields| ==> rows[k].fields[i].0 != c)
    ensures var f := FrameOf(rows);
            forall k, c :: 0 <= k < |rows| && c in f.columns && f.rows[k][c].Text? ==>
              (c, f.rows[k][c].s) in rows[k].fields
  {
    forall k, c | 0 <= k < |rows| && c in FrameOf(rows).columns {
      FrameCell(rows, k, c);
    }
  }

  /** The table of a list of dicts has a column for every key any dict has, and no other. */
  lemma FrameColumns(rows: seq<Row>)
    ensures forall c :: c in FrameOf(rows).columns <==>
              exists k, i :: 0 <= k < |rows| && 0 <= i < |rows[k].fields| && rows[k].fields[i].0 == c
  {
    assert FrameOf(rows).columns == ColumnsFrom([], rows);
    ColumnsFromKeys([], rows);
  }

  /** One cell of the table: the dict's value for the column's key, or NaN. */
  lemma FrameCell(rows: seq<Row>, k: nat, c: string)
    requires k < |rows| && c in FrameOf(rows).columns
    ensures var cell := FrameOf(rows).rows[k][c];
            (cell.NaN? <==> forall i :: 0 <= i < |rows[k].fields| ==> rows[k].fields[i].0 != c) &&
            (cell.Text? ==> (c, cell.s) in rows[k].fields)
  {
    assert FrameOf(rows).rows[k][c] == Lookup(rows[k].fields, c);
    LookupFinds(rows[k].fields, c);
  }


  /** The report columns absent from `columns`, in report order. */
  function MissingColumns(columns: seq<string>, required: seq<string>): (m: seq<string>)
    ensures forall c :: c in m <==> c in required && c !in columns
  {
    if required == [] then []
    else
      var last := required[|required| - 1];
      var rest := required[..|required| - 1];
      assert required == rest + [last];
      MissingColumns(columns, rest) + (if last in columns then [] else [last])
  }

  /** df[column] = value. */
  function AddColumn(f: Frame, column: string, value: string): (g: Frame)
    requires WellFormed(f)
    ensures WellFormed(g)
    ensures g.columns == f.columns + [column] && |g.rows| == |f.rows|
    ensures forall k :: 0 <= k < |g.rows| ==> g.rows[k] == f.rows[k][column := Text(value)]
  {
    Frame(f.columns + [column], seq(|f.rows|, k requires 0 <= k < |f.rows| => f.rows[k][column := Text(value)]))
  }

  /**
   * `df` is `base` with the columns of `required` it lacked appended in order, each filled
   * with "", and every other cell as it was.
   */
  ghost predicate CompletedFor(df: Frame, base: Frame, required: seq<string>) {
    WellFormed(base) && WellFormed(df) && |df.rows| == |base.rows| &&
    df.columns == base.columns + MissingColumns(base.columns, required) &&
    (forall k, c :: 0 <= k < |base.rows| && c in base.columns ==> df.rows[k][c] == base.rows[k][c]) &&
    (forall k, c :: 0 <= k < |base.rows| && c in MissingColumns(base.columns, required) ==>
       df.rows[k][c] == Text(""))
  }

  /**
   * generate_excel_bytes. When the encoder fails, the fallback (main.py:78) calls to_excel
   * without a target, which raises; so a render fault reaches the caller as an exception.
   * Otherwise the result is the table handed to the encoder.
   */
  method GenerateExcelBytes(data: Data, encodes: bool) returns (r: Result<Frame, Exc>)
    ensures r.Ok? <==> encodes
    ensures r.Err? ==> r.error == OtherError
    ensures r.Ok? ==> forall c :: c in ReportColumns ==> c in r.value.columns
    ensures r.Ok? ==> CompletedFor(r.value, FrameOf(CleanData(data)), ReportColumns)
  {
    var cleanData := CleanData(data);
    var df := FrameOf(cleanData);
    ghost var base := df;
    assert ReportColumns[..0] == [];
    var i := 0;
    while i < |ReportColumns|
      invariant 0 <= i <= |ReportColumns|
      invariant CompletedFor(df, base, ReportColumns[..i])
    {
      var col := ReportColumns[i];
      ReportColumnsDistinct(i);
      CompletionStep(df, base, ReportColumns[..i], col);
      if col !in df.columns {
        df := AddColumn(df, col, "");
      }
      i := i + 1;
    }
    assert ReportColumns[..|ReportColumns|] == ReportColumns;
    CompletedHasRequired(df, base, ReportColumns);
    if encodes {
      r := Ok(df);
    } else {
      r := Err(OtherError);
    }
  }

  /** A completed table holds every required column. */
  lemma CompletedHasRequired(df: Frame, base: Frame, required: seq<string>)
    requires CompletedFor(df, base, required)
    ensures forall c :: c in required ==> c in df.columns
  {
  }

  /** Each report column appears once: none repeats an earlier one. */
  lemma ReportColumnsDistinct(i: nat)
    requires i < |ReportColumns|
    ensures ReportColumns[i] !in ReportColumns[..i]
    ensures ReportColumns[..i + 1] == ReportColumns[..i] + [ReportColumns[i]]
  {
    ColumnNamesDiffer();
  }

  /** Adding one more required column, new to the list, keeps the table completed. */
  lemma CompletionStep(df: Frame, base: Frame, required: seq<string>, col: string)
    requires CompletedFor(df, base, required)
    requires col !in required
    ensures CompletedFor(if col in df.columns then df else AddColumn(df, col, ""), base, required + [col])
  {
    assert (required + [col])[..|required|] == required;
    var missing := MissingColumns(base.columns, required);
    assert MissingColumns(base.columns, required + [col]) ==
           missing + (if col in base.columns then [] else [col]);
    assert col in df.columns <==> col in base.columns;
  }

  /** Nothing is missing from columns that include every required one. */
  lemma {:induction false} NoneMissing(columns: seq<string>, required: seq<string>)
    requires forall c :: c in required ==> c in columns
    ensures MissingColumns(columns, required) == []
  {
    if required != [] {
      NoneMissing(columns, required[..|required| - 1]);
    }
  }

  /** Completing a table twice adds nothing the first completion did not: the step is idempotent. */
  lemma CompletionIdempotent(columns: seq<string>)
    ensures MissingColumns(columns + MissingColumns(columns, ReportColumns), ReportColumns) == []
  {
    NoneMissing(columns + MissingColumns(columns, ReportColumns), ReportColumns);
  }

  /** No data at all (None, an empty list, an empty dict) gives zero rows and exactly the report columns. */
  lemma EmptyDataGivesBareSchema(data: Data)
    requires data.NoneData? || data == ListData([]) || data == DictData(Row([]))
    ensures var base := FrameOf(CleanData(data));
            base.rows == [] && base.columns + MissingColumns(base.columns, ReportColumns) == ReportColumns
  {
    var base := FrameOf(CleanData(data));
    assert base.columns == [];
    ReportColumnsAllMissing();
  }

  lemma ReportColumnsAllMissing()
    ensures MissingColumns([], ReportColumns) == ReportColumns
  {
    assert ReportColumns[..2] == ["name", "date"];
    assert ReportColumns[..2][..1] == ["name"];
    assert ["name"][..0] == [];
  }

  // ---- the rows the pipeline renders ----

  /** {'name': ..., 'date': ..., 'products': ...}, keys in that order. */
  function RecordRow(r: Record): Row {
    Row([("name", r.name), ("date", r.date), ("products", r.products)])
  }

  function RecordRows(records: seq<Record>): (rows: seq<Row>)
    ensures |rows| == |records|
    ensures forall k :: 0 <= k < |rows| ==> rows[k] == RecordRow(records[k])
  {
    seq(|records|, k requires 0 <= k < |records| => RecordRow(records[k]))
  }

  lemma AddKeysStep(cols: seq<string>, key: string, value: string, rest: seq<(string, string)>)
    ensures AddKeys(cols, [(key, value)] + rest) == AddKeys(if key in cols then cols else cols + [key], rest)
  {
    assert ([(key, value)] + rest)[1..] == rest;
  }

  /** The three report columns are distinct names. */
  lemma ColumnNamesDiffer()
    ensures "date" != "name" && "products" != "name" && "products" != "date"
  {
    assert "name"[0] == 'n' && "date"[0] == 'd' && "products"[0] == 'p';
  }

  /** A key not among the columns is appended to them. */
  lemma AddNewKey(cols: seq<string>, key: string, value: string, rest: seq<(string, string)>)
    requires key !in cols
    ensures AddKeys(cols, [(key, value)] + rest) == AddKeys(cols + [key], rest)
  {
    AddKeysStep(cols, key, value, rest);
  }

  /** Three distinct keys, read into no columns, give those keys in order. */
  lemma ThreeNewKeys(k1: string, k2: string, k3: string, v1: string, v2: string, v3: string)
    requires k1 != k2 && k1 != k3 && k2 != k3
    ensures AddKeys([], [(k1, v1), (k2, v2), (k3, v3)]) == [k1, k2, k3]
  {
    var f2: seq<(string, string)> := [(k3, v3)];
    var f1 := [(k2, v2)] + f2;
    var c1: seq<string> := [k1];
    var c2: seq<string> := [k1, k2];
    calc {
      AddKeys([], [(k1, v1), (k2, v2), (k3, v3)]);
      { assert [(k1, v1), (k2, v2), (k3, v3)] == [(k1, v1)] + f1; }
      AddKeys([], [(k1, v1)] + f1);
      { AddNewKey([], k1, v1, f1); assert [] + [k1] == c1; }
      AddKeys(c1, f1);
      { AddNewKey(c1, k2, v2, f2); assert c1 + [k2] == c2; }
      AddKeys(c2, f2);
      { assert f2 == [(k3, v3)] + []; AddNewKey(c2, k3, v3, []); assert c2 + [k3] == [k1, k2, k3]; }
      AddKeys([k1, k2, k3], []);
    }
  }

  /** Three keys already among the columns add nothing. */
  lemma ThreeKnownKeys(cols: seq<string>, k1: string, k2: string, k3: string, v1: string, v2: string, v3: string)
    requires k1 in cols && k2 in cols && k3 in cols
    ensures AddKeys(cols, [(k1, v1), (k2, v2), (k3, v3)]) == cols
  {
    var f2: seq<(string, string)> := [(k3, v3)];
    var f1 := [(k2, v2)] + f2;
    assert [(k1, v1), (k2, v2), (k3, v3)] == [(k1, v1)] + f1;
    AddKeysStep(cols, k1, v1, f1);
    AddKeysStep(cols, k2, v2, f2);
    AddKeysStep(cols, k3, v3, []);
    assert f2 == [(k3, v3)] + [];
  }

  /** The keys of a record's dict, in order, are the report columns. */
  lemma RecordKeysFirst(r: Record)
    ensures AddKeys([], RecordRow(r).fields) == ReportColumns
  {
    ColumnNamesDiffer();
    ThreeNewKeys("name", "date", "products", r.name, r.date, r.products);
  }

  /** A record's dict adds no column to the report columns. */
  lemma RecordKeysAgain(r: Record)
    ensures AddKeys(ReportColumns, RecordRow(r).fields) == ReportColumns
  {
    ThreeKnownKeys(ReportColumns, "name", "date", "products", r.name, r.date, r.products);
  }

  lemma {:induction false} RecordColumns(cols: seq<string>, records: seq<Record>)
    requires cols == [] || cols == ReportColumns
    requires records != [] || cols == ReportColumns
    ensures ColumnsFrom(cols, RecordRows(records)) == ReportColumns
    decreases |records|
  {
    if records != [] {
      var rows := RecordRows(records);
      if cols == [] { RecordKeysFirst(records[0]); } else { RecordKeysAgain(records[0]); }
      assert rows[1..] == RecordRows(records[1..]);
      RecordColumns(ReportColumns, records[1..]);
    }
  }

  /** A record's dict gives, for each report column, the record's field. */
  lemma RecordCells(r: Record)
    ensures Lookup(RecordRow(r).fields, "name") == Text(r.name)
    ensures Lookup(RecordRow(r).fields, "date") == Text(r.date)
    ensures Lookup(RecordRow(r).fields, "products") == Text(r.products)
  {
    var fields := RecordRow(r).fields;
    assert fields[1..] == [("date", r.date), ("products", r.products)];
    assert fields[1..][1..] == [("products", r.products)];
    assert Lookup(fields[1..], "products") == Lookup(fields[1..][1..], "products");
  }

  /**
   * The table of a record list has exactly the report columns, in order, whether the list
   * is empty or not, and row k holds record k's fields.
   */
  lemma RecordsTable(records: seq<Record>)
    ensures var base := FrameOf(CleanData(ListData(RecordRows(records))));
            base.columns + MissingColumns(base.columns, ReportColumns) == ReportColumns &&
            base.columns == (if records == [] then [] else ReportColumns) &&
            |base.rows| == |records| &&
            forall k :: 0 <= k < |records| ==>
              base.rows[k]["name"] == Text(records[k].name) &&
              base.rows[k]["date"] == Text(records[k].date) &&
              base.rows[k]["products"] == Text(records[k].products)
  {
    assert CleanData(ListData(RecordRows(records))) == RecordRows(records);
    RecordTableColumns(records);
    if records != [] {
      forall k | 0 <= k < |records| {
        RecordRowInTable(records, k);
      }
    }
  }

  /** The columns of a record table, and the report columns it then lacks. */
  lemma RecordTableColumns(records: seq<Record>)
    ensures var columns := FrameOf(RecordRows(records)).columns;
            columns == (if records == [] then [] else ReportColumns) &&
            columns + MissingColumns(columns, ReportColumns) == ReportColumns
  {
    if records == [] {
      assert FrameOf(RecordRows(records)).columns == ColumnsFrom([], []) == [];
      ReportColumnsAllMissing();
    } else {
      RecordColumns([], records);
      NothingMissing();
    }
  }

  /** Row k of a record table whose columns are the report columns holds record k's fields. */
  lemma RecordRowInTable(records: seq<Record>, k: nat)
    requires k < |records| && FrameOf(RecordRows(records)).columns == ReportColumns
    ensures var row := FrameOf(RecordRows(records)).rows[k];
            row["name"] == Text(records[k].name) &&
            row["date"] == Text(records[k].date) &&
            row["products"] == Text(records[k].products)
  {
    var rows := RecordRows(records);
    assert rows[k] == RecordRow(records[k]);
    assert "name" in ReportColumns && "date" in ReportColumns && "products" in ReportColumns;
    RecordCells(records[k]);
  }

  lemma NothingMissing()
    ensures MissingColumns(ReportColumns, ReportColumns) == []
  {
    NoneMissing(ReportColumns, ReportColumns);
  }
}
