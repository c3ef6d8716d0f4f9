/**
 * `process_rows` of the database bridge: the rows of a finished query
 * become an array of Lua tables, one per row, keyed by column name, each
 * value converted according to the column's type name. The driver
 * (`try_get_raw` and the typed decoders) is an oracle recorded in the row.
 */
module SqlxRows {
  import opened Bridge

  /** A column as the driver describes it: its name and the name of its type. */
  datatype Column = Column(name: string, typeName: string)

  /**
   * What each typed decoder makes of one raw value, None where that
   * decoder fails. A float is kept as its IEEE-754 bit pattern, so 0.0 is 0.
   */
  datatype RawValue = RawValue(
    asBool: Option<bool>, asInt: Option<i64>, asFloat: Option<u64>,
    asText: Option<string>, asBytes: Option<string>)

  /** One cell as `try_get_raw` returns it: the raw value, or the error it reports. */
  datatype Cell = Present(raw: RawValue) | Unreadable(error: string)

  datatype Row = Row(columns: seq<Column>, cells: seq<Cell>)

  /** The error `try_get_raw` reports for an index past the row's last cell. */
  const OUT_OF_BOUNDS: string := "ColumnIndexOutOfBounds"

  /** Lua values a cell can become; a Lua string is a byte string. */
  datatype LuaValue = Nil | Boolean(b: bool) | Integer(i: i64) | Number(bits: u64) | LuaString(s: string)

  datatype ColumnKind = NullKind | BoolKind | IntKind | FloatKind | TextKind | BlobKind

  /** The type-name table of `process_rows`; every name not listed reads as bytes. */
  function KindOf(typeName: string): ColumnKind {
    if typeName == "NULL" then NullKind
    else if typeName == "BOOL" || typeName == "BOOLEAN" then BoolKind
    else if typeName == "INT2" || typeName == "INT4" || typeName == "INT8" || typeName == "TINYINT"
         || typeName == "SMALLINT" || typeName == "INT" || typeName == "MEDIUMINT"
         || typeName == "BIGINT" || typeName == "INTEGER" then IntKind
    else if typeName == "FLOAT4" || typeName == "FLOAT8" || typeName == "NUMERIC"
         || typeName == "FLOAT" || typeName == "DOUBLE" || typeName == "REAL" then FloatKind
    else if typeName == "TEXT" then TextKind
    else BlobKind
  }

  /**
   * The Lua value of a readable cell: nil for a NULL column, otherwise a
   * value of the column's Lua type, that type's zero when decoding fails.
   */
  function CellValue(kind: ColumnKind, raw: RawValue): (v: LuaValue)
    ensures v.Nil? <==> kind == NullKind
    ensures v.Boolean? <==> kind == BoolKind
    ensures v.Integer? <==> kind == IntKind
    ensures v.Number? <==> kind == FloatKind
    ensures v.LuaString? <==> kind == TextKind || kind == BlobKind
    ensures kind == BoolKind && raw.asBool.None? ==> v == Boolean(false)
    ensures kind == IntKind && raw.asInt.None? ==> v == Integer(0)
    ensures kind == FloatKind && raw.asFloat.None? ==> v == Number(0)
    ensures kind == TextKind && raw.asText.None? ==> v == LuaString("")
    ensures kind == BlobKind && raw.asBytes.None? ==> v == LuaString("")
  {
    match kind
    case NullKind => Nil
    case BoolKind => Boolean(raw.asBool.GetOr(false))
    case IntKind => Integer(raw.asInt.GetOr(0))
    case FloatKind => Number(raw.asFloat.GetOr(0))
    case TextKind => LuaString(raw.asText.GetOr(""))
    case BlobKind => LuaString(raw.asBytes.GetOr(""))
  }

  /** The integer the Lua C API uses as the type tag of nil. */
  const LUA_TNIL: i64 := 0

  /**
   * The table store of lines 427-460 as written: a NULL column pushes the
   * constant LUA_TNIL, which is the integer 0, not nil.
   */
  function SetCellAsWritten(t: map<string, LuaValue>, name: string, kind: ColumnKind, raw: RawValue): map<string, LuaValue> {
    t[name := if kind == NullKind then Integer(LUA_TNIL) else CellValue(kind, raw)]
  }

  /**
   * The store as intended: assigning nil to a Lua table field leaves the
   * field absent, every other value is stored under the column's name.
   */
  function SetCell(t: map<string, LuaValue>, name: string, kind: ColumnKind, raw: RawValue): (r: map<string, LuaValue>)
    ensures name in r <==> kind != NullKind
    ensures name in r ==> r[name] == CellValue(kind, raw)
  {
    if kind == NullKind then t - {name} else t[name := CellValue(kind, raw)]
  }

  /** Storing one column leaves every other field as it was. */
  lemma SetCellFrame(t: map<string, LuaValue>, name: string, kind: ColumnKind, raw: RawValue, k: string)
    requires k != name
    ensures k in SetCell(t, name, kind, raw) <==> k in t
    ensures k in t ==> SetCell(t, name, kind, raw)[k] == t[k]
  {
  }

  /** A NULL column reads back as the integer 0 as written, and as an absent field as intended. */
  lemma NullColumnReadsAsZero(t: map<string, LuaValue>, name: string, raw: RawValue)
    ensures KindOf("NULL") == NullKind
    ensures name in SetCellAsWritten(t, name, KindOf("NULL"), raw)
    ensures SetCellAsWritten(t, name, KindOf("NULL"), raw)[name] == Integer(0)
    ensures name !in SetCell(t, name, KindOf("NULL"), raw)
  {
  }

  /** `try_get_raw(index)` on a row. */
  function ReadCell(row: Row, index: nat): Cell {
    if index < |row.cells| then row.cells[index] else Unreadable(OUT_OF_BOUNDS)
  }

  /** The column list every row is read with: the first row's columns. */
  function Columns(rows: seq<Row>): seq<Column> {
    if |rows| == 0 then [] else rows[0].columns
  }

  /**
   * One row's table after its first `n` columns, or the name of the
   * column that could not be read and the driver's error.
   */
  function RowUpTo(cols: seq<Column>, row: Row, n: nat): Result<map<string, LuaValue>, (string, string)>
    requires n <= |cols|
  {
    if n == 0 then Ok(map[])
    else match RowUpTo(cols, row, n - 1)
      case Err(e) => Err(e)
      case Ok(t) =>
        match ReadCell(row, n - 1)
        case Unreadable(e) => Err((cols[n - 1].name, e))
        case Present(raw) => Ok(SetCell(t, cols[n - 1].name, KindOf(cols[n - 1].typeName), raw))
  }

  /** The tables of the first `n` rows, or the first failure met. */
  function TablesUpTo(cols: seq<Column>, rows: seq<Row>, n: nat): Result<seq<map<string, LuaValue>>, (string, string)>
    requires n <= |rows|
  {
    if n == 0 then Ok([])
    else match TablesUpTo(cols, rows, n - 1)
      case Err(e) => Err(e)
      case Ok(ts) =>
        match RowUpTo(cols, rows[n - 1], |cols|)
        case Err(e) => Err(e)
        case Ok(t) => Ok(ts + [t])
  }

  /** What `process_rows` leaves for Lua: an array of row tables, or `(false, message)`. */
  datatype RowsOutcome = RowTables(tables: seq<map<string, LuaValue>>) | DecodeFailed(column: string, error: string)

  function ProcessedRows(rows: seq<Row>): RowsOutcome {
    match TablesUpTo(Columns(rows), rows, |rows|)
    case Ok(ts) => RowTables(ts)
    case Err(e) => DecodeFailed(e.0, e.1)
  }

  lemma {:induction false} RowErrSticks(cols: seq<Column>, row: Row, m: nat, n: nat)
    requires m <= n <= |cols| && RowUpTo(cols, row, m).Err?
    ensures RowUpTo(cols, row, n) == RowUpTo(cols, row, m)
    decreases n
  {
    if m < n {
      RowErrSticks(cols, row, m, n - 1);
    }
  }

  lemma {:induction false} TablesErrSticks(cols: seq<Column>, rows: seq<Row>, m: nat, n: nat)
    requires m <= n <= |rows| && TablesUpTo(cols, rows, m).Err?
    ensures TablesUpTo(cols, rows, n) == TablesUpTo(cols, rows, m)
    decreases n
  {
    if m < n {
      TablesErrSticks(cols, rows, m, n - 1);
    }
  }

  /** One more column: the next cell's error, or its value stored. */
  lemma RowUpToStep(cols: seq<Column>, row: Row, j: nat, t: map<string, LuaValue>)
    requires j < |cols| && RowUpTo(cols, row, j) == Ok(t)
    ensures ReadCell(row, j).Unreadable? ==> RowUpTo(cols, row, j + 1) == Err((cols[j].name, ReadCell(row, j).error))
    ensures ReadCell(row, j).Present? ==>
      RowUpTo(cols, row, j + 1) == Ok(SetCell(t, cols[j].name, KindOf(cols[j].typeName), ReadCell(row, j).raw))
  {
  }

  /**
   * One row of `process_rows`: its cells are read in column order, and
   * the first unreadable one ends the row with that column's name and
   * the driver's error.
   */
  method RowTable(cols: seq<Column>, row: Row) returns (r: Result<map<string, LuaValue>, (string, string)>)
    ensures r == RowUpTo(cols, row, |cols|)
  {
    var t: map<string, LuaValue> := map[];
    var j := 0;
    while j < |cols|
      invariant 0 <= j <= |cols|
      invariant RowUpTo(cols, row, j) == Ok(t)
    {
      var cell := ReadCell(row, j);
      RowUpToStep(cols, row, j, t);
      if cell.Unreadable? {
        RowErrSticks(cols, row, j + 1, |cols|);
        return Err((cols[j].name, cell.error));
      }
      t := SetCell(t, cols[j].name, KindOf(cols[j].typeName), cell.raw);
      j := j + 1;
    }
    r := Ok(t);
  }

  /**
   * `process_rows`: the column list is taken from the first row, the rows
   * are converted in order, and the first failing row ends the whole
   * conversion with its error.
   */
  method ProcessRows(rows: seq<Row>) returns (out: RowsOutcome)
    ensures out == ProcessedRows(rows)
  {
    if |rows| == 0 {
      return RowTables([]);
    }
    var cols := rows[0].columns;
    var tables: seq<map<string, LuaValue>> := [];
    var i := 0;
    while i < |rows|
      invariant 0 <= i <= |rows|
      invariant TablesUpTo(cols, rows, i) == Ok(tables)
    {
      var r := RowTable(cols, rows[i]);
      if r.Err? {
        TablesErrSticks(cols, rows, i + 1, |rows|);
        return DecodeFailed(r.error.0, r.error.1);
      }
      tables := tables + [r.value];
      i := i + 1;
    }
    out := RowTables(tables);
  }

  /** A row converts exactly when each of its first `n` cells is readable. */
  lemma {:induction false} RowUpToOk(cols: seq<Column>, row: Row, n: nat)
    requires n <= |cols|
    ensures RowUpTo(cols, row, n).Ok? <==> forall j :: 0 <= j < n ==> ReadCell(row, j).Present?
    decreases n
  {
    if n > 0 {
      RowUpToOk(cols, row, n - 1);
    }
  }

  /**
   * A converted row holds only column names, and a column not shadowed by
   * a later one of the same name is absent when NULL and holds its cell's
   * value otherwise.
   */
  lemma {:induction false} RowUpToContents(cols: seq<Column>, row: Row, n: nat)
    requires n <= |cols| && RowUpTo(cols, row, n).Ok?
    ensures forall k :: k in RowUpTo(cols, row, n).value ==> exists j :: 0 <= j < n && cols[j].name == k
    ensures forall j :: 0 <= j < n && (forall l :: j < l < n ==> cols[l].name != cols[j].name) ==>
      var t := RowUpTo(cols, row, n).value;
      && ReadCell(row, j).Present?
      && (cols[j].name in t <==> KindOf(cols[j].typeName) != NullKind)
      && (cols[j].name in t ==> t[cols[j].name] == CellValue(KindOf(cols[j].typeName), ReadCell(row, j).raw))
    decreases n
  {
    if n > 0 {
      RowUpToContents(cols, row, n - 1);
      var t0 := RowUpTo(cols, row, n - 1).value;
      var c := cols[n - 1];
      var t := RowUpTo(cols, row, n).value;
      assert t == SetCell(t0, c.name, KindOf(c.typeName), ReadCell(row, n - 1).raw);
      forall k | k in t
        ensures exists j :: 0 <= j < n && cols[j].name == k
      {
        if k != c.name {
          SetCellFrame(t0, c.name, KindOf(c.typeName), ReadCell(row, n - 1).raw, k);
        }
      }
      forall j | 0 <= j < n - 1 && (forall l :: j < l < n ==> cols[l].name != cols[j].name)
        ensures cols[j].name in t <==> cols[j].name in t0
        ensures cols[j].name in t ==> t[cols[j].name] == t0[cols[j].name]
      {
        SetCellFrame(t0, c.name, KindOf(c.typeName), ReadCell(row, n - 1).raw, cols[j].name);
      }
    }
  }

  /** Every cell of the row under the given columns is readable. */
  predicate RowReadable(cols: seq<Column>, row: Row) {
    forall j :: 0 <= j < |cols| ==> ReadCell(row, j).Present?
  }

  /** The first `n` rows convert exactly when each of them is readable. */
  lemma {:induction false} TablesUpToOk(cols: seq<Column>, rows: seq<Row>, n: nat)
    requires n <= |rows|
    ensures TablesUpTo(cols, rows, n).Ok? <==> forall i :: 0 <= i < n ==> RowReadable(cols, rows[i])
    decreases n
  {
    if n > 0 {
      TablesUpToOk(cols, rows, n - 1);
      RowUpToOk(cols, rows[n - 1], |cols|);
    }
  }

  /** Converted rows give one table per row, in row order. */
  lemma {:induction false} TablesUpToValue(cols: seq<Column>, rows: seq<Row>, n: nat)
    requires n <= |rows| && TablesUpTo(cols, rows, n).Ok?
    ensures |TablesUpTo(cols, rows, n).value| == n
    ensures forall i :: 0 <= i < n ==>
      RowUpTo(cols, rows[i], |cols|).Ok? && TablesUpTo(cols, rows, n).value[i] == RowUpTo(cols, rows[i], |cols|).value
    decreases n
  {
    if n > 0 {
      TablesUpToValue(cols, rows, n - 1);
    }
  }

  /** A failed row names the first unreadable cell, in column order. */
  lemma {:induction false} RowUpToFirstError(cols: seq<Column>, row: Row, n: nat)
    requires n <= |cols| && RowUpTo(cols, row, n).Err?
    ensures exists j :: (0 <= j < n && ReadCell(row, j).Unreadable?
      && RowUpTo(cols, row, n).error == (cols[j].name, ReadCell(row, j).error)
      && forall l :: 0 <= l < j ==> ReadCell(row, l).Present?)
    decreases n
  {
    if RowUpTo(cols, row, n - 1).Err? {
      RowUpToFirstError(cols, row, n - 1);
    } else {
      RowUpToOk(cols, row, n - 1);
      assert ReadCell(row, n - 1).Unreadable?;
    }
  }

  /** A failed conversion is the failure of the first unreadable row. */
  lemma {:induction false} TablesUpToFirstError(cols: seq<Column>, rows: seq<Row>, n: nat)
    requires n <= |rows| && TablesUpTo(cols, rows, n).Err?
    ensures exists i :: (0 <= i < n && RowUpTo(cols, rows[i], |cols|).Err?
      && TablesUpTo(cols, rows, n).error == RowUpTo(cols, rows[i], |cols|).error
      && forall h :: 0 <= h < i ==> RowReadable(cols, rows[h]))
    decreases n
  {
    if TablesUpTo(cols, rows, n - 1).Err? {
      TablesUpToFirstError(cols, rows, n - 1);
    } else {
      TablesUpToOk(cols, rows, n - 1);
    }
  }

  /**
   * The message of a failed `process_rows` is the first unreadable cell's,
   * rows taken in order and each row's cells in column order.
   */
  lemma ProcessedRowsFirstError(rows: seq<Row>)
    requires ProcessedRows(rows).DecodeFailed?
    ensures exists i, j :: (0 <= i < |rows| && 0 <= j < |Columns(rows)| && ReadCell(rows[i], j).Unreadable?
      && ProcessedRows(rows) == DecodeFailed(Columns(rows)[j].name, ReadCell(rows[i], j).error)
      && (forall h :: 0 <= h < i ==> RowReadable(Columns(rows), rows[h]))
      && (forall l :: 0 <= l < j ==> ReadCell(rows[i], l).Present?))
  {
    var cols := Columns(rows);
    TablesUpToFirstError(cols, rows, |rows|);
    var i :| 0 <= i < |rows| && RowUpTo(cols, rows[i], |cols|).Err?
      && TablesUpTo(cols, rows, |rows|).error == RowUpTo(cols, rows[i], |cols|).error
      && forall h :: 0 <= h < i ==> RowReadable(cols, rows[h]);
    RowUpToFirstError(cols, rows[i], |cols|);
  }

  /**
   * The outcome of `process_rows`: an error exactly when some row lacks a
   * readable cell for one of the first row's columns; otherwise one table
   * per row, in order, each holding the converted cells by column name.
   */
  lemma ProcessedRowsShape(rows: seq<Row>)
    ensures ProcessedRows(rows).DecodeFailed? <==>
      exists i, j :: 0 <= i < |rows| && 0 <= j < |Columns(rows)| && ReadCell(rows[i], j).Unreadable?
    ensures ProcessedRows(rows).RowTables? ==>
      var ts := ProcessedRows(rows).tables;
      && |ts| == |rows|
      && (forall i, k :: 0 <= i < |rows| && k in ts[i] ==> exists j :: 0 <= j < |Columns(rows)| && Columns(rows)[j].name == k)
      && forall i, j ::
           (0 <= i < |rows| && 0 <= j < |Columns(rows)|
            && (forall l :: j < l < |Columns(rows)| ==> Columns(rows)[l].name != Columns(rows)[j].name)) ==>
           var c := Columns(rows)[j];
           && (c.name in ts[i] <==> KindOf(c.typeName) != NullKind)
           && (c.name in ts[i] ==> ts[i][c.name] == CellValue(KindOf(c.typeName), ReadCell(rows[i], j).raw))
  {
    var cols := Columns(rows);
    TablesUpToOk(cols, rows, |rows|);
    if ProcessedRows(rows).DecodeFailed? {
      var i :| 0 <= i < |rows| && !RowReadable(cols, rows[i]);
      var j :| 0 <= j < |cols| && !ReadCell(rows[i], j).Present?;
      assert ReadCell(rows[i], j).Unreadable?;
    } else {
      TablesUpToValue(cols, rows, |rows|);
      forall i | 0 <= i < |rows|
      {
        RowUpToContents(cols, rows[i], |cols|);
      }
    }
  }

  /*
   * The same conversion with the store as written (`SetCellAsWritten`),
   * and how its outcome relates to the corrected one above.
   */

  /** `RowUpTo` with the store of lines 427-460 as written. */
  function RowUpToAsWritten(cols: seq<Column>, row: Row, n: nat): Result<map<string, LuaValue>, (string, string)>
    requires n <= |cols|
  {
    if n == 0 then Ok(map[])
    else match RowUpToAsWritten(cols, row, n - 1)
      case Err(e) => Err(e)
      case Ok(t) =>
        match ReadCell(row, n - 1)
        case Unreadable(e) => Err((cols[n - 1].name, e))
        case Present(raw) => Ok(SetCellAsWritten(t, cols[n - 1].name, KindOf(cols[n - 1].typeName), raw))
  }

  /** `TablesUpTo` with the store as written. */
  function TablesUpToAsWritten(cols: seq<Column>, rows: seq<Row>, n: nat): Result<seq<map<string, LuaValue>>, (string, string)>
    requires n <= |rows|
  {
    if n == 0 then Ok([])
    else match TablesUpToAsWritten(cols, rows, n - 1)
      case Err(e) => Err(e)
      case Ok(ts) =>
        match RowUpToAsWritten(cols, rows[n - 1], |cols|)
        case Err(e) => Err(e)
        case Ok(t) => Ok(ts + [t])
  }

  /** What `process_rows` as written leaves for Lua. */
  function ProcessedRowsAsWritten(rows: seq<Row>): RowsOutcome {
    match TablesUpToAsWritten(Columns(rows), rows, |rows|)
    case Ok(ts) => RowTables(ts)
    case Err(e) => DecodeFailed(e.0, e.1)
  }

  /**
   * A row table as written agrees with the corrected one on every field the
   * corrected one holds; any extra field belongs to a NULL column among
   * the first `n` and holds the integer 0, and every NULL column not
   * overwritten by a later column of the same name is such a field.
   */
  predicate OnlyNullsDiffer(written: map<string, LuaValue>, fixed: map<string, LuaValue>, cols: seq<Column>, n: nat)
    requires n <= |cols|
  {
    && (forall k :: k in fixed ==> k in written && written[k] == fixed[k])
    && (forall k :: k in written && k !in fixed ==>
          written[k] == Integer(0) && exists j :: 0 <= j < n && cols[j].name == k && KindOf(cols[j].typeName) == NullKind)
    && (forall j :: 0 <= j < n && KindOf(cols[j].typeName) == NullKind && (forall l :: j < l < n ==> cols[l].name != cols[j].name) ==>
          cols[j].name in written && cols[j].name !in fixed && written[cols[j].name] == Integer(0))
  }

  /** Row by row, the store as written fails exactly where the corrected one does, and otherwise differs only in NULL columns. */
  lemma {:induction false} RowAsWrittenDiffers(cols: seq<Column>, row: Row, n: nat)
    requires n <= |cols|
    ensures RowUpToAsWritten(cols, row, n).Err? <==> RowUpTo(cols, row, n).Err?
    ensures RowUpTo(cols, row, n).Err? ==> RowUpToAsWritten(cols, row, n).error == RowUpTo(cols, row, n).error
    ensures RowUpTo(cols, row, n).Ok? ==>
      OnlyNullsDiffer(RowUpToAsWritten(cols, row, n).value, RowUpTo(cols, row, n).value, cols, n)
    decreases n
  {
    if n > 0 {
      RowAsWrittenDiffers(cols, row, n - 1);
      var w0 := RowUpToAsWritten(cols, row, n - 1);
      var f0 := RowUpTo(cols, row, n - 1);
      if f0.Ok? && ReadCell(row, n - 1).Present? {
        var name := cols[n - 1].name;
        var kind := KindOf(cols[n - 1].typeName);
        var raw := ReadCell(row, n - 1).raw;
        var w := SetCellAsWritten(w0.value, name, kind, raw);
        var f := SetCell(f0.value, name, kind, raw);
        forall k | k in f
          ensures k in w && w[k] == f[k]
        {
          if k != name {
            SetCellFrame(f0.value, name, kind, raw, k);
          }
        }
        forall k | k in w && k !in f
          ensures w[k] == Integer(0) && exists j :: 0 <= j < n && cols[j].name == k && KindOf(cols[j].typeName) == NullKind
        {
          if k != name {
            SetCellFrame(f0.value, name, kind, raw, k);
            var j :| 0 <= j < n - 1 && cols[j].name == k && KindOf(cols[j].typeName) == NullKind;
          } else {
            assert cols[n - 1].name == k;
          }
        }
        forall j | 0 <= j < n && KindOf(cols[j].typeName) == NullKind && (forall l :: j < l < n ==> cols[l].name != cols[j].name)
          ensures cols[j].name in w && cols[j].name !in f && w[cols[j].name] == Integer(0)
        {
          if j < n - 1 {
            assert cols[n - 1].name != cols[j].name;
            SetCellFrame(f0.value, name, kind, raw, cols[j].name);
          }
        }
      }
    }
  }

  /**
   * The whole result: `process_rows` as written fails exactly when the
   * corrected one does, with the same error; otherwise it gives as many
   * tables, each differing from the corrected one only in NULL columns,
   * which hold the integer 0.
   */
  lemma {:induction false} TablesAsWrittenDiffer(cols: seq<Column>, rows: seq<Row>, n: nat)
    requires n <= |rows|
    ensures TablesUpToAsWritten(cols, rows, n).Err? <==> TablesUpTo(cols, rows, n).Err?
    ensures TablesUpTo(cols, rows, n).Err? ==> TablesUpToAsWritten(cols, rows, n).error == TablesUpTo(cols, rows, n).error
    ensures TablesUpTo(cols, rows, n).Ok? ==>
      var w := TablesUpToAsWritten(cols, rows, n).value;
      var f := TablesUpTo(cols, rows, n).value;
      |w| == |f| && forall i :: 0 <= i < |f| ==> OnlyNullsDiffer(w[i], f[i], cols, |cols|)
    decreases n
  {
    if n > 0 {
      TablesAsWrittenDiffer(cols, rows, n - 1);
      RowAsWrittenDiffers(cols, rows[n - 1], |cols|);
    }
  }

  /** `ProcessedRowsAsWritten` against `ProcessedRows`. */
  lemma ProcessedRowsAsWrittenDiffer(rows: seq<Row>)
    ensures ProcessedRowsAsWritten(rows).DecodeFailed? <==> ProcessedRows(rows).DecodeFailed?
    ensures ProcessedRows(rows).DecodeFailed? ==> ProcessedRowsAsWritten(rows) == ProcessedRows(rows)
    ensures ProcessedRows(rows).RowTables? ==>
      var w := ProcessedRowsAsWritten(rows).tables;
      var f := ProcessedRows(rows).tables;
      |w| == |f| && forall i :: 0 <= i < |f| ==> OnlyNullsDiffer(w[i], f[i], Columns(rows), |Columns(rows)|)
  {
    TablesAsWrittenDiffer(Columns(rows), rows, |rows|);
  }
}
