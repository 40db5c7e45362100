/** The table post-processing and file output of the tool (`utils.py`).
    `process_data` builds a table from the records, applies per-column
    transformations and truncates text cells for Excel; `save_to_excel`
    chooses the output path, replaces control characters and tries the
    Excel engines in turn, falling back to CSV. */
module Utils {
  import opened Basics
  import opened Strings
  import opened Json
  import Config

  // ---------------------------------------------------------------------
  // Tables

  /** A cell: a Python `str`, or any other value with the text `str()`
      gives for it. */
  datatype Value = Text(s: string) | Other(rendered: string)

  /** `str(v)`, as `astype(str)` applies it to every cell. */
  function Render(v: Value): string
  {
    match v
    case Text(s) => s
    case Other(r) => r
  }

  /** A column: its name, whether its dtype is `object` (a text column),
      and its cells from the first row to the last. */
  datatype Column = Column(name: string, isText: bool, cells: seq<Value>)

  /** The contents of a DataFrame: its number of rows and its columns. */
  datatype Table = Table(rows: nat, columns: seq<Column>)

  /** `df.empty`: the frame has no rows or no columns. */
  predicate Empty(t: Table)
  {
    t.rows == 0 || |t.columns| == 0
  }

  /** A DataFrame, which `save_to_excel` changes in place. */
  class Frame {
    var rows: nat
    var columns: seq<Column>

    constructor (t: Table)
      ensures rows == t.rows && columns == t.columns
    {
      rows := t.rows;
      columns := t.columns;
    }

    function Contents(): Table
      reads this
    {
      Table(rows, columns)
    }

    /** `df[name] = series` for the column at position `i`: the column keeps
        its name and place and gets the given cells and dtype. */
    method SetColumn(i: nat, isText: bool, cells: seq<Value>)
      requires i < |columns|
      modifies this
      ensures rows == old(rows)
      ensures columns == old(columns)[i := Column(old(columns)[i].name, isText, cells)]
    {
      columns := columns[i := Column(columns[i].name, isText, cells)];
    }
  }

  predicate HasColumn(cols: seq<Column>, name: string)
  {
    exists i | 0 <= i < |cols| :: cols[i].name == name
  }

  lemma HasColumnTail(cols: seq<Column>, name: string)
    requires |cols| > 0 && cols[0].name != name && HasColumn(cols, name)
    ensures HasColumn(cols[1..], name)
  {
    var i :| 0 <= i < |cols| && cols[i].name == name;
    assert cols[1..][i - 1].name == name;
  }

  /** `df[name]`: the position of the column called `name`. */
  function ColumnIndex(cols: seq<Column>, name: string): (i: nat)
    requires HasColumn(cols, name)
    ensures i < |cols| && cols[i].name == name
    ensures forall j :: 0 <= j < i ==> cols[j].name != name
  {
    if cols[0].name == name then 0
    else
      HasColumnTail(cols, name);
      1 + ColumnIndex(cols[1..], name)
  }

  // ---------------------------------------------------------------------
  // process_data

  /** One entry of the `transformations` dict: the column it applies to,
      the function applied to every cell (which may raise), and whether the
      column is text afterwards (pandas infers the new dtype). */
  datatype Transformation = Transformation(
    column: string,
    apply: Value -> Result<Value, Exception>,
    resultIsText: bool)

  /** `series.apply(f)`: every cell mapped in order; the first cell on which
      `f` raises makes the whole call raise. */
  function MapCells(cells: seq<Value>, f: Value -> Result<Value, Exception>): (r: Result<seq<Value>, Exception>)
    ensures r.Ok? ==> |r.value| == |cells| && forall i :: 0 <= i < |cells| ==> f(cells[i]) == Ok(r.value[i])
    ensures r.Err? ==> exists i :: 0 <= i < |cells| && f(cells[i]) == Err(r.error)
                                && forall j :: 0 <= j < i ==> f(cells[j]).Ok?
  {
    if |cells| == 0 then Ok([])
    else
      match f(cells[0])
      case Err(e) => Err(e)
      case Ok(v) =>
        var rest := MapCells(cells[1..], f);
        if rest.Err? then
          FirstFailureShifts(cells, f, rest.error);
          rest
        else
          assert forall i :: 1 <= i < |cells| ==> cells[i] == cells[1..][i - 1];
          Ok([v] + rest.value)
  }

  /** The first failing cell of the tail, one place further on, is the
      first failing cell of the whole column when its head maps. */
  lemma FirstFailureShifts(cells: seq<Value>, f: Value -> Result<Value, Exception>, e: Exception)
    requires |cells| > 0 && f(cells[0]).Ok?
    requires exists i :: 0 <= i < |cells[1..]| && f(cells[1..][i]) == Err(e)
                         && forall j :: 0 <= j < i ==> f(cells[1..][j]).Ok?
    ensures exists i :: 0 <= i < |cells| && f(cells[i]) == Err(e) && forall j :: 0 <= j < i ==> f(cells[j]).Ok?
  {
    var i :| 0 <= i < |cells[1..]| && f(cells[1..][i]) == Err(e) && forall j :: 0 <= j < i ==> f(cells[1..][j]).Ok?;
    assert cells[i + 1] == cells[1..][i];
    forall j | 0 <= j < i + 1 ensures f(cells[j]).Ok? {
      if j > 0 {
        assert cells[j] == cells[1..][j - 1];
      }
    }
  }

  /** One transformation: applied when the frame has its column, ignored
      otherwise. */
  function Transform(cols: seq<Column>, t: Transformation): Result<seq<Column>, Exception>
  {
    if !HasColumn(cols, t.column) then Ok(cols)
    else
      var i := ColumnIndex(cols, t.column);
      match MapCells(cols[i].cells, t.apply)
      case Err(e) => Err(e)
      case Ok(cells) => Ok(cols[i := Column(cols[i].name, t.resultIsText, cells)])
  }

  /** The transformations in dict order. */
  function TransformAll(cols: seq<Column>, ts: seq<Transformation>): Result<seq<Column>, Exception>
    decreases |ts|
  {
    if |ts| == 0 then Ok(cols)
    else
      match Transform(cols, ts[0])
      case Err(e) => Err(e)
      case Ok(next) => TransformAll(next, ts[1..])
  }

  /** The longest cell text the tool writes, kept under Excel's limit of
      32767 characters. */
  const MaxCellLength: nat := 32000

  /** `x[:32000] if len(x) > 32000 else x`: the longest prefix of `s` of at
      most `MaxCellLength` characters. */
  function TruncateText(s: string): (r: string)
    ensures |r| <= MaxCellLength && StartsWith(s, r)
    ensures |r| == |s| || |r| == MaxCellLength
  {
    if |s| > MaxCellLength then s[..MaxCellLength] else s
  }

  function TruncatedCells(cells: seq<Value>): seq<Value>
  {
    seq(|cells|, i requires 0 <= i < |cells| => Text(TruncateText(Render(cells[i]))))
  }

  /** The truncation step for one column: text columns are rendered as
      strings and truncated, other columns are left alone. */
  function TruncateColumn(c: Column): Column
  {
    if c.isText then Column(c.name, true, TruncatedCells(c.cells)) else c
  }

  function TruncateColumns(cols: seq<Column>): seq<Column>
  {
    seq(|cols|, i requires 0 <= i < |cols| => TruncateColumn(cols[i]))
  }

  /** What `process_data(data, transformations)` returns or raises, with
      `frameOf` standing for `pd.DataFrame(data)`. */
  function Processed(data: seq<Json>, frameOf: seq<Json> -> Table, ts: seq<Transformation>): Result<Table, Exception>
  {
    if data == [] then Ok(Table(0, []))
    else
      var start := frameOf(data);
      match TransformAll(start.columns, ts)
      case Err(e) => Err(e)
      case Ok(cols) => Ok(Table(start.rows, TruncateColumns(cols)))
  }

  /** `len` of the longest rendered cell: the `max_len` of the warning. */
  function MaxLen(cells: seq<Value>): nat
  {
    if |cells| == 0 then 0
    else
      var m := MaxLen(cells[1..]);
      if |Render(cells[0])| > m then |Render(cells[0])| else m
  }

  lemma {:induction false} MaxLenAtMost(cells: seq<Value>, bound: nat)
    requires forall i :: 0 <= i < |cells| ==> |Render(cells[i])| <= bound
    ensures MaxLen(cells) <= bound
  {
    if |cells| > 0 {
      assert forall i :: 0 <= i < |cells[1..]| ==> cells[1..][i] == cells[i + 1];
      MaxLenAtMost(cells[1..], bound);
    }
  }

  /** `process_data`: the transformation loop, then the truncation loop
      over the columns, on a new frame. */
  method ProcessData(data: seq<Json>, frameOf: seq<Json> -> Table, transforms: seq<Transformation>)
    returns (r: Result<Frame, Exception>)
    ensures r.Ok? ==> fresh(r.value)
    ensures Processed(data, frameOf, transforms) == if r.Ok? then Ok(r.value.Contents()) else Err(r.error)
  {
    if data == [] {
      var empty := new Frame(Table(0, []));
      return Ok(empty);
    }
    var start := frameOf(data);
    var df := new Frame(start);
    var k := 0;
    while k < |transforms|
      invariant 0 <= k <= |transforms|
      invariant df.rows == start.rows
      invariant TransformAll(df.columns, transforms[k..]) == TransformAll(start.columns, transforms)
    {
      var t := transforms[k];
      assert transforms[k..][0] == t && transforms[k..][1..] == transforms[k + 1..];
      if HasColumn(df.columns, t.column) {
        var i := ColumnIndex(df.columns, t.column);
        var mapped := MapCells(df.columns[i].cells, t.apply);
        if mapped.Err? {
          return Err(mapped.error);
        }
        df.SetColumn(i, t.resultIsText, mapped.value);
      }
      k := k + 1;
    }
    ghost var transformed := df.columns;
    var i := 0;
    while i < |df.columns|
      invariant 0 <= i <= |df.columns| == |transformed|
      invariant df.rows == start.rows
      invariant forall j :: 0 <= j < i ==> df.columns[j] == TruncateColumn(transformed[j])
      invariant forall j :: i <= j < |df.columns| ==> df.columns[j] == transformed[j]
    {
      if df.columns[i].isText {
        var cells := TruncatedCells(df.columns[i].cells);
        df.SetColumn(i, true, cells);
        MaxLenAtMost(cells, MaxCellLength);
        if MaxLen(cells) > MaxCellLength {
          // the truncation warning: the length is measured after truncating
          assert false;
        }
      }
      i := i + 1;
    }
    assert df.columns == TruncateColumns(transformed);
    return Ok(df);
  }

  // ---------------------------------------------------------------------
  // Properties of process_data

  /** No records give the empty frame. */
  lemma ProcessedEmpty(frameOf: seq<Json> -> Table, ts: seq<Transformation>)
    ensures Processed([], frameOf, ts) == Ok(Table(0, []))
    ensures Empty(Processed([], frameOf, ts).value)
  {
  }

  /** A transformation whose column is absent is ignored. */
  lemma TransformAbsentColumn(cols: seq<Column>, t: Transformation)
    requires !HasColumn(cols, t.column)
    ensures Transform(cols, t) == Ok(cols)
  {
  }

  /** A transformation changes its own column only: names, order and every
      other column stay, and its column gets the mapped cells. */
  lemma TransformOnlyItsColumn(cols: seq<Column>, t: Transformation, result: seq<Column>)
    requires Transform(cols, t) == Ok(result)
    ensures |result| == |cols|
    ensures forall i :: 0 <= i < |cols| ==> result[i].name == cols[i].name
    ensures forall i :: 0 <= i < |cols| && cols[i].name != t.column ==> result[i] == cols[i]
    ensures HasColumn(cols, t.column) ==>
      var i := ColumnIndex(cols, t.column);
      MapCells(cols[i].cells, t.apply) == Ok(result[i].cells) && result[i].isText == t.resultIsText
  {
  }

  /** A column no transformation names comes through the transformation
      loop as it was, and no column is added, removed or renamed. */
  lemma {:induction false} TransformAllKeepsOthers(cols: seq<Column>, ts: seq<Transformation>, result: seq<Column>)
    decreases |ts|
    requires TransformAll(cols, ts) == Ok(result)
    ensures |result| == |cols|
    ensures forall i :: 0 <= i < |cols| ==> result[i].name == cols[i].name
    ensures forall i :: 0 <= i < |cols| && Untransformed(ts, cols[i].name) ==> result[i] == cols[i]
  {
    if |ts| > 0 {
      var next := Transform(cols, ts[0]).value;
      TransformOnlyItsColumn(cols, ts[0], next);
      TransformAllKeepsOthers(next, ts[1..], result);
      forall i | 0 <= i < |cols| && Untransformed(ts, cols[i].name)
        ensures result[i] == cols[i]
      {
        assert ts[0].column != cols[i].name;
        assert Untransformed(ts[1..], next[i].name) by {
          forall k | 0 <= k < |ts[1..]| ensures ts[1..][k].column != next[i].name {
            assert ts[1..][k] == ts[k + 1];
          }
        }
      }
    }
  }

  predicate Untransformed(ts: seq<Transformation>, name: string)
  {
    forall k :: 0 <= k < |ts| ==> ts[k].column != name
  }

  /** After truncation every text column holds strings of at most
      `MaxCellLength` characters; a string that short is kept, a longer one
      is cut to its prefix; other columns, names and order are unchanged. */
  lemma TruncateColumnsShape(cols: seq<Column>)
    ensures |TruncateColumns(cols)| == |cols|
    ensures forall i :: 0 <= i < |cols| ==>
      var c := TruncateColumns(cols)[i];
      c.name == cols[i].name && c.isText == cols[i].isText && (!c.isText ==> c == cols[i])
    ensures forall i, j :: 0 <= i < |cols| && cols[i].isText && 0 <= j < |cols[i].cells| ==>
      var s := Render(cols[i].cells[j]);
      var cell := TruncateColumns(cols)[i].cells[j];
      cell.Text? && |cell.s| <= MaxCellLength
      && (|s| <= MaxCellLength ==> cell.s == s)
      && (|s| > MaxCellLength ==> cell.s == s[..MaxCellLength])
  {
  }

  /** Truncating twice is truncating once. */
  lemma TruncateIdempotent(cols: seq<Column>)
    ensures TruncateColumns(TruncateColumns(cols)) == TruncateColumns(cols)
  {
    var once := TruncateColumns(cols);
    forall i | 0 <= i < |cols| ensures TruncateColumn(once[i]) == once[i] {
      var c := cols[i];
      if c.isText {
        var cells := TruncatedCells(c.cells);
        assert TruncatedCells(cells) == cells;
      }
    }
  }

  /** The result of `process_data` on records: the frame `pd.DataFrame`
      builds, with the same rows and columns, every text cell truncated, and
      every column no transformation names unchanged except by truncation. */
  lemma ProcessedShape(data: seq<Json>, frameOf: seq<Json> -> Table, ts: seq<Transformation>, t: Table)
    requires data != [] && Processed(data, frameOf, ts) == Ok(t)
    ensures t.rows == frameOf(data).rows && |t.columns| == |frameOf(data).columns|
    ensures forall i :: 0 <= i < |t.columns| ==> t.columns[i].name == frameOf(data).columns[i].name
    ensures forall i :: 0 <= i < |t.columns| && Untransformed(ts, t.columns[i].name) ==>
      t.columns[i] == TruncateColumn(frameOf(data).columns[i])
    ensures forall i, j :: 0 <= i < |t.columns| && t.columns[i].isText && 0 <= j < |t.columns[i].cells| ==>
      t.columns[i].cells[j].Text? && |t.columns[i].cells[j].s| <= MaxCellLength
  {
    var start := frameOf(data);
    var cols := TransformAll(start.columns, ts).value;
    TransformAllKeepsOthers(start.columns, ts, cols);
    TruncateColumnsShape(cols);
  }

  // ---------------------------------------------------------------------
  // save_to_excel: the path

  /** `output_dir or config.OUTPUT_DIR`: `None` and `""` fall back. */
  function ResolveDir(cfg: Config.Settings, outputDir: Option<string>): string
  {
    if outputDir.Some? && outputDir.value != "" then outputDir.value else cfg.outputDir
  }

  /** The timestamp flag falls back only when it is `None`. */
  function ResolveTimestamp(cfg: Config.Settings, includeTimestamp: Option<bool>): bool
  {
    if includeTimestamp.Some? then includeTimestamp.value else cfg.includeTimestamp
  }

  /** `f"{filename}_{timestamp}.xlsx"` or `f"{filename}.xlsx"`. */
  function FileName(filename: string, stamped: bool, timestamp: string): string
  {
    if stamped then filename + "_" + timestamp + ".xlsx" else filename + ".xlsx"
  }

  /** `os.path.join(a, b)` on POSIX: an absolute `b` replaces `a`, and a
      `/` is put between them unless `a` is empty or already ends in one. */
  function PathJoin(a: string, b: string): string
  {
    if StartsWith(b, "/") then b
    else if a == "" || EndsWith(a, "/") then a + b
    else a + "/" + b
  }

  /** The `.xlsx` path `save_to_excel` writes, before any fallback. */
  function FilePath(dir: string, filename: string, stamped: bool, timestamp: string): string
  {
    PathJoin(dir, FileName(filename, stamped, timestamp))
  }

  /** The CSV fallback path: every `.xlsx` replaced by `.csv`. */
  function CsvPath(path: string): string
  {
    ReplaceAll(path, ".xlsx", ".csv")
  }

  /** The name part before `.xlsx`. */
  function Stem(filename: string, stamped: bool, timestamp: string): string
  {
    if stamped then filename + "_" + timestamp else filename
  }

  lemma FileNameHasStem(filename: string, stamped: bool, timestamp: string)
    ensures FileName(filename, stamped, timestamp) == Stem(filename, stamped, timestamp) + ".xlsx"
  {
  }

  /** Joining distributes over an appended extension. */
  lemma PathJoinExtension(a: string, b: string, ext: string)
    requires ext != [] && ext[0] != '/'
    ensures PathJoin(a, b + ext) == PathJoin(a, b) + ext
  {
    if StartsWith(b, "/") {
      assert (b + ext)[..1] == b[..1];
    } else if b == "" {
      assert b + ext == ext && !StartsWith(ext, "/");
    } else {
      assert (b + ext)[..1] == b[..1];
    }
  }

  /** When neither the directory nor the name part contains `.xlsx`, the
      CSV path is the `.xlsx` path with its extension changed. */
  lemma CsvPathSwapsExtension(dir: string, filename: string, stamped: bool, timestamp: string)
    requires !Contains(PathJoin(dir, Stem(filename, stamped, timestamp)), ".xlsx")
    ensures FilePath(dir, filename, stamped, timestamp) ==
            PathJoin(dir, Stem(filename, stamped, timestamp)) + ".xlsx"
    ensures CsvPath(FilePath(dir, filename, stamped, timestamp)) ==
            PathJoin(dir, Stem(filename, stamped, timestamp)) + ".csv"
  {
    var stem := Stem(filename, stamped, timestamp);
    FileNameHasStem(filename, stamped, timestamp);
    PathJoinExtension(dir, stem, ".xlsx");
    ReplaceAtEnd(PathJoin(dir, stem), ".xlsx", ".csv");
  }

  /** `os.path.join` of a relative name onto a directory that does not end
      in `/` puts one `/` between them. */
  lemma PathJoinPlain(a: string, b: string)
    requires |a| > 0 && a[|a| - 1] != '/'
    requires |b| > 0 && b[0] != '/'
    ensures PathJoin(a, b) == a + "/" + b
  {
    assert b[..1] != "/";
    assert a[|a| - 1..] != "/";
  }

  /** The replacement is not confined to the extension: a directory whose
      name ends in `.xlsx` is renamed in the CSV path too, as in
      `reports.xlsx/budget.xlsx` becoming `reports.csv/budget.csv`. */
  lemma CsvPathRewritesDirectory(dir: string, filename: string)
    requires '.' !in dir && '.' !in filename
    requires |filename| > 0 && filename[0] != '/'
    ensures FilePath(dir + ".xlsx", filename, false, "") == dir + ".xlsx/" + filename + ".xlsx"
    ensures CsvPath(FilePath(dir + ".xlsx", filename, false, "")) == dir + ".csv/" + filename + ".csv"
  {
    var d := dir + ".xlsx";
    assert d[|d| - 1] == 'x';
    PathJoinPlain(d, filename + ".xlsx");
    var tail := "/" + filename;
    assert '.' !in tail;
    AbsentFirstChar(dir, ".xlsx");
    AbsentFirstChar(tail, ".xlsx");
    ReplaceAtEnd(tail, ".xlsx", ".csv");
    ReplaceAfterStem(dir, ".xlsx", tail + ".xlsx", ".csv");
    assert dir + ".xlsx" + (tail + ".xlsx") == dir + ".xlsx/" + filename + ".xlsx";
    assert dir + ".csv" + (tail + ".csv") == dir + ".csv/" + filename + ".csv";
  }

  /** An explicit `False` for the timestamp flag is honoured, while an empty
      output directory falls back to the configured one:
      `test_output/test_file.xlsx`. */
  lemma PathExamples(cfg: Config.Settings, timestamp: string)
    ensures ResolveTimestamp(cfg, Some(false)) == false && ResolveDir(cfg, Some("")) == cfg.outputDir
    ensures FilePath(ResolveDir(cfg, Some("test_output")), "test_file", ResolveTimestamp(cfg, Some(false)), timestamp)
            == "test_output/test_file.xlsx"
  {
    assert "test_output"[10] == 't' && "test_file.xlsx"[0] == 't';
    PathJoinPlain("test_output", "test_file.xlsx");
  }

  // ---------------------------------------------------------------------
  // save_to_excel: control characters

  /** `x.replace('\r', ' ').replace('\n', ' ').replace('\t', ' ')`. */
  function Sanitise(s: string): string
  {
    ReplaceAll(ReplaceAll(ReplaceAll(s, "\r", " "), "\n", " "), "\t", " ")
  }

  /** A reference reading of one replace of a single character. */
  function SwapChar(s: string, c: char, d: char): (r: string)
    ensures |r| == |s|
  {
    seq(|s|, i requires 0 <= i < |s| => if s[i] == c then d else s[i])
  }

  lemma {:induction false} ReplaceOneChar(s: string, c: char, d: char)
    decreases |s|
    ensures ReplaceAll(s, [c], [d]) == SwapChar(s, c, d)
  {
    if |s| > 0 {
      ReplaceOneChar(s[1..], c, d);
      assert SwapChar(s, c, d) == [if s[0] == c then d else s[0]] + SwapChar(s[1..], c, d);
    }
  }

  /** The cleaned text: same length, no `\r`, `\n` or `\t`, each of those
      turned into a space and every other character kept. */
  lemma SanitiseClean(s: string)
    ensures |Sanitise(s)| == |s|
    ensures forall i :: 0 <= i < |s| ==>
      Sanitise(s)[i] == if s[i] == '\r' || s[i] == '\n' || s[i] == '\t' then ' ' else s[i]
    ensures NoControl(Sanitise(s))
  {
    ReplaceOneChar(s, '\r', ' ');
    var a := SwapChar(s, '\r', ' ');
    ReplaceOneChar(a, '\n', ' ');
    var b := SwapChar(a, '\n', ' ');
    ReplaceOneChar(b, '\t', ' ');
  }

  function SanitisedCells(cells: seq<Value>): seq<Value>
  {
    seq(|cells|, i requires 0 <= i < |cells| => Text(Sanitise(Render(cells[i]))))
  }

  function SanitiseColumn(c: Column): Column
  {
    if c.isText then Column(c.name, true, SanitisedCells(c.cells)) else c
  }

  function SanitiseColumns(cols: seq<Column>): seq<Column>
  {
    seq(|cols|, i requires 0 <= i < |cols| => SanitiseColumn(cols[i]))
  }

  // ---------------------------------------------------------------------
  // save_to_excel: the engines

  /** `[config.EXCEL_ENGINE, 'xlsxwriter', 'openpyxl']`. */
  function EngineList(configured: string): seq<string>
  {
    [configured, "xlsxwriter", "openpyxl"]
  }

  /** What the file system does with each write, and the clock reading
      used for the timestamp. `makeDirs` gives the exception
      `os.makedirs` raises, if any; `excelWrites(t, path, sheet, engine)`
      and `csvWrites(t, path)` say whether `to_excel` and `to_csv` succeed. */
  datatype WriteEnv = WriteEnv(
    makeDirs: string -> Option<Exception>,
    excelWrites: (Table, string, string, string) -> bool,
    csvWrites: (Table, string) -> bool,
    timestamp: string)

  /** One write the tool attempts. */
  datatype Attempt = ExcelWith(engine: string) | CsvTo(path: string)

  /** The path the engine loop returns and the writes it attempted. */
  datatype EngineRun = EngineRun(path: string, tried: seq<Attempt>)

  /** The engine loop over the engines still to try: the first engine that
      writes gives the `.xlsx` path; an engine that fails and equals `last`
      (the list's final entry) ends the loop with the CSV fallback, whose
      failure gives `""`; any other failing engine passes on to the next. */
  function RunEngines(t: Table, path: string, sheet: string, rest: seq<string>, last: string,
                      env: WriteEnv): EngineRun
    decreases |rest|
  {
    if |rest| == 0 then EngineRun("", [])
    else if env.excelWrites(t, path, sheet, rest[0]) then EngineRun(path, [ExcelWith(rest[0])])
    else if rest[0] == last then
      var csv := CsvPath(path);
      EngineRun(if env.csvWrites(t, csv) then csv else "", [ExcelWith(rest[0]), CsvTo(csv)])
    else
      var r := RunEngines(t, path, sheet, rest[1..], last, env);
      EngineRun(r.path, [ExcelWith(rest[0])] + r.tried)
  }

  /** The engine loop on a whole list. */
  function RunAll(t: Table, path: string, sheet: string, engines: seq<string>, env: WriteEnv): EngineRun
    requires |engines| > 0
  {
    RunEngines(t, path, sheet, engines, engines[|engines| - 1], env)
  }

  /** What `save_to_excel` returns or raises, the writes it attempted and the
      frame it leaves behind. */
  datatype Saved = Saved(result: Result<string, Exception>, tried: seq<Attempt>, frame: Table)

  function Save(cfg: Config.Settings, t: Table, filename: string, sheet: string, outputDir: Option<string>,
                includeTimestamp: Option<bool>, env: WriteEnv): Saved
  {
    if Empty(t) then Saved(Ok(""), [], t)
    else
      var dir := ResolveDir(cfg, outputDir);
      match env.makeDirs(dir)
      case Some(e) => Saved(Err(e), [], t)
      case None =>
        var path := FilePath(dir, filename, ResolveTimestamp(cfg, includeTimestamp), env.timestamp);
        var clean := Table(t.rows, SanitiseColumns(t.columns));
        var run := RunAll(clean, path, sheet, EngineList(cfg.excelEngine), env);
        Saved(Ok(run.path), run.tried, clean)
  }

  /** `save_to_excel`: the empty guard, the path, the sanitising loop over
      the columns of `df` (which the caller sees changed) and the loop over
      the engines with its early returns. */
  method SaveToExcel(cfg: Config.Settings, df: Frame, filename: string, sheetName: string, outputDir: Option<string>,
                     includeTimestamp: Option<bool>, env: WriteEnv)
    returns (r: Result<string, Exception>, ghost tried: seq<Attempt>)
    modifies df
    ensures Save(cfg, old(df.Contents()), filename, sheetName, outputDir, includeTimestamp, env)
            == Saved(r, tried, df.Contents())
  {
    if df.rows == 0 || |df.columns| == 0 {
      return Ok(""), [];
    }
    var dir := ResolveDir(cfg, outputDir);
    var stamped := ResolveTimestamp(cfg, includeTimestamp);
    var failure := env.makeDirs(dir);
    if failure.Some? {
      return Err(failure.value), [];
    }
    var path := FilePath(dir, filename, stamped, env.timestamp);
    SanitiseFrame(df);
    var written;
    written, tried := WriteWithEngines(df.Contents(), path, sheetName, EngineList(cfg.excelEngine), env);
    r := Ok(written);
  }

  /** The sanitising loop: every text column of `df` replaced by its
      cleaned strings, in place. */
  method SanitiseFrame(df: Frame)
    modifies df
    ensures df.Contents() == Table(old(df.rows), SanitiseColumns(old(df.columns)))
  {
    ghost var original := df.columns;
    var c := 0;
    while c < |df.columns|
      invariant 0 <= c <= |df.columns| == |original|
      invariant df.rows == old(df.rows)
      invariant forall j :: 0 <= j < c ==> df.columns[j] == SanitiseColumn(original[j])
      invariant forall j :: c <= j < |df.columns| ==> df.columns[j] == original[j]
    {
      if df.columns[c].isText {
        df.SetColumn(c, true, SanitisedCells(df.columns[c].cells));
      }
      c := c + 1;
    }
    assert df.columns == SanitiseColumns(original);
  }

  /** The loop over the engines, with its early returns: the path it
      returns and the writes it attempts are those of `RunAll`. */
  method WriteWithEngines(table: Table, path: string, sheetName: string, engines: seq<string>, env: WriteEnv)
    returns (written: string, ghost tried: seq<Attempt>)
    requires |engines| > 0
    ensures EngineRun(written, tried) == RunAll(table, path, sheetName, engines, env)
  {
    ghost var whole := RunAll(table, path, sheetName, engines, env);
    var last := engines[|engines| - 1];
    tried := [];
    var i := 0;
    while i < |engines|
      invariant 0 <= i < |engines|
      invariant RunEngines(table, path, sheetName, engines[i..], last, env).path == whole.path
      invariant tried + RunEngines(table, path, sheetName, engines[i..], last, env).tried == whole.tried
    {
      var engine := engines[i];
      assert engines[i..][0] == engine && engines[i..][1..] == engines[i + 1..];
      if env.excelWrites(table, path, sheetName, engine) {
        return path, tried + [ExcelWith(engine)];
      }
      if engine == last {
        var csvPath := CsvPath(path);
        if env.csvWrites(table, csvPath) {
          return csvPath, tried + [ExcelWith(engine), CsvTo(csvPath)];
        }
        return "", tried + [ExcelWith(engine), CsvTo(csvPath)];
      }
      tried := tried + [ExcelWith(engine)];
      i := i + 1;
    }
    // the final `return ""` after the loop
    assert false;
    written := "";
  }

  // ---------------------------------------------------------------------
  // Properties of the engine loop

  function ExcelAttempts(engines: seq<string>): (r: seq<Attempt>)
    ensures |r| == |engines|
  {
    seq(|engines|, i requires 0 <= i < |engines| => ExcelWith(engines[i]))
  }

  /** The first engine that writes gives the `.xlsx` path, provided every
      engine before it failed and none of them equals the last entry. */
  lemma {:induction false} EngineSucceedsAt(t: Table, path: string, sheet: string, rest: seq<string>,
                                            last: string, env: WriteEnv, m: nat)
    decreases m
    requires m < |rest| && env.excelWrites(t, path, sheet, rest[m])
    requires forall l :: 0 <= l < m ==> !env.excelWrites(t, path, sheet, rest[l]) && rest[l] != last
    ensures RunEngines(t, path, sheet, rest, last, env) == EngineRun(path, ExcelAttempts(rest[..m + 1]))
  {
    if m == 0 {
      assert rest[..1] == [rest[0]];
    } else {
      EngineSucceedsAt(t, path, sheet, rest[1..], last, env, m - 1);
      assert rest[..m + 1] == [rest[0]] + rest[1..][..m];
    }
  }

  /** The CSV fallback comes right after the first entry equal to the last
      one, once that entry and every engine before it have failed: engines
      after it are never tried. */
  lemma {:induction false} EngineFallsBackAt(t: Table, path: string, sheet: string, rest: seq<string>,
                                             last: string, env: WriteEnv, j: nat)
    decreases j
    requires j < |rest| && rest[j] == last
    requires forall l :: 0 <= l < j ==> rest[l] != last
    requires forall l :: 0 <= l <= j ==> !env.excelWrites(t, path, sheet, rest[l])
    ensures RunEngines(t, path, sheet, rest, last, env) ==
      EngineRun(if env.csvWrites(t, CsvPath(path)) then CsvPath(path) else "",
                ExcelAttempts(rest[..j + 1]) + [CsvTo(CsvPath(path))])
  {
    if j == 0 {
      assert rest[..1] == [rest[0]];
    } else {
      EngineFallsBackAt(t, path, sheet, rest[1..], last, env, j - 1);
      assert rest[..j + 1] == [rest[0]] + rest[1..][..j];
    }
  }

  /** With the default configuration (`openpyxl`, which is also the list's
      last entry) a failure of the first engine goes straight to the CSV
      fallback: `xlsxwriter` is never tried. */
  lemma DefaultEngineSkipsXlsxwriter(t: Table, path: string, sheet: string, env: WriteEnv)
    requires !env.excelWrites(t, path, sheet, Config.Defaults.excelEngine)
    ensures var run := RunAll(t, path, sheet, EngineList(Config.Defaults.excelEngine), env);
      run.tried == [ExcelWith("openpyxl"), CsvTo(CsvPath(path))]
      && ExcelWith("xlsxwriter") !in run.tried
  {
  }

  /** The reading the comment "If we've tried all engines" suggests: every
      engine in order, then CSV. */
  function TryAll(t: Table, path: string, sheet: string, rest: seq<string>, env: WriteEnv): EngineRun
    decreases |rest|
  {
    if |rest| == 0 then
      var csv := CsvPath(path);
      EngineRun(if env.csvWrites(t, csv) then csv else "", [CsvTo(csv)])
    else if env.excelWrites(t, path, sheet, rest[0]) then EngineRun(path, [ExcelWith(rest[0])])
    else
      var r := TryAll(t, path, sheet, rest[1..], env);
      EngineRun(r.path, [ExcelWith(rest[0])] + r.tried)
  }

  /** The loop is that reading exactly when the last entry occurs nowhere
      earlier in the list. */
  lemma {:induction false} UniqueLastTriesAll(t: Table, path: string, sheet: string, rest: seq<string>,
                                              last: string, env: WriteEnv)
    decreases |rest|
    requires |rest| > 0 && rest[|rest| - 1] == last
    requires forall k :: 0 <= k < |rest| - 1 ==> rest[k] != last
    ensures RunEngines(t, path, sheet, rest, last, env) == TryAll(t, path, sheet, rest, env)
  {
    if |rest| > 1 {
      UniqueLastTriesAll(t, path, sheet, rest[1..], last, env);
    } else {
      assert rest[1..] == [];
    }
  }

  /** With the default list the two differ: when only `xlsxwriter` can
      write, the loop falls back to CSV while trying every engine would have
      written the `.xlsx` file. */
  lemma DefaultListDiffersFromTryAll(t: Table, path: string, sheet: string)
    ensures var env := WriteEnv((d: string) => None, (t': Table, p: string, s: string, e: string) => e == "xlsxwriter",
                                (t': Table, p: string) => true, "");
      && RunAll(t, path, sheet, EngineList(Config.Defaults.excelEngine), env).path == CsvPath(path)
      && TryAll(t, path, sheet, EngineList(Config.Defaults.excelEngine), env).path == path
  {
  }

  // ---------------------------------------------------------------------
  // Properties of save_to_excel

  /** An empty frame writes nothing and is returned as `""`. */
  lemma SaveEmpty(cfg: Config.Settings, t: Table, filename: string, sheet: string, outputDir: Option<string>,
                  includeTimestamp: Option<bool>, env: WriteEnv)
    requires Empty(t)
    ensures Save(cfg, t, filename, sheet, outputDir, includeTimestamp, env) == Saved(Ok(""), [], t)
  {
  }

  /** No `\r`, `\n` or `\t` in the text. */
  predicate NoControl(s: string)
  {
    forall k :: 0 <= k < |s| ==> s[k] != '\r' && s[k] != '\n' && s[k] != '\t'
  }

  /** The engine loop ends with the `.xlsx` path, the CSV path or `""`. */
  lemma {:induction false} EnginePaths(t: Table, path: string, sheet: string, rest: seq<string>,
                                       last: string, env: WriteEnv)
    decreases |rest|
    ensures var p := RunEngines(t, path, sheet, rest, last, env).path;
      p == path || p == CsvPath(path) || p == ""
  {
    if |rest| > 0 && !env.excelWrites(t, path, sheet, rest[0]) && rest[0] != last {
      EnginePaths(t, path, sheet, rest[1..], last, env);
    }
  }

  /** A non-empty frame whose directory can be made comes back as the
      `.xlsx` path, the CSV path or `""`: no exception escapes the writes. */
  lemma SaveOutcomes(cfg: Config.Settings, t: Table, filename: string, sheet: string, outputDir: Option<string>,
                     includeTimestamp: Option<bool>, env: WriteEnv)
    requires !Empty(t) && env.makeDirs(ResolveDir(cfg, outputDir)).None?
    ensures var path := FilePath(ResolveDir(cfg, outputDir), filename, ResolveTimestamp(cfg, includeTimestamp), env.timestamp);
      var result := Save(cfg, t, filename, sheet, outputDir, includeTimestamp, env).result;
      result.Ok? && (result.value == path || result.value == CsvPath(path) || result.value == "")
  {
    var path := FilePath(ResolveDir(cfg, outputDir), filename, ResolveTimestamp(cfg, includeTimestamp), env.timestamp);
    var clean := Table(t.rows, SanitiseColumns(t.columns));
    EnginePaths(clean, path, sheet, EngineList(cfg.excelEngine), "openpyxl", env);
  }

  /** Every write sees, and the caller is left with, the sanitised frame: the
      same rows and columns, each text cell a string of the original length
      without control characters, the other columns untouched. */
  lemma SaveSanitises(cfg: Config.Settings, t: Table, filename: string, sheet: string, outputDir: Option<string>,
                      includeTimestamp: Option<bool>, env: WriteEnv)
    requires !Empty(t) && env.makeDirs(ResolveDir(cfg, outputDir)).None?
    ensures var frame := Save(cfg, t, filename, sheet, outputDir, includeTimestamp, env).frame;
      && frame.rows == t.rows && |frame.columns| == |t.columns|
      && (forall i :: 0 <= i < |t.columns| ==>
            && frame.columns[i].name == t.columns[i].name
            && frame.columns[i].isText == t.columns[i].isText
            && |frame.columns[i].cells| == |t.columns[i].cells|
            && (!t.columns[i].isText ==> frame.columns[i] == t.columns[i]))
      && (forall i, j :: 0 <= i < |t.columns| && t.columns[i].isText && 0 <= j < |t.columns[i].cells| ==>
            && frame.columns[i].cells[j].Text?
            && |frame.columns[i].cells[j].s| == |Render(t.columns[i].cells[j])|
            && NoControl(frame.columns[i].cells[j].s))
  {
    forall i, j | 0 <= i < |t.columns| && t.columns[i].isText && 0 <= j < |t.columns[i].cells|
      ensures NoControl(Sanitise(Render(t.columns[i].cells[j])))
      ensures |Sanitise(Render(t.columns[i].cells[j]))| == |Render(t.columns[i].cells[j])|
    {
      SanitiseClean(Render(t.columns[i].cells[j]));
    }
  }

  /** A failing `os.makedirs` is raised before anything is written or
      changed. */
  lemma SaveDirectoryFailure(cfg: Config.Settings, t: Table, filename: string, sheet: string, outputDir: Option<string>,
                             includeTimestamp: Option<bool>, env: WriteEnv)
    requires !Empty(t) && env.makeDirs(ResolveDir(cfg, outputDir)).Some?
    ensures Save(cfg, t, filename, sheet, outputDir, includeTimestamp, env)
            == Saved(Err(env.makeDirs(ResolveDir(cfg, outputDir)).value), [], t)
  {
  }
}
