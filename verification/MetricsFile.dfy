/** One metrics file under crashes, resumes and schema growth (`MetricsCSV`,
    vrl/trainers/metrics_io.py). A row is a sequence of cells; CSV quoting is not modelled. */
module MetricsFile {
  import opened Sequences

  /** A cell that parses as an integer, or any other text. */
  datatype Cell = Number(value: int) | Text(text: string)

  const NAN := Text("nan")

  type Row = seq<Cell>

  /** `torn` marks an unterminated last line. A file without one complete line has no header. */
  datatype File =
    | Missing
    | Headless
    | Present(columns: seq<string>, rows: seq<Row>, torn: bool)

  predicate SafeName(name: string) {
    name != "" && forall i :: 0 <= i < |name| ==> name[i] != ',' && name[i] != '\r' && name[i] != '\n'
  }

  predicate GoodColumns(columns: seq<string>) {
    columns != [] && NoDup(columns) && forall c :: c in columns ==> SafeName(c)
  }

  // ---- The ordered-subsequence test ---------------------------------------------------------

  /** `a` can be read off `b` from left to right. */
  ghost predicate Embeds(a: seq<string>, b: seq<string>, at: seq<int>) {
    |at| == |a| && StrictlyIncreasing(at) && forall i :: 0 <= i < |a| ==> 0 <= at[i] < |b| && b[at[i]] == a[i]
  }

  ghost predicate Subsequence(a: seq<string>, b: seq<string>) {
    exists at :: Embeds(a, b, at)
  }

  /** How far into `b` the first occurrences of `a` reach; `None` when `a` does not fit. */
  function Consume(a: seq<string>, b: seq<string>, from: nat): Option<nat>
    requires from <= |b|
    decreases |a|, |b| - from
  {
    if a == [] then Some(from)
    else if from == |b| then None
    else if b[from] == a[0] then Consume(a[1..], b, from + 1)
    else Consume(a, b, from + 1)
  }

  lemma {:induction false} ConsumeEmbeds(a: seq<string>, b: seq<string>, from: nat) returns (at: seq<int>)
    requires from <= |b| && Consume(a, b, from).Some?
    ensures Embeds(a, b, at) && forall i :: 0 <= i < |at| ==> at[i] >= from
    decreases |a|, |b| - from
  {
    if a == [] {
      at := [];
    } else if b[from] == a[0] {
      var rest := ConsumeEmbeds(a[1..], b, from + 1);
      at := [from] + rest;
    } else {
      at := ConsumeEmbeds(a, b, from + 1);
    }
  }

  lemma {:induction false} EmbedsConsume(a: seq<string>, b: seq<string>, at: seq<int>, from: nat)
    requires from <= |b| && Embeds(a, b, at) && forall i :: 0 <= i < |at| ==> at[i] >= from
    ensures Consume(a, b, from).Some?
    decreases |a|, |b| - from
  {
    if a != [] {
      assert from <= at[0] < |b|;
      if b[from] == a[0] {
        assert forall i :: 0 < i < |at| ==> at[0] < at[i];
        EmbedsConsume(a[1..], b, at[1..], from + 1);
      } else {
        EmbedsConsume(a, b, at, from + 1);
      }
    }
  }

  /** `all(name in remaining for name in existing)` over one shared iterator accepts exactly the
      ordered subsequences. */
  method IteratorTest(existing: seq<string>, columns: seq<string>) returns (fits: bool)
    ensures fits <==> Subsequence(existing, columns)
  {
    var next := 0;
    fits := true;
    for i := 0 to |existing|
      invariant next <= |columns|
      invariant Consume(existing, columns, 0) == Consume(existing[i..], columns, next)
    {
      assert existing[i..][0] == existing[i] && existing[i..][1..] == existing[i + 1..];
      while next < |columns| && columns[next] != existing[i]
        invariant next <= |columns|
        invariant Consume(existing, columns, 0) == Consume(existing[i..], columns, next)
      {
        next := next + 1;
      }
      if next == |columns| {
        TestDecides(existing, columns);
        return false;
      }
      next := next + 1;
    }
    TestDecides(existing, columns);
  }

  lemma TestDecides(a: seq<string>, b: seq<string>)
    ensures Subsequence(a, b) <==> Consume(a, b, 0).Some?
  {
    if Consume(a, b, 0).Some? {
      var at := ConsumeEmbeds(a, b, 0);
    }
    if at :| Embeds(a, b, at) {
      EmbedsConsume(a, b, at, 0);
    }
  }

  // ---- Initialization -------------------------------------------------------------------------

  function PositionIn(columns: seq<string>, column: string, row: Row): Option<int> {
    if column in columns && |row| == |columns| && row[IndexOf(columns, column)].Number? then
      Some(row[IndexOf(columns, column)].value)
    else None
  }

  /** Every row has the header's width and a position, and positions strictly increase from zero. */
  ghost predicate WellFormed(columns: seq<string>, column: string, rows: seq<Row>) {
    && (forall i :: 0 <= i < |rows| ==> |rows[i]| == |columns| && PositionIn(columns, column, rows[i]).Some?)
    && (forall i :: 0 <= i < |rows| ==> PositionIn(columns, column, rows[i]).value >= 0)
    && forall i, j :: 0 <= i < j < |rows| ==>
         PositionIn(columns, column, rows[i]).value < PositionIn(columns, column, rows[j]).value
  }

  /** A row laid out again by column name, `nan` in the added columns. */
  function Relaid(existing: seq<string>, columns: seq<string>, row: Row): (r: Row)
    requires |row| == |existing|
    ensures |r| == |columns|
    ensures forall i :: 0 <= i < |columns| ==>
              r[i] == if columns[i] in existing then row[IndexOf(existing, columns[i])] else NAN
  {
    seq(|columns|, i requires 0 <= i < |columns| =>
          if columns[i] in existing then row[IndexOf(existing, columns[i])] else NAN)
  }

  /** The rows before position `resume`, laid out for `columns`. */
  function Kept(existing: seq<string>, columns: seq<string>, column: string, resume: int, rows: seq<Row>): seq<Row> {
    if rows == [] then []
    else
      (if |rows[0]| == |existing| && PositionIn(existing, column, rows[0]).Some?
          && PositionIn(existing, column, rows[0]).value < resume
       then [Relaid(existing, columns, rows[0])] else [])
      + Kept(existing, columns, column, resume, rows[1..])
  }

  ghost predicate Resumable(f: File, columns: seq<string>, column: string) {
    && f.Present? && f.columns != [] && NoDup(f.columns) && Subsequence(f.columns, columns)
    && column in f.columns && WellFormed(f.columns, column, f.rows)
  }

  /** `_initialize`: `None` is the error, which leaves the file alone. */
  ghost function Initialized(f: File, columns: seq<string>, resumeAt: Option<(string, int)>): Option<File> {
    if !GoodColumns(columns) then None
    else if resumeAt.None? then Some(Present(columns, [], false))
    else
      var (column, resume) := resumeAt.value;
      if resume < 0 || column !in columns then None
      else if f.Missing? then Some(Present(columns, [], false))
      else if !Resumable(f, columns, column) then None
      else Some(Present(columns, Kept(f.columns, columns, column, resume, f.rows), false))
  }

  // ---- Rows by position -----------------------------------------------------------------------

  function RowAt(columns: seq<string>, column: string, rows: seq<Row>, p: int): Option<Row> {
    if rows == [] then None
    else if PositionIn(columns, column, rows[0]) == Some(p) then Some(rows[0])
    else RowAt(columns, column, rows[1..], p)
  }

  lemma RelaidPosition(existing: seq<string>, columns: seq<string>, column: string, row: Row)
    requires |row| == |existing| && column in existing && column in columns && NoDup(columns)
    ensures PositionIn(columns, column, Relaid(existing, columns, row)) == PositionIn(existing, column, row)
  {
  }

  lemma RelaidSame(columns: seq<string>, row: Row)
    requires |row| == |columns| && NoDup(columns)
    ensures Relaid(columns, columns, row) == row
  {
    forall i | 0 <= i < |columns| ensures IndexOf(columns, columns[i]) == i {
    }
  }

  /** Laying a row out for a schema in between first makes no difference. */
  lemma RelaidTwice(existing: seq<string>, between: seq<string>, columns: seq<string>, row: Row)
    requires |row| == |existing| && forall c :: c in existing ==> c in between
    ensures Relaid(between, columns, Relaid(existing, between, row)) == Relaid(existing, columns, row)
  {
  }

  /** Every position lies above `low`. */
  ghost predicate Above(columns: seq<string>, column: string, rows: seq<Row>, low: int) {
    forall i :: 0 <= i < |rows| ==>
        PositionIn(columns, column, rows[i]).Some? && PositionIn(columns, column, rows[i]).value > low
  }

  ghost predicate Below(columns: seq<string>, column: string, rows: seq<Row>, high: int) {
    forall i :: 0 <= i < |rows| ==>
        PositionIn(columns, column, rows[i]).Some? && PositionIn(columns, column, rows[i]).value < high
  }

  lemma TailWellFormed(columns: seq<string>, column: string, rows: seq<Row>)
    requires rows != [] && WellFormed(columns, column, rows)
    ensures WellFormed(columns, column, rows[1..])
    ensures Above(columns, column, rows[1..], PositionIn(columns, column, rows[0]).value)
  {
  }

  lemma ConsWellFormed(columns: seq<string>, column: string, row: Row, rows: seq<Row>)
    requires |row| == |columns| && PositionIn(columns, column, row).Some? && PositionIn(columns, column, row).value >= 0
    requires WellFormed(columns, column, rows) && Above(columns, column, rows, PositionIn(columns, column, row).value)
    ensures WellFormed(columns, column, [row] + rows)
  {
  }

  lemma AppendWellFormed(columns: seq<string>, column: string, a: seq<Row>, b: seq<Row>, middle: int)
    requires WellFormed(columns, column, a) && WellFormed(columns, column, b)
    requires Below(columns, column, a, middle) && Above(columns, column, b, middle - 1)
    ensures WellFormed(columns, column, a + b)
  {
  }

  predicate Keeps(existing: seq<string>, column: string, resume: int, row: Row) {
    |row| == |existing| && PositionIn(existing, column, row).Some? && PositionIn(existing, column, row).value < resume
  }

  lemma KeptStep(existing: seq<string>, columns: seq<string>, column: string, resume: int, row: Row, rows: seq<Row>)
    ensures Kept(existing, columns, column, resume, [row] + rows) ==
              (if Keeps(existing, column, resume, row) then [Relaid(existing, columns, row)] else [])
              + Kept(existing, columns, column, resume, rows)
  {
    assert ([row] + rows)[1..] == rows;
  }

  /** What stays of well-formed rows: exactly those before the resume position, laid out again. */
  lemma {:induction false} KeptOk(existing: seq<string>, columns: seq<string>, column: string, resume: int,
      rows: seq<Row>, low: int)
    requires column in existing && column in columns && NoDup(columns)
    requires WellFormed(existing, column, rows) && Above(existing, column, rows, low)
    ensures var kept := Kept(existing, columns, column, resume, rows);
            && WellFormed(columns, column, kept) && Below(columns, column, kept, resume)
                  && Above(columns, column, kept, low)
  {
    if rows != [] {
      var here := PositionIn(existing, column, rows[0]).value;
      TailWellFormed(existing, column, rows);
      KeptOk(existing, columns, column, resume, rows[1..], here);
      RelaidPosition(existing, columns, column, rows[0]);
      var rest := Kept(existing, columns, column, resume, rows[1..]);
      if Keeps(existing, column, resume, rows[0]) {
        ConsWellFormed(columns, column, Relaid(existing, columns, rows[0]), rest);
      }
    }
  }

  lemma {:induction false} KeptRowAt(existing: seq<string>, columns: seq<string>, column: string, resume: int,
      rows: seq<Row>, p: int)
    requires column in existing && column in columns && NoDup(columns) && WellFormed(existing, column, rows)
    ensures RowAt(columns, column, Kept(existing, columns, column, resume, rows), p) ==
              RelaidOption(existing, columns, if p < resume then RowAt(existing, column, rows, p) else None)
  {
    if rows != [] {
      var row, rest := rows[0], Kept(existing, columns, column, resume, rows[1..]);
      TailWellFormed(existing, column, rows);
      KeptRowAt(existing, columns, column, resume, rows[1..], p);
      RelaidPosition(existing, columns, column, row);
      KeptStep(existing, columns, column, resume, row, rows[1..]);
      assert rows == [row] + rows[1..];
      if Keeps(existing, column, resume, row) {
        assert ([Relaid(existing, columns, row)] + rest)[1..] == rest;
      } else {
        assert [] + rest == rest;
        if PositionIn(existing, column, row) == Some(p) {
          NoRowBelow(existing, column, rows[1..], p);
        }
      }
    }
  }

  function RelaidOption(existing: seq<string>, columns: seq<string>, row: Option<Row>): Option<Row> {
    match row
    case Some(r) => if |r| == |existing| then Some(Relaid(existing, columns, r)) else None
    case None => None
  }

  lemma {:induction false} NoRowBelow(columns: seq<string>, column: string, rows: seq<Row>, p: int)
    requires WellFormed(columns, column, rows)
    requires forall i :: 0 <= i < |rows| ==> PositionIn(columns, column, rows[i]) != Some(p)
    ensures RowAt(columns, column, rows, p) == None
  {
    if rows != [] {
      TailWellFormed(columns, column, rows);
      NoRowBelow(columns, column, rows[1..], p);
    }
  }

  lemma {:induction false} KeptAgain(
    existing: seq<string>, between: seq<string>, columns: seq<string>, column: string, resume: int, rows: seq<Row>)
    requires column in existing && column in between && NoDup(between)
    requires forall c :: c in existing ==> c in between
    ensures Kept(between, columns, column, resume, Kept(existing, between, column, resume, rows))
         == Kept(existing, columns, column, resume, rows)
  {
    if rows != [] {
      var row, rest := rows[0], Kept(existing, between, column, resume, rows[1..]);
      KeptAgain(existing, between, columns, column, resume, rows[1..]);
      KeptStep(existing, between, column, resume, row, rows[1..]);
      KeptStep(existing, columns, column, resume, row, rows[1..]);
      assert rows == [row] + rows[1..];
      if Keeps(existing, column, resume, row) {
        RelaidPosition(existing, between, column, row);
        RelaidTwice(existing, between, columns, row);
        KeptStep(between, columns, column, resume, Relaid(existing, between, row), rest);
      } else {
        assert [] + rest == rest;
      }
    }
  }

  lemma SubsequenceMembers(a: seq<string>, b: seq<string>)
    requires Subsequence(a, b)
    ensures forall c :: c in a ==> c in b
  {
    var at :| Embeds(a, b, at);
    forall c | c in a ensures c in b {
      var i := IndexOf(a, c);
      assert b[at[i]] == c;
    }
  }

  lemma SubsequenceTransitive(a: seq<string>, b: seq<string>, c: seq<string>)
    requires Subsequence(a, b) && Subsequence(b, c)
    ensures Subsequence(a, c)
  {
    var at :| Embeds(a, b, at);
    var bt :| Embeds(b, c, bt);
    var ct := seq(|a|, i requires 0 <= i < |a| => bt[at[i]]);
    assert Embeds(a, c, ct);
  }

  lemma SubsequenceReflexive(a: seq<string>)
    ensures Subsequence(a, a)
  {
    assert Embeds(a, a, seq(|a|, i => i));
  }

  // ---- Idempotence and migration --------------------------------------------------------------

  lemma KeptTwice(f: File, columns: seq<string>, column: string, resume: int)
    requires Resumable(f, columns, column) && GoodColumns(columns) && column in columns
    ensures var kept := Kept(f.columns, columns, column, resume, f.rows);
            WellFormed(columns, column, kept) && Kept(columns, columns, column, resume, kept) == kept
  {
    KeptOk(f.columns, columns, column, resume, f.rows, -1);
    SubsequenceMembers(f.columns, columns);
    KeptAgain(f.columns, columns, columns, column, resume, f.rows);
  }

  /** Initializing twice is initializing once. */
  lemma InitializeIdempotent(f: File, columns: seq<string>, column: string, resume: int)
    requires Initialized(f, columns, Some((column, resume))).Some?
    ensures var g := Initialized(f, columns, Some((column, resume))).value;
            Initialized(g, columns, Some((column, resume))) == Some(g)
  {
    SubsequenceReflexive(columns);
    if f.Present? {
      KeptTwice(f, columns, column, resume);
      hide Kept, WellFormed, Subsequence;
    }
  }

  /** Migrating through an intermediate schema gives the same file as migrating directly. */
  lemma MigrateThrough(f: File, between: seq<string>, columns: seq<string>, column: string, resume: int)
    requires f.Present? && Initialized(f, between, Some((column, resume))).Some?
    requires GoodColumns(columns) && Subsequence(between, columns)
    ensures var g := Initialized(f, between, Some((column, resume))).value;
            && Initialized(g, columns, Some((column, resume))).Some?
            && Initialized(g, columns, Some((column, resume))) == Initialized(f, columns, Some((column, resume)))
  {
    SubsequenceTransitive(f.columns, between, columns);
    SubsequenceMembers(f.columns, between);
    SubsequenceMembers(between, columns);
    KeptOk(f.columns, between, column, resume, f.rows, -1);
    KeptAgain(f.columns, between, columns, column, resume, f.rows);
  }

  // ---- Crash, resume and append cycles --------------------------------------------------------

  /** One run: it starts afresh or at the position of its checkpoint, appends rows from there on under
      its own schema, and may be cut off in the middle of one more. `cut` says that it is killed
      while it initializes the file. */
  datatype Life = Life(columns: seq<string>, start: Option<int>, written: seq<Row>, torn: bool, cut: bool) {
    function ResumeAt(column: string): Option<(string, int)> {
      match start
      case Some(resume) => Some((column, resume))
      case None => None
    }

    /** From where the run starts, every row is its own. */
    predicate Owns(p: int) { start.None? || start.value <= p }
  }

  ghost predicate GoodLife(column: string, life: Life) {
    && column in life.columns && WellFormed(life.columns, column, life.written)
    && forall i :: 0 <= i < |life.written| ==> life.Owns(PositionIn(life.columns, column, life.written[i]).value)
  }

  ghost predicate Starts(f: File, column: string, life: Life) {
    Initialized(f, life.columns, life.ResumeAt(column)).Some?
  }

  /** Initialization writes the header in place, which is not atomic; every other change it makes is. */
  predicate WritesHeader(f: File, life: Life) { life.start.None? || f.Missing? }

  /** The file after one run. A run whose initialization fails writes nothing; one killed in the middle
      of writing the header leaves a file without a complete line. */
  ghost function AfterLife(f: File, column: string, life: Life): File {
    match Initialized(f, life.columns, life.ResumeAt(column))
    case Some(Present(columns, rows, _)) =>
      if !life.cut then Present(columns, rows + life.written, life.torn)
      else if WritesHeader(f, life) then Headless
      else f
    case _ => f
  }

  ghost function AfterLives(f: File, column: string, lives: seq<Life>): File {
    if lives == [] then f else AfterLife(AfterLives(f, column, lives[..|lives| - 1]), column, lives[|lives| - 1])
  }

  /** Where the row at one position comes from: the file before all runs, a run, or nowhere any more. */
  datatype Source = Old | Wrote(life: Life) | Lost

  /** The last run that could start and was not killed doing so decides, from its start on; a header
      torn before that loses everything. */
  ghost function Author(f: File, column: string, lives: seq<Life>, p: int): Source {
    if lives == [] then Old
    else
      var life, rest := lives[|lives| - 1], lives[..|lives| - 1];
      var before := AfterLives(f, column, rest);
      if !Starts(before, column, life) then Author(f, column, rest, p)
      else if life.cut then if WritesHeader(before, life) then Lost else Author(f, column, rest, p)
      else if life.Owns(p) then Wrote(life)
      else Author(f, column, rest, p)
  }

  ghost predicate Sane(f: File, column: string) {
    f.Present? ==> GoodColumns(f.columns) && column in f.columns && WellFormed(f.columns, column, f.rows)
  }

  lemma {:induction false} AppendRowAt(columns: seq<string>, column: string, a: seq<Row>, b: seq<Row>, p: int)
    ensures RowAt(columns, column, a + b, p) ==
              if RowAt(columns, column, a, p).Some? then RowAt(columns, column, a, p) else RowAt(columns, column, b, p)
  {
    if a == [] {
      assert a + b == b;
    } else {
      AppendRowAt(columns, column, a[1..], b, p);
      assert (a + b)[1..] == a[1..] + b;
    }
  }

  lemma {:induction false} RowAtPosition(columns: seq<string>, column: string, rows: seq<Row>, p: int)
    requires RowAt(columns, column, rows, p).Some?
    ensures exists i :: 0 <= i < |rows| && rows[i] == RowAt(columns, column, rows, p).value
              && PositionIn(columns, column, rows[i]) == Some(p)
  {
    if PositionIn(columns, column, rows[0]) != Some(p) {
      RowAtPosition(columns, column, rows[1..], p);
      var i :| 0 <= i < |rows[1..]| && rows[1..][i] == RowAt(columns, column, rows[1..], p).value
          && PositionIn(columns, column, rows[1..][i]) == Some(p);
      assert rows[i + 1] == rows[1..][i];
    }
  }

  /** What initialization leaves for one run to append to. */
  lemma StartOk(f: File, column: string, life: Life, p: int)
    requires Sane(f, column) && Starts(f, column, life) && column in life.columns
    ensures var g := Initialized(f, life.columns, life.ResumeAt(column)).value;
            && g.Present? && g.columns == life.columns && GoodColumns(g.columns)
            && WellFormed(g.columns, column, g.rows)
            && (if life.start.None? then g.rows == [] else Below(g.columns, column, g.rows, life.start.value))
            && RowAt(g.columns, column, g.rows, p) == if life.Owns(p) then None else OldRow(f, life.columns, column, p)
  {
    if f.Present? && life.start.Some? {
      KeptOk(f.columns, life.columns, column, life.start.value, f.rows, -1);
      KeptRowAt(f.columns, life.columns, column, life.start.value, f.rows, p);
    }
  }

  /** The row of the file at `p`, laid out for `columns`. */
  function OldRow(f: File, columns: seq<string>, column: string, p: int): Option<Row> {
    if f.Present? then RelaidOption(f.columns, columns, RowAt(f.columns, column, f.rows, p)) else None
  }

  /** One run leaves a sane file: rows before its start stay, from there on they are its own. */
  lemma LifeOk(f: File, column: string, life: Life, p: int)
    requires Sane(f, column) && Starts(f, column, life) && !life.cut && GoodLife(column, life)
    ensures var g := AfterLife(f, column, life);
            && g.Present? && g.columns == life.columns && Sane(g, column)
            && RowAt(life.columns, column, g.rows, p) ==
                 if life.Owns(p) then RowAt(life.columns, column, life.written, p)
                     else OldRow(f, life.columns, column, p)
  {
    StartOk(f, column, life, p);
    var start := Initialized(f, life.columns, life.ResumeAt(column)).value;
    hide Initialized, OldRow;
    if life.start.Some? {
      AppendWellFormed(life.columns, column, start.rows, life.written, life.start.value);
    } else {
      assert start.rows + life.written == life.written;
    }
    AppendRowAt(life.columns, column, start.rows, life.written, p);
    if RowAt(life.columns, column, life.written, p).Some? {
      RowAtPosition(life.columns, column, life.written, p);
    }
  }

  lemma RelaidOptionTwice(existing: seq<string>, between: seq<string>, columns: seq<string>, row: Option<Row>)
    requires forall c :: c in existing ==> c in between
    ensures RelaidOption(between, columns, RelaidOption(existing, between, row)) == RelaidOption(existing, columns, row)
  {
    if row.Some? && |row.value| == |existing| {
      RelaidTwice(existing, between, columns, row.value);
    }
  }

  /** The row of a source at `p`, laid out for `columns`. */
  function SourceRow(f: File, column: string, source: Source, columns: seq<string>, p: int): Option<Row> {
    match source
    case Wrote(life) => RelaidOption(life.columns, columns, RowAt(life.columns, column, life.written, p))
    case Old => OldRow(f, columns, column, p)
    case Lost => None
  }

  /** The columns of a source are columns of the file. */
  ghost predicate Fits(f: File, source: Source, columns: seq<string>) {
    && (source.Wrote? ==> forall c :: c in source.life.columns ==> c in columns)
    && (source.Old? && f.Present? ==> forall c :: c in f.columns ==> c in columns)
  }

  /** Over any sequence of runs, fresh or resumed, with any schemas, some of them unable to start, killed
      while they initialize or in the middle of a row: the positions strictly increase, and at each
      position stands the row of the last run that got past its initialization and started at or
      before it, if that run got so far. */
  lemma {:induction false} LastWriterWins(f: File, column: string, lives: seq<Life>, p: int)
    requires Sane(f, column) && forall life :: life in lives ==> GoodLife(column, life)
    ensures var g, source := AfterLives(f, column, lives), Author(f, column, lives, p);
            && Sane(g, column)
            && (g.Present? ==> RowAt(g.columns, column, g.rows, p) == SourceRow(f, column, source, g.columns, p))
            && (g.Present? ==> Fits(f, source, g.columns))
            && (g.Missing? ==> f.Missing? && source.Old?)
    decreases |lives|
  {
    if lives == [] {
      if f.Present? {
        OwnLayout(f, column, p);
      }
    } else {
      var last := |lives| - 1;
      LastWriterWins(f, column, lives[..last], p);
      LifeAdds(f, column, lives[..last], lives[last], p);
      assert lives[..last] + [lives[last]] == lives;
    }
  }

  lemma OwnLayout(f: File, column: string, p: int)
    requires f.Present? && Sane(f, column)
    ensures RowAt(f.columns, column, f.rows, p) == OldRow(f, f.columns, column, p)
  {
    if RowAt(f.columns, column, f.rows, p).Some? {
      RowAtPosition(f.columns, column, f.rows, p);
      RelaidSame(f.columns, RowAt(f.columns, column, f.rows, p).value);
    }
  }

  lemma LifeAdds(f: File, column: string, rest: seq<Life>, life: Life, p: int)
    requires Sane(AfterLives(f, column, rest), column) && GoodLife(column, life)
    requires var before, source := AfterLives(f, column, rest), Author(f, column, rest, p);
             && (before.Present? ==>
                   RowAt(before.columns, column, before.rows, p) == SourceRow(f, column, source, before.columns, p))
             && (before.Present? ==> Fits(f, source, before.columns))
             && (before.Missing? ==> f.Missing? && source.Old?)
    ensures var g, source := AfterLives(f, column, rest + [life]), Author(f, column, rest + [life], p);
            && Sane(g, column)
            && (g.Present? ==> RowAt(g.columns, column, g.rows, p) == SourceRow(f, column, source, g.columns, p))
            && (g.Present? ==> Fits(f, source, g.columns))
            && (g.Missing? ==> f.Missing? && source.Old?)
  {
    assert (rest + [life])[..|rest|] == rest;
    var before := AfterLives(f, column, rest);
    if Starts(before, column, life) && !life.cut {
      LifeOk(before, column, life, p);
      if life.Owns(p) {
        AuthorOwn(column, life, p);
      } else if before.Present? {
        SubsequenceMembers(before.columns, life.columns);
        hide Initialized, RowAt, Sane, WellFormed;
        LaterLayout(f, column, Author(f, column, rest, p), before.columns, life.columns, p);
      }
    }
  }

  lemma AuthorOwn(column: string, life: Life, p: int)
    requires GoodLife(column, life) && GoodColumns(life.columns)
    ensures RelaidOption(life.columns, life.columns, RowAt(life.columns, column, life.written, p))
         == RowAt(life.columns, column, life.written, p)
  {
    if RowAt(life.columns, column, life.written, p).Some? {
      RowAtPosition(life.columns, column, life.written, p);
      RelaidSame(life.columns, RowAt(life.columns, column, life.written, p).value);
    }
  }

  lemma LaterLayout(f: File, column: string, source: Source, between: seq<string>, columns: seq<string>, p: int)
    requires Fits(f, source, between)
    ensures RelaidOption(between, columns, SourceRow(f, column, source, between, p)) ==
              SourceRow(f, column, source, columns, p)
  {
    match source {
      case Wrote(life) => RelaidOptionTwice(life.columns, between, columns,
          RowAt(life.columns, column, life.written, p));
      case Old =>
        if f.Present? {
          RelaidOptionTwice(f.columns, between, columns, RowAt(f.columns, column, f.rows, p));
        }
      case Lost =>
    }
  }

  // ---- When a run can resume ------------------------------------------------------------------

  /** After any runs, the next one can resume exactly when its request is in order and the file is
      missing, or has a header and its columns stand in the new schema in their order. */
  lemma ResumeStartsIff(f: File, column: string, lives: seq<Life>, columns: seq<string>, resume: int)
    requires Sane(f, column) && forall life :: life in lives ==> GoodLife(column, life)
    ensures var g := AfterLives(f, column, lives);
            Initialized(g, columns, Some((column, resume))).Some? <==>
              && GoodColumns(columns) && resume >= 0 && column in columns
              && !g.Headless? && (g.Present? ==> Subsequence(g.columns, columns))
  {
    LastWriterWins(f, column, lives, 0);
  }

  /** A run killed while it writes the header; the runs after it only resume. */
  ghost predicate HeaderTorn(f: File, column: string, lives: seq<Life>) {
    if lives == [] then f.Headless?
    else
      var life, rest := lives[|lives| - 1], lives[..|lives| - 1];
      var before := AfterLives(f, column, rest);
      if WritesHeader(before, life) && Starts(before, column, life) then life.cut else HeaderTorn(f, column, rest)
  }

  /** The crash window of initialization: the file has no header exactly when the last run that wrote one
      was killed while doing so, and then every later resume raises until a fresh run starts. */
  lemma {:induction false} HeadlessIff(f: File, column: string, lives: seq<Life>)
    requires forall life :: life in lives ==> column in life.columns
    ensures AfterLives(f, column, lives).Headless? <==> HeaderTorn(f, column, lives)
  {
    if lives != [] {
      var rest := lives[..|lives| - 1];
      HeadlessIff(f, column, rest);
      var before, life := AfterLives(f, column, rest), lives[|lives| - 1];
      assert life in lives;
      assert Starts(before, column, life) && before.Headless? ==> life.start.None?;
    }
  }

  /** A fresh run killed while it writes the header, and a resume after it: the resume raises, although
      a metrics file with all earlier rows was there. */
  lemma TornHeaderStops(f: File, column: string, columns: seq<string>, resume: int)
    requires GoodColumns(columns) && column in columns
    ensures var lives := [Life(columns, None, [], false, true)];
            && AfterLives(f, column, lives) == Headless
            && Initialized(AfterLives(f, column, lives), columns, Some((column, resume))) == None
  {
    var lives := [Life(columns, None, [], false, true)];
    assert lives[..0] == [];
    assert AfterLives(f, column, lives[..0]) == f;
  }

  // ---- The initialization loop ----------------------------------------------------------------

  /** The loop over the rows: every row is checked, those before the resume position are kept. */
  method AlignRows(existing: seq<string>, columns: seq<string>, column: string, resume: int, rows: seq<Row>)
    returns (retained: Option<seq<Row>>)
    requires column in existing && NoDup(existing)
    ensures retained.Some? <==> WellFormed(existing, column, rows)
    ensures retained.Some? ==> retained.value == Kept(existing, columns, column, resume, rows)
  {
    hide WellFormed, Below;
    EmptyWellFormed(existing, column);
    var kept, previous := [], -1;
    for i := 0 to |rows|
      invariant WellFormed(existing, column, rows[..i]) && Below(existing, column, rows[..i], previous + 1)
      invariant previous == if i == 0 then -1 else PreviousPosition(existing, column, rows, i)
      invariant kept + Kept(existing, columns, column, resume, rows[i..]) ==
                Kept(existing, columns, column, resume, rows)
    {
      var row := rows[i];
      assert rows[i..][0] == row && rows[i..][1..] == rows[i + 1..] && rows[..i + 1] == rows[..i] + [row];
      var position := PositionIn(existing, column, row);
      if |row| != |existing| || position.None? || position.value < 0 || position.value <= previous {
        BadRow(existing, column, rows, i, previous);
        return None;
      }
      GoodRow(existing, column, rows, i, previous);
      previous := position.value;
      if previous < resume {
        kept := kept + [if existing == columns then row else Relaid(existing, columns, row)];
        if existing == columns {
          RelaidSame(columns, row);
        }
      }
    }
    assert rows[..|rows|] == rows;
    return Some(kept);
  }

  function PreviousPosition(columns: seq<string>, column: string, rows: seq<Row>, i: nat): int
    requires 0 < i <= |rows|
  {
    var position := PositionIn(columns, column, rows[i - 1]);
    if position.Some? then position.value else -1
  }

  lemma EmptyWellFormed(columns: seq<string>, column: string)
    ensures WellFormed(columns, column, []) && Below(columns, column, [], 0)
  {
  }

  lemma BadRow(columns: seq<string>, column: string, rows: seq<Row>, i: nat, previous: int)
    requires i < |rows| && previous == if i == 0 then -1 else PreviousPosition(columns, column, rows, i)
    requires var position := PositionIn(columns, column, rows[i]);
             |rows[i]| != |columns| || position.None? || position.value < 0 || position.value <= previous
    ensures !WellFormed(columns, column, rows)
  {
  }

  lemma GoodRow(columns: seq<string>, column: string, rows: seq<Row>, i: nat, previous: int)
    requires i < |rows| && WellFormed(columns, column, rows[..i]) && Below(columns, column, rows[..i], previous + 1)
    requires |rows[i]| == |columns| && PositionIn(columns, column, rows[i]).Some?
    requires PositionIn(columns, column, rows[i]).value >= 0 && PositionIn(columns, column, rows[i]).value > previous
    ensures WellFormed(columns, column, rows[..i + 1])
    ensures Below(columns, column, rows[..i + 1], PositionIn(columns, column, rows[i]).value + 1)
  {
    assert rows[..i + 1] == rows[..i] + [rows[i]];
    AppendWellFormed(columns, column, rows[..i], [rows[i]], previous + 1);
  }

  method Initialize(f: File, columns: seq<string>, resumeAt: Option<(string, int)>) returns (g: Option<File>)
    ensures g == Initialized(f, columns, resumeAt)
  {
    if !GoodColumns(columns) {
      return None;
    }
    if resumeAt.None? {
      return Some(Present(columns, [], false));
    }
    var (column, resume) := resumeAt.value;
    if resume < 0 || column !in columns {
      return None;
    }
    if f.Missing? {
      return Some(Present(columns, [], false));
    }
    if f.Headless? || f.columns == [] || !NoDup(f.columns) {
      return None;
    }
    var additive := IteratorTest(f.columns, columns);
    if !additive || column !in f.columns {
      return None;
    }
    var retained := AlignRows(f.columns, columns, column, resume, f.rows);
    if retained.None? {
      return None;
    }
    return Some(Present(columns, retained.value, false));
  }
}
