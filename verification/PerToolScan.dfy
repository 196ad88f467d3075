/**
What the rows of a per-tool table promise.  PostgreSQL does not check a pushed
clause again, so every row that comes back has to satisfy it; the theorem says
exactly when they do.
*/
module PerToolScan {
  import opened Options
  import opened PgValues
  import opened Clauses
  import opened CatalogScan
  import opened ToolPlan
  import opened PerTool

  // ----- typed values and cells -----

  /** `d` is a carried value of the type, in PostgreSQL's canonical text, which the
      input functions read back. */
  predicate OfType(d: Datum, ty: PgType, io: Readers, date: string -> string) {
    match ty
    case Text => d.DText? && '\0' !in d.s
    case Jsonb => d.DJsonb?
    case Boolean => d.DBool?
    case Int4 => d.DInt? && -0x8000_0000 <= d.i < 0x8000_0000
    case Int8 => d.DInt? && -0x8000_0000_0000_0000 <= d.i < 0x8000_0000_0000_0000
    case Float8 => d.DFloat? && d.f.Some?
    case Uuid => d.DUuid? && io.uuid(d.s) == Some(d.s)
    case Date => d.DDate? && io.date(d.s) == Some(d.s) && date(d.s) == d.s
    case TimestampTz => d.DTimestamp? && io.timestamp(d.s) == Some(d.s)
    case Bytea => false
  }

  predicate CellTyped(c: Cell, ty: PgType) {
    match ty
    case Text => c.CText?
    case Jsonb => c.CJson?
    case Boolean => c.CBool?
    case Int4 => c.CInt?
    case Int8 => c.CInt?
    case Float8 => c.CFloat? && c.f.Some?
    case Uuid => c.CUuid?
    case Date => c.CDate?
    case TimestampTz => c.CTimestamp?
    case Bytea => false
  }

  predicate ExactJson(j: Json) {
    j.JNum? && j.n.Int? ==> ExactInt(j.n.i)
  }

  /** Integers are within the range that 64-bit floats represent. */
  predicate ExactCell(c: Cell) {
    (c.CInt? ==> ExactInt(c.i)) && (c.CJson? ==> ExactJson(c.j))
  }

  predicate ExactDatum(d: Datum) {
    (d.DInt? ==> ExactInt(d.i)) && (d.DJsonb? ==> ExactJson(d.j))
  }

  lemma ConvertedIsTyped(v: Json, ty: PgType, io: Readers)
    requires JsonToCell(v, ty, io).Some?
    ensures CellTyped(JsonToCell(v, ty, io).value, ty)
    ensures JsonToCell(v, ty, io).value.CJson? ==> !JsonToCell(v, ty, io).value.j.JNull?
  {
  }

  /** An argument is echoed as the value it was bound to, unless it is jsonb null,
      which is echoed as SQL NULL. */
  lemma EchoIff(d: Datum, ty: PgType, io: Readers, date: string -> string)
    requires OfType(d, ty, io, date)
    ensures DatumToJson(d).Some?
    ensures var cell := JsonToCell(DatumToJson(d).value, ty, io);
            && (cell.Some? <==> d != DJsonb(JNull))
            && (cell.Some? ==> SqlEq(CellToDatum(cell.value, date), d))
  {
    if d.DText? {
      NoNulToDrop(d.s);
    }
  }

  /** An output that passes the filter has the asked value. */
  lemma MatchedIsEqual(c: Cell, d: Datum, ty: PgType, io: Readers, date: string -> string)
    requires CellTyped(c, ty) && OfType(d, ty, io, date) && ExactCell(c) && ExactDatum(d)
    requires DatumToJson(d).Some? && JsonEqual(DatumToJson(d).value, AsJson(c))
    ensures SqlEq(CellToDatum(c, date), d)
  {
    match ty {
      case Text => NoNulToDrop(d.s);
      case Int4 => SameFloatSameInt(c.i, d.i);
      case Int8 => SameFloatSameInt(c.i, d.i);
      case Jsonb =>
        if d.j.JNum? && d.j.n.Int? {
          IntsBelowLimitAreExact(d.j.n.i);
        }
        if c.j.JNum? && c.j.n.Int? {
          IntsBelowLimitAreExact(c.j.n.i);
        }
      case _ =>
    }
  }

  lemma SameFloatSameInt(i: int, j: int)
    requires ExactInt(i) && ExactInt(j) && AsF64(Int(i)) == AsF64(Int(j))
    ensures i == j
  {
    IntsBelowLimitAreExact(i);
    IntsBelowLimitAreExact(j);
  }

  /** The filter recognizes a value only in the same text, or the same nested json, and
      never a uuid, a timestamp or jsonb null. */
  predicate Recognized(c: Cell, d: Datum, ty: PgType) {
    match ty
    case Text => c.CText? && d.DText? && c.s == d.s
    case Date => c.CDate? && d.DDate? && c.s == d.s
    case Jsonb => c.CJson? && d.DJsonb? && !d.j.JNull? && (d.j.JNested? ==> c.j == d.j)
    case Uuid => false
    case TimestampTz => false
    case _ => true
  }

  /** An output with the asked value passes the filter if and only if it is recognized. */
  lemma EqualIsMatchedIff(c: Cell, d: Datum, ty: PgType, io: Readers, date: string -> string)
    requires CellTyped(c, ty) && OfType(d, ty, io, date) && SqlEq(CellToDatum(c, date), d)
    requires ty.Jsonb? ==> ExactCell(c) && ExactDatum(d)
    ensures DatumToJson(d).Some?
    ensures JsonEqual(DatumToJson(d).value, AsJson(c)) <==> Recognized(c, d, ty)
  {
    if ty.Jsonb? {
      if d.j.JNum? && d.j.n.Int? {
        IntsBelowLimitAreExact(d.j.n.i);
      }
      if c.j.JNum? && c.j.n.Int? {
        IntsBelowLimitAreExact(c.j.n.i);
      }
    }
  }

  /** A date written in another way is the asked date and not recognized. */
  lemma OtherSpellingIsMissed(a: string, b: string, io: Readers, date: string -> string)
    requires a != b && date(a) == b && date(b) == b && io.date(b) == Some(b)
    ensures OfType(DDate(b), Date, io, date) && SqlEq(CellToDatum(CDate(a), date), DDate(b))
    ensures !JsonEqual(DatumToJson(DDate(b)).value, AsJson(CDate(a)))
  {
  }

  // ----- the shape of a row -----

  /** The row is full width, its cells have their column's type, and its inputs
      repeat the arguments. */
  ghost predicate WellShaped(tool: PlannedTool, args: map<string, Json>, row: Row, io: Readers) {
    && |row| == |Layout(tool).columns|
    && (forall k | 0 <= k < |row| && row[k].Some? :: CellTyped(row[k].value, ColumnTypes(tool)[k]))
    && (forall k | 0 <= k < |tool.inputs| :: row[k] == CellOf(args, tool.inputs[k], io))
  }

  lemma CellsAreTyped(fields: map<string, Json>, cols: seq<Column>, io: Readers)
    ensures forall i | 0 <= i < |cols| && Cells(fields, cols, io)[i].Some? ::
              CellTyped(Cells(fields, cols, io)[i].value, TypesOf(cols)[i])
  {
    forall i | 0 <= i < |cols| && Cells(fields, cols, io)[i].Some?
      ensures CellTyped(Cells(fields, cols, io)[i].value, TypesOf(cols)[i])
    {
      ConvertedIsTyped(fields[cols[i].property], cols[i].pgType, io);
    }
  }

  lemma ShapeRowIsWellShaped(tool: PlannedTool, args: map<string, Json>, outputs: Row, res: CallResult, io: Readers)
    requires |outputs| == |OutputColumns(tool.output)|
    requires forall i | 0 <= i < |outputs| && outputs[i].Some? ::
               CellTyped(outputs[i].value, OutputColumns(tool.output)[i].pgType)
    ensures WellShaped(tool, args, ShapeRow(tool, args, outputs, res, io), io)
  {
    var row, types := ShapeRow(tool, args, outputs, res, io), ColumnTypes(tool);
    var n, m := |tool.inputs|, |outputs|;
    CellsAreTyped(args, tool.inputs, io);
    forall k | 0 <= k < |row| && row[k].Some? ensures CellTyped(row[k].value, types[k]) {
      if k < n {
        assert row[k] == Cells(args, tool.inputs, io)[k] && types[k] == TypesOf(tool.inputs)[k];
      } else if k < n + m {
        assert row[k] == outputs[k - n] && types[k] == TypesOf(OutputColumns(tool.output))[k - n];
      } else {
        assert k == n + m || k == n + m + 1;
      }
    }
  }

  /** Every row of every result is full width and typed. */
  lemma RowsAreWellShaped(tool: PlannedTool, args: map<string, Json>, res: CallResult, io: Readers, row: Row)
    requires row in Shaped(tool, args, res, io)
    ensures WellShaped(tool, args, row, io)
  {
    var i :| 0 <= i < |Shaped(tool, args, res, io)| && Shaped(tool, args, res, io)[i] == row;
    var source, cols := SourceOf(tool, res, i), OutputColumns(tool.output);
    ShapedRowIs(tool, args, res, io, i);
    CellsAreTyped(source, cols, io);
    ShapeRowIsWellShaped(tool, args, Cells(source, cols, io), res, io);
  }

  // ----- one comparison -----

  lemma {:induction false} FirstEqualIs(quals: seq<Qual>, field: string)
    ensures FirstEqual(quals, field).Some? ==> Qual(field, Equal, [FirstEqual(quals, field).value]) in quals
    ensures FirstEqual(quals, field).None? ==> forall v :: Qual(field, Equal, [v]) !in quals
  {
    if quals != [] {
      FirstEqualIs(quals[1..], field);
      assert quals == [quals[0]] + quals[1..];
      assert |quals[0].values| == 1 ==> quals[0] == Qual(quals[0].field, quals[0].operator, [quals[0].values[0]]);
    }
  }

  /** A restriction on an input column was consumed as an argument; any other is
      checked against the cell of its column. */
  lemma CheckedAt(tool: PlannedTool, k: nat, j: Json, row: Row)
    requires GoodColumns(Layout(tool)) && k < |Layout(tool).columns| == |row|
    ensures FilterOne(tool, Qual(Layout(tool).columns[k], Equal, [j]), row)
            <==> k < |tool.inputs| || (row[k].Some? && JsonEqual(j, AsJson(row[k].value)))
  {
    var t, n := Layout(tool), |tool.inputs|;
    if k < n {
      assert t.columns[k] == SqlNames(tool.inputs)[k];
    } else {
      var f := t.columns[k];
      assert f !in SqlNames(tool.inputs) by {
        forall i | 0 <= i < n ensures t.columns[i] == SqlNames(tool.inputs)[i] && t.columns[i] != f {
        }
      }
      OutputPosition(tool, k);
    }
  }

  lemma MiddlePosition(pre: seq<string>, mid: seq<string>, post: seq<string>, k: nat)
    requires forall i, j | 0 <= i < j < |pre + mid + post| :: (pre + mid + post)[i] != (pre + mid + post)[j]
    requires |pre| <= k < |pre + mid + post|
    ensures Position(mid, (pre + mid + post)[k]) == if k < |pre| + |mid| then k - |pre| else |mid|
  {
    var all := pre + mid + post;
    var p := Position(mid, all[k]);
    assert p < |mid| ==> all[|pre| + p] == mid[p];
    assert k < |pre| + |mid| ==> mid[k - |pre|] == all[k];
  }

  lemma OutputPosition(tool: PlannedTool, k: nat)
    requires GoodColumns(Layout(tool)) && |tool.inputs| <= k < |Layout(tool).columns|
    ensures var outs, f := SqlNames(OutputColumns(tool.output)), Layout(tool).columns[k];
            && Position(outs, f) == (if k < |tool.inputs| + |outs| then k - |tool.inputs| else |outs|)
            && (k == |tool.inputs| + |outs| ==> f == "content")
            && (k == |tool.inputs| + |outs| + 1 ==> f == "is_error")
  {
    MiddlePosition(SqlNames(tool.inputs), SqlNames(OutputColumns(tool.output)), ["content", "is_error"], k);
  }

  // ----- the clauses -----

  predicate Pushed(c: Clause, t: Table) { !StaysLocal(c, t) }

  /** The clause compares a value that is carried. */
  predicate Carried(c: Clause, env: Env) {
    Compared(c.node, env).Some? && DatumToJson(Compared(c.node, env).value.value).Some?
  }

  /** `= ALL` compares a column with an array parameter. */
  predicate ArrayTyped(n: Node, env: Env) {
    n.AnyOf? ==>
      && Strip(n.left).Var? && Strip(n.right).Param?
      && (env.external(Strip(n.right).id).Some? ==> env.external(Strip(n.right).id).value.DArray?)
  }

  /** The pushed clauses compare values of their column's type, and on outputs integers
      that floats represent.  Inputs are sent and echoed as they are. */
  ghost predicate TypedClauses(tool: PlannedTool, clauses: seq<Clause>, env: Env, io: Readers, date: string -> string) {
    forall c | c in clauses && Pushed(c, Layout(tool)) ::
      && ArrayTyped(c.node, env)
      && (Carried(c, env) && Compared(c.node, env).value.col < |Layout(tool).columns| ==>
            var x := Compared(c.node, env).value;
            && OfType(x.value, ColumnTypes(tool)[x.col], io, date)
            && (x.col >= |tool.inputs| ==> ExactDatum(x.value)))
  }

  /** The restrictions of the scan. */
  function QualsFor(tool: PlannedTool, clauses: seq<Clause>, env: Env): seq<Qual> {
    PlanIndexesInRange(clauses, Layout(tool));
    ScanQuals(PlanOf(clauses, Layout(tool)), env)
  }

  ghost predicate Satisfied(tool: PlannedTool, clauses: seq<Clause>, env: Env, row: SqlRow) {
    forall c | c in clauses && Pushed(c, Layout(tool)) :: Eval(c.node, row, env) == TRUE
  }

  lemma QualIsScanned(tool: PlannedTool, clauses: seq<Clause>, env: Env, c: Clause, q: Qual)
    requires c in clauses && q in QualsOf(c, Layout(tool), env)
    ensures q in QualsFor(tool, clauses, env)
  {
    ScanQualsAre(clauses, Layout(tool), env, q);
    var i :| 0 <= i < |clauses| && clauses[i] == c;
    assert q in QualsOf(clauses[i], Layout(tool), env);
  }

  /** The argument sent for input `k`, read back as the column's type, is `d`. */
  ghost predicate SentIs(tool: PlannedTool, clauses: seq<Clause>, env: Env, io: Readers, date: string -> string,
                         k: nat, d: Datum)
    requires k < |tool.inputs|
  {
    var v := FirstEqual(QualsFor(tool, clauses, env), tool.inputs[k].sqlName);
    && v.Some? && JsonToCell(v.value, tool.inputs[k].pgType, io).Some?
    && SqlEq(CellToDatum(JsonToCell(v.value, tool.inputs[k].pgType, io).value, date), d)
  }

  /** What makes a pushed clause true of the rows that come back: its null test, or a
      carried value that, on an input, is the one that was sent.  `= ALL` is not applied,
      so it has to hold by itself. */
  ghost predicate Agrees(tool: PlannedTool, clauses: seq<Clause>, env: Env, io: Readers, date: string -> string,
                         c: Clause, row: SqlRow) {
    if c.node.AnyOf? then HoldsForAll(c.node, env, row)
    else
      TestedNull(c.node, env)
      || (Carried(c, env) && var x := Compared(c.node, env).value;
                             x.col < |tool.inputs| ==> SentIs(tool, clauses, env, io, date, x.col, x.value))
  }

  // ----- the rows that come back -----

  function ArgsFor(tool: PlannedTool, clauses: seq<Clause>, env: Env): Args {
    Gathered(tool.inputs, BoundValues(tool.inputs, QualsFor(tool, clauses, env)))
  }

  /** A row of the call that these clauses make, whose outputs floats represent. */
  ghost predicate OfCall(tool: PlannedTool, clauses: seq<Clause>, env: Env, res: CallResult, io: Readers, row: Row) {
    && ArgsFor(tool, clauses, env).Args? && row in Shaped(tool, ArgsFor(tool, clauses, env).values, res, io)
    && forall k | |tool.inputs| <= k < |row| && row[k].Some? :: ExactCell(row[k].value)
  }

  /** One that comes back. */
  ghost predicate Emitted(tool: PlannedTool, clauses: seq<Clause>, env: Env, res: CallResult, io: Readers, row: Row) {
    && OfCall(tool, clauses, env, res, io, row)
    && row in Retained(tool, QualsFor(tool, clauses, env), Shaped(tool, ArgsFor(tool, clauses, env).values, res, io))
  }

  lemma {:induction false} RetainedIs(tool: PlannedTool, quals: seq<Qual>, rows: seq<Row>, row: Row)
    ensures row in Retained(tool, quals, rows) <==> row in rows && PostFilter(tool, quals, row)
  {
    if rows != [] {
      RetainedIs(tool, quals, rows[..|rows| - 1], row);
      assert rows == rows[..|rows| - 1] + [rows[|rows| - 1]];
    }
  }

  ghost predicate GoodTool(tool: PlannedTool) {
    GoodColumns(Layout(tool)) && DistinctProperties(tool.inputs)
  }

  /** A carried value on an input is the bound one, or another one is. */
  lemma InputCell(tool: PlannedTool, clauses: seq<Clause>, env: Env, res: CallResult, io: Readers, row: Row, c: Clause)
    requires GoodTool(tool) && OfCall(tool, clauses, env, res, io, row)
    requires c in clauses && Pushed(c, Layout(tool)) && !c.node.AnyOf? && Carried(c, env)
    requires Compared(c.node, env).value.col < |tool.inputs|
    ensures var k := Compared(c.node, env).value.col;
            var v := FirstEqual(QualsFor(tool, clauses, env), tool.inputs[k].sqlName);
            v.Some? && k < |row| && row[k] == JsonToCell(v.value, tool.inputs[k].pgType, io)
  {
    var t, quals, k := Layout(tool), QualsFor(tool, clauses, env), Compared(c.node, env).value.col;
    assert t.columns[k] == SqlNames(tool.inputs)[k] == tool.inputs[k].sqlName;
    PushedClauseMeans(c, t, env, []);
    QualIsScanned(tool, clauses, env, c, QualsOf(c, t, env)[0]);
    FirstEqualIs(quals, tool.inputs[k].sqlName);
    GatheredValue(tool.inputs, BoundValues(tool.inputs, quals), k);
    RowsAreWellShaped(tool, ArgsFor(tool, clauses, env).values, res, io, row);
  }

  /** A row of the table only holds values that are carried. */
  lemma HeldIsCarried(tool: PlannedTool, args: map<string, Json>, row: Row, io: Readers, date: string -> string,
                      x: Comparison)
    requires WellShaped(tool, args, row, io) && Satisfies(SqlOf(row, date), x)
    ensures DatumToJson(x.value).Some?
  {
    assert CellTyped(row[x.col].value, ColumnTypes(tool)[x.col]);
  }

  /** A pushed comparison on an output was checked. */
  lemma OutputHolds(tool: PlannedTool, clauses: seq<Clause>, env: Env, res: CallResult, io: Readers,
                    date: string -> string, row: Row, c: Clause)
    requires GoodTool(tool) && TypedClauses(tool, clauses, env, io, date) && Emitted(tool, clauses, env, res, io, row)
    requires c in clauses && Pushed(c, Layout(tool)) && !c.node.AnyOf? && Carried(c, env)
    requires Compared(c.node, env).value.col >= |tool.inputs|
    ensures Satisfies(SqlOf(row, date), Compared(c.node, env).value)
  {
    var t, x, quals := Layout(tool), Compared(c.node, env).value, QualsFor(tool, clauses, env);
    RowsAreWellShaped(tool, ArgsFor(tool, clauses, env).values, res, io, row);
    PushedClauseMeans(c, t, env, SqlOf(row, date));
    var q := QualsOf(c, t, env)[0];
    QualIsScanned(tool, clauses, env, c, q);
    RetainedIs(tool, quals, Shaped(tool, ArgsFor(tool, clauses, env).values, res, io), row);
    assert FilterOne(tool, q, row);
    CheckedAt(tool, x.col, DatumToJson(x.value).value, row);
    MatchedIsEqual(row[x.col].value, x.value, ColumnTypes(tool)[x.col], io, date);
  }

  lemma ComparisonHoldsIff(tool: PlannedTool, clauses: seq<Clause>, env: Env, res: CallResult, io: Readers,
                           date: string -> string, row: Row, c: Clause)
    requires GoodTool(tool) && TypedClauses(tool, clauses, env, io, date) && Emitted(tool, clauses, env, res, io, row)
    requires c in clauses && Pushed(c, Layout(tool)) && !c.node.AnyOf? && Compared(c.node, env).Some?
    ensures var x := Compared(c.node, env).value;
            Satisfies(SqlOf(row, date), x)
            <==> Carried(c, env) && (x.col < |tool.inputs| ==> SentIs(tool, clauses, env, io, date, x.col, x.value))
  {
    var x := Compared(c.node, env).value;
    RowsAreWellShaped(tool, ArgsFor(tool, clauses, env).values, res, io, row);
    if Satisfies(SqlOf(row, date), x) {
      HeldIsCarried(tool, ArgsFor(tool, clauses, env).values, row, io, date, x);
    }
    if Carried(c, env) {
      if x.col < |tool.inputs| {
        InputCell(tool, clauses, env, res, io, row, c);
      } else {
        OutputHolds(tool, clauses, env, res, io, date, row, c);
      }
    }
  }

  lemma ClauseHoldsIff(tool: PlannedTool, clauses: seq<Clause>, env: Env, res: CallResult, io: Readers,
                       date: string -> string, row: Row, c: Clause)
    requires GoodTool(tool) && TypedClauses(tool, clauses, env, io, date) && Emitted(tool, clauses, env, res, io, row)
    requires c in clauses && Pushed(c, Layout(tool))
    ensures Eval(c.node, SqlOf(row, date), env) == TRUE <==> Agrees(tool, clauses, env, io, date, c, SqlOf(row, date))
  {
    if c.node.AnyOf? {
      AllMeans(c, Layout(tool), env, SqlOf(row, date));
    } else {
      PushedClauseMeans(c, Layout(tool), env, SqlOf(row, date));
      if Compared(c.node, env).Some? {
        ComparisonHoldsIff(tool, clauses, env, res, io, date, row, c);
      }
    }
  }

  /** Every row that comes back is full width, and it satisfies every pushed clause if
      and only if each of them agrees with what was sent. */
  lemma EmittedRowsSatisfyIff(tool: PlannedTool, clauses: seq<Clause>, env: Env, res: CallResult, io: Readers,
                              date: string -> string, row: Row)
    requires GoodTool(tool) && TypedClauses(tool, clauses, env, io, date) && Emitted(tool, clauses, env, res, io, row)
    ensures |row| == |tool.inputs| + |OutputColumns(tool.output)| + 2
    ensures Satisfied(tool, clauses, env, SqlOf(row, date))
            <==> forall c | c in clauses && Pushed(c, Layout(tool)) ::
                   Agrees(tool, clauses, env, io, date, c, SqlOf(row, date))
  {
    RowsAreWellShaped(tool, ArgsFor(tool, clauses, env).values, res, io, row);
    forall c | c in clauses && Pushed(c, Layout(tool))
      ensures Eval(c.node, SqlOf(row, date), env) == TRUE <==> Agrees(tool, clauses, env, io, date, c, SqlOf(row, date))
    {
      ClauseHoldsIff(tool, clauses, env, res, io, date, row, c);
    }
  }

  // ----- agreement, clause against clause -----

  /** The comparison a clause makes on input column `k`. */
  ghost predicate Binds(c: Clause, tool: PlannedTool, env: Env, k: nat) {
    Pushed(c, Layout(tool)) && !c.node.AnyOf? && Carried(c, env) && Compared(c.node, env).value.col == k < |tool.inputs|
  }

  /** No clause is lost to a parameter without a carried value, none binds jsonb
      null, and clauses that bind the same input agree. */
  ghost predicate Agreeing(tool: PlannedTool, clauses: seq<Clause>, env: Env) {
    && (forall c | c in clauses :: !Dropped(c, Layout(tool), env))
    && (forall c, k | c in clauses && Binds(c, tool, env, k) :: Compared(c.node, env).value.value != DJsonb(JNull))
    && (forall c, e, k | c in clauses && e in clauses && Binds(c, tool, env, k) && Binds(e, tool, env, k) ::
          SqlEq(Compared(c.node, env).value.value, Compared(e.node, env).value.value))
  }

  /** The usual shapes: no `= ALL`, and null tests of the parameter that is compared. */
  ghost predicate Usual(tool: PlannedTool, clauses: seq<Clause>) {
    forall c | c in clauses && Pushed(c, Layout(tool)) :: !c.node.AnyOf? && !MixedKinds(c.node)
  }

  /** The clause whose value an input column was bound to. */
  lemma Binder(tool: PlannedTool, clauses: seq<Clause>, env: Env, k: nat) returns (c: Clause)
    requires GoodColumns(Layout(tool)) && Usual(tool, clauses) && k < |tool.inputs|
    requires FirstEqual(QualsFor(tool, clauses, env), tool.inputs[k].sqlName).Some?
    ensures c in clauses && Binds(c, tool, env, k)
    ensures DatumToJson(Compared(c.node, env).value.value)
            == FirstEqual(QualsFor(tool, clauses, env), tool.inputs[k].sqlName)
  {
    var t, f := Layout(tool), tool.inputs[k].sqlName;
    assert t.columns[k] == SqlNames(tool.inputs)[k] == f;
    var q := Qual(f, Equal, [FirstEqual(QualsFor(tool, clauses, env), f).value]);
    FirstEqualIs(QualsFor(tool, clauses, env), f);
    ScanQualsAre(clauses, t, env, q);
    var i :| 0 <= i < |clauses| && q in QualsOf(clauses[i], t, env);
    c := clauses[i];
    assert Pushed(c, t);
    PushedClauseMeans(c, t, env, []);
  }

  lemma AgreeingIsSent(tool: PlannedTool, clauses: seq<Clause>, env: Env, io: Readers, date: string -> string,
                       c: Clause, k: nat)
    requires GoodTool(tool) && TypedClauses(tool, clauses, env, io, date) && Usual(tool, clauses)
    requires Agreeing(tool, clauses, env) && c in clauses && Binds(c, tool, env, k)
    ensures SentIs(tool, clauses, env, io, date, k, Compared(c.node, env).value.value)
  {
    var t, f := Layout(tool), tool.inputs[k].sqlName;
    assert t.columns[k] == SqlNames(tool.inputs)[k] == f;
    PushedClauseMeans(c, t, env, []);
    QualIsScanned(tool, clauses, env, c, QualsOf(c, t, env)[0]);
    FirstEqualIs(QualsFor(tool, clauses, env), f);
    var first := Binder(tool, clauses, env, k);
    var d := Compared(first.node, env).value.value;
    assert ColumnTypes(tool)[k] == TypesOf(tool.inputs)[k];
    EchoIff(d, tool.inputs[k].pgType, io, date);
    assert SqlEq(d, Compared(c.node, env).value.value);
  }

  lemma SentIsNotNull(tool: PlannedTool, clauses: seq<Clause>, env: Env, io: Readers, date: string -> string, k: nat,
                      d: Datum)
    requires k < |tool.inputs| && SentIs(tool, clauses, env, io, date, k, d)
    ensures d != DJsonb(JNull)
  {
    ConvertedIsTyped(FirstEqual(QualsFor(tool, clauses, env), tool.inputs[k].sqlName).value, tool.inputs[k].pgType, io);
  }

  /** For the usual shapes, agreeing with what was sent is agreeing with one another. */
  lemma AgreeingIff(tool: PlannedTool, clauses: seq<Clause>, env: Env, io: Readers, date: string -> string, row: SqlRow)
    requires GoodTool(tool) && TypedClauses(tool, clauses, env, io, date) && Usual(tool, clauses)
    ensures (forall c | c in clauses && Pushed(c, Layout(tool)) :: Agrees(tool, clauses, env, io, date, c, row))
            <==> Agreeing(tool, clauses, env)
  {
    var t := Layout(tool);
    forall c | c in clauses && Pushed(c, t)
      ensures Dropped(c, t, env) <==> !TestedNull(c.node, env) && !Carried(c, env)
      ensures TestedNull(c.node, env) ==> !Carried(c, env)
    {
      PushedClauseMeans(c, t, env, []);
      if c.node.Or? {
        UnmixedTestIs(c, t, env);
      }
    }
    if Agreeing(tool, clauses, env) {
      forall c | c in clauses && Pushed(c, t) ensures Agrees(tool, clauses, env, io, date, c, row) {
        if Carried(c, env) && Compared(c.node, env).value.col < |tool.inputs| {
          AgreeingIsSent(tool, clauses, env, io, date, c, Compared(c.node, env).value.col);
        }
      }
    } else if forall c | c in clauses && Pushed(c, t) :: Agrees(tool, clauses, env, io, date, c, row) {
      AllAgreeing(tool, clauses, env, io, date, row);
    }
  }

  lemma AllAgreeing(tool: PlannedTool, clauses: seq<Clause>, env: Env, io: Readers, date: string -> string, row: SqlRow)
    requires forall c | c in clauses && Pushed(c, Layout(tool)) ::
               && !c.node.AnyOf? && Agrees(tool, clauses, env, io, date, c, row)
               && (Dropped(c, Layout(tool), env) <==> !TestedNull(c.node, env) && !Carried(c, env))
               && (TestedNull(c.node, env) ==> !Carried(c, env))
    ensures Agreeing(tool, clauses, env)
  {
    forall c, k | c in clauses && Binds(c, tool, env, k)
      ensures SentIs(tool, clauses, env, io, date, k, Compared(c.node, env).value.value)
      ensures Compared(c.node, env).value.value != DJsonb(JNull)
    {
      SentIsNotNull(tool, clauses, env, io, date, k, Compared(c.node, env).value.value);
    }
  }

  // ----- which rows come back -----

  /** A pushed comparison on an output column. */
  ghost predicate OnOutput(tool: PlannedTool, c: Clause, env: Env) {
    && Pushed(c, Layout(tool)) && !c.node.AnyOf? && Carried(c, env)
    && |tool.inputs| <= Compared(c.node, env).value.col < |Layout(tool).columns|
  }

  /** The row has the compared value, in a form the filter recognizes. */
  ghost predicate Found(tool: PlannedTool, c: Clause, env: Env, date: string -> string, row: Row)
    requires OnOutput(tool, c, env) && |row| == |Layout(tool).columns|
  {
    var x := Compared(c.node, env).value;
    Satisfies(SqlOf(row, date), x) && Recognized(row[x.col].value, x.value, ColumnTypes(tool)[x.col])
  }

  /** The filter passes what it recognizes. */
  lemma FilterOneIff(tool: PlannedTool, clauses: seq<Clause>, env: Env, args: map<string, Json>, io: Readers,
                     date: string -> string, row: Row, c: Clause)
    requires GoodTool(tool) && TypedClauses(tool, clauses, env, io, date) && WellShaped(tool, args, row, io)
    requires forall k | |tool.inputs| <= k < |row| && row[k].Some? :: ExactCell(row[k].value)
    requires c in clauses && Pushed(c, Layout(tool)) && !c.node.AnyOf? && Carried(c, env)
    ensures |QualsOf(c, Layout(tool), env)| == 1 && Compared(c.node, env).value.col < |Layout(tool).columns|
    ensures FilterOne(tool, QualsOf(c, Layout(tool), env)[0], row)
            <==> (OnOutput(tool, c, env) ==> Found(tool, c, env, date, row))
  {
    var x := Compared(c.node, env).value;
    PushedClauseMeans(c, Layout(tool), env, SqlOf(row, date));
    CheckedAt(tool, x.col, DatumToJson(x.value).value, row);
    if x.col >= |tool.inputs| && row[x.col].Some? {
      var cell, ty := row[x.col].value, ColumnTypes(tool)[x.col];
      if JsonEqual(DatumToJson(x.value).value, AsJson(cell)) {
        MatchedIsEqual(cell, x.value, ty, io, date);
      }
      if SqlEq(CellToDatum(cell, date), x.value) {
        EqualIsMatchedIff(cell, x.value, ty, io, date);
      }
    }
  }

  lemma QualPasses(tool: PlannedTool, clauses: seq<Clause>, env: Env, args: map<string, Json>, io: Readers,
                   date: string -> string, row: Row, q: Qual)
    requires GoodTool(tool) && TypedClauses(tool, clauses, env, io, date) && WellShaped(tool, args, row, io)
    requires forall k | |tool.inputs| <= k < |row| && row[k].Some? :: ExactCell(row[k].value)
    requires forall c | c in clauses && OnOutput(tool, c, env) :: Found(tool, c, env, date, row)
    requires q in QualsFor(tool, clauses, env)
    ensures FilterOne(tool, q, row)
  {
    var t := Layout(tool);
    ScanQualsAre(clauses, t, env, q);
    var i :| 0 <= i < |clauses| && q in QualsOf(clauses[i], t, env);
    var c := clauses[i];
    assert Pushed(c, t);
    if c.node.AnyOf? {
      AllMeans(c, t, env, []);
    } else {
      PushedClauseMeans(c, t, env, []);
      FilterOneIff(tool, clauses, env, args, io, date, row, c);
    }
  }

  /** A row of the call comes back if and only if every pushed comparison on an output
      finds its value there. */
  lemma RowsComeBackIff(tool: PlannedTool, clauses: seq<Clause>, env: Env, res: CallResult, io: Readers,
                        date: string -> string, row: Row)
    requires GoodTool(tool) && TypedClauses(tool, clauses, env, io, date) && OfCall(tool, clauses, env, res, io, row)
    ensures |row| == |Layout(tool).columns|
    ensures Emitted(tool, clauses, env, res, io, row)
            <==> forall c | c in clauses && OnOutput(tool, c, env) :: Found(tool, c, env, date, row)
  {
    var t, quals, args := Layout(tool), QualsFor(tool, clauses, env), ArgsFor(tool, clauses, env).values;
    RowsAreWellShaped(tool, args, res, io, row);
    RetainedIs(tool, quals, Shaped(tool, args, res, io), row);
    if forall c | c in clauses && OnOutput(tool, c, env) :: Found(tool, c, env, date, row) {
      forall q | q in quals ensures FilterOne(tool, q, row) {
        QualPasses(tool, clauses, env, args, io, date, row, q);
      }
    }
    if PostFilter(tool, quals, row) {
      forall c | c in clauses && OnOutput(tool, c, env) ensures Found(tool, c, env, date, row) {
        FilterOneIff(tool, clauses, env, args, io, date, row, c);
        QualIsScanned(tool, clauses, env, c, QualsOf(c, t, env)[0]);
      }
    }
  }

  /** So for agreeing clauses of the usual shapes, a row of the call whose outputs are
      recognized comes back if and only if it satisfies every pushed clause. */
  lemma ComesBackIffSatisfied(tool: PlannedTool, clauses: seq<Clause>, env: Env, res: CallResult, io: Readers,
                              date: string -> string, row: Row)
    requires GoodTool(tool) && TypedClauses(tool, clauses, env, io, date) && Usual(tool, clauses)
    requires Agreeing(tool, clauses, env) && OfCall(tool, clauses, env, res, io, row) && |row| == |Layout(tool).columns|
    requires forall c | c in clauses && OnOutput(tool, c, env)
                        && Satisfies(SqlOf(row, date), Compared(c.node, env).value) ::
               Found(tool, c, env, date, row)
    ensures Emitted(tool, clauses, env, res, io, row) <==> Satisfied(tool, clauses, env, SqlOf(row, date))
  {
    RowsComeBackIff(tool, clauses, env, res, io, date, row);
    AgreeingIff(tool, clauses, env, io, date, SqlOf(row, date));
    if Emitted(tool, clauses, env, res, io, row) {
      EmittedRowsSatisfyIff(tool, clauses, env, res, io, date, row);
    }
    if Satisfied(tool, clauses, env, SqlOf(row, date)) {
      forall c | c in clauses && OnOutput(tool, c, env) ensures Found(tool, c, env, date, row) {
        PushedClauseMeans(c, Layout(tool), env, SqlOf(row, date));
        if c.node.Or? {
          UnmixedTestIs(c, Layout(tool), env);
        }
      }
    }
  }

  // ----- a disagreement -----

  const FLAG_INPUT: PlannedTool :=
    PlannedTool("t", "t", "s", true, true, [Column("x", "x", Boolean, true)], NoColumns, ["x"])

  const FLAG_AND_NOT: seq<Clause> := [Clause(Var(0, true), false), Clause(Not(Var(0, true)), false)]

  lemma FlagAndNotPushed(env: Env)
    ensures QualsFor(FLAG_INPUT, FLAG_AND_NOT, env)
            == [Qual("x", Equal, [JBool(true)]), Qual("x", Equal, [JBool(false)])]
  {
    var t, a, b := Layout(FLAG_INPUT), FLAG_AND_NOT[0], FLAG_AND_NOT[1];
    assert t.columns[0] == "x";
    assert FLAG_AND_NOT == [a, b] && [a, b][..1] == [a] && [a][..0] == [];
    assert PlanOf([a], t) == Plan([Qual("x", Equal, [JBool(true)])], [], [], []);
    PlanIndexesInRange([a, b], t);
  }

  /** `x AND NOT x` is true of nothing, yet the call is made with true and its row is
      returned. */
  lemma DisagreeingClausesReturnRow(res: CallResult, io: Readers, env: Env)
    ensures var args := ArgsFor(FLAG_INPUT, FLAG_AND_NOT, env);
            && args == Args(map["x" := JBool(true)])
            && |Retained(FLAG_INPUT, QualsFor(FLAG_INPUT, FLAG_AND_NOT, env),
                         Shaped(FLAG_INPUT, args.values, res, io))| == 1
            && !Agreeing(FLAG_INPUT, FLAG_AND_NOT, env)
  {
    var args := map["x" := JBool(true)];
    FlagAndNotPushed(env);
    var quals := QualsFor(FLAG_INPUT, FLAG_AND_NOT, env);
    var supplied := BoundValues(FLAG_INPUT.inputs, quals);
    assert supplied == [Some(JBool(true))];
    assert FLAG_INPUT.inputs[..0] == [] && supplied[..0] == [];
    assert Gathered(FLAG_INPUT.inputs[..0], supplied[..0]) == Args(map[]);
    assert SqlNames(FLAG_INPUT.inputs)[0] == "x";
    assert NullOutputs(FLAG_INPUT) == [];
    var row := ShapeRow(FLAG_INPUT, args, [], res, io);
    assert PostFilter(FLAG_INPUT, quals, row);
    assert Shaped(FLAG_INPUT, args, res, io) == [row];
    assert [row][..0] == [];
    assert Layout(FLAG_INPUT).columns[0] == "x";
    assert Binds(FLAG_AND_NOT[0], FLAG_INPUT, env, 0) && Binds(FLAG_AND_NOT[1], FLAG_INPUT, env, 0);
  }
}
