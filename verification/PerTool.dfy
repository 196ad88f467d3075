/**
Per-tool foreign tables (pg/pg_mcp/src/tables/per_tool.rs): equality clauses on
input columns become the arguments of one `tools/call`, its result becomes
rows, and the remaining pushed clauses filter them.
*/
module PerTool {
  import opened Options
  import opened PgValues
  import opened Clauses
  import opened CatalogScan
  import opened ToolPlan

  /** The foreign table of a tool: inputs, outputs, `content` and `is_error`, all of
      which may be pushed. */
  function Layout(tool: PlannedTool): Table {
    var columns := SqlNames(tool.inputs) + SqlNames(OutputColumns(tool.output)) + ["content", "is_error"];
    Table(columns, columns)
  }

  function TypesOf(cols: seq<Column>): seq<PgType> {
    seq(|cols|, i requires 0 <= i < |cols| => cols[i].pgType)
  }

  function ColumnTypes(tool: PlannedTool): (types: seq<PgType>)
    ensures |types| == |Layout(tool).columns|
  {
    TypesOf(tool.inputs) + TypesOf(OutputColumns(tool.output)) + [Jsonb, Boolean]
  }

  // ----- arguments -----

  datatype Args = Args(values: map<string, Json>) | Missing(column: string)

  /** The arguments, given what is supplied for each input column. */
  function Gathered(inputs: seq<Column>, supplied: seq<Option<Json>>): Args
    requires |inputs| == |supplied|
  {
    if inputs == [] then Args(map[])
    else
      var n := |inputs| - 1;
      var before, col := Gathered(inputs[..n], supplied[..n]), inputs[n];
      if before.Missing? then before
      else
        match supplied[n]
        case Some(v) => Args(before.values[col.property := v])
        case None => if col.required then Missing(col.sqlName) else before
  }

  /** The value of the first equality on `field`; sets never bind. */
  function FirstEqual(quals: seq<Qual>, field: string): Option<Json> {
    if quals == [] then None
    else if quals[0].field == field && quals[0].operator.Equal? && |quals[0].values| == 1 then Some(quals[0].values[0])
    else FirstEqual(quals[1..], field)
  }

  function BoundValues(inputs: seq<Column>, quals: seq<Qual>): (supplied: seq<Option<Json>>)
    ensures |supplied| == |inputs|
  {
    seq(|inputs|, i requires 0 <= i < |inputs| => FirstEqual(quals, inputs[i].sqlName))
  }

  method FindEqual(quals: seq<Qual>, field: string) returns (v: Option<Json>)
    ensures v == FirstEqual(quals, field)
  {
    var i := 0;
    while i < |quals|
      invariant 0 <= i <= |quals|
      invariant FirstEqual(quals, field) == FirstEqual(quals[i..], field)
    {
      if quals[i].field == field && quals[i].operator.Equal? && |quals[i].values| == 1 {
        return Some(quals[i].values[0]);
      }
      i := i + 1;
    }
    v := None;
  }

  method ArgumentsFromQuals(inputs: seq<Column>, quals: seq<Qual>) returns (r: Args)
    ensures r == Gathered(inputs, BoundValues(inputs, quals))
  {
    ghost var all := BoundValues(inputs, quals);
    var values: map<string, Json> := map[];
    for i := 0 to |inputs|
      invariant Gathered(inputs[..i], all[..i]) == Args(values)
    {
      assert inputs[..i + 1][..i] == inputs[..i] && all[..i + 1][..i] == all[..i];
      var supplied := FindEqual(quals, inputs[i].sqlName);
      if supplied.Some? {
        values := values[inputs[i].property := supplied.value];
      } else if inputs[i].required {
        MissingStays(inputs, all, i + 1);
        return Missing(inputs[i].sqlName);
      }
    }
    assert inputs[..|inputs|] == inputs && all[..|inputs|] == all;
    r := Args(values);
  }

  lemma {:induction false} MissingStays(inputs: seq<Column>, supplied: seq<Option<Json>>, n: nat)
    requires n <= |inputs| == |supplied|
    requires Gathered(inputs[..n], supplied[..n]).Missing?
    ensures Gathered(inputs, supplied) == Gathered(inputs[..n], supplied[..n])
  {
    if n == |inputs| {
      assert inputs[..n] == inputs && supplied[..n] == supplied;
    } else {
      var k := |inputs| - 1;
      assert inputs[..k][..n] == inputs[..n] && supplied[..k][..n] == supplied[..n];
      MissingStays(inputs[..k], supplied[..k], n);
    }
  }

  lemma {:induction false} GatheredIff(inputs: seq<Column>, supplied: seq<Option<Json>>)
    requires |inputs| == |supplied|
    ensures Gathered(inputs, supplied).Args?
            <==> forall i | 0 <= i < |inputs| && inputs[i].required :: supplied[i].Some?
  {
    if inputs != [] {
      var n := |inputs| - 1;
      var ins, sup := inputs[..n], supplied[..n];
      GatheredIff(ins, sup);
      assert forall i | 0 <= i < n :: ins[i] == inputs[i] && sup[i] == supplied[i];
    }
  }

  lemma {:induction false} GatheredValue(inputs: seq<Column>, supplied: seq<Option<Json>>, i: nat)
    requires |inputs| == |supplied| && DistinctProperties(inputs) && Gathered(inputs, supplied).Args?
    requires i < |inputs| && supplied[i].Some?
    ensures inputs[i].property in Gathered(inputs, supplied).values
    ensures Gathered(inputs, supplied).values[inputs[i].property] == supplied[i].value
  {
    var n := |inputs| - 1;
    if i < n {
      GatheredValue(inputs[..n], supplied[..n], i);
    }
  }

  lemma {:induction false} GatheredOnly(inputs: seq<Column>, supplied: seq<Option<Json>>, p: string)
    requires |inputs| == |supplied| && Gathered(inputs, supplied).Args? && p in Gathered(inputs, supplied).values
    ensures exists i | 0 <= i < |inputs| :: inputs[i].property == p && supplied[i].Some?
  {
    var n := |inputs| - 1;
    if !(inputs[n].property == p && supplied[n].Some?) {
      GatheredOnly(inputs[..n], supplied[..n], p);
      var i :| 0 <= i < n && inputs[..n][i].property == p && supplied[..n][i].Some?;
      assert inputs[i].property == p && supplied[i].Some?;
    }
  }

  /** There are arguments exactly when every required input is supplied, and then
      they are each supplied property with its value and nothing else. */
  lemma GatheredMeans(inputs: seq<Column>, supplied: seq<Option<Json>>)
    requires |inputs| == |supplied| && DistinctProperties(inputs)
    ensures Gathered(inputs, supplied).Args?
            <==> forall i | 0 <= i < |inputs| && inputs[i].required :: supplied[i].Some?
    ensures Gathered(inputs, supplied).Args? ==>
              && (forall p | p in Gathered(inputs, supplied).values ::
                    exists i | 0 <= i < |inputs| :: inputs[i].property == p && supplied[i].Some?)
              && (forall i | 0 <= i < |inputs| && supplied[i].Some? ::
                    inputs[i].property in Gathered(inputs, supplied).values
                    && Gathered(inputs, supplied).values[inputs[i].property] == supplied[i].value)
  {
    GatheredIff(inputs, supplied);
    if Gathered(inputs, supplied).Args? {
      forall p | p in Gathered(inputs, supplied).values
        ensures exists i | 0 <= i < |inputs| :: inputs[i].property == p && supplied[i].Some?
      {
        GatheredOnly(inputs, supplied, p);
      }
      forall i | 0 <= i < |inputs| && supplied[i].Some? {
        GatheredValue(inputs, supplied, i);
      }
    }
  }

  // ----- rows -----

  /** A field of the structured content; `items` when it is an array. */
  datatype Field = Field(value: Json, items: Option<seq<map<string, Json>>>)

  datatype CallResult = CallResult(isError: bool, content: Option<Json>, structured: map<string, Field>)

  function CellOf(fields: map<string, Json>, col: Column, io: Readers): Option<Cell> {
    if col.property in fields then JsonToCell(fields[col.property], col.pgType, io) else None
  }

  function Cells(fields: map<string, Json>, cols: seq<Column>, io: Readers): (cells: Row)
    ensures |cells| == |cols|
  {
    seq(|cols|, i requires 0 <= i < |cols| => CellOf(fields, cols[i], io))
  }

  function NullOutputs(tool: PlannedTool): Row {
    seq(|OutputColumns(tool.output)|, _ => None)
  }

  function ShapeRow(tool: PlannedTool, args: map<string, Json>, outputs: Row, res: CallResult, io: Readers): Row {
    Cells(args, tool.inputs, io) + outputs
    + [if res.content.Some? then Some(CJson(res.content.value)) else None, Some(CBool(res.isError))]
  }

  function PlainFields(structured: map<string, Field>): map<string, Json> {
    map p | p in structured :: structured[p].value
  }

  function Elements(structured: map<string, Field>, property: string): seq<map<string, Json>> {
    if property in structured && structured[property].items.Some? then structured[property].items.value else []
  }

  /** The rows of one call: an error gives one row without outputs, a list one row
      for each element and one without outputs when it is empty. */
  function Shaped(tool: PlannedTool, args: map<string, Json>, res: CallResult, io: Readers): seq<Row> {
    if res.isError then [ShapeRow(tool, args, NullOutputs(tool), res, io)]
    else
      match tool.output
      case NoColumns => [ShapeRow(tool, args, [], res, io)]
      case Single(columns) => [ShapeRow(tool, args, Cells(PlainFields(res.structured), columns, io), res, io)]
      case ElementOf(property, columns) =>
        var elements := Elements(res.structured, property);
        if elements == [] then [ShapeRow(tool, args, NullOutputs(tool), res, io)]
        else seq(|elements|, i requires 0 <= i < |elements| =>
               ShapeRow(tool, args, Cells(elements[i], columns, io), res, io))
  }

  method InvokeAndShape(tool: PlannedTool, args: map<string, Json>, res: CallResult, io: Readers)
    returns (rows: seq<Row>)
    ensures rows == Shaped(tool, args, res, io)
  {
    rows := [];
    if res.isError {
      return [ShapeRow(tool, args, NullOutputs(tool), res, io)];
    }
    match tool.output {
      case ElementOf(property, columns) =>
        var elements := Elements(res.structured, property);
        if elements == [] {
          rows := [ShapeRow(tool, args, NullOutputs(tool), res, io)];
        } else {
          for i := 0 to |elements|
            invariant |rows| == i
            invariant forall k | 0 <= k < i :: rows[k] == ShapeRow(tool, args, Cells(elements[k], columns, io), res, io)
          {
            rows := rows + [ShapeRow(tool, args, Cells(elements[i], columns, io), res, io)];
          }
        }
      case Single(columns) => rows := [ShapeRow(tool, args, Cells(PlainFields(res.structured), columns, io), res, io)];
      case NoColumns => rows := [ShapeRow(tool, args, [], res, io)];
    }
  }

  /** The output columns of row `i` come from where the shape says: the elements of a
      list in order, the result's own fields, or nowhere. */
  function SourceOf(tool: PlannedTool, res: CallResult, i: nat): map<string, Json> {
    if res.isError then map[]
    else if tool.output.Single? then PlainFields(res.structured)
    else if tool.output.ElementOf? && i < |Elements(res.structured, tool.output.property)|
    then Elements(res.structured, tool.output.property)[i]
    else map[]
  }

  lemma ShapedRowIs(tool: PlannedTool, args: map<string, Json>, res: CallResult, io: Readers, i: nat)
    requires i < |Shaped(tool, args, res, io)|
    ensures Shaped(tool, args, res, io)[i]
            == ShapeRow(tool, args, Cells(SourceOf(tool, res, i), OutputColumns(tool.output), io), res, io)
  {
    assert NullOutputs(tool) == Cells(map[], OutputColumns(tool.output), io);
  }

  lemma ShapeRowCarries(tool: PlannedTool, args: map<string, Json>, source: map<string, Json>, res: CallResult,
                        io: Readers)
    ensures var outs, n := OutputColumns(tool.output), |tool.inputs|;
            var row := ShapeRow(tool, args, Cells(source, outs, io), res, io);
            && |row| == n + |outs| + 2
            && (forall k | 0 <= k < n :: row[k] == CellOf(args, tool.inputs[k], io))
            && (forall k | 0 <= k < |outs| :: row[n + k] == CellOf(source, outs[k], io))
            && (row[n + |outs|].Some? <==> res.content.Some?)
            && (res.content.Some? ==> row[n + |outs|] == Some(CJson(res.content.value)))
            && row[n + |outs| + 1] == Some(CBool(res.isError))
  {
  }

  /** Every row carries its arguments, its outputs, the content and the error flag in
      their columns, and a list gives one row for each element. */
  lemma RowsCarryResult(tool: PlannedTool, args: map<string, Json>, res: CallResult, io: Readers, i: nat)
    requires i < |Shaped(tool, args, res, io)|
    ensures var row, n, outs := Shaped(tool, args, res, io)[i], |tool.inputs|, OutputColumns(tool.output);
            && |row| == n + |outs| + 2
            && (forall k | 0 <= k < n :: row[k] == CellOf(args, tool.inputs[k], io))
            && (forall k | 0 <= k < |outs| :: row[n + k] == CellOf(SourceOf(tool, res, i), outs[k], io))
            && (row[n + |outs|].Some? <==> res.content.Some?)
            && (res.content.Some? ==> row[n + |outs|] == Some(CJson(res.content.value)))
            && row[n + |outs| + 1] == Some(CBool(res.isError))
    ensures !res.isError && tool.output.ElementOf? && Elements(res.structured, tool.output.property) != [] ==>
              |Shaped(tool, args, res, io)| == |Elements(res.structured, tool.output.property)|
    ensures res.isError || !tool.output.ElementOf? ==> |Shaped(tool, args, res, io)| == 1
  {
    ShapedRowIs(tool, args, res, io, i);
    ShapeRowCarries(tool, args, SourceOf(tool, res, i), res, io);
  }

  // ----- the filter -----

  function JsonAt(row: Row, i: nat): Json {
    if i < |row| && row[i].Some? then AsJson(row[i].value) else JNull
  }

  /** One restriction on one row.  Equalities on inputs were consumed as arguments,
      and a column the tool no longer has is not checked. */
  predicate FilterOne(tool: PlannedTool, q: Qual, row: Row) {
    var outs := SqlNames(OutputColumns(tool.output));
    var pos := Position(outs, q.field);
    if q.field in SqlNames(tool.inputs) && q.operator.Equal? then true
    else if pos < |outs| then MatchesJson(q, JsonAt(row, |tool.inputs| + pos))
    else if q.field == "content" then MatchesJson(q, JsonAt(row, |tool.inputs| + |outs|))
    else if q.field == "is_error" then MatchesJson(q, JsonAt(row, |tool.inputs| + |outs| + 1))
    else true
  }

  predicate PostFilter(tool: PlannedTool, quals: seq<Qual>, row: Row) {
    forall q | q in quals :: FilterOne(tool, q, row)
  }

  function Retained(tool: PlannedTool, quals: seq<Qual>, rows: seq<Row>): (kept: seq<Row>)
    ensures forall row | row in kept :: row in rows && PostFilter(tool, quals, row)
  {
    if rows == [] then []
    else
      var before, row := Retained(tool, quals, rows[..|rows| - 1]), rows[|rows| - 1];
      if PostFilter(tool, quals, row) then before + [row] else before
  }

  datatype ScanStart = NotReadOnly | NotResolved | MissingArgument(column: string) | CallFailed | Ready(rows: seq<Row>)

  /** What the tool's definition resolves to, if the list can be had and names it; the
      list is asked for only when the cache does not have it. */
  datatype Resolution = Resolution(tool: Option<PlannedTool>, listed: bool)

  /** What a scan sends, in order. */
  datatype Message = ListTools | CallTool(args: map<string, Json>)

  /** A scan: the gate comes before anything is sent, the tool is resolved next, and its
      arguments are settled before the one call. */
  method BeginScan(invokeOnSelect: bool, found: Resolution, quals: seq<Qual>,
                   call: map<string, Json> -> Option<CallResult>, io: Readers)
    returns (out: ScanStart, sent: seq<Message>)
    ensures !invokeOnSelect ==> out == NotReadOnly && sent == []
    ensures invokeOnSelect && found.tool.None? ==>
              && out == NotResolved
              && sent == if found.listed then [ListTools] else []
    ensures invokeOnSelect && found.tool.Some? ==>
              var tool := found.tool.value;
              var args := Gathered(tool.inputs, BoundValues(tool.inputs, quals));
              var listing := if found.listed then [ListTools] else [];
              && (args.Missing? ==> out == MissingArgument(args.column) && sent == listing)
              && (args.Args? ==>
                    && sent == listing + [CallTool(args.values)]
                    && out == match call(args.values)
                              case None => CallFailed
                              case Some(res) => Ready(Retained(tool, quals, Shaped(tool, args.values, res, io))))
  {
    sent := [];
    if !invokeOnSelect {
      return NotReadOnly, [];
    }
    if found.listed {
      sent := [ListTools];
    }
    if found.tool.None? {
      return NotResolved, sent;
    }
    var tool := found.tool.value;
    var args := ArgumentsFromQuals(tool.inputs, quals);
    if args.Missing? {
      return MissingArgument(args.column), sent;
    }
    var res := call(args.values);
    sent := sent + [CallTool(args.values)];
    if res.None? {
      return CallFailed, sent;
    }
    var rows := InvokeAndShape(tool, args.values, res.value, io);
    out := Ready(Retained(tool, quals, rows));
  }
}
