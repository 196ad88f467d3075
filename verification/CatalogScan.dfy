/**
Scans of the catalog tables (pg/pg_mcp/src/tables/catalog.rs,
`apply_post_filters`): pushed restrictions are applied to the fetched rows by
the extension and never seen again by PostgreSQL, which checks the local
clauses only.  The theorems say when this returns exactly the rows the WHERE
clause asks for.
*/
module CatalogScan {
  import opened Options
  import opened PgValues
  import opened Clauses

  type Row = seq<Option<Cell>>

  /** The row as the executor sees it. */
  function SqlOf(row: Row, date: string -> string): SqlRow {
    seq(|row|, i requires 0 <= i < |row| =>
      if row[i].None? then None else Some(CellToDatum(row[i].value, date)))
  }

  /** The first column called `field`, or the number of columns. */
  function Position(columns: seq<string>, field: string): (i: nat)
    ensures i <= |columns|
    ensures i < |columns| ==> columns[i] == field
    ensures forall k | 0 <= k < i :: columns[k] != field
  {
    if columns == [] || columns[0] == field then 0 else 1 + Position(columns[1..], field)
  }

  /** The cell of column `field` as JSON, null when missing. */
  function Candidate(row: Row, columns: seq<string>, field: string): Json {
    var i := Position(columns, field);
    if i < |columns| && i < |row| && row[i].Some? then AsJson(row[i].value) else JNull
  }

  predicate MatchesJson(q: Qual, candidate: Json) {
    match q.operator
    case Equal => |q.values| == 1 && JsonEqual(q.values[0], candidate)
    case AnyEqual => exists i | 0 <= i < |q.values| :: JsonEqual(q.values[i], candidate)
  }

  predicate IsSupported(q: Qual) {
    && q.field != ""
    && (q.operator.Equal? ==> |q.values| == 1 && !q.values[0].JNull?)
    && (q.operator.AnyEqual? ==>
          forall i | 0 <= i < |q.values| :: q.values[i].JBool? || q.values[i].JNum? || q.values[i].JStr?)
  }

  predicate Keeps(quals: seq<Qual>, row: Row, t: Table) {
    forall q | q in quals && q.field in t.pushable && IsSupported(q) ::
      MatchesJson(q, Candidate(row, t.columns, q.field))
  }

  function PostFiltered(rows: seq<Row>, quals: seq<Qual>, t: Table): seq<Row> {
    if rows == [] then []
    else
      PostFiltered(rows[..|rows| - 1], quals, t)
      + if Keeps(quals, rows[|rows| - 1], t) then [rows[|rows| - 1]] else []
  }

  /** The rows that satisfy all of `nodes`, in order. */
  function Where(rows: seq<Row>, nodes: seq<Node>, env: Env, date: string -> string): seq<Row> {
    if rows == [] then []
    else
      Where(rows[..|rows| - 1], nodes, env, date)
      + if Passes(nodes, SqlOf(rows[|rows| - 1], date), env) then [rows[|rows| - 1]] else []
  }

  /** What a scan returns: fetched rows, filtered by the extension, then checked by
      PostgreSQL against the local clauses. */
  function Scan(rows: seq<Row>, clauses: seq<Clause>, t: Table, env: Env, date: string -> string): seq<Row> {
    PlanIndexesInRange(clauses, t);
    var plan := PlanOf(clauses, t);
    Where(PostFiltered(rows, ScanQuals(plan, env), t), plan.local, env, date)
  }

  function NodesOf(clauses: seq<Clause>): seq<Node> {
    seq(|clauses|, i requires 0 <= i < |clauses| => clauses[i].node)
  }

  // ----- the conditions -----

  /** Text, which PostgreSQL keeps free of NULs, booleans, and integers that 64-bit
      floats represent. */
  predicate SimpleDatum(d: Datum) {
    (d.DText? && '\0' !in d.s) || d.DBool? || (d.DInt? && ExactInt(d.i))
  }

  /** The same from the wire, where text may hold NULs. */
  predicate SimpleCell(c: Cell) {
    c.CText? || c.CBool? || (c.CInt? && ExactInt(c.i))
  }

  /** A constant or parameter operand is NULL or of a carried simple type. */
  predicate SimpleOperand(n: Node, env: Env) {
    && (n.Const? && n.value.Some? ==> SimpleDatum(n.value.value))
    && (n.Param? && n.external && env.external(n.id).Some? ==> SimpleDatum(env.external(n.id).value))
  }

  /** The right side of `= ANY` and `= ALL` is an array value or NULL. */
  predicate ArrayOperand(n: Node, env: Env) {
    && !n.Var?
    && (n.Const? && n.value.Some? ==> n.value.value.DArray?)
    && (n.Param? && n.external && env.external(n.id).Some? ==> env.external(n.id).value.DArray?)
  }

  predicate Typed(n: Node, env: Env) {
    match n
    case Eq(l, r) => SimpleOperand(Strip(l), env) && SimpleOperand(Strip(r), env)
    case AnyOf(l, r, _) => ArrayOperand(Strip(r), env)
    case Or(args) => forall i | 0 <= i < |args| ::
        Strip(args[i]).Eq? ==>
          && SimpleOperand(Strip(Strip(args[i]).left), env)
          && SimpleOperand(Strip(Strip(args[i]).right), env)
    case _ => true
  }

  /** Column names are distinct and not empty. */
  ghost predicate GoodColumns(t: Table) {
    && (forall i, j | 0 <= i < j < |t.columns| :: t.columns[i] != t.columns[j])
    && "" !in t.columns
  }

  /** Rows are full width, and their pushable columns hold simple cells. */
  ghost predicate GoodTable(t: Table, rows: seq<Row>) {
    GoodColumns(t) && forall r | 0 <= r < |rows| :: GoodRow(t, rows[r])
  }

  ghost predicate GoodRow(t: Table, row: Row) {
    && |row| == |t.columns|
    && forall i | 0 <= i < |row| && t.columns[i] in t.pushable && row[i].Some? :: SimpleCell(row[i].value)
  }

  /** Pushed clauses compare with carried simple values, or arrays.  Nothing is asked
      of the clauses that PostgreSQL checks itself. */
  ghost predicate GoodClauses(clauses: seq<Clause>, t: Table, env: Env) {
    forall i | 0 <= i < |clauses| && !StaysLocal(clauses[i], t) :: Typed(clauses[i].node, env)
  }

  // ----- what is admitted and what is true -----

  /** The filter sees the NULs of a text cell, and PostgreSQL does not. */
  predicate NulFree(row: Row, col: nat) {
    col < |row| && row[col].Some? && row[col].value.CText? ==> '\0' !in row[col].value.s
  }

  /** The filter finds the compared value: the row has it, and has it without NULs. */
  predicate Matched(row: Row, x: Comparison, date: string -> string) {
    Satisfies(SqlOf(row, date), x) && NulFree(row, x.col)
  }

  /** What the scan still asks of a row for a pushed clause. */
  predicate Admitted(n: Node, env: Env, row: Row, date: string -> string) {
    n.AnyOf? || Compared(n, env).None? || Matched(row, Compared(n, env).value, date)
  }

  predicate AdmitsClause(c: Clause, t: Table, env: Env, row: Row, date: string -> string) {
    if StaysLocal(c, t) then Eval(c.node, SqlOf(row, date), env) == TRUE else Admitted(c.node, env, row, date)
  }

  predicate AdmitsAll(clauses: seq<Clause>, t: Table, env: Env, row: Row, date: string -> string) {
    forall i | 0 <= i < |clauses| :: AdmitsClause(clauses[i], t, env, row, date)
  }

  /** The rows that every clause admits, in order. */
  function Admitting(rows: seq<Row>, clauses: seq<Clause>, t: Table, env: Env, date: string -> string): seq<Row> {
    if rows == [] then []
    else
      Admitting(rows[..|rows| - 1], clauses, t, env, date)
      + if AdmitsAll(clauses, t, env, rows[|rows| - 1], date) then [rows[|rows| - 1]] else []
  }

  /** `column = ALL($n)` holds: the array is there, and every element is the row's
      value. */
  predicate HoldsForAll(n: Node, env: Env, row: SqlRow) {
    n.AnyOf? && Strip(n.left).Var? && Strip(n.right).Param? &&
    match env.external(Strip(n.right).id)
    case Some(DArray(elems)) => EqualsAll(if Strip(n.left).col < |row| then row[Strip(n.left).col] else None, elems)
    case _ => false
  }

  /** The clause admits a row it is not true of: `= ALL` is not applied at all, a bare
      equality meets a NULL parameter, or the optional shape is skipped although the
      parameter it tests is not NULL. */
  predicate TooMuch(n: Node, env: Env, row: SqlRow) {
    if n.AnyOf? then !HoldsForAll(n, env, row) else Compared(n, env).None? && !TestedNull(n, env)
  }

  /** The clause is true of a row it does not admit: the optional shape is applied
      although the parameter it tests is NULL, or the row has the compared value only
      once its NULs are dropped. */
  predicate Loses(n: Node, env: Env, row: Row, date: string -> string) {
    && !n.AnyOf? && Compared(n, env).Some? && !Matched(row, Compared(n, env).value, date)
    && (TestedNull(n, env) || Satisfies(SqlOf(row, date), Compared(n, env).value))
  }

  // ----- one clause -----

  lemma {:induction false} DroppedNuls(s: string)
    ensures '\0' !in WithoutNul(s)
  {
    if s != "" {
      DroppedNuls(s[..|s| - 1]);
    }
  }

  /** The extension's equality is PostgreSQL's, on cells without NULs. */
  lemma EqualitiesAgree(c: Cell, v: Datum, date: string -> string)
    requires SimpleCell(c) && SimpleDatum(v)
    ensures DatumToJson(v).Some? && !DatumToJson(v).value.JNull?
    ensures JsonEqual(DatumToJson(v).value, AsJson(c))
            <==> SqlEq(CellToDatum(c, date), v) && (c.CText? ==> '\0' !in c.s)
    ensures SqlEq(CellToDatum(c, date), v) <==> SqlEq(v, CellToDatum(c, date))
  {
    if c.CText? && '\0' !in c.s {
      NoNulToDrop(c.s);
    }
    if c.CInt? && v.DInt? {
      IntsBelowLimitAreExact(c.i);
      IntsBelowLimitAreExact(v.i);
    }
  }

  lemma FieldPosition(t: Table, col: nat)
    requires GoodColumns(t) && col < |t.columns|
    ensures Position(t.columns, t.columns[col]) == col
  {
  }

  /** A pushed equality keeps a row exactly when the filter finds its value. */
  lemma EqualKeepsIff(t: Table, row: Row, x: Comparison, date: string -> string)
    requires GoodColumns(t) && GoodRow(t, row) && x.col < |t.columns| && t.columns[x.col] in t.pushable
    requires SimpleDatum(x.value)
    ensures DatumToJson(x.value).Some?
    ensures Keeps([Qual(t.columns[x.col], Equal, [DatumToJson(x.value).value])], row, t) <==> Matched(row, x, date)
  {
    FieldPosition(t, x.col);
    var q := Qual(t.columns[x.col], Equal, [DatumToJson(x.value).value]);
    assert t.columns[x.col] != "";
    assert IsSupported(q);
    assert [q][0] == q;
    if row[x.col].Some? {
      EqualitiesAgree(row[x.col].value, x.value, date);
    }
  }

  /** The compared value of a typed clause is simple. */
  lemma ComparedIsSimple(n: Node, env: Env)
    requires Typed(n, env) && Compared(n, env).Some?
    ensures SimpleDatum(Compared(n, env).value.value)
  {
  }

  /** The restrictions of a pushed clause keep exactly the rows it admits. */
  lemma KeepsIffAdmitted(t: Table, row: Row, c: Clause, env: Env, date: string -> string)
    requires GoodColumns(t) && GoodRow(t, row) && Typed(c.node, env) && !StaysLocal(c, t)
    ensures Keeps(QualsOf(c, t, env), row, t) <==> Admitted(c.node, env, row, date)
  {
    if c.node.AnyOf? {
      AllMeans(c, t, env, SqlOf(row, date));
    } else {
      PushedClauseMeans(c, t, env, SqlOf(row, date));
      var x := Compared(c.node, env);
      if x.Some? {
        ComparedIsSimple(c.node, env);
        EqualKeepsIff(t, row, x.value, date);
      }
    }
  }

  lemma TrueIff(t: Table, c: Clause, env: Env, row: SqlRow)
    requires Typed(c.node, env) && !StaysLocal(c, t)
    ensures Eval(c.node, row, env) == TRUE <==>
            if c.node.AnyOf? then HoldsForAll(c.node, env, row) else Asks(c.node, env, row)
  {
    if c.node.AnyOf? {
      AllMeans(c, t, env, row);
    } else {
      PushedClauseMeans(c, t, env, row);
    }
  }

  /** A pushed clause keeps a row exactly when it is true of it, unless it admits too
      much or loses it.  Of the optional shape this says: there is nothing to compare and
      the tested parameter is NULL, or the filter finds the compared value, or the
      tested parameter has a value and the row is not the asked one. */
  lemma ClauseIsExactIff(t: Table, row: Row, c: Clause, env: Env, date: string -> string)
    requires GoodColumns(t) && GoodRow(t, row) && Typed(c.node, env) && !StaysLocal(c, t)
    ensures var sql, x := SqlOf(row, date), Compared(c.node, env);
            && ((Keeps(QualsOf(c, t, env), row, t) <==> Eval(c.node, sql, env) == TRUE)
                <==> !TooMuch(c.node, env, sql) && !Loses(c.node, env, row, date))
            && (c.node.Or? ==>
                  (!TooMuch(c.node, env, sql) && !Loses(c.node, env, row, date) <==>
                     if x.None? then TestedNull(c.node, env)
                     else Matched(row, x.value, date) || (!TestedNull(c.node, env) && !Satisfies(sql, x.value))))
  {
    KeepsIffAdmitted(t, row, c, env, date);
    TrueIff(t, c, env, SqlOf(row, date));
  }

  // ----- a whole clause list -----

  lemma KeepsSplit(quals: seq<Qual>, more: seq<Qual>, all: seq<Qual>, row: Row, t: Table)
    requires forall q :: q in all <==> q in quals || q in more
    ensures Keeps(all, row, t) <==> Keeps(quals, row, t) && Keeps(more, row, t)
  {
  }

  lemma PassesAppend(nodes: seq<Node>, n: Node, row: SqlRow, env: Env)
    ensures Passes(nodes + [n], row, env) <==> Passes(nodes, row, env) && Eval(n, row, env) == TRUE
  {
    var more := nodes + [n];
    assert forall i | 0 <= i < |nodes| :: more[i] == nodes[i];
    assert more[|nodes|] == n;
  }

  lemma AdmitsAppend(clauses: seq<Clause>, c: Clause, t: Table, env: Env, row: Row, date: string -> string)
    ensures AdmitsAll(clauses + [c], t, env, row, date)
            <==> AdmitsAll(clauses, t, env, row, date) && AdmitsClause(c, t, env, row, date)
  {
    var more := clauses + [c];
    assert forall i | 0 <= i < |clauses| :: more[i] == clauses[i];
    assert more[|clauses|] == c;
  }

  ghost predicate PlanInRange(plan: Plan) {
    forall i | 0 <= i < |plan.params| :: plan.params[i].index < |plan.exprs|
  }

  /** The extension's filter and PostgreSQL's local checks together. */
  ghost predicate Survives(plan: Plan, row: Row, t: Table, env: Env, date: string -> string)
    requires PlanInRange(plan)
  {
    Keeps(ScanQuals(plan, env), row, t) && Passes(plan.local, SqlOf(row, date), env)
  }

  /** A row survives a scan exactly when every clause admits it. */
  lemma {:induction false} RowSurvivesIff(t: Table, row: Row, clauses: seq<Clause>, env: Env, date: string -> string)
    requires GoodColumns(t) && GoodRow(t, row) && GoodClauses(clauses, t, env)
    ensures PlanInRange(PlanOf(clauses, t))
    ensures Survives(PlanOf(clauses, t), row, t, env, date) <==> AdmitsAll(clauses, t, env, row, date)
  {
    PlanIndexesInRange(clauses, t);
    if clauses != [] {
      var init, c := clauses[..|clauses| - 1], clauses[|clauses| - 1];
      assert clauses == init + [c];
      RowSurvivesIff(t, row, init, env, date);
      ClauseSurvives(t, row, init, c, env, date);
      AdmitsAppend(init, c, t, env, row, date);
    }
  }

  lemma ClauseSurvives(t: Table, row: Row, init: seq<Clause>, c: Clause, env: Env, date: string -> string)
    requires GoodColumns(t) && GoodRow(t, row) && (!StaysLocal(c, t) ==> Typed(c.node, env))
    requires PlanInRange(PlanOf(init, t)) && PlanInRange(PlanOf(init + [c], t))
    ensures Survives(PlanOf(init + [c], t), row, t, env, date)
            <==> Survives(PlanOf(init, t), row, t, env, date) && AdmitsClause(c, t, env, row, date)
  {
    var before, after := PlanOf(init, t), PlanOf(init + [c], t);
    forall q ensures q in ScanQuals(after, env) <==> q in ScanQuals(before, env) || q in QualsOf(c, t, env) {
      PlanStep(init, c, t, env, q);
    }
    KeepsSplit(ScanQuals(before, env), QualsOf(c, t, env), ScanQuals(after, env), row, t);
    PlanStep(init, c, t, env, Qual("", Equal, []));
    PassesAppend(before.local, c.node, SqlOf(row, date), env);
    if StaysLocal(c, t) {
      assert QualsOf(c, t, env) == [];
    } else {
      assert after.local == before.local;
      KeepsIffAdmitted(t, row, c, env, date);
    }
  }

  // ----- rows -----

  lemma {:induction false} FilterTwice(rows: seq<Row>, plan: Plan, clauses: seq<Clause>, t: Table, env: Env,
                                       date: string -> string)
    requires PlanInRange(plan)
    requires forall r | 0 <= r < |rows| ::
               Survives(plan, rows[r], t, env, date) <==> AdmitsAll(clauses, t, env, rows[r], date)
    ensures Where(PostFiltered(rows, ScanQuals(plan, env), t), plan.local, env, date)
            == Admitting(rows, clauses, t, env, date)
  {
    if rows != [] {
      var init, row := rows[..|rows| - 1], rows[|rows| - 1];
      var quals := ScanQuals(plan, env);
      FilterTwice(init, plan, clauses, t, env, date);
      if Keeps(quals, row, t) {
        var p := PostFiltered(init, quals, t);
        assert (p + [row])[..|p|] == p;
      } else {
        assert PostFiltered(rows, quals, t) == PostFiltered(init, quals, t);
      }
    }
  }

  /** For every clause list the scan returns, in order, exactly the rows that every
      clause admits. */
  lemma ScanReturnsAdmitted(rows: seq<Row>, clauses: seq<Clause>, t: Table, env: Env, date: string -> string)
    requires GoodTable(t, rows) && GoodClauses(clauses, t, env)
    ensures Scan(rows, clauses, t, env, date) == Admitting(rows, clauses, t, env, date)
  {
    PlanIndexesInRange(clauses, t);
    var plan := PlanOf(clauses, t);
    forall r | 0 <= r < |rows|
      ensures Survives(plan, rows[r], t, env, date) <==> AdmitsAll(clauses, t, env, rows[r], date)
    {
      RowSurvivesIff(t, rows[r], clauses, env, date);
    }
    FilterTwice(rows, plan, clauses, t, env, date);
  }

  lemma {:induction false} InAdmitting(rows: seq<Row>, clauses: seq<Clause>, t: Table, env: Env,
                                       date: string -> string, row: Row)
    ensures row in Admitting(rows, clauses, t, env, date) <==> row in rows && AdmitsAll(clauses, t, env, row, date)
  {
    if rows != [] {
      InAdmitting(rows[..|rows| - 1], clauses, t, env, date, row);
      assert rows == rows[..|rows| - 1] + [rows[|rows| - 1]];
    }
  }

  lemma {:induction false} InWhere(rows: seq<Row>, nodes: seq<Node>, env: Env, date: string -> string, row: Row)
    ensures row in Where(rows, nodes, env, date) <==> row in rows && Passes(nodes, SqlOf(row, date), env)
  {
    if rows != [] {
      InWhere(rows[..|rows| - 1], nodes, env, date, row);
      assert rows == rows[..|rows| - 1] + [rows[|rows| - 1]];
    }
  }

  ghost predicate SameOn(rows: seq<Row>, clauses: seq<Clause>, t: Table, env: Env, date: string -> string) {
    forall r | 0 <= r < |rows| ::
      AdmitsAll(clauses, t, env, rows[r], date) <==> Passes(NodesOf(clauses), SqlOf(rows[r], date), env)
  }

  lemma {:induction false} SameFilter(rows: seq<Row>, clauses: seq<Clause>, t: Table, env: Env, date: string -> string)
    requires SameOn(rows, clauses, t, env, date)
    ensures Admitting(rows, clauses, t, env, date) == Where(rows, NodesOf(clauses), env, date)
  {
    if rows != [] {
      SameFilter(rows[..|rows| - 1], clauses, t, env, date);
    }
  }

  lemma SameFilterIff(rows: seq<Row>, clauses: seq<Clause>, t: Table, env: Env, date: string -> string)
    ensures Admitting(rows, clauses, t, env, date) == Where(rows, NodesOf(clauses), env, date)
            <==> SameOn(rows, clauses, t, env, date)
  {
    if SameOn(rows, clauses, t, env, date) {
      SameFilter(rows, clauses, t, env, date);
    } else {
      var r :| 0 <= r < |rows| &&
        !(AdmitsAll(clauses, t, env, rows[r], date) <==> Passes(NodesOf(clauses), SqlOf(rows[r], date), env));
      InAdmitting(rows, clauses, t, env, date, rows[r]);
      InWhere(rows, NodesOf(clauses), env, date, rows[r]);
    }
  }

  // ----- when the scan is exact -----

  /** A pushed clause of the list admits too much, or loses the row. */
  ghost predicate SomeTooMuch(clauses: seq<Clause>, t: Table, env: Env, row: SqlRow) {
    exists i | 0 <= i < |clauses| :: !StaysLocal(clauses[i], t) && TooMuch(clauses[i].node, env, row)
  }

  ghost predicate SomeLoses(clauses: seq<Clause>, t: Table, env: Env, row: Row, date: string -> string) {
    exists i | 0 <= i < |clauses| :: !StaysLocal(clauses[i], t) && Loses(clauses[i].node, env, row, date)
  }

  /** What a clause does to a row: too much, lost, or right. */
  lemma ClauseVerdicts(c: Clause, t: Table, env: Env, row: Row, date: string -> string)
    requires !StaysLocal(c, t) ==> Typed(c.node, env)
    ensures var sql, pushed := SqlOf(row, date), !StaysLocal(c, t);
            var holds, admits := Eval(c.node, sql, env) == TRUE, AdmitsClause(c, t, env, row, date);
            && (pushed && TooMuch(c.node, env, sql) ==> !holds) && (pushed && Loses(c.node, env, row, date) ==> !admits)
            && (admits && !holds ==> pushed && TooMuch(c.node, env, sql))
            && (!admits && holds ==> pushed && Loses(c.node, env, row, date))
  {
    if !StaysLocal(c, t) {
      TrueIff(t, c, env, SqlOf(row, date));
    }
  }

  /** On one row, the scan and the WHERE clause differ exactly when the row is admitted
      by all and too much by one, or passes all and is lost by one. */
  lemma RowIsExactIff(clauses: seq<Clause>, t: Table, env: Env, row: Row, date: string -> string)
    requires GoodClauses(clauses, t, env)
    ensures var sql := SqlOf(row, date);
            (AdmitsAll(clauses, t, env, row, date) <==> Passes(NodesOf(clauses), sql, env)) <==>
            && !(AdmitsAll(clauses, t, env, row, date) && SomeTooMuch(clauses, t, env, sql))
            && !(Passes(NodesOf(clauses), sql, env) && SomeLoses(clauses, t, env, row, date))
  {
    assert forall i | 0 <= i < |clauses| :: NodesOf(clauses)[i] == clauses[i].node;
    forall i | 0 <= i < |clauses| {
      ClauseVerdicts(clauses[i], t, env, row, date);
    }
  }

  /** The scan and the WHERE clause treat the row alike: it is not admitted by all and
      too much for one, nor does it pass all and is lost by one. */
  ghost predicate Alike(clauses: seq<Clause>, t: Table, env: Env, row: Row, date: string -> string) {
    && !(AdmitsAll(clauses, t, env, row, date) && SomeTooMuch(clauses, t, env, SqlOf(row, date)))
    && !(Passes(NodesOf(clauses), SqlOf(row, date), env) && SomeLoses(clauses, t, env, row, date))
  }

  /** For every clause list: the scan returns exactly the rows of the WHERE clause if
      and only if no row that all clauses admit is too much for one of them, and no row
      that passes all of them is lost by one. */
  lemma ScanIsExactIff(rows: seq<Row>, clauses: seq<Clause>, t: Table, env: Env, date: string -> string)
    requires GoodTable(t, rows) && GoodClauses(clauses, t, env)
    ensures Scan(rows, clauses, t, env, date) == Where(rows, NodesOf(clauses), env, date)
            <==> forall r | 0 <= r < |rows| :: Alike(clauses, t, env, rows[r], date)
  {
    ScanReturnsAdmitted(rows, clauses, t, env, date);
    SameFilterIff(rows, clauses, t, env, date);
    forall r | 0 <= r < |rows| {
      RowIsExactIff(clauses, t, env, rows[r], date);
    }
  }

  /** The parameters leave no room for a difference: no `= ALL` is pushed, no bare
      equality meets NULL, and an optional shape tests NULL exactly when it compares
      with NULL. */
  ghost predicate Harmless(clauses: seq<Clause>, t: Table, env: Env) {
    forall i | 0 <= i < |clauses| && !StaysLocal(clauses[i], t) ::
      !clauses[i].node.AnyOf? && (TestedNull(clauses[i].node, env) <==> Compared(clauses[i].node, env).None?)
  }

  /** Then the scan is exact if and only if no row that passes has a compared value
      only once its NULs are dropped. */
  lemma HarmlessScanIsExactIff(rows: seq<Row>, clauses: seq<Clause>, t: Table, env: Env, date: string -> string)
    requires GoodTable(t, rows) && GoodClauses(clauses, t, env) && Harmless(clauses, t, env)
    ensures Scan(rows, clauses, t, env, date) == Where(rows, NodesOf(clauses), env, date)
            <==> forall r, i | 0 <= r < |rows| && 0 <= i < |clauses| && !StaysLocal(clauses[i], t)
                   && Compared(clauses[i].node, env).Some? && Passes(NodesOf(clauses), SqlOf(rows[r], date), env)
                 :: NulFree(rows[r], Compared(clauses[i].node, env).value.col)
  {
    ScanIsExactIff(rows, clauses, t, env, date);
    forall r | 0 <= r < |rows|
      ensures Alike(clauses, t, env, rows[r], date) <==>
              (Passes(NodesOf(clauses), SqlOf(rows[r], date), env) ==>
                 forall i | 0 <= i < |clauses| && !StaysLocal(clauses[i], t) && Compared(clauses[i].node, env).Some? ::
                   NulFree(rows[r], Compared(clauses[i].node, env).value.col))
    {
      HarmlessRow(clauses, t, env, rows[r], date);
    }
  }

  lemma HarmlessRow(clauses: seq<Clause>, t: Table, env: Env, row: Row, date: string -> string)
    requires GoodClauses(clauses, t, env) && Harmless(clauses, t, env)
    ensures Alike(clauses, t, env, row, date) <==>
            (Passes(NodesOf(clauses), SqlOf(row, date), env) ==>
               forall i | 0 <= i < |clauses| && !StaysLocal(clauses[i], t) && Compared(clauses[i].node, env).Some? ::
                 NulFree(row, Compared(clauses[i].node, env).value.col))
  {
    var sql := SqlOf(row, date);
    assert forall i | 0 <= i < |clauses| :: NodesOf(clauses)[i] == clauses[i].node;
    forall i | 0 <= i < |clauses| && !StaysLocal(clauses[i], t)
      ensures !TooMuch(clauses[i].node, env, sql)
      ensures Eval(clauses[i].node, sql, env) == TRUE ==>
                (Loses(clauses[i].node, env, row, date) <==>
                 Compared(clauses[i].node, env).Some? && !NulFree(row, Compared(clauses[i].node, env).value.col))
    {
      TrueIff(t, clauses[i], env, sql);
    }
  }

  /** So it is exact on every table whose pushed columns hold no NULs. */
  lemma ScanIsExact(rows: seq<Row>, clauses: seq<Clause>, t: Table, env: Env, date: string -> string)
    requires GoodTable(t, rows) && GoodClauses(clauses, t, env) && Harmless(clauses, t, env)
    requires forall r, k | 0 <= r < |rows| && 0 <= k < |rows[r]| && t.columns[k] in t.pushable :: NulFree(rows[r], k)
    ensures Scan(rows, clauses, t, env, date) == Where(rows, NodesOf(clauses), env, date)
  {
    HarmlessScanIsExactIff(rows, clauses, t, env, date);
    forall i | 0 <= i < |clauses| && !StaysLocal(clauses[i], t) && Compared(clauses[i].node, env).Some?
      ensures var k := Compared(clauses[i].node, env).value.col; k < |t.columns| && t.columns[k] in t.pushable
    {
      PushedClauseMeans(clauses[i], t, env, []);
    }
  }

  /** Without mixed kinds and `= ALL`, that is to say that every pushed parameter of a
      bare equality has a value. */
  lemma HarmlessIff(clauses: seq<Clause>, t: Table, env: Env)
    requires GoodClauses(clauses, t, env)
    requires forall i | 0 <= i < |clauses| && !StaysLocal(clauses[i], t) ::
               !clauses[i].node.AnyOf? && !MixedKinds(clauses[i].node)
    ensures Harmless(clauses, t, env) <==> forall i | 0 <= i < |clauses| :: !Dropped(clauses[i], t, env)
  {
    forall i | 0 <= i < |clauses| && !StaysLocal(clauses[i], t)
      ensures (TestedNull(clauses[i].node, env) <==> Compared(clauses[i].node, env).None?)
              <==> !Dropped(clauses[i], t, env)
    {
      PushedClauseMeans(clauses[i], t, env, []);
      if clauses[i].node.Or? {
        UnmixedTestIs(clauses[i], t, env);
      }
      if Compared(clauses[i].node, env).Some? {
        ComparedIsSimple(clauses[i].node, env);
      }
    }
  }

  /** A bare equality with a NULL parameter is true of no row, so the scan is exact if
      and only if it returns nothing. */
  lemma NullParametersReturnTooMuch(rows: seq<Row>, clauses: seq<Clause>, t: Table, env: Env, date: string -> string,
                                    i: nat)
    requires GoodTable(t, rows) && GoodClauses(clauses, t, env)
    requires i < |clauses| && !StaysLocal(clauses[i], t) && clauses[i].node.Eq? && Compared(clauses[i].node, env).None?
    ensures Where(rows, NodesOf(clauses), env, date) == []
    ensures Scan(rows, clauses, t, env, date) == Where(rows, NodesOf(clauses), env, date)
            <==> forall r | 0 <= r < |rows| :: !AdmitsAll(clauses, t, env, rows[r], date)
  {
    forall r | 0 <= r < |rows| ensures !Passes(NodesOf(clauses), SqlOf(rows[r], date), env) {
      TrueIff(t, clauses[i], env, SqlOf(rows[r], date));
      assert NodesOf(clauses)[i] == clauses[i].node;
    }
    NothingPasses(rows, NodesOf(clauses), env, date);
    ScanReturnsAdmitted(rows, clauses, t, env, date);
    SameFilterIff(rows, clauses, t, env, date);
  }

  lemma {:induction false} NothingPasses(rows: seq<Row>, nodes: seq<Node>, env: Env, date: string -> string)
    requires forall r | 0 <= r < |rows| :: !Passes(nodes, SqlOf(rows[r], date), env)
    ensures Where(rows, nodes, env, date) == []
  {
    if rows != [] {
      NothingPasses(rows[..|rows| - 1], nodes, env, date);
    }
  }

  const NAMES: Table := Table(["name"], ["name"])

  const MIXED: Clause := Clause(Or([NullTest(Param(1, false), true), Eq(Var(0, true), Param(1, true))]), false)

  lemma MixedIsPushed(a: string, env: Env)
    requires '\0' !in a && env.external(1) == Some(DText(a)) && env.internal(1) == None
    ensures MixedKinds(MIXED.node) && TestedNull(MIXED.node, env) && !StaysLocal(MIXED, NAMES) && Typed(MIXED.node, env)
    ensures Compared(MIXED.node, env) == Some(Comparison(0, DText(a)))
  {
    var n := MIXED.node.args[0];
    assert Strip(n).NullTest? && ParamIsNull(Strip(Strip(n).arg), env);
  }

  /** The optional shape is recognized by parameter number alone.  When the tested
      parameter is an internal one that is NULL and the compared one a statement
      parameter of the same number, the clause is true of every row, yet the scan
      returns only the rows that match the statement parameter. */
  lemma MixedKindsLoseRows(a: string, b: string, date: string -> string, env: Env)
    requires '\0' !in a && '\0' !in b && a != b
    requires env.external(1) == Some(DText(a)) && env.internal(1) == None
    ensures var row := [Some(CText(b))];
            && MixedKinds(MIXED.node) && Loses(MIXED.node, env, row, date)
            && Scan([row], [MIXED], NAMES, env, date) == [] && Where([row], [MIXED.node], env, date) == [row]
  {
    MixedIsPushed(a, env);
    NoNulToDrop(b);
    OnlyRow([Some(CText(b))], MIXED, env, date);
  }

  /** `name = ALL($1)` is pushed and then not applied: the scan returns a row whose name
      is not in the array. */
  lemma AllReturnsTooMuch(a: string, b: string, date: string -> string, env: Env)
    requires '\0' !in b && a != b
    requires env.external(1) == Some(DArray([Some(DText(a))]))
    ensures var c := Clause(AnyOf(Var(0, true), Param(1, true), false), false);
            var row := [Some(CText(b))];
            && TooMuch(c.node, env, SqlOf(row, date))
            && Scan([row], [c], NAMES, env, date) == [row] && Where([row], [c.node], env, date) == []
  {
    var c, row := Clause(AnyOf(Var(0, true), Param(1, true), false), false), [Some(CText(b))];
    NoNulToDrop(b);
    assert [Some(DText(a))][0] == Some(DText(a));
    OnlyRow(row, c, env, date);
  }

  /** Every name with a NUL in it is lost to the query that asks for it as PostgreSQL
      shows it. */
  lemma NulsLoseRows(s: string, date: string -> string, env: Env)
    requires '\0' in s
    ensures var c := Clause(Eq(Var(0, true), Const(Some(DText(WithoutNul(s))))), false);
            var row := [Some(CText(s))];
            && Harmless([c], NAMES, env) && Loses(c.node, env, row, date)
            && Scan([row], [c], NAMES, env, date) == [] && Where([row], [c.node], env, date) == [row]
  {
    var c := Clause(Eq(Var(0, true), Const(Some(DText(WithoutNul(s))))), false);
    DroppedNuls(s);
    OnlyRow([Some(CText(s))], c, env, date);
  }

  /** One pushed clause, one row. */
  lemma OnlyRow(row: Row, c: Clause, env: Env, date: string -> string)
    requires GoodRow(NAMES, row) && !StaysLocal(c, NAMES) && Typed(c.node, env)
    ensures var sql := SqlOf(row, date);
            var holds := if c.node.AnyOf? then HoldsForAll(c.node, env, sql) else Asks(c.node, env, sql);
            && Scan([row], [c], NAMES, env, date) == (if Admitted(c.node, env, row, date) then [row] else [])
            && Where([row], [c.node], env, date) == (if holds then [row] else [])
  {
    ScanReturnsAdmitted([row], [c], NAMES, env, date);
    TrueIff(NAMES, c, env, SqlOf(row, date));
    assert [row][..0] == [] && [c][0] == c && [c.node][0] == c.node;
    assert AdmitsAll([c], NAMES, env, row, date) <==> AdmitsClause(c, NAMES, env, row, date);
    assert Passes([c.node], SqlOf(row, date), env) <==> Eval(c.node, SqlOf(row, date), env) == TRUE;
  }
}
