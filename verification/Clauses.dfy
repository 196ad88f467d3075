/**
WHERE clauses: their meaning, and the planner hook that splits them into
pushed restrictions, parameter-bound restrictions and local clauses
(pg/pg_mcp/src/fdw.rs, `get_foreign_plan`, `extract_qual`,
`extract_optional_param_qual`, `resolve_param_quals`; pg/pg_mcp/src/quals.rs).
PostgreSQL re-checks only the local ones.
*/
module Clauses {
  import opened Options
  import opened PgValues

  datatype BoolTest = IsTrue | IsFalse | OtherTest

  /** A planned expression.  `Var` names a column of the scanned table when `own`;
      `Param` is a statement parameter when `external`, else an internal one;
      `Relabel` is a cast that changes nothing; `AnyOf` is `left = ANY(right)`
      when `useOr`; `Other` is everything the hook does not look into. */
  datatype Node =
    | Var(col: nat, own: bool)
    | Const(value: Option<Datum>)
    | Param(id: nat, external: bool)
    | Relabel(arg: Node)
    | Not(arg: Node)
    | Or(args: seq<Node>)
    | Truth(arg: Node, test: BoolTest)
    | NullTest(arg: Node, isNull: bool)
    | Eq(left: Node, right: Node)
    | AnyOf(left: Node, right: Node, useOr: bool)
    | Other(k: nat)

  datatype Clause = Clause(node: Node, pseudoconstant: bool)

  type SqlRow = seq<Option<Datum>>

  /** The values outside the row: parameters of both kinds, columns of other
      relations, and the unexamined expressions. */
  datatype Env = Env(external: nat -> Option<Datum>, internal: nat -> Option<Datum>,
                     outer: nat -> Option<Datum>, other: (nat, SqlRow) -> Option<Datum>)

  // ----- meaning: three-valued logic, NULL being None -----

  const TRUE: Option<Datum> := Some(DBool(true))

  function Eval(n: Node, row: SqlRow, env: Env): Option<Datum> {
    match n
    case Var(col, own) => if !own then env.outer(col) else if col < |row| then row[col] else None
    case Const(value) => value
    case Param(id, external) => if external then env.external(id) else env.internal(id)
    case Relabel(arg) => Eval(arg, row, env)
    case Not(arg) =>
      (match Eval(arg, row, env) case Some(DBool(b)) => Some(DBool(!b)) case _ => None)
    case Or(args) => EvalOr(args, row, env)
    case Truth(arg, test) =>
      (match test
       case IsTrue => Some(DBool(Eval(arg, row, env) == TRUE))
       case IsFalse => Some(DBool(Eval(arg, row, env) == Some(DBool(false))))
       case OtherTest => env.other(0, row))
    case NullTest(arg, isNull) => Some(DBool(Eval(arg, row, env).None? == isNull))
    case Eq(left, right) => EvalEq(Eval(left, row, env), Eval(right, row, env))
    case AnyOf(left, right, useOr) =>
      (match Eval(right, row, env)
       case Some(DArray(elems)) => EvalAny(Eval(left, row, env), elems, useOr)
       case _ => None)
    case Other(k) => env.other(k, row)
  }

  function EvalOr(args: seq<Node>, row: SqlRow, env: Env): Option<Datum> {
    if args == [] then Some(DBool(false))
    else
      var a, b := Eval(args[0], row, env), EvalOr(args[1..], row, env);
      if a == TRUE || b == TRUE then TRUE
      else if a == Some(DBool(false)) && b == Some(DBool(false)) then Some(DBool(false))
      else None
  }

  function EvalEq(a: Option<Datum>, b: Option<Datum>): Option<Datum> {
    if a.Some? && b.Some? then Some(DBool(SqlEq(a.value, b.value))) else None
  }

  /** `x = ANY(elems)`, or `x = ALL(elems)` when `useOr` is false. */
  function EvalAny(x: Option<Datum>, elems: seq<Option<Datum>>, useOr: bool): Option<Datum> {
    if elems == [] then Some(DBool(!useOr))
    else
      var a, b := EvalEq(x, elems[0]), EvalAny(x, elems[1..], useOr);
      var decisive := Some(DBool(useOr));
      if a == decisive || b == decisive then decisive
      else if a.None? || b.None? then None
      else Some(DBool(!useOr))
  }

  /** A row passes when every clause is true of it; unknown is not enough. */
  predicate Passes(nodes: seq<Node>, row: SqlRow, env: Env) {
    forall i | 0 <= i < |nodes| :: Eval(nodes[i], row, env) == TRUE
  }

  // ----- what is pushed -----

  datatype Operator = Equal | AnyEqual

  /** `values` holds one value for `Equal`. */
  datatype Qual = Qual(field: string, operator: Operator, values: seq<Json>)

  datatype ParamQual = ParamQual(field: string, index: nat, omitNull: bool)

  datatype Pushed = Value(qual: Qual) | Bound(field: string, omitNull: bool, param: nat)

  /** The scanned table: its column names, and which of them may be pushed. */
  datatype Table = Table(columns: seq<string>, pushable: seq<string>)

  function Strip(n: Node): Node {
    if n.Relabel? then Strip(n.arg) else n
  }

  /** The column of a variable the hook may push, by name. */
  function ColumnOf(n: Node, t: Table): Option<string> {
    if n.Var? && n.own && n.col < |t.columns| && t.columns[n.col] in t.pushable then Some(t.columns[n.col]) else None
  }

  function BoolQual(n: Node, b: bool, t: Table): Option<Pushed> {
    match ColumnOf(n, t) case None => None case Some(field) => Some(Value(Qual(field, Equal, [JBool(b)])))
  }

  /** One clause as a pushable restriction, or nothing. */
  function Extract(n: Node, t: Table): Option<Pushed> {
    match n
    case Var(_, _) => BoolQual(n, true, t)
    case Not(arg) => if Strip(arg).Var? then BoolQual(Strip(arg), false, t) else None
    case Or(args) => ExtractOptional(args, t)
    case Truth(arg, test) =>
      if !Strip(arg).Var? || test.OtherTest? then None else BoolQual(Strip(arg), test.IsTrue?, t)
    case Eq(left, right) => ExtractEquality(Strip(left), Strip(right), false, t)
    case AnyOf(left, right, useOr) => ExtractEquality(Strip(left), Strip(right), useOr, t)
    case _ => None
  }

  function ExtractEquality(left: Node, right: Node, useOr: bool, t: Table): Option<Pushed> {
    if left.Var? && (right.Const? || right.Param?) then Oriented(left, right, useOr, t)
    else if right.Var? && (left.Const? || left.Param?) then Oriented(right, left, useOr, t)
    else None
  }

  function Oriented(v: Node, value: Node, useOr: bool, t: Table): Option<Pushed> {
    match ColumnOf(v, t)
    case None => None
    case Some(field) =>
      if value.Const? then
        match ConstToJson(value.value)
        case None => None
        case Some(j) => if useOr then None else Some(Value(Qual(field, Equal, [j])))
      else if value.Param? && !useOr && value.external then Some(Bound(field, false, value.id))
      else None
  }

  function ConstToJson(value: Option<Datum>): Option<Json> {
    if value.None? then None else DatumToJson(value.value)
  }

  /** `($n IS NULL OR column = $n)`, with the arms in either order.  The null-tested
      parameter is recognized by its number alone. */
  function ExtractOptional(args: seq<Node>, t: Table): Option<Pushed> {
    if |args| != 2 then None
    else
      var a, b := Strip(args[0]), Strip(args[1]);
      if a.NullTest? && b.Eq? then OptionalArms(a, b, t)
      else if a.Eq? && b.NullTest? then OptionalArms(b, a, t)
      else None
  }

  function OptionalArms(nullArm: Node, eqArm: Node, t: Table): Option<Pushed>
    requires nullArm.NullTest? && eqArm.Eq?
  {
    var p := Strip(nullArm.arg);
    var l, r := Strip(eqArm.left), Strip(eqArm.right);
    if !nullArm.isNull || !p.Param? then None
    else if l.Var? && r.Param? then OptionalPair(l, r, p, t)
    else if l.Param? && r.Var? then OptionalPair(r, l, p, t)
    else None
  }

  function OptionalPair(v: Node, param: Node, tested: Node, t: Table): Option<Pushed>
    requires param.Param? && tested.Param?
  {
    if param.id != tested.id then None
    else
      match ColumnOf(v, t)
      case None => None
      case Some(field) => if param.external then Some(Bound(field, true, param.id)) else None
  }

  // ----- the split -----

  /** The plan: pushed restrictions, parameter-bound ones with their place in
      `exprs`, and the clauses PostgreSQL checks itself. */
  datatype Plan = Plan(quals: seq<Qual>, params: seq<ParamQual>, exprs: seq<nat>, local: seq<Node>)

  function AddClause(plan: Plan, c: Clause, t: Table): Plan {
    if c.pseudoconstant then plan.(local := plan.local + [c.node])
    else
      match Extract(c.node, t)
      case None => plan.(local := plan.local + [c.node])
      case Some(Value(q)) => plan.(quals := plan.quals + [q])
      case Some(Bound(field, omitNull, param)) =>
        plan.(params := plan.params + [ParamQual(field, |plan.exprs|, omitNull)], exprs := plan.exprs + [param])
  }

  function PlanOf(clauses: seq<Clause>, t: Table): Plan {
    if clauses == [] then Plan([], [], [], [])
    else AddClause(PlanOf(clauses[..|clauses| - 1], t), clauses[|clauses| - 1], t)
  }

  method GetForeignPlan(clauses: seq<Clause>, t: Table) returns (plan: Plan)
    ensures plan == PlanOf(clauses, t)
  {
    var pushed: seq<Qual>, params: seq<ParamQual>, exprs: seq<nat>, local: seq<Node> := [], [], [], [];
    for i := 0 to |clauses|
      invariant Plan(pushed, params, exprs, local) == PlanOf(clauses[..i], t)
    {
      assert clauses[..i + 1][..i] == clauses[..i];
      var c := clauses[i];
      if c.pseudoconstant {
        local := local + [c.node];
      } else {
        match Extract(c.node, t) {
          case Some(Value(q)) => pushed := pushed + [q];
          case Some(Bound(field, omitNull, param)) =>
            params := params + [ParamQual(field, |exprs|, omitNull)];
            exprs := exprs + [param];
          case None => local := local + [c.node];
        }
      }
    }
    assert clauses[..|clauses|] == clauses;
    plan := Plan(pushed, params, exprs, local);
  }

  /** The value of a bound parameter at executor start, if it has one that is carried. */
  function ResolveOne(param: nat, env: Env): Option<Json> {
    ConstToJson(env.external(param))
  }

  function ResolveParams(params: seq<ParamQual>, exprs: seq<nat>, env: Env): seq<Qual>
    requires forall i | 0 <= i < |params| :: params[i].index < |exprs|
  {
    if params == [] then []
    else
      var pq := params[|params| - 1];
      ResolveParams(params[..|params| - 1], exprs, env)
      + match ResolveOne(exprs[pq.index], env) case None => [] case Some(j) => [Qual(pq.field, Equal, [j])]
  }

  method ResolveParamQuals(params: seq<ParamQual>, exprs: seq<nat>, env: Env) returns (out: seq<Qual>)
    requires forall i | 0 <= i < |params| :: params[i].index < |exprs|
    ensures out == ResolveParams(params, exprs, env)
  {
    out := [];
    for i := 0 to |params|
      invariant out == ResolveParams(params[..i], exprs, env)
    {
      assert params[..i + 1][..i] == params[..i];
      var value := env.external(exprs[params[i].index]);
      if value.Some? {
        var j := DatumToJson(value.value);
        if j.Some? {
          out := out + [Qual(params[i].field, Equal, [j.value])];
        }
      }
    }
    assert params[..|params|] == params;
  }

  lemma {:induction false} PlanIndexesInRange(clauses: seq<Clause>, t: Table)
    ensures var plan := PlanOf(clauses, t);
            |plan.params| == |plan.exprs| && forall i | 0 <= i < |plan.params| :: plan.params[i].index == i
  {
    if clauses != [] {
      PlanIndexesInRange(clauses[..|clauses| - 1], t);
    }
  }

  /** The restrictions one clause contributes to a scan. */
  function QualsOf(c: Clause, t: Table, env: Env): seq<Qual> {
    if c.pseudoconstant then []
    else
      match Extract(c.node, t)
      case None => []
      case Some(Value(q)) => [q]
      case Some(Bound(field, _, param)) =>
        (match ResolveOne(param, env) case None => [] case Some(j) => [Qual(field, Equal, [j])])
  }

  predicate StaysLocal(c: Clause, t: Table) {
    c.pseudoconstant || Extract(c.node, t).None?
  }

  /** The restrictions a scan of the whole plan starts with. */
  function ScanQuals(plan: Plan, env: Env): seq<Qual>
    requires forall i | 0 <= i < |plan.params| :: plan.params[i].index < |plan.exprs|
  {
    plan.quals + ResolveParams(plan.params, plan.exprs, env)
  }

  lemma {:induction false} ResolveLonger(params: seq<ParamQual>, exprs: seq<nat>, more: seq<nat>, env: Env)
    requires forall i | 0 <= i < |params| :: params[i].index < |exprs|
    ensures ResolveParams(params, exprs + more, env) == ResolveParams(params, exprs, env)
  {
    if params != [] {
      ResolveLonger(params[..|params| - 1], exprs, more, env);
    }
  }

  /** What a restriction or a local clause of the plan is, clause by clause: the
      plan of `clauses + [c]` holds exactly those of `clauses` and of `c`. */
  lemma PlanStep(clauses: seq<Clause>, c: Clause, t: Table, env: Env, q: Qual)
    ensures var before, after := PlanOf(clauses, t), PlanOf(clauses + [c], t);
            && (forall i | 0 <= i < |before.params| :: before.params[i].index < |before.exprs|)
            && (forall i | 0 <= i < |after.params| :: after.params[i].index < |after.exprs|)
            && (q in ScanQuals(after, env) <==> q in ScanQuals(before, env) || q in QualsOf(c, t, env))
            && after.local == before.local + if StaysLocal(c, t) then [c.node] else []
  {
    var plan := PlanOf(clauses, t);
    assert (clauses + [c])[..|clauses|] == clauses;
    PlanIndexesInRange(clauses, t);
    PlanIndexesInRange(clauses + [c], t);
    if !c.pseudoconstant {
      match Extract(c.node, t) {
        case Some(Bound(field, omitNull, param)) =>
          var pq := ParamQual(field, |plan.exprs|, omitNull);
          assert (plan.params + [pq])[..|plan.params|] == plan.params;
          ResolveLonger(plan.params, plan.exprs, [param], env);
        case _ =>
      }
    }
  }

  // ----- what a pushed clause asks of a row -----

  /** The optional shape tests an internal parameter that shares its number with
      the statement parameter it compares. */
  predicate MixedKinds(n: Node) {
    n.Or? && |n.args| == 2 &&
    exists i | 0 <= i < 2 ::
      Strip(n.args[i]).NullTest? && Strip(Strip(n.args[i]).arg).Param? && !Strip(Strip(n.args[i]).arg).external
  }

  /** The clause left the local list, but its parameter resolves to nothing that
      could be applied, and the clause is not vacuous for it. */
  predicate Dropped(c: Clause, t: Table, env: Env) {
    && !c.pseudoconstant
    && Extract(c.node, t).Some? && Extract(c.node, t).value.Bound?
    && ResolveOne(Extract(c.node, t).value.param, env).None?
    && !(Extract(c.node, t).value.omitNull && env.external(Extract(c.node, t).value.param).None?)
  }

  datatype Comparison = Comparison(col: nat, value: Datum)

  /** The column and the value that a pushed clause compares. */
  function Compared(n: Node, env: Env): Option<Comparison> {
    match n
    case Var(col, _) => Some(Comparison(col, DBool(true)))
    case Not(arg) => if Strip(arg).Var? then Some(Comparison(Strip(arg).col, DBool(false))) else None
    case Truth(arg, test) => if Strip(arg).Var? then Some(Comparison(Strip(arg).col, DBool(test.IsTrue?))) else None
    case Eq(left, right) => ComparedPair(Strip(left), Strip(right), env)
    case Or(args) =>
      if |args| != 2 then None
      else
        var a, b := Strip(args[0]), Strip(args[1]);
        if a.Eq? then ComparedPair(Strip(a.left), Strip(a.right), env)
        else if b.Eq? then ComparedPair(Strip(b.left), Strip(b.right), env)
        else None
    case _ => None
  }

  function ComparedPair(l: Node, r: Node, env: Env): Option<Comparison> {
    var v, x := if l.Var? then l else r, if l.Var? then r else l;
    var d := if x.Const? then x.value else if x.Param? && x.external then env.external(x.id) else None;
    if v.Var? && d.Some? then Some(Comparison(v.col, d.value)) else None
  }

  /** The parameter under the null test of an optional shape is NULL. */
  predicate TestedNull(n: Node, env: Env) {
    n.Or? && exists i | 0 <= i < |n.args| ::
      Strip(n.args[i]).NullTest? && ParamIsNull(Strip(Strip(n.args[i]).arg), env)
  }

  predicate ParamIsNull(p: Node, env: Env) {
    p.Param? && (if p.external then env.external(p.id) else env.internal(p.id)).None?
  }

  /** The row has the compared value in the compared column. */
  predicate Satisfies(row: SqlRow, x: Comparison) {
    x.col < |row| && row[x.col].Some? && SqlEq(row[x.col].value, x.value)
  }

  /** What a pushed clause asks: the compared value, or nothing when its null test
      succeeds. */
  predicate Asks(n: Node, env: Env, row: SqlRow) {
    TestedNull(n, env) || (Compared(n, env).Some? && Satisfies(row, Compared(n, env).value))
  }

  /** What the scan imposes for it: the compared value whenever there is one that is
      carried, whatever the null test says. */
  function Imposed(n: Node, t: Table, env: Env): seq<Qual> {
    var x := Compared(n, env);
    if x.Some? && x.value.col < |t.columns| && DatumToJson(x.value.value).Some?
    then [Qual(t.columns[x.value.col], Equal, [DatumToJson(x.value.value).value])]
    else []
  }

  lemma {:induction false} EvalStrip(n: Node, row: SqlRow, env: Env)
    ensures Eval(Strip(n), row, env) == Eval(n, row, env)
  {
    if n.Relabel? {
      EvalStrip(n.arg, row, env);
    }
  }

  lemma OrOfTwo(args: seq<Node>, row: SqlRow, env: Env)
    requires |args| == 2
    ensures EvalOr(args, row, env) == TRUE <==> Eval(args[0], row, env) == TRUE || Eval(args[1], row, env) == TRUE
  {
    assert EvalOr(args[1..][1..], row, env) == Some(DBool(false));
    assert EvalOr(args[1..], row, env) == TRUE <==> Eval(args[1], row, env) == TRUE;
  }

  /** An equality with a value holds exactly of the rows that have the value. */
  lemma PairMeans(l: Node, r: Node, row: SqlRow, env: Env)
    requires l.Var? <==> !r.Var?
    requires l.Var? ==> l.own && (r.Const? || (r.Param? && r.external))
    requires r.Var? ==> r.own && (l.Const? || (l.Param? && l.external))
    ensures EvalEq(Eval(l, row, env), Eval(r, row, env)) == TRUE
            <==> ComparedPair(l, r, env).Some? && Satisfies(row, ComparedPair(l, r, env).value)
  {
  }

  /** A pushed clause is true exactly of the rows it asks for, compares a pushable
      column of the table, and contributes what is imposed for it. */
  ghost predicate Means(c: Clause, t: Table, env: Env, row: SqlRow) {
    var x := Compared(c.node, env);
    && (Eval(c.node, row, env) == TRUE <==> Asks(c.node, env, row))
    && QualsOf(c, t, env) == Imposed(c.node, t, env)
    && (x.Some? ==> x.value.col < |t.columns| && t.columns[x.value.col] in t.pushable)
    && (Dropped(c, t, env) <==> Imposed(c.node, t, env) == [] && (c.node.Or? ==> x.Some?))
  }

  lemma EqMeans(c: Clause, t: Table, env: Env, row: SqlRow)
    requires c.node.Eq? && !StaysLocal(c, t)
    ensures Means(c, t, env, row)
  {
    EvalStrip(c.node.left, row, env);
    EvalStrip(c.node.right, row, env);
    PairMeans(Strip(c.node.left), Strip(c.node.right), row, env);
  }

  lemma BooleanMeans(c: Clause, t: Table, env: Env, row: SqlRow)
    requires (c.node.Var? || c.node.Not? || c.node.Truth?) && !StaysLocal(c, t)
    ensures Means(c, t, env, row)
  {
    if !c.node.Var? {
      EvalStrip(c.node.arg, row, env);
    }
  }

  lemma OptionalArmsMean(n: Node, e: Node, t: Table, env: Env, row: SqlRow)
    requires n.NullTest? && e.Eq? && OptionalArms(n, e, t).Some?
    ensures var p, x := OptionalArms(n, e, t).value, ComparedPair(Strip(e.left), Strip(e.right), env);
            && p.Bound? && p.omitNull && (x.None? <==> env.external(p.param).None?)
            && (Eval(n, row, env) == TRUE <==> ParamIsNull(Strip(n.arg), env))
            && (Eval(e, row, env) == TRUE <==> x.Some? && Satisfies(row, x.value))
            && (x.Some? ==>
                  && x.value.col < |t.columns| && t.columns[x.value.col] in t.pushable
                  && p.field == t.columns[x.value.col]
                  && env.external(p.param) == Some(x.value.value))
  {
    EvalStrip(n.arg, row, env);
    EvalStrip(e.left, row, env);
    EvalStrip(e.right, row, env);
    PairMeans(Strip(e.left), Strip(e.right), row, env);
  }

  lemma TestedNullOfTwo(args: seq<Node>, env: Env, k: nat)
    requires |args| == 2 && k < 2 && Strip(args[k]).NullTest? && !Strip(args[1 - k]).NullTest?
    ensures TestedNull(Or(args), env) <==> ParamIsNull(Strip(Strip(args[k]).arg), env)
  {
    assert Or(args).args[k] == args[k];
  }

  lemma OptionalMeans(c: Clause, t: Table, env: Env, row: SqlRow)
    requires c.node.Or? && !StaysLocal(c, t)
    ensures Means(c, t, env, row)
  {
    var args := c.node.args;
    var a, b := Strip(args[0]), Strip(args[1]);
    EvalStrip(args[0], row, env);
    EvalStrip(args[1], row, env);
    OrOfTwo(args, row, env);
    if a.NullTest? {
      TestedNullOfTwo(args, env, 0);
      OptionalArmsMean(a, b, t, env, row);
    } else {
      TestedNullOfTwo(args, env, 1);
      OptionalArmsMean(b, a, t, env, row);
    }
  }

  /** Every pushed clause but `= ALL` is true exactly of the rows it asks for, and
      contributes exactly the restriction imposed for it. */
  lemma PushedClauseMeans(c: Clause, t: Table, env: Env, row: SqlRow)
    requires !StaysLocal(c, t) && !c.node.AnyOf?
    ensures Means(c, t, env, row)
  {
    match c.node {
      case Eq(_, _) => EqMeans(c, t, env, row);
      case Or(_) => OptionalMeans(c, t, env, row);
      case _ => BooleanMeans(c, t, env, row);
    }
  }

  /** Without mixed kinds, what is imposed is what is asked, unless the compared value
      is not carried or a bare equality meets NULL. */
  lemma UnmixedTestIs(c: Clause, t: Table, env: Env)
    requires c.node.Or? && !StaysLocal(c, t) && !MixedKinds(c.node)
    ensures TestedNull(c.node, env) <==> Compared(c.node, env).None?
  {
    var args := c.node.args;
    var k := if Strip(args[0]).NullTest? then 0 else 1;
    TestedNullOfTwo(args, env, k);
    assert Strip(args[k]).NullTest?;
    OptionalArmsMean(Strip(args[k]), Strip(args[1 - k]), t, env, []);
  }

  // ----- `= ALL` -----

  /** The row has a value that equals every element, none of them NULL. */
  predicate EqualsAll(x: Option<Datum>, elems: seq<Option<Datum>>) {
    forall i | 0 <= i < |elems| :: x.Some? && elems[i].Some? && SqlEq(x.value, elems[i].value)
  }

  lemma {:induction false} EvalAllIff(x: Option<Datum>, elems: seq<Option<Datum>>)
    ensures EvalAny(x, elems, false) == TRUE <==> EqualsAll(x, elems)
  {
    if elems != [] {
      EvalAllIff(x, elems[1..]);
      assert elems == [elems[0]] + elems[1..];
    }
  }

  /** `= ALL` over an array parameter: pushed, then contributing nothing.  It is true
      of a row exactly when the array is not NULL and every element is the row's value. */
  lemma AllMeans(c: Clause, t: Table, env: Env, row: SqlRow)
    requires c.node.AnyOf? && !StaysLocal(c, t) && Strip(c.node.left).Var?
    requires Strip(c.node.right).Param? && (var v := env.external(Strip(c.node.right).id); v.Some? ==> v.value.DArray?)
    ensures var v, k := env.external(Strip(c.node.right).id), Strip(c.node.left).col;
            && QualsOf(c, t, env) == [] && Dropped(c, t, env)
            && k < |t.columns| && t.columns[k] in t.pushable
            && (Eval(c.node, row, env) == TRUE <==>
                  v.Some? && EqualsAll(if k < |row| then row[k] else None, v.value.elems))
  {
    EvalStrip(c.node.left, row, env);
    EvalStrip(c.node.right, row, env);
    var v, k := env.external(Strip(c.node.right).id), Strip(c.node.left).col;
    if v.Some? {
      EvalAllIff(if k < |row| then row[k] else None, v.value.elems);
    }
  }

  /** A scan starts with exactly the restrictions of its clauses. */
  lemma {:induction false} ScanQualsAre(clauses: seq<Clause>, t: Table, env: Env, q: Qual)
    ensures forall i | 0 <= i < |PlanOf(clauses, t).params| ::
              PlanOf(clauses, t).params[i].index < |PlanOf(clauses, t).exprs|
    ensures q in ScanQuals(PlanOf(clauses, t), env)
            <==> exists i | 0 <= i < |clauses| :: q in QualsOf(clauses[i], t, env)
  {
    PlanIndexesInRange(clauses, t);
    if clauses != [] {
      var init, c := clauses[..|clauses| - 1], clauses[|clauses| - 1];
      assert clauses == init + [c];
      ScanQualsAre(init, t, env, q);
      PlanStep(init, c, t, env, q);
      assert forall i | 0 <= i < |init| :: init[i] == clauses[i];
      assert clauses[|init|] == c;
    }
  }
}
