/**
The SQL function generated for a tool (pg/pg_mcp/src/codegen/function.rs) and
what it sends.  Its body reads the tool's foreign table with one condition for
each parameter; the planner hook takes those conditions apart again, either as
written or after PostgreSQL has folded the passed values into them.  For a tool
that may not be called by SELECT the body is an INSERT instead.  The theorems
compare the `arguments` of the three.
*/
module GeneratedFunctions {
  import opened Options
  import opened PgValues
  import opened Clauses
  import opened CatalogScan
  import Collisions
  import opened ToolPlan
  import opened PerTool
  import opened PerToolScan

  /** The value passed for the parameter of each name, NULL being `None`. */
  type Passed = string -> Option<Datum>

  // ----- the SELECT body -----

  /** Whether the input column called `param` is required. */
  predicate IsRequired(inputs: seq<Column>, param: string) {
    var k := Position(SqlNames(inputs), param);
    k < |inputs| && inputs[k].required
  }

  function ColumnVar(tool: PlannedTool, param: string): Node {
    Var(Position(Layout(tool).columns, param), true)
  }

  /** The condition for the parameter numbered `n`: an optional one is not applied
      when it is NULL. */
  function Conjunct(tool: PlannedTool, n: nat, param: string): Clause {
    var binding := Eq(ColumnVar(tool, param), Param(n, true));
    Clause(if IsRequired(tool.inputs, param) then binding else Or([NullTest(Param(n, true), true), binding]), false)
  }

  function Conjuncts(tool: PlannedTool, n: nat): (clauses: seq<Clause>)
    requires n <= |tool.params|
    ensures |clauses| == n
  {
    seq(n, i requires 0 <= i < n => Conjunct(tool, i + 1, tool.params[i]))
  }

  method FunctionBody(tool: PlannedTool) returns (conjuncts: seq<Clause>)
    ensures conjuncts == Conjuncts(tool, |tool.params|)
  {
    conjuncts := [];
    for i := 0 to |tool.params|
      invariant conjuncts == Conjuncts(tool, i)
    {
      var param := tool.params[i];
      var binding := Eq(ColumnVar(tool, param), Param(i + 1, true));
      if IsRequired(tool.inputs, param) {
        conjuncts := conjuncts + [Clause(binding, false)];
      } else {
        conjuncts := conjuncts + [Clause(Or([NullTest(Param(i + 1, true), true), binding]), false)];
      }
    }
  }

  /** The generic plan is made from the conditions as they stand. */
  function GenericArgs(tool: PlannedTool, env: Env): Args {
    Gathered(tool.inputs, BoundValues(tool.inputs, QualsFor(tool, Conjuncts(tool, |tool.params|), env)))
  }

  // ----- the folded plan -----

  /** An equality with a known value; PostgreSQL reduces one with a boolean. */
  function FoldedEquality(v: Node, d: Datum): Clause {
    Clause(if !d.DBool? then Eq(v, Const(Some(d))) else if d.b then v else Not(v), false)
  }

  /** The first `n` conditions with the passed values folded in: a NULL removes an
      optional condition, and turns a required one into a WHERE that is never true,
      which is not scanned at all (`None`). */
  function Folded(tool: PlannedTool, passed: Passed, n: nat): Option<seq<Clause>>
    requires n <= |tool.params|
  {
    if n == 0 then Some([])
    else
      var before, param := Folded(tool, passed, n - 1), tool.params[n - 1];
      if before.None? then None
      else
        match passed(param)
        case Some(d) => Some(before.value + [FoldedEquality(ColumnVar(tool, param), d)])
        case None => if IsRequired(tool.inputs, param) then None else before
  }

  function FoldedArgs(tool: PlannedTool, passed: Passed, env: Env): Option<Args> {
    match Folded(tool, passed, |tool.params|)
    case None => None
    case Some(clauses) => Some(Gathered(tool.inputs, BoundValues(tool.inputs, QualsFor(tool, clauses, env))))
  }

  // ----- the INSERT body -----

  /** A column of the inserted tuple as JSON.  A float without a JSON form is null
      here, where a condition on it is not carried. */
  function SlotJson(v: Option<Datum>): Option<Json> {
    if v.None? then None else if v.value == DFloat(None) then Some(JNull) else DatumToJson(v.value)
  }

  datatype Supplied = Supplied(column: string, value: Option<Json>)

  /** The tuple: the parameters' columns hold the passed values, the others NULL. */
  function SlotOf(tool: PlannedTool, passed: Passed): seq<Supplied> {
    var columns := Layout(tool).columns;
    seq(|columns|, i requires 0 <= i < |columns| =>
      Supplied(columns[i], if columns[i] in tool.params then SlotJson(passed(columns[i])) else None))
  }

  function FindSupplied(slot: seq<Supplied>, column: string): Option<Json> {
    if slot == [] then None
    else if slot[0].column == column then slot[0].value
    else FindSupplied(slot[1..], column)
  }

  function SlotValues(inputs: seq<Column>, slot: seq<Supplied>): (supplied: seq<Option<Json>>)
    ensures |supplied| == |inputs|
  {
    seq(|inputs|, i requires 0 <= i < |inputs| => FindSupplied(slot, inputs[i].sqlName))
  }

  method InsertArguments(inputs: seq<Column>, slot: seq<Supplied>) returns (r: Args)
    ensures r == Gathered(inputs, SlotValues(inputs, slot))
  {
    ghost var all := SlotValues(inputs, slot);
    var values: map<string, Json> := map[];
    for i := 0 to |inputs|
      invariant Gathered(inputs[..i], all[..i]) == Args(values)
    {
      assert inputs[..i + 1][..i] == inputs[..i] && all[..i + 1][..i] == all[..i];
      var supplied := FindSupplied(slot, inputs[i].sqlName);
      if supplied.Some? {
        values := values[inputs[i].property := supplied.value];
      } else if inputs[i].required {
        MissingStays(inputs, all, i + 1);
        return Missing(inputs[i].sqlName);
      }
    }
    assert inputs[..|inputs|] == inputs && all[..|inputs|] == all;
    r := Args(values);
  }

  function InsertArgs(tool: PlannedTool, passed: Passed): Args {
    Gathered(tool.inputs, SlotValues(tool.inputs, SlotOf(tool, passed)))
  }

  // ----- what is bound -----

  /** A tool with distinct columns whose function takes every input. */
  ghost predicate GoodFunction(tool: PlannedTool) {
    GoodTool(tool) && multiset(tool.params) == multiset(SqlNames(tool.inputs))
  }

  /** A planned tool is one, provided PostgreSQL accepts its column names. */
  lemma PlannedFunctionIsGood(def: ToolDef, sqlName: string, schema: string, gate: Gate, nm: Naming)
    requires def.input.Some? && Collisions.Distinct(def.input.value.required)
    requires forall i, j | 0 <= i < j < |def.input.value.props| ::
               def.input.value.props[i].name != def.input.value.props[j].name
    requires GoodColumns(Layout(PlanOne(def, sqlName, schema, gate, nm)))
    ensures GoodFunction(PlanOne(def, sqlName, schema, gate, nm))
  {
    PlannedParams(def, sqlName, schema, gate, nm);
    ColumnsFollowSchema(def.input.value, DerivedNames(def.input.value.props, nm), nm.hash);
  }

  /** The parameter numbered `n` holds the value passed for it. */
  ghost predicate Carries(env: Env, tool: PlannedTool, passed: Passed) {
    forall i | 0 <= i < |tool.params| :: env.external(i + 1) == passed(tool.params[i])
  }

  /** The restriction a passed value turns into, if any. */
  function QualFor(param: string, passed: Passed): seq<Qual> {
    match ConstToJson(passed(param)) case None => [] case Some(j) => [Qual(param, Equal, [j])]
  }

  /** The values the SELECT bodies should bind. */
  function CarriedValues(inputs: seq<Column>, passed: Passed): (supplied: seq<Option<Json>>)
    ensures |supplied| == |inputs|
  {
    seq(|inputs|, i requires 0 <= i < |inputs| => ConstToJson(passed(inputs[i].sqlName)))
  }

  lemma ParamIsColumn(tool: PlannedTool, param: string)
    requires GoodFunction(tool) && param in tool.params
    ensures var k := Position(Layout(tool).columns, param);
            k < |tool.inputs| && Layout(tool).columns[k] == param && tool.inputs[k].sqlName == param
  {
    assert param in multiset(tool.params);
    assert param in SqlNames(tool.inputs);
    var k :| 0 <= k < |SqlNames(tool.inputs)| && SqlNames(tool.inputs)[k] == param;
    assert Layout(tool).columns[k] == param;
  }

  lemma InputIsParam(tool: PlannedTool, k: nat)
    requires GoodFunction(tool) && k < |tool.inputs|
    ensures tool.inputs[k].sqlName in tool.params
    ensures IsRequired(tool.inputs, tool.inputs[k].sqlName) <==> tool.inputs[k].required
    ensures Position(Layout(tool).columns, tool.inputs[k].sqlName) == k
  {
    assert SqlNames(tool.inputs)[k] == tool.inputs[k].sqlName;
    assert tool.inputs[k].sqlName in multiset(SqlNames(tool.inputs));
    var columns := Layout(tool).columns;
    assert forall i | 0 <= i < |tool.inputs| :: columns[i] == tool.inputs[i].sqlName;
  }

  lemma ConjunctBinds(tool: PlannedTool, passed: Passed, env: Env, i: nat)
    requires GoodFunction(tool) && Carries(env, tool, passed) && i < |tool.params|
    ensures QualsOf(Conjunct(tool, i + 1, tool.params[i]), Layout(tool), env) == QualFor(tool.params[i], passed)
  {
    var param := tool.params[i];
    ParamIsColumn(tool, param);
    var binding := Eq(ColumnVar(tool, param), Param(i + 1, true));
    var args := [NullTest(Param(i + 1, true), true), binding];
    assert ExtractOptional(args, Layout(tool)) == Some(Bound(param, true, i + 1));
    assert env.external(i + 1) == passed(param);
  }

  lemma FoldedBinds(tool: PlannedTool, env: Env, param: string, passed: Passed)
    requires GoodFunction(tool) && param in tool.params && passed(param).Some?
    ensures QualsOf(FoldedEquality(ColumnVar(tool, param), passed(param).value), Layout(tool), env)
            == QualFor(param, passed)
  {
    ParamIsColumn(tool, param);
  }

  /** `q` is the restriction of one of the first `n` parameters. */
  ghost predicate Asked(tool: PlannedTool, passed: Passed, n: nat, q: Qual)
    requires n <= |tool.params|
  {
    exists i | 0 <= i < n :: q in QualFor(tool.params[i], passed)
  }

  lemma ClausesAsk(tool: PlannedTool, clauses: seq<Clause>, passed: Passed, env: Env, q: Qual)
    requires |clauses| == |tool.params|
    requires forall i | 0 <= i < |clauses| :: QualsOf(clauses[i], Layout(tool), env) == QualFor(tool.params[i], passed)
    ensures q in QualsFor(tool, clauses, env) <==> Asked(tool, passed, |tool.params|, q)
  {
    ScanQualsAre(clauses, Layout(tool), env, q);
  }

  lemma ConjunctsBind(tool: PlannedTool, passed: Passed, env: Env)
    requires GoodFunction(tool) && Carries(env, tool, passed)
    ensures forall i | 0 <= i < |tool.params| ::
              QualsOf(Conjuncts(tool, |tool.params|)[i], Layout(tool), env) == QualFor(tool.params[i], passed)
  {
    forall i | 0 <= i < |tool.params|
      ensures QualsOf(Conjuncts(tool, |tool.params|)[i], Layout(tool), env) == QualFor(tool.params[i], passed)
    {
      ConjunctBinds(tool, passed, env, i);
    }
  }

  lemma GenericAsks(tool: PlannedTool, passed: Passed, env: Env, q: Qual)
    requires GoodFunction(tool) && Carries(env, tool, passed)
    ensures q in QualsFor(tool, Conjuncts(tool, |tool.params|), env) <==> Asked(tool, passed, |tool.params|, q)
  {
    ConjunctsBind(tool, passed, env);
    ClausesAsk(tool, Conjuncts(tool, |tool.params|), passed, env, q);
  }

  lemma QualsForStep(tool: PlannedTool, clauses: seq<Clause>, c: Clause, env: Env, q: Qual)
    ensures q in QualsFor(tool, clauses + [c], env)
            <==> q in QualsFor(tool, clauses, env) || q in QualsOf(c, Layout(tool), env)
  {
    PlanStep(clauses, c, Layout(tool), env, q);
  }

  lemma FoldedAsksStep(tool: PlannedTool, passed: Passed, env: Env, before: seq<Clause>, param: string, q: Qual)
    requires GoodFunction(tool) && param in tool.params && passed(param).Some?
    ensures q in QualsFor(tool, before + [FoldedEquality(ColumnVar(tool, param), passed(param).value)], env)
            <==> q in QualsFor(tool, before, env) || q in QualFor(param, passed)
  {
    FoldedBinds(tool, env, param, passed);
    QualsForStep(tool, before, FoldedEquality(ColumnVar(tool, param), passed(param).value), env, q);
  }

  lemma AskedStep(tool: PlannedTool, passed: Passed, n: nat, q: Qual)
    requires 0 < n <= |tool.params|
    ensures Asked(tool, passed, n, q) <==> Asked(tool, passed, n - 1, q) || q in QualFor(tool.params[n - 1], passed)
  {
  }

  lemma {:induction false} FoldedAsks(tool: PlannedTool, passed: Passed, env: Env, n: nat, q: Qual)
    requires GoodFunction(tool) && n <= |tool.params| && Folded(tool, passed, n).Some?
    ensures q in QualsFor(tool, Folded(tool, passed, n).value, env) <==> Asked(tool, passed, n, q)
  {
    if n == 0 {
      ScanQualsAre([], Layout(tool), env, q);
    } else {
      FoldedAsks(tool, passed, env, n - 1, q);
      AskedStep(tool, passed, n, q);
      if passed(tool.params[n - 1]).Some? {
        FoldedAsksStep(tool, passed, env, Folded(tool, passed, n - 1).value, tool.params[n - 1], q);
      }
    }
  }

  /** Restrictions that are exactly those of the parameters bind exactly their
      values, whatever their order. */
  lemma AskedAreBound(tool: PlannedTool, passed: Passed, quals: seq<Qual>)
    requires GoodFunction(tool)
    requires forall q :: q in quals <==> Asked(tool, passed, |tool.params|, q)
    ensures BoundValues(tool.inputs, quals) == CarriedValues(tool.inputs, passed)
  {
    forall k | 0 <= k < |tool.inputs|
      ensures BoundValues(tool.inputs, quals)[k] == CarriedValues(tool.inputs, passed)[k]
    {
      InputIsParam(tool, k);
      AskedIsBound(tool, passed, quals, tool.inputs[k].sqlName);
    }
  }

  lemma AskedIsBound(tool: PlannedTool, passed: Passed, quals: seq<Qual>, name: string)
    requires forall q :: q in quals <==> Asked(tool, passed, |tool.params|, q)
    requires name in tool.params
    ensures FirstEqual(quals, name) == ConstToJson(passed(name))
  {
    FirstEqualIs(quals, name);
    var i :| 0 <= i < |tool.params| && tool.params[i] == name;
    if ConstToJson(passed(name)).Some? {
      var q := Qual(name, Equal, [ConstToJson(passed(name)).value]);
      assert q in QualFor(tool.params[i], passed);
      assert q in quals;
    }
    if FirstEqual(quals, name).Some? {
      var q := Qual(name, Equal, [FirstEqual(quals, name).value]);
      assert Asked(tool, passed, |tool.params|, q);
    }
  }

  // ----- the three bodies -----

  ghost predicate RequiredPassed(tool: PlannedTool, passed: Passed) {
    forall k | 0 <= k < |tool.inputs| && tool.inputs[k].required :: passed(tool.inputs[k].sqlName).Some?
  }

  lemma {:induction false} FoldedIff(tool: PlannedTool, passed: Passed, n: nat)
    requires n <= |tool.params|
    ensures Folded(tool, passed, n).Some?
            <==> forall i | 0 <= i < n && IsRequired(tool.inputs, tool.params[i]) :: passed(tool.params[i]).Some?
  {
    if n > 0 {
      FoldedIff(tool, passed, n - 1);
    }
  }

  lemma ScannedIff(tool: PlannedTool, passed: Passed)
    requires GoodFunction(tool)
    ensures Folded(tool, passed, |tool.params|).Some? <==> RequiredPassed(tool, passed)
  {
    var n := |tool.params|;
    FoldedIff(tool, passed, n);
    forall k | 0 <= k < |tool.inputs|
      ensures exists i | 0 <= i < n :: tool.params[i] == tool.inputs[k].sqlName
      ensures IsRequired(tool.inputs, tool.inputs[k].sqlName) <==> tool.inputs[k].required
    {
      InputIsParam(tool, k);
    }
    forall i | 0 <= i < n ensures exists k | 0 <= k < |tool.inputs| :: tool.inputs[k].sqlName == tool.params[i] {
      ParamIsColumn(tool, tool.params[i]);
    }
  }

  lemma GenericBinds(tool: PlannedTool, passed: Passed, env: Env)
    requires GoodFunction(tool) && Carries(env, tool, passed)
    ensures GenericArgs(tool, env) == Gathered(tool.inputs, CarriedValues(tool.inputs, passed))
  {
    var quals := QualsFor(tool, Conjuncts(tool, |tool.params|), env);
    forall q ensures q in quals <==> Asked(tool, passed, |tool.params|, q) {
      GenericAsks(tool, passed, env, q);
    }
    AskedAreBound(tool, passed, quals);
  }

  lemma FoldedBindsAll(tool: PlannedTool, passed: Passed, env: Env)
    requires GoodFunction(tool) && RequiredPassed(tool, passed)
    ensures FoldedArgs(tool, passed, env) == Some(Gathered(tool.inputs, CarriedValues(tool.inputs, passed)))
  {
    ScannedIff(tool, passed);
    var quals := QualsFor(tool, Folded(tool, passed, |tool.params|).value, env);
    forall q ensures q in quals <==> Asked(tool, passed, |tool.params|, q) {
      FoldedAsks(tool, passed, env, |tool.params|, q);
    }
    AskedAreBound(tool, passed, quals);
  }

  lemma {:induction false} FoundAt(slot: seq<Supplied>, k: nat)
    requires k < |slot| && forall i | 0 <= i < k :: slot[i].column != slot[k].column
    ensures FindSupplied(slot, slot[k].column) == slot[k].value
  {
    if k > 0 {
      FoundAt(slot[1..], k - 1);
    }
  }

  lemma InsertBinds(tool: PlannedTool, passed: Passed, k: nat)
    requires GoodFunction(tool) && k < |tool.inputs|
    ensures SlotValues(tool.inputs, SlotOf(tool, passed))[k] == SlotJson(passed(tool.inputs[k].sqlName))
  {
    InputIsParam(tool, k);
    var columns := Layout(tool).columns;
    assert columns[k] == SqlNames(tool.inputs)[k] == tool.inputs[k].sqlName;
    FoundAt(SlotOf(tool, passed), k);
  }

  /** No passed value is a float without a JSON form; parameters are never arrays. */
  ghost predicate AllFinite(tool: PlannedTool, passed: Passed) {
    forall k | 0 <= k < |tool.inputs| :: passed(tool.inputs[k].sqlName) != Some(DFloat(None))
  }

  ghost predicate NoArrays(tool: PlannedTool, passed: Passed) {
    forall k | 0 <= k < |tool.inputs| && passed(tool.inputs[k].sqlName).Some? ::
      !passed(tool.inputs[k].sqlName).value.DArray?
  }

  /** Exactly the properties whose parameter is not NULL, with the passed values. */
  ghost predicate ExactlyPassed(tool: PlannedTool, passed: Passed, args: Args) {
    && args.Args?
    && (forall p | p in args.values ::
          exists k | 0 <= k < |tool.inputs| :: tool.inputs[k].property == p && passed(tool.inputs[k].sqlName).Some?)
    && (forall k | 0 <= k < |tool.inputs| && passed(tool.inputs[k].sqlName).Some? ::
          && tool.inputs[k].property in args.values
          && Some(args.values[tool.inputs[k].property]) == DatumToJson(passed(tool.inputs[k].sqlName).value))
  }

  lemma InsertIsCarriedIff(tool: PlannedTool, passed: Passed)
    requires GoodFunction(tool) && NoArrays(tool, passed)
    ensures SlotValues(tool.inputs, SlotOf(tool, passed)) == CarriedValues(tool.inputs, passed)
            <==> AllFinite(tool, passed)
    ensures forall k | 0 <= k < |tool.inputs| ::
              SlotValues(tool.inputs, SlotOf(tool, passed))[k].Some? <==> passed(tool.inputs[k].sqlName).Some?
  {
    var slot := SlotValues(tool.inputs, SlotOf(tool, passed));
    var carried := CarriedValues(tool.inputs, passed);
    forall k | 0 <= k < |tool.inputs|
      ensures slot[k] == carried[k] <==> passed(tool.inputs[k].sqlName) != Some(DFloat(None))
      ensures slot[k].Some? <==> passed(tool.inputs[k].sqlName).Some?
    {
      InsertBinds(tool, passed, k);
    }
  }

  /** A float without a JSON form is sent as null by the INSERT and not at all, or
      refused, by the SELECTs. */
  lemma NonFiniteDiffers(tool: PlannedTool, passed: Passed, k: nat)
    requires GoodFunction(tool) && NoArrays(tool, passed) && RequiredPassed(tool, passed)
    requires k < |tool.inputs| && passed(tool.inputs[k].sqlName) == Some(DFloat(None))
    ensures InsertArgs(tool, passed).Args?
    ensures InsertArgs(tool, passed) != Gathered(tool.inputs, CarriedValues(tool.inputs, passed))
  {
    var slot, carried := SlotValues(tool.inputs, SlotOf(tool, passed)), CarriedValues(tool.inputs, passed);
    InsertIsCarriedIff(tool, passed);
    GatheredIff(tool.inputs, slot);
    GatheredValue(tool.inputs, slot, k);
    if Gathered(tool.inputs, carried).Args? && tool.inputs[k].property in Gathered(tool.inputs, carried).values {
      GatheredOnly(tool.inputs, carried, tool.inputs[k].property);
    }
  }

  lemma CarriedArePassed(tool: PlannedTool, passed: Passed)
    requires GoodFunction(tool) && NoArrays(tool, passed) && RequiredPassed(tool, passed) && AllFinite(tool, passed)
    ensures ExactlyPassed(tool, passed, Gathered(tool.inputs, CarriedValues(tool.inputs, passed)))
  {
    var carried := CarriedValues(tool.inputs, passed);
    forall k | 0 <= k < |tool.inputs| ensures carried[k].Some? <==> passed(tool.inputs[k].sqlName).Some? {
    }
    GatheredMeans(tool.inputs, carried);
  }

  /** With every required value given, the generic plan and the folded plan send the
      same arguments, and the INSERT sends them too if and only if no passed float is
      a NaN or an infinity.  They are then exactly the values that are not NULL. */
  lemma BodiesSendTheSameIff(tool: PlannedTool, passed: Passed, env: Env)
    requires GoodFunction(tool) && Carries(env, tool, passed) && NoArrays(tool, passed) && RequiredPassed(tool, passed)
    ensures FoldedArgs(tool, passed, env) == Some(GenericArgs(tool, env))
    ensures InsertArgs(tool, passed) == GenericArgs(tool, env) <==> AllFinite(tool, passed)
    ensures AllFinite(tool, passed) ==> ExactlyPassed(tool, passed, GenericArgs(tool, env))
  {
    GenericBinds(tool, passed, env);
    FoldedBindsAll(tool, passed, env);
    InsertIsCarriedIff(tool, passed);
    if AllFinite(tool, passed) {
      CarriedArePassed(tool, passed);
    } else {
      var k :| 0 <= k < |tool.inputs| && passed(tool.inputs[k].sqlName) == Some(DFloat(None));
      NonFiniteDiffers(tool, passed, k);
    }
  }

  /** When a required value is NULL, none of the three sends anything. */
  lemma NullRequiredSendsNothing(tool: PlannedTool, passed: Passed, env: Env)
    requires GoodFunction(tool) && Carries(env, tool, passed) && NoArrays(tool, passed) && !RequiredPassed(tool, passed)
    ensures GenericArgs(tool, env).Missing?
    ensures FoldedArgs(tool, passed, env).None?
    ensures InsertArgs(tool, passed).Missing?
  {
    var k :| 0 <= k < |tool.inputs| && tool.inputs[k].required && passed(tool.inputs[k].sqlName).None?;
    GenericBinds(tool, passed, env);
    GatheredIff(tool.inputs, CarriedValues(tool.inputs, passed));
    assert CarriedValues(tool.inputs, passed)[k].None?;
    ScannedIff(tool, passed);
    InsertBinds(tool, passed, k);
    GatheredIff(tool.inputs, SlotValues(tool.inputs, SlotOf(tool, passed)));
  }
}
