/**
Planning the SQL objects of a tool list (pg/pg_mcp/src/codegen/mod.rs): which
schema and identifier each tool gets, which columns its arguments become, and
in which order its function takes them.
*/
module ToolPlan {
  import opened Options
  import opened PgValues
  import opened Ident
  import opened Collisions
  import opened Upstreams

  /** A published property, with the SQL type its schema maps to. */
  datatype Property = Property(name: string, pgType: PgType)

  /** An object schema that declares properties. */
  datatype InputSchema = InputSchema(props: seq<Property>, required: seq<string>)

  datatype OutputSchema = NoOutput | Fields(props: seq<Property>) | ArrayOf(property: string, props: seq<Property>)

  /** A tool definition as listed.  A missing name reads as the empty one; `input`
      is absent when the input schema is not an object with properties. */
  datatype ToolDef = ToolDef(name: string, input: Option<InputSchema>, output: OutputSchema, readOnly: bool)

  datatype Column = Column(property: string, sqlName: string, pgType: PgType, required: bool)

  datatype OutputShape = NoColumns | ElementOf(property: string, columns: seq<Column>) | Single(columns: seq<Column>)

  datatype Gate = ReadOnlyTools | AllTools | NoTools

  datatype SchemaMode = OneSchema | PerUpstream

  datatype PlannedTool = PlannedTool(
    toolName: string, sqlName: string, schema: string, readOnly: bool, invokeOnSelect: bool,
    inputs: seq<Column>, output: OutputShape, params: seq<string>)

  function OutputColumns(shape: OutputShape): seq<Column> {
    match shape case NoColumns => [] case ElementOf(_, cols) => cols case Single(cols) => cols
  }

  // ----- columns of one tool -----

  /** The naming context: any lowercasing, any hash. */
  datatype Naming = Naming(lower: char -> string, hash: string -> Hex7)

  function ColumnName(property: string, nm: Naming): string {
    var d := Derived(property, "", nm.lower, nm.hash);
    if d == "" then "_" else d
  }

  function DerivedNames(props: seq<Property>, nm: Naming): (derived: seq<string>)
    ensures |derived| == |props|
  {
    seq(|props|, i requires 0 <= i < |props| => ColumnName(props[i].name, nm))
  }

  /** The input columns of the first `n` properties, given the names they derive to:
      a repeated name gets the hash of its property. */
  function InputColumns(schema: InputSchema, derived: seq<string>, n: nat, hash: string -> Hex7): (cols: seq<Column>)
    requires n <= |schema.props| == |derived|
    ensures |cols| == n
  {
    if n == 0 then []
    else
      var p, d := schema.props[n - 1], derived[n - 1];
      var sql := if d in derived[..n - 1] then d + "_" + hash(p.name) else d;
      InputColumns(schema, derived, n - 1, hash) + [Column(p.name, sql, p.pgType, p.name in schema.required)]
  }

  lemma {:induction false} InputColumnAt(schema: InputSchema, derived: seq<string>, n: nat, hash: string -> Hex7,
                                         i: nat)
    requires i < n <= |schema.props| == |derived|
    ensures var c := InputColumns(schema, derived, n, hash)[i];
            && c.property == schema.props[i].name && c.pgType == schema.props[i].pgType
            && (c.required <==> schema.props[i].name in schema.required)
  {
    if i < n - 1 {
      InputColumnAt(schema, derived, n - 1, hash, i);
    }
  }

  method BuildInputs(schema: InputSchema, derived: seq<string>, hash: string -> Hex7) returns (inputs: seq<Column>)
    requires |derived| == |schema.props|
    ensures inputs == InputColumns(schema, derived, |schema.props|, hash)
  {
    inputs := [];
    var seen: set<string> := {};
    for i := 0 to |schema.props|
      invariant inputs == InputColumns(schema, derived, i, hash)
      invariant forall x :: x in seen <==> x in derived[..i]
    {
      var p, d := schema.props[i], derived[i];
      var sql := if d in seen then d + "_" + hash(p.name) else d;
      inputs := inputs + [Column(p.name, sql, p.pgType, p.name in schema.required)];
      seen := seen + {d};
      assert derived[..i + 1] == derived[..i] + [d];
    }
  }

  /** The column of a property, if the tool has one. */
  function ColumnFor(cols: seq<Column>, property: string): seq<string> {
    if cols == [] then []
    else if cols[0].property == property then [cols[0].sqlName]
    else ColumnFor(cols[1..], property)
  }

  function RequiredParams(cols: seq<Column>, required: seq<string>): seq<string> {
    if required == [] then []
    else RequiredParams(cols, required[..|required| - 1]) + ColumnFor(cols, required[|required| - 1])
  }

  function OptionalParams(cols: seq<Column>): seq<string> {
    if cols == [] then []
    else
      var before, last := OptionalParams(cols[..|cols| - 1]), cols[|cols| - 1];
      if last.required then before else before + [last.sqlName]
  }

  method BuildParams(cols: seq<Column>, required: seq<string>) returns (params: seq<string>)
    ensures params == RequiredParams(cols, required) + OptionalParams(cols)
  {
    params := [];
    for i := 0 to |required|
      invariant params == RequiredParams(cols, required[..i])
    {
      assert required[..i + 1][..i] == required[..i];
      params := params + ColumnFor(cols, required[i]);
    }
    assert required[..|required|] == required;
    ghost var start := params;
    for i := 0 to |cols|
      invariant params == start + OptionalParams(cols[..i])
    {
      assert cols[..i + 1][..i] == cols[..i];
      if !cols[i].required {
        params := params + [cols[i].sqlName];
      }
    }
    assert cols[..|cols|] == cols;
  }

  function SimpleColumns(props: seq<Property>, nm: Naming): seq<Column> {
    seq(|props|, i requires 0 <= i < |props| =>
      Column(props[i].name, ColumnName(props[i].name, nm), props[i].pgType, false))
  }

  function ShapeOf(output: OutputSchema, nm: Naming): OutputShape {
    match output
    case NoOutput => NoColumns
    case Fields(props) => Single(SimpleColumns(props, nm))
    case ArrayOf(property, props) => ElementOf(property, SimpleColumns(props, nm))
  }

  /** One planned tool; a tool whose input schema cannot be mapped has none. */
  function PlanOne(tool: ToolDef, sqlName: string, schema: string, gate: Gate, nm: Naming): PlannedTool
    requires tool.input.Some?
  {
    var input := tool.input.value;
    var inputs := InputColumns(input, DerivedNames(input.props, nm), |input.props|, nm.hash);
    PlannedTool(
      tool.name, sqlName, schema, tool.readOnly,
      match gate case ReadOnlyTools => tool.readOnly case AllTools => true case NoTools => false,
      inputs, ShapeOf(tool.output, nm),
      RequiredParams(inputs, input.required) + OptionalParams(inputs))
  }

  // ----- the parameters are the inputs, required ones first -----

  function SqlNames(cols: seq<Column>): seq<string> {
    seq(|cols|, i requires 0 <= i < |cols| => cols[i].sqlName)
  }

  ghost predicate DistinctProperties(cols: seq<Column>) {
    forall i, j | 0 <= i < j < |cols| :: cols[i].property != cols[j].property
  }

  lemma {:induction false} ColumnForAppend(cols: seq<Column>, c: Column, property: string)
    requires forall i | 0 <= i < |cols| :: cols[i].property != c.property
    ensures ColumnFor(cols + [c], property) == if property == c.property then [c.sqlName] else ColumnFor(cols, property)
  {
    if cols == [] {
      assert (cols + [c])[1..] == [];
    } else {
      assert (cols + [c])[1..] == cols[1..] + [c];
      ColumnForAppend(cols[1..], c, property);
    }
  }

  /** A new column adds itself to the required parameters once if it is required. */
  lemma {:induction false} RequiredParamsAppend(cols: seq<Column>, c: Column, required: seq<string>)
    requires forall i | 0 <= i < |cols| :: cols[i].property != c.property
    requires Distinct(required)
    ensures multiset(RequiredParams(cols + [c], required))
            == multiset(RequiredParams(cols, required))
               + if c.property in required then multiset{c.sqlName} else multiset{}
  {
    if required != [] {
      var init, last := required[..|required| - 1], required[|required| - 1];
      assert required == init + [last];
      RequiredParamsAppend(cols, c, init);
      ColumnForAppend(cols, c, last);
      NotThere(cols, c.property);
      assert last == c.property ==> c.property !in init;
    }
  }

  lemma {:induction false} NotThere(cols: seq<Column>, property: string)
    requires forall i | 0 <= i < |cols| :: cols[i].property != property
    ensures ColumnFor(cols, property) == []
  {
    if cols != [] {
      NotThere(cols[1..], property);
    }
  }

  lemma {:induction false} NoColumnsNoParams(required: seq<string>)
    ensures RequiredParams([], required) == []
  {
    if required != [] {
      NoColumnsNoParams(required[..|required| - 1]);
    }
  }

  /** When `required` has unique elements, the function's parameters are a
      permutation of the input columns. */
  lemma {:induction false} ParamsArePermutation(cols: seq<Column>, required: seq<string>)
    requires DistinctProperties(cols) && Distinct(required)
    requires forall i | 0 <= i < |cols| :: cols[i].required <==> cols[i].property in required
    ensures multiset(RequiredParams(cols, required)) + multiset(OptionalParams(cols)) == multiset(SqlNames(cols))
    decreases |cols|
  {
    if cols == [] {
      NoColumnsNoParams(required);
    } else {
      var init, c := cols[..|cols| - 1], cols[|cols| - 1];
      assert cols == init + [c];
      ParamsArePermutation(init, required);
      RequiredParamsAppend(init, c, required);
      assert SqlNames(cols) == SqlNames(init) + [c.sqlName];
    }
  }

  /** The parameters before the optional ones are all of required columns. */
  lemma RequiredComeFirst(cols: seq<Column>, required: seq<string>, x: string)
    requires forall i | 0 <= i < |cols| :: cols[i].property in required ==> cols[i].required
    requires x in RequiredParams(cols, required)
    ensures exists i | 0 <= i < |cols| :: cols[i].required && cols[i].sqlName == x
  {
    RequiredNamesColumn(cols, required, x);
  }

  lemma {:induction false} RequiredNamesColumn(cols: seq<Column>, required: seq<string>, x: string)
    requires x in RequiredParams(cols, required)
    ensures exists i | 0 <= i < |cols| :: cols[i].property in required && cols[i].sqlName == x
  {
    var init, last := required[..|required| - 1], required[|required| - 1];
    assert required == init + [last];
    if x in RequiredParams(cols, init) {
      RequiredNamesColumn(cols, init, x);
    } else {
      ColumnForFinds(cols, last, x);
    }
  }

  lemma {:induction false} ColumnForFinds(cols: seq<Column>, property: string, x: string)
    requires x in ColumnFor(cols, property)
    ensures exists i | 0 <= i < |cols| :: cols[i].property == property && cols[i].sqlName == x
  {
    if cols[0].property != property {
      ColumnForFinds(cols[1..], property, x);
      var i :| 0 <= i < |cols[1..]| && cols[1..][i].property == property && cols[1..][i].sqlName == x;
      assert cols[i + 1] == cols[1..][i];
    }
  }

  lemma {:induction false} OptionalNamesColumn(cols: seq<Column>, x: string)
    requires x in OptionalParams(cols)
    ensures exists i | 0 <= i < |cols| :: !cols[i].required && cols[i].sqlName == x
  {
    var init := cols[..|cols| - 1];
    if x in OptionalParams(init) {
      OptionalNamesColumn(init, x);
      var i :| 0 <= i < |init| && !init[i].required && init[i].sqlName == x;
      assert cols[i] == init[i];
    }
  }

  /** `x` names an input column that is required, or one that is not. */
  ghost predicate Names(cols: seq<Column>, x: string, required: bool) {
    exists i | 0 <= i < |cols| :: cols[i].required == required && cols[i].sqlName == x
  }

  /** Every parameter before position `r` is required and none from there on. */
  ghost predicate RequiredUpTo(cols: seq<Column>, params: seq<string>, r: nat) {
    forall k | 0 <= k < |params| :: Names(cols, params[k], k < r)
  }

  lemma ParamsOrdered(cols: seq<Column>, required: seq<string>)
    requires forall i | 0 <= i < |cols| :: cols[i].property in required ==> cols[i].required
    ensures RequiredUpTo(cols, RequiredParams(cols, required) + OptionalParams(cols), |RequiredParams(cols, required)|)
  {
    var r, o := RequiredParams(cols, required), OptionalParams(cols);
    var params := r + o;
    forall k | 0 <= k < |params| ensures Names(cols, params[k], k < |r|) {
      if k < |r| {
        RequiredComeFirst(cols, required, r[k]);
      } else {
        OptionalNamesColumn(cols, o[k - |r|]);
      }
    }
  }

  lemma ColumnsFollowSchema(schema: InputSchema, derived: seq<string>, hash: string -> Hex7)
    requires |schema.props| == |derived|
    ensures var cols := InputColumns(schema, derived, |derived|, hash);
            forall i | 0 <= i < |cols| ::
              cols[i].property == schema.props[i].name && (cols[i].required <==> cols[i].property in schema.required)
  {
    forall i | 0 <= i < |derived| {
      InputColumnAt(schema, derived, |derived|, hash, i);
    }
  }

  /** The function of a planned tool takes every input column exactly once, all the
      required ones before all the optional ones, provided `required` repeats no
      name. */
  lemma PlannedParams(tool: ToolDef, sqlName: string, schema: string, gate: Gate, nm: Naming)
    requires tool.input.Some? && Distinct(tool.input.value.required)
    requires forall i, j | 0 <= i < j < |tool.input.value.props| ::
               tool.input.value.props[i].name != tool.input.value.props[j].name
    ensures var p := PlanOne(tool, sqlName, schema, gate, nm);
            && multiset(p.params) == multiset(SqlNames(p.inputs))
            && exists r :: RequiredUpTo(p.inputs, p.params, r)
  {
    var input := tool.input.value;
    var derived := DerivedNames(input.props, nm);
    var cols := InputColumns(input, derived, |derived|, nm.hash);
    ColumnsFollowSchema(input, derived, nm.hash);
    ParamsArePermutation(cols, input.required);
    ParamsOrdered(cols, input.required);
  }

  // ----- the batch -----

  /** The settings of one generation. */
  datatype Batch = Batch(schema: string, prefix: string, mode: SchemaMode, gate: Gate, nm: Naming)

  /** A named tool with its target schema and its name there. */
  datatype Routed = Routed(tool: ToolDef, target: string, local: string)

  /** Under `PerUpstream` a dotted name goes to its upstream's schema, without the
      prefix; everything else goes to the batch's own schema. */
  function Route(tool: ToolDef, b: Batch): Routed {
    var name, d := tool.name, FirstDot(tool.name);
    if b.mode.PerUpstream? && 0 < d < |name| - 1 then Routed(tool, name[..d], name[d + 1..])
    else Routed(tool, b.schema, name)
  }

  /** The routes of a tool list; entries without a usable name are left out. */
  function Routes(tools: seq<ToolDef>, b: Batch): seq<Routed> {
    if tools == [] then []
    else
      var before, last := Routes(tools[..|tools| - 1], b), tools[|tools| - 1];
      if last.name == "" then before else before + [Route(last, b)]
  }

  function Named(tools: seq<ToolDef>): seq<ToolDef> {
    if tools == [] then []
    else if tools[0].name == "" then Named(tools[1..])
    else [tools[0]] + Named(tools[1..])
  }

  function ToolsOf(routed: seq<Routed>): seq<ToolDef> {
    seq(|routed|, i requires 0 <= i < |routed| => routed[i].tool)
  }

  lemma {:induction false} NamedAppend(tools: seq<ToolDef>, tool: ToolDef)
    ensures Named(tools + [tool]) == if tool.name == "" then Named(tools) else Named(tools) + [tool]
  {
    if tools == [] {
      assert (tools + [tool])[1..] == [];
    } else {
      assert (tools + [tool])[1..] == tools[1..] + [tool];
      NamedAppend(tools[1..], tool);
    }
  }

  /** Exactly the named tools are routed, each once and in order. */
  lemma {:induction false} RoutesAreNamed(tools: seq<ToolDef>, b: Batch)
    ensures ToolsOf(Routes(tools, b)) == Named(tools)
  {
    if tools != [] {
      var init, last := tools[..|tools| - 1], tools[|tools| - 1];
      assert tools == init + [last];
      RoutesAreNamed(init, b);
      NamedAppend(init, last);
      if last.name != "" {
        assert ToolsOf(Routes(tools, b)) == ToolsOf(Routes(init, b)) + [last];
      }
    }
  }

  /** A route keeps the name recoverable: schema and local name are the two sides of
      its first dot, or the batch's schema and the whole name. */
  lemma RouteKeepsName(tool: ToolDef, b: Batch)
    ensures var r := Route(tool, b);
            if b.mode.PerUpstream? && 0 < FirstDot(tool.name) < |tool.name| - 1
            then r.target + "." + r.local == tool.name && r.target != "" && r.local != "" && '.' !in r.target
            else r.target == b.schema && r.local == tool.name
  {
    var name, d := tool.name, FirstDot(tool.name);
    if b.mode.PerUpstream? && 0 < d < |name| - 1 {
      assert name == name[..d] + [name[d]] + name[d + 1..];
    }
  }

  /** The local names that the first `n` tools send to schema `target`, in order. */
  function LocalsFor(routed: seq<Routed>, n: nat, target: string): (ls: seq<string>)
    requires n <= |routed|
    ensures |ls| <= n
  {
    if n == 0 then []
    else
      var before := LocalsFor(routed, n - 1, target);
      if routed[n - 1].target == target then before + [routed[n - 1].local] else before
  }

  lemma {:induction false} LocalsGrow(routed: seq<Routed>, i: nat, j: nat, target: string)
    requires i <= j <= |routed|
    ensures |LocalsFor(routed, i, target)| <= |LocalsFor(routed, j, target)|
    decreases j
  {
    if i < j {
      LocalsGrow(routed, i, j - 1, target);
    }
  }

  /** All identifiers of one schema. */
  function Group(routed: seq<Routed>, target: string, b: Batch): seq<string> {
    Resolved(LocalsFor(routed, |routed|, target), b.prefix, b.nm.lower, b.nm.hash)
  }

  function At(s: seq<string>, k: nat): string { if k < |s| then s[k] else "" }

  /** The identifier of the i-th tool: its place in the resolution of its schema. */
  function SqlNameOf(routed: seq<Routed>, i: nat, b: Batch): string
    requires i < |routed|
  {
    At(Group(routed, routed[i].target, b), |LocalsFor(routed, i, routed[i].target)|)
  }

  /** All identifiers of a batch, in tool order. */
  function NamesOf(routed: seq<Routed>, b: Batch): seq<string> {
    seq(|routed|, i requires 0 <= i < |routed| => SqlNameOf(routed, i, b))
  }

  datatype GenerationPlan = GenerationPlan(tools: seq<PlannedTool>, skipped: seq<string>)

  /** What the first `n` named tools contribute, given their identifiers: the tools
      planned and the names skipped. */
  function Planned(routed: seq<Routed>, names: seq<string>, n: nat, b: Batch): seq<PlannedTool>
    requires n <= |routed| == |names|
  {
    if n == 0 then []
    else
      var before, r := Planned(routed, names, n - 1, b), routed[n - 1];
      if r.tool.input.Some? then before + [PlanOne(r.tool, names[n - 1], r.target, b.gate, b.nm)] else before
  }

  function Skipped(routed: seq<Routed>, n: nat): seq<string>
    requires n <= |routed|
  {
    if n == 0 then []
    else
      var before := Skipped(routed, n - 1);
      if routed[n - 1].tool.input.Some? then before else before + [routed[n - 1].tool.name]
  }

  /** One schema's share of the naming; the other names are left alone. */
  method NameGroup(routed: seq<Routed>, names: seq<string>, target: string, b: Batch) returns (out: seq<string>)
    requires |names| == |routed|
    ensures |out| == |routed|
    ensures forall i | 0 <= i < |routed| ::
              out[i] == if routed[i].target == target then SqlNameOf(routed, i, b) else names[i]
  {
    var locals: seq<string> := [];
    for i := 0 to |routed|
      invariant locals == LocalsFor(routed, i, target)
    {
      if routed[i].target == target {
        locals := locals + [routed[i].local];
      }
    }
    var resolved := Dedup(locals, b.prefix, b.nm.lower, b.nm.hash);
    out := PutBack(routed, names, resolved, target);
  }

  method PutBack(routed: seq<Routed>, names: seq<string>, resolved: seq<string>, target: string)
    returns (out: seq<string>)
    requires |names| == |routed| && |resolved| == |LocalsFor(routed, |routed|, target)|
    ensures |out| == |routed|
    ensures forall i | 0 <= i < |routed| ::
              out[i] == if routed[i].target == target then At(resolved, |LocalsFor(routed, i, target)|) else names[i]
  {
    out := names;
    var k := 0;
    for i := 0 to |routed|
      invariant |out| == |routed| && k == |LocalsFor(routed, i, target)|
      invariant forall j | 0 <= j < i ::
                  out[j]
                  == if routed[j].target == target then At(resolved, |LocalsFor(routed, j, target)|) else names[j]
      invariant forall j | i <= j < |routed| :: out[j] == names[j]
    {
      if routed[i].target == target {
        LocalsGrow(routed, i + 1, |routed|, target);
        out, k := out[i := resolved[k]], k + 1;
      }
    }
  }

  /** Resolving each schema's group and putting the identifiers back. */
  method AssignNames(routed: seq<Routed>, b: Batch) returns (names: seq<string>)
    ensures |names| == |routed|
    ensures forall i | 0 <= i < |routed| :: names[i] == SqlNameOf(routed, i, b)
  {
    names := seq(|routed|, _ => "");
    var targets: set<string> := set r | r in routed :: r.target;
    ghost var all := targets;
    while targets != {}
      invariant targets <= all && |names| == |routed|
      invariant forall i | 0 <= i < |routed| && routed[i].target !in targets :: names[i] == SqlNameOf(routed, i, b)
      decreases targets
    {
      var target :| target in targets;
      names := NameGroup(routed, names, target, b);
      targets := targets - {target};
    }
  }

  method PlanEach(routed: seq<Routed>, names: seq<string>, b: Batch) returns (out: GenerationPlan)
    requires |names| == |routed|
    ensures out == GenerationPlan(Planned(routed, names, |routed|, b), Skipped(routed, |routed|))
  {
    var planned: seq<PlannedTool>, skipped: seq<string> := [], [];
    for i := 0 to |routed|
      invariant planned == Planned(routed, names, i, b) && skipped == Skipped(routed, i)
    {
      var r := routed[i];
      if r.tool.input.Some? {
        planned := planned + [PlanOne(r.tool, names[i], r.target, b.gate, b.nm)];
      } else {
        skipped := skipped + [r.tool.name];
      }
    }
    out := GenerationPlan(planned, skipped);
  }

  /** The planner: route the named tools, name them, plan each one or skip it. */
  method Plan(tools: seq<ToolDef>, b: Batch) returns (plan: Option<GenerationPlan>)
    ensures var routed := Routes(tools, b);
            plan == if b.schema == "" then None
                    else Some(GenerationPlan(Planned(routed, NamesOf(routed, b), |routed|, b),
                                             Skipped(routed, |routed|)))
  {
    if b.schema == "" {
      return None;
    }
    var routed: seq<Routed> := [];
    for i := 0 to |tools|
      invariant routed == Routes(tools[..i], b)
    {
      assert tools[..i + 1][..i] == tools[..i];
      if tools[i].name != "" {
        routed := routed + [Route(tools[i], b)];
      }
    }
    assert tools[..|tools|] == tools;
    var names := AssignNames(routed, b);
    assert names == NamesOf(routed, b);
    var out := PlanEach(routed, names, b);
    plan := Some(out);
  }

  // ----- the batch theorems -----

  lemma DistinctAt(s: seq<string>, i: nat, j: nat)
    requires Distinct(s) && i < j < |s|
    ensures At(s, i) != At(s, j)
  {
  }

  lemma GroupIsDistinct(routed: seq<Routed>, target: string, b: Batch)
    requires |routed| < Pow10(53) && Plain(b.prefix)
    ensures Distinct(Group(routed, target, b))
  {
    ResolvedIsValid(LocalsFor(routed, |routed|, target), b.prefix, b.nm.lower, b.nm.hash);
  }

  /** No two tools of a batch get the same identifier in the same schema, in either
      schema mode. */
  lemma NamesAreUnique(routed: seq<Routed>, i: nat, j: nat, b: Batch)
    requires i < j < |routed| && |routed| < Pow10(53) && Plain(b.prefix)
    requires routed[i].target == routed[j].target
    ensures SqlNameOf(routed, i, b) != SqlNameOf(routed, j, b)
  {
    var target := routed[i].target;
    LocalsGrow(routed, i + 1, j, target);
    LocalsGrow(routed, j + 1, |routed|, target);
    GroupIsDistinct(routed, target, b);
    DistinctAt(Group(routed, target, b), |LocalsFor(routed, i, target)|, |LocalsFor(routed, j, target)|);
  }

  /** The positions of the tools that can be planned, or of those that cannot. */
  function Positions(routed: seq<Routed>, n: nat, plannable: bool): seq<nat>
    requires n <= |routed|
  {
    if n == 0 then []
    else
      var before := Positions(routed, n - 1, plannable);
      if routed[n - 1].tool.input.Some? == plannable then before + [n - 1] else before
  }

  lemma {:induction false} PositionsAscend(routed: seq<Routed>, n: nat, plannable: bool)
    requires n <= |routed|
    ensures forall k | 0 <= k < |Positions(routed, n, plannable)| :: Positions(routed, n, plannable)[k] < n
    ensures forall k, l | 0 <= k < l < |Positions(routed, n, plannable)| ::
              Positions(routed, n, plannable)[k] < Positions(routed, n, plannable)[l]
  {
    if n > 0 {
      PositionsAscend(routed, n - 1, plannable);
    }
  }

  /** Each position is in exactly one of the two lists. */
  lemma {:induction false} PositionsCover(routed: seq<Routed>, n: nat, i: nat)
    requires i < n <= |routed|
    ensures i in Positions(routed, n, routed[i].tool.input.Some?)
    ensures i !in Positions(routed, n, routed[i].tool.input.None?)
  {
    PositionsAscend(routed, n - 1, routed[i].tool.input.None?);
    if i < n - 1 {
      PositionsCover(routed, n - 1, i);
    }
  }

  lemma {:induction false} PlacedCounts(routed: seq<Routed>, names: seq<string>, n: nat, b: Batch)
    requires n <= |routed| == |names|
    ensures |Planned(routed, names, n, b)| == |Positions(routed, n, true)|
    ensures |Skipped(routed, n)| == |Positions(routed, n, false)|
  {
    if n > 0 {
      PlacedCounts(routed, names, n - 1, b);
    }
  }

  /** Every named tool is placed exactly once and in order: the k-th planned tool is
      the k-th one whose input schema can be mapped, under the identifier and the
      schema computed for it. */
  lemma {:induction false} PlannedInOrder(routed: seq<Routed>, names: seq<string>, n: nat, b: Batch, k: nat)
    requires n <= |routed| == |names| && k < |Planned(routed, names, n, b)|
    ensures k < |Positions(routed, n, true)| && Positions(routed, n, true)[k] < |routed|
    ensures var i, p := Positions(routed, n, true)[k], Planned(routed, names, n, b)[k];
            p.toolName == routed[i].tool.name && p.sqlName == names[i] && p.schema == routed[i].target
  {
    PlacedCounts(routed, names, n - 1, b);
    if k < |Planned(routed, names, n - 1, b)| {
      PlannedInOrder(routed, names, n - 1, b, k);
    }
  }

  /** The k-th skipped name is that of the k-th tool whose schema cannot be mapped. */
  lemma {:induction false} SkippedInOrder(routed: seq<Routed>, n: nat, k: nat)
    requires n <= |routed| && k < |Skipped(routed, n)|
    ensures |Skipped(routed, n)| == |Positions(routed, n, false)| && Positions(routed, n, false)[k] < |routed|
    ensures Skipped(routed, n)[k] == routed[Positions(routed, n, false)[k]].tool.name
  {
    SkippedCount(routed, n - 1);
    if k < |Skipped(routed, n - 1)| {
      SkippedInOrder(routed, n - 1, k);
    }
  }

  lemma {:induction false} SkippedCount(routed: seq<Routed>, n: nat)
    requires n <= |routed|
    ensures |Skipped(routed, n)| == |Positions(routed, n, false)|
  {
    if n > 0 {
      SkippedCount(routed, n - 1);
    }
  }

  /** In the finished plan, schema and identifier together name one tool. */
  lemma PlannedToolsAreUnique(routed: seq<Routed>, b: Batch, k: nat, l: nat)
    requires |routed| < Pow10(53) && Plain(b.prefix)
    requires k < l < |Planned(routed, NamesOf(routed, b), |routed|, b)|
    ensures var plan := Planned(routed, NamesOf(routed, b), |routed|, b);
            plan[k].schema != plan[l].schema || plan[k].sqlName != plan[l].sqlName
  {
    var names := NamesOf(routed, b);
    var plan := Planned(routed, names, |routed|, b);
    PlannedInOrder(routed, names, |routed|, b, k);
    PlannedInOrder(routed, names, |routed|, b, l);
    PositionsAscend(routed, |routed|, true);
    var at := Positions(routed, |routed|, true);
    if plan[k].schema == plan[l].schema {
      NamesAreUnique(routed, at[k], at[l], b);
    }
  }
}
