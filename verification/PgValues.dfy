/**
The values that cross the foreign-table boundary: JSON from the wire, typed
cells, and SQL datums, with the conversions between them
(pg/pg_mcp/src/fdw.rs, `datum_to_json` and `cell_to_datum`;
pg/pg_mcp/src/tables/mod.rs, `Cell::as_json`; pg/pg_mcp/src/tables/per_tool.rs,
`json_to_cell`) and the two notions of equality that have to agree
(pg/pg_mcp/src/quals.rs, `json_equal`; PostgreSQL's `=`).
*/
module PgValues {
  import opened Options

  /** A JSON number keeps its spelling: an integer, or a finite value of a 64-bit
      float.  Numerics that no 64-bit float represents are outside this type. */
  datatype Number = Int(i: int) | Float(r: real)

  /** JSON.  Arrays and objects are opaque: `repr` is the parsed structure and
      `key` the form under which `jsonb` compares it. */
  datatype Json =
    | JNull
    | JBool(b: bool)
    | JNum(n: Number)
    | JStr(s: string)
    | JNested(repr: string, key: string)

  datatype PgType = Text | Jsonb | Boolean | Int4 | Int8 | Float8 | Uuid | Date | TimestampTz | Bytea

  /** A SQL value other than NULL.  A float may be a NaN or an infinity, which
      have no JSON form.  Uuids, dates and timestamps stand by their canonical
      output text. */
  datatype Datum =
    | DText(s: string)
    | DJsonb(j: Json)
    | DBool(b: bool)
    | DInt(i: int)
    | DFloat(f: Option<real>)
    | DUuid(s: string)
    | DDate(s: string)
    | DTimestamp(s: string)
    | DArray(elems: seq<Option<Datum>>)

  datatype Cell =
    | CText(s: string)
    | CJson(j: Json)
    | CBool(b: bool)
    | CInt(i: int)
    | CFloat(f: Option<real>)
    | CUuid(s: string)
    | CDate(s: string)
    | CTimestamp(s: string)

  // ----- integers as 64-bit floats -----

  const EXACT: int := 0x20_0000_0000_0000 // 2^53

  /** The spacing of 64-bit floats at `n`. */
  function Spacing(n: nat): (u: nat)
    ensures u > 0
  {
    if n < EXACT then 1 else 2 * Spacing(n / 2)
  }

  /** `n` rounded to the nearest 64-bit float, ties to even. */
  function RoundNat(n: nat): int {
    var u := Spacing(n);
    var q, r := n / u, n % u;
    if 2 * r < u || (2 * r == u && q % 2 == 0) then q * u else (q + 1) * u
  }

  function AsF64(n: Number): real {
    match n
    case Int(i) => if i < 0 then -(RoundNat(-i) as real) else RoundNat(i) as real
    case Float(r) => r
  }

  predicate ExactInt(i: int) { -EXACT <= i <= EXACT }

  lemma IntsBelowLimitAreExact(i: int)
    requires ExactInt(i)
    ensures AsF64(Int(i)) == i as real
  {
    var n := if i < 0 then -i else i;
    if n == EXACT {
      assert Spacing(n / 2) == 1;
      assert Spacing(n) == 2;
    }
  }

  /** Past 2^53 two different integers compare equal as floats. */
  lemma FloatsConfuseLargeInts()
    ensures AsF64(Int(EXACT)) == AsF64(Int(EXACT + 1))
  {
    assert Spacing((EXACT + 1) / 2) == 1 && Spacing(EXACT / 2) == 1;
    assert Spacing(EXACT + 1) == 2 && Spacing(EXACT) == 2;
    assert (EXACT + 1) / 2 == EXACT / 2 && (EXACT + 1) % 2 == 1 && (EXACT / 2) % 2 == 0;
  }

  // ----- the two equalities -----

  /** Equality as the extension decides it. */
  predicate JsonEqual(a: Json, b: Json) {
    if a.JNull? || b.JNull? then false
    else if a.JNum? && b.JNum? then AsF64(a.n) == AsF64(b.n)
    else a == b
  }

  /** The exact value of a number. */
  function Exactly(n: Number): real {
    match n case Int(i) => i as real case Float(r) => r
  }

  predicate JsonbSame(a: Json, b: Json) {
    if a.JNum? && b.JNum? then Exactly(a.n) == Exactly(b.n)
    else if a.JNested? && b.JNested? then a.key == b.key
    else a == b
  }

  /** PostgreSQL's `=` on two values of one type; values of different types never
      meet in a planned clause. */
  predicate SqlEq(a: Datum, b: Datum) {
    if a.DJsonb? && b.DJsonb? then JsonbSame(a.j, b.j) else a == b
  }

  // ----- conversions -----

  /** A datum as JSON; arrays and non-finite floats are not carried. */
  function DatumToJson(d: Datum): Option<Json> {
    match d
    case DText(s) => Some(JStr(s))
    case DJsonb(j) => Some(j)
    case DBool(b) => Some(JBool(b))
    case DInt(i) => Some(JNum(Int(i)))
    case DFloat(f) => if f.Some? then Some(JNum(Float(f.value))) else None
    case DUuid(s) => Some(JStr(s))
    case DDate(s) => Some(JStr(s))
    case DTimestamp(s) => Some(JStr(s))
    case DArray(_) => None
  }

  /** A cell as JSON for filtering; uuids and timestamps project to null. */
  function AsJson(c: Cell): Json {
    match c
    case CText(s) => JStr(s)
    case CJson(j) => j
    case CBool(b) => JBool(b)
    case CInt(i) => JNum(Int(i))
    case CFloat(f) => if f.Some? then JNum(Float(f.value)) else JNull
    case CDate(s) => JStr(s)
    case CUuid(_) => JNull
    case CTimestamp(_) => JNull
  }

  function WithoutNul(s: string): string {
    if s == "" then "" else WithoutNul(s[..|s| - 1]) + if s[|s| - 1] == '\0' then "" else [s[|s| - 1]]
  }

  /** The value the executor's slot gets for a cell: text loses its NULs, and the
      text of a date is read by PostgreSQL's own input function `date`. */
  function CellToDatum(c: Cell, date: string -> string): Datum {
    match c
    case CText(s) => DText(WithoutNul(s))
    case CJson(j) => DJsonb(j)
    case CBool(b) => DBool(b)
    case CInt(i) => DInt(i)
    case CFloat(f) => DFloat(f)
    case CUuid(s) => DUuid(s)
    case CDate(s) => DDate(date(s))
    case CTimestamp(s) => DTimestamp(s)
  }

  /** PostgreSQL's input functions for uuid, date and timestamptz text, reduced to
      canonical text; `None` when the text is rejected. */
  datatype Readers = Readers(uuid: string -> Option<string>, timestamp: string -> Option<string>,
                             date: string -> Option<string>, render: Json -> string)

  /** JSON from the wire as a cell of a column's type: `None` where the conversion
      fails or the value is null, which both read back as SQL NULL. */
  function JsonToCell(v: Json, ty: PgType, io: Readers): Option<Cell> {
    if v.JNull? then None
    else
      match ty
      case Text => Some(CText(if v.JStr? then v.s else io.render(v)))
      case Jsonb => Some(CJson(v))
      case Boolean => if v.JBool? then Some(CBool(v.b)) else None
      case Int4 => if v.JNum? && v.n.Int? && -0x8000_0000 <= v.n.i < 0x8000_0000 then Some(CInt(v.n.i)) else None
      case Int8 =>
        if v.JNum? && v.n.Int? && -0x8000_0000_0000_0000 <= v.n.i < 0x8000_0000_0000_0000
        then Some(CInt(v.n.i)) else None
      case Float8 => if v.JNum? then Some(CFloat(Some(AsF64(v.n)))) else None
      case Uuid =>
        if v.JStr? && io.uuid(v.s).Some? then Some(CUuid(io.uuid(v.s).value)) else None
      case TimestampTz =>
        if v.JStr? && io.timestamp(v.s).Some? then Some(CTimestamp(io.timestamp(v.s).value)) else None
      case Date => if v.JStr? && io.date(v.s).Some? then Some(CDate(v.s)) else None
      case Bytea => None
  }

  lemma {:induction false} NoNulToDrop(s: string)
    requires '\0' !in s
    ensures WithoutNul(s) == s
  {
    if s != "" {
      var init := s[..|s| - 1];
      assert s == init + [s[|s| - 1]] && s[|s| - 1] in s;
      NoNulToDrop(init);
    }
  }
}
