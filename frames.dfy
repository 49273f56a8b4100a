/**
 * The cell-level model of a pandas frame: a row maps column names to cell
 * values, and a frame is a sequence of rows. Element-wise comparison of a
 * column with a scalar and the `astype(str)` rendering of a cell are defined
 * here, as are column assignment and `dropna(subset=...)`.
 */
module Frames {
  import opened Wrappers
  import opened Text
  import Seqs

  /**
   * One cell. `Missing` is every pandas null (NaN, None, NaT, <NA>); `VTime`
   * is a parsed timestamp, counted in seconds.
   */
  datatype Value = VBool(b: bool) | VInt(i: int) | VNum(r: real) | VStr(s: string) | VTime(t: int) | Missing

  type Row = map<string, Value>

  /** The cell of `column` in `row`; a row without the column reads as null. */
  function Cell(row: Row, column: string): Value {
    if column in row then row[column] else Missing
  }

  /** The numeric reading of a cell; Python treats `True`/`False` as 1/0. */
  function Numeric(v: Value): Option<real> {
    match v
    case VBool(b) => Some(if b then 1.0 else 0.0)
    case VInt(i) => Some(i as real)
    case VNum(r) => Some(r)
    case _ => None
  }

  /** The Python type name that appears in a failed comparison's message. */
  function TypeName(v: Value): string {
    match v
    case VBool(_) => "bool"
    case VInt(_) => "int"
    case VNum(_) => "float"
    case VStr(_) => "str"
    case VTime(_) => "Timestamp"
    case Missing => "float"
  }

  /** Up to `k` decimal digits of a fraction in [0, 1), stopping once the rest is zero. */
  function FractionDigits(f: real, k: nat): (r: string)
    requires 0.0 <= f < 1.0
    ensures |r| <= k && AllDigits(r)
    decreases k
  {
    if k == 0 || f == 0.0 then []
    else
      var d := (f * 10.0).Floor;
      [DigitChar(d)] + FractionDigits(f * 10.0 - d as real, k - 1)
  }

  /** Decimal rendering of a float cell: whole part, a point, and at least one fractional digit. */
  function RealText(r: real): string {
    var m := if r < 0.0 then -r else r;
    var whole := m.Floor;
    var frac := FractionDigits(m - whole as real, 17);
    (if r < 0.0 then "-" else "") + NatText(whole) + "." + (if frac == [] then "0" else frac)
  }

  /** `astype(str)` of a cell. */
  function CellText(v: Value): string {
    match v
    case VBool(b) => if b then "True" else "False"
    case VInt(i) => IntText(i)
    case VNum(r) => RealText(r)
    case VStr(s) => s
    case VTime(t) => IntText(t)
    case Missing => "nan"
  }

  /** A converted query literal: the scalar a column is compared with. */
  datatype Literal = LBool(b: bool) | LInt(i: int) | LNum(r: real) | LStr(s: string)

  function LiteralNumeric(l: Literal): Option<real> {
    match l
    case LBool(b) => Some(if b then 1.0 else 0.0)
    case LInt(i) => Some(i as real)
    case LNum(r) => Some(r)
    case LStr(_) => None
  }

  function LiteralTypeName(l: Literal): string {
    match l
    case LBool(_) => "bool"
    case LInt(_) => "int"
    case LNum(_) => "float"
    case LStr(_) => "str"
  }

  /**
   * `cell == literal` as pandas evaluates `df[col] == x`: numbers compare by
   * value, strings by content, a null equals nothing and unlike kinds are unequal.
   */
  predicate CellEquals(v: Value, lit: Literal) {
    match (Numeric(v), LiteralNumeric(lit))
    case (Some(a), Some(b)) => a == b
    case _ => v.VStr? && lit.LStr? && v.s == lit.s
  }

  datatype Order = Greater | Less {
    function Symbol(): string {
      match this
      case Greater => ">"
      case Less => "<"
    }
  }

  /**
   * `cell > literal` or `cell < literal`: a null cell compares false, numbers
   * by value, strings lexicographically; any other pairing raises a TypeError.
   */
  function CellCompare(v: Value, op: Order, lit: Literal): Result<bool> {
    if v.Missing? then Ok(false)
    else match (Numeric(v), LiteralNumeric(lit))
      case (Some(a), Some(b)) => Ok(if op == Greater then a > b else a < b)
      case _ =>
        if v.VStr? && lit.LStr? then
          Ok(if op == Greater then LexLess(lit.s, v.s) else LexLess(v.s, lit.s))
        else
          Err("'" + op.Symbol() + "' not supported between instances of '" + TypeName(v) + "' and '" + LiteralTypeName(lit) + "'")
  }

  /** Both sides numbers, or both sides strings. */
  predicate Comparable(v: Value, lit: Literal) {
    (Numeric(v).Some? && LiteralNumeric(lit).Some?) || (v.VStr? && lit.LStr?)
  }

  /**
   * On a non-null cell of a kind comparable with the literal, exactly one of
   * `==`, `>` and `<` holds, so the three filters split such rows between them.
   */
  lemma CompareTrichotomy(v: Value, lit: Literal)
    requires Comparable(v, lit)
    ensures CellCompare(v, Greater, lit).Ok? && CellCompare(v, Less, lit).Ok?
    ensures (if CellEquals(v, lit) then 1 else 0)
          + (if CellCompare(v, Greater, lit).value then 1 else 0)
          + (if CellCompare(v, Less, lit).value then 1 else 0) == 1
  {
    if v.VStr? && lit.LStr? {
      LexTrichotomy(v.s, lit.s);
    }
  }

  /** A null cell matches none of the three comparisons and never raises. */
  lemma MissingMatchesNothing(lit: Literal)
    ensures !CellEquals(Missing, lit)
    ensures CellCompare(Missing, Greater, lit) == Ok(false) && CellCompare(Missing, Less, lit) == Ok(false)
  {
  }

  // ---- whole-column operations ----

  /** `df[column] = f(row)` for every row: that column is overwritten and nothing else changes. */
  function AssignColumn(df: seq<Row>, column: string, f: Row -> Value): (r: seq<Row>)
    ensures |r| == |df|
    ensures forall i :: 0 <= i < |df| ==> Cell(r[i], column) == f(df[i])
    ensures forall i, c :: 0 <= i < |df| && c != column ==> Cell(r[i], c) == Cell(df[i], c)
    ensures forall i :: 0 <= i < |df| ==> r[i] == df[i][column := f(df[i])]
  {
    seq(|df|, i requires 0 <= i < |df| => df[i][column := f(df[i])])
  }

  /** The row has a non-null value in every listed column. */
  predicate Present(row: Row, columns: seq<string>) {
    forall c :: c in columns ==> Cell(row, c) != Missing
  }

  /** The mask `df[columns].notna().all(axis=1)`. */
  function PresentIn(columns: seq<string>): Row -> bool {
    (row: Row) => Present(row, columns)
  }

  /** `df.dropna(subset=columns)`: the rows with no null among `columns`, in order. */
  function DropMissing(df: seq<Row>, columns: seq<string>): (r: seq<Row>)
    ensures |r| <= |df|
    ensures forall x :: x in r <==> x in df && Present(x, columns)
  {
    Seqs.Filter(df, PresentIn(columns))
  }
}
