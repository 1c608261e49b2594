/**
 * Conditions of a query (valar/src/database/builder/wheres.rs). Rendering
 * a condition both writes its text and pushes its values onto the shared
 * parameter list, each value's placeholder `$n` carrying the count after
 * the push. The text is specified as a sequence of pieces, fixed text and
 * placeholder slots, so that the numbering of the placeholders can be
 * stated apart from the surrounding words.
 */
module SqlWheres {
  import opened Strings
  import opened SqlParameters

  datatype Operation =
    | Equal(column: string, value: Value)
    | NotEqual(column: string, value: Value)
    | GreaterThan(column: string, value: Value)
    | GreaterThanOrEqual(column: string, value: Value)
    | LessThan(column: string, value: Value)
    | LessThanOrEqual(column: string, value: Value)
    | Like(column: string, value: Value)
    | NotLike(column: string, value: Value)
    | In(column: string, values: seq<Value>)
    | NotIn(column: string, values: seq<Value>)
    | Between(column: string, min: Value, max: Value)
    | NotBetween(column: string, min: Value, max: Value)
    | IsNull(column: string)
    | IsNotNull(column: string)
  {
    /** The operations written `column OP $n` with a single value. */
    predicate IsComparison() {
      Equal? || NotEqual? || GreaterThan? || GreaterThanOrEqual? || LessThan? || LessThanOrEqual? || Like? || NotLike?
    }
  }

  /** The values an operation binds, in the order it pushes them. */
  function OperationValues(op: Operation): seq<Value> {
    match op
    case In(_, vs) => vs
    case NotIn(_, vs) => vs
    case Between(_, lo, hi) => [lo, hi]
    case NotBetween(_, lo, hi) => [lo, hi]
    case IsNull(_) => []
    case IsNotNull(_) => []
    case _ => [op.value]
  }

  /** `$n`. */
  function Placeholder(n: nat): string {
    "$" + NatToString(n)
  }

  datatype Piece = Text(text: string) | Slot(position: nat)

  /** The text the pieces spell, each slot written as its placeholder. */
  function Render(pieces: seq<Piece>): string
    decreases |pieces|
  {
    if pieces == [] then ""
    else (match pieces[0] case Text(t) => t case Slot(n) => Placeholder(n)) + Render(pieces[1..])
  }

  /** The positions of the slots, in the order they are written. */
  function Slots(pieces: seq<Piece>): seq<nat>
    decreases |pieces|
  {
    if pieces == [] then []
    else (match pieces[0] case Text(_) => [] case Slot(n) => [n]) + Slots(pieces[1..])
  }

  /** `first`, `first + 1`, ..., `count` numbers in all. */
  function Range(first: nat, count: nat): (r: seq<nat>)
    ensures |r| == count && forall i :: 0 <= i < count ==> r[i] == first + i
  {
    seq(count, i requires 0 <= i < count => first + i)
  }

  /** `count` slots from `first` on, separated by `, `. */
  function SlotList(first: nat, count: nat): seq<Piece>
    decreases count
  {
    if count == 0 then []
    else if count == 1 then [Slot(first)]
    else [Slot(first), Text(", ")] + SlotList(first + 1, count - 1)
  }

  /** The placeholders `$first`, ..., as the source collects them before joining. */
  function Placeholders(first: nat, count: nat): (r: seq<string>)
    ensures |r| == count && forall i :: 0 <= i < count ==> r[i] == Placeholder(first + i)
  {
    seq(count, i requires 0 <= i < count => Placeholder(first + i))
  }

  /** `column OP $n`. */
  function ComparisonPieces(column: string, symbol: string, base: nat): seq<Piece> {
    [Text(column + " " + symbol + " "), Slot(base + 1)]
  }

  /** `column IN ($n, ...)` and `column NOT IN ($n, ...)`. */
  function ListPieces(column: string, keyword: string, base: nat, count: nat): seq<Piece> {
    [Text(column + " " + keyword + " (")] + SlotList(base + 1, count) + [Text(")")]
  }

  /** `column BETWEEN $n AND $m` and `column NOT BETWEEN $n AND $m`. */
  function RangePieces(column: string, keyword: string, base: nat): seq<Piece> {
    [Text(column + " " + keyword + " "), Slot(base + 1), Text(" AND "), Slot(base + 2)]
  }

  /**
   * What `Operation::to_sql_string` writes when `base` values are already
   * bound: its own values take the next positions.
   */
  function OperationPieces(op: Operation, base: nat): seq<Piece> {
    match op
    case Equal(c, _) => ComparisonPieces(c, "=", base)
    case NotEqual(c, _) => ComparisonPieces(c, "!=", base)
    case GreaterThan(c, _) => ComparisonPieces(c, ">", base)
    case GreaterThanOrEqual(c, _) => ComparisonPieces(c, ">=", base)
    case LessThan(c, _) => ComparisonPieces(c, "<", base)
    case LessThanOrEqual(c, _) => ComparisonPieces(c, "<=", base)
    case Like(c, _) => ComparisonPieces(c, "LIKE", base)
    case NotLike(c, _) => ComparisonPieces(c, "NOT LIKE", base)
    case In(c, vs) => ListPieces(c, "IN", base, |vs|)
    case NotIn(c, vs) => ListPieces(c, "NOT IN", base, |vs|)
    case Between(c, _, _) => RangePieces(c, "BETWEEN", base)
    case NotBetween(c, _, _) => RangePieces(c, "NOT BETWEEN", base)
    case IsNull(c) => [Text(c + " IS NULL")]
    case IsNotNull(c) => [Text(c + " IS NOT NULL")]
  }

  lemma {:induction false} RenderAppend(a: seq<Piece>, b: seq<Piece>)
    ensures Render(a + b) == Render(a) + Render(b)
    decreases |a|
  {
    if a == [] {
      assert a + b == b;
    } else {
      assert (a + b)[1..] == a[1..] + b;
      RenderAppend(a[1..], b);
    }
  }

  lemma {:induction false} SlotsAppend(a: seq<Piece>, b: seq<Piece>)
    ensures Slots(a + b) == Slots(a) + Slots(b)
    decreases |a|
  {
    if a == [] {
      assert a + b == b;
    } else {
      assert (a + b)[1..] == a[1..] + b;
      SlotsAppend(a[1..], b);
    }
  }

  lemma RangeAppend(first: nat, m: nat, n: nat)
    ensures Range(first, m) + Range(first + m, n) == Range(first, m + n)
  {
  }

  /** The slot list spells the joined placeholders, and its slots are consecutive. */
  lemma {:induction false} SlotListSpells(first: nat, count: nat)
    ensures Render(SlotList(first, count)) == Join(Placeholders(first, count), ", ")
    ensures Slots(SlotList(first, count)) == Range(first, count)
    decreases count
  {
    if count == 1 {
      assert Render([Slot(first)]) == Placeholder(first) + Render([]);
      assert Slots([Slot(first)]) == [first] + Slots([]);
    } else if count > 1 {
      var rest := SlotList(first + 1, count - 1);
      SlotListSpells(first + 1, count - 1);
      RenderAppend([Slot(first), Text(", ")], rest);
      SlotsAppend([Slot(first), Text(", ")], rest);
      assert Render([Slot(first), Text(", ")]) == Placeholder(first) + ", " by {
        assert [Slot(first), Text(", ")][1..] == [Text(", ")];
        assert Render([Text(", ")]) == ", " + Render([]);
      }
      assert Slots([Slot(first), Text(", ")]) == [first] by {
        assert [Slot(first), Text(", ")][1..] == [Text(", ")];
        assert Slots([Text(", ")]) == [] + Slots([]);
      }
      assert Placeholders(first, count)[1..] == Placeholders(first + 1, count - 1);
      RangeAppend(first, 1, count - 1);
    }
  }

  lemma ComparisonSlots(column: string, symbol: string, base: nat)
    ensures Slots(ComparisonPieces(column, symbol, base)) == [base + 1]
  {
    var ps := ComparisonPieces(column, symbol, base);
    assert ps[1..] == [Slot(base + 1)];
    assert Slots(ps[1..]) == [base + 1] + Slots([]);
  }

  lemma ListSlots(column: string, keyword: string, base: nat, count: nat)
    ensures Slots(ListPieces(column, keyword, base, count)) == Range(base + 1, count)
  {
    var head := [Text(column + " " + keyword + " (")];
    var tail := SlotList(base + 1, count);
    SlotsAppend(head + tail, [Text(")")]);
    SlotsAppend(head, tail);
    SlotListSpells(base + 1, count);
    assert Slots(head) == [] + Slots([]);
    assert Slots([Text(")")]) == [] + Slots([]);
  }

  lemma RangeSlots(column: string, keyword: string, base: nat)
    ensures Slots(RangePieces(column, keyword, base)) == [base + 1, base + 2]
  {
    var ps := RangePieces(column, keyword, base);
    assert ps[1..][1..][1..] == [Slot(base + 2)];
    assert Slots([Slot(base + 2)]) == [base + 2] + Slots([]);
    assert ps[1..][1..] == [Text(" AND "), Slot(base + 2)];
    assert Slots(ps[1..][1..]) == [] + [base + 2];
    assert ps[1..] == [Slot(base + 1), Text(" AND "), Slot(base + 2)];
    assert Slots(ps[1..]) == [base + 1] + [base + 2];
  }

  /**
   * Whatever the operation, its placeholders are exactly the next
   * positions after the `base` already bound, one per value it binds, in
   * order: a comparison or LIKE writes `$base+1`, IN and NOT IN write
   * consecutive positions, BETWEEN and NOT BETWEEN write the min's position
   * and the position after it, IS NULL and IS NOT NULL write none.
   */
  lemma OperationSlots(op: Operation, base: nat)
    ensures Slots(OperationPieces(op, base)) == Range(base + 1, |OperationValues(op)|)
  {
    match op
    case In(c, vs) => ListSlots(c, "IN", base, |vs|);
    case NotIn(c, vs) => ListSlots(c, "NOT IN", base, |vs|);
    case Between(c, _, _) => RangeSlots(c, "BETWEEN", base);
    case NotBetween(c, _, _) => RangeSlots(c, "NOT BETWEEN", base);
    case IsNull(c) => assert Slots([Text(c + " IS NULL")]) == [] + Slots([]);
    case IsNotNull(c) => assert Slots([Text(c + " IS NOT NULL")]) == [] + Slots([]);
    case Equal(c, _) => ComparisonSlots(c, "=", base);
    case NotEqual(c, _) => ComparisonSlots(c, "!=", base);
    case GreaterThan(c, _) => ComparisonSlots(c, ">", base);
    case GreaterThanOrEqual(c, _) => ComparisonSlots(c, ">=", base);
    case LessThan(c, _) => ComparisonSlots(c, "<", base);
    case LessThanOrEqual(c, _) => ComparisonSlots(c, "<=", base);
    case Like(c, _) => ComparisonSlots(c, "LIKE", base);
    case NotLike(c, _) => ComparisonSlots(c, "NOT LIKE", base);
  }

  /** How many values each kind binds. */
  lemma OperationArity(op: Operation)
    ensures op.IsComparison() ==> OperationValues(op) == [op.value]
    ensures op.In? || op.NotIn? ==> OperationValues(op) == op.values
    ensures op.Between? || op.NotBetween? ==> OperationValues(op) == [op.min, op.max]
    ensures op.IsNull? || op.IsNotNull? ==> OperationValues(op) == []
  {
  }

  /**
   * `Operation::to_sql_string`: the values are pushed in order and the
   * text is the operation's pieces placed after the values already bound.
   */
  method OperationSql(op: Operation, parameters: Parameters) returns (s: string)
    modifies parameters
    ensures parameters.values == old(parameters.values) + OperationValues(op)
    ensures s == Render(OperationPieces(op, |old(parameters.values)|))
  {
    match op
    case Equal(c, v) => s := ComparisonSql(c, "=", v, parameters);
    case NotEqual(c, v) => s := ComparisonSql(c, "!=", v, parameters);
    case GreaterThan(c, v) => s := ComparisonSql(c, ">", v, parameters);
    case GreaterThanOrEqual(c, v) => s := ComparisonSql(c, ">=", v, parameters);
    case LessThan(c, v) => s := ComparisonSql(c, "<", v, parameters);
    case LessThanOrEqual(c, v) => s := ComparisonSql(c, "<=", v, parameters);
    case Like(c, v) => s := ComparisonSql(c, "LIKE", v, parameters);
    case NotLike(c, v) => s := ComparisonSql(c, "NOT LIKE", v, parameters);
    case In(c, vs) => s := ListSql(c, "IN", vs, parameters);
    case NotIn(c, vs) => s := ListSql(c, "NOT IN", vs, parameters);
    case Between(c, lo, hi) => s := RangeSql(c, "BETWEEN", lo, hi, parameters);
    case NotBetween(c, lo, hi) => s := RangeSql(c, "NOT BETWEEN", lo, hi, parameters);
    case IsNull(c) =>
      s := c + " IS NULL";
      assert Render([Text(s)]) == s + Render([]);
    case IsNotNull(c) =>
      s := c + " IS NOT NULL";
      assert Render([Text(s)]) == s + Render([]);
  }

  /** One `add`, written `column OP $n` with `n` the new count. */
  method ComparisonSql(column: string, symbol: string, value: Value, parameters: Parameters) returns (s: string)
    modifies parameters
    ensures parameters.values == old(parameters.values) + [value]
    ensures s == Render(ComparisonPieces(column, symbol, |old(parameters.values)|))
  {
    var n := parameters.Add(value);
    s := column + " " + symbol + " " + Placeholder(n);
    ComparisonText(column, symbol, n - 1);
  }

  lemma ComparisonText(column: string, symbol: string, base: nat)
    ensures Render(ComparisonPieces(column, symbol, base)) == column + " " + symbol + " " + Placeholder(base + 1)
  {
    var ps := ComparisonPieces(column, symbol, base);
    assert ps[1..] == [Slot(base + 1)];
    assert Render(ps[1..]) == Placeholder(base + 1) + Render([]);
  }

  /** One `add` per value, the placeholders joined by `, ` inside parentheses. */
  method ListSql(column: string, keyword: string, vs: seq<Value>, parameters: Parameters) returns (s: string)
    modifies parameters
    ensures parameters.values == old(parameters.values) + vs
    ensures s == Render(ListPieces(column, keyword, |old(parameters.values)|, |vs|))
  {
    var base := |parameters.values|;
    var positions := InPositions(vs, parameters);
    s := column + " " + keyword + " (" + Join(positions, ", ") + ")";
    var open := [Text(column + " " + keyword + " (")];
    var mid := SlotList(base + 1, |vs|);
    RenderAppend(open + mid, [Text(")")]);
    RenderAppend(open, mid);
    SlotListSpells(base + 1, |vs|);
    assert Render(open) == column + " " + keyword + " (" + Render([]);
    assert Render([Text(")")]) == ")" + Render([]);
  }

  /** The IN list: one `add` per value, each written as its placeholder. */
  method InPositions(vs: seq<Value>, parameters: Parameters) returns (positions: seq<string>)
    modifies parameters
    ensures parameters.values == old(parameters.values) + vs
    ensures positions == Placeholders(|old(parameters.values)| + 1, |vs|)
  {
    positions := [];
    for i := 0 to |vs|
      invariant parameters.values == old(parameters.values) + vs[..i]
      invariant positions == Placeholders(|old(parameters.values)| + 1, i)
    {
      var n := parameters.Add(vs[i]);
      assert vs[..i + 1] == vs[..i] + [vs[i]];
      positions := positions + ["$" + NatToString(n)];
    }
    assert vs[..|vs|] == vs;
  }

  /** The min is added, then the max, so the max's position is the min's plus one. */
  method RangeSql(column: string, keyword: string, min: Value, max: Value, parameters: Parameters) returns (s: string)
    modifies parameters
    ensures parameters.values == old(parameters.values) + [min, max]
    ensures s == Render(RangePieces(column, keyword, |old(parameters.values)|))
  {
    var base := |parameters.values|;
    var minPosition := parameters.Add(min);
    var maxPosition := parameters.Add(max);
    s := column + " " + keyword + " " + Placeholder(minPosition) + " AND " + Placeholder(maxPosition);
    RangeText(column, keyword, base);
  }

  lemma RangeText(column: string, keyword: string, base: nat)
    ensures Render(RangePieces(column, keyword, base))
      == column + " " + keyword + " " + Placeholder(base + 1) + " AND " + Placeholder(base + 2)
  {
    var ps := RangePieces(column, keyword, base);
    assert ps[1..][1..][1..] == [Slot(base + 2)];
    assert Render([Slot(base + 2)]) == Placeholder(base + 2) + Render([]);
    assert ps[1..][1..] == [Text(" AND "), Slot(base + 2)];
    assert Render(ps[1..][1..]) == " AND " + Placeholder(base + 2);
    assert ps[1..] == [Slot(base + 1), Text(" AND "), Slot(base + 2)];
    assert Render(ps[1..]) == Placeholder(base + 1) + " AND " + Placeholder(base + 2);
  }

  datatype Where = And(operation: Operation) | Or(operation: Operation) | Nop(operation: Operation)
  {
    /** `into_nop`: the operation is kept and the connector dropped. */
    function IntoNop(): (r: Where)
      ensures r.Nop? && r.operation == operation
    {
      Nop(operation)
    }
  }

  /** Dropping the connector twice is dropping it once, and a Nop is left as it is. */
  lemma IntoNopIdempotent(w: Where)
    ensures w.IntoNop().IntoNop() == w.IntoNop()
    ensures w.Nop? ==> w.IntoNop() == w
  {
  }

  /** The connector and opening parenthesis a condition is written with. */
  function Opening(w: Where): string {
    match w
    case And(_) => "AND ("
    case Or(_) => "OR ("
    case Nop(_) => "("
  }

  /** `Where::to_sql_string`: `AND (op)`, `OR (op)` or `(op)`. */
  function WherePieces(w: Where, base: nat): seq<Piece> {
    [Text(Opening(w))] + OperationPieces(w.operation, base) + [Text(")")]
  }

  lemma WhereSpelled(w: Where, base: nat)
    ensures Render(WherePieces(w, base)) == Opening(w) + Render(OperationPieces(w.operation, base)) + ")"
  {
    var open := [Text(Opening(w))];
    var mid := OperationPieces(w.operation, base);
    RenderAppend(open + mid, [Text(")")]);
    RenderAppend(open, mid);
    assert Render(open) == Opening(w) + Render([]);
    assert Render([Text(")")]) == ")" + Render([]);
  }

  /** A condition's placeholders are its operation's; the connector adds none. */
  lemma WhereSlots(w: Where, base: nat)
    ensures Slots(WherePieces(w, base)) == Range(base + 1, |OperationValues(w.operation)|)
  {
    var open := [Text(Opening(w))];
    var mid := OperationPieces(w.operation, base);
    SlotsAppend(open + mid, [Text(")")]);
    SlotsAppend(open, mid);
    OperationSlots(w.operation, base);
    assert Slots(open) == [] + Slots([]);
    assert Slots([Text(")")]) == [] + Slots([]);
  }

  method WhereSql(w: Where, parameters: Parameters) returns (s: string)
    modifies parameters
    ensures parameters.values == old(parameters.values) + OperationValues(w.operation)
    ensures s == Render(WherePieces(w, |old(parameters.values)|))
  {
    var base := |parameters.values|;
    var inner := OperationSql(w.operation, parameters);
    s := Opening(w) + inner + ")";
    WhereSpelled(w, base);
  }
}
