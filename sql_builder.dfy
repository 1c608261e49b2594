/**
 * The entry point of the query builder (valar/src/database/builder.rs):
 * a table name, from which a SELECT builder is made. The tests of
 * valar/src/database/builder/selects.rs are stated at the end as methods
 * building the same queries.
 */
module SqlBuilder {
  import opened Strings
  import opened SqlParameters
  import opened SqlWheres
  import opened SqlSelect
  import opened PendingQueries

  datatype QueryBuilder = QueryBuilder(table: string)
  {
    /** `select`: a builder over this table selecting the columns in the given order, with no conditions. */
    method Select(columns: seq<string>) returns (b: SelectQueryBuilder)
      ensures fresh(b)
      ensures b.table == table && b.columns == columns && b.wheres == [] && b.Valid()
    {
      b := new SelectQueryBuilder(table, columns);
    }

    /** `select_all`: the single column `*`. */
    method SelectAll() returns (b: SelectQueryBuilder)
      ensures fresh(b)
      ensures b.table == table && b.columns == ["*"] && b.wheres == [] && b.Valid()
    {
      b := new SelectQueryBuilder(table, ["*"]);
    }
  }

  /** `QueryBuilder::table` (and `Database::table`): the name is kept unchanged. */
  function Table(table: string): (b: QueryBuilder)
    ensures b.table == table
  {
    QueryBuilder(table)
  }

  /*
   * The tests of the SELECT builder. A condition's text is stated in the
   * fragments the builder writes it from (connector, column, operator,
   * placeholder); the test methods then state each expected statement as
   * the texts of its conditions, joined by a space inside ` WHERE (...)`.
   */

  lemma SmallPlaceholders()
    ensures Placeholder(1) == "$1" && Placeholder(2) == "$2" && Placeholder(3) == "$3" && Placeholder(4) == "$4"
  {
  }

  /** A comparison condition is written as its opening, `column OP $n` and `)`. */
  lemma ComparisonRendered(w: Where, symbol: string, base: nat)
    requires OperationPieces(w.operation, base) == ComparisonPieces(w.operation.column, symbol, base)
    ensures Render(WherePieces(w, base)) == Opening(w) + (w.operation.column + " " + symbol + " " + Placeholder(base + 1)) + ")"
  {
    WhereSpelled(w, base);
    ComparisonText(w.operation.column, symbol, base);
  }

  /** One condition: it is written without a connector and binds `$1`. */
  lemma OneConditionText(t: string, cols: seq<string>, c: string, v: Value)
    ensures SelectStatement(t, cols, [Nop(Equal(c, v))])
      == SelectHead(t, cols) + " WHERE (" + Join(["(" + (c + " " + "=" + " " + Placeholder(1)) + ")"], " ") + ")"
    ensures WheresValues([Nop(Equal(c, v))]) == [v]
  {
    var ws := [Nop(Equal(c, v))];
    assert ws[..0] == [];
    assert PieceLists(ws) == [WherePieces(ws[0], 0)];
    ComparisonRendered(ws[0], "=", 0);
    assert Renders(PieceLists(ws)) == [Render(WherePieces(ws[0], 0))];
  }

  /** Two equalities: the second is written with `AND` and binds `$2`. */
  lemma TwoConditionsText(t: string, cols: seq<string>, c1: string, c2: string, v1: Value, v2: Value)
    ensures var ws := [Nop(Equal(c1, v1)), And(Equal(c2, v2))];
      && SelectStatement(t, cols, ws)
        == SelectHead(t, cols) + " WHERE (" + Join([
          "(" + (c1 + " " + "=" + " " + Placeholder(1)) + ")",
          "AND (" + (c2 + " " + "=" + " " + Placeholder(2)) + ")"], " ") + ")"
      && WheresValues(ws) == [v1, v2]
  {
    var ws := [Nop(Equal(c1, v1)), And(Equal(c2, v2))];
    TwoConditionsPieces(c1, c2, v1, v2);
    ComparisonRendered(ws[0], "=", 0);
    ComparisonRendered(ws[1], "=", 1);
    assert Renders(PieceLists(ws)) == [Render(WherePieces(ws[0], 0)), Render(WherePieces(ws[1], 1))];
  }

  lemma TwoConditionsPieces(c1: string, c2: string, v1: Value, v2: Value)
    ensures var ws := [Nop(Equal(c1, v1)), And(Equal(c2, v2))];
      && WheresValues(ws) == [v1, v2]
      && PieceLists(ws) == [WherePieces(ws[0], 0), WherePieces(ws[1], 1)]
  {
    var ws := [Nop(Equal(c1, v1)), And(Equal(c2, v2))];
    assert ws[..1] == [ws[0]] && ws[..1][..0] == [];
    assert WheresValues(ws[..1]) == [v1];
    assert PieceLists(ws[..1]) == [WherePieces(ws[0], 0)];
  }

  /** The conditions of the third test, in the order they are added. */
  function TestConditions(c1: string, c2: string, c3: string, v1: Value, v2: Value, lo: Value, hi: Value): seq<Where> {
    [Nop(Equal(c1, v1)), And(NotEqual(c2, v2)), And(Between(c3, lo, hi))]
  }

  lemma TestConditionsPieces(c1: string, c2: string, c3: string, v1: Value, v2: Value, lo: Value, hi: Value)
    ensures var ws := TestConditions(c1, c2, c3, v1, v2, lo, hi);
      && WheresValues(ws) == [v1, v2, lo, hi]
      && PieceLists(ws) == [WherePieces(ws[0], 0), WherePieces(ws[1], 1), WherePieces(ws[2], 2)]
  {
    var ws := TestConditions(c1, c2, c3, v1, v2, lo, hi);
    assert ws[..2][..1] == ws[..1] && ws[..1][..0] == [];
    assert WheresValues(ws[..1]) == [v1];
    assert WheresValues(ws[..2]) == [v1, v2];
    assert PieceLists(ws[..1]) == [WherePieces(ws[0], 0)];
    assert PieceLists(ws[..2]) == [WherePieces(ws[0], 0), WherePieces(ws[1], 1)];
  }

  lemma RangeRendered(c: string, lo: Value, hi: Value, base: nat)
    ensures Render(WherePieces(And(Between(c, lo, hi)), base))
      == "AND (" + (c + " " + "BETWEEN" + " " + Placeholder(base + 1) + " AND " + Placeholder(base + 2)) + ")"
  {
    WhereSpelled(And(Between(c, lo, hi)), base);
    RangeText(c, "BETWEEN", base);
  }

  /**
   * An equality, an inequality and a range: the placeholders are numbered
   * `$1` to `$4` across them, the first is written without a connector and
   * the values are bound in order.
   */
  lemma ThreeConditionsText(t: string, cols: seq<string>, c1: string, c2: string, c3: string, v1: Value, v2: Value, lo: Value, hi: Value)
    ensures var ws := TestConditions(c1, c2, c3, v1, v2, lo, hi);
      && SelectStatement(t, cols, ws)
        == SelectHead(t, cols) + " WHERE (" + Join([
          "(" + (c1 + " " + "=" + " " + Placeholder(1)) + ")",
          "AND (" + (c2 + " " + "!=" + " " + Placeholder(2)) + ")",
          "AND (" + (c3 + " " + "BETWEEN" + " " + Placeholder(3) + " AND " + Placeholder(4)) + ")"], " ") + ")"
      && WheresValues(ws) == [v1, v2, lo, hi]
  {
    var ws := TestConditions(c1, c2, c3, v1, v2, lo, hi);
    TestConditionsPieces(c1, c2, c3, v1, v2, lo, hi);
    ComparisonRendered(ws[0], "=", 0);
    ComparisonRendered(ws[1], "!=", 1);
    RangeRendered(c3, lo, hi, 2);
    ThreeJoined(SelectHead(t, cols), PieceLists(ws),
      "(" + (c1 + " " + "=" + " " + Placeholder(1)) + ")",
      "AND (" + (c2 + " " + "!=" + " " + Placeholder(2)) + ")",
      "AND (" + (c3 + " " + "BETWEEN" + " " + Placeholder(3) + " AND " + Placeholder(4)) + ")");
  }

  /** Three conditions, spelled `r0`, `r1` and `r2`, inside the ` WHERE (...)` clause. */
  lemma ThreeJoined(head: string, pss: seq<seq<Piece>>, r0: string, r1: string, r2: string)
    requires |pss| == 3 && Render(pss[0]) == r0 && Render(pss[1]) == r1 && Render(pss[2]) == r2
    ensures WithWhere(head, pss) == head + " WHERE (" + Join([r0, r1, r2], " ") + ")"
  {
    assert Renders(pss) == [r0, r1, r2];
  }

  lemma UsersHead()
    ensures SelectHead("users", ["id"]) == "SELECT id FROM users"
  {
  }

  /** The texts of the tests' conditions, from their fragments. */
  lemma TestTexts()
    ensures "(" + ("name" + " " + "=" + " " + Placeholder(1)) + ")" == "(name = $1)"
    ensures "AND (" + ("email" + " " + "=" + " " + Placeholder(2)) + ")" == "AND (email = $2)"
    ensures "AND (" + ("email" + " " + "!=" + " " + Placeholder(2)) + ")" == "AND (email != $2)"
    ensures "AND (" + ("age" + " " + "BETWEEN" + " " + Placeholder(3) + " AND " + Placeholder(4)) + ")" == "AND (age BETWEEN $3 AND $4)"
  {
    SmallPlaceholders();
  }

  lemma WhereSelectStatement()
    ensures SelectStatement("users", ["id"], [Nop(Equal("name", "Erik"))])
      == "SELECT id FROM users" + " WHERE (" + Join(["(name = $1)"], " ") + ")"
    ensures WheresValues([Nop(Equal("name", "Erik"))]) == ["Erik"]
  {
    OneConditionText("users", ["id"], "name", "Erik");
    UsersHead();
    TestTexts();
  }

  lemma WhereSelect2Statement()
    ensures var ws := [Nop(Equal("name", "Erik")), And(Equal("email", "soc@erik.cat"))];
      && SelectStatement("users", ["id"], ws)
        == "SELECT id FROM users" + " WHERE (" + Join(["(name = $1)", "AND (email = $2)"], " ") + ")"
      && WheresValues(ws) == ["Erik", "soc@erik.cat"]
  {
    TwoConditionsText("users", ["id"], "name", "email", "Erik", "soc@erik.cat");
    UsersHead();
    TestTexts();
  }

  lemma WhereSelect3Statement()
    ensures var ws := TestConditions("name", "email", "age", "Erik", "soc@erik.cat", "18", "30");
      && SelectStatement("users", ["id"], ws)
        == "SELECT id FROM users" + " WHERE (" + Join(["(name = $1)", "AND (email != $2)", "AND (age BETWEEN $3 AND $4)"], " ") + ")"
      && WheresValues(ws) == ["Erik", "soc@erik.cat", "18", "30"]
  {
    ThreeConditionsText("users", ["id"], "name", "email", "age", "Erik", "soc@erik.cat", "18", "30");
    UsersHead();
    TestTexts();
  }

  /** `test_simple_select`. */
  method SimpleSelect() returns (q: PendingQuery)
    ensures q.ToString() == "SELECT id FROM users" && q.parameters == []
  {
    var b := Table("users").Select(["id"]);
    q := b.ToPendingQuery();
    UsersHead();
  }

  /** `test_where_select`. */
  method WhereSelect() returns (q: PendingQuery)
    ensures q.ToString() == "SELECT id FROM users" + " WHERE (" + Join(["(name = $1)"], " ") + ")"
    ensures q.parameters == ["Erik"]
  {
    var b := Table("users").Select(["id"]);
    b.AndWhere(Equal("name", "Erik"));
    q := b.ToPendingQuery();
    WhereSelectStatement();
  }

  /** `test_where_select_2`. */
  method WhereSelect2() returns (q: PendingQuery)
    ensures q.ToString() == "SELECT id FROM users" + " WHERE (" + Join(["(name = $1)", "AND (email = $2)"], " ") + ")"
    ensures q.parameters == ["Erik", "soc@erik.cat"]
  {
    var b := Table("users").Select(["id"]);
    b.AndWhere(Equal("name", "Erik"));
    assert b.wheres == [Nop(Equal("name", "Erik"))];
    b.AndWhere(Equal("email", "soc@erik.cat"));
    assert b.wheres == [Nop(Equal("name", "Erik")), And(Equal("email", "soc@erik.cat"))];
    q := b.ToPendingQuery();
    WhereSelect2Statement();
  }

  /** `test_where_select_3`. */
  method WhereSelect3() returns (q: PendingQuery)
    ensures q.ToString()
      == "SELECT id FROM users" + " WHERE (" + Join(["(name = $1)", "AND (email != $2)", "AND (age BETWEEN $3 AND $4)"], " ") + ")"
    ensures q.parameters == ["Erik", "soc@erik.cat", "18", "30"]
  {
    var b := Table("users").Select(["id"]);
    b.AndWhere(Equal("name", "Erik"));
    assert b.wheres == [Nop(Equal("name", "Erik"))];
    b.AndWhere(NotEqual("email", "soc@erik.cat"));
    assert b.wheres == [Nop(Equal("name", "Erik")), And(NotEqual("email", "soc@erik.cat"))];
    b.AndWhere(Between("age", "18", "30"));
    assert b.wheres == TestConditions("name", "email", "age", "Erik", "soc@erik.cat", "18", "30");
    q := b.ToPendingQuery();
    WhereSelect3Statement();
  }
}
