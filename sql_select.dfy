/**
 * The SELECT builder (valar/src/database/builder/selects.rs): a table,
 * the selected columns and the conditions added so far, kept in place.
 * Assembling the statement renders the conditions in order against one
 * fresh parameter list, so the placeholders run `$1`, `$2`, ... through the
 * whole WHERE clause.
 */
module SqlSelect {
  import opened Strings
  import opened SqlParameters
  import opened SqlWheres
  import opened PendingQueries

  /** The values the conditions bind, condition after condition. */
  function WheresValues(ws: seq<Where>): seq<Value>
    decreases |ws|
  {
    if ws == [] then [] else WheresValues(ws[..|ws| - 1]) + OperationValues(ws[|ws| - 1].operation)
  }

  /** How many values are bound before condition `i` is rendered. */
  function Bound(ws: seq<Where>, i: nat): nat
    requires i <= |ws|
  {
    |WheresValues(ws[..i])|
  }

  /** The pieces of each condition, rendered after the ones before it. */
  function PieceLists(ws: seq<Where>): (r: seq<seq<Piece>>)
    ensures |r| == |ws|
    decreases |ws|
  {
    if ws == [] then []
    else
      var before := ws[..|ws| - 1];
      PieceLists(before) + [WherePieces(ws[|ws| - 1], |WheresValues(before)|)]
  }

  /** The text of each piece list. */
  function Renders(pss: seq<seq<Piece>>): (r: seq<string>)
    ensures |r| == |pss| && forall i :: 0 <= i < |pss| ==> r[i] == Render(pss[i])
  {
    seq(|pss|, i requires 0 <= i < |pss| => Render(pss[i]))
  }

  /** Piece lists one after the other, separated by a space. */
  function Spaced(pss: seq<seq<Piece>>): seq<Piece>
    decreases |pss|
  {
    if |pss| == 0 then []
    else if |pss| == 1 then pss[0]
    else pss[0] + [Text(" ")] + Spaced(pss[1..])
  }

  /** The slot positions of each piece list, one after the other. */
  function SlotsOf(pss: seq<seq<Piece>>): seq<nat>
    decreases |pss|
  {
    if pss == [] then [] else Slots(pss[0]) + SlotsOf(pss[1..])
  }

  function SelectHead(table: string, columns: seq<string>): string {
    "SELECT " + Join(columns, ", ") + " FROM " + table
  }

  /**
   * The statement `to_pending_query` and `executor_parameters` assemble:
   * the columns joined by `, `, the table, and with conditions ` WHERE (`,
   * the conditions joined by a space, and `)`.
   */
  function SelectStatement(table: string, columns: seq<string>, ws: seq<Where>): string {
    WithWhere(SelectHead(table, columns), PieceLists(ws))
  }

  /** A head, then the conditions' texts joined by a space inside ` WHERE (...)` if there are any. */
  function WithWhere(head: string, pss: seq<seq<Piece>>): string {
    if pss == [] then head else head + " WHERE (" + Join(Renders(pss), " ") + ")"
  }

  /** The whole statement as pieces. */
  function StatementPieces(table: string, columns: seq<string>, ws: seq<Where>): seq<Piece> {
    WithWherePieces(SelectHead(table, columns), PieceLists(ws))
  }

  function WithWherePieces(head: string, pss: seq<seq<Piece>>): seq<Piece> {
    if pss == [] then [Text(head)] else [Text(head), Text(" WHERE (")] + Spaced(pss) + [Text(")")]
  }

  /** Spacing piece lists spells their texts joined by a space. */
  lemma {:induction false} SpacedSpelled(pss: seq<seq<Piece>>)
    ensures Render(Spaced(pss)) == Join(Renders(pss), " ")
    decreases |pss|
  {
    if |pss| > 1 {
      SpacedSpelled(pss[1..]);
      RenderAppend(pss[0] + [Text(" ")], Spaced(pss[1..]));
      RenderAppend(pss[0], [Text(" ")]);
      assert Render([Text(" ")]) == " " + Render([]);
      assert Renders(pss)[1..] == Renders(pss[1..]);
    }
  }

  /** Spacing adds no slot. */
  lemma {:induction false} SpacedSlots(pss: seq<seq<Piece>>)
    ensures Slots(Spaced(pss)) == SlotsOf(pss)
    decreases |pss|
  {
    if |pss| == 1 {
      assert SlotsOf(pss) == Slots(pss[0]) + SlotsOf([]);
    } else if |pss| > 1 {
      SpacedSlots(pss[1..]);
      SlotsAppend(pss[0] + [Text(" ")], Spaced(pss[1..]));
      SlotsAppend(pss[0], [Text(" ")]);
      assert Slots([Text(" ")]) == [] + Slots([]);
    }
  }

  lemma {:induction false} SlotsOfSnoc(pss: seq<seq<Piece>>, ps: seq<Piece>)
    ensures SlotsOf(pss + [ps]) == SlotsOf(pss) + Slots(ps)
    decreases |pss|
  {
    if pss == [] {
      assert [] + [ps] == [ps];
      assert SlotsOf([ps]) == Slots(ps) + SlotsOf([]);
    } else {
      assert (pss + [ps])[1..] == pss[1..] + [ps];
      SlotsOfSnoc(pss[1..], ps);
    }
  }

  lemma RendersSnoc(pss: seq<seq<Piece>>, ps: seq<Piece>)
    ensures Renders(pss + [ps]) == Renders(pss) + [Render(ps)]
  {
  }

  /** The placeholders of the conditions are `$1` to `$k`, `k` the number of values they bind. */
  lemma {:induction false} WheresSlots(ws: seq<Where>)
    ensures SlotsOf(PieceLists(ws)) == Range(1, |WheresValues(ws)|)
    decreases |ws|
  {
    if ws != [] {
      var before := ws[..|ws| - 1];
      var last := ws[|ws| - 1];
      var k := |WheresValues(before)|;
      WheresSlots(before);
      SlotsOfSnoc(PieceLists(before), WherePieces(last, k));
      WhereSlots(last, k);
      RangeAppend(1, k, |OperationValues(last.operation)|);
    }
  }

  lemma WithWhereSpelled(head: string, pss: seq<seq<Piece>>)
    ensures Render(WithWherePieces(head, pss)) == WithWhere(head, pss)
    ensures Slots(WithWherePieces(head, pss)) == SlotsOf(pss)
  {
    if pss == [] {
      TextsAlone(head, "");
      assert [Text(head), Text("")][..1] == [Text(head)];
    } else {
      var mid := Spaced(pss);
      var open := [Text(head), Text(" WHERE (")];
      var close := [Text(")")];
      Framed(open, mid, close);
      TextsAlone(head, " WHERE (");
      TextsAlone(")", "");
      assert [Text(")"), Text("")][..1] == close;
      SpacedSpelled(pss);
      SpacedSlots(pss);
    }
  }

  /** Two texts spell their concatenation and hold no slot; so does the first alone. */
  lemma TextsAlone(a: string, b: string)
    ensures Render([Text(a), Text(b)]) == a + b && Slots([Text(a), Text(b)]) == []
    ensures Render([Text(a)]) == a && Slots([Text(a)]) == []
  {
    assert [Text(b)][1..] == [];
    assert Render([Text(b)]) == b + Render([]);
    assert Slots([Text(b)]) == [] + Slots([]);
    assert [Text(a), Text(b)][1..] == [Text(b)];
    assert Render([Text(a), Text(b)]) == a + Render([Text(b)]);
    assert Slots([Text(a), Text(b)]) == [] + Slots([Text(b)]);
    assert [Text(a)][1..] == [];
    assert Render([Text(a)]) == a + Render([]);
    assert Slots([Text(a)]) == [] + Slots([]);
  }

  /** Pieces written in three runs spell, and number, run by run. */
  lemma Framed(open: seq<Piece>, mid: seq<Piece>, close: seq<Piece>)
    ensures Render(open + mid + close) == Render(open) + Render(mid) + Render(close)
    ensures Slots(open + mid + close) == Slots(open) + Slots(mid) + Slots(close)
  {
    RenderAppend(open + mid, close);
    RenderAppend(open, mid);
    SlotsAppend(open + mid, close);
    SlotsAppend(open, mid);
  }

  /**
   * The statement is spelled by pieces whose placeholders are exactly
   * `$1`, ..., `$k` in the order they are written, `k` being the number of
   * values the conditions bind.
   */
  lemma PlaceholderNumbering(table: string, columns: seq<string>, ws: seq<Where>)
    ensures Render(StatementPieces(table, columns, ws)) == SelectStatement(table, columns, ws)
    ensures Slots(StatementPieces(table, columns, ws)) == Range(1, |WheresValues(ws)|)
  {
    WithWhereSpelled(SelectHead(table, columns), PieceLists(ws));
    WheresSlots(ws);
  }

  lemma {:induction false} WheresValuesPrefix(ws: seq<Where>, n: nat)
    requires n <= |ws|
    ensures WheresValues(ws[..n]) <= WheresValues(ws)
    decreases |ws|
  {
    if n < |ws| {
      var m := |ws| - 1;
      assert ws[..m][..n] == ws[..n];
      WheresValuesPrefix(ws[..m], n);
    } else {
      assert ws[..n] == ws;
    }
  }

  /**
   * The values of condition `i` sit right after those of the conditions
   * before it, in their own order: the parameter bound to the placeholder
   * `$(Bound(ws, i) + j + 1)` is the condition's `j`-th value.
   */
  lemma ConditionBinding(ws: seq<Where>, i: nat, j: nat)
    requires i < |ws| && j < |OperationValues(ws[i].operation)|
    ensures Bound(ws, i) + j < |WheresValues(ws)|
    ensures WheresValues(ws)[Bound(ws, i) + j] == OperationValues(ws[i].operation)[j]
  {
    WheresValuesThrough(ws, i);
    WheresValuesPrefix(ws, i + 1);
    IndexAfter(WheresValues(ws[..i]), OperationValues(ws[i].operation), WheresValues(ws), j);
  }

  /** The values up to and including condition `i`: those before it, then its own. */
  lemma WheresValuesThrough(ws: seq<Where>, i: nat)
    requires i < |ws|
    ensures WheresValues(ws[..i + 1]) == WheresValues(ws[..i]) + OperationValues(ws[i].operation)
  {
    var upto := ws[..i + 1];
    assert upto[..|upto| - 1] == ws[..i] && upto[|upto| - 1] == ws[i];
  }

  /** In a sequence that starts with `pre + own`, the `j`-th element of `own` sits `|pre|` places further on. */
  lemma IndexAfter<T>(pre: seq<T>, own: seq<T>, whole: seq<T>, j: nat)
    requires pre + own <= whole && j < |own|
    ensures |pre| + j < |whole| && whole[|pre| + j] == own[j]
  {
    assert (pre + own)[|pre| + j] == own[j];
  }

  /** `add_where`: the first condition is stored without its connector, later ones as given. */
  function Stored(before: seq<Where>, condition: Where): (w: Where)
    ensures w.operation == condition.operation
    ensures before == [] ==> w.Nop?
    ensures before != [] ==> w == condition
  {
    if before == [] then condition.IntoNop() else condition
  }

  class SelectQueryBuilder {
    var table: string
    var columns: seq<string>
    var wheres: seq<Where>

    /** The first condition never carries a connector. */
    predicate Valid()
      reads this
    {
      wheres != [] ==> wheres[0].Nop?
    }

    /** `SelectQueryBuilder::new`: the table and the columns in order, no conditions. */
    constructor (table: string, columns: seq<string>)
      ensures this.table == table && this.columns == columns && wheres == []
      ensures Valid()
    {
      this.table := table;
      this.columns := columns;
      wheres := [];
    }

    /** `add_where`: one condition more, at the end. */
    method AddWhere(condition: Where)
      modifies this
      ensures wheres == old(wheres) + [Stored(old(wheres), condition)]
      ensures table == old(table) && columns == old(columns)
      ensures old(Valid()) ==> Valid()
    {
      wheres := wheres + [Stored(wheres, condition)];
    }

    /**
     * The `where_*` adders: each adds exactly one And condition holding
     * its operation.
     */
    method AndWhere(op: Operation)
      modifies this
      ensures wheres == old(wheres) + [Stored(old(wheres), And(op))]
      ensures table == old(table) && columns == old(columns)
      ensures old(Valid()) ==> Valid()
    {
      AddWhere(And(op));
    }

    /**
     * The `or_where_*` adders: each adds exactly one Or condition holding
     * its operation.
     */
    method OrWhere(op: Operation)
      modifies this
      ensures wheres == old(wheres) + [Stored(old(wheres), Or(op))]
      ensures table == old(table) && columns == old(columns)
      ensures old(Valid()) ==> Valid()
    {
      AddWhere(Or(op));
    }

    /**
     * The assembly `to_pending_query` and `executor_parameters` share: a
     * fresh parameter list, the head, and the conditions rendered in order.
     */
    method Assemble() returns (statement: string, values: seq<Value>)
      ensures statement == SelectStatement(table, columns, wheres)
      ensures values == WheresValues(wheres)
    {
      var parameters := new Parameters();
      statement := "SELECT " + Join(columns, ", ") + " FROM " + table;
      if wheres != [] {
        var parts: seq<string> := [];
        for i := 0 to |wheres|
          invariant parameters.values == WheresValues(wheres[..i])
          invariant parts == Renders(PieceLists(wheres[..i]))
        {
          var s := WhereSql(wheres[i], parameters);
          assert wheres[..i + 1][..i] == wheres[..i];
          RendersSnoc(PieceLists(wheres[..i]), WherePieces(wheres[i], |WheresValues(wheres[..i])|));
          parts := parts + [s];
        }
        assert wheres[..|wheres|] == wheres;
        statement := statement + " WHERE (" + Join(parts, " ") + ")";
      } else {
        assert WheresValues(wheres[..0]) == [];
      }
      values := parameters.IntoVec();
    }

    /** `to_pending_query`: the statement with exactly the bound values as its parameters. */
    method ToPendingQuery() returns (q: PendingQuery)
      ensures q.statement == SelectStatement(table, columns, wheres)
      ensures q.parameters == WheresValues(wheres)
    {
      var statement, values := Assemble();
      q := NewQuery(statement).ParametersFrom(values);
    }

    /** `executor_parameters`: the same statement and values as `to_pending_query`. */
    method ExecutorParameters() returns (r: (string, seq<Value>))
      ensures r.0 == SelectStatement(table, columns, wheres)
      ensures r.1 == WheresValues(wheres)
    {
      var statement, values := Assemble();
      r := (statement, values);
    }
  }
}
