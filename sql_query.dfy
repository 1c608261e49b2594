/**
 * A statement waiting to be executed, with its positional parameters
 * (valar/src/database/query.rs). Every builder method takes the query by
 * value and returns it changed, so each is a function from the old query
 * to the new one.
 */
module PendingQueries {
  import opened SqlParameters

  datatype PendingQuery = PendingQuery(statement: string, parameters: seq<Value>)
  {
    /** `parameters_from`: the whole list is replaced by the converted parameters. */
    function ParametersFrom(values: seq<Value>): (r: PendingQuery)
      ensures r.statement == statement && r.parameters == values
    {
      this.(parameters := values)
    }

    /** `parameters`: the whole list is replaced by the given fixed-size array, in its order. */
    function Parameters(values: seq<Value>): (r: PendingQuery)
      ensures r.statement == statement
      ensures |r.parameters| == |values| && forall i :: 0 <= i < |values| ==> r.parameters[i] == values[i]
    {
      this.(parameters := values)
    }

    /** `with`: exactly one parameter more, at the end; the earlier ones keep their positions. */
    function With(value: Value): (r: PendingQuery)
      ensures r.statement == statement
      ensures |r.parameters| == |parameters| + 1
      ensures r.parameters[..|parameters|] == parameters && r.parameters[|parameters|] == value
    {
      this.(parameters := parameters + [value])
    }

    /** `to_string`: the statement, unchanged. */
    function ToString(): (r: string)
      ensures r == statement
    {
      statement
    }

    /** `executor_parameters`: the statement and the parameters, unchanged. */
    function ExecutorParameters(): (r: (string, seq<Value>))
      ensures r.0 == statement && r.1 == parameters
    {
      (statement, parameters)
    }
  }

  /** `PendingQuery::new` (and `Database::query`): the statement, no parameters. */
  function NewQuery(statement: string): (q: PendingQuery)
    ensures q.statement == statement && q.parameters == []
  {
    PendingQuery(statement, [])
  }

  /** `with` applied to each value in turn. */
  function WithAll(q: PendingQuery, values: seq<Value>): PendingQuery
    decreases |values|
  {
    if values == [] then q else WithAll(q.With(values[0]), values[1..])
  }

  /**
   * Chaining `with` binds the values at the following positions in order:
   * the same query as replacing the list by the old one extended.
   */
  lemma {:induction false} WithAllAppends(q: PendingQuery, values: seq<Value>)
    ensures WithAll(q, values) == q.ParametersFrom(q.parameters + values)
    decreases |values|
  {
    if values == [] {
      assert q.parameters + values == q.parameters;
    } else {
      var next := q.With(values[0]);
      WithAllAppends(next, values[1..]);
      assert next.parameters + values[1..] == q.parameters + values;
    }
  }

  /** A new query given its parameters by `with`, one by one, executes with exactly those parameters. */
  lemma NewWithAll(statement: string, values: seq<Value>)
    ensures WithAll(NewQuery(statement), values).ExecutorParameters() == (statement, values)
  {
    WithAllAppends(NewQuery(statement), values);
    assert NewQuery(statement).parameters + values == values;
  }
}
