/**
 * The positional parameters of a statement being assembled
 * (valar/src/database/builder/parameters.rs). Values are pushed in the
 * order their placeholders are written; `add` answers with the new count,
 * which is the number the placeholder `$n` carries.
 */
module SqlParameters {

  /** A value bound to a placeholder. The database driver's value types are not modelled; a value stands for itself. */
  type Value = string

  class Parameters {
    var values: seq<Value>

    /** `Parameters::new`: no values. */
    constructor ()
      ensures values == []
    {
      values := [];
    }

    /** `add`: the value goes at the end, and its 1-based position is returned. */
    method Add(value: Value) returns (position: nat)
      modifies this
      ensures values == old(values) + [value]
      ensures position == |values| && values[position - 1] == value
    {
      values := values + [value];
      position := |values|;
    }

    /** The conversion into a vector: the values in the order they were added. */
    function IntoVec(): (r: seq<Value>)
      reads this
      ensures |r| == |values| && forall i :: 0 <= i < |r| ==> r[i] == values[i]
    {
      values
    }
  }

  /** Successive `add`s answer 1, 2, 3, ... and keep the values in order. */
  method AddAll(parameters: Parameters, vs: seq<Value>) returns (positions: seq<nat>)
    modifies parameters
    ensures parameters.values == old(parameters.values) + vs
    ensures |positions| == |vs|
    ensures forall i :: 0 <= i < |vs| ==> positions[i] == |old(parameters.values)| + i + 1
  {
    positions := [];
    for i := 0 to |vs|
      invariant parameters.values == old(parameters.values) + vs[..i]
      invariant |positions| == i
      invariant forall j :: 0 <= j < i ==> positions[j] == |old(parameters.values)| + j + 1
    {
      var p := parameters.Add(vs[i]);
      assert vs[..i + 1] == vs[..i] + [vs[i]];
      positions := positions + [p];
    }
    assert vs[..|vs|] == vs;
  }
}
