/** The start-up ladder the libnickel-backed helpers share: a fixed sequence
    of symbol look-ups and null checks, stopping at the first that fails. */
module Startup {
  import opened Wrappers

  datatype InitFailure = SymbolError | NullError

  /** One rung: a symbol that must resolve, or a pointer that must not be
      null. */
  datatype Step = SymbolStep(found: bool) | NullStep(nonNull: bool)

  predicate Passes(s: Step)
  {
    match s
    case SymbolStep(found) => found
    case NullStep(nonNull) => nonNull
  }

  function FailureOf(s: Step): InitFailure
  {
    if s.SymbolStep? then SymbolError else NullError
  }

  /** The failure of the first rung that fails, or None. */
  function FirstFailure(steps: seq<Step>): (r: Option<InitFailure>)
    ensures r.None? <==> forall k :: 0 <= k < |steps| ==> Passes(steps[k])
    ensures r.Some? ==> exists k :: (0 <= k < |steps| && !Passes(steps[k]) && r.value == FailureOf(steps[k])
      && forall j :: 0 <= j < k ==> Passes(steps[j]))
  {
    if |steps| == 0 then None
    else if !Passes(steps[0]) then Some(FailureOf(steps[0]))
    else
      var r := FirstFailure(steps[1..]);
      assert forall k :: 1 <= k < |steps| ==> steps[1..][k - 1] == steps[k];
      if r.Some? then
        var k :| 0 <= k < |steps[1..]| && !Passes(steps[1..][k]) && r.value == FailureOf(steps[1..][k])
          && forall j :: 0 <= j < k ==> Passes(steps[1..][j]);
        assert !Passes(steps[k + 1]) && forall j :: 0 <= j < k + 1 ==> Passes(steps[j]);
        r
      else r
  }
}
