/** Skip markers for optional integrations: a condition under which a test is
    skipped, and the reason reported when it is. */
module SkipConditions {

  datatype SkipCondition = SkipCondition(condition: bool, reason: string)

  /** `no_multiple`: skip when any of the given conditions fires, reporting the
      reason of the first one that does; no reason when none fires. */
  method NoMultiple(args: seq<SkipCondition>) returns (r: SkipCondition)
    ensures r.condition <==> exists i :: 0 <= i < |args| && args[i].condition
    ensures r.condition ==>
      exists i :: 0 <= i < |args| && args[i].condition && r.reason == args[i].reason
        && forall j :: 0 <= j < i ==> !args[j].condition
    ensures !r.condition ==> r.reason == ""
  {
    var condition := false;
    var reason := "";
    for i := 0 to |args|
      invariant !condition && reason == ""
      invariant forall j :: 0 <= j < i ==> !args[j].condition
    {
      condition := condition || args[i].condition;
      if args[i].condition {
        reason := args[i].reason;
        break;
      }
    }
    r := SkipCondition(condition, reason);
  }
}
