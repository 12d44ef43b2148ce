/** cfn_sync/deleter.py */
module Deleter {
  import opened Base
  import opened Statuses
  import opened Remote
  import opened Lifecycle
  import opened SyncStack

  method Delete(stack: Stack, wait: bool := true) returns (outcome: Outcome)
    modifies stack`id, stack.cloudformation
    ensures var run := DeleteSpec(SyncProfile(stack.waitDelay), old(stack.cloudformation.State()), stack.name,
                                  old(stack.id), wait);
            outcome == run.outcome && stack.cloudformation.State() == run.after && stack.id == run.id
  {
    var described := stack.Describe();
    if described.Err? {
      return Fail(described.failure);
    }
    stack.id := Some(described.value.stackId);
    outcome := stack.cloudformation.DeleteStack(stack.name);
    if outcome.Pass? && wait {
      outcome := stack.Wait();
      if outcome.Pass? {
        var status := stack.Status();
        if status.Err? {
          outcome := Fail(status.failure);
        } else if status.value !in SuccessfulStatuses {
          outcome := Fail(OperationFailed("delete", stack.name, status.value));
        }
      }
    }
  }
}
