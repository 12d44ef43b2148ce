/** cfn_sync/direct_deployer.py: create or update a stack in one call. */
module DirectDeployer {
  import opened Base
  import opened Dicts
  import opened Statuses
  import opened Requests
  import opened Remote
  import opened Lifecycle
  import opened SyncStack

  method Deploy(stack: Stack, templateBody: string, parameters: Dict, tags: Dict, wait: bool := true)
    returns (outcome: Outcome)
    modifies stack`id, stack.cloudformation
    ensures var run := DirectDeploySpec(SyncProfile(stack.waitDelay), old(stack.cloudformation.State()),
                                        stack.name, old(stack.id),
                                        BodyRequest(stack.name, templateBody, parameters, tags, stack.capabilities),
                                        wait);
            outcome == run.outcome && stack.cloudformation.State() == run.after && stack.id == run.id
  {
    var reply: Result<string>;
    var found := stack.Exists();
    if found.Err? {
      reply := Err(found.failure);
    } else {
      var request := BodyRequest(stack.name, templateBody, parameters, tags, stack.capabilities);
      if found.value {
        reply := stack.cloudformation.UpdateStack(request);
      } else {
        reply := stack.cloudformation.CreateStack(request);
      }
      if reply.Ok? {
        stack.id := Some(reply.value);
      }
    }
    if reply.Err? {
      if reply.failure == ClientError(NoUpdatesMessage) {
        return Pass;
      }
      return Fail(reply.failure);
    }
    outcome := Pass;
    if wait {
      outcome := stack.Wait();
      if outcome.Pass? {
        var status := stack.Status();
        if status.Err? {
          outcome := Fail(status.failure);
        } else if status.value !in SuccessfulStatuses {
          outcome := Fail(OperationFailed("deploy", stack.name, status.value));
        }
      }
    }
  }
}
