/** cfn_sync/change_set_deployer.py: create or update a stack through a
    change set. */
module ChangeSetDeployer {
  import opened Base
  import opened Dicts
  import opened Statuses
  import opened Requests
  import opened Remote
  import opened Lifecycle
  import opened SyncStack

  /** `suffix` stands for the `uuid.uuid4()` of the change-set name. */
  method Deploy(stack: Stack, templateBody: string, parameters: Dict, tags: Dict, suffix: string,
                wait: bool := true)
    returns (outcome: Outcome)
    modifies stack`id, stack.cloudformation
    ensures var run := ChangeSetDeploySpec(stack.waitDelay, old(stack.cloudformation.State()), stack.name,
                                           old(stack.id), stack.capabilities, templateBody, parameters, tags,
                                           suffix, wait);
            outcome == run.outcome && stack.cloudformation.State() == run.after && stack.id == run.id
  {
    var changeSetName := ChangeSetPrefix + suffix;
    var changeSetType := ChangeSetCreate;
    var found := stack.Exists();
    if found.Err? {
      return Fail(found.failure);
    }
    if found.value {
      changeSetType := ChangeSetUpdate;
    }
    var created := stack.cloudformation.CreateChangeSet(
      BodyRequest(stack.name, templateBody, parameters, tags, stack.capabilities), changeSetName, changeSetType);
    if created.Err? {
      return Fail(created.failure);
    }
    stack.id := Some(created.value.stackId);
    var changeSetId := created.value.changeSetId;
    var waited := stack.cloudformation.WaitChangeSetCreate(changeSetId, ChangeSetWaiterDelay);
    if waited.Fail? {
      if waited.failure == WaiterFailed(NoChangeError) {
        outcome := stack.cloudformation.DeleteChangeSet(changeSetId);
        return;
      }
      return waited;
    }
    outcome := stack.cloudformation.ExecuteChangeSet(changeSetId, changeSetName);
    if outcome.Pass? && wait {
      outcome := stack.Wait();
      if outcome.Pass? {
        var status := stack.Status();
        if status.Err? {
          outcome := Fail(status.failure);
        } else if status.value !in SuccessfulStatuses {
          outcome := Fail(OperationFailed("deploy", stack.name, status.value));
        }
      }
    }
  }
}
