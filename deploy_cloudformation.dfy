/** cfn_deploy/cloudformation.py: the oldest stack class.  It always
    addresses the stack by name, deploys from a template URL without
    capabilities, never records an id, and sleeps at the end of each polling
    round rather than at its start. */
module DeployCloudFormation {
  import opened Base
  import opened Dicts
  import opened Statuses
  import opened Requests
  import opened Remote
  import opened Polling
  import opened Lifecycle

  class Stack {
    const cloudformation: Client
    const name: string

    constructor (cloudformation: Client, name: string)
      ensures this.cloudformation == cloudformation && this.name == name
    {
      this.cloudformation := cloudformation;
      this.name := name;
    }

    /** `__describe` */
    method Describe() returns (r: Result<Description>)
      modifies cloudformation
      ensures (r, cloudformation.State()) == old(cloudformation.State()).StepDescribeStacks(name)
    {
      r := cloudformation.DescribeStacks(name);
    }

    /** `status` */
    method Status() returns (r: Result<string>)
      modifies cloudformation
      ensures var described := old(cloudformation.State()).StepDescribeStacks(name);
              cloudformation.State() == described.1 &&
              (r.Ok? <==> described.0.Ok?) &&
              (r.Ok? ==> r.value == described.0.value.stackStatus) &&
              (r.Err? ==> r.failure == described.0.failure)
    {
      var described := Describe();
      r := if described.Ok? then Ok(described.value.stackStatus) else Err(described.failure);
    }

    /** `exists` */
    method Exists() returns (r: Result<bool>)
      modifies cloudformation
      ensures (r, cloudformation.State()) == ExistsStep(old(cloudformation.State()), name)
    {
      var described := Describe();
      r := ExistsFrom(described);
    }

    /** `deploy`: the direct deploy with a template URL; the failure after the
        wait names the action as "create" or "update". */
    method Deploy(templateUrl: string, parameters: Dict, tags: Dict, wait: bool := true)
      returns (outcome: Outcome)
      modifies cloudformation
      ensures var run := DirectDeploySpec(OldestProfile, old(cloudformation.State()), name, None,
                                          UrlRequest(name, templateUrl, parameters, tags), wait);
              outcome == run.outcome && cloudformation.State() == run.after
    {
      var reply: Result<string>;
      var action: string;
      var found := Exists();
      if found.Err? {
        reply := Err(found.failure);
      } else {
        var request := UrlRequest(name, templateUrl, parameters, tags);
        if found.value {
          reply := cloudformation.UpdateStack(request);
          action := "update";
        } else {
          reply := cloudformation.CreateStack(request);
          action := "create";
        }
      }
      if reply.Err? {
        if reply.failure == ClientError(NoUpdatesMessage) {
          return Pass;
        }
        return Fail(reply.failure);
      }
      outcome := Pass;
      if wait {
        outcome := Wait();
        if outcome.Pass? {
          var status := Status();
          if status.Err? {
            outcome := Fail(status.failure);
          } else if status.value !in OldestSuccessfulStatuses {
            outcome := Fail(OperationFailed(action, name, status.value));
          }
        }
      }
    }

    /** `wait`: fetches events and status, then sleeps five seconds, in each
        round. */
    method Wait() returns (outcome: Outcome)
      modifies cloudformation
      ensures var run := WaitSpec(old(cloudformation.State()), name, OldestSleep, false,
                                  set s | s in OldestInProgressStatuses);
              outcome == run.outcome && cloudformation.State() == run.after
    {
      outcome := RunWait(cloudformation, name, OldestSleep, false, set s | s in OldestInProgressStatuses);
    }

    /** `events` */
    method Events() returns (r: Result<seq<StackEvent>>)
      modifies cloudformation
      ensures (r, cloudformation.State()) == old(cloudformation.State()).StepDescribeStackEvents(name)
    {
      r := cloudformation.DescribeStackEvents(name);
    }
  }
}
