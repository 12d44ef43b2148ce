/** cfn_sync/cloudformation.py: the earlier, self-contained stack class.  Its
    `id` attribute is only ever assigned, never initialised, so until a deploy
    or delete assigns it every call addresses the stack by name. */
module SyncCloudFormation {
  import opened Base
  import opened Dicts
  import opened Statuses
  import opened Requests
  import opened Remote
  import opened Polling
  import opened Lifecycle

  class Stack {
    const cloudformation: Client
    const name: string
    /** None while the attribute is unset. */
    var id: Option<string>
    var capabilities: Option<seq<string>>

    constructor (cloudformation: Client, name: string)
      ensures this.cloudformation == cloudformation && this.name == name
      ensures id == None && capabilities == None
    {
      this.cloudformation := cloudformation;
      this.name := name;
      id := None;
      capabilities := None;
    }

    /** `getattr(self, "id", self.name)`: an assigned id, even an empty one,
        wins over the name. */
    function DescribedName(): (r: string)
      reads this
      ensures id.Some? ==> r == id.value
      ensures id.None? ==> r == name
    {
      Identifier(AssignedId, name, id)
    }

    /** `__describe` */
    method Describe() returns (r: Result<Description>)
      modifies cloudformation
      ensures (r, cloudformation.State()) == old(cloudformation.State()).StepDescribeStacks(DescribedName())
    {
      r := cloudformation.DescribeStacks(DescribedName());
    }

    /** `status` */
    method Status() returns (r: Result<string>)
      modifies cloudformation
      ensures var described := old(cloudformation.State()).StepDescribeStacks(DescribedName());
              cloudformation.State() == described.1 &&
              (r.Ok? <==> described.0.Ok?) &&
              (r.Ok? ==> r.value == described.0.value.stackStatus) &&
              (r.Err? ==> r.failure == described.0.failure)
    {
      var described := Describe();
      r := if described.Ok? then Ok(described.value.stackStatus) else Err(described.failure);
    }

    /** `exists` */
    method Exists() returns (r: Result<bool>)
      modifies cloudformation
      ensures (r, cloudformation.State()) == ExistsStep(old(cloudformation.State()), DescribedName())
    {
      var described := Describe();
      r := ExistsFrom(described);
    }

    method SetCapabilities(capabilities: seq<string>)
      modifies this`capabilities
      ensures this.capabilities == Some(capabilities)
    {
      this.capabilities := Some(capabilities);
    }

    /** `deploy`: the direct deploy with a template body, recording the
        StackId. */
    method Deploy(templateBody: string, parameters: Dict, tags: Dict, wait: bool := true)
      returns (outcome: Outcome)
      modifies this`id, cloudformation
      ensures var run := DirectDeploySpec(LegacyProfile, old(cloudformation.State()), name, old(id),
                                          BodyRequest(name, templateBody, parameters, tags, capabilities), wait);
              outcome == run.outcome && cloudformation.State() == run.after && id == run.id
    {
      var reply: Result<string>;
      var found := Exists();
      if found.Err? {
        reply := Err(found.failure);
      } else {
        var request := BodyRequest(name, templateBody, parameters, tags, capabilities);
        if found.value {
          reply := cloudformation.UpdateStack(request);
        } else {
          reply := cloudformation.CreateStack(request);
        }
        if reply.Ok? {
          id := Some(reply.value);
        }
      }
      if reply.Err? {
        if reply.failure == ClientError(NoUpdatesMessage) {
          return Pass;
        }
        return Fail(reply.failure);
      }
      outcome := Pass;
      if wait {
        outcome := Wait();
        if outcome.Pass? {
          var status := Status();
          if status.Err? {
            outcome := Fail(status.failure);
          } else if status.value !in LegacySuccessfulStatuses {
            outcome := Fail(OperationFailed("deploy", name, status.value));
          }
        }
      }
    }

    /** `delete`: record the StackId, delete by name, settle when asked to. */
    method Delete(wait: bool := true) returns (outcome: Outcome)
      modifies this`id, cloudformation
      ensures var run := DeleteSpec(LegacyProfile, old(cloudformation.State()), name, old(id), wait);
              outcome == run.outcome && cloudformation.State() == run.after && id == run.id
    {
      var described := Describe();
      if described.Err? {
        return Fail(described.failure);
      }
      id := Some(described.value.stackId);
      outcome := cloudformation.DeleteStack(name);
      if outcome.Pass? && wait {
        outcome := Wait();
        if outcome.Pass? {
          var status := Status();
          if status.Err? {
            outcome := Fail(status.failure);
          } else if status.value !in LegacySuccessfulStatuses {
            outcome := Fail(OperationFailed("delete", name, status.value));
          }
        }
      }
    }

    /** `wait`: sleeps five seconds at the top of each round. */
    method Wait() returns (outcome: Outcome)
      modifies cloudformation
      ensures var run := WaitSpec(old(cloudformation.State()), DescribedName(), LegacySleep, true,
                                  LegacyInProgressStatuses);
              outcome == run.outcome && cloudformation.State() == run.after
    {
      outcome := RunWait(cloudformation, DescribedName(), LegacySleep, true, LegacyInProgressStatuses);
    }

    /** `events` */
    method Events() returns (r: Result<seq<StackEvent>>)
      modifies cloudformation
      ensures (r, cloudformation.State()) == old(cloudformation.State()).StepDescribeStackEvents(DescribedName())
    {
      r := cloudformation.DescribeStackEvents(DescribedName());
    }
  }
}
