/** cfn_sync/stack.py: a stack known by its name and, once recorded, its id,
    with the capabilities to deploy it with and the pause between polls. */
module SyncStack {
  import opened Base
  import opened Dicts
  import opened Statuses
  import opened Requests
  import opened Remote
  import opened Polling
  import Lifecycle

  class Stack {
    const cloudformation: Client
    const name: string
    var id: Option<string>
    var capabilities: Option<seq<string>>
    /** `wait_delay`: a plain attribute that callers may reassign. */
    var waitDelay: int

    /** A new stack has no id and no capabilities yet. */
    constructor (cloudformation: Client, name: string, waitDelay: int := DefaultWaitDelay)
      ensures this.cloudformation == cloudformation && this.name == name && this.waitDelay == waitDelay
      ensures id == None && capabilities == None
    {
      this.cloudformation := cloudformation;
      this.name := name;
      this.waitDelay := waitDelay;
      id := None;
      capabilities := None;
    }

    /** `identifier`: the id when one is recorded and non-empty, else the name. */
    function Identifier(): (r: string)
      reads this
      ensures id.Some? && id.value != "" ==> r == id.value
      ensures id.None? || id.value == "" ==> r == name
    {
      Lifecycle.Identifier(Lifecycle.IdOrName, name, id)
    }

    /** `describe`: describe_stacks by the identifier. */
    method Describe() returns (r: Result<Description>)
      modifies cloudformation
      ensures (r, cloudformation.State()) == old(cloudformation.State()).StepDescribeStacks(Identifier())
    {
      r := cloudformation.DescribeStacks(Identifier());
    }

    /** `status`: the StackStatus of a describe; its failure is raised. */
    method Status() returns (r: Result<string>)
      modifies cloudformation
      ensures var described := old(cloudformation.State()).StepDescribeStacks(Identifier());
              cloudformation.State() == described.1 &&
              (r.Ok? <==> described.0.Ok?) &&
              (r.Ok? ==> r.value == described.0.value.stackStatus) &&
              (r.Err? ==> r.failure == described.0.failure)
    {
      var described := Describe();
      r := if described.Ok? then Ok(described.value.stackStatus) else Err(described.failure);
    }

    /** `parameters`: the described Parameters list as a map, {} when absent. */
    method Parameters() returns (r: Result<Dict>)
      modifies cloudformation
      ensures var described := old(cloudformation.State()).StepDescribeStacks(Identifier());
              cloudformation.State() == described.1 &&
              (r.Ok? <==> described.0.Ok?) &&
              (r.Ok? ==> r.value == ParametersFromRows(described.0.value.parameters)) &&
              (r.Err? ==> r.failure == described.0.failure)
    {
      var described := Describe();
      r := if described.Ok? then Ok(ParametersFromRows(described.value.parameters)) else Err(described.failure);
    }

    /** `tags`: the described Tags list as a map, {} when absent. */
    method Tags() returns (r: Result<Dict>)
      modifies cloudformation
      ensures var described := old(cloudformation.State()).StepDescribeStacks(Identifier());
              cloudformation.State() == described.1 &&
              (r.Ok? <==> described.0.Ok?) &&
              (r.Ok? ==> r.value == TagsFromRows(described.0.value.tags)) &&
              (r.Err? ==> r.failure == described.0.failure)
    {
      var described := Describe();
      r := if described.Ok? then Ok(TagsFromRows(described.value.tags)) else Err(described.failure);
    }

    /** `exists` */
    method Exists() returns (r: Result<bool>)
      modifies cloudformation
      ensures (r, cloudformation.State()) == Lifecycle.ExistsStep(old(cloudformation.State()), Identifier())
    {
      var described := Describe();
      r := Lifecycle.ExistsFrom(described);
    }

    method SetCapabilities(capabilities: seq<string>)
      modifies this`capabilities
      ensures this.capabilities == Some(capabilities)
    {
      this.capabilities := Some(capabilities);
    }

    /** `wait`, pausing `wait_delay` seconds before each round. */
    method Wait() returns (outcome: Outcome)
      modifies cloudformation
      ensures var run := WaitSpec(old(cloudformation.State()), Identifier(), waitDelay, true, InProgressStatuses);
              outcome == run.outcome && cloudformation.State() == run.after
    {
      outcome := RunWait(cloudformation, Identifier(), waitDelay, true, InProgressStatuses);
    }

    /** `events`: the first page of describe_stack_events by the identifier. */
    method Events() returns (r: Result<seq<StackEvent>>)
      modifies cloudformation
      ensures (r, cloudformation.State()) == old(cloudformation.State()).StepDescribeStackEvents(Identifier())
    {
      r := cloudformation.DescribeStackEvents(Identifier());
    }
  }
}
