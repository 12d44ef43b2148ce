/** The CloudFormation client the tool talks to, as a finite script of replies.
    Every call is recorded in a trace together with the StackName (or change-set
    name) it used; a call for which the script holds no reply fails with
    `Unscripted`, the way a stubbed client raises for a response nobody queued.
    The same trace also records the pauses of `time.sleep`, so the order of
    calls and pauses is one observable sequence.  The events handed to
    `log_event` go to a separate list, in the order they were logged; where
    they fall among the calls is not recorded. */
module Remote {
  import opened Base
  import opened Requests

  /** One entry of `describe_stack_events(...)["StackEvents"]` (timestamps left out). */
  datatype StackEvent = StackEvent(
    eventId: string,
    logicalResourceId: string,
    resourceStatus: string,
    resourceStatusReason: Option<string>)

  /** `describe_stacks(...)["Stacks"][0]`: the fields the tool reads. */
  datatype Description = Description(
    stackId: string,
    stackStatus: string,
    parameters: Option<seq<Parameter>>,
    tags: Option<seq<Tag>>)

  /** The response of `create_change_set`: the stack's id and the change set's id. */
  datatype ChangeSetReceipt = ChangeSetReceipt(stackId: string, changeSetId: string)

  /** What was asked of the remote side, in order. */
  datatype Call =
    | DescribeStacks(stackName: string)
    | DescribeStackEvents(stackName: string)
    | CreateStack(request: StackRequest)
    | UpdateStack(request: StackRequest)
    | DeleteStack(stackName: string)
    | CreateChangeSet(request: StackRequest, changeSetName: string, changeSetType: string)
    | WaitChangeSetCreate(changeSetName: string, delay: int)
    | ExecuteChangeSet(changeSetName: string, clientRequestToken: string)
    | DeleteChangeSet(changeSetName: string)
    | Sleep(seconds: int)

  /** The value of the scripted client: the replies still queued for each kind
      of call, the calls made so far and the events logged so far.  `acks` is
      shared by the calls whose reply the tool does not read (delete_stack,
      execute_change_set, delete_change_set). */
  datatype Remote = Remote(
    describes: seq<Result<Description>>,
    eventPages: seq<Result<seq<StackEvent>>>,
    stackReplies: seq<Result<string>>,
    changeSetReplies: seq<Result<ChangeSetReceipt>>,
    waiterOutcomes: seq<Outcome>,
    acks: seq<Outcome>,
    trace: seq<Call>,
    logged: seq<StackEvent>)
  {
    function Record(c: Call): Remote
    {
      this.(trace := trace + [c])
    }

    function StepDescribeStacks(stackName: string): (Result<Description>, Remote)
    {
      var s := Record(DescribeStacks(stackName));
      if describes == [] then (Err(Unscripted("DescribeStacks")), s)
      else (describes[0], s.(describes := describes[1..]))
    }

    function StepDescribeStackEvents(stackName: string): (Result<seq<StackEvent>>, Remote)
    {
      var s := Record(DescribeStackEvents(stackName));
      if eventPages == [] then (Err(Unscripted("DescribeStackEvents")), s)
      else (eventPages[0], s.(eventPages := eventPages[1..]))
    }

    /** create_stack or update_stack; the reply is the new StackId. */
    function StepStackCall(c: Call): (Result<string>, Remote)
      requires c.CreateStack? || c.UpdateStack?
    {
      var s := Record(c);
      if stackReplies == [] then (Err(Unscripted(if c.CreateStack? then "CreateStack" else "UpdateStack")), s)
      else (stackReplies[0], s.(stackReplies := stackReplies[1..]))
    }

    function StepCreateChangeSet(request: StackRequest, changeSetName: string, changeSetType: string)
      : (Result<ChangeSetReceipt>, Remote)
    {
      var s := Record(CreateChangeSet(request, changeSetName, changeSetType));
      if changeSetReplies == [] then (Err(Unscripted("CreateChangeSet")), s)
      else (changeSetReplies[0], s.(changeSetReplies := changeSetReplies[1..]))
    }

    /** The `change_set_create_complete` waiter, reduced to its outcome. */
    function StepWaitChangeSet(changeSetName: string, delay: int): (Outcome, Remote)
    {
      var s := Record(WaitChangeSetCreate(changeSetName, delay));
      if waiterOutcomes == [] then (Fail(Unscripted("ChangeSetCreateComplete")), s)
      else (waiterOutcomes[0], s.(waiterOutcomes := waiterOutcomes[1..]))
    }

    /** delete_stack, execute_change_set or delete_change_set. */
    function StepAcknowledged(c: Call): (Outcome, Remote)
      requires c.DeleteStack? || c.ExecuteChangeSet? || c.DeleteChangeSet?
    {
      var s := Record(c);
      if acks == [] then (Fail(Unscripted(if c.DeleteStack? then "DeleteStack"
                                          else if c.ExecuteChangeSet? then "ExecuteChangeSet"
                                          else "DeleteChangeSet")), s)
      else (acks[0], s.(acks := acks[1..]))
    }

    function StepSleep(seconds: int): Remote
    {
      Record(Sleep(seconds))
    }

    function StepLog(events: seq<StackEvent>): Remote
    {
      this.(logged := logged + events)
    }
  }

  /** The scripted client as an object whose queues and trace the calls update. */
  class Client {
    var describes: seq<Result<Description>>
    var eventPages: seq<Result<seq<StackEvent>>>
    var stackReplies: seq<Result<string>>
    var changeSetReplies: seq<Result<ChangeSetReceipt>>
    var waiterOutcomes: seq<Outcome>
    var acks: seq<Outcome>
    var trace: seq<Call>
    var logged: seq<StackEvent>

    function State(): Remote
      reads this
    {
      Remote(describes, eventPages, stackReplies, changeSetReplies, waiterOutcomes, acks, trace, logged)
    }

    method Set(s: Remote)
      modifies this
      ensures State() == s
    {
      describes, eventPages, stackReplies := s.describes, s.eventPages, s.stackReplies;
      changeSetReplies, waiterOutcomes, acks := s.changeSetReplies, s.waiterOutcomes, s.acks;
      trace, logged := s.trace, s.logged;
    }

    constructor (script: Remote)
      ensures State() == script
    {
      describes, eventPages, stackReplies := script.describes, script.eventPages, script.stackReplies;
      changeSetReplies, waiterOutcomes, acks := script.changeSetReplies, script.waiterOutcomes, script.acks;
      trace, logged := script.trace, script.logged;
    }

    method DescribeStacks(stackName: string) returns (r: Result<Description>)
      modifies this
      ensures (r, State()) == old(State()).StepDescribeStacks(stackName)
    {
      var step := State().StepDescribeStacks(stackName);
      r := step.0;
      Set(step.1);
    }

    method DescribeStackEvents(stackName: string) returns (r: Result<seq<StackEvent>>)
      modifies this
      ensures (r, State()) == old(State()).StepDescribeStackEvents(stackName)
    {
      var step := State().StepDescribeStackEvents(stackName);
      r := step.0;
      Set(step.1);
    }

    method CreateStack(request: StackRequest) returns (r: Result<string>)
      modifies this
      ensures (r, State()) == old(State()).StepStackCall(Call.CreateStack(request))
    {
      var step := State().StepStackCall(Call.CreateStack(request));
      r := step.0;
      Set(step.1);
    }

    method UpdateStack(request: StackRequest) returns (r: Result<string>)
      modifies this
      ensures (r, State()) == old(State()).StepStackCall(Call.UpdateStack(request))
    {
      var step := State().StepStackCall(Call.UpdateStack(request));
      r := step.0;
      Set(step.1);
    }

    method DeleteStack(stackName: string) returns (r: Outcome)
      modifies this
      ensures (r, State()) == old(State()).StepAcknowledged(Call.DeleteStack(stackName))
    {
      var step := State().StepAcknowledged(Call.DeleteStack(stackName));
      r := step.0;
      Set(step.1);
    }

    method CreateChangeSet(request: StackRequest, changeSetName: string, changeSetType: string)
      returns (r: Result<ChangeSetReceipt>)
      modifies this
      ensures (r, State()) == old(State()).StepCreateChangeSet(request, changeSetName, changeSetType)
    {
      var step := State().StepCreateChangeSet(request, changeSetName, changeSetType);
      r := step.0;
      Set(step.1);
    }

    method WaitChangeSetCreate(changeSetName: string, delay: int) returns (r: Outcome)
      modifies this
      ensures (r, State()) == old(State()).StepWaitChangeSet(changeSetName, delay)
    {
      var step := State().StepWaitChangeSet(changeSetName, delay);
      r := step.0;
      Set(step.1);
    }

    method ExecuteChangeSet(changeSetName: string, clientRequestToken: string) returns (r: Outcome)
      modifies this
      ensures (r, State()) == old(State()).StepAcknowledged(Call.ExecuteChangeSet(changeSetName, clientRequestToken))
    {
      var step := State().StepAcknowledged(Call.ExecuteChangeSet(changeSetName, clientRequestToken));
      r := step.0;
      Set(step.1);
    }

    method DeleteChangeSet(changeSetName: string) returns (r: Outcome)
      modifies this
      ensures (r, State()) == old(State()).StepAcknowledged(Call.DeleteChangeSet(changeSetName))
    {
      var step := State().StepAcknowledged(Call.DeleteChangeSet(changeSetName));
      r := step.0;
      Set(step.1);
    }

    /** `time.sleep(seconds)` */
    method Sleep(seconds: int)
      modifies this
      ensures State() == old(State()).StepSleep(seconds)
    {
      trace := trace + [Call.Sleep(seconds)];
    }

    /** `log_event(...)` for one event. */
    method LogEvent(event: StackEvent)
      modifies this
      ensures State() == old(State()).StepLog([event])
    {
      logged := logged + [event];
    }
  }
}
