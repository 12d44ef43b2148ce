/** What the tool does to a stack, as functions of the scripted client: check
    that it exists, deploy it directly or through a change set, delete it, and
    settle (wait, then judge the final status).  The three generations of the
    tool run the same steps; a `Profile` holds what differs between them. */
module Lifecycle {
  import opened Base
  import opened Dicts
  import opened Statuses
  import opened Requests
  import opened Remote
  import opened Polling

  /** How a stack is named in describe and event calls: `id or name`
      (cfn_sync/stack.py), `getattr(self, "id", name)` with a missing attribute
      as None (cfn_sync/cloudformation.py), or always by name (cfn_deploy). */
  datatype Addressing = IdOrName | AssignedId | NameOnly

  datatype Profile = Profile(
    addressing: Addressing,
    delay: int,
    sleepFirst: bool,
    inProgress: set<string>,
    successful: set<string>,
    recordsId: bool,
    createVerb: string,
    updateVerb: string)

  /** cfn_sync/stack.py with its deployer and deleter modules. */
  function SyncProfile(delay: int): Profile
  {
    Profile(IdOrName, delay, true, InProgressStatuses, SuccessfulStatuses, true, "deploy", "deploy")
  }

  /** cfn_sync/cloudformation.py sleeps a fixed five seconds per polling round. */
  const LegacySleep: int := 5

  /** cfn_deploy/cloudformation.py sleeps a fixed five seconds per polling round. */
  const OldestSleep: int := 5

  /** cfn_sync/cloudformation.py */
  const LegacyProfile: Profile :=
    Profile(AssignedId, LegacySleep, true, LegacyInProgressStatuses, LegacySuccessfulStatuses, true, "deploy", "deploy")

  /** cfn_deploy/cloudformation.py */
  const OldestProfile: Profile :=
    Profile(NameOnly, OldestSleep, false, set s | s in OldestInProgressStatuses, set s | s in OldestSuccessfulStatuses,
            false, "create", "update")

  /** What tells the generations apart: DELETE_COMPLETE is missing from
      cfn_deploy's successful list; an assigned but empty id addresses
      the stack in cfn_sync/cloudformation.py and falls back to the name in
      cfn_sync/stack.py; and cfn_deploy's deploy leaves the id as it was. */
  lemma GenerationsDiffer(delay: int, s: Remote, name: string, id: Option<string>, request: StackRequest,
                          wait: bool)
    ensures "DELETE_COMPLETE" in SyncProfile(delay).successful && "DELETE_COMPLETE" in LegacyProfile.successful
    ensures "DELETE_COMPLETE" !in OldestProfile.successful
    ensures SyncProfile(delay).inProgress == LegacyProfile.inProgress == OldestProfile.inProgress
    ensures Identifier(IdOrName, name, Some("")) == name && Identifier(AssignedId, name, Some("")) == ""
    ensures Identifier(NameOnly, name, id) == name
    ensures DirectDeploySpec(OldestProfile, s, name, id, request, wait).id == id
  {
    LegacyStatusesAgree();
    OldestInProgressAgrees();
    OldestSuccessfulDiffers();
  }

  const NoUpdatesMessage: string := "No updates are to be performed."
  const DoesNotExist: string := "does not exist"
  const NoChangeError: string :=
    "The submitted information didn't contain changes. Submit different information to create a change set."
  const ChangeSetCreate: string := "CREATE"
  const ChangeSetUpdate: string := "UPDATE"
  const ChangeSetPrefix: string := "cfn-sync-"
  const ChangeSetWaiterDelay: int := 10

  function Identifier(addressing: Addressing, name: string, id: Option<string>): string
  {
    match addressing
    case IdOrName => if id.Some? && id.value != "" then id.value else name
    case AssignedId => if id.Some? then id.value else name
    case NameOnly => name
  }

  /** `exists`, from the reply of the describe call: true on success, false on
      a client error whose text says the stack does not exist, and any other
      failure raised again unchanged. */
  function ExistsFrom(described: Result<Description>): (r: Result<bool>)
    ensures r == Ok(true) <==> described.Ok?
    ensures r == Ok(false) <==>
              described.Err? && described.failure.ClientError? &&
              Contains(described.failure.message, DoesNotExist)
    ensures r.Err? ==> described.Err? && r.failure == described.failure
  {
    match described
    case Ok(_) => Ok(true)
    case Err(failure) =>
      if failure.ClientError? && Contains(failure.message, DoesNotExist) then Ok(false)
      else Err(failure)
  }

  function ExistsStep(s: Remote, ident: string): (Result<bool>, Remote)
  {
    var described := s.StepDescribeStacks(ident);
    (ExistsFrom(described.0), described.1)
  }

  /** The status read right after a wait that ended normally. */
  function FinalStatus(p: Profile, s: Remote, ident: string): (Result<string>, Remote)
  {
    var waited := WaitSpec(s, ident, p.delay, p.sleepFirst, p.inProgress);
    if waited.outcome.Fail? then (Err(waited.outcome.failure), waited.after)
    else
      var described := waited.after.StepDescribeStacks(ident);
      if described.0.Err? then (Err(described.0.failure), described.1)
      else (Ok(described.0.value.stackStatus), described.1)
  }

  /** `wait()`, then `status`, then raise unless that status is successful. */
  function Settle(p: Profile, s: Remote, ident: string, name: string, action: string): (Outcome, Remote)
  {
    var final := FinalStatus(p, s, ident);
    if final.0.Err? then (Fail(final.0.failure), final.1)
    else if final.0.value in p.successful then (Pass, final.1)
    else (Fail(OperationFailed(action, name, final.0.value)), final.1)
  }

  /** Settling passes exactly when the wait ended normally and the status
      fetched after it is successful; an unsuccessful status raises with the
      stack's name and that status; a failed wait is raised as it is.  The
      status judged is the reply right after the one that ended the loop, and
      every call made addresses the stack by `ident`. */
  lemma SettleVerdict(p: Profile, s: Remote, ident: string, name: string, action: string)
    ensures var waited := WaitSpec(s, ident, p.delay, p.sleepFirst, p.inProgress);
            var final := FinalStatus(p, s, ident).0;
            var settled := Settle(p, s, ident, name, action);
            (waited.outcome.Fail? ==> settled.0 == waited.outcome) &&
            (waited.outcome.Pass? ==>
               (final.Ok? <==> waited.rounds + 1 < |s.describes| && s.describes[waited.rounds + 1].Ok?) &&
               (final.Ok? ==> final.value == s.describes[waited.rounds + 1].value.stackStatus)) &&
            (settled.0.Pass? <==> final.Ok? && final.value in p.successful) &&
            (final.Ok? && final.value !in p.successful ==>
               settled.0 == Fail(OperationFailed(action, name, final.value))) &&
            s.trace <= settled.1.trace &&
            forall i | |s.trace| <= i < |settled.1.trace| :: PollCall(settled.1.trace[i], ident, p.delay)
  {
    var waited := WaitSpec(s, ident, p.delay, p.sleepFirst, p.inProgress);
    WaitShape(s, ident, p.delay, p.sleepFirst, p.inProgress);
    WaitCalls(s, ident, p.delay, p.sleepFirst, p.inProgress);
    var settled := Settle(p, s, ident, name, action);
    if waited.outcome.Pass? {
      assert waited.after.describes == s.describes[waited.rounds + 1..];
      forall i | |s.trace| <= i < |settled.1.trace| ensures PollCall(settled.1.trace[i], ident, p.delay) {
        if i < |waited.after.trace| {
          assert settled.1.trace[i] == waited.after.trace[i];
        }
      }
    }
  }

  /** The result of a direct deploy, a change-set deploy or a delete: how it
      ended, the client afterwards and the stack's recorded id. */
  datatype Run = Run(outcome: Outcome, after: Remote, id: Option<string>)

  /** The guarded part of a direct deploy: `exists`, then create_stack or
      update_stack with the request. */
  datatype Submission = Submission(found: Result<bool>, reply: Result<string>, after: Remote)

  function DirectSubmit(p: Profile, s: Remote, name: string, id: Option<string>, request: StackRequest): Submission
  {
    var checked := ExistsStep(s, Identifier(p.addressing, name, id));
    if checked.0.Err? then Submission(checked.0, Err(checked.0.failure), checked.1)
    else
      var call := if checked.0.value then UpdateStack(request) else CreateStack(request);
      var reply := checked.1.StepStackCall(call);
      Submission(checked.0, reply.0, reply.1)
  }

  /** A direct deploy: a client error with exactly the "no updates" message,
      from either guarded call, ends it quietly; any other failure is raised;
      otherwise the StackId is recorded and, when asked to, the stack is
      settled. */
  function DirectDeploySpec(p: Profile, s: Remote, name: string, id: Option<string>, request: StackRequest,
                            wait: bool): Run
  {
    var submitted := DirectSubmit(p, s, name, id, request);
    if submitted.reply.Err? then
      if submitted.reply.failure == ClientError(NoUpdatesMessage) then Run(Pass, submitted.after, id)
      else Run(Fail(submitted.reply.failure), submitted.after, id)
    else
      var id' := if p.recordsId then Some(submitted.reply.value) else id;
      if !wait then Run(Pass, submitted.after, id')
      else
        var action := if submitted.found.value then p.updateVerb else p.createVerb;
        var settled := Settle(p, submitted.after, Identifier(p.addressing, name, id'), name, action);
        Run(settled.0, settled.1, id')
  }

  /** The deploy describes the stack first and then calls update_stack when
      it exists and create_stack when it does not, with the request unchanged;
      an error from the describe that is not "does not exist" stops it before
      either call. */
  lemma DirectDeployChoosesCall(p: Profile, s: Remote, name: string, id: Option<string>, request: StackRequest)
    requires |s.describes| > 0
    ensures var ident := Identifier(p.addressing, name, id);
            var found := ExistsFrom(s.describes[0]);
            var submitted := DirectSubmit(p, s, name, id, request);
            submitted.found == found &&
            (found == Ok(true) ==> submitted.after.trace == s.trace + [DescribeStacks(ident), UpdateStack(request)]) &&
            (found == Ok(false) ==> submitted.after.trace == s.trace + [DescribeStacks(ident), CreateStack(request)]) &&
            (found.Ok? ==> submitted.reply == if |s.stackReplies| > 0 then s.stackReplies[0]
                                              else Err(Unscripted(if found.value then "UpdateStack" else "CreateStack"))) &&
            (found.Err? ==> submitted.after.trace == s.trace + [DescribeStacks(ident)] &&
                            submitted.reply == Err(found.failure))
  {
  }

  /** After the guarded calls: the exact "no updates" client error returns
      normally without waiting and without touching the id; any other failure
      propagates unchanged; a reply records the StackId (where the generation
      records it); without waiting nothing follows; with waiting the outcome is
      the settle verdict and every later call addresses the stack by the
      identifier the new id gives. */
  lemma DirectDeployOutcome(p: Profile, s: Remote, name: string, id: Option<string>, request: StackRequest,
                            wait: bool)
    ensures var submitted := DirectSubmit(p, s, name, id, request);
            var run := DirectDeploySpec(p, s, name, id, request, wait);
            var ident := Identifier(p.addressing, name, run.id);
            (submitted.reply == Err(ClientError(NoUpdatesMessage)) ==>
               run == Run(Pass, submitted.after, id)) &&
            (submitted.reply.Err? && submitted.reply.failure != ClientError(NoUpdatesMessage) ==>
               run == Run(Fail(submitted.reply.failure), submitted.after, id)) &&
            (submitted.reply.Ok? ==>
               run.id == (if p.recordsId then Some(submitted.reply.value) else id) &&
               submitted.after.trace <= run.after.trace &&
               (forall i | |submitted.after.trace| <= i < |run.after.trace| ::
                  PollCall(run.after.trace[i], ident, p.delay))) &&
            (submitted.reply.Ok? && !wait ==> run.outcome == Pass && run.after == submitted.after) &&
            (submitted.reply.Ok? && wait ==>
               var final := FinalStatus(p, submitted.after, ident).0;
               var action := if submitted.found.value then p.updateVerb else p.createVerb;
               (run.outcome.Pass? <==> final.Ok? && final.value in p.successful) &&
               (final.Ok? && final.value !in p.successful ==>
                  run.outcome == Fail(OperationFailed(action, name, final.value))))
  {
    var submitted := DirectSubmit(p, s, name, id, request);
    var run := DirectDeploySpec(p, s, name, id, request, wait);
    if submitted.reply.Ok? && wait {
      var action := if submitted.found.value then p.updateVerb else p.createVerb;
      SettleVerdict(p, submitted.after, Identifier(p.addressing, name, run.id), name, action);
    }
  }

  /** The first part of a change-set deploy (cfn_sync/change_set_deployer.py,
      against a stack of cfn_sync/stack.py): `exists`, outside any guard, then
      create_change_set.  `suffix` stands for the random UUID. */
  function CreateChangeSetStep(s: Remote, name: string, id: Option<string>, capabilities: Option<seq<string>>,
                               templateBody: string, parameters: Dict, tags: Dict, suffix: string)
    : (Result<ChangeSetReceipt>, Remote)
  {
    var checked := ExistsStep(s, Identifier(IdOrName, name, id));
    if checked.0.Err? then (Err(checked.0.failure), checked.1)
    else
      var changeSetType := if checked.0.value then ChangeSetUpdate else ChangeSetCreate;
      var request := BodyRequest(name, templateBody, parameters, tags, capabilities);
      checked.1.StepCreateChangeSet(request, ChangeSetPrefix + suffix, changeSetType)
  }

  /** The rest of a change-set deploy, once the change set exists: wait for it;
      on the "no changes" reason delete it and stop; on any other waiter
      failure raise; otherwise execute it and settle when asked to. */
  function FinishChangeSet(delay: int, s: Remote, name: string, receipt: ChangeSetReceipt,
                           changeSetName: string, wait: bool): (Outcome, Remote)
  {
    var waited := s.StepWaitChangeSet(receipt.changeSetId, ChangeSetWaiterDelay);
    if waited.0.Fail? then
      if waited.0.failure == WaiterFailed(NoChangeError) then
        waited.1.StepAcknowledged(DeleteChangeSet(receipt.changeSetId))
      else waited
    else
      var executed := waited.1.StepAcknowledged(ExecuteChangeSet(receipt.changeSetId, changeSetName));
      if executed.0.Fail? || !wait then executed
      else Settle(SyncProfile(delay), executed.1, Identifier(IdOrName, name, Some(receipt.stackId)), name, "deploy")
  }

  function ChangeSetDeploySpec(delay: int, s: Remote, name: string, id: Option<string>,
                               capabilities: Option<seq<string>>, templateBody: string,
                               parameters: Dict, tags: Dict, suffix: string, wait: bool): Run
  {
    var created := CreateChangeSetStep(s, name, id, capabilities, templateBody, parameters, tags, suffix);
    if created.0.Err? then Run(Fail(created.0.failure), created.1, id)
    else
      var finished := FinishChangeSet(delay, created.1, name, created.0.value, ChangeSetPrefix + suffix, wait);
      Run(finished.0, finished.1, Some(created.0.value.stackId))
  }

  /** The change set is of type UPDATE exactly when the stack exists, is named
      "cfn-sync-" plus the suffix, and carries the stack's name, both maps and
      the capabilities.  Its reply's StackId is recorded whatever happens next;
      a failed `exists` or create_change_set is raised with the id untouched. */
  lemma ChangeSetCreation(delay: int, s: Remote, name: string, id: Option<string>,
                          capabilities: Option<seq<string>>, templateBody: string,
                          parameters: Dict, tags: Dict, suffix: string, wait: bool)
    requires |s.describes| > 0
    ensures var found := ExistsFrom(s.describes[0]);
            var created := CreateChangeSetStep(s, name, id, capabilities, templateBody, parameters, tags, suffix);
            var run := ChangeSetDeploySpec(delay, s, name, id, capabilities, templateBody, parameters, tags, suffix, wait);
            var request := BodyRequest(name, templateBody, parameters, tags, capabilities);
            (found.Ok? ==>
               created.1.trace == s.trace + [DescribeStacks(Identifier(IdOrName, name, id)),
                                             CreateChangeSet(request, ChangeSetPrefix + suffix,
                                                             if found.value then ChangeSetUpdate else ChangeSetCreate)] &&
               created.0 == if |s.changeSetReplies| > 0 then s.changeSetReplies[0]
                            else Err(Unscripted("CreateChangeSet"))) &&
            (found.Err? ==> run == Run(Fail(found.failure), created.1, id) &&
                            created.1.trace == s.trace + [DescribeStacks(Identifier(IdOrName, name, id))]) &&
            (created.0.Err? ==> run == Run(Fail(created.0.failure), created.1, id)) &&
            (created.0.Ok? ==> run.id == Some(created.0.value.stackId))
  {
  }

  /** Once the change set exists: it is waited for by its id; the "no
      changes" reason deletes it and stops without executing; any other
      waiter failure is raised and nothing is executed; otherwise it is
      executed exactly once, with its name as the request token, and every
      later call only polls the stack by the identifier its StackId gives. */
  lemma ChangeSetFinish(delay: int, s: Remote, name: string, receipt: ChangeSetReceipt,
                        changeSetName: string, wait: bool)
    ensures var finished := FinishChangeSet(delay, s, name, receipt, changeSetName, wait);
            var trace := finished.1.trace;
            var waiter := if |s.waiterOutcomes| > 0 then s.waiterOutcomes[0]
                          else Fail(Unscripted("ChangeSetCreateComplete"));
            var ack := if |s.acks| > 0 then s.acks[0] else Fail(Unscripted("ExecuteChangeSet"));
            var ident := Identifier(IdOrName, name, Some(receipt.stackId));
            |trace| > |s.trace| && trace[..|s.trace| + 1] == s.trace + [WaitChangeSetCreate(receipt.changeSetId, ChangeSetWaiterDelay)] &&
            (waiter == Fail(WaiterFailed(NoChangeError)) ==>
               trace == s.trace + [WaitChangeSetCreate(receipt.changeSetId, ChangeSetWaiterDelay),
                                   DeleteChangeSet(receipt.changeSetId)] &&
               finished.0 == if |s.acks| > 0 then s.acks[0] else Fail(Unscripted("DeleteChangeSet"))) &&
            (waiter.Fail? && waiter != Fail(WaiterFailed(NoChangeError)) ==>
               |trace| == |s.trace| + 1 && finished.0 == waiter) &&
            (waiter.Pass? ==>
               |trace| >= |s.trace| + 2 &&
               trace[|s.trace| + 1] == ExecuteChangeSet(receipt.changeSetId, changeSetName) &&
               (forall i | |s.trace| + 2 <= i < |trace| :: PollCall(trace[i], ident, delay)) &&
               (ack.Fail? ==> finished.0 == ack && |trace| == |s.trace| + 2) &&
               (ack.Pass? && !wait ==> finished.0 == Pass && |trace| == |s.trace| + 2)) &&
            (waiter.Pass? && ack.Pass? && wait ==>
               var executed := s.StepWaitChangeSet(receipt.changeSetId, ChangeSetWaiterDelay).1
                                .StepAcknowledged(ExecuteChangeSet(receipt.changeSetId, changeSetName)).1;
               var final := FinalStatus(SyncProfile(delay), executed, ident).0;
               (finished.0.Pass? <==> final.Ok? && final.value in SuccessfulStatuses) &&
               (final.Ok? && final.value !in SuccessfulStatuses ==>
                  finished.0 == Fail(OperationFailed("deploy", name, final.value))))
  {
    var waited := s.StepWaitChangeSet(receipt.changeSetId, ChangeSetWaiterDelay);
    if waited.0.Pass? {
      var executed := waited.1.StepAcknowledged(ExecuteChangeSet(receipt.changeSetId, changeSetName));
      if executed.0.Pass? && wait {
        SettleVerdict(SyncProfile(delay), executed.1, Identifier(IdOrName, name, Some(receipt.stackId)), name, "deploy");
      }
    }
  }

  /** A delete: describe and record the StackId, delete the stack by name,
      then settle when asked to. */
  function DeleteSpec(p: Profile, s: Remote, name: string, id: Option<string>, wait: bool): Run
  {
    var described := s.StepDescribeStacks(Identifier(p.addressing, name, id));
    if described.0.Err? then Run(Fail(described.0.failure), described.1, id)
    else
      var id' := Some(described.0.value.stackId);
      var deleted := described.1.StepAcknowledged(DeleteStack(name));
      if deleted.0.Fail? || !wait then Run(deleted.0, deleted.1, id')
      else
        var settled := Settle(p, deleted.1, Identifier(p.addressing, name, id'), name, "delete");
        Run(settled.0, settled.1, id')
  }

  /** The delete records the StackId from a describe before anything else,
      calls delete_stack exactly once and by name, raises its error, returns
      right after it when not waiting, and otherwise only polls the stack by
      the identifier the recorded id gives and judges the final status; a
      failed describe is raised before any delete. */
  lemma DeleteOutcome(p: Profile, s: Remote, name: string, id: Option<string>, wait: bool)
    ensures var run := DeleteSpec(p, s, name, id, wait);
            var first := if |s.describes| > 0 then s.describes[0] else Err(Unscripted("DescribeStacks"));
            var trace := run.after.trace;
            |trace| > |s.trace| && trace[|s.trace|] == DescribeStacks(Identifier(p.addressing, name, id)) &&
            (first.Err? ==> run.outcome == Fail(first.failure) && run.id == id && |trace| == |s.trace| + 1) &&
            (first.Ok? ==>
               var ack := if |s.acks| > 0 then s.acks[0] else Fail(Unscripted("DeleteStack"));
               var ident := Identifier(p.addressing, name, Some(first.value.stackId));
               run.id == Some(first.value.stackId) &&
               |trace| >= |s.trace| + 2 && trace[|s.trace| + 1] == DeleteStack(name) &&
               (ack.Fail? || !wait ==> run.outcome == ack && |trace| == |s.trace| + 2) &&
               (forall i | |s.trace| + 2 <= i < |trace| :: PollCall(trace[i], ident, p.delay)) &&
               (ack.Pass? && wait ==>
                  var deleted := s.StepDescribeStacks(Identifier(p.addressing, name, id)).1
                                  .StepAcknowledged(DeleteStack(name)).1;
                  var final := FinalStatus(p, deleted, ident).0;
                  (run.outcome.Pass? <==> final.Ok? && final.value in p.successful) &&
                  (final.Ok? && final.value !in p.successful ==>
                     run.outcome == Fail(OperationFailed("delete", name, final.value)))))
  {
    var described := s.StepDescribeStacks(Identifier(p.addressing, name, id));
    if described.0.Ok? {
      var id' := Some(described.0.value.stackId);
      var deleted := described.1.StepAcknowledged(DeleteStack(name));
      if deleted.0.Pass? && wait {
        SettleVerdict(p, deleted.1, Identifier(p.addressing, name, id'), name, "delete");
      }
    }
  }
}
