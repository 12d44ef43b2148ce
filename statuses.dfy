/** The stack-status vocabularies of the three generations of the tool.  A
    status in neither set of a generation is a failure for it, whatever its
    text. */
module Statuses {

  /** cfn_sync/stack.py: statuses during which the stack is still changing. */
  const InProgressStatuses: set<string> := {
    "CREATE_IN_PROGRESS",
    "ROLLBACK_IN_PROGRESS",
    "DELETE_IN_PROGRESS",
    "UPDATE_IN_PROGRESS",
    "UPDATE_COMPLETE_CLEANUP_IN_PROGRESS",
    "UPDATE_ROLLBACK_IN_PROGRESS",
    "UPDATE_ROLLBACK_COMPLETE_CLEANUP_IN_PROGRESS",
    "REVIEW_IN_PROGRESS",
    "IMPORT_IN_PROGRESS",
    "IMPORT_ROLLBACK_IN_PROGRESS"
  }

  /** cfn_sync/stack.py: statuses in which an operation counts as successful. */
  const SuccessfulStatuses: set<string> :=
    {"CREATE_COMPLETE", "UPDATE_COMPLETE", "IMPORT_COMPLETE", "DELETE_COMPLETE"}

  /** cfn_sync/stack.py: the default pause between two polls. */
  const DefaultWaitDelay: int := 5

  /** cfn_sync/cloudformation.py keeps its own copies of the two sets. */
  const LegacyInProgressStatuses: set<string> := {
    "CREATE_IN_PROGRESS",
    "ROLLBACK_IN_PROGRESS",
    "DELETE_IN_PROGRESS",
    "UPDATE_IN_PROGRESS",
    "UPDATE_COMPLETE_CLEANUP_IN_PROGRESS",
    "UPDATE_ROLLBACK_IN_PROGRESS",
    "UPDATE_ROLLBACK_COMPLETE_CLEANUP_IN_PROGRESS",
    "REVIEW_IN_PROGRESS",
    "IMPORT_IN_PROGRESS",
    "IMPORT_ROLLBACK_IN_PROGRESS"
  }

  const LegacySuccessfulStatuses: set<string> :=
    {"CREATE_COMPLETE", "UPDATE_COMPLETE", "IMPORT_COMPLETE", "DELETE_COMPLETE"}

  /** cfn_deploy/cloudformation.py keeps them as lists, and its successful list
      has no DELETE_COMPLETE. */
  const OldestInProgressStatuses: seq<string> := [
    "CREATE_IN_PROGRESS",
    "ROLLBACK_IN_PROGRESS",
    "DELETE_IN_PROGRESS",
    "UPDATE_IN_PROGRESS",
    "UPDATE_COMPLETE_CLEANUP_IN_PROGRESS",
    "UPDATE_ROLLBACK_IN_PROGRESS",
    "UPDATE_ROLLBACK_COMPLETE_CLEANUP_IN_PROGRESS",
    "REVIEW_IN_PROGRESS",
    "IMPORT_IN_PROGRESS",
    "IMPORT_ROLLBACK_IN_PROGRESS"
  ]

  const OldestSuccessfulStatuses: seq<string> :=
    ["CREATE_COMPLETE", "UPDATE_COMPLETE", "IMPORT_COMPLETE"]

  /** No status is both still running and successful, and the usual terminal
      failures are in neither set. */
  lemma StatusSetsPartition()
    ensures InProgressStatuses !! SuccessfulStatuses
    ensures forall s | s in {"ROLLBACK_COMPLETE", "DELETE_FAILED", "CREATE_FAILED",
                             "UPDATE_ROLLBACK_COMPLETE", "UPDATE_FAILED"} ::
              s !in InProgressStatuses && s !in SuccessfulStatuses
  {
  }

  /** The two cfn_sync files agree on both sets. */
  lemma LegacyStatusesAgree()
    ensures LegacyInProgressStatuses == InProgressStatuses
    ensures LegacySuccessfulStatuses == SuccessfulStatuses
  {
  }

  /** cfn_deploy runs while the same statuses hold. */
  lemma OldestInProgressAgrees()
    ensures (set s | s in OldestInProgressStatuses) == InProgressStatuses
  {
  }

  /** cfn_deploy does not count a completed deletion as success, and agrees
      on every other successful status. */
  lemma OldestSuccessfulDiffers()
    ensures (set s | s in OldestSuccessfulStatuses) == SuccessfulStatuses - {"DELETE_COMPLETE"}
    ensures "DELETE_COMPLETE" !in OldestSuccessfulStatuses
  {
  }
}
