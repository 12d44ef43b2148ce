/** cfn_sync/__init__.py: the `deploy` and `delete` commands of the earlier
    command line, on the stack class of cfn_sync/cloudformation.py.  Each
    KEY=VALUE option arrives as its own one-entry map; `dict(ChainMap(*maps))`
    merges them. */
module SyncMain {
  import opened Base
  import opened Dicts
  import opened Requests
  import opened Remote
  import opened Lifecycle
  import SyncCloudFormation

  /** `dict(ChainMap(*maps))`, built from the last map to the first so that an
      earlier map overrides a later one. */
  function ChainMerge(maps: seq<Dict>): Dict
    decreases |maps|
  {
    if maps == [] then [] else Update(ChainMerge(maps[1..]), maps[0])
  }

  /** A ChainMap lookup: the value in the first map that holds the key. */
  function FirstHit(maps: seq<Dict>, k: string): Option<string>
    decreases |maps|
  {
    if maps == [] then None
    else if k in Keys(maps[0]) then Get(maps[0], k)
    else FirstHit(maps[1..], k)
  }

  /** The merged map answers every key as the chain lookup does: the first
      map holding the key wins, and a key no map holds is absent. */
  lemma {:induction false} ChainMergeFirstWins(maps: seq<Dict>, k: string)
    ensures Get(ChainMerge(maps), k) == FirstHit(maps, k)
    ensures Get(ChainMerge(maps), k).None? <==> forall i | 0 <= i < |maps| :: k !in Keys(maps[i])
    decreases |maps|
  {
    if maps != [] {
      ChainMergeFirstWins(maps[1..], k);
      if k !in Keys(maps[0]) {
        forall i | 0 < i < |maps| ensures maps[i] == maps[1..][i - 1] {
        }
      }
    }
  }

  /** `deploy`: merge the option maps, set the capabilities only when some
      were given, and deploy the template text, waiting. */
  method Deploy(stack: SyncCloudFormation.Stack, templateBody: string, parameters: seq<Dict>, tags: seq<Dict>,
                capabilities: seq<string>)
    returns (outcome: Outcome)
    modifies stack`id, stack`capabilities, stack.cloudformation
    ensures stack.capabilities == if capabilities != [] then Some(capabilities) else old(stack.capabilities)
    ensures var run := DirectDeploySpec(LegacyProfile, old(stack.cloudformation.State()), stack.name, old(stack.id),
                                        BodyRequest(stack.name, templateBody, ChainMerge(parameters),
                                                    ChainMerge(tags), stack.capabilities),
                                        true);
            outcome == run.outcome && stack.cloudformation.State() == run.after && stack.id == run.id
  {
    var parameterDict := ChainMerge(parameters);
    var tagDict := ChainMerge(tags);
    if capabilities != [] {
      stack.SetCapabilities(capabilities);
    }
    outcome := stack.Deploy(templateBody, parameterDict, tagDict);
  }

  /** `delete`: delete the stack, waiting. */
  method Delete(stack: SyncCloudFormation.Stack) returns (outcome: Outcome)
    modifies stack`id, stack.cloudformation
    ensures var run := DeleteSpec(LegacyProfile, old(stack.cloudformation.State()), stack.name, old(stack.id), true);
            outcome == run.outcome && stack.cloudformation.State() == run.after && stack.id == run.id
  {
    outcome := stack.Delete();
  }
}
