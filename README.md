# cfn-sync: the CloudFormation stack lifecycle in Dafny

cfn-sync creates, updates and deletes AWS CloudFormation stacks from the
command line. It does so by calling the CloudFormation API and then polling
the stack until its status settles. It logs each stack event once while it
waits.

This project models the core of that tool:

- the status sets;
- the conversion of parameter and tag maps to the API's lists of pairs, and back;
- how a stack is addressed (by id or by name);
- the `exists` check;
- the direct deploy, the change-set deploy and the delete;
- the `wait` polling loop with its event deduplication;
- the two `KEY=VALUE` option parsers and the command-line `deploy`/`delete` dispatch;
- the two earlier generations of the stack class: `cfn_sync/cloudformation.py` and `cfn_deploy/cloudformation.py`.

The CloudFormation client is a scripted stand-in:

- `Remote.Client` is a class holding a queue of replies for each kind of call.
- Every call is appended to a `trace`, with the StackName or change-set id it used. The `time.sleep` pauses go into the same trace.
- The events handed to `log_event` are appended to `logged`.
- A call with no queued reply fails with `Unscripted`, the way a stubbed client raises when no response was queued. Because that failure is not a client error, `exists` and the "no updates" check never swallow it.
- `Client.State()` gives the client as a `Remote` value. Each client method is specified by a step function on that value.

Each operation is modelled twice:

- As a function on `Remote` values: `Polling.WaitSpec`, `Lifecycle.DirectDeploySpec`, `Lifecycle.ChangeSetDeploySpec` and `Lifecycle.DeleteSpec`. The lemmas about the tool's behaviour are proved about these functions.
- As imperative methods on the stack classes (`SyncStack.Stack`, `SyncCloudFormation.Stack`, `DeployCloudFormation.Stack`) and on the deployer modules. These methods update the stack's `id` field and the client in place. Their `ensures` say that the outcome, the new client state and the new id are exactly what the function gives.

The loop of `wait` is written once, as `Polling.RunWait`, and proved against `WaitSpec` with loop invariants. The three generations call it with their own settings:

| generation | pause | pause position | in-progress set |
|---|---|---|---|
| `cfn_sync/stack.py` | the stack's `wait_delay` | before the events are fetched | its own |
| `cfn_sync/cloudformation.py` | 5 | before the events are fetched | its own |
| `cfn_deploy/cloudformation.py` | 5 | after the status is refreshed | its own list |

`Lifecycle.Profile` holds the other differences between the generations:

- how the stack is addressed;
- the successful set;
- whether the StackId is recorded;
- the verb used in the failure message.

Two points where the code is subtler than a summary suggests:

- **The direct deployers guard more than the create/update call.** In `cfn_sync/direct_deployer.py` the `try` also covers the `exists` describe, and the same holds in both older copies. So a describe error whose message is exactly "No updates are to be performed." is swallowed too. The model follows the code.
- **An empty id is treated differently.** `cfn_sync/stack.py` falls back to the name when the id is set but empty (`id or name`). `cfn_sync/cloudformation.py` uses `getattr(self, "id", name)`, which keeps an assigned empty id. Both are modelled; `Lifecycle.GenerationsDiffer` states the difference.

## Model

| member | source | states |
|---|---|---|
| Base.ContainsIffOccurs | cfn_sync/stack.py:112 | The substring test used by `exists` holds exactly when the fragment occurs at some index of the text |
| Base.OperationFailedMessage | cfn_sync/direct_deployer.py:55-58 | The exception text for an unsuccessful final status names the stack and the status |
| Statuses.StatusSetsPartition | cfn_sync/stack.py:15-32 | The in-progress and successful sets are disjoint. ROLLBACK_COMPLETE, DELETE_FAILED, CREATE_FAILED, UPDATE_FAILED and UPDATE_ROLLBACK_COMPLETE are in neither set |
| Statuses.LegacyStatusesAgree | cfn_sync/cloudformation.py:8-25 | The older cfn_sync sets equal the current ones; DELETE_COMPLETE is successful in both |
| Statuses.OldestInProgressAgrees | cfn_deploy/cloudformation.py:8-19 | cfn_deploy's in-progress list holds the same statuses as the current set |
| Statuses.OldestSuccessfulDiffers | cfn_deploy/cloudformation.py:21-25 | cfn_deploy's successful list is the current set without DELETE_COMPLETE |
| Dicts.Put | cfn_sync/cli.py:30 | After `d[k] = v`, `k` reads `v`, every other key reads as before, and a new key is appended after the existing keys |
| Dicts.Update | cfn_sync/__init__.py:32-33 | After `base.update(top)`, each key reads top's value when top has the key, and base's value otherwise |
| Dicts.FromEntries | cfn_sync/stack.py:94-97 | A dict comprehension over rows: its keys are exactly the rows' keys. `Dicts.FromEntriesOfDict` and the row round trips in `Requests` state the values |
| Dicts.FromEntriesOfDict | cfn_sync/stack.py:94-97 | A dict comprehension over a dict's own entries rebuilds that dict exactly |
| Requests.ParameterDictToList | cfn_sync/stack.py:49-54 | One ParameterKey/ParameterValue pair per entry, in the map's order, with keys and values unchanged |
| Requests.TagDictToList | cfn_sync/stack.py:57-59 | One Key/Value pair per entry, in the map's order, with keys and values unchanged |
| Requests.ParametersFromRows | cfn_sync/stack.py:91-97 | A describe result without a Parameters list gives `{}` |
| Requests.TagsFromRows | cfn_sync/stack.py:99-102 | A describe result without a Tags list gives `{}` |
| Requests.ParameterRoundTrip | cfn_sync/stack.py:49-54 | Reading back the pairs made from a parameter map gives the map |
| Requests.TagRoundTrip | cfn_sync/stack.py:57-59 | Reading back the pairs made from a tag map gives the map |
| Requests.ParameterRowsRoundTrip | cfn_sync/stack.py:91-97 | A Parameters list with distinct keys, read as a map and converted back, is the same list |
| Requests.TagRowsRoundTrip | cfn_sync/stack.py:99-102 | A Tags list with distinct keys, read as a map and converted back, is the same list |
| Requests.BodyRequestCarries | cfn_sync/direct_deployer.py:32-38 | The request carries: the stack's name; the template text; exactly the given parameter and tag maps, which can be read back; and the capabilities, or `[]` when none are set |
| Requests.UrlRequestCarries | cfn_deploy/cloudformation.py:87-95 | cfn_deploy's request carries: the name; the template URL; exactly the given maps; and no Capabilities field |
| KeyValue.SplitFirst | cfn_sync/cli.py:29 | Fails exactly when the item has no `=`. Otherwise it gives key and value with key + "=" + value == item and no `=` in the key |
| KeyValue.SplitFirstOfJoin | cfn_sync/cli.py:29 | Splitting `key=value` with an `=`-free key gives back that key and the whole value, including any later `=` |
| KeyValue.SplitAll | cfn_sync/__init__.py:20 | `split("=")` gives `=`-free pieces that join back to the text. The first piece is the text before the first `=`, and there are two or more pieces exactly when the text has an `=` |
| KeyValue.SplitKeyEqualsValue | cfn_sync/__init__.py:15-21 | Fails with `FormatError(value)`, which stands for the source's `Exception("Format is KEY=VALUE")`, exactly when there is no `=`. Otherwise the result is a one-entry map: the key is the text before the first `=`, the value is the text between the first and the second `=` |
| KeyValue.SplitKeyEqualsValueDropsRest | cfn_deploy/__init__.py:5-10 | The kept `key=value` is a prefix of the text. It is the whole text exactly when there is no second `=`; otherwise everything from the second `=` on is dropped |
| Events.EventLine | cfn_sync/stack.py:38-46 | The log line is "<logical id> - <status>". It continues with " - <reason>" exactly when the reason is present and non-empty |
| Events.Ids | cfn_sync/stack.py:126 | The id list has the events' ids, in order |
| Events.Fresh | cfn_sync/stack.py:138-149 | The lazy filter over the reversed page, appending each logged id as it goes. Its properties are stated by `Events.FreshIsNew`, `Events.FreshIsComplete` and `Events.FreshKeepsOrder` |
| Events.FreshIsNew | cfn_sync/stack.py:138-149 | The lazy filter logs no id that was already seen, and no id twice |
| Events.FreshIsComplete | cfn_sync/stack.py:138-149 | Every event of the page whose id was not seen before gets logged |
| Events.FreshKeepsOrder | cfn_sync/stack.py:138-143 | The logged events keep the order of the page they come from |
| Events.LogNewEvents | cfn_sync/stack.py:143-149 | The loop logs exactly the filtered events and grows the id list by their ids |
| Polling.Newest | cfn_sync/stack.py:128 | `reversed(events[:1])` is at most one event, the newest, and is empty only for an empty page |
| Polling.PollRound | cfn_sync/stack.py:135-151 | One iteration makes these calls in order: the pause (cfn_sync), the events, the status, the pause (cfn_deploy). It logs the new events of the reversed page and consumes one status. A failing call stops it with only loop calls made |
| Polling.PollSpec | cfn_sync/stack.py:135-151 | The `while` loop as a function on the client, one `PollRound` per in-progress status. Its properties are stated by `Polling.PollShape`, `Polling.PollTrace`, `Polling.PollLogs` and `Polling.PollCalls` |
| Polling.WaitStart | cfn_sync/stack.py:123-133 | Before the loop, `wait` reads the status and the first page, remembers all ids of that page, and logs at most its newest event |
| Polling.PollShape | cfn_sync/stack.py:135-151 | A loop that ends normally tested an in-progress status at every earlier check and a status outside the set at its last check. Every describe it consumed succeeded, and it ran no more rounds than there were describe replies |
| Polling.PollTrace | cfn_sync/stack.py:135-151 | Each round of a normal loop consumes one status, and the trace grows by exactly one iteration's calls per round |
| Polling.PollLogs | cfn_sync/stack.py:138-149 | The loop only appends to the log. What it appends has no repeated id and no id seen on entry |
| Polling.PollCalls | cfn_sync/stack.py:135-151 | The loop addresses the stack only by the identifier and pauses only for the delay |
| Polling.WaitSpec | cfn_sync/stack.py:121-151 | `wait` as a function on the client: `WaitStart`, then the loop. Its properties are stated by `Polling.WaitShape`, `Polling.WaitLogs` and `Polling.WaitCalls`, and `Polling.RunWait` is proved equal to it |
| Polling.WaitShape | cfn_deploy/cloudformation.py:119-149 | A normal wait ends on the first fetched status outside the in-progress set. The calls are the initial status and events followed by one iteration per in-progress status, so the wait pauses once per iteration and never when the first status is terminal |
| Polling.WaitLogs | cfn_sync/cloudformation.py:142-172 | A wait logs at most the newest initial event. After that it logs only events whose ids were not on the first page, none of them twice |
| Polling.WaitCalls | cfn_sync/stack.py:121-151 | A wait, however it ends, addresses the stack only by the identifier and pauses only for the delay |
| Polling.RunWait | cfn_sync/stack.py:121-151 | The imperative loop's outcome and final client state are exactly those of the wait function |
| Remote.Client.constructor | tests/conftest.py:19-25 | A new client holds the given script of replies, like a stubbed client with its queued responses |
| Remote.Client.DescribeStacks | tests/stubs.py:81-117 | Records the call with its StackName and returns the next queued describe reply or error; it fails as unscripted when none is queued |
| Remote.Client.DescribeStackEvents | tests/stubs.py:220-254 | Records the call and returns the next queued page of events |
| Remote.Client.CreateStack | tests/stubs.py:162-199 | Records the request and returns the next queued StackId or error |
| Remote.Client.UpdateStack | tests/stubs.py:120-159 | Records the request and returns the next queued StackId or error |
| Remote.Client.DeleteStack | tests/stubs.py:202-217 | Records the call with its StackName and returns the next queued acknowledgement or error |
| Remote.Client.CreateChangeSet | cfn_sync/change_set_deployer.py:40-48 | Records the request, the change-set name and its type, and returns the next queued receipt |
| Remote.Client.WaitChangeSetCreate | cfn_sync/change_set_deployer.py:54-55 | Records the waiter call with the change-set id and the 10-second delay, and returns the next queued waiter outcome |
| Remote.Client.ExecuteChangeSet | cfn_sync/change_set_deployer.py:64-66 | Records the change-set id and the request token, and returns the next acknowledgement |
| Remote.Client.DeleteChangeSet | cfn_sync/change_set_deployer.py:59 | Records the change-set id and returns the next acknowledgement |
| Remote.Client.Sleep | cfn_sync/stack.py:136 | Records the pause in the trace |
| Remote.Client.LogEvent | cfn_sync/stack.py:144-148 | Appends the event to the log |
| Lifecycle.Identifier | cfn_sync/stack.py:81-84 | Gives the id or the name according to the generation's addressing rule |
| Lifecycle.ExistsFrom | cfn_sync/stack.py:104-115 | `exists` is true exactly when describe succeeds, and false exactly on a client error whose text contains "does not exist". Any other error is raised unchanged |
| Lifecycle.GenerationsDiffer | cfn_sync/cloudformation.py:176-190 | Three differences between the generations: only cfn_deploy fails a DELETE_COMPLETE; an assigned empty id addresses the stack in the older cfn_sync but falls back to the name in the current one; cfn_deploy never records an id |
| Lifecycle.FinalStatus | cfn_sync/direct_deployer.py:50-53 | The status read by `stack.status` right after `stack.wait()` returns. `Lifecycle.SettleVerdict` states which reply it is |
| Lifecycle.Settle | cfn_sync/direct_deployer.py:50-58 | Wait, read the status, raise unless it is successful. `Lifecycle.SettleVerdict` states its verdict |
| Lifecycle.SettleVerdict | cfn_sync/direct_deployer.py:50-58 | Settling passes exactly when the wait ends normally and the next fetched status is successful. An unsuccessful status raises with the stack's name and that status, and a failed wait is raised unchanged. Every call addresses the stack by the identifier |
| Lifecycle.DirectSubmit | cfn_sync/direct_deployer.py:24-39 | The guarded `exists` and create/update call. `Lifecycle.DirectDeployChoosesCall` states which call it makes |
| Lifecycle.DirectDeploySpec | cfn_sync/direct_deployer.py:16-58 | The whole direct deploy as a function on the client. `Lifecycle.DirectDeployChoosesCall` and `Lifecycle.DirectDeployOutcome` state its properties, and the three direct-deploy methods are proved equal to it |
| Lifecycle.DirectDeployChoosesCall | cfn_sync/direct_deployer.py:24-39 | The deploy describes the stack first. It calls update_stack when the stack exists and create_stack when it does not, with the request unchanged. Any other describe error stops it before either call |
| Lifecycle.DirectDeployOutcome | cfn_sync/direct_deployer.py:39-58 | The exact "No updates are to be performed." error returns without waiting and leaves the id as it was. Other errors propagate unchanged. A reply records the StackId (cfn_sync). Without `wait` nothing follows. With `wait`, the deploy raises exactly when the final status is not successful |
| Lifecycle.CreateChangeSetStep | cfn_sync/change_set_deployer.py:33-50 | `exists`, then create_change_set. `Lifecycle.ChangeSetCreation` states its properties |
| Lifecycle.FinishChangeSet | cfn_sync/change_set_deployer.py:52-76 | The waiter, the delete or execute of the change set, and the settle. `Lifecycle.ChangeSetFinish` states its properties |
| Lifecycle.ChangeSetDeploySpec | cfn_sync/change_set_deployer.py:25-76 | The whole change-set deploy as a function on the client. `Lifecycle.ChangeSetCreation` and `Lifecycle.ChangeSetFinish` state its properties, and `ChangeSetDeployer.Deploy` is proved equal to it |
| Lifecycle.ChangeSetCreation | cfn_sync/change_set_deployer.py:33-50 | The change set is named "cfn-sync-" plus the suffix. Its type is UPDATE exactly when the stack exists. It carries the name, both maps and the capabilities. Its StackId is recorded whatever happens next, and earlier failures are raised with the id untouched |
| Lifecycle.ChangeSetFinish | cfn_sync/change_set_deployer.py:52-76 | The change set is waited for by its id. The "no changes" reason deletes it and stops without executing. Any other waiter failure is raised without executing. Otherwise it is executed once, with the change-set name as the token, and later calls only poll the stack. With `wait`, after a successful waiter and execute, the deploy fails exactly when the status read after the wait is not successful, and then with `OperationFailed("deploy", name, status)` |
| Lifecycle.DeleteSpec | cfn_sync/deleter.py:4-17 | The whole delete as a function on the client. `Lifecycle.DeleteOutcome` states its properties, and the two delete methods are proved equal to it |
| Lifecycle.DeleteOutcome | cfn_sync/deleter.py:4-17 | The StackId is recorded from a describe before delete_stack. delete_stack is called once, by name, and its error is raised. Without `wait` the delete stops right after that call. With `wait` it only polls by the recorded id and raises exactly when the final status is not successful |
| SyncStack.Stack.constructor | cfn_sync/stack.py:71-79 | A new stack has the name and the wait delay (default 5), and no id or capabilities. The delay is a field that callers may reassign |
| SyncStack.Stack.Identifier | cfn_sync/stack.py:81-84 | The id when it is set and non-empty, otherwise the name |
| SyncStack.Stack.Describe | cfn_sync/stack.py:161-165 | One describe_stacks call by the identifier |
| SyncStack.Stack.Status | cfn_sync/stack.py:86-89 | The described StackStatus, or the describe failure |
| SyncStack.Stack.Parameters | cfn_sync/stack.py:91-97 | The described Parameters as a map (`{}` when absent), or the describe failure |
| SyncStack.Stack.Tags | cfn_sync/stack.py:99-102 | The described Tags as a map (`{}` when absent), or the describe failure |
| SyncStack.Stack.Exists | cfn_sync/stack.py:104-115 | One describe by the identifier, judged by `ExistsFrom` |
| SyncStack.Stack.SetCapabilities | cfn_sync/stack.py:117-119 | Sets only the capabilities |
| SyncStack.Stack.Wait | cfn_sync/stack.py:121-151 | The wait with the stack's delay, pausing before each round, over the in-progress set |
| SyncStack.Stack.Events | cfn_sync/stack.py:153-159 | One describe_stack_events call by the identifier |
| DirectDeployer.Deploy | cfn_sync/direct_deployer.py:16-58 | Outcome, client state and id are those of the direct-deploy function for this stack |
| ChangeSetDeployer.Deploy | cfn_sync/change_set_deployer.py:25-76 | Outcome, client state and id are those of the change-set deploy function for this stack |
| Deleter.Delete | cfn_sync/deleter.py:4-17 | Outcome, client state and id are those of the delete function for this stack |
| Cli.ItemSplit | cfn_sync/cli.py:29 | The key and value the parser assigns are the two halves of splitting the item at its first `=` |
| Cli.ItemOfJoin | cfn_sync/cli.py:29 | An item written `key=value`, with no `=` in the key, unpacks into exactly that key and value |
| Cli.ParseFrom | cfn_sync/cli.py:28-30 | The `for` loop from the map built so far. Its properties are stated by `Cli.ParseFromFails`, `Cli.ParseFromLastWins` and `Cli.ParseFromKeeps` |
| Cli.ParseItems | cfn_sync/cli.py:25-30 | The loop from `{}`; `Cli.ParseDict` is proved equal to it |
| Cli.ParseFromFails | cfn_sync/cli.py:28-29 | Parsing fails exactly when some item has no `=`, and then with the first such item |
| Cli.ParseFromLastWins | cfn_sync/cli.py:28-30 | Each key reads the value after the first `=` of the last item with that key |
| Cli.ParseFromKeeps | cfn_sync/cli.py:25-30 | A key that no item mentions is left as it was; from the initial `{}` it stays absent |
| Cli.ParseFromTwo | cfn_sync/cli.py:28-30 | Two items that both hold `=` are assigned into the map in order |
| Cli.ParseItemsTwoKeys | tests/test_cli.py:31-48 | Two items with different keys give both entries in item order, as for `MyParam=MyVal ParamTwo=ValueTwo` |
| Cli.ParseItemsSameKey | cfn_sync/cli.py:30 | Of two items with the same key, the later value is kept |
| Cli.ParseDict | cfn_sync/cli.py:17-32 | The imperative loop returns exactly the parsed map or the unpacking error |
| Cli.Deploy | cfn_sync/cli.py:35-51 | Capabilities are set only when the list is non-empty. The change-set deployer runs exactly when asked, otherwise the direct deployer, with the template text and the maps unchanged |
| Cli.Delete | cfn_sync/cli.py:54-56 | Runs the deleter once, waiting |
| SyncCloudFormation.Stack.constructor | cfn_sync/cloudformation.py:54-58 | A new stack has no id attribute and no capabilities |
| SyncCloudFormation.Stack.DescribedName | cfn_sync/cloudformation.py:176 | An assigned id, even an empty one, wins; otherwise the name |
| SyncCloudFormation.Stack.Describe | cfn_sync/cloudformation.py:184-190 | One describe_stacks call by the described name |
| SyncCloudFormation.Stack.Status | cfn_sync/cloudformation.py:60-63 | The described StackStatus, or the describe failure |
| SyncCloudFormation.Stack.Exists | cfn_sync/cloudformation.py:65-78 | One describe, judged by `ExistsFrom` |
| SyncCloudFormation.Stack.SetCapabilities | cfn_sync/cloudformation.py:80-82 | Sets only the capabilities |
| SyncCloudFormation.Stack.Deploy | cfn_sync/cloudformation.py:84-125 | Outcome, client state and id are those of the direct-deploy function with this generation's settings |
| SyncCloudFormation.Stack.Delete | cfn_sync/cloudformation.py:127-140 | Outcome, client state and id are those of the delete function with this generation's settings |
| SyncCloudFormation.Stack.Wait | cfn_sync/cloudformation.py:142-172 | The wait with a fixed 5-second pause before each round |
| SyncCloudFormation.Stack.Events | cfn_sync/cloudformation.py:174-182 | One describe_stack_events call by the described name |
| DeployCloudFormation.Stack.constructor | cfn_deploy/cloudformation.py:47-51 | A new stack holds only its name |
| DeployCloudFormation.Stack.Describe | cfn_deploy/cloudformation.py:156-159 | One describe_stacks call by name |
| DeployCloudFormation.Stack.Status | cfn_deploy/cloudformation.py:53-56 | The described StackStatus, or the describe failure |
| DeployCloudFormation.Stack.Exists | cfn_deploy/cloudformation.py:58-71 | One describe by name, judged by `ExistsFrom` |
| DeployCloudFormation.Stack.Deploy | cfn_deploy/cloudformation.py:73-117 | Outcome and client state are those of the direct-deploy function: template URL, addressed by name, no id recorded, failure verb "create"/"update" |
| DeployCloudFormation.Stack.Wait | cfn_deploy/cloudformation.py:119-149 | The wait with a fixed 5-second pause after each status refresh, over the in-progress list |
| DeployCloudFormation.Stack.Events | cfn_deploy/cloudformation.py:151-154 | One describe_stack_events call by name |
| SyncMain.ChainMerge | cfn_sync/__init__.py:32-33 | `dict(ChainMap(*maps))`. `SyncMain.ChainMergeFirstWins` states which value each key gets |
| SyncMain.ChainMergeFirstWins | cfn_sync/__init__.py:32-33 | The merged map answers each key like a ChainMap lookup: the first map holding the key wins, and a key held by no map is absent |
| SyncMain.Deploy | cfn_sync/__init__.py:24-38 | Capabilities are set only when the list is non-empty. The stack's deploy then runs, waiting, with the template text and the merged maps |
| SyncMain.Delete | cfn_sync/__init__.py:41-43 | Runs the stack's delete once, waiting |

## Left out

- The boto3 client is replaced by the scripted `Remote.Client`. How botocore renders `str(ClientError)` is not modelled. The error message is the text used both for the "does not exist" substring test and for the exact "No updates are to be performed." comparison.
- The internals of the `change_set_create_complete` waiter are not modelled; only its outcome is. A waiter failure whose last response has no StatusReason (a `KeyError` in the source) is not modelled either: every waiter failure carries a reason.
- `uuid.uuid4()` is a `suffix` input, and `time.sleep` is a `Sleep` entry in the trace; real time is not modelled.
- Reading the template file is not modelled: the deploy commands take its text as `templateBody`.
- Argument parsing, `main`, `logging.basicConfig`, `sys.exit` and storing the parsed map on the argparse namespace are not modelled. `Cli.ParseDict` returns the map instead of storing it, and an empty or missing list of values is the empty sequence.
- Where the logged events fall among the client calls is not recorded: `logged` keeps only their own order, and the trace holds the calls and pauses.
- Informational and debug log lines other than the stack events are not modelled. For cfn_deploy, the log records which events are handed to `log_event`, not the text its broken `{}` formatting would produce.
- Event timestamps and the other describe fields are not modelled; no decision depends on them.
- Deploy and delete failures are modelled as an `Outcome` value instead of raised exceptions. A failed final status is `OperationFailed(action, name, status)`, whose message is `OperationFailedMessage`.
- Dictionaries are ordered sequences of entries with distinct keys. The key order of `dict(ChainMap(...))` is not stated, only which value each key gets.
