/** cfn_sync/cli.py: the KEY=VALUE option parser and the dispatch of the
    `deploy` and `delete` commands. */
module Cli {
  import opened Base
  import opened Dicts
  import opened KeyValue
  import opened Remote
  import opened Requests
  import opened Lifecycle
  import opened SyncStack
  import DirectDeployer
  import ChangeSetDeployer
  import Deleter

  /** The key `item.split("=", 1)` unpacks into: the text before the first
      `=`. */
  function ItemKey(item: string): string
  {
    item[..IndexOf(item, '=')]
  }

  /** The value `item.split("=", 1)` unpacks into: everything after the first
      `=`. */
  function ItemValue(item: string): string
  {
    var i := IndexOf(item, '=');
    if i < |item| then item[i + 1..] else ""
  }

  /** ItemKey and ItemValue are the two halves SplitFirst unpacks. */
  lemma ItemSplit(item: string)
    ensures SplitFirst(item).Ok? ==> SplitFirst(item).value == (ItemKey(item), ItemValue(item))
  {
  }

  /** An item written as `key=value`, with no `=` in the key, unpacks into
      that key and that value. */
  lemma ItemOfJoin(key: string, value: string)
    requires '=' !in key
    ensures var item := key + "=" + value;
            '=' in item && ItemKey(item) == key && ItemValue(item) == value
  {
    SplitFirstOfJoin(key, value);
    ItemSplit(key + "=" + value);
  }

  /** The loop of `ParseDict.__call__` from the map built so far: each item is
      split on its first `=` and assigned into the map; the first item
      without `=` makes the unpacking fail. */
  function ParseFrom(result: Dict, items: seq<string>): Result<Dict>
    decreases |items|
  {
    if items == [] then Ok(result)
    else if '=' !in items[0] then Err(UnpackError(items[0]))
    else ParseFrom(Put(result, ItemKey(items[0]), ItemValue(items[0])), items[1..])
  }

  function ParseItems(items: seq<string>): Result<Dict>
  {
    ParseFrom([], items)
  }

  /** Parsing fails exactly when some item has no `=`, and then with the
      first such item. */
  lemma {:induction false} ParseFromFails(result: Dict, items: seq<string>)
    ensures var r := ParseFrom(result, items);
            (r.Ok? ==> forall i | 0 <= i < |items| :: '=' in items[i]) &&
            (r.Err? ==> exists k | 0 <= k < |items| ::
                          '=' !in items[k] && (forall j | 0 <= j < k :: '=' in items[j]) &&
                          r.failure == UnpackError(items[k]))
    decreases |items|
  {
    if items != [] {
      if '=' in items[0] {
        ParseFromFails(Put(result, ItemKey(items[0]), ItemValue(items[0])), items[1..]);
        var r := ParseFrom(result, items);
        if r.Ok? {
          forall i | 0 <= i < |items| ensures '=' in items[i] {
            if i > 0 {
              assert items[i] == items[1..][i - 1];
            }
          }
        } else {
          var k :| 0 <= k < |items[1..]| && '=' !in items[1..][k] &&
                   (forall j | 0 <= j < k :: '=' in items[1..][j]) && r.failure == UnpackError(items[1..][k]);
          assert '=' !in items[k + 1];
          forall j | 0 <= j < k + 1 ensures '=' in items[j] {
            if j > 0 {
              assert items[j] == items[1..][j - 1];
            }
          }
        }
      }
    }
  }

  /** No item after the `i`-th has its key. */
  predicate LastWithKey(items: seq<string>, i: nat)
    requires i < |items|
  {
    forall j | i < j < |items| :: ItemKey(items[j]) != ItemKey(items[i])
  }

  /** A parsed map holds, for each key, the value of the last item with that
      key. */
  lemma {:induction false} ParseFromLastWins(result: Dict, items: seq<string>, i: nat)
    requires i < |items| && LastWithKey(items, i)
    ensures var r := ParseFrom(result, items);
            r.Ok? ==> Get(r.value, ItemKey(items[i])) == Some(ItemValue(items[i]))
    decreases |items|
  {
    if ParseFrom(result, items).Ok? {
      var next := Put(result, ItemKey(items[0]), ItemValue(items[0]));
      if i > 0 {
        LastWithKeyTail(items, i);
        ParseFromLastWins(next, items[1..], i - 1);
      } else {
        LastWithKeyTail(items, 0);
        ParseFromKeeps(next, items[1..], ItemKey(items[0]));
      }
    }
  }

  /** Dropping the first item: the `i`-th item, now at `i - 1`, is still the
      last with its key, and the first item's key no longer occurs when it was
      the last with it. */
  lemma LastWithKeyTail(items: seq<string>, i: nat)
    requires i < |items| && LastWithKey(items, i)
    ensures i > 0 ==> items[1..][i - 1] == items[i] && LastWithKey(items[1..], i - 1)
    ensures i == 0 ==> forall j | 0 <= j < |items[1..]| :: ItemKey(items[1..][j]) != ItemKey(items[0])
  {
    var rest := items[1..];
    forall j | 0 <= j < |rest| ensures rest[j] == items[j + 1] {
    }
  }

  /** A key that no item mentions keeps what the map held for it. */
  lemma {:induction false} ParseFromKeeps(result: Dict, items: seq<string>, k: string)
    requires forall i | 0 <= i < |items| :: ItemKey(items[i]) != k
    ensures var r := ParseFrom(result, items);
            r.Ok? ==> Get(r.value, k) == Get(result, k)
    decreases |items|
  {
    if items != [] && ParseFrom(result, items).Ok? {
      var rest := items[1..];
      forall i | 0 <= i < |rest| ensures ItemKey(rest[i]) != k {
        assert rest[i] == items[i + 1];
      }
      ParseFromKeeps(Put(result, ItemKey(items[0]), ItemValue(items[0])), rest, k);
    }
  }

  /** Two items that both hold `=` are assigned in order. */
  lemma ParseFromTwo(result: Dict, a: string, b: string)
    requires '=' in a && '=' in b
    ensures ParseFrom(result, [a, b]) == Ok(Put(Put(result, ItemKey(a), ItemValue(a)), ItemKey(b), ItemValue(b)))
  {
    var mid := Put(result, ItemKey(a), ItemValue(a));
    assert [a, b][1..] == [b];
    assert ParseFrom(result, [a, b]) == ParseFrom(mid, [b]);
    assert [b][1..] == [];
    assert ParseFrom(mid, [b]) == ParseFrom(Put(mid, ItemKey(b), ItemValue(b)), []);
  }

  /** Two items with different keys give a map with both entries, in item
      order (as in `MyParam=MyVal ParamTwo=ValueTwo`). */
  lemma ParseItemsTwoKeys(k1: string, v1: string, k2: string, v2: string)
    requires '=' !in k1 && '=' !in k2 && k1 != k2
    ensures ParseItems([k1 + "=" + v1, k2 + "=" + v2]) == Ok([(k1, v1), (k2, v2)])
  {
    ItemOfJoin(k1, v1);
    ItemOfJoin(k2, v2);
    ParseFromTwo([], k1 + "=" + v1, k2 + "=" + v2);
    PutDistinct(k1, v1, k2, v2);
  }

  lemma PutDistinct(k1: string, v1: string, k2: string, v2: string)
    requires k1 != k2
    ensures Put(Put([], k1, v1), k2, v2) == [(k1, v1), (k2, v2)]
  {
    assert KeyIndex([], k1) == 0;
    assert Put([], k1, v1) == [] + [(k1, v1)] == [(k1, v1)];
    assert KeyIndex([(k1, v1)], k2) == 1 + KeyIndex([], k2) == 1;
    assert Put([(k1, v1)], k2, v2) == [(k1, v1)] + [(k2, v2)];
  }

  /** Two items with the same key leave only the later value. */
  lemma ParseItemsSameKey(k: string, v1: string, v2: string)
    requires '=' !in k
    ensures ParseItems([k + "=" + v1, k + "=" + v2]) == Ok([(k, v2)])
  {
    ItemOfJoin(k, v1);
    ItemOfJoin(k, v2);
    ParseFromTwo([], k + "=" + v1, k + "=" + v2);
    PutSame(k, v1, v2);
  }

  lemma PutSame(k: string, v1: string, v2: string)
    ensures Put(Put([], k, v1), k, v2) == [(k, v2)]
  {
    assert KeyIndex([], k) == 0;
    assert Put([], k, v1) == [] + [(k, v1)] == [(k, v1)];
    assert KeyIndex([(k, v1)], k) == 0;
    assert Put([(k, v1)], k, v2) == [(k, v1)][0 := (k, v2)];
  }

  /** `ParseDict.__call__`: builds the map item by item; the map is what gets
      stored on the namespace. */
  method ParseDict(values: seq<string>) returns (r: Result<Dict>)
    ensures r == ParseItems(values)
  {
    var result: Dict := [];
    var i := 0;
    while i < |values|
      invariant 0 <= i <= |values|
      invariant ParseFrom(result, values[i..]) == ParseItems(values)
    {
      assert values[i..][1..] == values[i + 1..];
      var split := SplitFirst(values[i]);
      ItemSplit(values[i]);
      if split.Err? {
        return Err(split.failure);
      }
      result := Put(result, split.value.0, split.value.1);
      i := i + 1;
    }
    return Ok(result);
  }

  /** `deploy`: set the capabilities only when some were given, then run the
      change-set deployer or the direct deployer, waiting in both cases.
      `templateBody` is the text of the template file; `suffix` stands for the
      change-set deployer's UUID. */
  method Deploy(stack: Stack, templateBody: string, parameters: Dict, tags: Dict, capabilities: seq<string>,
                useChangeSet: bool, suffix: string)
    returns (outcome: Outcome)
    modifies stack`id, stack`capabilities, stack.cloudformation
    ensures stack.capabilities == if capabilities != [] then Some(capabilities) else old(stack.capabilities)
    ensures var before := old(stack.cloudformation.State());
            var run := if useChangeSet then
                         ChangeSetDeploySpec(stack.waitDelay, before, stack.name, old(stack.id), stack.capabilities,
                                             templateBody, parameters, tags, suffix, true)
                       else
                         DirectDeploySpec(SyncProfile(stack.waitDelay), before, stack.name, old(stack.id),
                                          BodyRequest(stack.name, templateBody, parameters, tags, stack.capabilities),
                                          true);
            outcome == run.outcome && stack.cloudformation.State() == run.after && stack.id == run.id
  {
    if capabilities != [] {
      stack.SetCapabilities(capabilities);
    }
    if useChangeSet {
      outcome := ChangeSetDeployer.Deploy(stack, templateBody, parameters, tags, suffix);
    } else {
      outcome := DirectDeployer.Deploy(stack, templateBody, parameters, tags);
    }
  }

  /** `delete`: run the deleter, waiting. */
  method Delete(stack: Stack) returns (outcome: Outcome)
    modifies stack`id, stack.cloudformation
    ensures var run := DeleteSpec(SyncProfile(stack.waitDelay), old(stack.cloudformation.State()), stack.name,
                                  old(stack.id), true);
            outcome == run.outcome && stack.cloudformation.State() == run.after && stack.id == run.id
  {
    outcome := Deleter.Delete(stack);
  }
}
