/** The two ways the tool turns a command-line `KEY=VALUE` item into a dict
    entry: split on the first `=` only (cfn_sync/cli.py), or split on every `=`
    and keep the first two pieces (cfn_sync/__init__.py and the identical copy
    in cfn_deploy/__init__.py). */
module KeyValue {
  import opened Base
  import opened Dicts

  /** `key, value = item.split("=", 1)`: the unpack fails when there is no `=`. */
  function SplitFirst(item: string): (r: Result<Entry>)
    ensures r.Err? <==> '=' !in item
    ensures r.Err? ==> r.failure == UnpackError(item)
    ensures r.Ok? ==> r.value.0 + "=" + r.value.1 == item && '=' !in r.value.0
  {
    var i := IndexOf(item, '=');
    if i == |item| then Err(UnpackError(item))
    else
      assert item[..i] + "=" + item[i + 1..] == item[..i] + item[i..];
      assert item[..i] + item[i..] == item;
      Ok((item[..i], item[i + 1..]))
  }

  /** Splitting `key=value` with `=`-free key gives back the key and the
      value. */
  lemma SplitFirstOfJoin(key: string, value: string)
    requires '=' !in key
    ensures SplitFirst(key + "=" + value) == Ok((key, value))
  {
    var item := key + "=" + value;
    assert item[|key|] == '=';
    assert forall j | 0 <= j < |key| :: item[j] == key[j];
    assert IndexOf(item, '=') == |key|;
    assert item[..|key|] == key;
    assert item[|key| + 1..] == value;
  }

  /** `text.split("=")`: the pieces between the `=` signs. */
  function SplitAll(text: string): (parts: seq<string>)
    ensures |parts| >= 1
    ensures forall i | 0 <= i < |parts| :: '=' !in parts[i]
    ensures parts[0] == text[..IndexOf(text, '=')]
    ensures |parts| >= 2 <==> '=' in text
    ensures Join(parts) == text
    decreases |text|
  {
    var i := IndexOf(text, '=');
    if i == |text| then [text]
    else
      var rest := SplitAll(text[i + 1..]);
      assert text[..i] + "=" + text[i + 1..] == text by {
        assert text[..i] + [text[i]] + text[i + 1..] == text[..i] + text[i..];
      }
      [text[..i]] + rest
  }

  /** `"=".join(parts)` */
  function Join(parts: seq<string>): string
    requires |parts| >= 1
    decreases |parts|
  {
    if |parts| == 1 then parts[0] else parts[0] + "=" + Join(parts[1..])
  }

  /** `split_key_equals_value`: refuses text without `=`; otherwise a one-entry
      dict whose key is the text before the first `=` and whose value is the
      text between the first and the second `=`. */
  function SplitKeyEqualsValue(value: string): (r: Result<Dict>)
    ensures r.Err? <==> '=' !in value
    ensures r.Err? ==> r.failure == FormatError(value)
    ensures r.Ok? ==>
              var i := IndexOf(value, '=');
              var tail := value[i + 1..];
              |r.value| == 1 &&
              r.value[0].0 == value[..i] &&
              r.value[0].1 == tail[..IndexOf(tail, '=')]
  {
    if '=' !in value then Err(FormatError(value))
    else
      var parts := SplitAll(value);
      var i := IndexOf(value, '=');
      assert parts[1..] == SplitAll(value[i + 1..]);
      Ok([(parts[0], parts[1])])
  }

  /** What SplitKeyEqualsValue keeps is a prefix of the item; it is the whole
      item exactly when the item has a single `=`, and otherwise the item goes
      on with a second `=` whose remainder is dropped. */
  lemma {:induction false} SplitKeyEqualsValueDropsRest(value: string)
    requires '=' in value
    ensures var e := SplitKeyEqualsValue(value).value[0];
            var kept := e.0 + "=" + e.1;
            kept <= value &&
            (kept == value <==> '=' !in value[IndexOf(value, '=') + 1..]) &&
            (kept != value ==> kept + "=" <= value)
  {
    var i := IndexOf(value, '=');
    KeptPrefix(value, i);
  }

  /** Cutting the text after position `i` at its first `=` keeps a prefix. */
  lemma KeptPrefix(value: string, i: nat)
    requires i < |value|
    ensures var tail := value[i + 1..];
            var kept := value[..i + 1] + tail[..IndexOf(tail, '=')];
            kept <= value &&
            (kept == value <==> '=' !in tail) &&
            (kept != value ==> kept + "=" <= value)
  {
    var tail := value[i + 1..];
    var head := value[..i + 1];
    assert value == head + tail;
    var j := IndexOf(tail, '=');
    PrefixUnderHead(head, tail[..j], tail);
    if j < |tail| {
      assert tail[..j] + "=" == tail[..j + 1];
      PrefixUnderHead(head, tail[..j + 1], tail);
      assert head + tail[..j] + "=" == head + tail[..j + 1];
      assert |head + tail[..j]| < |head + tail|;
    } else {
      assert tail[..j] == tail;
    }
  }

  lemma PrefixUnderHead(head: string, p: string, s: string)
    requires p <= s
    ensures head + p <= head + s
  {
    assert (head + s)[..|head + p|] == head + p;
  }
}
