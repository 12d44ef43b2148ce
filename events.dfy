/** Stack events as the tool logs them: the text of one log line, and the
    lazy filter that keeps the events of a freshly fetched page whose ids have
    not been seen yet. */
module Events {
  import opened Base
  import opened Remote

  /** `log_event` (cfn_sync copies): "<logical id> - <status>", followed by
      " - <reason>" only when the reason is present and non-empty. */
  function EventLine(event: StackEvent): (line: string)
    ensures var head := event.logicalResourceId + " - " + event.resourceStatus;
            var reason := event.resourceStatusReason;
            head <= line &&
            (line == head <==> reason.None? || reason.value == "") &&
            (line != head ==> line[|head|..] == " - " + reason.value)
  {
    var head := event.logicalResourceId + " - " + event.resourceStatus;
    match event.resourceStatusReason
    case Some(reason) =>
      if reason != "" then
        assert (head + " - " + reason)[..|head|] == head;
        head + " - " + reason
      else head
    case None => head
  }

  function Ids(events: seq<StackEvent>): (ids: seq<string>)
    ensures |ids| == |events| && forall i | 0 <= i < |events| :: ids[i] == events[i].eventId
  {
    seq(|events|, i requires 0 <= i < |events| => events[i].eventId)
  }

  predicate NoRepeats(ids: seq<string>)
  {
    forall i, j | 0 <= i < j < |ids| :: ids[i] != ids[j]
  }

  /** `sub` is `s` with some elements left out, the rest in their order. */
  predicate SubsequenceOf(sub: seq<StackEvent>, s: seq<StackEvent>)
    decreases |s|
  {
    sub == [] ||
    (s != [] && ((sub[0] == s[0] && SubsequenceOf(sub[1..], s[1..])) || SubsequenceOf(sub, s[1..])))
  }

  /** The events the loop `for event in filter(lambda e: e["EventId"] not in
      event_ids, batch)` logs while it appends each logged id to `event_ids`:
      the filter is lazy, so an id logged earlier in the same batch is already
      in the list when a later event is tested. */
  function Fresh(seen: seq<string>, batch: seq<StackEvent>): seq<StackEvent>
    decreases |batch|
  {
    if batch == [] then []
    else if batch[0].eventId in seen then Fresh(seen, batch[1..])
    else [batch[0]] + Fresh(seen + [batch[0].eventId], batch[1..])
  }

  /** No logged id was already seen, and none is logged twice. */
  lemma {:induction false} FreshIsNew(seen: seq<string>, batch: seq<StackEvent>)
    ensures var kept := Fresh(seen, batch);
            NoRepeats(Ids(kept)) && forall i | 0 <= i < |kept| :: kept[i].eventId !in seen
    decreases |batch|
  {
    if batch != [] {
      if batch[0].eventId in seen {
        FreshIsNew(seen, batch[1..]);
      } else {
        var seen' := seen + [batch[0].eventId];
        FreshIsNew(seen', batch[1..]);
        var rest := Fresh(seen', batch[1..]);
        var kept := [batch[0]] + rest;
        forall i | 0 <= i < |kept| ensures kept[i].eventId !in seen {
          if i > 0 {
            assert kept[i] == rest[i - 1];
          }
        }
        forall i, j | 0 <= i < j < |kept| ensures Ids(kept)[i] != Ids(kept)[j] {
          assert kept[j] == rest[j - 1];
          if i > 0 {
            assert kept[i] == rest[i - 1];
            assert Ids(rest)[i - 1] != Ids(rest)[j - 1];
          } else {
            assert rest[j - 1].eventId !in seen';
          }
        }
      }
    }
  }

  /** Every event of the batch whose id was not seen before gets logged (the
      first time its id comes up). */
  lemma {:induction false} FreshIsComplete(seen: seq<string>, batch: seq<StackEvent>)
    ensures forall e | e in batch && e.eventId !in seen :: e.eventId in Ids(Fresh(seen, batch))
    decreases |batch|
  {
    if batch != [] {
      var kept := Fresh(seen, batch);
      if batch[0].eventId in seen {
        FreshIsComplete(seen, batch[1..]);
        forall e | e in batch && e.eventId !in seen ensures e.eventId in Ids(kept) {
          assert e in batch[1..];
        }
      } else {
        var seen' := seen + [batch[0].eventId];
        FreshIsComplete(seen', batch[1..]);
        var rest := Fresh(seen', batch[1..]);
        assert Ids(kept) == [batch[0].eventId] + Ids(rest);
        forall e | e in batch && e.eventId !in seen ensures e.eventId in Ids(kept) {
          if e.eventId != batch[0].eventId {
            assert e in batch[1..];
            assert e.eventId !in seen';
          }
        }
      }
    }
  }

  /** The logged events keep the order of the batch. */
  lemma {:induction false} FreshKeepsOrder(seen: seq<string>, batch: seq<StackEvent>)
    ensures SubsequenceOf(Fresh(seen, batch), batch)
    decreases |batch|
  {
    if batch != [] {
      if batch[0].eventId in seen {
        FreshKeepsOrder(seen, batch[1..]);
      } else {
        FreshKeepsOrder(seen + [batch[0].eventId], batch[1..]);
      }
    }
  }

  /** Two runs of new events, the second new also with respect to the first,
      make one run of new events. */
  lemma NewAfterNew(seen: seq<string>, first: seq<StackEvent>, second: seq<StackEvent>)
    requires NoRepeats(Ids(first)) && forall i | 0 <= i < |first| :: first[i].eventId !in seen
    requires NoRepeats(Ids(second)) &&
             forall i | 0 <= i < |second| :: second[i].eventId !in seen + Ids(first)
    ensures var both := first + second;
            NoRepeats(Ids(both)) && forall i | 0 <= i < |both| :: both[i].eventId !in seen
  {
    var both := first + second;
    forall i, j | 0 <= i < j < |both| ensures Ids(both)[i] != Ids(both)[j] {
      if j < |first| {
        assert Ids(first)[i] != Ids(first)[j];
      } else if i < |first| {
        assert second[j - |first|].eventId !in seen + Ids(first);
        assert Ids(first)[i] in seen + Ids(first);
      } else {
        assert Ids(second)[i - |first|] != Ids(second)[j - |first|];
      }
    }
    forall i | 0 <= i < |both| ensures both[i].eventId !in seen {
      if i >= |first| {
        assert both[i] == second[i - |first|];
        assert second[i - |first|].eventId !in seen + Ids(first);
      }
    }
  }

  /** Logs the not-yet-seen events of `batch` one by one, appending each
      logged id to the list; returns the grown list. */
  method LogNewEvents(client: Client, seen: seq<string>, batch: seq<StackEvent>) returns (ids: seq<string>)
    modifies client
    ensures ids == seen + Ids(Fresh(seen, batch))
    ensures client.State() == old(client.State()).StepLog(Fresh(seen, batch))
  {
    ids := seen;
    ghost var emitted: seq<StackEvent> := [];
    var i := 0;
    while i < |batch|
      invariant 0 <= i <= |batch|
      invariant ids == seen + Ids(emitted)
      invariant Fresh(seen, batch) == emitted + Fresh(ids, batch[i..])
      invariant client.State() == old(client.State()).StepLog(emitted)
    {
      var event := batch[i];
      assert batch[i..][1..] == batch[i + 1..];
      if event.eventId !in ids {
        client.LogEvent(event);
        assert Ids(emitted + [event]) == Ids(emitted) + [event.eventId];
        assert old(client.State()).logged + emitted + [event] == old(client.State()).logged + (emitted + [event]);
        ids := ids + [event.eventId];
        emitted := emitted + [event];
      }
      i := i + 1;
    }
  }
}
