/** `Stack.wait`: poll the stack's status until it leaves the in-progress set,
    logging the stack events that appear meanwhile.  The three copies of the
    loop differ only in the pause (a stack's `wait_delay`, or a fixed 5) and in
    where the pause sits: before fetching events (both cfn_sync copies) or
    after refreshing the status (cfn_deploy). */
module Polling {
  import opened Base
  import opened Remote
  import opened Events

  /** How a wait ended, the client afterwards, and how many loop iterations
      ran to completion. */
  datatype WaitRun = WaitRun(outcome: Outcome, after: Remote, rounds: nat)

  /** `reversed(events[:1])`: at most the newest event of the first page. */
  function Newest(events: seq<StackEvent>): (r: seq<StackEvent>)
    ensures |r| <= 1 && r <= events && (r == [] <==> events == [])
  {
    if events == [] then [] else [events[0]]
  }

  /** The remote calls and the pause of one loop iteration. */
  function Iteration(ident: string, delay: int, sleepFirst: bool): seq<Call>
  {
    if sleepFirst then [Sleep(delay), DescribeStackEvents(ident), DescribeStacks(ident)]
    else [DescribeStackEvents(ident), DescribeStacks(ident), Sleep(delay)]
  }

  function Repeat(block: seq<Call>, n: nat): seq<Call>
  {
    if n == 0 then [] else block + Repeat(block, n - 1)
  }

  /** A call the loop may make. */
  predicate PollCall(c: Call, ident: string, delay: int)
  {
    c == DescribeStacks(ident) || c == DescribeStackEvents(ident) || c == Sleep(delay)
  }

  /** The status the loop tests at its check number `i`: the one fetched before
      the loop for i = 0, otherwise the one fetched in iteration i. */
  function Checked(status: string, replies: seq<Result<Description>>, i: nat): string
    requires i <= |replies| && forall j | 0 <= j < i :: replies[j].Ok?
  {
    if i == 0 then status else replies[i - 1].value.stackStatus
  }

  /** One iteration of the loop body: either a call failed (and the client is
      left as it was then), or the new events were logged and a new status
      was fetched. */
  datatype Round =
    | Stopped(failure: Failure, after: Remote)
    | Finished(after: Remote, kept: seq<StackEvent>, status: string)

  /** The body of the loop: pause (cfn_sync), fetch the events, log those not
      seen yet in reverse fetch order, refresh the status, pause (cfn_deploy). */
  function PollRound(s: Remote, ident: string, delay: int, sleepFirst: bool, seen: seq<string>): (r: Round)
    ensures r.Finished? ==>
              |s.describes| > 0 && s.describes[0].Ok? && r.status == s.describes[0].value.stackStatus &&
              r.after.describes == s.describes[1..] &&
              r.after.trace == s.trace + Iteration(ident, delay, sleepFirst) &&
              |s.eventPages| > 0 && s.eventPages[0].Ok? &&
              r.kept == Fresh(seen, Reverse(s.eventPages[0].value)) &&
              r.after.logged == s.logged + r.kept
    ensures r.Stopped? ==>
              s.trace <= r.after.trace &&
              (forall i | |s.trace| <= i < |r.after.trace| :: PollCall(r.after.trace[i], ident, delay)) &&
              (r.after.logged == s.logged ||
               (|s.eventPages| > 0 && s.eventPages[0].Ok? &&
                r.after.logged == s.logged + Fresh(seen, Reverse(s.eventPages[0].value))))
  {
    var s1 := if sleepFirst then s.StepSleep(delay) else s;
    var page := s1.StepDescribeStackEvents(ident);
    if page.0.Err? then Stopped(page.0.failure, page.1)
    else
      var kept := Fresh(seen, Reverse(page.0.value));
      var described := page.1.StepLog(kept).StepDescribeStacks(ident);
      if described.0.Err? then Stopped(described.0.failure, described.1)
      else
        var s2 := if sleepFirst then described.1 else described.1.StepSleep(delay);
        Finished(s2, kept, described.0.value.stackStatus)
  }

  /** The `while stack_status in IN_PROGRESS_STACK_STATUSES` loop, entered with
      the list of seen event ids and the current status. */
  function PollSpec(s: Remote, ident: string, delay: int, sleepFirst: bool, inProgress: set<string>,
                    seen: seq<string>, status: string): WaitRun
    decreases |s.describes|
  {
    if status !in inProgress then WaitRun(Pass, s, 0)
    else
      match PollRound(s, ident, delay, sleepFirst, seen)
      case Stopped(failure, after) => WaitRun(Fail(failure), after, 0)
      case Finished(after, kept, next) =>
        var run := PollSpec(after, ident, delay, sleepFirst, inProgress, seen + Ids(kept), next);
        run.(rounds := run.rounds + 1)
  }

  /** What `wait` does before the loop. */
  datatype Start =
    | StartFailed(failure: Failure, after: Remote)
    | Started(after: Remote, seen: seq<string>, status: string)

  /** Read the status, fetch the first page of events, remember all of its ids
      and log at most its newest event. */
  function WaitStart(s: Remote, ident: string): (r: Start)
    ensures r.Started? ==>
              |s.describes| > 0 && s.describes[0].Ok? && r.status == s.describes[0].value.stackStatus &&
              |s.eventPages| > 0 && s.eventPages[0].Ok? && r.seen == Ids(s.eventPages[0].value) &&
              r.after.describes == s.describes[1..] &&
              r.after.trace == s.trace + [DescribeStacks(ident), DescribeStackEvents(ident)] &&
              r.after.logged == s.logged + Newest(s.eventPages[0].value)
    ensures r.StartFailed? ==>
              r.after.logged == s.logged &&
              (r.after.trace == s.trace + [DescribeStacks(ident)] ||
               r.after.trace == s.trace + [DescribeStacks(ident), DescribeStackEvents(ident)])
  {
    var described := s.StepDescribeStacks(ident);
    if described.0.Err? then StartFailed(described.0.failure, described.1)
    else
      var page := described.1.StepDescribeStackEvents(ident);
      if page.0.Err? then StartFailed(page.0.failure, page.1)
      else Started(page.1.StepLog(Newest(page.0.value)), Ids(page.0.value), described.0.value.stackStatus)
  }

  /** `wait` */
  function WaitSpec(s: Remote, ident: string, delay: int, sleepFirst: bool, inProgress: set<string>): WaitRun
  {
    match WaitStart(s, ident)
    case StartFailed(failure, after) => WaitRun(Fail(failure), after, 0)
    case Started(after, seen, status) => PollSpec(after, ident, delay, sleepFirst, inProgress, seen, status)
  }

  /** A loop that ends normally has tested a status outside the in-progress set
      at its last check and statuses inside it at every earlier one, each
      fetched by a describe that succeeded. */
  lemma {:induction false} PollShape(s: Remote, ident: string, delay: int, sleepFirst: bool,
                                     inProgress: set<string>, seen: seq<string>, status: string)
    ensures var run := PollSpec(s, ident, delay, sleepFirst, inProgress, seen, status);
            run.outcome.Pass? ==>
              run.rounds <= |s.describes| &&
              (forall i | 0 <= i < run.rounds :: s.describes[i].Ok?) &&
              (forall i | 0 <= i < run.rounds :: Checked(status, s.describes, i) in inProgress) &&
              Checked(status, s.describes, run.rounds) !in inProgress
    decreases |s.describes|
  {
    var run := PollSpec(s, ident, delay, sleepFirst, inProgress, seen, status);
    if status in inProgress && run.outcome.Pass? {
      var round := PollRound(s, ident, delay, sleepFirst, seen);
      var next := round.status;
      var seen' := seen + Ids(round.kept);
      PollShape(round.after, ident, delay, sleepFirst, inProgress, seen', next);
      forall i | 0 < i <= run.rounds
        ensures s.describes[i - 1].Ok? && Checked(status, s.describes, i) == Checked(next, s.describes[1..], i - 1)
      {
      }
    }
  }

  /** Each iteration of a loop that ends normally consumed one status and made
      exactly the calls and the single pause of `Iteration`. */
  lemma {:induction false} PollTrace(s: Remote, ident: string, delay: int, sleepFirst: bool,
                                     inProgress: set<string>, seen: seq<string>, status: string)
    ensures var run := PollSpec(s, ident, delay, sleepFirst, inProgress, seen, status);
            run.outcome.Pass? ==>
              run.rounds <= |s.describes| &&
              run.after.describes == s.describes[run.rounds..] &&
              run.after.trace == s.trace + Repeat(Iteration(ident, delay, sleepFirst), run.rounds)
    decreases |s.describes|
  {
    var run := PollSpec(s, ident, delay, sleepFirst, inProgress, seen, status);
    if status in inProgress && run.outcome.Pass? {
      var round := PollRound(s, ident, delay, sleepFirst, seen);
      var rest := PollSpec(round.after, ident, delay, sleepFirst, inProgress, seen + Ids(round.kept), round.status);
      PollTrace(round.after, ident, delay, sleepFirst, inProgress, seen + Ids(round.kept), round.status);
      var block := Iteration(ident, delay, sleepFirst);
      assert run.after == rest.after && run.rounds == rest.rounds + 1;
      assert s.describes[run.rounds..] == s.describes[1..][rest.rounds..];
      assert s.trace + Repeat(block, run.rounds) == (s.trace + block) + Repeat(block, rest.rounds);
    }
  }

  /** Whatever the outcome, the loop only ever appends to the log, and what it
      appends has no repeated id and no id that was seen on entry. */
  lemma {:induction false} PollLogs(s: Remote, ident: string, delay: int, sleepFirst: bool,
                                    inProgress: set<string>, seen: seq<string>, status: string)
    ensures var after := PollSpec(s, ident, delay, sleepFirst, inProgress, seen, status).after;
            s.logged <= after.logged &&
            var added := after.logged[|s.logged|..];
            NoRepeats(Ids(added)) && forall i | 0 <= i < |added| :: added[i].eventId !in seen
    decreases |s.describes|
  {
    var after := PollSpec(s, ident, delay, sleepFirst, inProgress, seen, status).after;
    if status in inProgress {
      var round := PollRound(s, ident, delay, sleepFirst, seen);
      if round.Finished? {
        var kept := round.kept;
        FreshIsNew(seen, Reverse(s.eventPages[0].value));
        var s2 := round.after;
        PollLogs(s2, ident, delay, sleepFirst, inProgress, seen + Ids(kept), round.status);
        var later := after.logged[|s2.logged|..];
        SplitAfter(s.logged, kept, after.logged);
        NewAfterNew(seen, kept, later);
      } else if after.logged != s.logged {
        FreshIsNew(seen, Reverse(s.eventPages[0].value));
        SplitAfter(s.logged, Fresh(seen, Reverse(s.eventPages[0].value)), after.logged);
      }
    }
  }

  /** What follows `front` in `whole` starts with `middle` when `whole` starts
      with `front + middle`. */
  lemma SplitAfter<T>(front: seq<T>, middle: seq<T>, whole: seq<T>)
    requires front + middle <= whole
    ensures whole[|front|..] == middle + whole[|front + middle|..]
  {
  }

  /** The loop addresses the stack only by `ident` and pauses only for `delay`. */
  lemma {:induction false} PollCalls(s: Remote, ident: string, delay: int, sleepFirst: bool,
                                     inProgress: set<string>, seen: seq<string>, status: string)
    ensures var after := PollSpec(s, ident, delay, sleepFirst, inProgress, seen, status).after;
            s.trace <= after.trace &&
            forall i | |s.trace| <= i < |after.trace| :: PollCall(after.trace[i], ident, delay)
    decreases |s.describes|
  {
    var after := PollSpec(s, ident, delay, sleepFirst, inProgress, seen, status).after;
    if status in inProgress {
      var round := PollRound(s, ident, delay, sleepFirst, seen);
      if round.Finished? {
        var s2 := round.after;
        PollCalls(s2, ident, delay, sleepFirst, inProgress, seen + Ids(round.kept), round.status);
        forall i | |s.trace| <= i < |after.trace| ensures PollCall(after.trace[i], ident, delay) {
          if i < |s2.trace| {
            assert after.trace[i] == Iteration(ident, delay, sleepFirst)[i - |s.trace|];
          }
        }
      }
    }
  }

  /** A wait that ends normally: the first status and the first page were
      fetched, then `rounds` iterations each tested an in-progress status, and
      the last status fetched is outside the in-progress set.  The calls are
      the two initial fetches followed by one `Iteration` per round, so the
      wait pauses exactly `rounds` times and not at all when the first status
      already settled. */
  lemma WaitShape(s: Remote, ident: string, delay: int, sleepFirst: bool, inProgress: set<string>)
    ensures var run := WaitSpec(s, ident, delay, sleepFirst, inProgress);
            run.outcome.Pass? ==>
              run.rounds < |s.describes| &&
              (forall i | 0 <= i <= run.rounds :: s.describes[i].Ok?) &&
              (forall i | 0 <= i < run.rounds :: s.describes[i].value.stackStatus in inProgress) &&
              s.describes[run.rounds].value.stackStatus !in inProgress &&
              |s.eventPages| > 0 && s.eventPages[0].Ok? &&
              run.after.describes == s.describes[run.rounds + 1..] &&
              run.after.trace == s.trace + [DescribeStacks(ident), DescribeStackEvents(ident)]
                                 + Repeat(Iteration(ident, delay, sleepFirst), run.rounds)
  {
    var run := WaitSpec(s, ident, delay, sleepFirst, inProgress);
    var start := WaitStart(s, ident);
    if start.Started? {
      var s1, status := start.after, start.status;
      PollShape(s1, ident, delay, sleepFirst, inProgress, start.seen, status);
      PollTrace(s1, ident, delay, sleepFirst, inProgress, start.seen, status);
      if run.outcome.Pass? {
        forall i | 0 <= i <= run.rounds ensures s.describes[i].Ok? {
          if i > 0 {
            assert s.describes[i] == s1.describes[i - 1];
          }
        }
        forall i | 0 <= i < run.rounds ensures s.describes[i].value.stackStatus in inProgress {
          assert s.describes[i].value.stackStatus == Checked(status, s1.describes, i);
        }
        assert s.describes[run.rounds].value.stackStatus == Checked(status, s1.describes, run.rounds);
        assert s.describes[run.rounds + 1..] == s1.describes[run.rounds..];
      }
    }
  }

  /** A wait logs at most the newest event of the first page, then only events
      whose ids were not on that page, none of them twice. */
  lemma WaitLogs(s: Remote, ident: string, delay: int, sleepFirst: bool, inProgress: set<string>)
    requires |s.describes| > 0 && s.describes[0].Ok?
    requires |s.eventPages| > 0 && s.eventPages[0].Ok?
    ensures var after := WaitSpec(s, ident, delay, sleepFirst, inProgress).after;
            var first := s.eventPages[0].value;
            var lead := s.logged + Newest(first);
            lead <= after.logged &&
            var added := after.logged[|lead|..];
            NoRepeats(Ids(added)) && forall i | 0 <= i < |added| :: added[i].eventId !in Ids(first)
  {
    var start := WaitStart(s, ident);
    PollLogs(start.after, ident, delay, sleepFirst, inProgress, start.seen, start.status);
  }

  /** A wait, however it ends, addresses the stack only by `ident` and pauses
      only for `delay`. */
  lemma WaitCalls(s: Remote, ident: string, delay: int, sleepFirst: bool, inProgress: set<string>)
    ensures var after := WaitSpec(s, ident, delay, sleepFirst, inProgress).after;
            s.trace <= after.trace &&
            forall i | |s.trace| <= i < |after.trace| :: PollCall(after.trace[i], ident, delay)
  {
    var start := WaitStart(s, ident);
    if start.Started? {
      var after := WaitSpec(s, ident, delay, sleepFirst, inProgress).after;
      PollCalls(start.after, ident, delay, sleepFirst, inProgress, start.seen, start.status);
      forall i | |s.trace| <= i < |after.trace| ensures PollCall(after.trace[i], ident, delay) {
        if i < |start.after.trace| {
          assert after.trace[i] == start.after.trace[i];
        }
      }
    }
  }

  /** The loop itself, shared by the three `Stack.wait` methods. */
  method RunWait(client: Client, ident: string, delay: int, sleepFirst: bool, inProgress: set<string>)
    returns (outcome: Outcome)
    modifies client
    ensures var run := WaitSpec(old(client.State()), ident, delay, sleepFirst, inProgress);
            outcome == run.outcome && client.State() == run.after
  {
    ghost var run := WaitSpec(client.State(), ident, delay, sleepFirst, inProgress);
    var described := client.DescribeStacks(ident);
    if described.Err? {
      return Fail(described.failure);
    }
    var status := described.value.stackStatus;
    var page := client.DescribeStackEvents(ident);
    if page.Err? {
      return Fail(page.failure);
    }
    var events := page.value;
    var eventIds := Ids(events);
    if events != [] {
      client.LogEvent(events[0]);
    } else {
      assert client.logged + Newest(events) == client.logged;
    }
    while status in inProgress
      invariant var rest := PollSpec(client.State(), ident, delay, sleepFirst, inProgress, eventIds, status);
                rest.outcome == run.outcome && rest.after == run.after
      decreases |client.describes|
    {
      if sleepFirst {
        client.Sleep(delay);
      }
      page := client.DescribeStackEvents(ident);
      if page.Err? {
        return Fail(page.failure);
      }
      eventIds := LogNewEvents(client, eventIds, Reverse(page.value));
      described := client.DescribeStacks(ident);
      if described.Err? {
        return Fail(described.failure);
      }
      status := described.value.stackStatus;
      if !sleepFirst {
        client.Sleep(delay);
      }
    }
    return Pass;
  }
}
