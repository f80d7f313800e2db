/** The monitor as the external scheduler drives it: any sequence of ticks and
    completion queries, in any order. What the scheduler does with a failure is
    its own policy; a run here simply carries on with the next event. */
module PollingRun {
  import opened Wrappers
  import opened Instances
  import opened CheckInstancesDeployed
  import opened TickProperties

  /** A scheduler event: a tick against the repository as it answers at that
      moment, or a completion query. */
  datatype Event = Execute(repo: Repository) | Query

  function Step(s: TaskState, e: Event): TaskState
  {
    match e
    case Execute(repo) => Tick(s, repo).1
    case Query => Poll(s).1
  }

  function Run(s: TaskState, events: seq<Event>): TaskState
    decreases |events|
  {
    if events == [] then s else Run(Step(s, events[0]), events[1..])
  }

  /** The number of confirming ticks in a run. */
  function Confirmations(s: TaskState, events: seq<Event>): nat
    decreases |events|
  {
    if events == [] then 0
    else
      var here := if events[0].Execute? && Confirms(s, events[0].repo) then 1 else 0;
      here + Confirmations(Step(s, events[0]), events[1..])
  }

  /** Across any run the instance list is kept, the completion flag is sticky and
      the counter counts exactly the confirming ticks (so it never decreases). */
  lemma {:induction false} RunCountsConfirmations(s: TaskState, events: seq<Event>)
    ensures Run(s, events).instances == s.instances
    ensures s.done ==> Run(s, events).done
    ensures Run(s, events).okCounter == s.okCounter + Confirmations(s, events)
    decreases |events|
  {
    if events != [] {
      match events[0] {
        case Execute(repo) =>
          CounterStep(s, repo);
          TickKeepsInstancesAndFlag(s, repo);
        case Query =>
          PollLatches(s);
      }
      RunCountsConfirmations(Step(s, events[0]), events[1..]);
    }
  }

  /** The flag is set only together with what latched it: a stored batch that is
      non-empty and all DONE, and the counter at the threshold. */
  predicate Consistent(s: TaskState)
  {
    s.done ==> s.result.Some? && s.result.value != [] && AllDone(s.result.value)
               && s.okCounter == ALL_INSTANCES_DONE_REQUIRED_TIMES
  }

  /** Every state reachable from a consistent one is consistent. */
  lemma {:induction false} RunStaysConsistent(s: TaskState, events: seq<Event>)
    requires Consistent(s)
    ensures Consistent(Run(s, events))
    decreases |events|
  {
    if events != [] {
      match events[0] {
        case Execute(repo) =>
          TickKeepsInstancesAndFlag(s, repo);
          if s.done {
            SettledIsNoop(s, repo);
          }
        case Query =>
          PollLatches(s);
      }
      RunStaysConsistent(Step(s, events[0]), events[1..]);
    }
  }

  /** From a fresh monitor, settling takes exactly two confirming ticks. */
  lemma SettlingNeedsTwoConfirmations(instances: seq<Instance>, events: seq<Event>)
    requires Run(Initial(instances), events).done
    ensures Confirmations(Initial(instances), events) == ALL_INSTANCES_DONE_REQUIRED_TIMES
  {
    RunStaysConsistent(Initial(instances), events);
    RunCountsConfirmations(Initial(instances), events);
  }

  /** A settled, consistent monitor is left exactly as it is by any run. */
  lemma {:induction false} SettledRunIsFixed(s: TaskState, events: seq<Event>)
    requires s.done && Consistent(s)
    ensures Run(s, events) == s
    decreases |events|
  {
    if events != [] {
      match events[0] {
        case Execute(repo) =>
          SettledIsNoop(s, repo);
        case Query =>
          PollLatches(s);
      }
      SettledRunIsFixed(Step(s, events[0]), events[1..]);
    }
  }

  /** Once the completion query answers true in a run from a fresh monitor, it
      answers true after any later events. */
  lemma AnswerStaysTrue(instances: seq<Instance>, pre: seq<Event>, post: seq<Event>)
    requires Poll(Run(Initial(instances), pre)).0
    ensures Poll(Run(Poll(Run(Initial(instances), pre)).1, post)).0
  {
    var s := Run(Initial(instances), pre);
    RunStaysConsistent(Initial(instances), pre);
    PollLatches(s);
    SettledRunIsFixed(Poll(s).1, post);
  }

  /** Because the threshold is compared with equality, a monitor whose counter
      went past it without a successful query never settles. */
  lemma {:induction false} NeverSettlesPastThreshold(s: TaskState, events: seq<Event>)
    requires !s.done && s.okCounter > ALL_INSTANCES_DONE_REQUIRED_TIMES
    ensures !Run(s, events).done
    decreases |events|
  {
    if events != [] {
      match events[0] {
        case Execute(repo) =>
          CounterStep(s, repo);
          TickKeepsInstancesAndFlag(s, repo);
        case Query =>
          PollPastThreshold(s);
      }
      NeverSettlesPastThreshold(Step(s, events[0]), events[1..]);
    }
  }

  /** The repository answering the same list whatever ids it is asked for. */
  function Answering(batch: seq<Instance>): Repository
  {
    ids => Fetched(Some(batch))
  }

  /** Instances A and B: a tick seeing A DONE and B PROCESSING, then two ticks
      seeing both DONE, each followed by a query. The queries answer false, false
      and true; the counter ends at 2. */
  lemma TwoInstanceScenario()
    ensures var s0 := Initial([Instance("A", PROCESSING), Instance("B", PROCESSING)]);
      var t1 := Answering([Instance("A", DONE), Instance("B", PROCESSING)]);
      var t2 := Answering([Instance("A", DONE), Instance("B", DONE)]);
      var s1 := Tick(s0, t1).1;
      var s2 := Tick(Poll(s1).1, t2).1;
      var s3 := Tick(Poll(s2).1, t2).1;
      !Poll(s1).0 && s1.okCounter == 0
      && !Poll(s2).0 && s2.okCounter == 1
      && Poll(s3).0 && s3.okCounter == 2
  {
    var both := [Instance("A", DONE), Instance("B", DONE)];
    var mixed := [Instance("A", DONE), Instance("B", PROCESSING)];
    assert mixed[1].state == PROCESSING;
    assert !HasUnavailable(both) && !HasProcessing(both) && AllDone(both);
    assert !HasUnavailable(mixed);
  }

  /** The counter is never reset: all-DONE, PROCESSING, all-DONE ticks, each
      followed by a query, settle on the third tick, so the two confirmations
      need not be consecutive. */
  lemma NonConsecutiveConfirmationsSettle()
    ensures var s0 := Initial([Instance("A", PROCESSING)]);
      var s1 := Poll(Tick(s0, Answering([Instance("A", DONE)])).1);
      var s2 := Poll(Tick(s1.1, Answering([Instance("A", PROCESSING)])).1);
      var s3 := Poll(Tick(s2.1, Answering([Instance("A", DONE)])).1);
      !s1.0 && !s2.0 && s3.0
  {
    var waiting := [Instance("A", PROCESSING)];
    assert waiting[0].state == PROCESSING;
  }

  /** Instance A reports UNAVAILABLE on the first tick: the tick fails naming A and
      the query answers false. */
  lemma UnavailableScenario()
    ensures var s0 := Initial([Instance("A", PROCESSING)]);
      var t := Tick(s0, Answering([Instance("A", UNAVAILABLE)]));
      t.0 == Fail(InstanceUnavailable("A")) && !Poll(t.1).0
  {
    var batch := [Instance("A", UNAVAILABLE)];
    assert batch[0].state == UNAVAILABLE;
  }

  /** The repository answering an empty list on the first tick: the tick fails with
      the no-result failure. */
  lemma EmptyResultScenario()
    ensures Tick(Initial([Instance("A", PROCESSING), Instance("B", PROCESSING)]), Answering([])).0
      == Fail(NoResult)
  {
  }
}
