/** The stability-gated polling monitor that waits until every instance a deployment
    created reports `DONE` on two ticks. `Tick` and `Poll` say, on values, what one
    call of `performExecute` and of `isDone` does; the class below runs the Java
    code's loops and is proved equal to them. */
module CheckInstancesDeployed {
  import opened Wrappers
  import opened Instances

  /** Number of all-done ticks after which the completion flag latches. */
  const ALL_INSTANCES_DONE_REQUIRED_TIMES: nat := 2

  /** The exceptions a tick raises. */
  datatype TaskFailure =
    | RepositoryFailure                   // the repository lookup threw
    | NoResult                            // the repository returned null or an empty list
    | InstanceUnavailable(id: string)     // the named instance reported UNAVAILABLE

  /** What the repository lookup does for a list of ids: throw, or return a list
      that may be null. */
  datatype Fetch = RepositoryError | Fetched(batch: Option<seq<Instance>>)

  /** The repository lookup, for a fixed owner, as a function of the ids asked for. */
  type Repository = seq<string> -> Fetch

  /** The monitor's mutable state: the monitored instances, the completion flag,
      the stability counter and the last stored repository result. */
  datatype TaskState = TaskState(
    instances: seq<Instance>,
    done: bool,
    okCounter: nat,
    result: Option<seq<Instance>>)

  /** A freshly constructed monitor. */
  function Initial(instances: seq<Instance>): TaskState
  {
    TaskState(instances, false, 0, None)
  }

  /** Does a successful, non-empty batch count as an all-done observation?
      The scan only clears its flag on PROCESSING (and throws on UNAVAILABLE). */
  predicate Counts(batch: seq<Instance>)
  {
    batch != [] && !HasUnavailable(batch) && !HasProcessing(batch)
  }

  /** One call of `performExecute`: the outcome and the new state. */
  function Tick(s: TaskState, repo: Repository): (Outcome<TaskFailure>, TaskState)
  {
    if s.instances == [] || s.done then (Pass, s)
    else
      match repo(IdsOf(s.instances))
      case RepositoryError => (Fail(RepositoryFailure), s)
      case Fetched(None) => (Fail(NoResult), s.(result := None))
      case Fetched(Some(batch)) =>
        var stored := s.(result := Some(batch));
        if batch == [] then (Fail(NoResult), stored)
        else if HasUnavailable(batch) then
          (Fail(InstanceUnavailable(batch[FirstUnavailable(batch)].id)), stored)
        else if Counts(batch) then (Pass, stored.(okCounter := s.okCounter + 1))
        else (Pass, stored)
  }

  /** One call of `isDone`: the answer and the new state. */
  function Poll(s: TaskState): (bool, TaskState)
  {
    match s.result
    case None => (s.done, s)
    case Some(batch) =>
      if batch == [] then (s.done, s)
      else if !AllDone(batch) then (false, s)
      else if s.okCounter == ALL_INSTANCES_DONE_REQUIRED_TIMES then (true, s.(done := true))
      else (s.done, s)
  }

  class CheckInstancesDeployedTask {
    var done: bool
    var okCounter: nat
    var instances: seq<Instance>
    var result: Option<seq<Instance>>

    /** The fields as one value. */
    function State(): TaskState
      reads this
    {
      TaskState(instances, done, okCounter, result)
    }

    constructor (instances: seq<Instance>)
      ensures State() == Initial(instances)
    {
      this.done := false;
      this.okCounter := 0;
      this.instances := instances;
      this.result := None;
    }

    method GetInstances() returns (list: seq<Instance>)
      ensures list == instances
    {
      list := instances;
    }

    method SetInstances(list: seq<Instance>)
      modifies this`instances
      ensures State() == old(State()).(instances := list)
    {
      instances := list;
    }

    /** One scheduler tick. */
    method PerformExecute(repo: Repository) returns (outcome: Outcome<TaskFailure>)
      modifies this
      ensures (outcome, State()) == Tick(old(State()), repo)
    {
      if |instances| == 0 {
        return Pass;
      }
      if done {
        return Pass;
      }
      var ids := new string[|instances|];
      var instanceCounter := 0;
      while instanceCounter < |instances|
        modifies ids
        invariant 0 <= instanceCounter <= |instances|
        invariant forall k :: 0 <= k < instanceCounter ==> ids[k] == instances[k].id
      {
        ids[instanceCounter] := instances[instanceCounter].id;
        instanceCounter := instanceCounter + 1;
      }
      assert ids[..] == IdsOf(instances);
      var fetched := repo(ids[..]);
      match fetched {
        case RepositoryError =>
          return Fail(RepositoryFailure);
        case Fetched(r) =>
          result := r;
          if r.None? || r.value == [] {
            return Fail(NoResult);
          }
          var batch := r.value;
          var allInstancesDone := true;
          var i := 0;
          while i < |batch|
            invariant 0 <= i <= |batch|
            invariant forall j :: 0 <= j < i ==> batch[j].state != UNAVAILABLE
            invariant allInstancesDone <==> forall j :: 0 <= j < i ==> batch[j].state != PROCESSING
          {
            match batch[i].state {
              case PROCESSING =>
                allInstancesDone := false;
              case DONE =>
              case UNAVAILABLE =>
                allInstancesDone := false;
                assert FirstUnavailable(batch) == i;
                return Fail(InstanceUnavailable(batch[i].id));
              case Other =>
            }
            i := i + 1;
          }
          if allInstancesDone {
            okCounter := okCounter + 1;
          }
          return Pass;
      }
    }

    /** The completion predicate. */
    method IsDone() returns (answer: bool)
      modifies this`done
      ensures (answer, State()) == Poll(old(State()))
    {
      var last := result;
      if last.Some? && last.value != [] {
        var i := 0;
        while i < |last.value|
          invariant 0 <= i <= |last.value|
          invariant forall j :: 0 <= j < i ==> last.value[j].state == DONE
        {
          if last.value[i].state != DONE {
            return false;
          }
          i := i + 1;
        }
        if okCounter == ALL_INSTANCES_DONE_REQUIRED_TIMES {
          done := true;
        }
      }
      return done;
    }
  }
}
