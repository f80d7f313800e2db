/** What one tick and one query of the monitor guarantee, stated over `Tick` and `Poll`. */
module TickProperties {
  import opened Wrappers
  import opened Instances
  import opened CheckInstancesDeployed

  /** The tick reaches the repository: there are instances to check and the
      monitor has not settled. */
  predicate Active(s: TaskState)
  {
    s.instances != [] && !s.done
  }

  /** The tick is a confirmation: it reaches the repository, gets a batch back,
      and that batch counts as all-done. */
  predicate Confirms(s: TaskState, repo: Repository)
  {
    Active(s) && repo(IdsOf(s.instances)).Fetched? && repo(IdsOf(s.instances)).batch.Some?
    && Counts(repo(IdsOf(s.instances)).batch.value)
  }

  /** An empty instance list makes the tick do nothing, without failing. */
  lemma EmptyInstancesIsNoop(s: TaskState, repo: Repository)
    requires s.instances == []
    ensures Tick(s, repo) == (Pass, s)
  {
  }

  /** Once settled, a tick does nothing, without failing. */
  lemma SettledIsNoop(s: TaskState, repo: Repository)
    requires s.done
    ensures Tick(s, repo) == (Pass, s)
  {
  }

  /** A tick never touches the instance list or the completion flag. */
  lemma TickKeepsInstancesAndFlag(s: TaskState, repo: Repository)
    ensures Tick(s, repo).1.instances == s.instances
    ensures Tick(s, repo).1.done == s.done
  {
  }

  /** A repository error is raised as a task failure and changes nothing. */
  lemma RepositoryErrorFails(s: TaskState, repo: Repository)
    requires Active(s) && repo(IdsOf(s.instances)) == RepositoryError
    ensures Tick(s, repo) == (Fail(RepositoryFailure), s)
  {
  }

  /** A null or empty result is raised as a task failure; it replaces the stored
      result but leaves the counter alone. */
  lemma NoResultFails(s: TaskState, repo: Repository)
    requires Active(s)
    requires repo(IdsOf(s.instances)) == Fetched(None) || repo(IdsOf(s.instances)) == Fetched(Some([]))
    ensures Tick(s, repo).0 == Fail(NoResult)
    ensures Tick(s, repo).1 == s.(result := repo(IdsOf(s.instances)).batch)
  {
  }

  /** An UNAVAILABLE instance is raised as a task failure naming the first such
      instance of the batch; the batch is stored and the counter is unchanged. */
  lemma UnavailableFails(s: TaskState, repo: Repository, batch: seq<Instance>)
    requires Active(s) && repo(IdsOf(s.instances)) == Fetched(Some(batch))
    requires HasUnavailable(batch)
    ensures exists k :: (0 <= k < |batch| && batch[k].state == UNAVAILABLE
      && (forall j :: 0 <= j < k ==> batch[j].state != UNAVAILABLE)
      && Tick(s, repo).0 == Fail(InstanceUnavailable(batch[k].id)))
    ensures Tick(s, repo).1 == s.(result := Some(batch))
  {
    var k := FirstUnavailable(batch);
    assert Tick(s, repo).0 == Fail(InstanceUnavailable(batch[k].id));
  }

  /** A failing tick never moves the counter. */
  lemma FailureKeepsCounter(s: TaskState, repo: Repository)
    requires Tick(s, repo).0.Fail?
    ensures Tick(s, repo).1.okCounter == s.okCounter
  {
  }

  /** The counter goes up by exactly one on a confirming tick and stays put on
      every other tick; a confirming tick returns normally. */
  lemma CounterStep(s: TaskState, repo: Repository)
    ensures Tick(s, repo).1.okCounter == if Confirms(s, repo) then s.okCounter + 1 else s.okCounter
    ensures Confirms(s, repo) ==> Tick(s, repo).0 == Pass
  {
  }

  /** A non-empty batch in which every instance is DONE is a confirmation. */
  lemma AllDoneBatchConfirms(s: TaskState, repo: Repository, batch: seq<Instance>)
    requires Active(s) && repo(IdsOf(s.instances)) == Fetched(Some(batch))
    requires batch != [] && AllDone(batch)
    ensures Confirms(s, repo)
    ensures Tick(s, repo) == (Pass, s.(result := Some(batch), okCounter := s.okCounter + 1))
  {
  }

  /** A batch with a PROCESSING instance and no UNAVAILABLE one returns normally
      without moving the counter. */
  lemma ProcessingBatchWaits(s: TaskState, repo: Repository, batch: seq<Instance>)
    requires Active(s) && repo(IdsOf(s.instances)) == Fetched(Some(batch))
    requires HasProcessing(batch) && !HasUnavailable(batch)
    ensures Tick(s, repo) == (Pass, s.(result := Some(batch)))
  {
  }

  /** A state outside PROCESSING, DONE and UNAVAILABLE does not clear the scan's
      flag: a batch with such an instance and no PROCESSING or UNAVAILABLE one
      returns normally and moves the counter, yet the query still answers false. */
  lemma OtherStateConfirmsButDoesNotSettle(s: TaskState, repo: Repository, batch: seq<Instance>)
    requires Active(s) && repo(IdsOf(s.instances)) == Fetched(Some(batch))
    requires batch != [] && !HasUnavailable(batch) && !HasProcessing(batch)
    requires exists i :: 0 <= i < |batch| && batch[i].state == Other
    ensures Tick(s, repo) == (Pass, s.(result := Some(batch), okCounter := s.okCounter + 1))
    ensures !Poll(Tick(s, repo).1).0
  {
  }

  /** Without a stored non-empty result the query returns the flag as it is. */
  lemma PollWithoutData(s: TaskState)
    requires s.result == None || s.result == Some([])
    ensures Poll(s) == (s.done, s)
  {
  }

  /** A stored result with a non-DONE instance makes the query answer false, even
      when the flag is already set. */
  lemma PollNotAllDone(s: TaskState, batch: seq<Instance>)
    requires s.result == Some(batch) && exists i :: 0 <= i < |batch| && batch[i].state != DONE
    ensures Poll(s) == (false, s)
  {
  }

  /** The query changes only the flag; it sets it exactly when the stored result is
      non-empty and all DONE and the counter equals the threshold, and never clears it.
      Apart from the not-all-done case, it answers the new flag. */
  lemma PollLatches(s: TaskState)
    ensures Poll(s).1 == s.(done := s.done || (s.result.Some? && s.result.value != []
      && AllDone(s.result.value) && s.okCounter == ALL_INSTANCES_DONE_REQUIRED_TIMES))
    ensures Poll(s).0 == (Poll(s).1.done && !(s.result.Some? && !AllDone(s.result.value)))
  {
  }

  /** The threshold is compared with equality: past it, an unsettled monitor stays
      unsettled on a query. */
  lemma PollPastThreshold(s: TaskState)
    requires !s.done && s.okCounter > ALL_INSTANCES_DONE_REQUIRED_TIMES
    ensures Poll(s) == (false, s)
  {
  }

  /** After a tick that failed on an UNAVAILABLE instance, the query answers false:
      it rescans the whole stored batch, which holds that instance. */
  lemma PollAfterUnavailableIsFalse(s: TaskState, repo: Repository)
    requires Tick(s, repo).0.Fail? && Tick(s, repo).0.error.InstanceUnavailable?
    ensures !Poll(Tick(s, repo).1).0
  {
  }

  /** Two all-DONE ticks from a fresh monitor, whatever batches they see: the query
      answers false after the first and true after the second. */
  lemma SettlesOnSecondAllDoneTick(instances: seq<Instance>, r1: Repository, b1: seq<Instance>,
                                   r2: Repository, b2: seq<Instance>)
    requires instances != []
    requires r1(IdsOf(instances)) == Fetched(Some(b1)) && b1 != [] && AllDone(b1)
    requires r2(IdsOf(instances)) == Fetched(Some(b2)) && b2 != [] && AllDone(b2)
    ensures !Poll(Tick(Initial(instances), r1).1).0
    ensures Poll(Tick(Poll(Tick(Initial(instances), r1).1).1, r2).1).0
  {
  }
}
