/** The slice of the provisioned-instance entity that the deployment check reads. */
module Instances {

  /** Lifecycle state of an instance. `Other` stands for every state besides the three
      the check tells apart; the check's `default` branch treats them all alike. */
  datatype State = PROCESSING | DONE | UNAVAILABLE | Other

  /** An instance as returned by the repository: its identifier and current state.
      The display locator is only used for diagnostics and is not modelled. */
  datatype Instance = Instance(id: string, state: State)

  predicate HasUnavailable(batch: seq<Instance>)
  {
    exists i :: 0 <= i < |batch| && batch[i].state == UNAVAILABLE
  }

  predicate HasProcessing(batch: seq<Instance>)
  {
    exists i :: 0 <= i < |batch| && batch[i].state == PROCESSING
  }

  predicate AllDone(batch: seq<Instance>)
  {
    forall i :: 0 <= i < |batch| ==> batch[i].state == DONE
  }

  /** The identifiers of `instances`, in order. */
  function IdsOf(instances: seq<Instance>): (ids: seq<string>)
    ensures |ids| == |instances|
    ensures forall i :: 0 <= i < |instances| ==> ids[i] == instances[i].id
  {
    if instances == [] then [] else [instances[0].id] + IdsOf(instances[1..])
  }

  /** The position of the first `UNAVAILABLE` instance of a batch: the one a scan
      in order stops at. */
  function FirstUnavailable(batch: seq<Instance>): (k: nat)
    requires HasUnavailable(batch)
    ensures k < |batch| && batch[k].state == UNAVAILABLE
    ensures forall j :: 0 <= j < k ==> batch[j].state != UNAVAILABLE
  {
    if batch[0].state == UNAVAILABLE then 0
    else
      assert forall i :: 1 <= i < |batch| ==> batch[1..][i - 1] == batch[i];
      FirstUnavailable(batch[1..]) + 1
  }
}
