# Stability-gated instance deployment monitor

A model of `CheckInstancesDeployedTask` from the ElasticBox Jenkins plugin. It is a polling task that a scheduler runs over and over until every instance a deployment created reports `DONE`. A tick raises a `TaskException` on a repository error, on an empty answer, or on an `UNAVAILABLE` instance; what happens next is the scheduler's policy.

- `wrappers.dfy` (`Wrappers`): `Option` stands for a Java reference that can be null. `Outcome` stands for a normal return or a thrown `TaskException`.
- `instance.dfy` (`Instances`): an instance is an id plus a state (`PROCESSING`, `DONE`, `UNAVAILABLE` or `Other`). This module also defines the ids of an instance list in order, and the first `UNAVAILABLE` position of a batch.
- `check_instances_deployed_task.dfy` (`CheckInstancesDeployed`):
  - the task's state as a value (`TaskState`);
  - one call of `performExecute` as the function `Tick`;
  - one call of `isDone` as the function `Poll`;
  - the class `CheckInstancesDeployedTask`. Its fields are `done`, `okCounter`, `instances` and `result`. Its methods run the Java code's loops and are proved to have exactly the effect of `Tick` and `Poll`.
- `tick_properties.dfy` (`TickProperties`): what one tick and one query guarantee.
- `polling_run.dfy` (`PollingRun`): any mix of ticks and queries, as a scheduler may issue them, and what holds across such a run.

The repository lookup is a parameter: a function from the list of ids it is sent to what it does (throw, or return a list that may be null). The owner id, the cloud endpoint and both loggers are not modelled.

Points worth noting about the code:

- The counter is incremented when the scan of a non-empty batch finds no `PROCESSING` and no `UNAVAILABLE` instance. An instance in any other state leaves the scan's flag set. So "every instance `DONE`" is sufficient for an increment but not necessary. `isDone` still rescans the stored batch and answers false for such a batch (`OtherStateConfirmsButDoesNotSettle`).
- The result is stored before it is checked. A null or empty answer replaces the stored result, and so does a batch that fails on `UNAVAILABLE`. A repository exception leaves the stored result as it was.
- After a tick that stopped on `UNAVAILABLE`, `isDone` does not trust the partial scan. It rescans the whole stored batch, which holds the `UNAVAILABLE` instance, so its answer is false (`PollAfterUnavailableIsFalse`).
- `isDone` compares the counter with 2 using equality. A counter that passes 2 without a successful query never latches the flag (`NeverSettlesPastThreshold`). A stored batch with a non-`DONE` instance makes `isDone` answer false even when `done` is already set (`PollNotAllDone`). That case cannot arise in a run from a new task: `done` is set only with an all-`DONE` batch stored, and from then on every tick is a no-op, so once `isDone` answers true it keeps answering true (`AnswerStaysTrue`).
- The counter is never reset. A `PROCESSING` tick between two all-`DONE` ticks does not stop the second one from settling, so the two confirmations need not be consecutive (`NonConsecutiveConfirmationsSettle`).

## Model

The rows for `PerformExecute` and `IsDone` also stand for the functions `CheckInstancesDeployed.Tick` and `CheckInstancesDeployed.Poll` (lines 66-156 and 159-172), which those methods are proved equal to and which the other lemmas are about.

| member | source | states |
|---|---|---|
| Instances.IdsOf | src/main/java/com/elasticbox/jenkins/model/services/deployment/execution/task/CheckInstancesDeployedTask.java:79-84 | the id list has one entry per monitored instance, and entry i is the id of instance i |
| Instances.FirstUnavailable | src/main/java/com/elasticbox/jenkins/model/services/deployment/execution/task/CheckInstancesDeployedTask.java:104-130 | the position where the scan throws: an UNAVAILABLE instance with none before it |
| CheckInstancesDeployed.CheckInstancesDeployedTask.constructor | src/main/java/com/elasticbox/jenkins/model/services/deployment/execution/task/CheckInstancesDeployedTask.java:38-53 | a new task has the given instances, done false, counter 0 and no stored result |
| CheckInstancesDeployed.CheckInstancesDeployedTask.GetInstances | src/main/java/com/elasticbox/jenkins/model/services/deployment/execution/task/CheckInstancesDeployedTask.java:174-176 | returns the monitored instance list |
| CheckInstancesDeployed.CheckInstancesDeployedTask.SetInstances | src/main/java/com/elasticbox/jenkins/model/services/deployment/execution/task/CheckInstancesDeployedTask.java:178-180 | replaces the instance list and changes nothing else |
| CheckInstancesDeployed.CheckInstancesDeployedTask.PerformExecute | src/main/java/com/elasticbox/jenkins/model/services/deployment/execution/task/CheckInstancesDeployedTask.java:66-156 | the id loop, lookup, store and scan produce exactly the outcome and new state of Tick |
| CheckInstancesDeployed.CheckInstancesDeployedTask.IsDone | src/main/java/com/elasticbox/jenkins/model/services/deployment/execution/task/CheckInstancesDeployedTask.java:159-172 | the rescan loop and latch produce exactly the answer and new state of Poll |
| TickProperties.EmptyInstancesIsNoop | src/main/java/com/elasticbox/jenkins/model/services/deployment/execution/task/CheckInstancesDeployedTask.java:68-75 | with no instances a tick returns normally and changes nothing |
| TickProperties.SettledIsNoop | src/main/java/com/elasticbox/jenkins/model/services/deployment/execution/task/CheckInstancesDeployedTask.java:76 | once done is set a tick returns normally and changes nothing |
| TickProperties.TickKeepsInstancesAndFlag | src/main/java/com/elasticbox/jenkins/model/services/deployment/execution/task/CheckInstancesDeployedTask.java:66-156 | a tick never changes the instance list or the done flag |
| TickProperties.RepositoryErrorFails | src/main/java/com/elasticbox/jenkins/model/services/deployment/execution/task/CheckInstancesDeployedTask.java:151-154 | a repository error becomes a task failure and leaves the state unchanged |
| TickProperties.NoResultFails | src/main/java/com/elasticbox/jenkins/model/services/deployment/execution/task/CheckInstancesDeployedTask.java:87-148 | a null or empty answer is a task failure; it replaces the stored result; the counter is unchanged |
| TickProperties.UnavailableFails | src/main/java/com/elasticbox/jenkins/model/services/deployment/execution/task/CheckInstancesDeployedTask.java:87-130 | an UNAVAILABLE instance is a task failure naming the first one in the batch; the batch is stored; the counter is unchanged |
| TickProperties.FailureKeepsCounter | src/main/java/com/elasticbox/jenkins/model/services/deployment/execution/task/CheckInstancesDeployedTask.java:128-153 | a failing tick never moves the counter |
| TickProperties.CounterStep | src/main/java/com/elasticbox/jenkins/model/services/deployment/execution/task/CheckInstancesDeployedTask.java:91-137 | the counter rises by exactly one on a confirming tick, is unchanged on any other tick, and so never decreases |
| TickProperties.AllDoneBatchConfirms | src/main/java/com/elasticbox/jenkins/model/services/deployment/execution/task/CheckInstancesDeployedTask.java:104-137 | a non-empty all-DONE batch returns normally, is stored, and increments the counter |
| TickProperties.ProcessingBatchWaits | src/main/java/com/elasticbox/jenkins/model/services/deployment/execution/task/CheckInstancesDeployedTask.java:104-137 | a batch with a PROCESSING instance and no UNAVAILABLE one returns normally, is stored, and leaves the counter alone |
| TickProperties.OtherStateConfirmsButDoesNotSettle | src/main/java/com/elasticbox/jenkins/model/services/deployment/execution/task/CheckInstancesDeployedTask.java:132-165 | a non-empty batch with an instance in another state and no PROCESSING or UNAVAILABLE one returns normally, is stored and increments the counter, but the query then answers false |
| TickProperties.PollWithoutData | src/main/java/com/elasticbox/jenkins/model/services/deployment/execution/task/CheckInstancesDeployedTask.java:160-171 | with no stored result, or an empty one, the query returns done unchanged |
| TickProperties.PollNotAllDone | src/main/java/com/elasticbox/jenkins/model/services/deployment/execution/task/CheckInstancesDeployedTask.java:161-165 | with a non-DONE instance in the stored result the query answers false, even when done is set |
| TickProperties.PollLatches | src/main/java/com/elasticbox/jenkins/model/services/deployment/execution/task/CheckInstancesDeployedTask.java:160-171 | the query changes only done: it sets done exactly when the stored batch is non-empty and all DONE and the counter equals 2, and never clears it |
| TickProperties.PollPastThreshold | src/main/java/com/elasticbox/jenkins/model/services/deployment/execution/task/CheckInstancesDeployedTask.java:167-169 | an unsettled task whose counter is above 2 is not settled by a query |
| TickProperties.PollAfterUnavailableIsFalse | src/main/java/com/elasticbox/jenkins/model/services/deployment/execution/task/CheckInstancesDeployedTask.java:87-165 | after a tick that failed on UNAVAILABLE the query answers false |
| TickProperties.SettlesOnSecondAllDoneTick | src/main/java/com/elasticbox/jenkins/model/services/deployment/execution/task/CheckInstancesDeployedTask.java:135-169 | from a fresh task, two ticks that each see any non-empty all-DONE batch make the query answer false after the first tick and true after the second |
| PollingRun.RunCountsConfirmations | src/main/java/com/elasticbox/jenkins/model/services/deployment/execution/task/CheckInstancesDeployedTask.java:135-137 | over any run of ticks and queries, the instance list is kept, done stays set, and the counter equals its start value plus the number of confirming ticks |
| PollingRun.RunStaysConsistent | src/main/java/com/elasticbox/jenkins/model/services/deployment/execution/task/CheckInstancesDeployedTask.java:160-168 | over any run, done is set only together with a stored non-empty all-DONE batch and a counter of exactly 2 |
| PollingRun.SettlingNeedsTwoConfirmations | src/main/java/com/elasticbox/jenkins/model/services/deployment/execution/task/CheckInstancesDeployedTask.java:36 | a fresh task that settles has seen exactly two confirming ticks |
| PollingRun.SettledRunIsFixed | src/main/java/com/elasticbox/jenkins/model/services/deployment/execution/task/CheckInstancesDeployedTask.java:76 | a settled consistent task is left exactly as it is by any later ticks and queries |
| PollingRun.AnswerStaysTrue | src/main/java/com/elasticbox/jenkins/model/services/deployment/execution/task/CheckInstancesDeployedTask.java:76-171 | in a run from a new task, once the completion query answers true it answers true after any later events |
| PollingRun.NonConsecutiveConfirmationsSettle | src/main/java/com/elasticbox/jenkins/model/services/deployment/execution/task/CheckInstancesDeployedTask.java:135-169 | the counter is never reset: all-DONE, PROCESSING, all-DONE ticks with queries between settle on the third tick |
| PollingRun.NeverSettlesPastThreshold | src/main/java/com/elasticbox/jenkins/model/services/deployment/execution/task/CheckInstancesDeployedTask.java:167 | an unsettled task whose counter is above 2 never settles, whatever follows |
| PollingRun.TwoInstanceScenario | src/main/java/com/elasticbox/jenkins/model/services/deployment/execution/task/CheckInstancesDeployedTask.java:66-172 | A and B: a tick with B still PROCESSING, then two all-DONE ticks; the queries answer false, false, true and the counter ends at 2 |
| PollingRun.UnavailableScenario | src/main/java/com/elasticbox/jenkins/model/services/deployment/execution/task/CheckInstancesDeployedTask.java:113-130 | a first tick that sees A UNAVAILABLE fails naming A, and the query answers false |
| PollingRun.EmptyResultScenario | src/main/java/com/elasticbox/jenkins/model/services/deployment/execution/task/CheckInstancesDeployedTask.java:138-147 | an empty answer on the first tick is the no-result failure |

## Left out

- Logging through `java.util.logging` and the deployment logger is not modelled. Neither are the instance page URLs built for those lines. They are diagnostics only, so the ordering of log lines is not captured. A failure is modelled as a tag plus, for `UNAVAILABLE`, the instance id in place of its page URL.
- The repository lookup is a remote HTTP call. It is a function parameter of the tick, so `getOrder().getOwner()` and the cloud endpoint are not modelled.
- The exception's message text and its wrapped cause are not modelled; only the kind of failure is.
- The `ScheduledPoolingTask` base class is not part of this model. That covers the delay, initial delay and timeout, the tick `counter`, rescheduling, and what the scheduler does after a failure. `PollingRun` just continues with the next event. The `result` field and `getResult` come from that class and are modelled only as the `result` field.
- The constructors that pass a null instance list are not modelled, and neither are the default cadence constants. The instance list is never null here.
- Concurrency is not modelled: the class is unsynchronised and assumes a single caller.
- CheckInstancesDeployed.CheckInstancesDeployedTask.PerformExecute: the counter is an unbounded `nat`. It does not model the wrap-around of Java's 32-bit `int` after 2^31 - 1 increments.
- The model holds the instance list and the stored result as values. In Java, `getInstances` returns the live list, `setInstances` keeps the caller's reference, and `result` is held by reference. So a caller that changes such a list between ticks is not modelled.
- An instance state is never null here. In Java a null state would make the `switch` throw a `NullPointerException`.
