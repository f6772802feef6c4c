# Eutester decision logic, modelled in Dafny

Eutester is an integration-test harness for the Eucalyptus cloud. Almost every
line of it drives the boto or AWS SDK clients or a shell. This project models the
three pieces of it that make their own decisions, and proves what those decisions
guarantee.

- **CloudWatch connection setup** (`eucaops/CWops.py`, module `CWops`).
  `setup_cw_connection` chooses the endpoint. It comes from the fixed region table
  `EC2RegionData`, from an explicit endpoint, or from the controller address
  `get_ec2_ip()`. An unknown region without an endpoint raises
  `Unknown region: <region>`. The method then builds the connection-argument
  dictionary. It adds `validate_certs=False` when `boto.__version__` matches the
  regular expression `2.6`. Finally it tries to connect and logs a failure as
  critical instead of raising it. The constructor then seeds the resource
  registry with three empty lists and sets `poll_count` to 48 and `key_dir` to
  `"./"`. The object is a Dafny `class` whose methods assign its fields step by
  step. The pure selection rule `ResolveRegion` specifies them.
- **Zone balance** (`TestAutoScalingMultipleAvailabilityZones.java`, module
  `MultipleAvailabilityZones`). `countZoneInstances` is a counting loop.
  `assertBalanced` asks that the two zone counts add up to the list size and be
  equal. The test skips when fewer than two zones exist. Otherwise it scales a
  group 2, 4, 2, 0, 4 and checks the balance after each step except the step to 0.
- **Instance-detail validation** (`TestAutoScalingDescribeInstances.java`, module
  `DescribeInstances`). This covers the launch and termination wait loops and the
  chain of assertions on the described instance.

Both Java tests share one cleanup discipline, modelled once in module `Cleanup`.
Each created resource registers a task. The `finally` block reverses the list in
place (`Collections.reverse`). It then runs every task, catching an exception
from one task so that the rest still run.

The model replaces the foreign calls with inputs:

- `get_ec2_ip()` becomes the parameter `ec2Ip`.
- `boto.__version__` becomes `botoVersion`.
- The outcome of `boto.connect_cloudwatch` becomes `connectRaises`.
- In the Java tests, each SDK call that can throw becomes a flag or an `Option`
  in an environment record (`ZonesEnv`, `DescribeEnv`).
- The set of cleanup tasks that throw becomes `failingCleanup`.

Wall-clock time is replaced by the sequence of observations a wait loop makes
before its timeout. One element is one iteration's `getInstancesForGroup`
result.

Python truthiness is modelled by `Truthy`: `None` and `""` are false. A null Java
reference is `None`. `expected.equals(null)` and `list.contains(null)` are false.

Behaviour worth noting:

- With a host given and no region, `setup_cw_connection` never sets the endpoint.
  A fresh boto `RegionInfo` has endpoint `None`. The debug message on line 109
  then concatenates `None` into a string, which raises a `TypeError` inside the
  `try`. That error is logged as critical, `boto.connect_cloudwatch` is never
  called, and `cw` is not set. `SetupCwConnection` and `ConnectFailure` model
  this path.
- With a region given, the `RegionInfo` name is not set; only the endpoint is.
- The regular expression `2.6` is neither escaped nor anchored.
  `VersionPatternExamples` shows that it accepts `2.6.0` but also `3.2.6` and
  `2x6`, and rejects `2.16`. Python's `.` does not match a newline, so `2\n6`
  is rejected too.
- `apiVersion` is accepted by `setup_cw_connection` and not used.
- `assertThat(instanceId != null)` on line 106 of the describe test fails only
  when the one id the launch poll returned is itself null. `launched` holds
  whenever a poll sees exactly one list element, null or not, so the two
  assertions on lines 104 and 106 are separate failures (`NotLaunched`,
  `InstanceIdNull`).

## Model

| member | source | states |
|---|---|---|
| `CWops.ResolveRegion` | eucaops/CWops.py:77-93 | Raises exactly when the region is truthy, the endpoint is not, and the region is not in `EC2RegionData`. The message is then `Unknown region: <region>`. A known region without an endpoint gets the table's hostname. An explicit endpoint wins, so it never raises. With no region, the name is `eucalyptus`. With no region and no host, the endpoint is the given one or else `get_ec2_ip()`. With no region and a host, the endpoint stays unset. |
| `CWops.VersionMatches26` | eucaops/CWops.py:102 | `re.search('2.6', v)` holds iff at some position `v` has `'2'` and, two characters later, `'6'`, with any character except a newline in between. |
| `CWops.VersionPatternExamples` | eucaops/CWops.py:102-103 | The version test accepts `2.6.0`, `3.2.6` and `2x6`, and rejects `2.5.2`, `2.16` and `2\n6`. |
| `CWops.ConnectionArgs` | eucaops/CWops.py:94-103 | The dictionary holds exactly the seven base keys with the caller's values. It also holds `validate_certs`, mapped to `False`, iff the boto version matches the pattern. |
| `CWops.CWops.Init` | eucaops/CWops.py:50-53 | Stores both keys and clears `account_id` and `user_id` before the connection is set up. |
| `CWops.CWops.SetupCwConnection` | eucaops/CWops.py:75-115 | Raises exactly as `ResolveRegion` says, before any state changes. Otherwise `cw` is a connection made with `ConnectionArgs` for the resolved region, unless the attempt fails. A failure is either the `None`-endpoint `TypeError` or an SDK exception. It is appended to the critical log, and `cw` keeps its old value. `ec2_source_ip` ends as `None`. The helper `ConnectFailure` says which of the two failures, if any, happens. |
| `CWops.CWops.SetupCwResourceTrackers` | eucaops/CWops.py:117-123 | Sets `alarms`, `metric` and `datapoint` to empty lists and leaves every other key as it was. |
| `CWops.CWops.FinishInit` | eucaops/CWops.py:66-71 | `poll_count` is 48 and `key_dir` is `"./"`. `test_resources` has exactly the keys `alarms`, `metric` and `datapoint`, each an empty list. `ec2_source_ip` is `None`. |
| `CWops.CWops.Create` | eucaops/CWops.py:48-71 | Construction fails exactly when the region is unknown, with that message. Otherwise it gives a new session with the fields above. Its connection and critical log are as `SetupCwConnection` describes, starting from no connection and an empty log. |
| `Cleanup.CleanupTasks.constructor` | eutester4j/com/eucalyptus/tests/awssdk/TestAutoScalingDescribeInstances.java:50 | The cleanup list starts empty. |
| `Cleanup.CleanupTasks.Add` | eutester4j/com/eucalyptus/tests/awssdk/TestAutoScalingDescribeInstances.java:56-89 | Registering appends the task at the end. |
| `Cleanup.CleanupTasks.Reverse` | eutester4j/com/eucalyptus/tests/awssdk/TestAutoScalingMultipleAvailabilityZones.java:156 | The in-place reversal leaves the list equal to `ReverseOf` of the old list. |
| `Cleanup.CleanupTasks.RunAll` | eutester4j/com/eucalyptus/tests/awssdk/TestAutoScalingMultipleAvailabilityZones.java:157-163 | Every task in the list is attempted, in list order. An attempt fails exactly when its task throws, and that does not stop the loop. |
| `Cleanup.Attempts` | eutester4j/com/eucalyptus/tests/awssdk/TestAutoScalingDescribeInstances.java:169-175 | One attempt per task, same order. Each attempt completes iff its task does not throw. |
| `Cleanup.CleanupRunsInReverse` | eutester4j/com/eucalyptus/tests/awssdk/TestAutoScalingDescribeInstances.java:166-176 | Every registered task is attempted. A task registered later is attempted before one registered earlier, whichever tasks throw. |
| `MultipleAvailabilityZones.ZoneCount` | eutester4j/com/eucalyptus/tests/awssdk/TestAutoScalingMultipleAvailabilityZones.java:177-188 | The number of instances placed in a zone is at most the list length. |
| `MultipleAvailabilityZones.ZoneCountIsIndexCount` | eutester4j/com/eucalyptus/tests/awssdk/TestAutoScalingMultipleAvailabilityZones.java:177-188 | The count equals the number of positions whose instance has a placement with that zone. |
| `MultipleAvailabilityZones.UnplacedNotCounted` | eutester4j/com/eucalyptus/tests/awssdk/TestAutoScalingMultipleAvailabilityZones.java:181-183 | Removing every instance with a null placement changes no zone's count. Such an instance is counted for no zone. |
| `MultipleAvailabilityZones.CountZoneInstances` | eutester4j/com/eucalyptus/tests/awssdk/TestAutoScalingMultipleAvailabilityZones.java:177-188 | The counting loop returns `ZoneCount`, which lies between 0 and the list length. |
| `MultipleAvailabilityZones.ZonesPartition` | eutester4j/com/eucalyptus/tests/awssdk/TestAutoScalingMultipleAvailabilityZones.java:172-173 | For two different zones, the two zone counts plus the instances in neither zone add up to the list length. |
| `MultipleAvailabilityZones.BalancedIff` | eutester4j/com/eucalyptus/tests/awssdk/TestAutoScalingMultipleAvailabilityZones.java:172-174 | For two different zones, the balance check passes iff every instance lies in one of the two zones and the two counts are equal. |
| `MultipleAvailabilityZones.BalancedIsEvenSplit` | eutester4j/com/eucalyptus/tests/awssdk/TestAutoScalingMultipleAvailabilityZones.java:172-173 | A balanced list has even length, with half of it in each zone. |
| `MultipleAvailabilityZones.AssertBalanced` | eutester4j/com/eucalyptus/tests/awssdk/TestAutoScalingMultipleAvailabilityZones.java:167-175 | Passes iff the counts sum to the list size and are equal. On failure it reports both zones with their counts. |
| `MultipleAvailabilityZones.ZonesBody` | eutester4j/com/eucalyptus/tests/awssdk/TestAutoScalingMultipleAvailabilityZones.java:48-153 | Reports the first step that goes wrong (`ReportsFirstFailure`). The calls made are a prefix of the script (zone lookup, two creations, then the waits and resizes), every step before the last one passed, and the last one is the reported failure: a call that threw, or the balance check after a wait, carrying that wait's two zone counts. Fails with the zone lookup as its only call iff `describeAvailabilityZones` throws. Skips iff the lookup succeeds and fewer than two zones exist. Zone 1 and zone 2 are the first two zones. It passes iff every call succeeds and all four checked lists are balanced. Cleanup tasks are registered only for resources actually created. |
| `MultipleAvailabilityZones.ResizeAndCheck` | eutester4j/com/eucalyptus/tests/awssdk/TestAutoScalingMultipleAvailabilityZones.java:108-153 | After the group exists, the first wait and the four resizes report their first failure in the sense of `ReportsFirstFailure`, or the run passes. |
| `MultipleAvailabilityZones.Resize` | eutester4j/com/eucalyptus/tests/awssdk/TestAutoScalingMultipleAvailabilityZones.java:113-121 | `setDesiredCapacity` stops the run with that call when it throws. Otherwise the wait and its check follow, and when all pass, every step so far has passed. |
| `MultipleAvailabilityZones.AwaitInstances` | eutester4j/com/eucalyptus/tests/awssdk/TestAutoScalingMultipleAvailabilityZones.java:108-111 | A wait that throws stops the run with that call. A checked wait whose instances are not balanced stops it with both zone counts. Otherwise every step so far has passed. |
| `MultipleAvailabilityZones.FirstFailureOutcomes` | eutester4j/com/eucalyptus/tests/awssdk/TestAutoScalingMultipleAvailabilityZones.java:52-153 | A first-failure report fixes the lookup failure, the skip and the pass conditions, the calls of a skipped or passing run, and the zones named in an imbalance. |
| `MultipleAvailabilityZones.ZonesReportDetermined` | eutester4j/com/eucalyptus/tests/awssdk/TestAutoScalingMultipleAvailabilityZones.java:52-153 | For a given cloud exactly one outcome and one sequence of calls satisfy the first-failure report. |
| `MultipleAvailabilityZones.LaunchConfigFailureReported` | eutester4j/com/eucalyptus/tests/awssdk/TestAutoScalingMultipleAvailabilityZones.java:76-78 | With two zones and a launch configuration that cannot be created, the run reports that creation, after the zone lookup and that call only. |
| `MultipleAvailabilityZones.AutoScalingMultipleAvailabilityZonesTest` | eutester4j/com/eucalyptus/tests/awssdk/TestAutoScalingMultipleAvailabilityZones.java:48-165 | A skipped run, or one whose zone lookup throws, creates nothing and runs no cleanup. The outcome and the calls are the body's first-failure report, so pass, skip, lookup failure and which failure a failing run reports are decided as above. The cleanup log attempts the registered tasks in reverse order. |
| `MultipleAvailabilityZones.GroupDeletedBeforeLaunchConfig` | eutester4j/com/eucalyptus/tests/awssdk/TestAutoScalingMultipleAvailabilityZones.java:154-164 | Once the group exists, its deletion is attempted before the launch configuration's, and both are attempted. |
| `DescribeInstances.HealthStatusMembership` | eutester4j/com/eucalyptus/tests/awssdk/TestAutoScalingDescribeInstances.java:135-138 | A health status is valid iff it is `Healthy` or `Unhealthy`. |
| `DescribeInstances.LifecycleStateMembership` | eutester4j/com/eucalyptus/tests/awssdk/TestAutoScalingDescribeInstances.java:139-143 | A lifecycle state is valid iff it is one of `Pending`, `Quarantined`, `InService`, `Terminating` or `Terminated`. |
| `DescribeInstances.VerifyDetails` | eutester4j/com/eucalyptus/tests/awssdk/TestAutoScalingDescribeInstances.java:114-143 | Passes iff the result holds exactly one instance and its id, group, launch configuration and zone equal the expected values, with valid health and lifecycle. A failure is `NotExactlyOne` with the count iff the count is not 1. Otherwise the error satisfies `RejectedBy`: it names the first failing assertion, that assertion's condition is false, the error carries the field value it saw, and every earlier assertion held. |
| `DescribeInstances.RejectionUnique` | eutester4j/com/eucalyptus/tests/awssdk/TestAutoScalingDescribeInstances.java:114-143 | At most one error can be the first failing assertion on a describe result. |
| `DescribeInstances.FirstSinglePoll` | eutester4j/com/eucalyptus/tests/awssdk/TestAutoScalingDescribeInstances.java:97-103 | A position is found iff some poll sees exactly one running instance. It is the first such poll: every earlier poll sees some other number. |
| `DescribeInstances.AwaitLaunch` | eutester4j/com/eucalyptus/tests/awssdk/TestAutoScalingDescribeInstances.java:93-106 | The loop stops at the first poll with exactly one running instance, or after the last poll the timeout allows. `launched` holds iff such a poll exists. The recorded id is then that poll's only element, which may be null; otherwise the id is null. |
| `DescribeInstances.AwaitTermination` | eutester4j/com/eucalyptus/tests/awssdk/TestAutoScalingDescribeInstances.java:152-162 | `terminated` holds iff some poll sees an empty group. The loop stops at the first empty poll, or after the last poll the timeout allows. |
| `DescribeInstances.DescribeBody` | eutester4j/com/eucalyptus/tests/awssdk/TestAutoScalingDescribeInstances.java:45-165 | Passes iff both creations succeed, an instance launches, its details are accepted, the capacity update succeeds and the group empties. It reports the first step that goes wrong (`ReportsFirstFailure`), one if-and-only-if per outcome. Each creation fails exactly when it throws after the earlier steps succeeded. "Not launched" is reported exactly when no poll sees one running instance, and "instance identifier null" exactly when the first such poll's element is null. The describe call fails exactly when it throws for the launched id. The details are rejected exactly when they are not accepted, with the first failing assertion's error. The capacity update fails exactly when it throws after the details are accepted. "Not terminated" is reported exactly when no termination poll sees an empty group after that. Cleanup tasks are registered only for resources actually created. |
| `DescribeInstances.AutoScalingDescribeInstancesTest` | eutester4j/com/eucalyptus/tests/awssdk/TestAutoScalingDescribeInstances.java:45-177 | Passes as above, and every failing run reports its first failing step as above. The cleanup log attempts the registered tasks in reverse order. |
| `DescribeInstances.DescribeReportDetermined` | eutester4j/com/eucalyptus/tests/awssdk/TestAutoScalingDescribeInstances.java:45-165 | For a given cloud exactly one outcome satisfies the first-failure report. |
| `DescribeInstances.CleanupOrder` | eutester4j/com/eucalyptus/tests/awssdk/TestAutoScalingDescribeInstances.java:56-89 | Once the group exists, cleanup terminates its instances, then deletes the group, then the launch configuration. Each step is attempted whichever of the others throws. |

## Left out

- The `Eutester` base class, including `__init__(credpath=...)`, `debug`, `critical` and `printinfo`, is not part of this model. The critical log is a field of the session, and debug messages are not modelled.
- `boto.connect_cloudwatch` and `RegionInfo` internals are foreign calls. The connection is a value that records the arguments it was made with.
- CWops.CWops.Init: Python creates `username`, `poll_count`, `test_resources`, `key_dir` and the rest only later in `__init__`. The model gives them empty values until then.
- CWops.CWops.SetupCwConnection: `path` is a string, never `None`. A `None` path would also make the debug message raise, and that case is not modelled.
- `get_ec2_ip()` is an input string. A `None` answer, which would also stop the connection, is not modelled.
- All AWS SDK calls in the Java tests are inputs: calls that can throw become flags or `Option`s, and lists become given sequences. This covers `describeAvailabilityZones`, `createLaunchConfig`, `createAutoScalingGroup`, `setDesiredCapacity`, `describeAutoScalingInstances`, `waitForInstances` and `getInstancesForGroup`. An exception thrown by `getInstancesForGroup` inside a wait loop is not modelled.
- Wall-clock time, `Thread.sleep` and the timeouts become the length of the observation sequence. The model does not say how many polls fit in five or ten minutes.
- Cleanup.CleanupTasks.RunAll: a task in `failingCleanup` is one that throws an `Exception`, which the `catch (Exception e)` in both `finally` blocks absorbs. A task that throws an `Error` (an `AssertionError`, say) is not caught: it would stop the loop and propagate, and the model does not capture that.
- Printing, `print(...)` and `e.printStackTrace()` are left out.
- `eucaUUID() + "-"` in the zones test and `NAME_PREFIX` in the describe test are the input `namePrefix`. `AVAILABILITY_ZONE` is the input `availabilityZone`.
- `testInfo(...)` and `getCloudInfo()`, which both tests call first, are not modelled. A throw there fails the test before the zone lookup or the first creation, with nothing to clean up.
- MultipleAvailabilityZones.BalancedIff: states the equivalence for two different zones only. A zone list that named the same zone twice would let half the instances lie outside both zones, and that case is not modelled.
- A null zone name from `getZoneName()`, which would make `zone.equals` throw, is not modelled.
- The instance-test suite's thread-pool fan-out, its reservation lock, and the install scripts are not part of this model. They are concurrency and shell provisioning with no decision logic of their own.
