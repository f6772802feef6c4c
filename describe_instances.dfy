/** TestAutoScalingDescribeInstances: a one-instance group is launched, its
    auto-scaling instance details are checked, and it is scaled back to zero. */
module DescribeInstances {
  import opened Wrappers
  import opened Cleanup

  /** The health statuses the test accepts. */
  const HealthStatuses: seq<string> := ["Healthy", "Unhealthy"]

  /** The lifecycle states the test accepts. */
  const LifecycleStates: seq<string> := ["Pending", "Quarantined", "InService", "Terminating", "Terminated"]

  /** `Arrays.asList("Healthy", "Unhealthy").contains(status)`; a null status is not in the list. */
  predicate ValidHealthStatus(status: Option<string>)
  {
    status.Some? && status.value in HealthStatuses
  }

  /** `Arrays.asList("Pending", ..., "Terminated").contains(state)`. */
  predicate ValidLifecycleState(state: Option<string>)
  {
    state.Some? && state.value in LifecycleStates
  }

  lemma HealthStatusMembership(status: Option<string>)
    ensures ValidHealthStatus(status) <==> status == Some("Healthy") || status == Some("Unhealthy")
  {
  }

  lemma LifecycleStateMembership(state: Option<string>)
    ensures ValidLifecycleState(state)
        <==> state == Some("Pending") || state == Some("Quarantined") || state == Some("InService")
             || state == Some("Terminating") || state == Some("Terminated")
  {
  }

  /** `AutoScalingInstanceDetails`; every getter may return null. */
  datatype InstanceDetails = InstanceDetails(
    instanceId: Option<string>,
    autoScalingGroupName: Option<string>,
    launchConfigurationName: Option<string>,
    availabilityZone: Option<string>,
    healthStatus: Option<string>,
    lifecycleState: Option<string>)

  /** The values the details must carry. */
  datatype Expected = Expected(instanceId: string, groupName: string, launchConfig: string, availabilityZone: string)

  /** The first `assertThat` that fails. */
  datatype DetailsError =
    | NotExactlyOne(count: nat)
    | IncorrectInstanceId(actual: Option<string>)
    | IncorrectGroupName(actual: Option<string>)
    | IncorrectConfigName(actual: Option<string>)
    | IncorrectZone(actual: Option<string>)
    | InvalidHealthStatus(actual: Option<string>)
    | InvalidLifecycleState(actual: Option<string>)

  /** `e` names the first assertion on the describe result that fails, with
      the value that assertion saw; every assertion before it held. */
  predicate RejectedBy(described: seq<InstanceDetails>, expected: Expected, e: DetailsError)
  {
    if |described| != 1 then e == NotExactlyOne(|described|)
    else
      var d := described[0];
      match e
      case NotExactlyOne(_) => false
      case IncorrectInstanceId(actual) =>
        actual == d.instanceId && actual != Some(expected.instanceId)
      case IncorrectGroupName(actual) =>
        && d.instanceId == Some(expected.instanceId)
        && actual == d.autoScalingGroupName && actual != Some(expected.groupName)
      case IncorrectConfigName(actual) =>
        && d.instanceId == Some(expected.instanceId)
        && d.autoScalingGroupName == Some(expected.groupName)
        && actual == d.launchConfigurationName && actual != Some(expected.launchConfig)
      case IncorrectZone(actual) =>
        && d.instanceId == Some(expected.instanceId)
        && d.autoScalingGroupName == Some(expected.groupName)
        && d.launchConfigurationName == Some(expected.launchConfig)
        && actual == d.availabilityZone && actual != Some(expected.availabilityZone)
      case InvalidHealthStatus(actual) =>
        && d.instanceId == Some(expected.instanceId)
        && d.autoScalingGroupName == Some(expected.groupName)
        && d.launchConfigurationName == Some(expected.launchConfig)
        && d.availabilityZone == Some(expected.availabilityZone)
        && actual == d.healthStatus && !ValidHealthStatus(actual)
      case InvalidLifecycleState(actual) =>
        && d.instanceId == Some(expected.instanceId)
        && d.autoScalingGroupName == Some(expected.groupName)
        && d.launchConfigurationName == Some(expected.launchConfig)
        && d.availabilityZone == Some(expected.availabilityZone)
        && ValidHealthStatus(d.healthStatus)
        && actual == d.lifecycleState && !ValidLifecycleState(actual)
  }

  /** At most one error can be the first failing assertion. */
  lemma RejectionUnique(described: seq<InstanceDetails>, expected: Expected, e1: DetailsError, e2: DetailsError)
    requires RejectedBy(described, expected, e1) && RejectedBy(described, expected, e2)
    ensures e1 == e2
  {
  }

  /** The assertions on the describe result, in the order the test makes
      them; `expected.equals(actual)` is false for a null `actual`. */
  method VerifyDetails(described: seq<InstanceDetails>, expected: Expected) returns (r: Outcome<DetailsError>)
    ensures r.Pass? <==>
      && |described| == 1
      && described[0].instanceId == Some(expected.instanceId)
      && described[0].autoScalingGroupName == Some(expected.groupName)
      && described[0].launchConfigurationName == Some(expected.launchConfig)
      && described[0].availabilityZone == Some(expected.availabilityZone)
      && ValidHealthStatus(described[0].healthStatus)
      && ValidLifecycleState(described[0].lifecycleState)
    ensures r == Fail(NotExactlyOne(|described|)) <==> |described| != 1
    ensures r.Fail? ==> RejectedBy(described, expected, r.error)
  {
    if |described| != 1 {
      return Fail(NotExactlyOne(|described|));
    }
    var details := described[0];
    if details.instanceId != Some(expected.instanceId) {
      return Fail(IncorrectInstanceId(details.instanceId));
    }
    if details.autoScalingGroupName != Some(expected.groupName) {
      return Fail(IncorrectGroupName(details.autoScalingGroupName));
    }
    if details.launchConfigurationName != Some(expected.launchConfig) {
      return Fail(IncorrectConfigName(details.launchConfigurationName));
    }
    if details.availabilityZone != Some(expected.availabilityZone) {
      return Fail(IncorrectZone(details.availabilityZone));
    }
    if !(details.healthStatus.Some? && details.healthStatus.value in HealthStatuses) {
      return Fail(InvalidHealthStatus(details.healthStatus));
    }
    if !(details.lifecycleState.Some? && details.lifecycleState.value in LifecycleStates) {
      return Fail(InvalidLifecycleState(details.lifecycleState));
    }
    return Pass;
  }

  /** The position of the first poll that sees exactly one running
      instance, if any poll does. */
  function FirstSinglePoll(polls: seq<seq<Option<string>>>): (r: Option<nat>)
    ensures r.Some? <==> exists k :: 0 <= k < |polls| && |polls[k]| == 1
    ensures r.Some? ==> r.value < |polls| && |polls[r.value]| == 1
                        && forall j :: 0 <= j < r.value ==> |polls[j]| != 1
  {
    if polls == [] then None
    else if |polls[0]| == 1 then Some(0)
    else
      var rest := FirstSinglePoll(polls[1..]);
      assert forall k :: 1 <= k < |polls| ==> polls[k] == polls[1..][k - 1];
      if rest.Some? then Some(rest.value + 1) else None
  }

  /** The launch wait loop. Each element of `polls` is the running-instance list one
      iteration sees (an id in it may be null); the list holds as many polls
      as the timeout allows. */
  method AwaitLaunch(polls: seq<seq<Option<string>>>) returns (launched: bool, instanceId: Option<string>, pollsMade: nat)
    ensures launched <==> FirstSinglePoll(polls).Some?
    ensures launched ==> pollsMade == FirstSinglePoll(polls).value + 1
                         && instanceId == polls[pollsMade - 1][0]
    ensures !launched ==> pollsMade == |polls| && instanceId == None
    // the loop stops at the first poll that sees one instance
    ensures pollsMade <= |polls|
    ensures forall k :: 0 <= k < pollsMade - 1 ==> |polls[k]| != 1
  {
    launched := false;
    instanceId := None;
    var i := 0;
    while !launched && i < |polls|
      invariant 0 <= i <= |polls|
      invariant launched ==> 0 < i && |polls[i - 1]| == 1 && instanceId == polls[i - 1][0]
      invariant !launched ==> instanceId == None
      invariant forall k :: 0 <= k < i - 1 ==> |polls[k]| != 1
      invariant !launched ==> forall k :: 0 <= k < i ==> |polls[k]| != 1
    {
      var instanceIds := polls[i];
      launched := |instanceIds| == 1;
      instanceId := if launched then instanceIds[0] else None;
      i := i + 1;
    }
    pollsMade := i;
  }

  /** The termination wait loop. Each element of `polls` is the group's instance list one
      iteration sees. */
  method AwaitTermination(polls: seq<seq<Option<string>>>) returns (terminated: bool, pollsMade: nat)
    ensures terminated <==> exists k :: 0 <= k < |polls| && |polls[k]| == 0
    ensures pollsMade <= |polls|
    ensures terminated ==> 0 < pollsMade && |polls[pollsMade - 1]| == 0
    ensures forall k :: 0 <= k < pollsMade - 1 ==> |polls[k]| != 0
    ensures !terminated ==> pollsMade == |polls|
  {
    terminated := false;
    var i := 0;
    while !terminated && i < |polls|
      invariant 0 <= i <= |polls|
      invariant terminated ==> 0 < i && |polls[i - 1]| == 0
      invariant forall k :: 0 <= k < i - 1 ==> |polls[k]| != 0
      invariant !terminated ==> forall k :: 0 <= k < i ==> |polls[k]| != 0
    {
      var instanceIds := polls[i];
      terminated := |instanceIds| == 0;
      i := i + 1;
    }
    pollsMade := i;
  }

  /** A poll that sees an empty group: the condition the termination wait looks for. */
  predicate SeesTermination(polls: seq<seq<Option<string>>>)
  {
    exists k :: 0 <= k < |polls| && |polls[k]| == 0
  }

  /** The id the launch wait records: the only element of the first poll
      that sees one instance, which may itself be null. */
  function LaunchedId(polls: seq<seq<Option<string>>>): (id: Option<string>)
    requires FirstSinglePoll(polls).Some?
  {
    polls[FirstSinglePoll(polls).value][0]
  }

  /** The SDK calls that can throw. */
  datatype SdkCall =
    | CreateLaunchConfig(launchConfig: string)
    | CreateAutoScalingGroup(groupName: string)
    | DescribeAutoScalingInstances(instanceId: string)
    | SetDesiredCapacity(capacity: nat)

  /** What the cloud answers: `false` / `None` where a call throws, the
      polls each wait loop sees before its timeout. */
  datatype DescribeEnv = DescribeEnv(
    namePrefix: string,
    availabilityZone: string,
    launchConfigCreated: bool,
    groupCreated: bool,
    launchPolls: seq<seq<Option<string>>>,
    described: Option<seq<InstanceDetails>>,
    scaledToZero: bool,
    terminatePolls: seq<seq<Option<string>>>,
    failingCleanup: set<Task>)

  datatype DescribeOutcome =
    | Passed
    | CallFailed(call: SdkCall)
    | NotLaunched
    | InstanceIdNull
    | DetailsRejected(error: DetailsError)
    | NotTerminated

  datatype DescribeRun = DescribeRun(outcome: DescribeOutcome, cleanup: seq<Attempt>)

  function LaunchConfigName(env: DescribeEnv): (name: string) { env.namePrefix + "DescribeTest" }
  function GroupName(env: DescribeEnv): (name: string) { env.namePrefix + "DescribeTest" }

  /** The cleanup tasks registered before the body stopped. */
  function DescribeRegistrations(env: DescribeEnv): (tasks: seq<Task>)
  {
    if !env.launchConfigCreated then []
    else if !env.groupCreated then [DeleteLaunchConfig(LaunchConfigName(env))]
    else [DeleteLaunchConfig(LaunchConfigName(env)), DeleteAutoScalingGroup(GroupName(env)),
          TerminateGroupInstances(GroupName(env))]
  }

  /** The describe call returned one instance with the expected details. */
  predicate DetailsAccepted(env: DescribeEnv, instanceId: string)
  {
    && env.described.Some?
    && var ds := env.described.value;
    && |ds| == 1
    && ds[0].instanceId == Some(instanceId)
    && ds[0].autoScalingGroupName == Some(GroupName(env))
    && ds[0].launchConfigurationName == Some(LaunchConfigName(env))
    && ds[0].availabilityZone == Some(env.availabilityZone)
    && ValidHealthStatus(ds[0].healthStatus)
    && ValidLifecycleState(ds[0].lifecycleState)
  }

  /** Every step of the test succeeds. */
  predicate DescribeTestPasses(env: DescribeEnv)
  {
    && env.launchConfigCreated
    && env.groupCreated
    && FirstSinglePoll(env.launchPolls).Some?
    && LaunchedId(env.launchPolls).Some?
    && DetailsAccepted(env, LaunchedId(env.launchPolls).value)
    && env.scaledToZero
    && SeesTermination(env.terminatePolls)
  }

  /** The launch wait saw one running instance, and its id is not null. */
  predicate Launched(env: DescribeEnv)
  {
    && env.launchConfigCreated && env.groupCreated
    && FirstSinglePoll(env.launchPolls).Some? && LaunchedId(env.launchPolls).Some?
  }

  /** What the details of the launched instance must carry. */
  function ExpectedFor(env: DescribeEnv, instanceId: string): (expected: Expected)
  {
    Expected(instanceId, GroupName(env), LaunchConfigName(env), env.availabilityZone)
  }

  /** `outcome` reports the first step of the test that goes wrong: each
      failure is reported exactly when every step before it succeeded and
      that step did not. */
  predicate ReportsFirstFailure(env: DescribeEnv, outcome: DescribeOutcome)
  {
    && (outcome == CallFailed(CreateLaunchConfig(LaunchConfigName(env))) <==> !env.launchConfigCreated)
    && (outcome == CallFailed(CreateAutoScalingGroup(GroupName(env))) <==>
          env.launchConfigCreated && !env.groupCreated)
    && (outcome == NotLaunched <==>
          env.launchConfigCreated && env.groupCreated && FirstSinglePoll(env.launchPolls).None?)
    && (outcome == InstanceIdNull <==>
          && env.launchConfigCreated && env.groupCreated
          && FirstSinglePoll(env.launchPolls).Some? && LaunchedId(env.launchPolls).None?)
    && (outcome.CallFailed? && outcome.call.DescribeAutoScalingInstances? <==>
          Launched(env) && env.described.None?)
    && (outcome.DetailsRejected? <==>
          Launched(env) && env.described.Some? && !DetailsAccepted(env, LaunchedId(env.launchPolls).value))
    && (Launched(env) ==>
          var id := LaunchedId(env.launchPolls).value;
          && (outcome.CallFailed? && outcome.call.DescribeAutoScalingInstances? ==> outcome.call.instanceId == id)
          && (outcome.DetailsRejected? ==> RejectedBy(env.described.value, ExpectedFor(env, id), outcome.error))
          && (outcome == CallFailed(SetDesiredCapacity(0)) <==> DetailsAccepted(env, id) && !env.scaledToZero)
          && (outcome == NotTerminated <==>
                DetailsAccepted(env, id) && env.scaledToZero && !SeesTermination(env.terminatePolls)))
    && (outcome.Passed? <==> DescribeTestPasses(env))
  }

  /** The first-failure report leaves no choice: for a given cloud exactly
      one outcome satisfies it. */
  lemma DescribeReportDetermined(env: DescribeEnv, o1: DescribeOutcome, o2: DescribeOutcome)
    requires ReportsFirstFailure(env, o1) && ReportsFirstFailure(env, o2)
    ensures o1 == o2
  {
    if o1.DetailsRejected? && o2.DetailsRejected? {
      var id := LaunchedId(env.launchPolls).value;
      RejectionUnique(env.described.value, ExpectedFor(env, id), o1.error, o2.error);
    }
  }

  /** The body of the test up to, not including, the `finally` block. */
  method DescribeBody(env: DescribeEnv, cleanup: CleanupTasks) returns (outcome: DescribeOutcome)
    requires cleanup.tasks == []
    modifies cleanup
    ensures cleanup.tasks == DescribeRegistrations(env)
    ensures outcome.Passed? <==> DescribeTestPasses(env)
    ensures outcome == NotLaunched <==>
      env.launchConfigCreated && env.groupCreated && FirstSinglePoll(env.launchPolls).None?
    ensures outcome == InstanceIdNull <==>
      && env.launchConfigCreated && env.groupCreated && FirstSinglePoll(env.launchPolls).Some?
      && LaunchedId(env.launchPolls).None?
    ensures ReportsFirstFailure(env, outcome)
  {
    var launchConfig := LaunchConfigName(env);
    if !env.launchConfigCreated {
      return CallFailed(CreateLaunchConfig(launchConfig));
    }
    cleanup.Add(DeleteLaunchConfig(launchConfig));
    var groupName := GroupName(env);
    if !env.groupCreated {
      return CallFailed(CreateAutoScalingGroup(groupName));
    }
    cleanup.Add(DeleteAutoScalingGroup(groupName));
    cleanup.Add(TerminateGroupInstances(groupName));

    var launched, instanceId, _ := AwaitLaunch(env.launchPolls);
    if !launched {
      return NotLaunched;
    }
    if instanceId.None? {
      return InstanceIdNull;
    }

    if env.described.None? {
      return CallFailed(DescribeAutoScalingInstances(instanceId.value));
    }
    var check := VerifyDetails(env.described.value,
                               Expected(instanceId.value, groupName, launchConfig, env.availabilityZone));
    if check.Fail? {
      return DetailsRejected(check.error);
    }

    if !env.scaledToZero {
      return CallFailed(SetDesiredCapacity(0));
    }
    var terminated, _ := AwaitTermination(env.terminatePolls);
    if !terminated {
      return NotTerminated;
    }
    return Passed;
  }

  /** `AutoScalingDescribeInstancesTest`: the body, then the `finally` block
      that reverses the cleanup list and runs all of it. */
  method AutoScalingDescribeInstancesTest(env: DescribeEnv) returns (run: DescribeRun)
    ensures run.outcome.Passed? <==> DescribeTestPasses(env)
    ensures ReportsFirstFailure(env, run.outcome)
    ensures run.cleanup == Attempts(ReverseOf(DescribeRegistrations(env)), env.failingCleanup)
  {
    var cleanup := new CleanupTasks();
    var outcome := DescribeBody(env, cleanup);
    cleanup.Reverse();
    var log := cleanup.RunAll(env.failingCleanup);
    run := DescribeRun(outcome, log);
  }

  /** Once the group exists, cleanup terminates its instances, then deletes
      the group, then the launch configuration; each is attempted whichever
      of the others throws. */
  lemma CleanupOrder(env: DescribeEnv)
    requires env.launchConfigCreated && env.groupCreated
    ensures var g := GroupName(env);
      var lc := LaunchConfigName(env);
      var f := env.failingCleanup;
      Attempts(ReverseOf(DescribeRegistrations(env)), f)
        == [Attempt(TerminateGroupInstances(g), TerminateGroupInstances(g) !in f),
            Attempt(DeleteAutoScalingGroup(g), DeleteAutoScalingGroup(g) !in f),
            Attempt(DeleteLaunchConfig(lc), DeleteLaunchConfig(lc) !in f)]
  {
  }
}
