/** TestAutoScalingMultipleAvailabilityZones: a group spread over two
    availability zones must keep its instances evenly split between them as
    its desired capacity goes 2, 4, 2, 0, 4. */
module MultipleAvailabilityZones {
  import opened Wrappers
  import opened Cleanup

  /** The EC2 `Placement` of an instance; its zone may be null. */
  datatype Placement = Placement(availabilityZone: Option<string>)

  /** An EC2 `Instance` as far as the test looks at it: its placement, which may be null. */
  datatype Instance = Instance(placement: Option<Placement>)

  /** The test of `countZoneInstances`: a placement is present and its zone equals `zone`. */
  predicate InZone(instance: Instance, zone: string)
  {
    instance.placement.Some? && instance.placement.value.availabilityZone == Some(zone)
  }

  /** The number of instances placed in `zone`. */
  function ZoneCount(instances: seq<Instance>, zone: string): (n: nat)
    ensures n <= |instances|
  {
    if instances == [] then 0
    else
      ZoneCount(instances[..|instances| - 1], zone)
      + (if InZone(instances[|instances| - 1], zone) then 1 else 0)
  }

  /** The positions of the instances placed in `zone`: an independent reading of ZoneCount. */
  function ZoneIndices(instances: seq<Instance>, zone: string): (indices: set<nat>)
  {
    set k: nat | k < |instances| && InZone(instances[k], zone)
  }

  lemma {:induction false} ZoneCountIsIndexCount(instances: seq<Instance>, zone: string)
    ensures ZoneCount(instances, zone) == |ZoneIndices(instances, zone)|
  {
    if instances == [] {
      assert ZoneIndices(instances, zone) == {};
    } else {
      var n := |instances| - 1;
      var p := instances[..n];
      ZoneCountIsIndexCount(p, zone);
      if InZone(instances[n], zone) {
        assert ZoneIndices(instances, zone) == ZoneIndices(p, zone) + {n};
      } else {
        assert ZoneIndices(instances, zone) == ZoneIndices(p, zone);
      }
    }
  }

  /** The instances whose placement is not null, in order. */
  function Placed(instances: seq<Instance>): (r: seq<Instance>)
    ensures |r| <= |instances|
    ensures forall k :: 0 <= k < |r| ==> r[k].placement.Some?
  {
    if instances == [] then []
    else
      var last := instances[|instances| - 1];
      Placed(instances[..|instances| - 1]) + (if last.placement.Some? then [last] else [])
  }

  /** An instance with a null placement is counted for no zone: dropping all
      of them changes no zone's count. */
  lemma {:induction false} UnplacedNotCounted(instances: seq<Instance>, zone: string)
    ensures ZoneCount(Placed(instances), zone) == ZoneCount(instances, zone)
  {
    if instances != [] {
      var n := |instances| - 1;
      var p := instances[..n];
      UnplacedNotCounted(p, zone);
      var q := Placed(p);
      if instances[n].placement.Some? {
        assert Placed(instances) == q + [instances[n]];
        assert (q + [instances[n]])[..|q|] == q;
      } else {
        assert Placed(instances) == q + [] == q;
      }
    }
  }

  /** The number of instances in neither `zone1` nor `zone2`. */
  function OutsideCount(instances: seq<Instance>, zone1: string, zone2: string): (n: nat)
  {
    if instances == [] then 0
    else
      var last := instances[|instances| - 1];
      OutsideCount(instances[..|instances| - 1], zone1, zone2)
      + (if InZone(last, zone1) || InZone(last, zone2) then 0 else 1)
  }

  /** Two different zones and the rest partition the instances. */
  lemma {:induction false} ZonesPartition(instances: seq<Instance>, zone1: string, zone2: string)
    requires zone1 != zone2
    ensures ZoneCount(instances, zone1) + ZoneCount(instances, zone2)
              + OutsideCount(instances, zone1, zone2) == |instances|
  {
    if instances != [] {
      ZonesPartition(instances[..|instances| - 1], zone1, zone2);
    }
  }

  lemma {:induction false} OutsideCountZero(instances: seq<Instance>, zone1: string, zone2: string)
    ensures (OutsideCount(instances, zone1, zone2) == 0)
        <==> (forall k :: 0 <= k < |instances| ==> InZone(instances[k], zone1) || InZone(instances[k], zone2))
  {
    if instances != [] {
      var n := |instances| - 1;
      var p := instances[..n];
      OutsideCountZero(p, zone1, zone2);
      assert forall k :: 0 <= k < n ==> instances[k] == p[k];
    }
  }

  /** The condition `assertBalanced` asserts. */
  predicate Balanced(instances: seq<Instance>, zone1: string, zone2: string)
  {
    var c1 := ZoneCount(instances, zone1);
    var c2 := ZoneCount(instances, zone2);
    c1 + c2 == |instances| && c1 == c2
  }

  /** For two different zones, the check passes exactly when every instance
      lies in one of the two zones and the zones hold as many instances. */
  lemma BalancedIff(instances: seq<Instance>, zone1: string, zone2: string)
    requires zone1 != zone2
    ensures Balanced(instances, zone1, zone2)
        <==> (forall k :: 0 <= k < |instances| ==> InZone(instances[k], zone1) || InZone(instances[k], zone2))
             && ZoneCount(instances, zone1) == ZoneCount(instances, zone2)
  {
    ZonesPartition(instances, zone1, zone2);
    OutsideCountZero(instances, zone1, zone2);
  }

  /** A balanced list has even length, half of it in each zone. */
  lemma BalancedIsEvenSplit(instances: seq<Instance>, zone1: string, zone2: string)
    requires Balanced(instances, zone1, zone2)
    ensures |instances| % 2 == 0
    ensures ZoneCount(instances, zone1) == |instances| / 2 == ZoneCount(instances, zone2)
  {
  }

  /** `countZoneInstances` */
  method CountZoneInstances(instances: seq<Instance>, zone: string) returns (count: int)
    ensures count == ZoneCount(instances, zone)
    ensures 0 <= count <= |instances|
  {
    count := 0;
    var i := 0;
    while i < |instances|
      invariant 0 <= i <= |instances|
      invariant count == ZoneCount(instances[..i], zone)
    {
      var instance := instances[i];
      if instance.placement.Some? && instance.placement.value.availabilityZone == Some(zone) {
        count := count + 1;
      }
      assert instances[..i + 1][..i] == instances[..i];
      i := i + 1;
    }
    assert instances[..i] == instances;
  }

  /** The failure message of `assertBalanced`: both zones with their counts. */
  datatype Imbalance = Imbalance(zone1: string, zone1Count: int, zone2: string, zone2Count: int)

  /** `assertBalanced` */
  method AssertBalanced(instances: seq<Instance>, zone1: string, zone2: string)
    returns (r: Outcome<Imbalance>)
    ensures r.Pass? <==> Balanced(instances, zone1, zone2)
    ensures r.Fail? ==> r.error == Imbalance(zone1, ZoneCount(instances, zone1),
                                             zone2, ZoneCount(instances, zone2))
  {
    var zone1Count := CountZoneInstances(instances, zone1);
    var zone2Count := CountZoneInstances(instances, zone2);
    if zone1Count + zone2Count == |instances| && zone1Count == zone2Count {
      r := Pass;
    } else {
      r := Fail(Imbalance(zone1, zone1Count, zone2, zone2Count));
    }
  }

  /** The SDK calls the test makes, in the order it makes them. */
  datatype SdkCall =
    | DescribeAvailabilityZones
    | CreateLaunchConfig(launchConfig: string)
    | CreateAutoScalingGroup(groupName: string)
    | SetDesiredCapacity(capacity: nat)
    | WaitForInstances(count: nat)

  /** What the cloud answers. A call that throws is `false` / `None`; a wait
      yields the group's instances when they reach the expected count. */
  datatype ZonesEnv = ZonesEnv(
    zonesDescribed: bool,
    zoneNames: seq<string>,
    namePrefix: string,
    launchConfigCreated: bool,
    groupCreated: bool,
    firstTwo: Option<seq<Instance>>,
    scaledToFour: bool, firstFour: Option<seq<Instance>>,
    scaledToTwo: bool, secondTwo: Option<seq<Instance>>,
    scaledToZero: bool, none: Option<seq<Instance>>,
    rescaledToFour: bool, secondFour: Option<seq<Instance>>,
    failingCleanup: set<Task>)

  datatype ZonesOutcome =
    | Skipped
    | Passed
    | CallFailed(call: SdkCall)
    | NotBalanced(imbalance: Imbalance)

  datatype ZonesRun = ZonesRun(outcome: ZonesOutcome, calls: seq<SdkCall>, cleanup: seq<Attempt>)

  function LaunchConfigName(env: ZonesEnv): (name: string) { env.namePrefix + "MultipleZones" }
  function GroupName(env: ZonesEnv): (name: string) { env.namePrefix + "MultipleZones" }

  /** Every SDK call of a run that is not skipped and does not stop early. */
  function ZonesScript(env: ZonesEnv): (calls: seq<SdkCall>)
  {
    [DescribeAvailabilityZones, CreateLaunchConfig(LaunchConfigName(env)), CreateAutoScalingGroup(GroupName(env)),
     WaitForInstances(2), SetDesiredCapacity(4), WaitForInstances(4), SetDesiredCapacity(2), WaitForInstances(2),
     SetDesiredCapacity(0), WaitForInstances(0), SetDesiredCapacity(4), WaitForInstances(4)]
  }

  /** The cleanup tasks registered before the body stopped. */
  function ZonesRegistrations(env: ZonesEnv): (tasks: seq<Task>)
  {
    if !env.zonesDescribed || |env.zoneNames| < 2 || !env.launchConfigCreated then []
    else if !env.groupCreated then [DeleteLaunchConfig(LaunchConfigName(env))]
    else [DeleteLaunchConfig(LaunchConfigName(env)), DeleteAutoScalingGroup(GroupName(env))]
  }

  /** A wait that returned and whose instances are balanced over the two zones. */
  predicate BalancedWait(w: Option<seq<Instance>>, zone1: string, zone2: string)
  {
    w.Some? && Balanced(w.value, zone1, zone2)
  }

  /** Every call of the script succeeds and the four checked waits are balanced. */
  predicate ZonesTestPasses(env: ZonesEnv)
    requires |env.zoneNames| >= 2
  {
    var z1 := env.zoneNames[0];
    var z2 := env.zoneNames[1];
    && env.zonesDescribed
    && env.launchConfigCreated && env.groupCreated
    && BalancedWait(env.firstTwo, z1, z2)
    && env.scaledToFour && BalancedWait(env.firstFour, z1, z2)
    && env.scaledToTwo && BalancedWait(env.secondTwo, z1, z2)
    && env.scaledToZero && env.none.Some?
    && env.rescaledToFour && BalancedWait(env.secondFour, z1, z2)
  }

  /** Whether call `k` of the script returns instead of throwing. */
  predicate CallReturns(env: ZonesEnv, k: nat)
  {
    match k
    case 0 => env.zonesDescribed
    case 1 => env.launchConfigCreated
    case 2 => env.groupCreated
    case 3 => env.firstTwo.Some?
    case 4 => env.scaledToFour
    case 5 => env.firstFour.Some?
    case 6 => env.scaledToTwo
    case 7 => env.secondTwo.Some?
    case 8 => env.scaledToZero
    case 9 => env.none.Some?
    case 10 => env.rescaledToFour
    case 11 => env.secondFour.Some?
    case _ => false
  }

  /** The instances `assertBalanced` checks right after call `k`: the waits
      for 2, 4, 2 and 4 instances are checked, the wait for 0 is not. */
  function CheckedWait(env: ZonesEnv, k: nat): (w: Option<seq<Instance>>)
  {
    if k == 3 then env.firstTwo
    else if k == 5 then env.firstFour
    else if k == 7 then env.secondTwo
    else if k == 11 then env.secondFour
    else None
  }

  /** Call `k` returns, and the balance check after it, if any, passes. */
  predicate StepPasses(env: ZonesEnv, k: nat)
    requires |env.zoneNames| >= 2
  {
    && CallReturns(env, k)
    && (CheckedWait(env, k).Some? ==>
          Balanced(CheckedWait(env, k).value, env.zoneNames[0], env.zoneNames[1]))
  }

  /** Every step before step `n` passed. */
  predicate PassedBefore(env: ZonesEnv, n: nat)
    decreases n
  {
    && |env.zoneNames| >= 2
    && (n == 0 || (PassedBefore(env, n - 1) && StepPasses(env, n - 1)))
  }

  lemma PassedNext(env: ZonesEnv, n: nat)
    requires |env.zoneNames| >= 2
    requires PassedBefore(env, n) && StepPasses(env, n)
    ensures PassedBefore(env, n + 1)
  {
  }

  /** Each step before `n` passed. */
  lemma {:induction false} PassedBeforeAt(env: ZonesEnv, n: nat, k: nat)
    requires PassedBefore(env, n) && k < n
    ensures StepPasses(env, k)
  {
    if k < n - 1 {
      PassedBeforeAt(env, n - 1, k);
    }
  }

  /** Appending the next call of the script keeps the calls a prefix of it. */
  lemma ScriptGrows(env: ZonesEnv, calls: seq<SdkCall>, c: SdkCall)
    requires |calls| < |ZonesScript(env)| && calls == ZonesScript(env)[..|calls|]
    requires c == ZonesScript(env)[|calls|]
    ensures calls + [c] == ZonesScript(env)[..|calls| + 1]
  {
  }

  /** A call that throws after every earlier step passed is reported as the failure. */
  lemma ReportCallFailed(env: ZonesEnv, calls: seq<SdkCall>, call: SdkCall)
    requires 1 < |calls| <= |ZonesScript(env)| && calls == ZonesScript(env)[..|calls|]
    requires PassedBefore(env, |calls| - 1) && !CallReturns(env, |calls| - 1)
    requires call == calls[|calls| - 1]
    ensures ReportsFirstFailure(env, CallFailed(call), calls)
  {
  }

  /** A failed balance check after every earlier step passed is reported as the failure. */
  lemma ReportNotBalanced(env: ZonesEnv, calls: seq<SdkCall>, imbalance: Imbalance)
    requires 1 < |calls| <= |ZonesScript(env)| && calls == ZonesScript(env)[..|calls|]
    requires PassedBefore(env, |calls| - 1) && CallReturns(env, |calls| - 1)
    requires CheckedWait(env, |calls| - 1).Some?
    requires var w, z1, z2 := CheckedWait(env, |calls| - 1).value, env.zoneNames[0], env.zoneNames[1];
             !Balanced(w, z1, z2) && imbalance == Imbalance(z1, ZoneCount(w, z1), z2, ZoneCount(w, z2))
    ensures ReportsFirstFailure(env, NotBalanced(imbalance), calls)
  {
  }

  /** A run that made `calls` reports `outcome` for the first step that goes
      wrong: the calls are a prefix of the script, every step before the last
      one passed, and the last one failed the way `outcome` says. */
  predicate ReportsFirstFailure(env: ZonesEnv, outcome: ZonesOutcome, calls: seq<SdkCall>)
  {
    && 1 <= |calls| <= |ZonesScript(env)|
    && calls == ZonesScript(env)[..|calls|]
    && (|calls| > 1 ==> PassedBefore(env, |calls| - 1))
    && match outcome
       case Skipped => |calls| == 1 && env.zonesDescribed && |env.zoneNames| < 2
       case Passed => |calls| == |ZonesScript(env)| && StepPasses(env, |calls| - 1)
       case CallFailed(call) => call == calls[|calls| - 1] && !CallReturns(env, |calls| - 1)
       case NotBalanced(imbalance) =>
         && |calls| > 1
         && CallReturns(env, |calls| - 1)
         && CheckedWait(env, |calls| - 1).Some?
         && var w, z1, z2 := CheckedWait(env, |calls| - 1).value, env.zoneNames[0], env.zoneNames[1];
         && !Balanced(w, z1, z2)
         && imbalance == Imbalance(z1, ZoneCount(w, z1), z2, ZoneCount(w, z2))
  }

  /** Everything the other clauses of the test's contract say follows from
      the first-failure report. */
  lemma FirstFailureOutcomes(env: ZonesEnv, outcome: ZonesOutcome, calls: seq<SdkCall>)
    requires ReportsFirstFailure(env, outcome, calls)
    ensures outcome == CallFailed(DescribeAvailabilityZones) <==> !env.zonesDescribed
    ensures outcome.Skipped? <==> env.zonesDescribed && |env.zoneNames| < 2
    ensures outcome.Skipped? ==> calls == [DescribeAvailabilityZones]
    ensures !env.zonesDescribed ==> calls == [DescribeAvailabilityZones]
    ensures outcome.Passed? <==> |env.zoneNames| >= 2 && ZonesTestPasses(env)
    ensures outcome.NotBalanced? ==> outcome.imbalance.zone1 == env.zoneNames[0]
                                     && outcome.imbalance.zone2 == env.zoneNames[1]
    ensures outcome.Passed? ==> calls == ZonesScript(env)
    ensures outcome.CallFailed? ==> |calls| > 0 && calls[|calls| - 1] == outcome.call
  {
  }

  /** The first-failure report leaves no choice: for a given cloud there is
      exactly one outcome and one sequence of calls it can describe. */
  lemma {:induction false} ZonesReportDetermined(env: ZonesEnv, o1: ZonesOutcome, c1: seq<SdkCall>,
                                                 o2: ZonesOutcome, c2: seq<SdkCall>)
    requires ReportsFirstFailure(env, o1, c1) && ReportsFirstFailure(env, o2, c2)
    ensures o1 == o2 && c1 == c2
  {
    if |c1| < |c2| {
      PassedBeforeAt(env, |c2| - 1, |c1| - 1);
    } else if |c2| < |c1| {
      PassedBeforeAt(env, |c1| - 1, |c2| - 1);
    }
  }

  /** When the launch configuration cannot be created, the run reports that
      call, after the zone lookup and that call only. */
  lemma LaunchConfigFailureReported(env: ZonesEnv, outcome: ZonesOutcome, calls: seq<SdkCall>)
    requires env.zonesDescribed && |env.zoneNames| >= 2 && !env.launchConfigCreated
    requires ReportsFirstFailure(env, outcome, calls)
    ensures outcome == CallFailed(CreateLaunchConfig(LaunchConfigName(env)))
    ensures calls == [DescribeAvailabilityZones, CreateLaunchConfig(LaunchConfigName(env))]
  {
    if |calls| > 2 {
      PassedBeforeAt(env, |calls| - 1, 1);
    }
  }

  /** The body of the test up to, not including, the `finally` block. */
  method ZonesBody(env: ZonesEnv, cleanup: CleanupTasks) returns (outcome: ZonesOutcome, calls: seq<SdkCall>)
    requires cleanup.tasks == []
    modifies cleanup
    ensures cleanup.tasks == ZonesRegistrations(env)
    ensures ReportsFirstFailure(env, outcome, calls)
    ensures outcome == CallFailed(DescribeAvailabilityZones) <==> !env.zonesDescribed
    ensures outcome.Skipped? <==> env.zonesDescribed && |env.zoneNames| < 2
    ensures outcome.Skipped? ==> calls == [DescribeAvailabilityZones]
    ensures !env.zonesDescribed ==> calls == [DescribeAvailabilityZones]
    ensures outcome.Passed? <==> |env.zoneNames| >= 2 && ZonesTestPasses(env)
    ensures outcome.NotBalanced? ==> outcome.imbalance.zone1 == env.zoneNames[0]
                                     && outcome.imbalance.zone2 == env.zoneNames[1]
    ensures outcome.Passed? ==> calls == ZonesScript(env)
    ensures outcome.CallFailed? ==> |calls| > 0 && calls[|calls| - 1] == outcome.call
  {
    calls := [DescribeAvailabilityZones];
    if !env.zonesDescribed {
      outcome := CallFailed(DescribeAvailabilityZones);
    } else if |env.zoneNames| < 2 {
      outcome := Skipped;
    } else {
      PassedNext(env, 0);
      var launchConfig := LaunchConfigName(env);
      ScriptGrows(env, calls, CreateLaunchConfig(launchConfig));
      calls := calls + [CreateLaunchConfig(launchConfig)];
      if !env.launchConfigCreated {
        ReportCallFailed(env, calls, CreateLaunchConfig(launchConfig));
        outcome := CallFailed(CreateLaunchConfig(launchConfig));
      } else {
        cleanup.Add(DeleteLaunchConfig(launchConfig));
        PassedNext(env, 1);
        var groupName := GroupName(env);
        ScriptGrows(env, calls, CreateAutoScalingGroup(groupName));
        calls := calls + [CreateAutoScalingGroup(groupName)];
        if !env.groupCreated {
          ReportCallFailed(env, calls, CreateAutoScalingGroup(groupName));
          outcome := CallFailed(CreateAutoScalingGroup(groupName));
        } else {
          cleanup.Add(DeleteAutoScalingGroup(groupName));
          PassedNext(env, 2);
          outcome, calls := ResizeAndCheck(env, calls);
        }
      }
    }
    FirstFailureOutcomes(env, outcome, calls);
  }

  /** The part of the body after the group exists: the first wait, then the
      resizes to 4, 2, 0 and 4, none of which registers a cleanup task. */
  method ResizeAndCheck(env: ZonesEnv, made: seq<SdkCall>) returns (outcome: ZonesOutcome, calls: seq<SdkCall>)
    requires |made| == 3 && made == ZonesScript(env)[..3]
    requires PassedBefore(env, 3)
    ensures ReportsFirstFailure(env, outcome, calls)
  {
    var stopped: Option<ZonesOutcome>;
    stopped, calls := AwaitInstances(env, made, 2, env.firstTwo, true);
    if stopped.Some? {
      return stopped.value, calls;
    }
    stopped, calls := Resize(env, calls, 4, env.scaledToFour, env.firstFour, true);
    if stopped.Some? {
      return stopped.value, calls;
    }
    stopped, calls := Resize(env, calls, 2, env.scaledToTwo, env.secondTwo, true);
    if stopped.Some? {
      return stopped.value, calls;
    }
    stopped, calls := Resize(env, calls, 0, env.scaledToZero, env.none, false);
    if stopped.Some? {
      return stopped.value, calls;
    }
    stopped, calls := Resize(env, calls, 4, env.rescaledToFour, env.secondFour, true);
    if stopped.Some? {
      return stopped.value, calls;
    }
    return Passed, calls;
  }

  /** `waitForInstances(timeout, count, ...)`, then, when `checked`,
      `assertBalanced` on the instances it returns. `wait` is what the wait
      yields (`None` when it throws). The run stops with `stopped` when either
      fails; otherwise every step so far has passed. */
  method AwaitInstances(env: ZonesEnv, made: seq<SdkCall>, count: nat, wait: Option<seq<Instance>>, checked: bool)
    returns (stopped: Option<ZonesOutcome>, calls: seq<SdkCall>)
    requires 3 <= |made| < |ZonesScript(env)| && made == ZonesScript(env)[..|made|]
    requires PassedBefore(env, |made|)
    requires ZonesScript(env)[|made|] == WaitForInstances(count)
    requires CallReturns(env, |made|) == wait.Some?
    requires CheckedWait(env, |made|) == (if checked then wait else None)
    ensures |calls| == |made| + 1 && calls == ZonesScript(env)[..|calls|]
    ensures stopped.Some? ==> ReportsFirstFailure(env, stopped.value, calls) && !stopped.value.Passed?
    ensures stopped.None? ==> PassedBefore(env, |calls|)
  {
    ScriptGrows(env, made, WaitForInstances(count));
    calls := made + [WaitForInstances(count)];
    if wait.None? {
      ReportCallFailed(env, calls, WaitForInstances(count));
      return Some(CallFailed(WaitForInstances(count))), calls;
    }
    if checked {
      var o := AssertBalanced(wait.value, env.zoneNames[0], env.zoneNames[1]);
      if o.Fail? {
        ReportNotBalanced(env, calls, o.error);
        return Some(NotBalanced(o.error)), calls;
      }
    }
    PassedNext(env, |made|);
    return None, calls;
  }

  /** One resize: `setDesiredCapacity(capacity)`, which throws unless
      `scaled`, then the wait for `capacity` instances and its check. */
  method Resize(env: ZonesEnv, made: seq<SdkCall>, capacity: nat, scaled: bool,
                wait: Option<seq<Instance>>, checked: bool)
    returns (stopped: Option<ZonesOutcome>, calls: seq<SdkCall>)
    requires 3 <= |made| && |made| + 1 < |ZonesScript(env)| && made == ZonesScript(env)[..|made|]
    requires PassedBefore(env, |made|)
    requires ZonesScript(env)[|made|] == SetDesiredCapacity(capacity)
    requires ZonesScript(env)[|made| + 1] == WaitForInstances(capacity)
    requires CallReturns(env, |made|) == scaled && CheckedWait(env, |made|).None?
    requires CallReturns(env, |made| + 1) == wait.Some?
    requires CheckedWait(env, |made| + 1) == (if checked then wait else None)
    ensures |made| < |calls| <= |made| + 2 && calls == ZonesScript(env)[..|calls|]
    ensures stopped.Some? ==> ReportsFirstFailure(env, stopped.value, calls) && !stopped.value.Passed?
    ensures stopped.None? ==> |calls| == |made| + 2 && PassedBefore(env, |calls|)
  {
    ScriptGrows(env, made, SetDesiredCapacity(capacity));
    calls := made + [SetDesiredCapacity(capacity)];
    if !scaled {
      ReportCallFailed(env, calls, SetDesiredCapacity(capacity));
      return Some(CallFailed(SetDesiredCapacity(capacity))), calls;
    }
    PassedNext(env, |made|);
    stopped, calls := AwaitInstances(env, calls, capacity, wait, checked);
  }

  /** `AutoScalingMultipleAvailabilityZonesTest`: the body, then the
      `finally` block that reverses the cleanup list and runs all of it. */
  method AutoScalingMultipleAvailabilityZonesTest(env: ZonesEnv) returns (run: ZonesRun)
    ensures run.outcome == CallFailed(DescribeAvailabilityZones) <==> !env.zonesDescribed
    ensures run.outcome.Skipped? <==> env.zonesDescribed && |env.zoneNames| < 2
    ensures run.outcome.Skipped? ==> run.calls == [DescribeAvailabilityZones] && run.cleanup == []
    ensures !env.zonesDescribed ==> run.calls == [DescribeAvailabilityZones] && run.cleanup == []
    ensures run.outcome.Passed? <==> |env.zoneNames| >= 2 && ZonesTestPasses(env)
    ensures ReportsFirstFailure(env, run.outcome, run.calls)
    ensures run.cleanup == Attempts(ReverseOf(ZonesRegistrations(env)), env.failingCleanup)
  {
    var cleanup := new CleanupTasks();
    var outcome, calls := ZonesBody(env, cleanup);
    cleanup.Reverse();
    var log := cleanup.RunAll(env.failingCleanup);
    run := ZonesRun(outcome, calls, log);
  }

  /** Once the group exists, its deletion is attempted before the launch
      configuration's, and both are attempted whichever of them throws. */
  lemma GroupDeletedBeforeLaunchConfig(env: ZonesEnv)
    requires env.zonesDescribed && |env.zoneNames| >= 2 && env.launchConfigCreated && env.groupCreated
    ensures Attempts(ReverseOf(ZonesRegistrations(env)), env.failingCleanup)
            == [Attempt(DeleteAutoScalingGroup(GroupName(env)),
                        DeleteAutoScalingGroup(GroupName(env)) !in env.failingCleanup),
                Attempt(DeleteLaunchConfig(LaunchConfigName(env)),
                        DeleteLaunchConfig(LaunchConfigName(env)) !in env.failingCleanup)]
  {
  }
}
