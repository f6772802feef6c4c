/** The cleanup discipline shared by the auto-scaling tests: every resource
    the test creates registers a task that undoes it; in the `finally` block
    the task list is reversed in place and every task is run, an exception
    in one task being caught and printed so that the later ones still run. */
module Cleanup {

  /** The cleanup tasks the two tests register. */
  datatype Task =
    | DeleteLaunchConfig(launchConfig: string)
    | DeleteAutoScalingGroup(groupName: string)
    | TerminateGroupInstances(groupName: string)

  /** One run of a task; `completed` is false when the task threw. */
  datatype Attempt = Attempt(task: Task, completed: bool)

  /** The sequence `s` read back to front. */
  function ReverseOf<T>(s: seq<T>): (r: seq<T>)
  {
    seq(|s|, k requires 0 <= k < |s| => s[|s| - 1 - k])
  }

  /** The attempts made when every task of `tasks` is run in list order and
      the tasks in `failing` throw. */
  function Attempts(tasks: seq<Task>, failing: set<Task>): (log: seq<Attempt>)
    ensures |log| == |tasks|
    ensures forall k :: 0 <= k < |tasks| ==> log[k].task == tasks[k]
    ensures forall k :: 0 <= k < |tasks| ==> (log[k].completed <==> tasks[k] !in failing)
  {
    if tasks == [] then []
    else [Attempt(tasks[0], tasks[0] !in failing)] + Attempts(tasks[1..], failing)
  }

  /** Running the reversed registrations attempts every registered task, the
      one registered later always before the one registered earlier, whatever
      the failing tasks are. */
  lemma CleanupRunsInReverse(registered: seq<Task>, failing: set<Task>, i: nat, j: nat)
    requires i < j < |registered|
    ensures |Attempts(ReverseOf(registered), failing)| == |registered|
    // registered[j] is attempted at position n-1-j, before registered[i] at n-1-i
    ensures Attempts(ReverseOf(registered), failing)[|registered| - 1 - j].task == registered[j]
    ensures Attempts(ReverseOf(registered), failing)[|registered| - 1 - i].task == registered[i]
  {
  }

  /** The `cleanupTasks` list of a test. */
  class CleanupTasks {
    var tasks: seq<Task>

    constructor ()
      ensures tasks == []
    {
      tasks := [];
    }

    /** `cleanupTasks.add(task)` */
    method Add(t: Task)
      modifies this
      ensures tasks == old(tasks) + [t]
    {
      tasks := tasks + [t];
    }

    /** `Collections.reverse(cleanupTasks)`: swaps the ends pairwise. */
    method Reverse()
      modifies this
      ensures tasks == ReverseOf(old(tasks))
    {
      var n := |tasks|;
      var i := 0;
      while i < n / 2
        invariant 0 <= i <= n / 2
        invariant |tasks| == n
        invariant forall k :: 0 <= k < i ==> tasks[k] == old(tasks)[n - 1 - k]
        invariant forall k :: 0 <= k < i ==> tasks[n - 1 - k] == old(tasks)[k]
        invariant forall k :: i <= k < n - i ==> tasks[k] == old(tasks)[k]
      {
        tasks := tasks[i := tasks[n - 1 - i]][n - 1 - i := tasks[i]];
        i := i + 1;
      }
    }

    /** The `for` loop of the `finally` block: runs every task in list order;
        an exception in one is caught and the loop goes on. */
    method RunAll(failing: set<Task>) returns (log: seq<Attempt>)
      ensures log == Attempts(tasks, failing)
    {
      log := [];
      var i := 0;
      while i < |tasks|
        invariant 0 <= i <= |tasks|
        invariant log == Attempts(tasks[..i], failing)
      {
        var completed := tasks[i] !in failing;
        log := log + [Attempt(tasks[i], completed)];
        AttemptsSnoc(tasks[..i], tasks[i], failing);
        assert tasks[..i + 1] == tasks[..i] + [tasks[i]];
        i := i + 1;
      }
      assert tasks[..i] == tasks;
    }
  }

  lemma {:induction false} AttemptsSnoc(tasks: seq<Task>, t: Task, failing: set<Task>)
    ensures Attempts(tasks + [t], failing) == Attempts(tasks, failing) + [Attempt(t, t !in failing)]
  {
  }
}
