/**
 * The bounded-concurrency scheduler of src/utils/taskQueue.ts. A task is named by a
 * number; the moment its promise fulfils is the explicit event `Complete`. A rejected
 * task has no handler in the queue, so for it `Complete` never comes.
 */
module Tasks {

  /** How many queued tasks one `next()` starts from `running` in flight and `queued` waiting. */
  function Startable(running: int, concurrency: int, queued: nat): (k: nat)
    ensures k <= queued
    ensures running < concurrency ==> k == queued || running + k == concurrency
    ensures running >= concurrency ==> k == 0
    ensures k > 0 ==> running + k <= concurrency
  {
    if running >= concurrency then 0
    else if queued <= concurrency - running then queued
    else concurrency - running
  }

  class TaskQueue {
    const concurrency: int
    /** Whether an `onDone` callback was given. */
    const hasOnDone: bool
    var running: int
    /** Tasks pushed and not started yet, oldest first. */
    var queue: seq<nat>
    /** How many times `onDone` has been called. */
    var doneCalls: nat
    /** Every task pushed, oldest first. */
    ghost var pushed: seq<nat>
    /** The tasks started, in the order they were started. */
    ghost var started: seq<nat>
    /** How many started tasks have fulfilled. */
    ghost var fulfilled: nat

    /** Tasks start in push order; `running` counts the started tasks not yet fulfilled and stays within the bound. */
    ghost predicate Valid()
      reads this
    {
      && started + queue == pushed
      && running >= 0
      && running + fulfilled == |started|
      && (running <= concurrency || running == 0)
    }

    constructor (concurrency: int, hasOnDone: bool)
      ensures Valid()
      ensures this.concurrency == concurrency && this.hasOnDone == hasOnDone
      ensures running == 0 && queue == [] && doneCalls == 0 && pushed == [] && fulfilled == 0
    {
      this.concurrency := concurrency;
      this.hasOnDone := hasOnDone;
      running := 0;
      queue := [];
      doneCalls := 0;
      pushed := [];
      started := [];
      fulfilled := 0;
    }

    /** Add a task at the back of the queue, then start what the bound allows. */
    method Push(task: nat)
      requires Valid()
      modifies this
      ensures Valid()
      ensures pushed == old(pushed) + [task] && fulfilled == old(fulfilled)
      ensures running + |queue| == old(running) + |old(queue)| + 1
      ensures var k := Startable(old(running), concurrency, |old(queue)| + 1);
        && running == old(running) + k
        && queue == (old(queue) + [task])[k..]
        && started == old(started) + (old(queue) + [task])[..k]
      ensures queue == [] || running >= concurrency
      ensures doneCalls == old(doneCalls)
    {
      queue := queue + [task];
      pushed := pushed + [task];
      Next();
    }

    /**
     * `next()`: with nothing running and nothing queued it calls `onDone` and starts
     * nothing; otherwise it starts queued tasks, front first, while fewer than
     * `concurrency` run.
     */
    method Next()
      requires Valid()
      modifies this
      ensures Valid()
      ensures pushed == old(pushed) && fulfilled == old(fulfilled)
      ensures old(running) == 0 && old(queue) == [] ==>
        && doneCalls == old(doneCalls) + (if hasOnDone then 1 else 0)
        && running == 0 && queue == [] && started == old(started)
      ensures !(old(running) == 0 && old(queue) == []) ==>
        var k := Startable(old(running), concurrency, |old(queue)|);
        && doneCalls == old(doneCalls)
        && running == old(running) + k
        && queue == old(queue)[k..]
        && started == old(started) + old(queue)[..k]
      ensures queue == [] || running >= concurrency
    {
      if running == 0 && |queue| == 0 {
        if hasOnDone {
          doneCalls := doneCalls + 1;
        }
        return;
      }
      ghost var k := Startable(running, concurrency, |queue|);
      ghost var taken := 0;
      while running < concurrency && |queue| > 0
        invariant 0 <= taken <= k
        invariant running == old(running) + taken
        invariant queue == old(queue)[taken..]
        invariant started == old(started) + old(queue)[..taken]
        invariant pushed == old(pushed) && fulfilled == old(fulfilled) && doneCalls == old(doneCalls)
        invariant taken > 0 ==> running <= concurrency
        decreases |queue|
      {
        var task := queue[0];
        queue := queue[1..];
        started := started + [task];
        running := running + 1;
        taken := taken + 1;
        assert old(queue)[..taken] == old(queue)[..taken - 1] + [task];
      }
      assert started + queue == old(started) + old(queue)[..taken] + old(queue)[taken..];
      assert old(queue)[..taken] + old(queue)[taken..] == old(queue);
    }

    /** A started task's promise fulfils: `_running--`, then `next()`. */
    method Complete()
      requires Valid()
      requires running > 0
      modifies this
      ensures Valid()
      ensures pushed == old(pushed) && fulfilled == old(fulfilled) + 1
      ensures old(running) == 1 && old(queue) == [] ==>
        && doneCalls == old(doneCalls) + (if hasOnDone then 1 else 0)
        && running == 0 && queue == [] && started == old(started)
      ensures !(old(running) == 1 && old(queue) == []) ==>
        var k := Startable(old(running) - 1, concurrency, |old(queue)|);
        && doneCalls == old(doneCalls)
        && running == old(running) - 1 + k
        && queue == old(queue)[k..]
        && started == old(started) + old(queue)[..k]
      ensures queue == [] || running >= concurrency
    {
      running := running - 1;
      fulfilled := fulfilled + 1;
      Next();
    }
  }

  /**
   * Ten tasks into a queue of concurrency 3: three run after the pushes, they start in
   * push order, and `onDone` fires exactly once, after the tenth fulfils.
   */
  method TenTasksThreeAtATime() returns (runningAfterPushes: int, doneCallsBeforeLast: nat, doneCallsAtEnd: nat, ghost order: seq<nat>)
    ensures runningAfterPushes == 3
    ensures doneCallsBeforeLast == 0 && doneCallsAtEnd == 1
    ensures order == [0, 1, 2, 3, 4, 5, 6, 7, 8, 9]
  {
    var q := new TaskQueue(3, true);
    var i := 0;
    while i < 10
      invariant 0 <= i <= 10
      invariant q.Valid() && q.concurrency == 3 && q.hasOnDone
      invariant q.pushed == seq(i, j => j) && q.fulfilled == 0 && q.doneCalls == 0
      invariant q.running == (if i < 3 then i else 3) && |q.queue| == i - q.running
    {
      q.Push(i);
      i := i + 1;
    }
    runningAfterPushes := q.running;
    var n := 0;
    while n < 9
      invariant 0 <= n <= 9
      invariant q.Valid() && q.concurrency == 3 && q.hasOnDone
      invariant q.pushed == seq(10, j => j) && q.fulfilled == n && q.doneCalls == 0
      invariant q.running == (if 10 - n < 3 then 10 - n else 3) && |q.queue| == 10 - n - q.running
    {
      q.Complete();
      n := n + 1;
    }
    doneCallsBeforeLast := q.doneCalls;
    q.Complete();
    doneCallsAtEnd := q.doneCalls;
    order := q.started;
    assert q.started == q.pushed;
  }
}
