/** The timed-mute registry `bot.timed_mute_tasks`: a map from (guild, member) to the
    task that will lift that member's mute, together with the event loop's view of the
    tasks it holds. Each handler and each timer firing is one atomic step, as on the
    single-threaded asyncio loop; `asyncio.create_task` hands out a fresh task id and
    `cancel()` means that task never runs. */
module TimedMutes {
  import opened Gateway

  type TaskId = nat

  /** What a scheduled task captured when it was created: whose mute it lifts and
      after how many seconds. */
  datatype Timer = Timer(key: Key, delay: nat)

  /** The registry's consistency, on values:
      every registered key maps to a pending task and every pending task is registered;
      the task registered under a key was scheduled for that key;
      ids handed out so far are below the next fresh id. */
  ghost predicate RegistryInvariant(tasks: map<Key, TaskId>, pending: set<TaskId>,
                                    timers: map<TaskId, Timer>, nextTask: TaskId)
  {
    && tasks.Values == pending
    && (forall k | k in tasks :: tasks[k] in timers && timers[tasks[k]].key == k)
    && (forall t | t in timers :: t < nextTask)
  }

  /** The task registered under `key`, as a set: empty when there is none. */
  function TaskAt(tasks: map<Key, TaskId>, key: Key): (s: set<TaskId>)
    ensures |s| <= 1
    ensures forall t :: t in s <==> key in tasks && tasks[key] == t
  {
    if key in tasks then {tasks[key]} else {}
  }

  /** A pending task is the one registered under the key it was scheduled for. */
  lemma PendingTaskIsRegistered(tasks: map<Key, TaskId>, pending: set<TaskId>,
                                timers: map<TaskId, Timer>, nextTask: TaskId, t: TaskId)
    requires RegistryInvariant(tasks, pending, timers, nextTask)
    requires t in pending
    ensures t in timers && timers[t].key in tasks && tasks[timers[t].key] == t
  {
    var k :| k in tasks && tasks[k] == t;
  }

  /** At most one live timer per member: two pending tasks scheduled for the same key
      are the same task. */
  lemma OneLiveTimerPerKey(tasks: map<Key, TaskId>, pending: set<TaskId>,
                           timers: map<TaskId, Timer>, nextTask: TaskId, t1: TaskId, t2: TaskId)
    requires RegistryInvariant(tasks, pending, timers, nextTask)
    requires t1 in pending && t2 in pending
    requires timers[t1].key == timers[t2].key
    ensures t1 == t2
  {
    PendingTaskIsRegistered(tasks, pending, timers, nextTask, t1);
    PendingTaskIsRegistered(tasks, pending, timers, nextTask, t2);
  }

  /** Removing a key together with its task keeps the registry consistent. */
  lemma RemovePreservesInvariant(tasks: map<Key, TaskId>, pending: set<TaskId>,
                                 timers: map<TaskId, Timer>, nextTask: TaskId, key: Key)
    requires RegistryInvariant(tasks, pending, timers, nextTask)
    ensures RegistryInvariant(tasks - {key}, pending - TaskAt(tasks, key), timers, nextTask)
  {
    var rest := tasks - {key};
    forall v | v in pending - TaskAt(tasks, key) ensures v in rest.Values {
      var k :| k in tasks && tasks[k] == v;
      assert k != key;
      assert rest[k] == v;
    }
  }

  /** Registering a fresh task under a free key keeps the registry consistent. */
  lemma InsertPreservesInvariant(tasks: map<Key, TaskId>, pending: set<TaskId>,
                                 timers: map<TaskId, Timer>, nextTask: TaskId, key: Key, delay: nat)
    requires RegistryInvariant(tasks, pending, timers, nextTask)
    requires key !in tasks
    ensures RegistryInvariant(tasks[key := nextTask], pending + {nextTask},
                              timers[nextTask := Timer(key, delay)], nextTask + 1)
  {
    var tasks' := tasks[key := nextTask];
    assert nextTask !in timers;
    forall v | v in tasks'.Values ensures v in pending + {nextTask} {
      var k :| k in tasks' && tasks'[k] == v;
      if k != key { assert tasks[k] == v; }
    }
    forall v | v in pending + {nextTask} ensures v in tasks'.Values {
      if v == nextTask {
        assert tasks'[key] == v;
      } else {
        var k :| k in tasks && tasks[k] == v;
        assert tasks'[k] == v;
      }
    }
  }

  /** The bot object's share of the moderation state: its own member id and the
      timed-mute registry, with the tasks the event loop still has pending. */
  class Bot {
    const me: MemberId
    var timedMuteTasks: map<Key, TaskId>
    var pending: set<TaskId>
    var timers: map<TaskId, Timer>
    var nextTask: TaskId

    ghost predicate Valid()
      reads this
    {
      RegistryInvariant(timedMuteTasks, pending, timers, nextTask)
    }

    /** The registry starts empty. */
    constructor (me: MemberId)
      ensures Valid() && this.me == me
      ensures timedMuteTasks == map[] && pending == {} && timers == map[] && nextTask == 0
    {
      this.me := me;
      timedMuteTasks := map[];
      pending := {};
      timers := map[];
      nextTask := 0;
    }

    /** `if key in timed_mute_tasks: timed_mute_tasks[key].cancel(); del timed_mute_tasks[key]`:
        an absent key is left alone. */
    method CancelAndRemove(key: Key)
      requires Valid()
      modifies this
      ensures Valid()
      ensures timedMuteTasks == old(timedMuteTasks) - {key}
      ensures pending == old(pending) - TaskAt(old(timedMuteTasks), key)
      ensures key in old(timedMuteTasks) ==> pending == old(pending) - {old(timedMuteTasks)[key]}
      ensures timers == old(timers) && nextTask == old(nextTask)
    {
      RemovePreservesInvariant(timedMuteTasks, pending, timers, nextTask, key);
      if key in timedMuteTasks {
        pending := pending - {timedMuteTasks[key]};
        timedMuteTasks := timedMuteTasks - {key};
      }
    }

    /** `timed_mute_tasks[key] = asyncio.create_task(unmute_after_delay(...))` for a key
        whose old entry is already gone. */
    method Schedule(key: Key, delay: nat) returns (t: TaskId)
      requires Valid() && key !in timedMuteTasks
      modifies this
      ensures Valid()
      ensures t == old(nextTask) && t !in old(timers) && t !in old(pending)
      ensures timedMuteTasks == old(timedMuteTasks)[key := t]
      ensures pending == old(pending) + {t}
      ensures timers == old(timers)[t := Timer(key, delay)] && nextTask == t + 1
    {
      InsertPreservesInvariant(timedMuteTasks, pending, timers, nextTask, key, delay);
      t := nextTask;
      timers := timers[t := Timer(key, delay)];
      timedMuteTasks := timedMuteTasks[key := t];
      pending := pending + {t};
      nextTask := nextTask + 1;
    }

    /** The end of a firing task: it deletes its own key (no cancel: it is the task
        that is running) and the event loop no longer holds it. */
    method Complete(t: TaskId)
      requires Valid() && t in pending
      modifies this
      ensures Valid()
      ensures t in timers && timers == old(timers) && nextTask == old(nextTask)
      ensures timedMuteTasks == old(timedMuteTasks) - {timers[t].key}
      ensures pending == old(pending) - {t}
    {
      PendingTaskIsRegistered(timedMuteTasks, pending, timers, nextTask, t);
      RemovePreservesInvariant(timedMuteTasks, pending, timers, nextTask, timers[t].key);
      var key := timers[t].key;
      if key in timedMuteTasks {
        timedMuteTasks := timedMuteTasks - {key};
      }
      pending := pending - {t};
    }
  }
}
