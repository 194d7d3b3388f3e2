/** Discovery when calls to the cluster fail: an attempt at a task can stop anywhere, and what it has
    done by then does not change what the task does once it succeeds. */
module DiscoveryFailures {
  import opened Shared
  import opened Discovery
  import opened DiscoveryRuns

  // ---- Attempts ----

  /** After an attempt a resource is as it was, or removed by a removal, or ensured for some item that
      the task supplies. */
  ghost predicate AttemptedAt(before: Store, after: Store, task: Task, key: Key) {
    || Look(after, key) == Look(before, key)
    || (key !in after && key in before && Removes(task, before[key]))
    || (task.Supply? && exists item :: item in task.items && SuppliedAs(before, after, task, key, item))
  }

  predicate SuppliedAs(before: Store, after: Store, task: Task, key: Key, item: Item)
    requires task.Supply?
  {
    key == Key(task.namespace, item.name) && Look(after, key) == Some(Ensured(Look(before, key), task.owner, item.spec))
  }

  ghost predicate Attempted(before: Store, after: Store, task: Task) {
    forall key :: AttemptedAt(before, after, task, key)
  }

  lemma NoAttempt(store: Store, task: Task)
    ensures Attempted(store, store, task)
  {
  }

  /** A task that succeeds is an attempt as well. */
  lemma PerformAttempts(store: Store, task: Task)
    ensures Attempted(store, Perform(store, task), task)
  {
    hide Ensured, OwnedBy, Perform;
    var after := Perform(store, task);
    forall key ensures AttemptedAt(store, after, task, key) {
      PerformAt(store, task, key);
      if Touches(task, key) { LastSpecIsAnItems(store, after, task, key); }
    }
  }

  lemma LastSpecIsAnItems(store: Store, after: Store, task: Task, key: Key)
    requires Touches(task, key) && Look(after, key) == Some(Ensured(Look(store, key), task.owner, LastSpec(task.items, key.name)))
    ensures AttemptedAt(store, after, task, key)
  {
    hide Ensured;
    LastSpecIsSome(task.items, key.name);
    var i :| 0 <= i < |task.items| && task.items[i].name == key.name && task.items[i].spec == LastSpec(task.items, key.name);
    assert task.items[i] in task.items && SuppliedAs(store, after, task, key, task.items[i]);
  }

  /** After an attempt, however far it got, the task does what it would have done at once. */
  lemma AttemptThenPerform(before: Store, mid: Store, task: Task)
    requires Attempted(before, mid, task)
    ensures Perform(mid, task) == Perform(before, task)
  {
    hide Ensured, OwnedBy, Perform;
    forall key ensures Look(Perform(mid, task), key) == Look(Perform(before, task), key) {
      assert AttemptedAt(before, mid, task, key);
      PerformAt(before, task, key);
      PerformAt(mid, task, key);
      if Touches(task, key) {
        EnsuredTwice(Look(before, key), task.owner, LastSpec(task.items, key.name));
      } else if task.Supply? {
        forall item | item in task.items ensures key != Key(task.namespace, item.name) {
          var i :| 0 <= i < |task.items| && task.items[i] == item;
        }
      }
    }
    SameLook(Perform(mid, task), Perform(before, task));
  }

  lemma AttemptKeepsClear(before: Store, mid: Store, task: Task, tasks: seq<Task>)
    requires Tidy(tasks) && Clear(before, tasks) && task in tasks && Attempted(before, mid, task)
    ensures Clear(mid, tasks)
  {
    hide Ensured, OwnedBy, Names;
    forall a, b, key | a in tasks && b in tasks && Touches(a, key) && key in mid ensures !Removes(b, mid[key]) {
      assert AttemptedAt(before, mid, task, key);
      if Look(mid, key) != Look(before, key) {
        var item :| item in task.items && SuppliedAs(before, mid, task, key, item);
        assert Touches(task, key) by { ItemTouches(task, key, item); }
        assert a == task || Apart(a, task);
        assert b == task || Apart(b, task);
        if b.Remove? { EnsuredIsOwned(Look(before, key), task.owner, b.kind, b.name); }
      }
    }
  }

  lemma ItemTouches(task: Task, key: Key, item: Item)
    requires task.Supply? && item in task.items && key == Key(task.namespace, item.name)
    ensures Touches(task, key)
  {
    var i :| 0 <= i < |task.items| && task.items[i] == item;
    assert task.items[i].name == key.name;
  }

  // ---- Many attempts ----

  /** The stores that a series of attempts goes through. */
  ghost predicate Tries(stores: seq<Store>, tasks: seq<Task>) {
    |stores| == |tasks| + 1 && forall i :: 0 <= i < |tasks| ==> Attempted(stores[i], stores[i + 1], tasks[i])
  }

  lemma OneAttemptAbsorbed(before: Store, mid: Store, x: Task, tasks: seq<Task>)
    requires Tidy(tasks) && Clear(before, tasks) && x in tasks && Attempted(before, mid, x)
    ensures PerformAll(mid, tasks) == PerformAll(before, tasks)
  {
    hide Tidy, Clear, Perform, Attempted;
    AttemptKeepsClear(before, mid, x, tasks);
    AttemptThenPerform(before, mid, x);
    Absorbed(mid, x, tasks, tasks);
    PullThrough(mid, x, tasks, tasks);
    Absorbed(before, x, tasks, tasks);
    PullThrough(before, x, tasks, tasks);
  }

  /** Whatever was attempted before, in any order and however often it failed: doing all the tasks ends
      as if nothing had been attempted. */
  lemma {:induction false} RetriesConverge(stores: seq<Store>, attempts: seq<Task>, tasks: seq<Task>)
    requires Tries(stores, attempts) && Tidy(tasks) && Clear(stores[0], tasks)
    requires forall t :: t in attempts ==> t == Nothing || t in tasks
    ensures PerformAll(stores[|attempts|], tasks) == PerformAll(stores[0], tasks)
    decreases |attempts|
  {
    hide Tidy, Clear, Perform, Attempted, PerformAll;
    if attempts != [] {
      var x := attempts[0];
      if x == Nothing {
        NothingAttempted(stores[0], stores[1]);
      } else {
        OneAttemptAbsorbed(stores[0], stores[1], x, tasks);
        AttemptKeepsClear(stores[0], stores[1], x, tasks);
      }
      assert Tries(stores[1..], attempts[1..]);
      RetriesConverge(stores[1..], attempts[1..], tasks);
      assert stores[1..][|attempts| - 1] == stores[|attempts|];
    }
  }

  lemma NothingAttempted(before: Store, after: Store)
    requires Attempted(before, after, Nothing)
    ensures after == before
  {
    forall key ensures Look(after, key) == Look(before, key) { assert AttemptedAt(before, after, Nothing, key); }
    SameLook(after, before);
  }

  /** Failures only delay: however many events and scans were tried before and wherever they failed, once
      events and scans that cover the routes succeed the resources are what they would have been, had
      nothing failed, and for any other events and scans that cover the routes. */
  lemma FailuresOnlyDelay(sites: seq<Site>, routes: seq<Route>, stores: seq<Store>, tried: seq<Op>, ops: seq<Op>, others: seq<Op>)
    requires Tries(stores, AllTasks(sites, routes, tried)) && Possible(sites, routes, tried)
    requires OneSite(sites, routes) && Separate(sites, routes) && Untangled(sites, routes, stores[0])
    requires Possible(sites, routes, ops) && Covers(sites, routes, ops) && Possible(sites, routes, others) && Covers(sites, routes, others)
    ensures Outcome(sites, routes, stores[|stores| - 1], ops) == Outcome(sites, routes, stores[0], others)
  {
    hide OneSite, Possible, Covers, TaskOf, Apart, Touches, Removes, AllTasks, Attempted;
    var attempts, tasks := AllTasks(sites, routes, tried), AllTasks(sites, routes, ops);
    TasksAreOfRoutes(sites, routes, tried);
    TasksAreOfRoutes(sites, routes, ops);
    forall t | t in attempts ensures t in tasks {
      var r :| r in routes && t == TaskOf(sites, r);
      CoveredTask(sites, routes, ops, r);
    }
    RetriesConverge(stores, attempts, tasks);
    EventsAndScansAgree(sites, routes, stores[0], ops, others);
  }
}
