/** Discovery as a whole: handling a route again writes nothing, an opt-out undoes it, and the order
    in which events and scans handle the routes does not matter. */
module DiscoveryRuns {
  import opened Shared
  import opened ServicePorts
  import opened Discovery

  // ---- One route ----

  predicate Names(items: seq<Item>, namespace: string, key: Key) {
    key.namespace == namespace && exists i :: 0 <= i < |items| && items[i].name == key.name
  }

  /** The last item of a name decides. */
  function LastSpec(items: seq<Item>, name: string): Spec
    requires exists i :: 0 <= i < |items| && items[i].name == name
  {
    var n := |items| - 1;
    if items[n].name == name then items[n].spec else
    assert exists i :: 0 <= i < n && items[..n][i].name == name by {
      var i :| 0 <= i < |items| && items[i].name == name;
      assert items[..n][i].name == name;
    }
    LastSpec(items[..n], name)
  }

  /** Ensuring a list, key by key. */
  lemma {:induction false} EnsureAllAt(w: Written, namespace: string, owner: Owner, items: seq<Item>, key: Key)
    ensures Look(EnsureAll(w, namespace, owner, items).store, key) ==
      if Names(items, namespace, key) then Some(Ensured(Look(w.store, key), owner, LastSpec(items, key.name))) else Look(w.store, key)
    ensures w.writes <= EnsureAll(w, namespace, owner, items).writes
    decreases |items|
  {
    hide Ensured, Ensure;
    if items != [] {
      var n := |items| - 1;
      EnsureAllAt(w, namespace, owner, items[..n], key);
      var m := EnsureAll(w, namespace, owner, items[..n]);
      EnsureSpec(m, Key(namespace, items[n].name), owner, items[n].spec);
      EnsureGrows(m, Key(namespace, items[n].name), owner, items[n].spec);
      NamesStep(items, namespace, key, n);
      if key == Key(namespace, items[n].name) {
        assert items[n].name == key.name;
        EnsuredTwice(Look(w.store, key), owner, items[n].spec);
      }
    }
  }

  lemma EnsureGrows(w: Written, key: Key, owner: Owner, spec: Spec)
    ensures w.writes <= Ensure(w, key, owner, spec).writes
  {
  }

  lemma NamesStep(items: seq<Item>, namespace: string, key: Key, n: nat)
    requires |items| == n + 1
    ensures Names(items, namespace, key) <==> Names(items[..n], namespace, key) || key == Key(namespace, items[n].name)
  {
    var before := items[..n];
    if Names(items, namespace, key) && key != Key(namespace, items[n].name) {
      var i :| 0 <= i < |items| && items[i].name == key.name;
      assert before[i].name == key.name;
    }
    if Names(before, namespace, key) {
      var i :| 0 <= i < |before| && before[i].name == key.name;
      assert items[i].name == key.name;
    }
    if key == Key(namespace, items[n].name) {
      assert items[n].name == key.name;
    }
  }

  lemma EnsuredTwice(existing: Option<Owned>, owner: Owner, spec: Spec)
    ensures forall first :: Ensured(Some(Ensured(existing, owner, first)), owner, spec) == Ensured(existing, owner, spec)
  {
    forall first ensures Ensured(Some(Ensured(existing, owner, first)), owner, spec) == Ensured(existing, owner, spec) {
      var labels := if existing.Some? then existing.value.labels else map[];
      StampedIsStamp(Stamp(labels, owner), owner);
    }
  }

  /** Items of one name ask for the same. */
  ghost predicate Consistent(items: seq<Item>) {
    forall i, j :: 0 <= i < |items| && 0 <= j < |items| && items[i].name == items[j].name ==> items[i].spec == items[j].spec
  }

  /** Handling a route a second time writes nothing, exactly if no two of its items want different
      things under one name; otherwise the two would overwrite each other for ever. */
  lemma AgainWritesNothing(w: Written, namespace: string, owner: Owner, items: seq<Item>)
    ensures var once := EnsureAll(w, namespace, owner, items); var twice := EnsureAll(once, namespace, owner, items);
      && twice.store == once.store
      && (twice.writes == once.writes <==> Consistent(items))
  {
    var once := EnsureAll(w, namespace, owner, items);
    var twice := EnsureAll(once, namespace, owner, items);
    forall key ensures Look(twice.store, key) == Look(once.store, key) {
      EnsureAllAt(w, namespace, owner, items, key);
      EnsureAllAt(once, namespace, owner, items, key);
      if Names(items, namespace, key) { EnsuredTwice(Look(w.store, key), owner, LastSpec(items, key.name)); }
    }
    SameLook(twice.store, once.store);
    if Consistent(items) {
      forall i | 0 <= i < |items| ensures UpToDate(Look(once.store, Key(namespace, items[i].name)), owner, items[i].spec) {
        var key := Key(namespace, items[i].name);
        assert Names(items, namespace, key) by { assert items[i].name == key.name; }
        EnsureAllAt(w, namespace, owner, items, key);
        LastSpecIsSome(items, key.name);
        StampedIsStamp(if Look(w.store, key).Some? then w.store[key].labels else map[], owner);
      }
      AllUpToDate(once, namespace, owner, items);
    } else if twice.writes == once.writes {
      NoWriteMeansUpToDate(once, namespace, owner, items);
    }
    hide Look, EnsureAll, Ensured, Names;
  }

  /** One item for each hostname, in order, if there is a target at all. */
  lemma {:induction false} HTTPItemsSpec(site: Site, cfg: Config, route: Route, hostnames: seq<string>)
    requires route.HTTPRoute?
    ensures var items := HTTPItems(site, cfg, route, hostnames); var target := HTTPTarget(route, cfg);
      && (target.None? ==> items == [])
      && (target.Some? ==> |items| == |hostnames| && forall i :: 0 <= i < |hostnames| ==>
            items[i] == Item(HostnameToResourceName(route.name, hostnames[i]),
                             Spec(SiteRef(site, cfg, route), Named(route, cfg.Prefix(), route.name), "http", hostnames[i], 0, target.value)))
  {
    hide HTTPTarget, HostnameToResourceName, SiteRef, Named;
    if hostnames != [] {
      HTTPItemsSpec(site, cfg, route, hostnames[1..]);
    }
  }

  /** There is a target unless neither the gateway nor the route says where the traffic goes. */
  lemma HTTPTargetExists(route: Route, cfg: Config)
    requires route.HTTPRoute?
    ensures HTTPTarget(route, cfg).Some? <==>
      if cfg.gatewayName != "" then cfg.gatewayHostname != "" || cfg.gatewayNamespace != "" else route.backend.Some?
  {
    hide Scheme, InCluster, BackendHost;
  }

  /** An HTTP route comes to rest exactly if no two of its hostnames get one resource name. */
  lemma HTTPRouteSettles(w: Written, site: Site, cfg: Config, route: Route)
    requires route.HTTPRoute? && HTTPTarget(route, cfg).Some?
    ensures var owner := Owner(OfHTTPRoute, route.name, site.name); var items := HTTPItems(site, cfg, route, route.hostnames);
      var once := EnsureAll(w, route.namespace, owner, items); var hosts := route.hostnames;
      EnsureAll(once, route.namespace, owner, items).writes == once.writes <==>
        forall i, j :: 0 <= i < |hosts| && 0 <= j < |hosts| ==>
          HostnameToResourceName(route.name, hosts[i]) == HostnameToResourceName(route.name, hosts[j]) ==> hosts[i] == hosts[j]
  {
    var owner, items := Owner(OfHTTPRoute, route.name, site.name), HTTPItems(site, cfg, route, route.hostnames);
    AgainWritesNothing(w, route.namespace, owner, items);
    HTTPItemsSpec(site, cfg, route, route.hostnames);
    hide HTTPTarget, HostnameToResourceName, SiteRef, Named, EnsureAll, HTTPItems;
    if !Consistent(items) {
      var i, j :| 0 <= i < |items| && 0 <= j < |items| && items[i].name == items[j].name && items[i].spec != items[j].spec;
      assert route.hostnames[i] != route.hostnames[j];
    } else {
      forall i, j | 0 <= i < |items| && 0 <= j < |items| && items[i].name == items[j].name
        ensures route.hostnames[i] == route.hostnames[j]
      {
        assert items[i].spec == items[j].spec;
      }
    }
  }

  lemma {:induction false} LastSpecIsSome(items: seq<Item>, name: string)
    requires exists i :: 0 <= i < |items| && items[i].name == name
    ensures exists i :: 0 <= i < |items| && items[i].name == name && items[i].spec == LastSpec(items, name)
    decreases |items|
  {
    var n := |items| - 1;
    if items[n].name != name {
      var i :| 0 <= i < |items| && items[i].name == name;
      assert items[..n][i].name == name;
      LastSpecIsSome(items[..n], name);
      var j :| 0 <= j < n && items[..n][j].name == name && items[..n][j].spec == LastSpec(items[..n], name);
      assert items[j] == items[..n][j];
    }
  }

  lemma SameLook(a: Store, b: Store)
    requires forall key :: Look(a, key) == Look(b, key)
    ensures a == b
  {
    forall key ensures key in a <==> key in b {
      assert Look(a, key) == Look(b, key);
    }
    forall key | key in a ensures a[key] == b[key] {
      assert Look(a, key) == Look(b, key);
    }
  }

  lemma {:induction false} AllUpToDate(w: Written, namespace: string, owner: Owner, items: seq<Item>)
    requires forall i :: 0 <= i < |items| ==> UpToDate(Look(w.store, Key(namespace, items[i].name)), owner, items[i].spec)
    ensures EnsureAll(w, namespace, owner, items) == w
    decreases |items|
  {
    if items != [] {
      var n := |items| - 1;
      assert forall i :: 0 <= i < n ==> items[..n][i] == items[i];
      AllUpToDate(w, namespace, owner, items[..n]);
    }
    hide UpToDate;
  }

  lemma {:induction false} NoWriteMeansUpToDate(w: Written, namespace: string, owner: Owner, items: seq<Item>)
    requires EnsureAll(w, namespace, owner, items).writes == w.writes
    ensures EnsureAll(w, namespace, owner, items) == w
    ensures forall i :: 0 <= i < |items| ==> UpToDate(Look(w.store, Key(namespace, items[i].name)), owner, items[i].spec)
    decreases |items|
  {
    hide UpToDate;
    if items != [] {
      var n := |items| - 1;
      var m := EnsureAll(w, namespace, owner, items[..n]);
      EnsureAllAt(w, namespace, owner, items[..n], Key("", ""));
      EnsureGrows(m, Key(namespace, items[n].name), owner, items[n].spec);
      NoWriteMeansUpToDate(w, namespace, owner, items[..n]);
      assert forall i :: 0 <= i < n ==> items[..n][i] == items[i];
    }
  }

  // ---- Opting out again ----

  lemma DeleteOwnedAt(store: Store, kind: OwnerKind, name: string, key: Key)
    ensures Look(DeleteOwned(store, kind, name), key) ==
      if Look(store, key).Some? && OwnedBy(store[key], kind, name) then None else Look(store, key)
  {
  }

  lemma EnsuredIsOwned(existing: Option<Owned>, owner: Owner, kind: OwnerKind, name: string)
    ensures forall spec :: OwnedBy(Ensured(existing, owner, spec), kind, name) <==> kind == owner.kind && name == owner.name
  {
    var labels := if existing.Some? then existing.value.labels else map[];
    StampedIsStamp(labels, owner);
  }

  /** A route whose resource names were not in use: opting out after it was handled restores what was
      there before, exactly if nothing there carries its kind and name; the labels do not tell
      namespaces apart. */
  lemma OptOutRestores(w: Written, namespace: string, owner: Owner, items: seq<Item>)
    requires forall key :: key in w.store ==> !Names(items, namespace, key)
    ensures DeleteOwned(EnsureAll(w, namespace, owner, items).store, owner.kind, owner.name) == w.store <==>
      forall key :: key in w.store ==> !OwnedBy(w.store[key], owner.kind, owner.name)
  {
    hide Ensured, OwnedBy, EnsureAll, Names;
    var handled := EnsureAll(w, namespace, owner, items).store;
    var after := DeleteOwned(handled, owner.kind, owner.name);
    forall key
      ensures Look(after, key) == if key in w.store && OwnedBy(w.store[key], owner.kind, owner.name) then None else Look(w.store, key)
    {
      EnsureAllAt(w, namespace, owner, items, key);
      DeleteOwnedAt(handled, owner.kind, owner.name, key);
      if Names(items, namespace, key) {
        EnsuredIsOwned(Look(w.store, key), owner, owner.kind, owner.name);
      }
    }
    if forall key :: key in w.store ==> !OwnedBy(w.store[key], owner.kind, owner.name) {
      SameLook(after, w.store);
    } else {
      var key :| key in w.store && OwnedBy(w.store[key], owner.kind, owner.name);
      assert Look(after, key) == None && Look(w.store, key).Some?;
    }
  }

  // ---- Many routes ----

  datatype Task = Nothing | Remove(kind: OwnerKind, name: string) | Supply(namespace: string, owner: Owner, items: seq<Item>)

  function Perform(store: Store, task: Task): Store {
    match task
    case Nothing => store
    case Remove(kind, name) => DeleteOwned(store, kind, name)
    case Supply(namespace, owner, items) => EnsureAll(Written(store, 0), namespace, owner, items).store
  }

  function PerformAll(store: Store, tasks: seq<Task>): Store
    decreases |tasks|
  {
    if tasks == [] then store else PerformAll(Perform(store, tasks[0]), tasks[1..])
  }

  predicate Touches(task: Task, key: Key) {
    task.Supply? && Names(task.items, task.namespace, key)
  }

  predicate Removes(task: Task, o: Owned) {
    task.Remove? && OwnedBy(o, task.kind, task.name)
  }

  /** Different tasks are about different resources. */
  ghost predicate Apart(a: Task, b: Task) {
    && (forall key :: !(Touches(a, key) && Touches(b, key)))
    && !(a.Supply? && b.Remove? && a.owner.kind == b.kind && a.owner.name == b.name)
    && !(b.Supply? && a.Remove? && b.owner.kind == a.kind && b.owner.name == a.name)
  }

  ghost predicate Tidy(tasks: seq<Task>) {
    forall a, b :: a in tasks && b in tasks ==> a == b || Apart(a, b)
  }

  /** No resource that one task wants is there under the labels of another that is to be removed. */
  ghost predicate Clear(store: Store, tasks: seq<Task>) {
    forall a, b, key :: a in tasks && b in tasks && Touches(a, key) && key in store ==> !Removes(b, store[key])
  }

  /** One task, key by key. */
  lemma PerformAt(store: Store, task: Task, key: Key)
    ensures Look(Perform(store, task), key) ==
      if Touches(task, key) then Some(Ensured(Look(store, key), task.owner, LastSpec(task.items, key.name)))
      else if Look(store, key).Some? && Removes(task, store[key]) then None else Look(store, key)
  {
    hide Ensured, OwnedBy, EnsureAll;
    match task
    case Nothing =>
    case Remove(kind, name) => DeleteOwnedAt(store, kind, name, key);
    case Supply(namespace, owner, items) => EnsureAllAt(Written(store, 0), namespace, owner, items, key);
  }

  lemma PerformKeepsClear(store: Store, task: Task, tasks: seq<Task>)
    requires Tidy(tasks) && Clear(store, tasks) && task in tasks
    ensures Clear(Perform(store, task), tasks)
  {
    hide Ensured, OwnedBy, Perform, Names;
    var after := Perform(store, task);
    forall a, b, key | a in tasks && b in tasks && Touches(a, key) && key in after ensures !Removes(b, after[key]) {
      PerformAt(store, task, key);
      if Touches(task, key) {
        assert a == task || Apart(a, task);
        assert b == task || Apart(b, task);
        if b.Remove? { TouchedIsOwned(store, task, key, b); }
      } else {
        assert Look(after, key) == Look(store, key);
      }
    }
  }

  lemma TouchedIsOwned(store: Store, task: Task, key: Key, b: Task)
    requires Touches(task, key) && b.Remove?
    ensures OwnedBy(Ensured(Look(store, key), task.owner, LastSpec(task.items, key.name)), b.kind, b.name) <==>
            b.kind == task.owner.kind && b.name == task.owner.name
  {
    EnsuredIsOwned(Look(store, key), task.owner, b.kind, b.name);
  }

  /** Doing a task twice is doing it once. */
  lemma Twice(store: Store, task: Task)
    ensures Perform(Perform(store, task), task) == Perform(store, task)
  {
    hide Ensured, OwnedBy, Perform, Touches, Removes;
    var once := Perform(store, task);
    forall key ensures Look(Perform(once, task), key) == Look(once, key) {
      PerformAt(store, task, key);
      PerformAt(once, task, key);
      if Touches(task, key) { TouchedTwice(store, task, key); }
    }
    SameLook(Perform(once, task), once);
  }

  lemma TouchedTwice(store: Store, task: Task, key: Key)
    requires Touches(task, key)
    ensures var first := Ensured(Look(store, key), task.owner, LastSpec(task.items, key.name));
      Ensured(Some(first), task.owner, LastSpec(task.items, key.name)) == first
  {
    EnsuredTwice(Look(store, key), task.owner, LastSpec(task.items, key.name));
  }

  /** Tasks about different resources can be done in either order. */
  lemma Swap(store: Store, a: Task, b: Task, tasks: seq<Task>)
    requires Tidy(tasks) && Clear(store, tasks) && a in tasks && b in tasks
    ensures Perform(Perform(store, a), b) == Perform(Perform(store, b), a)
  {
    hide Ensured, OwnedBy, Perform, Names;
    if a != b {
      assert Apart(a, b);
      var x, y := Perform(store, a), Perform(store, b);
      forall key ensures Look(Perform(x, b), key) == Look(Perform(y, a), key) {
        PerformAt(store, a, key);
        PerformAt(store, b, key);
        PerformAt(x, b, key);
        PerformAt(y, a, key);
        if Touches(a, key) && b.Remove? { TouchedIsOwned(store, a, key, b); }
        if Touches(b, key) && a.Remove? { TouchedIsOwned(store, b, key, a); }
      }
      SameLook(Perform(x, b), Perform(y, a));
    }
  }

  lemma {:induction false} PullThrough(store: Store, x: Task, tasks: seq<Task>, all: seq<Task>)
    requires Tidy(all) && Clear(store, all) && x in all && forall t :: t in tasks ==> t in all
    ensures PerformAll(Perform(store, x), tasks) == Perform(PerformAll(store, tasks), x)
    decreases |tasks|
  {
    hide Tidy, Clear, Perform;
    if tasks != [] {
      var y := tasks[0];
      Swap(store, x, y, all);
      PerformKeepsClear(store, y, all);
      PullThrough(Perform(store, y), x, tasks[1..], all);
    }
  }

  /** What was done needs no doing again, whatever came after it. */
  lemma {:induction false} Absorbed(store: Store, x: Task, tasks: seq<Task>, all: seq<Task>)
    requires Tidy(all) && Clear(store, all) && (forall t :: t in tasks ==> t in all) && (x == Nothing || x in tasks)
    ensures Perform(PerformAll(store, tasks), x) == PerformAll(store, tasks)
    decreases |tasks|
  {
    hide Tidy, Clear;
    if x != Nothing {
      var y := tasks[0];
      PerformKeepsClear(store, y, all);
      if x == y {
        Twice(store, x);
        PullThrough(Perform(store, x), x, tasks[1..], all) by { hide Perform; }
      } else {
        Absorbed(Perform(store, y), x, tasks[1..], all) by { hide Perform; }
      }
    }
    hide Perform;
  }

  lemma {:induction false} AllAbsorbed(store: Store, more: seq<Task>, tasks: seq<Task>, all: seq<Task>)
    requires Tidy(all) && Clear(store, all) && (forall t :: t in tasks ==> t in all)
    requires forall t :: t in more ==> t == Nothing || t in tasks
    ensures PerformAll(PerformAll(store, tasks), more) == PerformAll(store, tasks)
    decreases |more|
  {
    hide Tidy, Clear, Perform;
    if more != [] {
      Absorbed(store, more[0], tasks, all);
      AllAbsorbed(store, more[1..], tasks, all);
    }
  }

  lemma {:induction false} AllSwap(store: Store, a: seq<Task>, b: seq<Task>, all: seq<Task>)
    requires Tidy(all) && Clear(store, all) && (forall t :: t in a ==> t in all) && (forall t :: t in b ==> t in all)
    ensures PerformAll(PerformAll(store, a), b) == PerformAll(PerformAll(store, b), a)
    decreases |a|
  {
    hide Tidy, Clear, Perform;
    if a != [] {
      PerformKeepsClear(store, a[0], all);
      AllSwap(Perform(store, a[0]), a[1..], b, all);
      PullThrough(store, a[0], b, all);
    }
  }

  /** Any two ways of doing the same tasks, in any order and any number of times, end the same. */
  lemma SameOutcome(store: Store, a: seq<Task>, b: seq<Task>)
    requires Tidy(a + b) && Clear(store, a + b)
    requires (forall t :: t in a ==> t == Nothing || t in b) && (forall t :: t in b ==> t == Nothing || t in a)
    ensures PerformAll(store, a) == PerformAll(store, b)
  {
    hide Tidy, Clear, Perform;
    AllAbsorbed(store, b, a, a + b);
    AllAbsorbed(store, a, b, a + b);
    AllSwap(store, a, b, a + b);
  }

  // ---- Events and scans ----

  function Supplying(site: Site, route: Route): Task
    requires site.discover.Some?
  {
    Supply(route.namespace, Owner(route.Kind(), route.name, site.name), Items(site, site.discover.value, route))
  }

  /** What an event for a route does. */
  function TaskOf(sites: seq<Site>, route: Route): Task {
    match ResolveSite(sites, route)
    case None => Nothing
    case Some(site) =>
      if OptsOut(route, site.discover.value.Prefix()) then Remove(route.Kind(), route.name) else Supplying(site, route)
  }

  /** What a scan does for the routes of one kind. */
  function ScanTasks(site: Site, routes: seq<Route>, kind: OwnerKind): seq<Task> {
    if routes == [] then [] else
    var n := |routes| - 1;
    ScanTasks(site, routes[..n], kind)
    + if routes[n].Kind() == kind && ScanPicks(site, routes[n]) then [Supplying(site, routes[n])] else []
  }

  datatype Op = Event(route: Route) | Scan(site: Site)

  function OpTasks(sites: seq<Site>, routes: seq<Route>, op: Op): seq<Task> {
    match op
    case Event(route) => [TaskOf(sites, route)]
    case Scan(site) =>
      ScanTasks(site, routes, OfHTTPRoute) + ScanTasks(site, routes, OfTCPRoute) + ScanTasks(site, routes, OfService)
  }

  function AllTasks(sites: seq<Site>, routes: seq<Route>, ops: seq<Op>): seq<Task> {
    if ops == [] then [] else OpTasks(sites, routes, ops[0]) + AllTasks(sites, routes, ops[1..])
  }

  /** The store after the events and scans. */
  function Outcome(sites: seq<Site>, routes: seq<Route>, store: Store, ops: seq<Op>): Store {
    PerformAll(store, AllTasks(sites, routes, ops))
  }

  ghost predicate Possible(sites: seq<Site>, routes: seq<Route>, ops: seq<Op>) {
    forall op :: op in ops ==> match op case Event(route) => route in routes case Scan(site) => site in sites
  }

  /** Every route was seen by an event, or by the scan of the site that claims it if it is not opted out. */
  ghost predicate Covers(sites: seq<Site>, routes: seq<Route>, ops: seq<Op>) {
    forall r :: r in routes ==>
      || Event(r) in ops
      || exists site :: site in sites && Scan(site) in ops && Claims(site, r) && !OptsOut(r, site.discover.value.Prefix())
  }

  ghost predicate OneSite(sites: seq<Site>, routes: seq<Route>) {
    forall r, s, t :: r in routes && s in sites && t in sites && Claims(s, r) && Claims(t, r) ==> s == t
  }

  /** Different routes want different resources, and no opted-out route shares kind and name with
      one that is not. */
  ghost predicate Separate(sites: seq<Site>, routes: seq<Route>) {
    forall r, q :: r in routes && q in routes && r != q ==> Apart(TaskOf(sites, r), TaskOf(sites, q))
  }

  /** No wanted resource is there already under the labels of an opted-out route. */
  ghost predicate Untangled(sites: seq<Site>, routes: seq<Route>, store: Store) {
    forall r, q, key :: r in routes && q in routes && Touches(TaskOf(sites, r), key) && key in store ==>
      !Removes(TaskOf(sites, q), store[key])
  }

  lemma {:induction false} ScanTasksSpec(site: Site, routes: seq<Route>, kind: OwnerKind)
    ensures forall r :: r in routes && r.Kind() == kind && ScanPicks(site, r) ==> Supplying(site, r) in ScanTasks(site, routes, kind)
    ensures forall t :: t in ScanTasks(site, routes, kind) ==> exists r :: r in routes && ScanPicks(site, r) && t == Supplying(site, r)
    decreases |routes|
  {
    hide ScanPicks, Items;
    if routes != [] {
      var n := |routes| - 1;
      ScanTasksSpec(site, routes[..n], kind);
      assert routes == routes[..n] + [routes[n]];
    }
  }

  /** A scan does for a route what its event would do. */
  lemma ScanDoesWhatEventsDo(sites: seq<Site>, routes: seq<Route>, site: Site, route: Route)
    requires OneSite(sites, routes) && site in sites && route in routes && ScanPicks(site, route)
    ensures TaskOf(sites, route) == Supplying(site, route)
  {
    hide ScanPicks, Claims, OptsOut, Items;
    ScanPicksWhatEventsClaim(site, route);
  }

  /** All tasks are those of the routes. */
  lemma {:induction false} TasksAreOfRoutes(sites: seq<Site>, routes: seq<Route>, ops: seq<Op>)
    requires OneSite(sites, routes) && Possible(sites, routes, ops)
    ensures forall t :: t in AllTasks(sites, routes, ops) ==> exists r :: r in routes && t == TaskOf(sites, r)
  {
    hide OneSite, TaskOf, ScanTasks, ParentsMatch, Enabled, OptsOut, Items;
    if ops != [] {
      assert ops[0] in ops && forall op :: op in ops[1..] ==> op in ops;
      TasksAreOfRoutes(sites, routes, ops[1..]);
      var op := ops[0];
      forall t | t in OpTasks(sites, routes, op) ensures exists r :: r in routes && t == TaskOf(sites, r) {
        if op.Scan? {
          ScanTasksSpec(op.site, routes, OfHTTPRoute);
          ScanTasksSpec(op.site, routes, OfTCPRoute);
          ScanTasksSpec(op.site, routes, OfService);
          var r :| r in routes && ScanPicks(op.site, r) && t == Supplying(op.site, r);
          ScanDoesWhatEventsDo(sites, routes, op.site, r);
        }
      }
    }
  }

  lemma {:induction false} TaskOfOp(sites: seq<Site>, routes: seq<Route>, ops: seq<Op>, op: Op, t: Task)
    requires op in ops && t in OpTasks(sites, routes, op)
    ensures t in AllTasks(sites, routes, ops)
  {
    hide OpTasks;
    if ops[0] != op {
      TaskOfOp(sites, routes, ops[1..], op, t);
    }
  }

  lemma CoveredTask(sites: seq<Site>, routes: seq<Route>, ops: seq<Op>, r: Route)
    requires OneSite(sites, routes) && Covers(sites, routes, ops) && r in routes
    ensures TaskOf(sites, r) in AllTasks(sites, routes, ops)
  {
    hide OneSite, TaskOf, ParentsMatch, Enabled, OptsOut, ScanTasks, AllTasks, Items;
    if Event(r) in ops {
      TaskOfOp(sites, routes, ops, Event(r), TaskOf(sites, r));
    } else {
      var site :| site in sites && Scan(site) in ops && Claims(site, r) && !OptsOut(r, site.discover.value.Prefix());
      ScanPicksWhatEventsClaim(site, r);
      ScanDoesWhatEventsDo(sites, routes, site, r);
      ScanTasksSpec(site, routes, r.Kind());
      TaskOfOp(sites, routes, ops, Scan(site), Supplying(site, r));
    }
  }

  /** Events and scans can come in any order and any number: all that cover the routes end in the
      same resources, if each route has one site and the routes keep apart. */
  lemma EventsAndScansAgree(sites: seq<Site>, routes: seq<Route>, store: Store, a: seq<Op>, b: seq<Op>)
    requires OneSite(sites, routes) && Separate(sites, routes) && Untangled(sites, routes, store)
    requires Possible(sites, routes, a) && Covers(sites, routes, a)
    requires Possible(sites, routes, b) && Covers(sites, routes, b)
    ensures Outcome(sites, routes, store, a) == Outcome(sites, routes, store, b)
  {
    hide OneSite, Possible, Covers, TaskOf, Apart, Touches, Removes, AllTasks;
    var x, y := AllTasks(sites, routes, a), AllTasks(sites, routes, b);
    TasksAreOfRoutes(sites, routes, a);
    TasksAreOfRoutes(sites, routes, b);
    forall t | t in x ensures t in y {
      var r :| r in routes && t == TaskOf(sites, r);
      CoveredTask(sites, routes, b, r);
    }
    forall t | t in y ensures t in x {
      var r :| r in routes && t == TaskOf(sites, r);
      CoveredTask(sites, routes, a, r);
    }
    SameOutcome(store, x, y);
  }

  /** Why each route must have one site: two sites that claim it take its resources from each other,
      and the last scan wins. */
  lemma TwoSitesFight(routes: seq<Route>, store: Store, a: Site, b: Site, route: Route)
    requires routes == [route] && a.name != b.name && ScanPicks(a, route) && ScanPicks(b, route)
    requires exists key :: Touches(Supplying(a, route), key) && Touches(Supplying(b, route), key)
    ensures Outcome([a, b], routes, store, [Scan(a), Scan(b)]) != Outcome([a, b], routes, store, [Scan(b), Scan(a)])
  {
    hide ParentsMatch, Enabled, OptsOut, Items, Names, Perform, Ensured, LastSpec;
    var x, y := Supplying(a, route), Supplying(b, route);
    var key :| Touches(x, key) && Touches(y, key);
    OneScan([a, b], a, route);
    OneScan([a, b], b, route);
    TwoOps([a, b], routes, store, Scan(a), Scan(b), x, y);
    TwoOps([a, b], routes, store, Scan(b), Scan(a), y, x);
    LastSiteWins(Perform(store, x), y, key);
    LastSiteWins(Perform(store, y), x, key);
  }

  lemma OneScan(sites: seq<Site>, site: Site, route: Route)
    requires site.discover.Some? && ScanPicks(site, route)
    ensures OpTasks(sites, [route], Scan(site)) == [Supplying(site, route)]
  {
    hide ScanPicks, Items;
    forall kind ensures ScanTasks(site, [route], kind) == if route.Kind() == kind then [Supplying(site, route)] else [] {
      assert [route][..0] == [];
      assert [] + [Supplying(site, route)] == [Supplying(site, route)];
    }
    var one := [Supplying(site, route)];
    assert one + [] + [] == one && [] + one + [] == one && [] + [] + one == one;
  }

  lemma TwoOps(sites: seq<Site>, routes: seq<Route>, store: Store, p: Op, q: Op, x: Task, y: Task)
    requires OpTasks(sites, routes, p) == [x] && OpTasks(sites, routes, q) == [y]
    ensures Outcome(sites, routes, store, [p, q]) == Perform(Perform(store, x), y)
  {
    hide OpTasks, Perform;
    assert AllTasks(sites, routes, []) == [];
    assert AllTasks(sites, routes, [p, q][1..]) == [y] by { assert [p, q][1..] == [q] && [q][1..] == []; }
    assert AllTasks(sites, routes, [p, q]) == [x] + [y];
    assert PerformAll(Perform(store, x), [y]) == Perform(Perform(store, x), y) by { assert [y][1..] == []; }
    assert ([x] + [y])[1..] == [y];
  }

  lemma LastSiteWins(store: Store, task: Task, key: Key)
    requires Touches(task, key)
    ensures var after := Perform(store, task); key in after && SITE in after[key].labels && after[key].labels[SITE] == task.owner.site
  {
    PerformAt(store, task, key);
    hide Names, Perform;
  }

  // ---- All ports of a service ----

  /** The list has exactly the entries of the map, one for each key. */
  lemma {:induction false} AsItemsSpec(route: Route, siteRef: string, hostname: string, ports: seq<Port>, key: Key)
    ensures var items := AsItems(route, siteRef, hostname, ports);
      var specs := AllPorts(route.namespace, route.name, siteRef, hostname, ports);
      && Consistent(items)
      && (Names(items, route.namespace, key) <==> key.namespace == route.namespace && key.name in specs)
      && (Names(items, route.namespace, key) ==> LastSpec(items, key.name) == specs[key.name])
    decreases |ports|
  {
    var items := AsItems(route, siteRef, hostname, ports);
    ListsTheMap(route, siteRef, hostname, ports);
    if Names(items, route.namespace, key) {
      LastSpecIsSome(items, key.name);
    }
    if key.namespace == route.namespace && key.name in AllPorts(route.namespace, route.name, siteRef, hostname, ports) {
      var i :| 0 <= i < |items| && items[i].name == key.name;
    }
    hide AsItems, AllPorts;
  }

  lemma {:induction false} ListsTheMap(route: Route, siteRef: string, hostname: string, ports: seq<Port>)
    ensures var items := AsItems(route, siteRef, hostname, ports);
      var specs := AllPorts(route.namespace, route.name, siteRef, hostname, ports);
      && (forall item :: item in items ==> item.name in specs && specs[item.name] == item.spec)
      && (forall name :: name in specs ==> exists i :: 0 <= i < |items| && items[i].name == name)
    decreases |ports|
  {
    hide KeyOf, SpecOf, Without;
    if ports != [] {
      var n := |ports| - 1;
      ListsTheMap(route, siteRef, hostname, ports[..n]);
      var before, items := AsItems(route, siteRef, hostname, ports[..n]), AsItems(route, siteRef, hostname, ports);
      var key := KeyOf(route.namespace, route.name, ports[n]);
      var specs := AllPorts(route.namespace, route.name, siteRef, hostname, ports);
      assert specs == AllPorts(route.namespace, route.name, siteRef, hostname, ports[..n])[key := specs[key]];
      forall name | name in specs ensures exists i :: 0 <= i < |items| && items[i].name == name {
        if name == key {
          assert items[|items| - 1].name == name;
        } else {
          var i :| 0 <= i < |before| && before[i].name == name;
          assert before[i] in Without(before, key);
          assert before[i] in items;
        }
      }
    }
  }
}
