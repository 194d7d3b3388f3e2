/** Discovery as the controller does it: it reads and writes the owned resources one by one, and any
    call to the cluster can fail. Each method is proved to leave what Discovery and DiscoveryRuns say if
    nothing fails, and what DiscoveryFailures says of attempts in any case; and it reports success
    exactly if no call that it made failed. */
module DiscoveryController {
  import opened Shared
  import opened ServicePorts
  import opened Discovery
  import opened DiscoveryRuns
  import opened DiscoveryFailures

  /** How the cluster takes a call: done, not done, or done but reported as failed. */
  datatype Answer = Done | Refused | Lost

  /** All calls from one number up to another were answered. */
  ghost predicate AllDone(answers: nat -> Answer, from: nat, to: nat) {
    forall i :: from <= i < to ==> answers(i) == Done
  }

  /** The named entries were ensured, and nothing else changed. */
  ghost predicate EntriesEnsured(before: Store, after: Store, namespace: string, owner: Owner, specs: map<string, Spec>, names: set<string>)
    requires names <= specs.Keys
  {
    forall key :: Look(after, key) == (
      if key.namespace == namespace && key.name in names then Some(Ensured(Look(before, key), owner, specs[key.name]))
      else Look(before, key))
  }

  /** The task was attempted, and done if the attempt succeeded. */
  ghost predicate Handled(before: Store, after: Store, task: Task, ok: bool) {
    Attempted(before, after, task) && (ok ==> after == Perform(before, task))
  }

  /** The tasks were attempted one after another, and all done if the attempts succeeded. */
  ghost predicate AllServed(before: Store, after: Store, tasks: seq<Task>, ok: bool) {
    && (exists stores :: Tries(stores, tasks) && stores[0] == before && stores[|tasks|] == after)
    && (ok ==> after == PerformAll(before, tasks))
  }

  class Controller {
    const answers: nat -> Answer
    var resources: Store
    var writes: nat
    var made: nat

    constructor (store: Store, answers: nat -> Answer)
      ensures resources == store && writes == made == 0 && this.answers == answers
    {
      this.answers := answers;
      resources, writes, made := store, 0, 0;
    }

    /** The next call to the cluster. */
    method Ask() returns (a: Answer)
      modifies this`made
      ensures made == old(made) + 1 && a == answers(old(made))
    {
      a := answers(made);
      made := made + 1;
    }

    /** Create the resource, or patch it if its labels or its spec differ. */
    method EnsureOwned(key: Key, owner: Owner, spec: Spec) returns (ok: bool)
      modifies this
      ensures var w := old(Written(resources, writes)); var after := Written(resources, writes);
        after == Ensure(w, key, owner, spec) || (!ok && after == w)
      ensures old(made) < made && (ok <==> AllDone(answers, old(made), made))
    {
      var read := Ask();
      if read != Done { return false; }
      if key !in resources {
        var labels := map[OWNER_KIND := Tag(owner.kind)][OWNER_NAME := owner.name][SITE := owner.site];
        assert map[][OWNER_KIND := Tag(owner.kind)] == map[OWNER_KIND := Tag(owner.kind)];
        var created := Ask();
        if created == Answer.Refused { return false; }
        resources, writes := resources[key := Owned(labels, spec)], writes + 1;
        return created == Done;
      }
      var existing := resources[key];
      var needsPatch := false;
      if !Stamped(existing.labels, owner) {
        needsPatch := true;
      }
      if existing.spec != spec {
        needsPatch := true;
      }
      if !needsPatch {
        return true;
      }
      var labels := existing.labels;
      labels := labels[OWNER_KIND := Tag(owner.kind)];
      labels := labels[OWNER_NAME := owner.name];
      labels := labels[SITE := owner.site];
      var patched := Ask();
      if patched == Answer.Refused { return false; }
      resources, writes := resources[key := Owned(labels, spec)], writes + 1;
      return patched == Done;
    }

    /** Every hostname in turn; one whose spec cannot be built is skipped, and errors are collected. */
    method ProcessHTTPRoute(site: Site, cfg: Config, route: Route) returns (ok: bool)
      requires route.HTTPRoute?
      modifies this
      ensures var owner := Owner(OfHTTPRoute, route.name, site.name); var items := HTTPItems(site, cfg, route, route.hostnames);
        && Handled(old(resources), resources, Supply(route.namespace, owner, items), ok)
        && (ok ==> Written(resources, writes) == EnsureAll(old(Written(resources, writes)), route.namespace, owner, items))
      ensures old(made) <= made && (ok <==> AllDone(answers, old(made), made))
    {
      hide Ensure, HTTPTarget, HostnameToResourceName, SiteRef, Named, Attempted;
      var owner := Owner(OfHTTPRoute, route.name, site.name);
      ghost var before := Written(resources, writes);
      ghost var all: seq<Item>, done: seq<Item> := [], [];
      ok := true;
      for i := 0 to |route.hostnames|
        invariant Written(resources, writes) == EnsureAll(before, route.namespace, owner, done)
        invariant all + HTTPItems(site, cfg, route, route.hostnames[i..]) == HTTPItems(site, cfg, route, route.hostnames)
        invariant (forall item :: item in done ==> item in all) && (ok ==> done == all)
        invariant old(made) <= made && (ok <==> AllDone(answers, old(made), made))
      {
        var host := route.hostnames[i];
        var target := HTTPTarget(route, cfg);
        HTTPStep(site, cfg, route, all, i);
        if target.None? {
          continue;
        }
        var spec := Spec(SiteRef(site, cfg, route), Named(route, cfg.Prefix(), route.name), "http", host, 0, target.value);
        var item := Item(HostnameToResourceName(route.name, host), spec);
        OneMore(before, route.namespace, owner, done, item);
        ghost var w, calls := Written(resources, writes), made;
        var ensured := EnsureOwned(Key(route.namespace, item.name), owner, spec);
        if Written(resources, writes) != w || ensured { done := done + [item]; }
        all := all + [item];
        CallsAdd(answers, old(made), calls, made);
        if !ensured { ok := false; }
      }
      assert route.hostnames[|route.hostnames|..] == [] && all + [] == all;
      ItemsServed(before, route.namespace, owner, done, all);
    }

    method ProcessTCPRoute(site: Site, cfg: Config, route: Route) returns (ok: bool)
      requires route.TCPRoute?
      modifies this
      ensures Handled(old(resources), resources,
                     Supply(route.namespace, Owner(OfTCPRoute, route.name, site.name), TCPItems(site, cfg, route, ProxyPort(route, cfg))), ok)
      ensures old(made) <= made && (ok <==> AllDone(answers, old(made), made))
    {
      ok := EnsureIfAny(route.namespace, Owner(OfTCPRoute, route.name, site.name), TCPItems(site, cfg, route, ProxyPort(route, cfg)));
    }

    /** One item at most. */
    method EnsureIfAny(namespace: string, owner: Owner, items: seq<Item>) returns (ok: bool)
      requires |items| <= 1
      modifies this
      ensures Handled(old(resources), resources, Supply(namespace, owner, items), ok)
      ensures old(made) <= made && (ok <==> AllDone(answers, old(made), made))
    {
      hide Ensure, Attempted;
      ghost var before := Written(resources, writes);
      OneMore(before, namespace, owner, [], if items == [] then Item("", Spec("", "", "", "", 0, Target("", 0, ""))) else items[0]);
      if items == [] {
        ItemsServed(before, namespace, owner, [], []);
        return true;
      }
      assert [] + [items[0]] == items;
      ok := EnsureOwned(Key(namespace, items[0].name), owner, items[0].spec);
      ItemsServed(before, namespace, owner, if Written(resources, writes) == before && !ok then [] else items, items);
    }

    /** The entries of a map, in whatever order the map yields them. */
    method EnsureEntries(namespace: string, owner: Owner, specs: map<string, Spec>) returns (ok: bool)
      modifies this
      ensures exists names :: names <= specs.Keys && EntriesEnsured(old(resources), resources, namespace, owner, specs, names) && (ok ==> names == specs.Keys)
      ensures old(writes) <= writes && (writes == old(writes) <==> resources == old(resources))
      ensures old(made) <= made && (ok <==> AllDone(answers, old(made), made))
    {
      hide Ensured, Ensure, UpToDate, EntriesEnsured, AllDone;
      var left := specs.Keys;
      ghost var names: set<string> := {};
      ok := true;
      NoEntries(resources, namespace, owner, specs);
      CallsAdd(answers, made, made, made);
      while left != {}
        invariant left <= specs.Keys && old(writes) <= writes && names <= specs.Keys - left && (ok ==> names == specs.Keys - left)
        invariant EntriesEnsured(old(resources), resources, namespace, owner, specs, names)
        invariant writes == old(writes) <==> resources == old(resources)
        invariant old(made) <= made && (ok <==> AllDone(answers, old(made), made))
        decreases |left|
      {
        var name :| name in left;
        ghost var w, calls := Written(resources, writes), made;
        var ensured := EnsureOwned(Key(namespace, name), owner, specs[name]);
        CallsAdd(answers, old(made), calls, made);
        ok := ok && ensured;
        names := EntryTried(old(resources), old(writes), w, Written(resources, writes), namespace, owner, specs, names, name, ensured);
        left := left - {name};
      }
    }

    /** Nothing without discovery of services and a site reference; all ports, or the selected one. */
    method ProcessService(cfg: Config, site: Site, route: Route) returns (ok: bool)
      requires route.Service?
      modifies this
      ensures Handled(old(resources), resources, Supply(route.namespace, Owner(OfService, route.name, site.name), ServiceItems(cfg, route)), ok)
      ensures old(made) <= made && (ok <==> AllDone(answers, old(made), made))
    {
      hide Ensured, Ensure, AllPorts, AsItems, EntriesEnsured, SinglePort, AllPortsWanted, Handled;
      var p := cfg.Prefix();
      var siteRef := route.Get(p + "/site-ref");
      var owner := Owner(OfService, route.name, site.name);
      if !cfg.services || siteRef == "" {
        ok := EnsureIfAny(route.namespace, owner, []);
        return;
      }
      var hostname := InCluster(route.name, route.namespace);
      ghost var before := resources;
      if route.Get(p + "/full-domain") == "" && AllPortsWanted(cfg, route) {
        var specs := BuildAllPortSpecs(route.namespace, route.name, siteRef, hostname, route.ports);
        ok := EnsureEntries(route.namespace, owner, specs);
        ghost var names :| names <= specs.Keys && EntriesEnsured(before, resources, route.namespace, owner, specs, names) && (ok ==> names == specs.Keys);
        EntriesServed(before, resources, route, owner, siteRef, hostname, names, ok);
      } else {
        ok := EnsureIfAny(route.namespace, owner, SinglePort(cfg, route, siteRef, hostname));
      }
    }

    /** The first deletion that fails ends it. */
    method DeleteOwnedResources(kind: OwnerKind, name: string) returns (ok: bool)
      modifies this`resources, this`made
      ensures Handled(old(resources), resources, Remove(kind, name), ok)
      ensures old(made) < made && (ok <==> AllDone(answers, old(made), made))
    {
      hide OwnedBy, Handled;
      ghost var before := resources;
      var listing := Ask();
      if listing != Done {
        NothingRemoved(before, kind, name);
        return false;
      }
      var listed := set key | key in resources && OwnedBy(resources[key], kind, name);
      ghost var all := listed;
      while listed != {}
        invariant listed <= all
        invariant resources == map key | key in before && key !in all - listed :: before[key]
        invariant old(made) < made && AllDone(answers, old(made), made)
        decreases |listed|
      {
        var key :| key in listed;
        var deleted := Ask();
        if deleted != Answer.Refused { resources := resources - {key}; }
        if deleted != Done {
          SomeRemoved(before, resources, kind, name, all, false);
          return false;
        }
        listed := listed - {key};
      }
      SomeRemoved(before, resources, kind, name, all, true);
      return true;
    }

    // ---- Events and scans ----

    /** The first site that claims the route. */
    method ResolveSite(sites: seq<Site>, route: Route) returns (ok: bool, r: Option<Site>)
      modifies this`made
      ensures made == old(made) + 1 && (ok <==> AllDone(answers, old(made), made))
      ensures r == if ok then Discovery.ResolveSite(sites, route) else None
    {
      hide ParentsMatch, Enabled, AllDone;
      var listing := Ask();
      OneCall(answers, made - 1);
      if listing != Done { return false, None; }
      for i := 0 to |sites|
        invariant Discovery.ResolveSite(sites, route) == Discovery.ResolveSite(sites[i..], route)
      {
        var site := sites[i];
        if site.discover.None? || !Enabled(site.discover.value, route) {
          continue;
        }
        var cfg := site.discover.value;
        if route.Get(cfg.Prefix() + "/site-ref") == site.name {
          return true, Some(site);
        }
        if ReferencesGateway(cfg, route) {
          return true, Some(site);
        }
      }
      return true, None;
    }

    method Process(site: Site, cfg: Config, route: Route) returns (ok: bool)
      requires site.discover == Some(cfg)
      modifies this
      ensures Handled(old(resources), resources, Supplying(site, route), ok)
      ensures old(made) <= made && (ok <==> AllDone(answers, old(made), made))
    {
      hide HTTPItems, TCPItems, ServiceItems, Handled;
      match route {
        case HTTPRoute(_, _, _, _, _, _) => ok := ProcessHTTPRoute(site, cfg, route);
        case TCPRoute(_, _, _, _, _) => ok := ProcessTCPRoute(site, cfg, route);
        case Service(_, _, _, _) => ok := ProcessService(cfg, site, route);
      }
    }

    /** An event for a route or service. */
    method Reconcile(sites: seq<Site>, route: Route) returns (ok: bool)
      modifies this
      ensures Handled(old(resources), resources, TaskOf(sites, route), ok)
      ensures old(made) < made && (ok <==> AllDone(answers, old(made), made))
    {
      hide Perform, Claims, Items, Attempted;
      ghost var first := made;
      NoAttempt(resources, TaskOf(sites, route));
      var read := Ask();
      if read != Done { return false; }
      var found, r := ResolveSite(sites, route);
      if !found { return false; }
      NothingIsDone(resources);
      if r.None? { return true; }
      var site := r.value;
      assert Claims(site, route);
      ClaimsMeansDiscovers(site, route);
      ghost var calls := made;
      assert AllDone(answers, first, calls);
      if OptsOut(route, site.discover.value.Prefix()) {
        ok := DeleteOwnedResources(route.Kind(), route.name);
      } else {
        ok := Process(site, site.discover.value, route);
      }
      CallsAdd(answers, first, calls, made);
    }

    /** An event for a route or service that is no longer there: the read does not find it. */
    method ReconcileDeleted(kind: OwnerKind, name: string) returns (ok: bool)
      modifies this
      ensures Handled(old(resources), resources, Remove(kind, name), ok)
      ensures old(made) < made && (ok <==> AllDone(answers, old(made), made))
    {
      hide Perform, Attempted;
      ghost var first := made;
      NoAttempt(resources, Remove(kind, name));
      var read := Ask();
      if read != Done { return false; }
      ghost var calls := made;
      ok := DeleteOwnedResources(kind, name);
      CallsAdd(answers, first, calls, made);
    }

    /** The routes of one kind that the site claims and that are not opted out under its prefix; errors
        are collected. */
    method ScanKind(site: Site, cfg: Config, routes: seq<Route>, kind: OwnerKind) returns (ok: bool)
      requires site.discover == Some(cfg) && forall r :: r in routes && r.Kind() == kind ==> Enabled(cfg, r)
      modifies this
      ensures AllServed(old(resources), resources, ScanTasks(site, routes, kind), ok)
      ensures old(made) < made && (ok <==> AllDone(answers, old(made), made))
    {
      hide Perform, Supplying, ParentsMatch, OptsOut, Enabled, Attempted, AllServed;
      ghost var before := resources;
      var listing := Ask();
      if listing != Done {
        NoneServed(before, ScanTasks(site, routes, kind), false);
        return false;
      }
      ok := true;
      NoneServed(before, [], true);
      for i := 0 to |routes|
        invariant AllServed(before, resources, ScanTasks(site, routes[..i], kind), ok)
        invariant old(made) < made && (ok <==> AllDone(answers, old(made), made))
      {
        var route := routes[i];
        assert routes[..i + 1][..i] == routes[..i];
        ghost var tasks := ScanTasks(site, routes[..i], kind);
        assert tasks + [] == tasks;
        if route.Kind() != kind || OptsOut(route, cfg.Prefix()) {
          continue;
        }
        var key := cfg.Prefix() + "/site-ref";
        var matched;
        if route.Service? {
          matched := key in route.annotations && route.annotations[key] == site.name;
        } else {
          matched := route.Get(key) == site.name;
          if !matched && cfg.gatewayName != "" {
            matched := ParentsMatch(route.parents, cfg.gatewayName, cfg.gatewayNamespace);
          }
        }
        if matched {
          ghost var mid, calls := resources, made;
          var processed := Process(site, cfg, route);
          OneMoreServed(before, mid, resources, tasks, Supplying(site, route), ok, processed);
          CallsAdd(answers, old(made), calls, made);
          ok := ok && processed;
        }
      }
      assert routes[..|routes|] == routes;
    }

    /** The scan at the end of a site's reconciliation; the first kind that fails ends it. */
    method Scan(sites: seq<Site>, routes: seq<Route>, site: Site) returns (ok: bool)
      modifies this
      ensures AllServed(old(resources), resources, OpTasks(sites, routes, Op.Scan(site)), ok)
      ensures old(made) <= made && (ok <==> AllDone(answers, old(made), made))
    {
      hide ScanTasks, PerformAll, ParentsMatch, OptsOut, AllServed;
      ghost var a, b, c := ScanTasks(site, routes, OfHTTPRoute), ScanTasks(site, routes, OfTCPRoute), ScanTasks(site, routes, OfService);
      ghost var before := resources;
      if site.discover.None? || !site.discover.value.httpRoutes { NothingToScan(site, routes, OfHTTPRoute); }
      if site.discover.None? || !site.discover.value.tcpRoutes { NothingToScan(site, routes, OfTCPRoute); }
      if site.discover.None? || !site.discover.value.services { NothingToScan(site, routes, OfService); }
      ok := true;
      NoneServed(before, [], true);
      if site.discover.None? {
        assert a + b + c == [];
        return;
      }
      var cfg := site.discover.value;
      if cfg.httpRoutes { ok := ScanKind(site, cfg, routes, OfHTTPRoute); }
      assert AllServed(before, resources, a, ok);
      if !ok {
        RestNotServed(before, resources, a, b + c);
        assert a + (b + c) == a + b + c;
        return;
      }
      ghost var mid, calls := resources, made;
      NoneServed(mid, [], true);
      if cfg.tcpRoutes { ok := ScanKind(site, cfg, routes, OfTCPRoute); }
      BothServed(before, mid, resources, a, b, true, ok);
      CallsAdd(answers, old(made), calls, made);
      if !ok {
        RestNotServed(before, resources, a + b, c);
        return;
      }
      mid, calls := resources, made;
      NoneServed(mid, [], true);
      if cfg.services { ok := ScanKind(site, cfg, routes, OfService); }
      BothServed(before, mid, resources, a + b, c, true, ok);
      CallsAdd(answers, old(made), calls, made);
    }
  }

  // ---- Calls and attempts ----

  lemma CallsAdd(answers: nat -> Answer, from: nat, mid: nat, to: nat)
    requires from <= mid <= to
    ensures AllDone(answers, from, to) <==> AllDone(answers, from, mid) && AllDone(answers, mid, to)
    ensures AllDone(answers, to, to)
  {
  }

  lemma OneCall(answers: nat -> Answer, i: nat)
    ensures AllDone(answers, i, i + 1) <==> answers(i) == Done
  {
  }

  lemma NoEntries(store: Store, namespace: string, owner: Owner, specs: map<string, Spec>)
    ensures EntriesEnsured(store, store, namespace, owner, specs, {})
  {
  }

  /** Ensuring one more entry writes exactly if it changes the store. */
  lemma OneEntry(before: Store, w: Written, namespace: string, owner: Owner, specs: map<string, Spec>, names: set<string>, name: string)
    requires names <= specs.Keys && name in specs && name !in names && EntriesEnsured(before, w.store, namespace, owner, specs, names)
    ensures var r := Ensure(w, Key(namespace, name), owner, specs[name]);
      && EntriesEnsured(before, r.store, namespace, owner, specs, names + {name})
      && w.writes <= r.writes && (w.store != before ==> r.store != before) && (r.writes == w.writes <==> r.store == w.store)
  {
    hide Ensured, Ensure, UpToDate;
    var key := Key(namespace, name);
    EnsureSpec(w, key, owner, specs[name]);
    EnsureGrows(w, key, owner, specs[name]);
    assert Look(w.store, key) == Look(before, key);
    SameOnlyIfUntouched(before, w.store, key, Ensured(Look(w.store, key), owner, specs[name]));
  }

  /** The names ensured after one more entry was tried. */
  lemma EntryTried(before: Store, count: nat, w: Written, after: Written, namespace: string, owner: Owner, specs: map<string, Spec>,
                   names: set<string>, name: string, ok: bool) returns (reached: set<string>)
    requires names <= specs.Keys && name in specs && name !in names && EntriesEnsured(before, w.store, namespace, owner, specs, names)
    requires after == Ensure(w, Key(namespace, name), owner, specs[name]) || (!ok && after == w)
    requires count <= w.writes && (w.writes == count <==> w.store == before)
    ensures names <= reached <= names + {name} && (ok ==> name in reached) && EntriesEnsured(before, after.store, namespace, owner, specs, reached)
    ensures count <= after.writes && (after.writes == count <==> after.store == before)
  {
    hide Ensured, Ensure, EntriesEnsured;
    OneEntry(before, w, namespace, owner, specs, names, name);
    reached := if after == w && !ok then names else names + {name};
  }

  lemma NothingIsDone(store: Store)
    ensures Perform(store, Nothing) == store
  {
  }

  /** Some of the items were ensured; all of them in order if nothing failed. */
  lemma ItemsServed(w: Written, namespace: string, owner: Owner, done: seq<Item>, items: seq<Item>)
    requires forall item :: item in done ==> item in items
    ensures var after := EnsureAll(w, namespace, owner, done).store;
      Attempted(w.store, after, Supply(namespace, owner, items)) && (done == items ==> after == Perform(w.store, Supply(namespace, owner, items)))
  {
    hide Ensured, EnsureAll;
    CountedFromZero(w.store, w.writes, namespace, owner, done);
    var part, whole := Supply(namespace, owner, done), Supply(namespace, owner, items);
    var after := Perform(w.store, part);
    PerformAttempts(w.store, part);
    forall key ensures AttemptedAt(w.store, after, whole, key) {
      assert AttemptedAt(w.store, after, part, key);
      if Look(after, key) != Look(w.store, key) {
        var item :| item in done && SuppliedAs(w.store, after, part, key, item);
        assert SuppliedAs(w.store, after, whole, key, item);
      }
    }
  }

  lemma EntriesServed(before: Store, after: Store, route: Route, owner: Owner, siteRef: string, hostname: string, names: set<string>, ok: bool)
    requires route.Service? && var specs := AllPorts(route.namespace, route.name, siteRef, hostname, route.ports);
      names <= specs.Keys && EntriesEnsured(before, after, route.namespace, owner, specs, names) && (ok ==> names == specs.Keys)
    ensures Handled(before, after, Supply(route.namespace, owner, AsItems(route, siteRef, hostname, route.ports)), ok)
  {
    hide Ensured, AllPorts, AsItems, Perform, Names;
    var specs := AllPorts(route.namespace, route.name, siteRef, hostname, route.ports);
    var items := AsItems(route, siteRef, hostname, route.ports);
    var task := Supply(route.namespace, owner, items);
    ListsTheMap(route, siteRef, hostname, route.ports);
    forall key ensures AttemptedAt(before, after, task, key) {
      if key.namespace == route.namespace && key.name in names {
        var i :| 0 <= i < |items| && items[i].name == key.name;
        assert items[i] in items && SuppliedAs(before, after, task, key, items[i]);
      }
    }
    if ok { EntriesAreItems(before, after, route, owner, siteRef, hostname); }
  }

  lemma NothingRemoved(store: Store, kind: OwnerKind, name: string)
    ensures Handled(store, store, Remove(kind, name), false)
  {
    NoAttempt(store, Remove(kind, name));
  }

  /** Only owned resources went; all of them if nothing failed. */
  lemma SomeRemoved(before: Store, after: Store, kind: OwnerKind, name: string, all: set<Key>, ok: bool)
    requires all == set key | key in before && OwnedBy(before[key], kind, name)
    requires forall key :: key in after ==> key in before && after[key] == before[key]
    requires forall key :: key in before && key !in after ==> key in all
    requires ok ==> forall key :: key in all ==> key !in after
    ensures Handled(before, after, Remove(kind, name), ok)
  {
    hide OwnedBy;
    var task := Remove(kind, name);
    forall key ensures AttemptedAt(before, after, task, key) {}
    if ok {
      forall key ensures Look(after, key) == Look(DeleteOwned(before, kind, name), key) { DeleteOwnedAt(before, kind, name, key); }
      SameLook(after, DeleteOwned(before, kind, name));
    }
  }

  lemma NoneServed(store: Store, tasks: seq<Task>, ok: bool)
    requires ok ==> tasks == []
    ensures AllServed(store, store, tasks, ok)
  {
    var stores := seq(|tasks| + 1, _ => store);
    forall i | 0 <= i < |tasks| ensures Attempted(stores[i], stores[i + 1], tasks[i]) { NoAttempt(store, tasks[i]); }
    assert Tries(stores, tasks);
    hide Attempted;
  }

  lemma OneMoreServed(before: Store, mid: Store, after: Store, tasks: seq<Task>, task: Task, first: bool, second: bool)
    requires AllServed(before, mid, tasks, first) && Handled(mid, after, task, second)
    ensures AllServed(before, after, tasks + [task], first && second)
  {
    hide Attempted, Perform, PerformAll;
    var stores :| Tries(stores, tasks) && stores[0] == before && stores[|tasks|] == mid;
    var more := stores + [after];
    assert Tries(more, tasks + [task]) by {
      forall i | 0 <= i < |tasks| + 1 ensures Attempted(more[i], more[i + 1], (tasks + [task])[i]) {
        if i < |tasks| { assert Attempted(stores[i], stores[i + 1], tasks[i]); }
      }
    }
    OneTaskMore(before, tasks, task);
  }

  lemma BothServed(before: Store, mid: Store, after: Store, a: seq<Task>, b: seq<Task>, first: bool, second: bool)
    requires AllServed(before, mid, a, first) && AllServed(mid, after, b, second)
    ensures AllServed(before, after, a + b, first && second)
  {
    hide Attempted, Perform, PerformAll;
    var x :| Tries(x, a) && x[0] == before && x[|a|] == mid;
    var y :| Tries(y, b) && y[0] == mid && y[|b|] == after;
    var z := x + y[1..];
    assert Tries(z, a + b) by {
      forall i | 0 <= i < |a| + |b| ensures Attempted(z[i], z[i + 1], (a + b)[i]) {
        if i < |a| { assert Attempted(x[i], x[i + 1], a[i]); } else { assert Attempted(y[i - |a|], y[i - |a| + 1], b[i - |a|]); }
      }
    }
    Onward(before, a, b);
  }

  lemma RestNotServed(before: Store, after: Store, a: seq<Task>, b: seq<Task>)
    requires AllServed(before, after, a, false)
    ensures AllServed(before, after, a + b, false)
  {
    NoneServed(after, b, false);
    hide Tries, PerformAll;
    BothServed(before, after, after, a, b, false, false);
  }

  lemma ClaimsMeansDiscovers(site: Site, route: Route)
    ensures Claims(site, route) ==> site.discover.Some?
  {
  }

  /** The store does not depend on the count. */
  lemma {:induction false} CountedFromZero(store: Store, writes: nat, namespace: string, owner: Owner, items: seq<Item>)
    ensures EnsureAll(Written(store, writes), namespace, owner, items).store == EnsureAll(Written(store, 0), namespace, owner, items).store
    decreases |items|
  {
    if items != [] {
      var n := |items| - 1;
      CountedFromZero(store, writes, namespace, owner, items[..n]);
      SameStore(EnsureAll(Written(store, writes), namespace, owner, items[..n]), EnsureAll(Written(store, 0), namespace, owner, items[..n]),
                Key(namespace, items[n].name), owner, items[n].spec);
      hide Ensure;
    }
  }

  lemma {:induction false} OneTaskMore(store: Store, tasks: seq<Task>, task: Task)
    ensures PerformAll(store, tasks + [task]) == Perform(PerformAll(store, tasks), task)
    decreases |tasks|
  {
    hide Perform;
    if tasks == [] {
      assert ([] + [task])[1..] == [];
    } else {
      assert (tasks + [task])[1..] == tasks[1..] + [task];
      OneTaskMore(Perform(store, tasks[0]), tasks[1..], task);
    }
  }

  lemma {:induction false} Onward(store: Store, a: seq<Task>, b: seq<Task>)
    ensures PerformAll(store, a + b) == PerformAll(PerformAll(store, a), b)
    decreases |a|
  {
    hide Perform;
    if a == [] {
      assert a + b == b;
    } else {
      assert (a + b)[1..] == a[1..] + b;
      Onward(Perform(store, a[0]), a[1..], b);
    }
  }

  lemma {:induction false} NothingToScan(site: Site, routes: seq<Route>, kind: OwnerKind)
    requires site.discover.None? || !(match kind case OfHTTPRoute => site.discover.value.httpRoutes
                                                 case OfTCPRoute => site.discover.value.tcpRoutes
                                                 case OfService => site.discover.value.services)
    ensures ScanTasks(site, routes, kind) == []
    decreases |routes|
  {
    hide ParentsMatch, OptsOut, Supplying;
    if routes != [] {
      NothingToScan(site, routes[..|routes| - 1], kind);
    }
  }

  lemma SameOnlyIfUntouched(first: Store, store: Store, key: Key, o: Owned)
    requires Look(store, key) == Look(first, key)
    ensures store[key := o] == first <==> store == first && store[key := o] == store
  {
    if store[key := o] == first {
      assert store[key := o] == store[key := store[key]] == store;
    }
  }

  lemma EntriesAreItems(before: Store, after: Store, route: Route, owner: Owner, siteRef: string, hostname: string)
    requires route.Service? && var specs := AllPorts(route.namespace, route.name, siteRef, hostname, route.ports);
      EntriesEnsured(before, after, route.namespace, owner, specs, specs.Keys)
    ensures after == Perform(before, Supply(route.namespace, owner, AsItems(route, siteRef, hostname, route.ports)))
  {
    hide Ensured, AllPorts, AsItems, Perform, Names;
    var task := Supply(route.namespace, owner, AsItems(route, siteRef, hostname, route.ports));
    forall key ensures Look(after, key) == Look(Perform(before, task), key) {
      PerformAt(before, task, key);
      AsItemsSpec(route, siteRef, hostname, route.ports, key);
    }
    SameLook(after, Perform(before, task));
  }

  lemma HTTPStep(site: Site, cfg: Config, route: Route, done: seq<Item>, i: nat)
    requires route.HTTPRoute? && i < |route.hostnames|
    ensures var target := HTTPTarget(route, cfg);
      var item := if target.None? then [] else
        [Item(HostnameToResourceName(route.name, route.hostnames[i]),
              Spec(SiteRef(site, cfg, route), Named(route, cfg.Prefix(), route.name), "http", route.hostnames[i], 0, target.value))];
      done + HTTPItems(site, cfg, route, route.hostnames[i..]) == (done + item) + HTTPItems(site, cfg, route, route.hostnames[i + 1..])
  {
    hide HTTPTarget, HostnameToResourceName, SiteRef, Named;
    assert route.hostnames[i..][1..] == route.hostnames[i + 1..];
  }

  lemma OneMore(w: Written, namespace: string, owner: Owner, done: seq<Item>, item: Item)
    ensures EnsureAll(w, namespace, owner, done + [item]) ==
            Ensure(EnsureAll(w, namespace, owner, done), Key(namespace, item.name), owner, item.spec)
    ensures EnsureAll(w, namespace, owner, []) == w
  {
    hide Ensure;
    assert (done + [item])[..|done|] == done;
  }

  lemma SameStore(v: Written, w: Written, key: Key, owner: Owner, spec: Spec)
    requires v.store == w.store
    ensures Ensure(v, key, owner, spec).store == Ensure(w, key, owner, spec).store
  {
  }

  /** What Reconcile and Scan leave behind, event by event and scan by scan, whether they succeeded or not. */
  ghost predicate Worked(sites: seq<Site>, routes: seq<Route>, stores: seq<Store>, ops: seq<Op>) {
    |stores| == |ops| + 1 && forall i :: 0 <= i < |ops| ==> OpServed(sites, routes, stores[i], stores[i + 1], ops[i])
  }

  ghost predicate OpServed(sites: seq<Site>, routes: seq<Route>, before: Store, after: Store, op: Op) {
    match op
    case Event(route) => Handled(before, after, TaskOf(sites, route), false)
    case Scan(_) => AllServed(before, after, OpTasks(sites, routes, op), false)
  }

  lemma {:induction false} OpsServed(sites: seq<Site>, routes: seq<Route>, stores: seq<Store>, ops: seq<Op>)
    requires Worked(sites, routes, stores, ops)
    ensures AllServed(stores[0], stores[|ops|], AllTasks(sites, routes, ops), false)
    decreases |ops|
  {
    hide AllServed, Handled, TaskOf, ScanTasks;
    if ops == [] {
      NoneServed(stores[0], [], false);
    } else {
      assert OpServed(sites, routes, stores[0], stores[1], ops[0]);
      assert Worked(sites, routes, stores[1..], ops[1..]) by {
        forall i | 0 <= i < |ops| - 1 ensures OpServed(sites, routes, stores[1..][i], stores[1..][i + 1], ops[1..][i]) {
          assert OpServed(sites, routes, stores[i + 1], stores[i + 2], ops[i + 1]);
        }
      }
      OpsServed(sites, routes, stores[1..], ops[1..]);
      if ops[0].Event? {
        NoneServed(stores[0], [], false);
        OneMoreServed(stores[0], stores[0], stores[1], [], TaskOf(sites, ops[0].route), false, false);
        assert [] + [TaskOf(sites, ops[0].route)] == [TaskOf(sites, ops[0].route)];
      }
      BothServed(stores[0], stores[1], stores[|ops|], OpTasks(sites, routes, ops[0]), AllTasks(sites, routes, ops[1..]), false, false);
    }
  }

  /** However many events and scans the controller worked on, and wherever calls to the cluster failed:
      once events and scans that cover the routes succeed, the resources are what they would have been
      had nothing failed, and what any other events and scans that cover the routes would have made. */
  lemma FailedWorkOnlyDelays(sites: seq<Site>, routes: seq<Route>, stores: seq<Store>, tried: seq<Op>, ops: seq<Op>, others: seq<Op>)
    requires Worked(sites, routes, stores, tried) && Possible(sites, routes, tried)
    requires OneSite(sites, routes) && Separate(sites, routes) && Untangled(sites, routes, stores[0])
    requires Possible(sites, routes, ops) && Covers(sites, routes, ops) && Possible(sites, routes, others) && Covers(sites, routes, others)
    ensures Outcome(sites, routes, stores[|tried|], ops) == Outcome(sites, routes, stores[0], others)
  {
    hide OneSite, Separate, Untangled, Possible, Covers, OpServed, Attempted, Outcome, AllTasks;
    OpsServed(sites, routes, stores, tried);
    var steps :| Tries(steps, AllTasks(sites, routes, tried)) && steps[0] == stores[0]
                 && steps[|AllTasks(sites, routes, tried)|] == stores[|tried|];
    FailuresOnlyDelay(sites, routes, steps, tried, ops, others);
  }
}
