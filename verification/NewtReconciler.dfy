/** The NewtSite reconciler as a process that changes its copy of the object and the three stores
    call by call. Every method does exactly what the function of the same name in NewtSite says. */
module NewtReconciler {
  import opened Shared
  import opened Server
  import N = NewtSite
  import opened NewtSite

  class Reconciler {
    // What outlives the process.
    var stored: Object
    var sites: Store<SiteRow>
    var secret: Option<Credentials>
    var deployment: Option<string>
    // The process: its copy of the object and the calls still to be answered.
    var res: Object
    var script: seq<Event>
    var crashed: bool

    ghost function View(): State
      reads this
    {
      State(stored, sites, secret, deployment, res, script, crashed)
    }

    constructor (s: State)
      ensures View() == s
    {
      stored, sites, secret, deployment := s.stored, s.sites, s.secret, s.deployment;
      res, script, crashed := s.res, s.script, s.crashed;
    }

    method Disturb(env: Env)
      modifies this
      ensures View() == ApplyEnv(old(View()), env)
    {
      match env {
        case Calm =>
        case EditSpec(spec) =>
          if spec != stored.spec && !stored.Gone() {
            stored := stored.(spec := spec, generation := stored.generation + 1);
          }
        case RequestDelete => stored := stored.(deleting := true);
        case DropSite(id) => sites := sites.Remove(id);
        case AddSite(skip, name, credentials) => sites := sites.Add(skip, SiteRow(name, credentials, false));
      }
    }

    /** Make a call: false when the process has stopped. */
    method Await() returns (alive: bool, event: Event)
      modifies this
      ensures alive <==> !Halted(old(View()))
      ensures !alive ==> View() == Halt(old(View()))
      ensures alive ==> View() == Advance(old(View())) && event == old(script)[0]
    {
      if crashed || script == [] {
        crashed := true;
        return false, Event(Calm, Refused(Unavailable), Credentials("", ""), false);
      }
      event := script[0];
      script := script[1..];
      Disturb(event.env);
      return true, event;
    }

    method PatchStatus(after: Status) returns (r: Result)
      modifies this
      ensures View() == Patch(old(View()), after).s && r == Patch(old(View()), after).r
    {
      var before := res.status;
      var alive, event := Await();
      if !alive { return Err({}); }
      res := res.(status := after);
      if event.reply.Refused? { return Err({}); }
      stored := stored.(status := MergeStatus(stored.status, before, after));
      if event.reply.Lost? { return Err({}); }
      res := stored;
      return Ok;
    }

    method Refetch() returns (r: Result)
      modifies this
      ensures View() == Get(old(View())).s && r == Get(old(View())).r
    {
      var alive, event := Await();
      if !alive || !event.reply.Served? { return Err({}); }
      res := stored;
      return Ok;
    }

    method SetFinalizer(present: bool) returns (r: Result)
      modifies this
      ensures View() == N.SetFinalizer(old(View()), present).s && r == N.SetFinalizer(old(View()), present).r
    {
      var alive, event := Await();
      if !alive || stored != res || stored.Gone() || event.reply.Refused? { return Err({}); }
      stored := stored.(finalizer := present);
      if event.reply.Lost? { return Err({}); }
      res := stored;
      return Ok;
    }

    method Ask() returns (r: Result, defaults: Credentials)
      modifies this
      ensures View() == N.Ask(old(View())).s && r == N.Ask(old(View())).r
      ensures r.Ok? ==> old(script) != [] && defaults == old(script)[0].defaults
    {
      var alive, event := Await();
      if !alive { return Err({}), event.defaults; }
      if !event.reply.Served? { return Err({event.reply.fault}), event.defaults; }
      return Ok, event.defaults;
    }

    method ListSites(name: string) returns (r: Result, items: seq<SiteItem>)
      modifies this
      ensures var l := ApiList(old(View()), name); View() == l.s && r == l.r && items == l.items
    {
      var a, _ := Ask();
      if a.Err? { return a, []; }
      return Ok, Named(sites.live, name, sites.next);
    }

    method CreateOnServer(name: string, credentials: Option<Credentials>) returns (r: Result, id: nat)
      modifies this
      ensures var c := ApiCreate(old(View()), name, credentials); View() == c.s && r == c.r && id == c.id
    {
      var alive, event := Await();
      if !alive { return Err({}), 0; }
      if event.reply.Refused? { return Err({event.reply.fault}), 0; }
      id := sites.next + event.reply.skip;
      sites := sites.Add(event.reply.skip, SiteRow(name, credentials, true));
      if event.reply.Lost? { return Err({event.reply.fault}), 0; }
      return Ok, id;
    }

    /** The name that the server has for the site at the time of the call. */
    method GetSite(id: nat) returns (r: Result, name: string)
      modifies this
      ensures View() == ApiGet(old(View()), id).s && r == ApiGet(old(View()), id).r
      ensures r.Ok? ==> id in sites.live && name == sites.live[id].name
    {
      var alive, event := Await();
      if !alive { return Err({}), ""; }
      if !event.reply.Served? { return Err({event.reply.fault}), ""; }
      if id !in sites.live { return Err({NotFound}), ""; }
      return Ok, sites.live[id].name;
    }

    method RenameOnServer(id: nat, name: string) returns (r: Result)
      modifies this
      ensures View() == ApiRename(old(View()), id, name).s && r == ApiRename(old(View()), id, name).r
    {
      var alive, event := Await();
      if !alive { return Err({}); }
      if event.reply.Refused? { return Err({event.reply.fault}); }
      if id !in sites.live { return Err({NotFound}); }
      sites := sites.Put(id, sites.live[id].(name := name));
      if event.reply.Lost? { return Err({event.reply.fault}); }
      return Ok;
    }

    method DeleteOnServer(id: nat) returns (r: Result)
      modifies this
      ensures View() == ApiDelete(old(View()), id).s && r == ApiDelete(old(View()), id).r
    {
      var alive, event := Await();
      if !alive { return Err({}); }
      if event.reply.Refused? { return Err({event.reply.fault}); }
      if id !in sites.live { return Err({NotFound}); }
      sites := sites.Remove(id);
      if event.reply.Lost? { return Err({event.reply.fault}); }
      return Ok;
    }

    method WriteSecret(credentials: Credentials) returns (r: Result)
      modifies this
      ensures View() == N.WriteSecret(old(View()), credentials).s && r == N.WriteSecret(old(View()), credentials).r
    {
      var g, _ := Ask();
      if g.Err? { return Err({}); }
      var alive, event := Await();
      if !alive || event.reply.Refused? { return Err({}); }
      secret := Some(credentials);
      return if event.reply.Served? then Ok else Err({});
    }

    method WriteDeployment(secretName: string) returns (r: Result)
      modifies this
      ensures View() == N.WriteDeployment(old(View()), secretName).s && r == N.WriteDeployment(old(View()), secretName).r
    {
      var g, _ := Ask();
      if g.Err? { return Err({}); }
      var alive, event := Await();
      if !alive || event.reply.Refused? { return Err({}); }
      deployment := Some(secretName);
      return if event.reply.Served? then Ok else Err({});
    }

    method FindSite(items: seq<SiteItem>, name: string) returns (m: Option<SiteItem>)
      ensures m == N.FindSite(items, name)
    {
      for i := 0 to |items|
        invariant N.FindSite(items, name) == N.FindSite(items[i..], name)
      {
        if items[i].name == name { return Some(items[i]); }
      }
      return None;
    }

    /** Record a created site; if that fails, delete it again. */
    method Record(id: nat, after: Status) returns (r: Result)
      modifies this
      ensures View() == N.Record(old(View()), id, after).s && r == N.Record(old(View()), id, after).r
    {
      r := PatchStatus(after);
      if r.Err? {
        var _ := DeleteOnServer(id);
      }
    }

    method CreateSite() returns (r: Result)
      modifies this
      ensures View() == N.CreateSite(old(View())).s && r == N.CreateSite(old(View())).r
    {
      r := PatchStatus(res.status.(phase := Creating));
      if r.Err? { return; }
      var id;
      if res.spec.local {
        r, id := CreateOnServer(res.spec.name, None);
        if r.Err? { return; }
        r := Record(id, res.status.(siteID := id));
        return;
      }
      var credentials;
      r, credentials := Ask();
      if r.Err? { return; }
      r, id := CreateOnServer(res.spec.name, Some(credentials));
      if r.Err? { return; }
      r := WriteSecret(credentials);
      if r.Err? { return; }
      r := Record(id, res.status.(siteID := id, secretName := SecretNameFor(res.name)));
    }

    method FindOrCreate() returns (r: Result)
      modifies this
      ensures View() == N.FindOrCreate(old(View())).s && r == N.FindOrCreate(old(View())).r
    {
      hide N.CreateSite;
      var items;
      r, items := ListSites(res.spec.name);
      if r.Err? { return; }
      var m := FindSite(items, res.spec.name);
      if m.Some? {
        r := PatchStatus(res.status.(siteID := m.value.id, phase := Creating));
        return;
      }
      r := CreateSite();
    }

    method UpdateSite() returns (r: Result)
      modifies this
      ensures View() == N.UpdateSite(old(View())).s && r == N.UpdateSite(old(View())).r
    {
      var name;
      r, name := GetSite(res.status.siteID);
      if r.Err? { return; }
      if name != res.spec.name {
        r := RenameOnServer(res.status.siteID, res.spec.name);
      }
    }

    method SetCondition(holds: bool, reason: Reason, phase: Phase)
      modifies this
      ensures View() == Patch(old(View()), old(res.status).(phase := phase, condition := Condition(holds, reason, old(res.generation)))).s
    {
      var _ := PatchStatus(res.status.(phase := phase, condition := Condition(holds, reason, res.generation)));
    }

    /** Whether the deployment has a ready replica; not if it cannot be read. */
    method Probe() returns (online: bool)
      modifies this
      ensures View() == N.Probe(old(View())).s && online == N.Probe(old(View())).online
    {
      var alive, event := Await();
      return alive && event.reply.Served? && event.ready;
    }

    /** Deploy a managed tunnel and mark the site ready. */
    method Deploy()
      modifies this
      ensures View() == N.Deploy(old(View()))
    {
      hide Patch, N.Ask, N.WriteDeployment, N.Probe;
      var online := false;
      if !res.spec.local && res.spec.managed {
        var r, _ := Ask();
        if r.Err? {
          SetCondition(false, Erroneous, res.status.phase);
          return;
        }
        r := WriteDeployment(if res.status.secretName == "" then SecretNameFor(res.name) else res.status.secretName);
        if r.Err? {
          SetCondition(false, Erroneous, res.status.phase);
          return;
        }
        online := Probe();
      }
      var _ := PatchStatus(res.status.(phase := Ready, observedGeneration := res.generation, online := online,
                                       condition := Condition(true, Reconciled, res.generation)));
    }

    method ReconcileLive()
      modifies this
      ensures View() == N.ReconcileLive(old(View()))
    {
      hide Patch, Get, N.FindOrCreate, N.UpdateSite, ApiGet, N.Deploy;
      var r;
      if res.status.siteID == 0 {
        r := FindOrCreate();
        if r.Err? {
          if BadRequest in r.kinds {
            SetCondition(false, PermanentError, Failed);
          } else {
            SetCondition(false, Erroneous, res.status.phase);
          }
          return;
        }
        r := Refetch();
        if r.Err? { return; }
      } else if res.generation != res.status.observedGeneration {
        r := UpdateSite();
        if r.Err? {
          if NotFound in r.kinds {
            var _ := PatchStatus(Forgotten(res.status));
          } else {
            SetCondition(false, Erroneous, res.status.phase);
          }
          return;
        }
      } else {
        var name;
        r, name := GetSite(res.status.siteID);
        if r.Err? {
          if NotFound in r.kinds {
            var _ := PatchStatus(Forgotten(res.status));
          }
          return;
        }
      }
      Deploy();
    }

    method Cleanup()
      modifies this
      ensures View() == N.Cleanup(old(View()))
    {
      if res.status.siteID != 0 {
        var r := DeleteOnServer(res.status.siteID);
        if r.Err? && NotFound !in r.kinds { return; }
      }
      var _ := SetFinalizer(false);
    }

    /** One activation. */
    method Reconcile(events: seq<Event>)
      modifies this
      ensures View() == N.Reconcile(old(View()), events)
    {
      hide N.ReconcileLive, N.Cleanup;
      res, script, crashed := stored, events, false;
      if stored.Gone() { return; }
      if res.deleting {
        Cleanup();
        return;
      }
      if !res.finalizer {
        var r := SetFinalizer(true);
        if r.Err? { return; }
      }
      ReconcileLive();
    }
  }
}
