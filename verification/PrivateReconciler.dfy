/** The PrivateResource reconciler as a process that changes its copy of the object, the stored
    object and the server call by call. Every method does exactly what the function of the same name
    in PrivateResource says. */
module PrivateReconciler {
  import opened Shared
  import opened Domains
  import opened Server
  import P = PrivateResource
  import opened PrivateResource

  class Reconciler {
    // What outlives the process.
    var stored: Object
    var rows: Store<Row>
    const domains: seq<Domain>
    var siteReady: bool
    const siteID: nat
    // The process: its copy of the object and the calls still to be answered.
    var res: Object
    var script: seq<Event>
    var crashed: bool

    ghost function View(): State
      reads this
    {
      State(stored, rows, domains, siteReady, siteID, res, script, crashed)
    }

    constructor (s: State)
      ensures View() == s
    {
      stored, rows, domains, siteReady, siteID := s.stored, s.rows, s.domains, s.siteReady, s.siteID;
      res, script, crashed := s.res, s.script, s.crashed;
    }

    method Disturb(env: Env)
      modifies this
      ensures View() == ApplyEnv(old(View()), env)
    {
      match env {
        case Calm =>
        case EditSpec(spec) =>
          if spec != stored.spec && !stored.Gone() {
            stored := stored.(spec := spec, generation := stored.generation + 1);
          }
        case RequestDelete => stored := stored.(deleting := true);
        case DropRow(id) => rows := rows.Remove(id);
        case AddRow(skip, row) => rows := rows.Add(skip, row.(ours := false));
      }
    }

    /** Make a call: false when the process has stopped. */
    method Await() returns (alive: bool, reply: Reply)
      modifies this
      ensures alive <==> !Halted(old(View()))
      ensures !alive ==> View() == Halt(old(View()))
      ensures alive ==> View() == Advance(old(View())) && reply == old(script)[0].reply
    {
      if crashed || script == [] {
        crashed := true;
        return false, Refused(Unavailable);
      }
      var event := script[0];
      script := script[1..];
      Disturb(event.env);
      return true, event.reply;
    }

    method PatchStatus(after: Status) returns (r: Result)
      modifies this
      ensures View() == Patch(old(View()), after).s && r == Patch(old(View()), after).r
    {
      var before := res.status;
      var alive, reply := Await();
      if !alive { return Err({}); }
      res := res.(status := after);
      if reply.Refused? { return Err({}); }
      stored := stored.(status := MergeStatus(stored.status, before, after));
      if reply.Lost? { return Err({}); }
      res := stored;
      return Ok;
    }

    method Refetch() returns (r: Result)
      modifies this
      ensures View() == Get(old(View())).s && r == Get(old(View())).r
    {
      var alive, reply := Await();
      if !alive || !reply.Served? { return Err({}); }
      res := stored;
      return Ok;
    }

    method SetFinalizer(present: bool) returns (r: Result)
      modifies this
      ensures View() == P.SetFinalizer(old(View()), present).s && r == P.SetFinalizer(old(View()), present).r
    {
      var alive, reply := Await();
      if !alive || stored != res || stored.Gone() || reply.Refused? { return Err({}); }
      stored := stored.(finalizer := present);
      if reply.Lost? { return Err({}); }
      res := stored;
      return Ok;
    }

    method Ask() returns (r: Result)
      modifies this
      ensures View() == P.Ask(old(View())).s && r == P.Ask(old(View())).r
    {
      var alive, reply := Await();
      if !alive { return Err({}); }
      if !reply.Served? { return Err({reply.fault}); }
      return Ok;
    }

    method ListSiteResources(name: string) returns (r: Result, items: seq<Item>)
      modifies this
      ensures var l := ApiList(old(View()), name); View() == l.s && r == l.r && items == l.items
    {
      r := Ask();
      if r.Err? { return r, []; }
      return Ok, Named(rows.live, name, rows.next);
    }

    method CreateOnServer(spec: Spec, address: Address) returns (r: Result, id: nat)
      modifies this
      ensures var c := ApiCreate(old(View()), spec, address); View() == c.s && r == c.r && id == c.id
    {
      var alive, reply := Await();
      if !alive { return Err({}), 0; }
      if reply.Refused? { return Err({reply.fault}), 0; }
      id := rows.next + reply.skip;
      var http := address.Address?;
      var row := Row(spec.name, spec.mode, spec.destination, siteID,
                     if http then Compose(domains, address.domainID, address.subdomain) else "",
                     if http then "" else spec.tcpPorts, if http then "" else spec.udpPorts, spec.disableIcmp, spec.alias, spec.access,
                     if http then spec.scheme else "", if http then spec.port else 0, if http then spec.ssl else None, true);
      rows := rows.Add(reply.skip, row);
      if reply.Lost? { return Err({reply.fault}), 0; }
      return Ok, id;
    }

    method UpdateOnServer(id: nat, spec: Spec, address: Address) returns (r: Result)
      modifies this
      ensures View() == ApiUpdate(old(View()), id, spec, address).s && r == ApiUpdate(old(View()), id, spec, address).r
    {
      var alive, reply := Await();
      if !alive { return Err({}); }
      if reply.Refused? { return Err({reply.fault}); }
      if id !in rows.live { return Err({NotFound}); }
      var row := rows.live[id];
      row := row.(name := OrText(spec.name, row.name), mode := OrText(spec.mode, row.mode),
                  destination := OrText(spec.destination, row.destination), siteID := if siteID != 0 then siteID else row.siteID,
                  disableIcmp := spec.disableIcmp || row.disableIcmp, alias := OrText(spec.alias, row.alias), access := spec.access);
      if address.Address? {
        row := row.(fullDomain := Compose(domains, address.domainID, address.subdomain), scheme := OrText(spec.scheme, row.scheme),
                    port := if spec.port != 0 then spec.port else row.port, ssl := if spec.ssl.Some? then spec.ssl else row.ssl);
      } else {
        row := row.(tcpPorts := OrText(spec.tcpPorts, row.tcpPorts), udpPorts := OrText(spec.udpPorts, row.udpPorts));
      }
      rows := rows.Put(id, row);
      if reply.Lost? { return Err({reply.fault}); }
      return Ok;
    }

    method DeleteOnServer(id: nat) returns (r: Result)
      modifies this
      ensures View() == ApiDelete(old(View()), id).s && r == ApiDelete(old(View()), id).r
    {
      var alive, reply := Await();
      if !alive { return Err({}); }
      if reply.Refused? { return Err({reply.fault}); }
      if id !in rows.live { return Err({NotFound}); }
      rows := rows.Remove(id);
      if reply.Lost? { return Err({reply.fault}); }
      return Ok;
    }

    /** The first item with the right name and mode, and the right domain or destination and site. */
    method FindSiteResource(items: seq<Item>, spec: Spec) returns (m: Option<Item>)
      ensures m == P.FindSiteResource(items, spec, siteID)
    {
      for i := 0 to |items|
        invariant P.FindSiteResource(items, spec, siteID) == P.FindSiteResource(items[i..], spec, siteID)
      {
        var item := items[i];
        if item.name != spec.name || item.mode != spec.mode {
          continue;
        }
        if spec.mode == HTTP_MODE {
          if spec.fullDomain != "" && item.fullDomain == spec.fullDomain {
            return Some(item);
          }
          continue;
        }
        if item.destination == spec.destination && item.siteID == siteID {
          return Some(item);
        }
      }
      return None;
    }

    method Contains(items: seq<Item>, id: nat) returns (found: bool)
      ensures found <==> Lists(items, id)
    {
      for i := 0 to |items|
        invariant forall j :: 0 <= j < i ==> items[j].id != id
      {
        if items[i].id == id { return true; }
      }
      return false;
    }

    method FindAddress() returns (r: Result, address: Address)
      modifies this
      ensures var a := P.FindAddress(old(View())); View() == a.s && r == a.r && address == a.address
    {
      if res.spec.mode != HTTP_MODE { return Ok, NoAddress; }
      var fullDomain := res.spec.fullDomain;
      if fullDomain == "" { return Err({}), NoAddress; }
      r := Ask();
      if r.Err? { return r, NoAddress; }
      var id, subdomain, ok := ResolveDomain(domains, fullDomain);
      if !ok { return Err({}), NoAddress; }
      return Ok, Address(id, subdomain);
    }

    method CreateSiteResource() returns (r: Result)
      modifies this
      ensures View() == Create(old(View())).s && r == Create(old(View())).r
    {
      hide Patch, P.FindAddress, ApiCreate, ApiDelete;
      r := PatchStatus(res.status.(phase := Creating));
      if r.Err? { return; }
      var address;
      r, address := FindAddress();
      if r.Err? { return; }
      var id;
      r, id := CreateOnServer(res.spec, address);
      if r.Err? { return; }
      r := PatchStatus(res.status.(id := id, phase := Creating));
      if r.Err? {
        var _ := DeleteOnServer(id); // roll back
      }
    }

    method EnsureExists() returns (r: Result, adopted: bool)
      modifies this
      ensures var e := P.EnsureExists(old(View())); View() == e.s && r == e.r && adopted == e.adopted
    {
      hide Patch, Create;
      var items;
      r, items := ListSiteResources(res.spec.name);
      if r.Err? { return r, false; }
      var m := FindSiteResource(items, res.spec);
      if res.status.id != 0 {
        var found := Contains(items, res.status.id);
        if found { return Ok, false; }
      }
      if m.Some? {
        r := PatchStatus(res.status.(id := m.value.id, phase := Creating));
        return r, true;
      }
      r := CreateSiteResource();
      return r, false;
    }

    method UpdateSiteResource() returns (r: Result)
      modifies this
      ensures View() == Update(old(View())).s && r == Update(old(View())).r
    {
      hide P.FindAddress, ApiUpdate;
      var address;
      r, address := FindAddress();
      if r.Err? { return; }
      r := UpdateOnServer(res.status.id, res.spec, address);
    }

    method SetCondition(holds: bool, reason: Reason, phase: Phase)
      modifies this
      ensures View() == Patch(old(View()), old(res.status).(phase := phase, condition := Condition(holds, reason, old(res.generation)))).s
    {
      var _ := PatchStatus(res.status.(phase := phase, condition := Condition(holds, reason, res.generation)));
    }

    method UpdateAndFinish(hadID: bool, adopted: bool)
      modifies this
      ensures View() == P.UpdateAndFinish(old(View()), hadID, adopted)
    {
      hide Patch, Update;
      if adopted || (hadID && res.status.id != 0 && res.generation != res.status.observedGeneration) {
        var r := UpdateSiteResource();
        if r.Err? {
          if NotFound in r.kinds {
            var _ := PatchStatus(res.status.(id := 0));
          } else {
            SetCondition(false, Erroneous, res.status.phase);
          }
          return;
        }
      }
      var _ := PatchStatus(res.status.(phase := Ready, observedGeneration := res.generation,
                                       condition := Condition(true, Reconciled, res.generation)));
    }

    method ReconcileReady()
      modifies this
      ensures View() == P.ReconcileReady(old(View()))
    {
      hide Patch, P.EnsureExists, Get, P.UpdateAndFinish;
      var hadID := res.status.id != 0;
      var r, adopted := EnsureExists();
      if r.Err? {
        if BadRequest in r.kinds {
          SetCondition(false, PermanentError, Failed);
        } else {
          SetCondition(false, Erroneous, res.status.phase);
        }
        return;
      }
      if hadID && !adopted {
        r := Refetch();
        if r.Err? { return; }
      }
      UpdateAndFinish(hadID, adopted);
    }

    method Cleanup()
      modifies this
      ensures View() == P.Cleanup(old(View()))
    {
      if res.status.id != 0 {
        var r := DeleteOnServer(res.status.id);
        if r.Err? && NotFound !in r.kinds { return; }
      }
      var _ := SetFinalizer(false);
    }

    /** One activation. */
    method Reconcile(events: seq<Event>)
      modifies this
      ensures View() == P.Reconcile(old(View()), events)
    {
      hide P.ReconcileReady, P.Cleanup;
      res, script, crashed := stored, events, false;
      if stored.Gone() { return; }
      if res.deleting {
        Cleanup();
        return;
      }
      if !res.finalizer {
        var r := SetFinalizer(true);
        if r.Err? { return; }
      }
      if !siteReady {
        SetCondition(false, Pending, res.status.phase);
        return;
      }
      ReconcileReady();
    }
  }
}
