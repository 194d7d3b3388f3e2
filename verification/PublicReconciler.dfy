/** The PublicResource reconciler as a process: it changes its copy of the object, the stored object
    and the server call by call. Every method is proved to do exactly what the function of the same
    name in PublicResource says, so what is proved about those functions holds of this code. */
module PublicReconciler {
  import opened Shared
  import opened Domains
  import opened Server
  import P = PublicResource
  import opened PublicResource

  /** A call adds its outcome to what the batch has seen, whatever that is. */
  lemma ServeOneAdds(b: Batch, kind: Kind, resource: nat, specs: seq<ChildSpec>, i: nat)
    requires |b.ids| == |specs| && i < |specs| && !Halted(b.s)
    ensures var one := ServeOne(Batch(b.s, b.ids, false, {}), kind, resource, specs, i);
      ServeOne(b, kind, resource, specs, i) == Batch(one.s, one.ids, b.failed || one.failed, b.kinds + one.kinds)
  {
  }

  class Reconciler {
    // What outlives the process.
    var stored: Object
    var versions: seq<Spec>
    var remote: Remote
    var site: Site
    const siteID: nat
    // The process: its copy of the object, the calls still to be answered, the calls made.
    var res: Object
    var script: seq<Event>
    var crashed: bool
    var log: seq<Entry>

    ghost function View(): State
      reads this
    {
      State(stored, versions, remote, site, siteID, res, script, crashed, log)
    }

    constructor (s: State)
      ensures View() == s
    {
      stored, versions, remote, site, siteID := s.stored, s.versions, s.remote, s.site, s.siteID;
      res, script, crashed, log := s.res, s.script, s.crashed, s.log;
    }

    // ---- The environment's side of a call ----

    method Disturb(env: Env)
      modifies this
      ensures View() == ApplyEnv(old(View()), env)
    {
      match env {
        case Calm =>
        case EditSpec(spec) =>
          if spec != stored.spec && !stored.Gone() {
            stored := stored.(spec := spec, generation := stored.generation + 1);
            versions := versions + [spec];
          }
        case DropResource(id) =>
          remote := remote.(resources := remote.resources.Remove(id));
        case RequestDelete =>
          stored := stored.(deleting := true);
      }
    }

    /** Make a call: false when the process has stopped. */
    method Await(call: Call) returns (alive: bool, reply: Reply)
      modifies this
      ensures alive <==> !Halted(old(View()))
      ensures !alive ==> View() == Halt(old(View()))
      ensures alive ==> View() == Advance(old(View()), call) && reply == old(script)[0].reply
    {
      if crashed || script == [] {
        crashed := true;
        return false, Refused(Unavailable);
      }
      var event := script[0];
      script := script[1..];
      log := log + [Entry(call, event.reply)];
      Disturb(event.env);
      return true, event.reply;
    }

    method PatchStatus(after: Status) returns (r: Result)
      modifies this
      ensures View() == Patch(old(View()), after).s && r == Patch(old(View()), after).r
    {
      var before := res.status;
      var alive, reply := Await(Call.PatchStatus);
      if !alive { return Err({}); }
      res := res.(status := after);
      if reply.Refused? { return Err({}); }
      stored := stored.(status := MergeStatus(stored.status, before, after));
      if reply.Lost? { return Err({}); }
      res := stored;
      return Ok;
    }

    method Refetch() returns (r: Result)
      modifies this
      ensures View() == Get(old(View())).s && r == Get(old(View())).r
    {
      var alive, reply := Await(GetObject);
      if !alive || !reply.Served? { return Err({}); }
      res := stored;
      return Ok;
    }

    method SetFinalizer(present: bool) returns (r: Result)
      modifies this
      ensures View() == P.SetFinalizer(old(View()), present).s && r == P.SetFinalizer(old(View()), present).r
    {
      var alive, reply := Await(if present then AddFinalizer else RemoveFinalizer);
      if !alive || stored != res || stored.Gone() || reply.Refused? { return Err({}); }
      stored := stored.(finalizer := present);
      if reply.Lost? { return Err({}); }
      res := stored;
      return Ok;
    }

    method ListResources(name: string) returns (r: Result, items: seq<ResourceItem>)
      modifies this
      ensures var l := ApiList(old(View()), name); View() == l.s && r == l.r && items == l.items
    {
      var alive, reply := Await(Call.ListResources);
      if !alive { return Err({}), []; }
      if !reply.Served? { return Err({reply.fault}), []; }
      return Ok, Listing(remote.resources.live, name, remote.resources.next);
    }

    method ListDomains() returns (r: Result)
      modifies this
      ensures View() == ApiDomains(old(View())).s && r == ApiDomains(old(View())).r
    {
      var alive, reply := Await(Call.ListDomains);
      if !alive { return Err({}); }
      if !reply.Served? { return Err({reply.fault}); }
      return Ok;
    }

    method CreateOnServer(q: CreateRequest) returns (r: Result, id: nat)
      modifies this
      ensures var c := ApiCreate(old(View()), q); View() == c.s && r == c.r && id == c.id
    {
      var alive, reply := Await(Call.CreateResource);
      if !alive { return Err({}), 0; }
      if reply.Refused? { return Err({reply.fault}), 0; }
      id := remote.resources.next + reply.skip;
      remote := remote.(resources := remote.resources.Add(reply.skip, remote.NewRow(q)));
      if reply.Lost? { return Err({reply.fault}), 0; }
      return Ok, id;
    }

    method UpdateOnServer(id: nat, q: UpdateRequest) returns (r: Result)
      modifies this
      ensures View() == ApiUpdate(old(View()), id, q).s && r == ApiUpdate(old(View()), id, q).r
    {
      var alive, reply := Await(Call.UpdateResource(id));
      if !alive { return Err({}); }
      if reply.Refused? { return Err({reply.fault}); }
      if id !in remote.resources.live { return Err({NotFound}); }
      remote := remote.(resources := remote.resources.Put(id, Apply(remote.resources.live[id], q)));
      if reply.Lost? { return Err({reply.fault}); }
      return Ok;
    }

    method DeleteOnServer(id: nat) returns (r: Result)
      modifies this
      ensures View() == ApiDelete(old(View()), id).s && r == ApiDelete(old(View()), id).r
    {
      var alive, reply := Await(Call.DeleteResource(id));
      if !alive { return Err({}); }
      if reply.Refused? { return Err({reply.fault}); }
      if id !in remote.resources.live { return Err({NotFound}); }
      remote := remote.(resources := remote.resources.Remove(id));
      if reply.Lost? { return Err({reply.fault}); }
      return Ok;
    }

    // ---- Children ----

    /** One of the parallel calls: fill slot i, or report why not. */
    method CreateChild(kind: Kind, resource: nat, specs: seq<ChildSpec>, i: nat, ids: array<nat>)
      returns (failed: bool, kinds: set<ErrKind>)
      requires ids.Length == |specs| && i < |specs| && !crashed && script != []
      modifies this, ids
      ensures Batch(View(), ids[..], failed, kinds) == ServeOne(Batch(old(View()), old(ids[..]), false, {}), kind, resource, specs, i)
    {
      var handed := if script[0].reply.Refused? then 0 else remote.Table(kind).next + script[0].reply.skip;
      var alive, reply := Await(Call.CreateChild(kind, resource, handed));
      if reply.Refused? { return true, {reply.fault}; }
      if resource !in remote.resources.live { return true, {NotFound}; }
      var table := remote.Table(kind);
      var id := table.next + reply.skip;
      remote := remote.WithTable(kind, table.Add(reply.skip,
        Child(resource, if kind == Targets then siteID else 0, Content(specs[i], i))));
      if reply.Lost? { return true, {reply.fault}; }
      ids[i] := id;
      return false, {};
    }

    /** Every item gets its own slot; the server answers the calls in any order. */
    method CreateChildren(kind: Kind, resource: nat, specs: seq<ChildSpec>)
      returns (created: seq<nat>, failed: bool, kinds: set<ErrKind>)
      modifies this
      ensures var b := P.CreateChildren(old(View()), kind, resource, specs);
        View() == b.s && created == b.ids && failed == b.failed && kinds == b.kinds
    {
      hide ServeOne, NonZero;
      var ids := new nat[|specs|](_ => 0);
      var pending: seq<nat> := Indices(|specs|);
      failed, kinds := false, {};
      ghost var first := Batch(View(), Zeros(|specs|), false, {});
      assert ids[..] == Zeros(|specs|);
      while pending != [] && !crashed && script != []
        invariant forall j :: 0 <= j < |pending| ==> pending[j] < |specs|
        invariant ids.Length == |specs| && fresh(ids)
        invariant ServeAll(Batch(View(), ids[..], failed, kinds), kind, resource, specs, pending)
               == ServeAll(first, kind, resource, specs, Indices(|specs|))
        decreases |pending|
      {
        var p := Chosen(pending, script[0].pick);
        ServeOneAdds(Batch(View(), ids[..], failed, kinds), kind, resource, specs, pending[p]);
        var f, k := CreateChild(kind, resource, specs, pending[p], ids);
        failed, kinds := failed || f, kinds + k;
        pending := pending[..p] + pending[p + 1..];
      }
      if pending != [] {
        crashed, failed := true, true;
      }
      if failed {
        created := Compact(ids);
      } else {
        created := ids[..];
      }
    }

    /** The filled slots, in order. */
    method Compact(ids: array<nat>) returns (created: seq<nat>)
      ensures created == NonZero(ids[..])
    {
      created := [];
      var all := ids[..];
      for k := 0 to |all|
        invariant created + NonZero(all[k..]) == NonZero(all)
      {
        var rest := NonZero(all[k + 1..]);
        assert all[k..][1..] == all[k + 1..];
        if all[k] != 0 {
          assert (created + [all[k]]) + rest == created + ([all[k]] + rest);
          created := created + [all[k]];
        } else {
          assert [] + rest == rest;
        }
      }
      assert created + [] == created;
    }

    method DeleteChildren(kind: Kind, resource: nat, ids: seq<nat>)
      modifies this
      ensures View() == P.DeleteChildren(old(View()), kind, resource, ids)
    {
      for k := 0 to |ids|
        invariant P.DeleteChildren(View(), kind, resource, ids[k..]) == P.DeleteChildren(old(View()), kind, resource, ids)
      {
        assert ids[k..][1..] == ids[k + 1..];
        var alive, reply := Await(Call.DeleteChild(kind, ids[k]));
        if alive && !reply.Refused? {
          var table := remote.Table(kind);
          if ids[k] in table.live && (kind == Targets || table.live[ids[k]].resource == resource) {
            remote := remote.WithTable(kind, table.Remove(ids[k]));
          }
        }
      }
    }

    // ---- ensureExists, createResource, updateResource ----

    method ChooseDomain() returns (r: Result, id: string, subdomain: string)
      modifies this
      ensures var d := P.ChooseDomain(old(View())); View() == d.s && r == d.r && id == d.id && subdomain == d.subdomain
    {
      if res.spec.protocol != HTTP || res.spec.fullDomain == "" { return Ok, "", ""; }
      var fullDomain := res.spec.fullDomain;
      r := ListDomains();
      if r.Err? { return r, "", ""; }
      var ok;
      id, subdomain, ok := ResolveDomain(remote.domains, fullDomain);
      if !ok { return Err({}), "", ""; }
      return Ok, id, subdomain;
    }

    method CreateResource() returns (r: Result)
      modifies this
      ensures View() == Create(old(View())).s && r == Create(old(View())).r
    {
      r := PatchStatus(res.status.(phase := Creating));
      if r.Err? { return; }
      var domainID, subdomain;
      r, domainID, subdomain := ChooseDomain();
      if r.Err? { return; }
      var id;
      r, id := CreateOnServer(NewRequest(res.spec, domainID, subdomain));
      if r.Err? { return; }
      r := PatchStatus(res.status.(resourceID := id, phase := Creating));
      if r.Err? {
        var _ := DeleteOnServer(id); // roll back
        return;
      }
      r := Refetch();
      if r.Err? { return; }
      r := UpdateOnServer(id, PostCreateRequest(res.spec));
      if r.Err? { return; }
      r := PopulateChildren(id);
    }

    method PopulateChildren(id: nat) returns (r: Result)
      modifies this
      ensures View() == P.PopulateChildren(old(View()), id).s && r == P.PopulateChildren(old(View()), id).r
    {
      var targetIDs, failed, kinds := CreateChildren(Targets, id, res.spec.targets);
      if failed {
        if |targetIDs| > 0 {
          var _ := PatchStatus(res.status.(targets := res.status.targets.(ids := targetIDs)));
        }
        return Err(kinds);
      }
      var ruleIDs;
      ruleIDs, failed, kinds := CreateChildren(Rules, id, res.spec.rules);
      if failed {
        var _ := PatchStatus(res.status.(targets := res.status.targets.(ids := targetIDs),
                                         rules := res.status.rules.(ids := ruleIDs)));
        return Err(kinds);
      }
      r := PatchStatus(res.status.(targets := Tracked(targetIDs, HashOf(res.spec.targets)),
                                   rules := Tracked(ruleIDs, HashOf(res.spec.rules))));
    }

    method FindResource(items: seq<ResourceItem>, spec: Spec) returns (m: Option<ResourceItem>)
      ensures m == P.FindResource(items, spec)
    {
      var i := 0;
      while i < |items|
        invariant i <= |items|
        invariant P.FindResource(items, spec) == P.FindResource(items[i..], spec)
      {
        var item := items[i];
        if item.name == spec.name {
          if spec.protocol == HTTP && spec.fullDomain != "" {
            if item.fullDomain == spec.fullDomain {
              return Some(item);
            }
          } else {
            return Some(item);
          }
        }
        i := i + 1;
      }
      return None;
    }

    method Contains(items: seq<ResourceItem>, id: nat) returns (found: bool)
      ensures found <==> Lists(items, id)
    {
      for i := 0 to |items|
        invariant forall j :: 0 <= j < i ==> items[j].id != id
      {
        if items[i].id == id { return true; }
      }
      return false;
    }

    method EnsureExists() returns (r: Result, adopted: bool)
      modifies this
      ensures var e := P.EnsureExists(old(View())); View() == e.s && r == e.r && adopted == e.adopted
    {
      var items;
      r, items := ListResources(res.spec.name);
      if r.Err? { return r, false; }
      var m := FindResource(items, res.spec);
      if res.status.resourceID != 0 {
        var found := Contains(items, res.status.resourceID);
        if found { return Ok, false; }
      }
      if m.Some? {
        r := PatchStatus(Adopted(res.status, m.value.id));
        return r, true;
      }
      r := CreateResource();
      return r, false;
    }

    /** Create the new children before deleting the old, and record them in between. */
    method Sync(kind: Kind) returns (r: Result)
      modifies this
      ensures View() == P.Sync(old(View()), kind).s && r == P.Sync(old(View()), kind).r
    {
      var specs := res.spec.Children(kind);
      var id := res.status.resourceID;
      if HashOf(specs) == res.status.Kept(kind).hash { return Ok; }
      var oldIDs := res.status.Kept(kind).ids;
      var ids, failed, kinds := CreateChildren(kind, id, specs);
      if failed {
        if |ids| > 0 {
          var kept := res.status.Kept(kind);
          var _ := PatchStatus(res.status.WithKept(kind, kept.(ids := kept.ids + ids)));
        }
        return Err(kinds);
      }
      r := PatchStatus(res.status.WithKept(kind, Tracked(ids, HashOf(specs))));
      if r.Err? { return; }
      DeleteChildren(kind, id, oldIDs);
      return Ok;
    }

    method UpdateResource() returns (r: Result)
      modifies this
      ensures View() == Update(old(View())).s && r == Update(old(View())).r
    {
      r := UpdateOnServer(res.status.resourceID, SettingsRequest(res.spec));
      if r.Err? { return; }
      r := Sync(Targets);
      if r.Err? { return; }
      r := Sync(Rules);
    }

    // ---- reconcile, cleanup ----

    method SetCondition(holds: bool, reason: Reason, phase: Phase)
      modifies this
      ensures View() == Patch(old(View()), old(res.status).(phase := phase, condition := Condition(holds, reason, old(res.generation)))).s
    {
      var _ := PatchStatus(res.status.(phase := phase, condition := Condition(holds, reason, res.generation)));
    }

    method ReconcileReady()
      modifies this
      ensures View() == P.ReconcileReady(old(View()))
    {
      var hadID := res.status.resourceID != 0;
      var r, adopted := EnsureExists();
      if r.Err? {
        if Conflict in r.kinds {
          SetCondition(false, Pending, res.status.phase);
        } else if BadRequest in r.kinds {
          SetCondition(false, PermanentError, Failed);
        } else {
          SetCondition(false, Erroneous, res.status.phase);
        }
        return;
      }
      if hadID && !adopted {
        r := Refetch();
        if r.Err? { return; }
      }
      UpdateAndFinish(hadID, adopted);
    }

    method UpdateAndFinish(hadID: bool, adopted: bool)
      modifies this
      ensures View() == P.UpdateAndFinish(old(View()), hadID, adopted)
    {
      if adopted || (hadID && res.status.resourceID != 0 && res.generation != res.status.observedGeneration) {
        var r := UpdateResource();
        if r.Err? {
          if NotFound in r.kinds {
            var _ := PatchStatus(Forgotten(res.status));
          } else {
            SetCondition(false, Erroneous, res.status.phase);
          }
          return;
        }
      }
      var _ := PatchStatus(res.status.(phase := Ready, observedGeneration := res.generation,
                                       condition := Condition(true, Reconciled, res.generation)));
    }

    method Cleanup()
      modifies this
      ensures View() == P.Cleanup(old(View()))
    {
      if res.status.resourceID != 0 {
        var r := DeleteOnServer(res.status.resourceID);
        if r.Err? && NotFound !in r.kinds { return; }
      }
      var _ := SetFinalizer(false);
    }

    /** One activation. */
    method Reconcile(events: seq<Event>)
      modifies this
      ensures View() == P.Reconcile(old(View()), events)
    {
      res, script, crashed := stored, events, false;
      if stored.Gone() { return; }
      if res.deleting {
        Cleanup();
        return;
      }
      if !res.finalizer {
        var r := SetFinalizer(true);
        if r.Err? { return; }
      }
      if site != SiteReady {
        SetCondition(false, Pending, res.status.phase);
        return;
      }
      ReconcileReady();
    }
  }
}
