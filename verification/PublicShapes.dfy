/** What the reconciler creates: of which kind, with which protocol and port, whatever fails and wherever
    an activation is cut short; and the whole of a new resource after an undisturbed activation. */
module PublicShapes {
  import opened Shared
  import opened Domains
  import opened Server
  import opened PublicResource
  import opened PublicSafety
  import opened PublicChildren
  import opened PublicSteps
  import opened PublicProtocol
  import opened PublicRuns
  import opened PublicConvergence
  import opened PublicMeaning
  import opened PublicBoundaries
  import PublicRenaming

  // ---- The kind of a resource ----

  /** A row is one of the reconciler's making, of the kind and on the port that a version asks for. */
  predicate Shaped(row: ResourceRow, v: Spec) {
    && row.ours && (row.http <==> v.protocol == HTTP)
    && row.protocol == (if v.protocol == UDP then "udp" else "tcp") && row.proxyPort == v.proxyPort
  }

  /** No request changes the kind of a row. */
  predicate SameShape(row: ResourceRow, before: ResourceRow) {
    row.ours == before.ours && row.http == before.http && row.protocol == before.protocol && row.proxyPort == before.proxyPort
  }

  /** The row is of the kind of some version that was stored since the first of these. */
  ghost predicate Made(row: ResourceRow, versions: seq<Spec>, first: nat) {
    exists k :: first <= k < |versions| && Shaped(row, versions[k])
  }

  /** Every resource is one of those before, of the same kind, or was made for some version since. */
  ghost predicate AllMade(s: State, before: map<nat, ResourceRow>, first: nat) {
    forall id :: id in s.remote.resources.live ==>
      var row := s.remote.resources.live[id];
      if id in before then SameShape(row, before[id]) else Made(row, s.versions, first)
  }

  // ---- What an activation keeps ----

  /** The versions are those of the object, and the process's copy is one of the later ones. */
  predicate Dated(s: State, first: nat) {
    && first < s.res.generation <= |s.versions| && s.res.spec == s.versions[s.res.generation - 1]
    && s.stored.generation == |s.versions| && s.stored.spec == s.versions[|s.versions| - 1]
  }

  ghost predicate Held(s: State, before: map<nat, ResourceRow>, first: nat) {
    Dated(s, first) && AllMade(s, before, first) && forall id :: id in before ==> id < s.remote.resources.next
  }

  /** Rows go, or stay as they are; versions come; the copy stays, or becomes what is stored. */
  lemma Onwards(s: State, t: State, before: map<nat, ResourceRow>, first: nat)
    requires Held(s, before, first) && s.versions <= t.versions && s.remote.resources.next <= t.remote.resources.next
    requires t.stored.generation == |t.versions| && t.stored.spec == t.versions[|t.versions| - 1]
    requires (t.res.spec == s.res.spec && t.res.generation == s.res.generation)
      || (t.res.spec == t.stored.spec && t.res.generation == t.stored.generation)
    requires forall id :: id in t.remote.resources.live ==>
      id in s.remote.resources.live && SameShape(t.remote.resources.live[id], s.remote.resources.live[id])
    ensures Held(t, before, first)
  {
    forall id | id in t.remote.resources.live && id !in before ensures Made(t.remote.resources.live[id], t.versions, first) {
      var k :| first <= k < |s.versions| && Shaped(s.remote.resources.live[id], s.versions[k]);
      assert Shaped(t.remote.resources.live[id], t.versions[k]);
    }
  }

  lemma AdvanceHeld(s: State, call: Call, before: map<nat, ResourceRow>, first: nat)
    requires Held(s, before, first) && !Halted(s)
    ensures var t := Advance(s, call); Held(t, before, first) && t.res == s.res
  {
    Onwards(s, Advance(s, call), before, first);
    hide AllMade;
  }

  /** Then only status, copy and children change. */
  lemma CallHeld(s: State, t: State, before: map<nat, ResourceRow>, first: nat)
    requires Held(s, before, first) && t.versions == s.versions && t.remote.resources == s.remote.resources
    requires t.stored.spec == s.stored.spec && t.stored.generation == s.stored.generation
    requires (t.res.spec == s.res.spec && t.res.generation == s.res.generation) || (t.res.spec == t.stored.spec && t.res.generation == t.stored.generation)
    ensures Held(t, before, first)
  {
    Onwards(s, t, before, first);
    hide AllMade;
  }

  lemma PatchHeld(s: State, after: Status, before: map<nat, ResourceRow>, first: nat)
    requires Held(s, before, first)
    ensures Held(Patch(s, after).s, before, first)
  {
    hide Advance, MergeStatus, Held;
    if Halted(s) {
      CallHeld(s, Halt(s), before, first);
    } else {
      AdvanceHeld(s, PatchStatus, before, first);
      CallHeld(Advance(s, PatchStatus), Patch(s, after).s, before, first);
    }
  }

  lemma PatchesHeld(s: State, before: map<nat, ResourceRow>, first: nat)
    requires Held(s, before, first)
    ensures forall after :: Held(Patch(s, after).s, before, first)
  {
    forall after ensures Held(Patch(s, after).s, before, first) { PatchHeld(s, after, before, first); }
    hide Patch, Held;
  }

  lemma ReadHeld(s: State, before: map<nat, ResourceRow>, first: nat)
    requires Held(s, before, first)
    ensures Held(Get(s).s, before, first) && (forall name :: Held(ApiList(s, name).s, before, first))
    ensures Held(ChooseDomain(s).s, before, first) && ChooseDomain(s).s.res == s.res
  {
    hide Advance, Held, Listing, Resolve;
    CallHeld(s, Halt(s), before, first);
    if !Halted(s) {
      forall call ensures Held(Advance(s, call), before, first) && Advance(s, call).res == s.res { AdvanceHeld(s, call, before, first); }
      CallHeld(Advance(s, GetObject), Get(s).s, before, first);
    }
  }

  lemma FinalizerHeld(s: State, present: bool, before: map<nat, ResourceRow>, first: nat)
    requires Held(s, before, first)
    ensures Held(SetFinalizer(s, present).s, before, first)
  {
    hide Advance, Held;
    CallHeld(s, Halt(s), before, first);
    if !Halted(s) {
      forall call ensures Held(Advance(s, call), before, first) { AdvanceHeld(s, call, before, first); }
      CallHeld(Advance(s, if present then AddFinalizer else RemoveFinalizer), SetFinalizer(s, present).s, before, first);
    }
  }

  /** A new row is of the kind of the copy. */
  lemma CreateHeld(s: State, id: string, subdomain: string, before: map<nat, ResourceRow>, first: nat)
    requires Held(s, before, first)
    ensures Held(ApiCreate(s, NewRequest(s.res.spec, id, subdomain)).s, before, first)
  {
    hide Advance, Compose;
    if Halted(s) {
      CallHeld(s, Halt(s), before, first);
    } else {
      AdvanceHeld(s, CreateResource, before, first);
      var t := Advance(s, CreateResource);
      var row := t.remote.NewRow(NewRequest(s.res.spec, id, subdomain));
      assert Shaped(row, t.versions[s.res.generation - 1]);
      assert Made(row, t.versions, first);
    }
  }

  lemma WriteHeld(s: State, id: nat, q: UpdateRequest, before: map<nat, ResourceRow>, first: nat)
    requires Held(s, before, first)
    ensures Held(ApiUpdate(s, id, q).s, before, first) && Held(ApiDelete(s, id).s, before, first)
  {
    hide Advance, Held, Apply;
    CallHeld(s, Halt(s), before, first);
    if !Halted(s) {
      AdvanceHeld(s, UpdateResource(id), before, first);
      AdvanceHeld(s, DeleteResource(id), before, first);
      RowsHeld(Advance(s, UpdateResource(id)), id, q, before, first);
      RowsHeld(Advance(s, DeleteResource(id)), id, q, before, first);
    }
  }

  /** A row goes, or its settings change. */
  lemma RowsHeld(s: State, id: nat, q: UpdateRequest, before: map<nat, ResourceRow>, first: nat)
    requires Held(s, before, first)
    ensures Held(s.(remote := s.remote.(resources := s.remote.resources.Remove(id))), before, first)
    ensures id in s.remote.resources.live ==>
      Held(s.(remote := s.remote.(resources := s.remote.resources.Put(id, Apply(s.remote.resources.live[id], q)))), before, first)
  {
    hide AllMade, Apply;
    Onwards(s, s.(remote := s.remote.(resources := s.remote.resources.Remove(id))), before, first);
    if id in s.remote.resources.live {
      ApplyKeepsShape(s.remote.resources.live[id], q);
      Onwards(s, s.(remote := s.remote.(resources := s.remote.resources.Put(id, Apply(s.remote.resources.live[id], q)))), before, first);
    }
  }

  lemma ApplyKeepsShape(row: ResourceRow, q: UpdateRequest)
    ensures SameShape(Apply(row, q), row)
  {
  }

  // ---- Children ----

  lemma ServeOneHeld(b: Batch, kind: Kind, resource: nat, specs: seq<ChildSpec>, i: nat, before: map<nat, ResourceRow>, first: nat)
    requires Held(b.s, before, first) && |b.ids| == |specs| && i < |specs| && !Halted(b.s)
    ensures Held(ServeOne(b, kind, resource, specs, i).s, before, first)
  {
    hide Advance, Held, Row, Handed;
    var call := CreateChild(kind, resource, Handed(b.s, kind));
    AdvanceHeld(b.s, call, before, first);
    CallHeld(Advance(b.s, call), ServeOne(b, kind, resource, specs, i).s, before, first);
  }

  lemma {:induction false} ServeAllHeld(b: Batch, kind: Kind, resource: nat, specs: seq<ChildSpec>, pending: seq<nat>, before: map<nat, ResourceRow>, first: nat)
    requires Held(b.s, before, first) && |b.ids| == |specs| && forall j :: 0 <= j < |pending| ==> pending[j] < |specs|
    ensures Held(ServeAll(b, kind, resource, specs, pending).s, before, first)
    decreases |pending|
  {
    hide Held, ServeOne;
    if pending != [] {
      if Halted(b.s) {
        CallHeld(b.s, Halt(b.s), before, first);
      } else {
        var p := Chosen(pending, b.s.script[0].pick);
        ServeOneHeld(b, kind, resource, specs, pending[p], before, first);
        ServeAllHeld(ServeOne(b, kind, resource, specs, pending[p]), kind, resource, specs, pending[..p] + pending[p + 1..], before, first);
      }
    }
  }

  lemma ChildrenHeld(s: State, kind: Kind, resource: nat, specs: seq<ChildSpec>, before: map<nat, ResourceRow>, first: nat)
    requires Held(s, before, first)
    ensures Held(CreateChildren(s, kind, resource, specs).s, before, first)
  {
    ServeAllHeld(Batch(s, Zeros(|specs|), false, {}), kind, resource, specs, Indices(|specs|), before, first);
    hide ServeAll;
  }

  lemma {:induction false} DeletionHeld(s: State, kind: Kind, resource: nat, ids: seq<nat>, before: map<nat, ResourceRow>, first: nat)
    requires Held(s, before, first)
    ensures Held(DeleteChildren(s, kind, resource, ids), before, first)
    decreases |ids|
  {
    hide Held, DeleteOne;
    if ids != [] {
      DeleteOneHeld(s, kind, resource, ids[0], before, first);
      DeletionHeld(DeleteOne(s, kind, resource, ids[0]), kind, resource, ids[1..], before, first);
    }
  }

  lemma DeleteOneHeld(s: State, kind: Kind, resource: nat, id: nat, before: map<nat, ResourceRow>, first: nat)
    requires Held(s, before, first)
    ensures Held(DeleteOne(s, kind, resource, id), before, first)
  {
    hide Advance, Held;
    if Halted(s) {
      CallHeld(s, Halt(s), before, first);
    } else {
      AdvanceHeld(s, DeleteChild(kind, id), before, first);
      CallHeld(Advance(s, DeleteChild(kind, id)), DeleteOne(s, kind, resource, id), before, first);
    }
  }

  // ---- Whole activations ----

  lemma CreationHeld(s: State, before: map<nat, ResourceRow>, first: nat)
    requires Held(s, before, first)
    ensures Held(CreateAndPersist(s).s, before, first)
  {
    hide Held, Patch, ChooseDomain, ApiCreate, ApiDelete, NewRequest, ApiUpdate, ApiList, Get;
    PatchesHeld(s, before, first);
    var p := Patch(s, s.res.status.(phase := Creating)).s;
    ReadHeld(p, before, first);
    var d := ChooseDomain(p);
    CreateHeld(d.s, d.id, d.subdomain, before, first);
    var c := ApiCreate(d.s, NewRequest(d.s.res.spec, d.id, d.subdomain));
    PatchesHeld(c.s, before, first);
    WriteHeld(Patch(c.s, c.s.res.status.(resourceID := c.id, phase := Creating)).s, c.id, BasicRequest(s.res.spec), before, first);
  }

  lemma PopulateHeld(s: State, id: nat, before: map<nat, ResourceRow>, first: nat)
    requires Held(s, before, first)
    ensures Held(Populate(s, id).s, before, first)
  {
    hide Held, Patch, Get, ApiUpdate, CreateChildren, PostCreateRequest, ApiList, ChooseDomain, ApiDelete;
    ReadHeld(s, before, first);
    var g := Get(s).s;
    WriteHeld(g, id, PostCreateRequest(g.res.spec), before, first);
    var u := ApiUpdate(g, id, PostCreateRequest(g.res.spec)).s;
    ChildrenHeld(u, Targets, id, u.res.spec.targets, before, first);
    var t := CreateChildren(u, Targets, id, u.res.spec.targets).s;
    PatchesHeld(t, before, first);
    ChildrenHeld(t, Rules, id, t.res.spec.rules, before, first);
    PatchesHeld(CreateChildren(t, Rules, id, t.res.spec.rules).s, before, first);
  }

  lemma EnsureExistsHeld(s: State, before: map<nat, ResourceRow>, first: nat)
    requires Held(s, before, first)
    ensures Held(EnsureExists(s).s, before, first)
  {
    hide Held, Patch, ApiList, FindResource, Lists, CreateAndPersist, Populate, Get, ChooseDomain;
    ReadHeld(s, before, first);
    var l := ApiList(s, s.res.spec.name).s;
    PatchesHeld(l, before, first);
    CreationHeld(l, before, first);
    var c := CreateAndPersist(l);
    PopulateHeld(c.s, c.id, before, first);
  }

  lemma SyncHeld(s: State, kind: Kind, before: map<nat, ResourceRow>, first: nat)
    requires Held(s, before, first)
    ensures Held(Sync(s, kind).s, before, first)
  {
    hide Held, Patch, CreateChildren, DeleteChildren;
    var id, specs, kept := s.res.status.resourceID, s.res.spec.Children(kind), s.res.status.Kept(kind);
    ChildrenHeld(s, kind, id, specs, before, first);
    var b := CreateChildren(s, kind, id, specs);
    PatchesHeld(b.s, before, first);
    DeletionHeld(Patch(b.s, b.s.res.status.WithKept(kind, Tracked(b.ids, HashOf(specs)))).s, kind, id, kept.ids, before, first);
  }

  lemma UpdateAndFinishHeld(s: State, hadID: bool, adopted: bool, before: map<nat, ResourceRow>, first: nat)
    requires Held(s, before, first)
    ensures Held(UpdateAndFinish(s, hadID, adopted), before, first)
  {
    hide Held, Patch, Sync, ApiUpdate, ApiDelete, SettingsRequest;
    PatchesHeld(s, before, first);
    var id, q := s.res.status.resourceID, SettingsRequest(s.res.spec);
    WriteHeld(s, id, q, before, first);
    var u := ApiUpdate(s, id, q).s;
    PatchesHeld(u, before, first);
    SyncHeld(u, Targets, before, first);
    var t := Sync(u, Targets).s;
    PatchesHeld(t, before, first);
    SyncHeld(t, Rules, before, first);
    PatchesHeld(Sync(t, Rules).s, before, first);
  }

  lemma ReconcileLiveHeld(s: State, before: map<nat, ResourceRow>, first: nat)
    requires Held(s, before, first)
    ensures Held(ReconcileLive(s), before, first)
  {
    hide Held, Patch, EnsureExists, UpdateAndFinish, Get, ApiList, ChooseDomain;
    PatchesHeld(s, before, first);
    EnsureExistsHeld(s, before, first);
    var e := EnsureExists(s);
    PatchesHeld(e.s, before, first);
    ReadHeld(e.s, before, first);
    var hadID := s.res.status.resourceID != 0;
    UpdateAndFinishHeld(e.s, hadID, e.adopted, before, first);
    UpdateAndFinishHeld(Get(e.s).s, hadID, e.adopted, before, first);
  }

  /** The object's versions are counted by its generation. */
  predicate Counted(s: State) {
    s.stored.generation == |s.versions| && s.versions != [] && s.stored.spec == s.versions[|s.versions| - 1]
  }

  lemma ActivationHeld(s: State, script: seq<Event>, before: map<nat, ResourceRow>, first: nat)
    requires Counted(s) && first < |s.versions| && AllMade(s, before, first) && forall id :: id in before ==> id < s.remote.resources.next
    ensures var t := Reconcile(s, script);
      Counted(t) && first < |t.versions| && AllMade(t, before, first) && (forall id :: id in before ==> id < t.remote.resources.next)
  {
    hide AllMade, ReconcileLive, SetFinalizer, ApiDelete, ApiUpdate, Held;
    var m := Start(s, script);
    StartHeld(s, script, before, first);
    FinalizerHeld(m, true, before, first);
    FinalizerHeld(m, false, before, first);
    ReconcileLiveHeld(m, before, first);
    ReconcileLiveHeld(SetFinalizer(m, true).s, before, first);
    var id := m.res.status.resourceID;
    WriteHeld(m, id, BasicRequest(s.stored.spec), before, first);
    FinalizerHeld(ApiDelete(m, id).s, false, before, first);
    HeldMeans(Reconcile(s, script), before, first);
  }

  lemma StartHeld(s: State, script: seq<Event>, before: map<nat, ResourceRow>, first: nat)
    requires Counted(s) && first < |s.versions| && AllMade(s, before, first) && forall id :: id in before ==> id < s.remote.resources.next
    ensures Held(Start(s, script), before, first)
  {
    SameMade(s, Start(s, script), before, first);
    hide AllMade;
  }

  lemma HeldMeans(s: State, before: map<nat, ResourceRow>, first: nat)
    requires Held(s, before, first)
    ensures Counted(s) && first < |s.versions| && AllMade(s, before, first) && forall id :: id in before ==> id < s.remote.resources.next
  {
    hide AllMade;
  }

  lemma SameMade(s: State, t: State, before: map<nat, ResourceRow>, first: nat)
    requires t.remote == s.remote && t.versions == s.versions
    ensures AllMade(t, before, first) == AllMade(s, before, first)
  {
    hide Made;
  }

  /** Whatever fails, whatever others edit or delete, and wherever the activation is cut short: each
      resource that it creates is of the kind and on the port of a version that was stored when it began
      or came meanwhile, and the others stay as they were. */
  lemma CreatedAsAsked(s: State, script: seq<Event>, id: nat)
    requires s.remote.Valid() && Counted(s)
    ensures var t, live := Reconcile(s, script), s.remote.resources.live; id in t.remote.resources.live ==>
      var row := t.remote.resources.live[id];
      if id in live then SameShape(row, live[id])
      else exists k :: |s.versions| - 1 <= k < |t.versions| && Shaped(row, t.versions[k])
  {
    ActivationHeld(s, script, s.remote.resources.live, |s.versions| - 1);
    hide Reconcile;
  }

  // ---- Runs ----

  lemma StepMade(s: State, step: Step, before: map<nat, ResourceRow>, first: nat)
    requires Counted(s) && first < |s.versions| && AllMade(s, before, first) && forall id :: id in before ==> id < s.remote.resources.next
    ensures var t := Do(s, step);
      Counted(t) && first < |t.versions| && AllMade(t, before, first) && (forall id :: id in before ==> id < t.remote.resources.next)
  {
    hide Reconcile, AllMade, ApplyEnv, Held;
    match step
    case Act(env) =>
      var m := Start(s, []);
      StartHeld(s, [], before, first);
      OthersHeld(m, env, before, first);
      HeldMeans(ApplyEnv(m, env), before, first);
      SameOthers(s, m, env);
      SameMade(ApplyEnv(m, env), ApplyEnv(s, env), before, first);
    case SetSite(site) =>
      SameMade(s, s.(site := site), before, first);
    case Activate(script) =>
      ActivationHeld(s, script, before, first);
  }

  lemma OthersHeld(s: State, env: Env, before: map<nat, ResourceRow>, first: nat)
    requires Held(s, before, first)
    ensures Held(ApplyEnv(s, env), before, first)
  {
    Onwards(s, ApplyEnv(s, env), before, first);
    hide AllMade;
  }

  lemma SameOthers(s: State, t: State, env: Env)
    requires t.stored == s.stored && t.remote == s.remote && t.versions == s.versions
    ensures var a, b := ApplyEnv(s, env), ApplyEnv(t, env); b.stored == a.stored && b.remote == a.remote && b.versions == a.versions
  {
  }

  lemma {:induction false} RunMade(trace: seq<State>, steps: seq<Step>, k: nat, before: map<nat, ResourceRow>, first: nat)
    requires IsRun(trace, steps) && k < |trace| && Counted(trace[0]) && first < |trace[0].versions|
    requires AllMade(trace[0], before, first) && forall id :: id in before ==> id < trace[0].remote.resources.next
    ensures Counted(trace[k]) && first < |trace[k].versions| && AllMade(trace[k], before, first)
    ensures forall id :: id in before ==> id < trace[k].remote.resources.next
  {
    hide Do, AllMade, Counted;
    if k > 0 {
      RunMade(trace, steps, k - 1, before, first);
      StepMade(trace[k - 1], steps[k - 1], before, first);
    }
  }

  /** In every state of every run, whatever others edit and delete, each resource of the reconciler's
      making is of the kind and on the port of some version of the object. */
  lemma OursAreAsAsked(trace: seq<State>, steps: seq<Step>, t: State, id: nat)
    requires IsRun(trace, steps) && t in trace && Init(trace[0])
    requires id in t.remote.resources.live && t.remote.resources.live[id].ours
    ensures exists v :: v in t.versions && Shaped(t.remote.resources.live[id], v)
  {
    hide IsRun, Matching, Recomposes;
    var before := trace[0].remote.resources.live;
    var k :| 0 <= k < |trace| && trace[k] == t;
    RunMade(trace, steps, k, before, 0);
    var j :| 0 <= j < |t.versions| && Shaped(t.remote.resources.live[id], t.versions[j]);
    assert t.versions[j] in t.versions;
  }

  // ---- The resource of an object ----

  /** A resource is the one that a spec is about: by its name, and by its domain if the spec has one. */
  predicate IsAbout(name: string, fullDomain: string, spec: Spec) {
    name == spec.name && (spec.protocol == HTTP && spec.fullDomain != "" ==> fullDomain == spec.fullDomain)
  }

  predicate About(row: ResourceRow, spec: Spec) {
    IsAbout(row.name, row.fullDomain, spec)
  }

  /** Of a listing the first item that the spec is about would be adopted. */
  lemma {:induction false} FindsFirst(items: seq<ResourceItem>, spec: Spec)
    ensures match FindResource(items, spec)
      case None => forall item :: item in items ==> !IsAbout(item.name, item.fullDomain, spec)
      case Some(m) => exists i :: 0 <= i < |items| && items[i] == m && IsAbout(m.name, m.fullDomain, spec)
                        && forall j :: 0 <= j < i ==> !IsAbout(items[j].name, items[j].fullDomain, spec)
  {
    if items != [] {
      var rest := items[1..];
      assert items == [items[0]] + rest;
      if !IsAbout(items[0].name, items[0].fullDomain, spec) {
        FindsFirst(rest, spec);
        if FindResource(rest, spec).Some? {
          var i :| 0 <= i < |rest| && rest[i] == FindResource(rest, spec).value && IsAbout(rest[i].name, rest[i].fullDomain, spec)
            && forall j :: 0 <= j < i ==> !IsAbout(rest[j].name, rest[j].fullDomain, spec);
          assert items[i + 1] == rest[i];
          forall j | 0 <= j < i + 1 ensures !IsAbout(items[j].name, items[j].fullDomain, spec) { if j > 0 { assert items[j] == rest[j - 1]; } }
        }
      }
    }
  }

  lemma AboutIsMatching(row: ResourceRow, spec: Spec)
    ensures About(row, spec) <==> Matching(row, spec)
  {
  }

  /** In every state of every run the recorded resource, if it is live, is the one that the spec is about. */
  lemma RecordedIsAbout(trace: seq<State>, steps: seq<Step>, t: State)
    requires IsRun(trace, steps) && t in trace && Init(trace[0]) && TameSteps(steps, trace[0].stored.spec) && !t.stored.deleting
    ensures var id := t.stored.status.resourceID; id in t.remote.resources.live ==> About(t.remote.resources.live[id], t.stored.spec)
  {
    hide IsRun, Init, TameSteps, Base, Unique, Honest;
    InitKeeps(trace[0]);
    var k :| 0 <= k < |trace| && trace[k] == t;
    RunKeepsInv(trace, steps, k);
  }

  /** An undisturbed activation creates a resource exactly if no live one is about the spec, and the
      recorded one is not live under its name. */
  lemma CreatesIfNoneIsAbout(s: State, script: seq<Event>)
    requires s.remote.Valid() && s.stored.finalizer && !s.stored.deleting && s.site == SiteReady && Resolvable(s)
    requires Smooth(script) && |script| >= CallsToCreate(s.stored.spec)
    ensures var t, live, id := Reconcile(s, script), s.remote.resources.live, s.stored.status.resourceID;
      (exists a :: a in t.remote.resources.live && a !in live && t.remote.resources.live[a].ours) <==>
        && (forall i :: i in live ==> !About(live[i], s.stored.spec))
        && !(id in live && live[id].name == s.stored.spec.name)
  {
    hide Reconcile, Resolvable, Smooth, PublicRenaming.Stays, IsMatch, CallsToCreate;
    PublicRenaming.CreatesExactly(s, script);
    var t, live := Reconcile(s, script), s.remote.resources.live;
    forall i | i in live ensures About(live[i], s.stored.spec) <==> Matching(live[i], s.stored.spec) { AboutIsMatching(live[i], s.stored.spec); }
    if NothingToAdopt(s) {
      var a :| PublicRenaming.Made(s, t, a);
      assert a in t.remote.resources.live && a !in live && t.remote.resources.live[a].ours;
    }
    if a :| a in t.remote.resources.live && a !in live && t.remote.resources.live[a].ours { assert PublicRenaming.Made(s, t, a); }
  }

  /** What an undisturbed activation makes when there is nothing to keep or to adopt: one new resource,
      recorded, about the spec, of its kind, on its port, and with everything that the spec lists. */
  lemma ConvergesAnew(s: State, script: seq<Event>)
    requires Live(s) && Truthful(s) && s.stored.finalizer && !s.stored.deleting && s.site == SiteReady && Resolvable(s)
    requires Smooth(script) && |script| >= Budget(s)
    requires forall id :: id in s.remote.resources.live ==> !About(s.remote.resources.live[id], s.stored.spec)
    ensures var t := Reconcile(s, script); var id, spec := t.stored.status.resourceID, s.stored.spec;
      && MarkedReady(t.stored) && t.stored.spec == spec && InService(t)
      && id !in s.remote.resources.live && id in t.remote.resources.live
      && About(t.remote.resources.live[id], spec) && Shaped(t.remote.resources.live[id], spec)
  {
    hide Reconcile, Resolvable, Smooth, SpecRealised, InService, Truthful, Honest, Recomposes;
    var t := Reconcile(s, script);
    Converges(s, script);
    RealisedIsServed(t);
    CreatesIfNoneIsAbout(s, script);
    var id :| id in t.remote.resources.live && id !in s.remote.resources.live && t.remote.resources.live[id].ours;
    CreatedAsAsked(s, script, id);
    RecordedUnique(t, id) by { ServedLive(t); }
  }

  lemma ServedLive(s: State)
    requires InService(s)
    ensures s.stored.status.resourceID in s.remote.resources.live
  {
  }

  lemma RecordedUnique(s: State, id: nat)
    requires Live(s) && s.stored.status.resourceID in s.remote.resources.live
    requires id in s.remote.resources.live && s.remote.resources.live[id].ours
    ensures id == s.stored.status.resourceID
  {
    hide Recomposes, Honest;
  }
}
