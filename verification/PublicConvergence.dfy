/** Progress: an activation in which every call is answered brings any state that a run can leave
    behind to Ready, and after that there is nothing left to do. */
module PublicConvergence {
  import opened Shared
  import opened Domains
  import opened Server
  import opened PublicResource
  import opened PublicSafety
  import opened PublicChildren
  import opened PublicSteps
  import opened PublicProtocol
  import opened PublicRuns

  /** Nobody interferes and every call is answered. */
  ghost predicate Smooth(script: seq<Event>) {
    forall i :: 0 <= i < |script| ==> script[i].env.Calm? && script[i].reply.Served?
  }

  const PLAIN := Event(Calm, 0, Served(0))

  function Plain(n: nat): (script: seq<Event>)
    ensures |script| == n && Smooth(script)
  {
    seq(n, _ => PLAIN)
  }

  /** At least n more calls will be answered. */
  ghost predicate Fuel(s: State, n: nat) {
    !s.crashed && n <= |s.script| && Smooth(s.script)
  }

  lemma SmoothCall(s: State, call: Call, n: nat)
    requires Fuel(s, n + 1)
    ensures !Halted(s) && s.script[0].reply.Served? && Fuel(Advance(s, call), n)
    ensures Advance(s, call) == s.(script := s.script[1..], log := s.log + [Entry(call, s.script[0].reply)])
  {
  }

  lemma PatchSmooth(s: State, after: Status, n: nat)
    requires Fuel(s, n + 1)
    ensures Patch(s, after).r.Ok? && Fuel(Patch(s, after).s, n)
    ensures s.res.status == s.stored.status ==> Patch(s, after).s.stored == s.stored.(status := after)
  {
    SmoothCall(s, PatchStatus, n);
    MergeAll(s.res.status, after);
  }

  lemma ServeOneSmooth(b: Batch, kind: Kind, resource: nat, specs: seq<ChildSpec>, i: nat, n: nat)
    requires Fuel(b.s, n + 1) && |b.ids| == |specs| && i < |specs| && resource in b.s.remote.resources.live
    ensures var c := ServeOne(b, kind, resource, specs, i);
      Fuel(c.s, n) && c.failed == b.failed && resource in c.s.remote.resources.live
  {
    assert b.s.script != [];
    SmoothCall(b.s, CreateChild(kind, resource, Handed(b.s, kind)), n);
  }

  lemma {:induction false} ServeAllSmooth(b: Batch, kind: Kind, resource: nat, specs: seq<ChildSpec>, pending: seq<nat>, n: nat)
    requires Fuel(b.s, n + |pending|) && |b.ids| == |specs| && resource in b.s.remote.resources.live
    requires forall j :: 0 <= j < |pending| ==> pending[j] < |specs|
    ensures var c := ServeAll(b, kind, resource, specs, pending); Fuel(c.s, n) && c.failed == b.failed
    decreases |pending|
  {
    hide ServeOne;
    if pending != [] {
      var p := Chosen(pending, b.s.script[0].pick);
      var rest := pending[..p] + pending[p + 1..];
      ServeOneSmooth(b, kind, resource, specs, pending[p], n + |rest|);
      ServeAllSmooth(ServeOne(b, kind, resource, specs, pending[p]), kind, resource, specs, rest, n);
    }
  }

  lemma CreateChildrenSmooth(s: State, kind: Kind, resource: nat, specs: seq<ChildSpec>, n: nat)
    requires Fuel(s, n + |specs|) && resource in s.remote.resources.live
    ensures var b := CreateChildren(s, kind, resource, specs); Fuel(b.s, n) && !b.failed
  {
    ServeAllSmooth(Batch(s, Zeros(|specs|), false, {}), kind, resource, specs, Indices(|specs|), n);
    hide ServeAll;
  }

  lemma {:induction false} DeleteChildrenSmooth(s: State, kind: Kind, resource: nat, ids: seq<nat>, n: nat)
    requires Fuel(s, n + |ids|)
    ensures Fuel(DeleteChildren(s, kind, resource, ids), n)
    decreases |ids|
  {
    if ids != [] {
      SmoothCall(s, DeleteChild(kind, ids[0]), n + |ids| - 1);
      DeleteChildrenSmooth(DeleteOne(s, kind, resource, ids[0]), kind, resource, ids[1..], n);
    }
  }

  /** The calls one swap needs. */
  function SyncCost(s: State, kind: Kind): nat {
    if s.stored.status.Kept(kind).hash == HashOf(s.stored.spec.Children(kind)) then 0
    else |s.stored.spec.Children(kind)| + 1 + |s.stored.status.Kept(kind).ids|
  }

  lemma SyncSmooth(s: State, kind: Kind, n: nat)
    requires Ready0(s) && Fresh(s) && Fuel(s, n + SyncCost(s, kind)) && s.stored.status.resourceID in s.remote.resources.live
    ensures Sync(s, kind).r.Ok? && Fuel(Sync(s, kind).s, n)
  {
    hide Base, Unique, Backed, Tame, Grew, CreateChildren, DeleteChildren, Patch, Follows, NewChildren, Realised;
    var specs := s.res.spec.Children(kind);
    var kept := s.stored.status.Kept(kind);
    if kept.hash != HashOf(specs) {
      CreateChildrenSmooth(s, kind, s.stored.status.resourceID, specs, n + 1 + |kept.ids|);
      var b := CreateChildren(s, kind, s.stored.status.resourceID, specs);
      var after := b.s.res.status.WithKept(kind, Tracked(b.ids, HashOf(specs)));
      PatchSmooth(b.s, after, n + |kept.ids|);
      DeleteChildrenSmooth(Patch(b.s, after).s, kind, s.stored.status.resourceID, kept.ids, n);
    }
  }

  function UpdateCost(s: State): nat {
    1 + SyncCost(s, Targets) + SyncCost(s, Rules)
  }

  lemma ApiUpdateSmooth(s: State, id: nat, q: UpdateRequest, n: nat)
    requires Fuel(s, n + 1) && id in s.remote.resources.live
    ensures ApiUpdate(s, id, q).r.Ok? && Fuel(ApiUpdate(s, id, q).s, n)
    ensures ApiUpdate(s, id, q).s.stored == s.stored
  {
    SmoothCall(s, UpdateResource(id), n);
    hide Apply;
  }

  lemma SmoothIsQuiet(script: seq<Event>)
    requires Smooth(script)
    ensures Quiet(script)
  {
  }

  /** A swap of targets leaves the rules' side of the status alone. */
  lemma UpdateSmooth(s: State, n: nat)
    requires Ready0(s) && Fresh(s) && Fuel(s, n + UpdateCost(s)) && s.stored.status.resourceID in s.remote.resources.live
    ensures Update(s).r.Ok? && Fuel(Update(s).s, n)
  {
    hide Base, Unique, Backed, Tame, Sync, ApiUpdate, Follows, Patch, Synced, Quiet, Fresh, Kept;
    var id := s.stored.status.resourceID;
    SmoothIsQuiet(s.script);
    InStep(s);
    RidMatches(s);
    var q := SettingsRequest(s.res.spec);
    ApiUpdateKeeps(s, id, q);
    ApiUpdateSmooth(s, id, q, n + SyncCost(s, Targets) + SyncCost(s, Rules));
    var u := ApiUpdate(s, id, q);
    Onward(s, u.s);
    StillFresh(s, u.s);
    SyncSmooth(u.s, Targets, n + SyncCost(s, Rules));
    SyncKeeps(u.s, Targets);
    var t := Sync(u.s, Targets);
    Onward(u.s, t.s);
    StillFresh(u.s, t.s);
    SyncSmooth(t.s, Rules, n);
  }

  lemma GetSmooth(s: State, n: nat)
    requires Fuel(s, n + 1)
    ensures Get(s).r.Ok? && Fuel(Get(s).s, n) && Get(s).s.stored == s.stored
  {
    SmoothCall(s, GetObject, n);
  }

  lemma ListSmooth(s: State, name: string, n: nat)
    requires Fuel(s, n + 1)
    ensures ApiList(s, name).r.Ok? && Fuel(ApiList(s, name).s, n) && ApiList(s, name).s.stored == s.stored
    ensures ApiList(s, name).s.remote == s.remote
  {
    SmoothCall(s, ListResources, n);
  }

  /** The organisation has a domain for the spec, if it needs one. */
  predicate Resolvable(s: State) {
    s.stored.spec.protocol == HTTP && s.stored.spec.fullDomain != "" ==>
      Resolve(s.remote.domains, s.stored.spec.fullDomain).Resolved?
  }

  lemma ChooseDomainSmooth(s: State, n: nat)
    requires Fuel(s, n + 1) && Resolvable(s) && s.res.spec == s.stored.spec
    ensures var d := ChooseDomain(s); d.r.Ok? && Fuel(d.s, n) && d.s.remote == s.remote && d.s.stored == s.stored
  {
    SmoothCall(s, ListDomains, n);
    hide Resolve;
  }

  lemma ApiCreateSmooth(s: State, q: CreateRequest, n: nat)
    requires Fuel(s, n + 1)
    ensures var c := ApiCreate(s, q);
      c.r.Ok? && Fuel(c.s, n) && c.s.stored == s.stored && c.id in c.s.remote.resources.live
  {
    SmoothCall(s, CreateResource, n);
    hide Compose;
  }

  lemma PopulateSmooth(s: State, id: nat, n: nat)
    requires Populating(s, id) && Fresh(s) && Fuel(s, n + 3 + |s.stored.spec.targets| + |s.stored.spec.rules|)
    ensures Populate(s, id).r.Ok? && Fuel(Populate(s, id).s, n)
  {
    hide Base, Unique, Backed, Tame, ApiUpdate, Follows, Patch, Synced, Quiet, Get, CreateChildren, Kept, Fresh, Grew,
         NewChildren, Realised;
    var targets, rules := s.stored.spec.targets, s.stored.spec.rules;
    SmoothIsQuiet(s.script);
    GetSmooth(s, n + 2 + |targets| + |rules|);
    GetKeeps(s);
    var g := Get(s);
    Onward(s, g.s);
    StillFresh(s, g.s);
    InStep(g.s);
    RidMatches(g.s);
    var q := PostCreateRequest(g.s.res.spec);
    ApiUpdateSmooth(g.s, id, q, n + 1 + |targets| + |rules|);
    ApiUpdateKeeps(g.s, id, q);
    var u := ApiUpdate(g.s, id, q);
    Onward(g.s, u.s);
    StillFresh(g.s, u.s);
    CreateChildrenSmooth(u.s, Targets, id, targets, n + 1 + |rules|);
    PopulateTargets(u.s, id);
    var t := CreateChildren(u.s, Targets, id, targets);
    CreateChildrenSmooth(t.s, Rules, id, rules, n + 1);
    var r := CreateChildren(t.s, Rules, id, rules);
    PatchSmooth(r.s, r.s.res.status.(targets := Tracked(t.ids, HashOf(r.s.res.spec.targets)),
                                     rules := Tracked(r.ids, HashOf(r.s.res.spec.rules))), n);
  }

  lemma CreateAndPersistSmooth(s: State, n: nat)
    requires Ready0(s) && Fresh(s) && Vacant(s) && Resolvable(s) && Fuel(s, n + 4)
    ensures CreateAndPersist(s).r.Ok? && Fuel(CreateAndPersist(s).s, n)
    ensures CreateAndPersist(s).s.stored.spec == s.stored.spec
  {
    hide Base, Unique, Backed, Tame, ChooseDomain, ApiCreate, ApiDelete, Follows, Quiet, Resolvable, MergeStatus,
         Vacant;
    InStep(s);
    var creating := s.res.status.(phase := Creating);
    PatchSmooth(s, creating, n + 3);
    var p := Patch(s, creating);
    assert p.s.remote == s.remote && p.s.res == p.s.stored && p.s.stored == s.stored.(status := creating) by {
      SmoothCall(s, PatchStatus, n + 3);
    }
    assert Resolvable(p.s) by { SameResolvable(s, p.s); }
    ChooseDomainSmooth(p.s, n + 2);
    var d := ChooseDomain(p.s);
    ApiCreateSmooth(d.s, NewRequest(d.s.res.spec, d.id, d.subdomain), n + 1);
    var c := ApiCreate(d.s, NewRequest(d.s.res.spec, d.id, d.subdomain));
    PatchSmooth(c.s, c.s.res.status.(resourceID := c.id, phase := Creating), n);
    PatchSpec(c.s, c.s.res.status.(resourceID := c.id, phase := Creating), n);
  }

  lemma PatchSpec(s: State, after: Status, n: nat)
    requires Fuel(s, n + 1)
    ensures Patch(s, after).s.stored.spec == s.stored.spec
  {
    SmoothCall(s, PatchStatus, n);
  }

  lemma SameResolvable(s: State, t: State)
    requires Resolvable(s) && t.remote == s.remote && t.stored.spec == s.stored.spec
    ensures Resolvable(t)
  {
  }

  lemma CreateSmooth(s: State, n: nat)
    requires Ready0(s) && Fresh(s) && Vacant(s) && Resolvable(s)
    requires Fuel(s, n + 7 + |s.stored.spec.targets| + |s.stored.spec.rules|)
    ensures Create(s).r.Ok? && Fuel(Create(s).s, n)
  {
    hide Base, Unique, Backed, Tame, CreateAndPersist, Populate, Follows, Quiet, Resolvable, Vacant, Synced, Kept,
         Fresh;
    SmoothIsQuiet(s.script);
    var m := n + 3 + |s.stored.spec.targets| + |s.stored.spec.rules|;
    CreateAndPersistSmooth(s, m);
    CreateAndPersistKeeps(s);
    var c := CreateAndPersist(s);
    Onward(s, c.s);
    StillFresh(s, c.s);
    PopulateSmooth(c.s, c.id, n);
  }

  // ---- Convergence ----

  /** Marked ready for the current generation. */
  predicate MarkedReady(o: Object) {
    && o.status.phase == Ready && o.status.observedGeneration == o.generation
    && o.status.condition == Condition(true, Reconciled, o.generation)
  }

  lemma FinishSmooth(s: State)
    requires Fuel(s, 1) && s.res.status == s.stored.status && Fresh(s)
    ensures Finish(s).stored == s.stored.(status := Finished(s)) && MarkedReady(Finish(s).stored)
  {
    PatchSmooth(s, Finished(s), 0);
  }

  lemma UpdateAndFinishSmooth(s: State, hadID: bool, adopted: bool)
    requires Ready0(s) && Fresh(s) && Fuel(s, UpdateCost(s) + 1) && s.stored.status.resourceID in s.remote.resources.live
    ensures MarkedReady(UpdateAndFinish(s, hadID, adopted).stored)
  {
    hide Base, Unique, Backed, Tame, Update, Patch, Follows, Synced, Quiet, Kept, Fresh;
    SmoothIsQuiet(s.script);
    InStep(s);
    if NeedsUpdate(s, hadID, adopted) {
      UpdateSmooth(s, 1);
      UpdateKeeps(s);
      var u := Update(s);
      Onward(s, u.s);
      StillFresh(s, u.s);
      InStep(u.s);
      FinishSmooth(u.s);
    } else {
      FinishSmooth(s);
    }
  }

  /** Enough calls for an activation that has to do everything. */
  function Budget(s: State): nat {
    12 + |s.stored.spec.targets| + |s.stored.spec.rules| + |s.stored.status.targets.ids| + |s.stored.status.rules.ids|
  }

  /** Checking for existence succeeds and leaves enough calls for the rest. */
  lemma EnsureExistsSmooth(s: State)
    requires Ready0(s) && Fresh(s) && Resolvable(s) && Fuel(s, Budget(s) - 1)
    ensures var e := EnsureExists(s); e.r.Ok? && Fuel(e.s, UpdateCost(e.s) + 2)
  {
    hide Base, Unique, Backed, Tame, ApiList, Listing, FindResource, Patch, Create, Follows, Synced, Quiet, Kept, Fresh, Resolvable,
         Vacant, Lists, Matching;
    SmoothIsQuiet(s.script);
    InStep(s);
    ListSmooth(s, s.res.spec.name, Budget(s) - 2);
    ListKeeps(s, s.res.spec.name);
    var l := ApiList(s, s.res.spec.name);
    Onward(s, l.s);
    StillFresh(s, l.s);
    InStep(l.s);
    ListingDecides(l.s);
    LiveNonZero(l.s);
    if s.stored.status.resourceID != 0 && Lists(l.items, s.stored.status.resourceID) {
    } else if FindResource(l.items, s.res.spec).Some? {
      var after := Adopted(l.s.res.status, FindResource(l.items, s.res.spec).value.id);
      PatchSmooth(l.s, after, Budget(s) - 3);
    } else {
      SameResolvable(s, l.s);
      CreateSmooth(l.s, 3);
      CreateKeeps(l.s);
      var c := Create(l.s);
      Onward(l.s, c.s);
      StillFresh(l.s, c.s);
    }
  }

  lemma ReconcileReadySmooth(s: State)
    requires Ready0(s) && Fresh(s) && Resolvable(s) && Fuel(s, Budget(s) - 1)
    ensures MarkedReady(ReconcileReady(s).stored)
  {
    hide Base, Unique, Backed, Tame, EnsureExists, UpdateAndFinish, Get, Follows, Synced, Quiet, Kept, Fresh,
         Resolvable, UpdateCost;
    SmoothIsQuiet(s.script);
    EnsureExistsSmooth(s);
    EnsureExistsKeeps(s);
    var e := EnsureExists(s);
    Onward(s, e.s);
    StillFresh(s, e.s);
    InStep(s);
    var hadID := s.res.status.resourceID != 0;
    if hadID && !e.adopted {
      GetSmooth(e.s, UpdateCost(e.s) + 1);
      GetKeeps(e.s);
      var g := Get(e.s);
      Onward(e.s, g.s);
      StillFresh(e.s, g.s);
      SameCost(e.s, g.s);
      UpdateAndFinishSmooth(g.s, hadID, e.adopted);
    } else {
      UpdateAndFinishSmooth(e.s, hadID, e.adopted);
    }
  }

  lemma SameCost(s: State, t: State)
    requires t.stored == s.stored
    ensures UpdateCost(t) == UpdateCost(s)
  {
  }

  /** Done: nothing to do until the spec, the server or the site changes. */
  ghost predicate Settled(s: State) {
    && Live(s) && Truthful(s) && MarkedReady(s.stored) && s.stored.finalizer && !s.stored.deleting && s.site == SiteReady
  }

  /** Convergence: from any state in which the claims are backed, however a run left it, one
      activation whose calls are all answered marks the object ready and realises its spec. */
  lemma Converges(s: State, script: seq<Event>)
    requires Live(s) && Truthful(s) && !s.stored.deleting && s.site == SiteReady && Resolvable(s)
    requires Smooth(script) && |script| >= Budget(s)
    ensures var t := Reconcile(s, script);
      && MarkedReady(t.stored) && t.stored.spec == s.stored.spec && t.stored.generation == s.stored.generation
      && SpecRealised(t) && Settled(t)
  {
    hide Base, Unique, Backed, Tame, Quiet, ReconcileReady, Truthful, Synced, Fresh, Resolvable, UpToDate,
         SpecRealised, SetFinalizer, Reconcile;
    SmoothIsQuiet(script);
    QuietIsTame(script, s.stored.spec);
    ActivationKeeps(s, script);
    StartKeeps(s, script);
    var t := Start(s, script);
    SameResolvable(s, t);
    if s.stored.finalizer {
      ReconcileReadySmooth(t);
      FollowsThrough(t);
      assert Reconcile(s, script) == ReconcileReady(t) by { ReconcileIs(s, script); }
    } else {
      SetFinalizerKeeps(t);
      SetFinalizerSmooth(t, Budget(s) - 1);
      var f := SetFinalizer(t, true);
      SameResolvable(t, f.s);
      ReconcileReadySmooth(f.s);
      FollowsThrough(f.s);
      assert Reconcile(s, script) == ReconcileReady(f.s) by { ReconcileIs(s, script); }
    }
    UpToDateIsRealised(Reconcile(s, script)) by { TruthfulUpToDate(Reconcile(s, script)); }
  }

  lemma TruthfulUpToDate(s: State)
    requires Truthful(s) && s.stored.status.observedGeneration == s.stored.generation
    ensures UpToDate(s)
  {
  }

  lemma ReconcileIs(s: State, script: seq<Event>)
    requires !s.stored.deleting && s.site == SiteReady
    ensures s.stored.finalizer ==> Reconcile(s, script) == ReconcileReady(Start(s, script))
    ensures var f := SetFinalizer(Start(s, script), true);
      !s.stored.finalizer && f.r.Ok? && f.s.site == SiteReady ==> Reconcile(s, script) == ReconcileReady(f.s)
  {
    hide ReconcileReady;
  }

  lemma QuietIsTame(script: seq<Event>, spec: Spec)
    requires Quiet(script)
    ensures Tame(script, spec)
  {
  }

  lemma SetFinalizerSmooth(s: State, n: nat)
    requires Fuel(s, n + 1) && s.res == s.stored && !s.stored.deleting
    ensures var f := SetFinalizer(s, true);
      && f.r.Ok? && Fuel(f.s, n) && f.s.stored == s.stored.(finalizer := true) && f.s.remote == s.remote && f.s.site == s.site
  {
    SmoothCall(s, AddFinalizer, n);
  }

  lemma FollowsThrough(s: State)
    requires Ready0(s) && !s.crashed && Quiet(s.script)
    ensures var t := ReconcileReady(s);
      && t.stored.spec == s.stored.spec && t.stored.generation == s.stored.generation
      && t.stored.finalizer == s.stored.finalizer && t.stored.deleting == s.stored.deleting && t.site == s.site
  {
    hide Unique, Backed, Tame, ReconcileReady, UpToDate;
    if Behind(s) {
      BehindThrough(s);
    } else {
      CurrentThrough(s);
    }
    QuietSpec(s, ReconcileReady(s));
  }

  // ---- Quiescence ----

  /** Quiescence: a settled object stays exactly as it is, on both sides; the only calls are the
      listing, the re-read and the patch that changes nothing. */
  lemma Quiescent(s: State, script: seq<Event>)
    requires Settled(s) && Smooth(script) && |script| >= 3
    ensures var t := Reconcile(s, script);
      && t.stored == s.stored && t.remote == s.remote && !t.crashed
      && t.log == s.log + [Entry(ListResources, script[0].reply), Entry(GetObject, script[1].reply), Entry(PatchStatus, script[2].reply)]
  {
    hide Base, Unique, Honest, Tame, Listing, Lists, UpToDate, FindResource;
    var m := Start(s, script);
    ReconcileIs(s, script);
    SmoothCall(m, ListResources, 2);
    var l := Advance(m, ListResources);
    EngagedWhenCurrent(s);
    StartKeeps(s, script);
    ListingDecides(m) by { IdentityIsReflexive(s.stored.spec); }
    LiveNonZero(m);
    SmoothCall(l, GetObject, 1);
    var g := Advance(l, GetObject);
    SmoothCall(g, PatchStatus, 0);
  }

  /** Whatever fails and wherever it is cut short: an undisturbed activation of a current object
      changes nothing on the server and nothing that the status claims. */
  lemma CurrentStaysPut(s: State, script: seq<Event>)
    requires Live(s) && s.stored.finalizer && !s.stored.deleting && Quiet(script)
    requires s.stored.status.observedGeneration == s.stored.generation
    ensures var t := Reconcile(s, script); t.remote == s.remote && SameClaims(t.stored.status, s.stored.status)
  {
    hide Base, Unique, Backed, Tame, ReconcileReady, Patch, Quiet;
    var m := Start(s, script);
    StartKeeps(s, script);
    QuietIsTame(script, s.stored.spec);
    if s.site == SiteReady {
      CurrentThrough(m);
    } else {
      ReportKeeps(m, Unready(m, Pending));
    }
  }

  lemma IdentityIsReflexive(spec: Spec)
    ensures SameIdentity(spec, spec)
  {
  }

  /** After convergence every further activation of the unchanged object is a no-op. */
  lemma ConvergesThenRests(s: State, first: seq<Event>, second: seq<Event>)
    requires Live(s) && Truthful(s) && !s.stored.deleting && s.site == SiteReady && Resolvable(s)
    requires Smooth(first) && |first| >= Budget(s) && Smooth(second) && |second| >= 3
    ensures var t := Reconcile(s, first); var u := Reconcile(t, second);
      SpecRealised(t) && u.stored == t.stored && u.remote == t.remote
  {
    Converges(s, first);
    var t := Reconcile(s, first);
    Quiescent(t, second);
    hide Reconcile, Live, Truthful, SpecRealised;
  }

  /** From every state of every run, whatever its activations were cut short in: the next undisturbed
      activation realises the spec, and an undisturbed activation right after it changes nothing. */
  lemma EveryRunConverges(trace: seq<State>, steps: seq<Step>, s: State, first: seq<Event>, second: seq<Event>)
    requires IsRun(trace, steps) && s in trace && Init(trace[0]) && TameSteps(steps, trace[0].stored.spec)
    requires NoCleanup(trace, steps) && GentleSteps(trace, steps) && !s.stored.deleting
    requires s.site == SiteReady && Resolvable(s)
    requires Smooth(first) && |first| >= Budget(s) && Smooth(second) && |second| >= 3
    ensures var t := Reconcile(s, first); var u := Reconcile(t, second);
      MarkedReady(t.stored) && SpecRealised(t) && u.stored == t.stored && u.remote == t.remote
  {
    hide IsRun, Init, TameSteps, NoCleanup, GentleSteps, Reconcile, Smooth, Live, Truthful, SpecRealised, Resolvable;
    InitKeeps(trace[0]);
    var k :| 0 <= k < |trace| && trace[k] == s;
    RunLive(trace, steps, k);
    Converges(s, first);
    Quiescent(Reconcile(s, first), second);
  }
}
