/** Renamed objects: when exactly an undisturbed activation creates a resource, and how an object that
    is renamed comes to have two. */
module PublicRenaming {
  import opened Shared
  import opened Domains
  import opened Server
  import opened PublicResource
  import opened PublicSafety
  import opened PublicSteps
  import opened PublicProtocol
  import opened PublicRuns
  import opened PublicConvergence
  import opened PublicBoundaries

  // ---- Pieces that neither create nor delete a resource ----

  /** The same resources are live, of the same makers, under their name or that in the spec; and all
      calls to come are answered. */
  ghost predicate SameRows(s: State, t: State) {
    var before, after := s.remote.resources.live, t.remote.resources.live;
    && Smooth(t.script) && after.Keys == before.Keys
    && (forall id :: id in before ==> after[id].ours == before[id].ours)
    && (s.res.spec == s.stored.spec ==>
          && t.res.spec == t.stored.spec == s.stored.spec
          && forall id :: id in before ==> after[id].name in {before[id].name, s.stored.spec.name})
  }

  lemma SameRowsChain(s: State, t: State, u: State)
    requires SameRows(s, t) && SameRows(t, u)
    ensures SameRows(s, u)
  {
    hide Smooth;
  }

  lemma SelfSameRows(s: State)
    requires Smooth(s.script)
    ensures SameRows(s, s) && SameRows(s, Halt(s))
  {
  }

  lemma AdvanceSameRows(s: State, call: Call)
    requires Smooth(s.script) && !Halted(s)
    ensures SameRows(s, Advance(s, call)) && s.script[0].reply.Served? && s.script[0].env.Calm?
    ensures Advance(s, call).remote == s.remote && Advance(s, call).stored == s.stored && Advance(s, call).res == s.res
  {
  }

  lemma PatchSameRows(s: State, after: Status)
    requires Smooth(s.script)
    ensures SameRows(s, Patch(s, after).s)
  {
    SelfSameRows(s);
    if !Halted(s) { AdvanceSameRows(s, PatchStatus); }
    hide Advance, MergeStatus, Smooth;
  }

  lemma ReadSameRows(s: State, name: string)
    requires Smooth(s.script)
    ensures SameRows(s, Get(s).s) && SameRows(s, ApiList(s, name).s) && ApiList(s, name).s.remote == s.remote
  {
    SelfSameRows(s);
    if !Halted(s) {
      AdvanceSameRows(s, GetObject);
      AdvanceSameRows(s, ListResources);
    }
    hide Advance, Listing, Smooth;
  }

  lemma UpdateSameRows(s: State, id: nat, q: UpdateRequest)
    requires Smooth(s.script) && (q.name == "" || q.name == s.res.spec.name)
    ensures SameRows(s, ApiUpdate(s, id, q).s)
  {
    SelfSameRows(s);
    if !Halted(s) {
      AdvanceSameRows(s, UpdateResource(id));
      if id in s.remote.resources.live { ApplyTwice(s.remote.resources.live[id], q); }
    }
    hide Advance, Apply, Smooth;
  }

  lemma ServeOneSameRows(b: Batch, kind: Kind, resource: nat, specs: seq<ChildSpec>, i: nat)
    requires Smooth(b.s.script) && |b.ids| == |specs| && i < |specs| && !Halted(b.s)
    ensures SameRows(b.s, ServeOne(b, kind, resource, specs, i).s)
  {
    AdvanceSameRows(b.s, CreateChild(kind, resource, Handed(b.s, kind)));
    hide Advance, Row, Handed, Smooth;
  }

  lemma {:induction false} ServeAllSameRows(b: Batch, kind: Kind, resource: nat, specs: seq<ChildSpec>, pending: seq<nat>)
    requires Smooth(b.s.script) && |b.ids| == |specs| && forall j :: 0 <= j < |pending| ==> pending[j] < |specs|
    ensures SameRows(b.s, ServeAll(b, kind, resource, specs, pending).s)
    decreases |pending|
  {
    hide ServeOne, Smooth;
    SelfSameRows(b.s);
    if pending != [] && !Halted(b.s) {
      var p := Chosen(pending, b.s.script[0].pick);
      var rest := pending[..p] + pending[p + 1..];
      ServeOneSameRows(b, kind, resource, specs, pending[p]);
      var m := ServeOne(b, kind, resource, specs, pending[p]);
      ServeAllSameRows(m, kind, resource, specs, rest);
      SameRowsChain(b.s, m.s, ServeAll(m, kind, resource, specs, rest).s);
    }
  }

  lemma ChildrenSameRows(s: State, kind: Kind, resource: nat, specs: seq<ChildSpec>)
    requires Smooth(s.script)
    ensures SameRows(s, CreateChildren(s, kind, resource, specs).s)
  {
    ServeAllSameRows(Batch(s, Zeros(|specs|), false, {}), kind, resource, specs, Indices(|specs|));
    hide ServeAll;
  }

  lemma DeleteOneSameRows(s: State, kind: Kind, resource: nat, id: nat)
    requires Smooth(s.script)
    ensures SameRows(s, DeleteOne(s, kind, resource, id))
  {
    SelfSameRows(s);
    if !Halted(s) { AdvanceSameRows(s, DeleteChild(kind, id)); }
    hide Advance, Smooth;
  }

  lemma {:induction false} DeleteChildrenSameRows(s: State, kind: Kind, resource: nat, ids: seq<nat>)
    requires Smooth(s.script)
    ensures SameRows(s, DeleteChildren(s, kind, resource, ids))
    decreases |ids|
  {
    hide DeleteOne, Smooth;
    if ids == [] {
      SelfSameRows(s);
    } else {
      DeleteOneSameRows(s, kind, resource, ids[0]);
      var m := DeleteOne(s, kind, resource, ids[0]);
      DeleteChildrenSameRows(m, kind, resource, ids[1..]);
      SameRowsChain(s, m, DeleteChildren(m, kind, resource, ids[1..]));
    }
  }

  lemma SmoothAfter(s: State, t: State)
    requires SameRows(s, t)
    ensures Smooth(t.script)
  {
  }

  lemma PopulateChildrenSameRows(s: State, id: nat)
    requires Smooth(s.script)
    ensures SameRows(s, PopulateChildren(s, id).s)
  {
    hide CreateChildren, Patch, SameRows;
    ChildrenSameRows(s, Targets, id, s.res.spec.targets);
    var t := CreateChildren(s, Targets, id, s.res.spec.targets).s;
    SmoothAfter(s, t);
    PatchesSameRows(s, t);
    ChildrenSameRows(t, Rules, id, t.res.spec.rules);
    var r := CreateChildren(t, Rules, id, t.res.spec.rules).s;
    SameRowsChain(s, t, r);
    SmoothAfter(t, r);
    PatchesSameRows(s, r);
  }

  /** A patch at the end of a piece. */
  lemma PatchesSameRows(s: State, t: State)
    requires SameRows(s, t) && Smooth(t.script)
    ensures forall after :: SameRows(s, Patch(t, after).s)
  {
    forall after ensures SameRows(s, Patch(t, after).s) {
      PatchSameRows(t, after);
      SameRowsChain(s, t, Patch(t, after).s);
    }
    hide Patch, SameRows;
  }

  lemma RequestNames(spec: Spec)
    ensures SettingsRequest(spec).name == spec.name && (PostCreateRequest(spec).name == "" || PostCreateRequest(spec).name == spec.name)
  {
  }

  lemma PopulateSameRows(s: State, id: nat)
    requires Smooth(s.script)
    ensures SameRows(s, Populate(s, id).s)
  {
    hide Get, ApiUpdate, ApiList, PopulateChildren, SameRows;
    ReadSameRows(s, "");
    var g := Get(s).s;
    SmoothAfter(s, g);
    var q := PostCreateRequest(g.res.spec);
    RequestNames(g.res.spec);
    UpdateSameRows(g, id, q);
    var u := ApiUpdate(g, id, q).s;
    SameRowsChain(s, g, u);
    SmoothAfter(g, u);
    PopulateChildrenSameRows(u, id);
    SameRowsChain(s, u, PopulateChildren(u, id).s);
  }

  lemma SyncSameRows(s: State, kind: Kind)
    requires Smooth(s.script)
    ensures SameRows(s, Sync(s, kind).s)
  {
    hide CreateChildren, DeleteChildren, Patch, SameRows;
    var specs, kept, id := s.res.spec.Children(kind), s.res.status.Kept(kind), s.res.status.resourceID;
    SelfSameRows(s);
    ChildrenSameRows(s, kind, id, specs);
    var b := CreateChildren(s, kind, id, specs);
    SmoothAfter(s, b.s);
    PatchesSameRows(s, b.s);
    var p := Patch(b.s, b.s.res.status.WithKept(kind, Tracked(b.ids, HashOf(specs)))).s;
    SmoothAfter(s, p);
    DeleteChildrenSameRows(p, kind, id, kept.ids);
    SameRowsChain(s, p, DeleteChildren(p, kind, id, kept.ids));
  }

  lemma UpdateAndFinishSameRows(s: State, hadID: bool, adopted: bool)
    requires Smooth(s.script)
    ensures SameRows(s, UpdateAndFinish(s, hadID, adopted))
  {
    hide Sync, ApiUpdate, Patch, SameRows;
    var id, q := s.res.status.resourceID, SettingsRequest(s.res.spec);
    SelfSameRows(s);
    PatchesSameRows(s, s);
    RequestNames(s.res.spec);
    UpdateSameRows(s, id, q);
    var u := ApiUpdate(s, id, q).s;
    SmoothAfter(s, u);
    PatchesSameRows(s, u);
    SyncSameRows(u, Targets);
    var t := Sync(u, Targets).s;
    SameRowsChain(s, u, t);
    SmoothAfter(u, t);
    PatchesSameRows(s, t);
    SyncSameRows(t, Rules);
    var r := Sync(t, Rules).s;
    SameRowsChain(s, t, r);
    SmoothAfter(t, r);
    PatchesSameRows(s, r);
  }

  /** Everything after the check for existence. */
  lemma RestSameRows(s: State, e: Ensured, hadID: bool)
    requires Smooth(e.s.script)
    ensures var g := Get(e.s);
      SameRows(e.s, if e.r.Err? then ReportEnsure(e.s, e.r.kinds)
                    else if !hadID || e.adopted then UpdateAndFinish(e.s, hadID, e.adopted)
                    else if g.r.Err? then g.s else UpdateAndFinish(g.s, hadID, e.adopted))
  {
    hide Patch, Get, ApiList, UpdateAndFinish, SameRows;
    SelfSameRows(e.s);
    PatchesSameRows(e.s, e.s);
    ReadSameRows(e.s, "");
    var g := Get(e.s).s;
    SmoothAfter(e.s, g);
    UpdateAndFinishSameRows(e.s, hadID, e.adopted);
    UpdateAndFinishSameRows(g, hadID, e.adopted);
    SameRowsChain(e.s, g, UpdateAndFinish(g, hadID, e.adopted));
  }

  // ---- When a resource is created ----

  /** A live resource of ours that was not there before. */
  ghost predicate Made(s: State, t: State, id: nat) {
    id in t.remote.resources.live && id !in s.remote.resources.live && t.remote.resources.live[id].ours
  }

  /** What was live stays so, whoever made it, and nothing gets a name but that in the spec. */
  ghost predicate Stays(s: State, t: State) {
    var before, after := s.remote.resources.live, t.remote.resources.live;
    && (forall id :: id in before ==> id in after && after[id].ours == before[id].ours)
    && forall id :: id in after ==> (id in before && after[id].name == before[id].name) || after[id].name == s.stored.spec.name
  }

  /** An undisturbed activation, cut short no earlier than after the creation, creates a resource exactly
      if no live one matches the spec and the recorded one, if live, has another name. */
  lemma CreatesExactly(s: State, script: seq<Event>)
    requires s.remote.Valid() && s.stored.finalizer && !s.stored.deleting && s.site == SiteReady && Resolvable(s)
    requires Smooth(script) && |script| >= CallsToCreate(s.stored.spec)
    ensures var t := Reconcile(s, script);
      Stays(s, t) && ((exists id :: Made(s, t, id)) <==> NothingToAdopt(s))
  {
    hide Smooth, NothingToAdopt, EnsureExists, ReconcileReady, SameRows, Resolvable, CallsToCreate;
    var m := Start(s, script);
    ReconcileIs(s, script);
    var t := Reconcile(s, script);
    var e := EnsureExists(m);
    assert t == ReconcileReady(m);
    if NothingToAdopt(s) {
      var id := EnsureCreates(s, script);
      assert Smooth(e.s.script);
      RestOf(m, e);
      SameRowsMade(s, e.s, t, id);
    } else {
      EnsureFinds(s, script);
      RestOf(m, e);
      SameRowsChain(m, e.s, t);
      SameRowsNoneMade(s, m, t);
    }
  }

  lemma RestOf(m: State, e: Ensured)
    requires e == EnsureExists(m) && Smooth(e.s.script)
    ensures SameRows(e.s, ReconcileReady(m))
  {
    RestSameRows(m, e, m.res.status.resourceID != 0);
    hide EnsureExists, UpdateAndFinish, Get, ReportEnsure, SameRows, Smooth;
  }

  lemma SameRowsMade(s: State, e: State, t: State, id: nat)
    requires Made(s, e, id) && Stays(s, e) && SameRows(e, t) && e.res.spec == e.stored.spec == s.stored.spec
    ensures Made(s, t, id) && Stays(s, t)
  {
  }

  lemma SameRowsNoneMade(s: State, m: State, t: State)
    requires SameRows(m, t) && m.remote == s.remote && m.res == m.stored == s.stored
    ensures Stays(s, t) && forall id :: !Made(s, t, id)
  {
  }

  lemma EnsureCreates(s: State, script: seq<Event>) returns (id: nat)
    requires Poised(s, script) && |script| >= CallsToCreate(s.stored.spec)
    ensures var e := EnsureExists(Start(s, script)); Smooth(e.s.script) && Made(s, e.s, id) && Stays(s, e.s)
    ensures var e := EnsureExists(Start(s, script)); e.s.res.spec == e.s.stored.spec == s.stored.spec
  {
    hide Poised, Creation, Populate, EnsureExists, CallsToCreate, Patch, Fuel, Smooth, NothingToAdopt, Resolvable, SameRows;
    var m := Start(s, script);
    StartPoised(s, script, |script|);
    CreationSmooth(m, |script| - CallsToCreate(s.stored.spec));
    var c := Creation(m);
    id := c.id;
    FuelIsSmooth(c.s, |script| - CallsToCreate(s.stored.spec));
    AfterCreationKeeps(c);
    CreatedIsMade(s, m, c.s, c.id) by { PoisedValid(s, script); }
    SmoothAfter(c.s, AfterCreation(c).s);
    SameSpecs(c.s, AfterCreation(c).s);
    SameRowsMade(s, c.s, AfterCreation(c).s, id);
  }

  lemma SameSpecs(s: State, t: State)
    requires SameRows(s, t) && s.res.spec == s.stored.spec
    ensures t.res.spec == t.stored.spec == s.stored.spec
  {
  }

  lemma PoisedValid(s: State, script: seq<Event>)
    requires Poised(s, script)
    ensures s.remote.Valid()
  {
  }

  lemma FuelIsSmooth(s: State, n: nat)
    requires Fuel(s, n)
    ensures Smooth(s.script)
  {
  }

  lemma CreatedIsMade(s: State, m: State, c: State, id: nat)
    requires CreatedAnew(m, c, id) && m.remote == s.remote && m.stored == s.stored && s.remote.Valid()
    ensures Made(s, c, id) && Stays(s, c)
  {
  }

  /** The new resource is recorded and populated; it is only deleted again if recording it fails, and
      that takes a call that is not answered. */
  lemma AfterCreationKeeps(c: Created)
    requires Smooth(c.s.script)
    ensures SameRows(c.s, AfterCreation(c).s)
  {
    hide Patch, Populate, Smooth, SameRows, ApiDelete;
    var after := c.s.res.status.(resourceID := c.id, phase := Creating);
    PatchSameRows(c.s, after);
    var p := Patch(c.s, after);
    SmoothAfter(c.s, p.s);
    RollsBackOnlyHalted(c.s, after, c.id);
    PopulateSameRows(p.s, c.id);
    SameRowsChain(c.s, p.s, Populate(p.s, c.id).s);
  }

  lemma RollsBackOnlyHalted(s: State, after: Status, id: nat)
    requires Smooth(s.script)
    ensures var p := Patch(s, after); p.r.Err? ==> ApiDelete(p.s, id).s == p.s
  {
    if !Halted(s) { AdvanceSameRows(s, PatchStatus); }
    hide Advance, MergeStatus, Smooth;
  }

  lemma EnsureFinds(s: State, script: seq<Event>)
    requires s.remote.Valid() && Smooth(script) && !NothingToAdopt(s)
    ensures var m := Start(s, script); SameRows(m, EnsureExists(m).s) && Smooth(EnsureExists(m).s.script)
  {
    hide Smooth, SameRows, Create, Patch, Listing, FindResource, Lists;
    var m := Start(s, script);
    ReadSameRows(m, s.stored.spec.name);
    var l := ApiList(m, s.stored.spec.name);
    SmoothAfter(m, l.s);
    PatchesSameRows(m, l.s);
    SomethingListed(s);
    ListedItems(m, s.stored.spec.name);
    forall after { SmoothAfter(m, Patch(l.s, after).s); }
  }

  lemma ListedItems(s: State, name: string)
    requires Smooth(s.script)
    ensures var l := ApiList(s, name);
      l.s.res == s.res && (l.r.Ok? ==> l.items == Listing(s.remote.resources.live, name, s.remote.resources.next))
  {
    if !Halted(s) { AdvanceSameRows(s, ListResources); }
    hide Listing;
  }

  lemma SomethingListed(s: State)
    requires s.remote.Valid() && !NothingToAdopt(s)
    ensures var items := Listing(s.remote.resources.live, s.stored.spec.name, s.remote.resources.next);
      FindResource(items, s.stored.spec).Some? || (s.stored.status.resourceID != 0 && Lists(items, s.stored.status.resourceID))
  {
    var live, spec := s.remote.resources.live, s.stored.spec;
    var items := Listing(live, spec.name, s.remote.resources.next);
    if id :| id in live && Matching(live[id], spec) {
      assert ResourceItem(id, spec.name, live[id].fullDomain) in items;
    } else {
      var id := s.stored.status.resourceID;
      assert ResourceItem(id, spec.name, live[id].fullDomain) in items;
    }
    hide Listing, FindResource;
  }

  // ---- Renaming ----

  /** After the rename of a settled object the next undisturbed activation creates a second resource
      exactly if no live one matches the new spec; the tracked one stays live in any case. */
  lemma RenamedExactly(s: State, spec: Spec, script: seq<Event>)
    requires Settled(s) && spec.name != s.stored.spec.name && Resolvable(ApplyEnv(s, EditSpec(spec)))
    requires Smooth(script) && |script| >= CallsToCreate(spec)
    ensures var e := ApplyEnv(s, EditSpec(spec)); var t := Reconcile(e, script); var first := s.stored.status.resourceID;
      && first in t.remote.resources.live && t.remote.resources.live[first].ours == s.remote.resources.live[first].ours
      && ((exists id :: Made(s, t, id)) <==> forall id :: id in s.remote.resources.live ==> !Matching(s.remote.resources.live[id], spec))
  {
    hide Smooth, Reconcile, Honest, Truthful, Resolvable, CallsToCreate, Base, Unique, Matching;
    EngagedWhenCurrent(s);
    RidMatches(s);
    var e := ApplyEnv(s, EditSpec(spec));
    SettledValid(s);
    CreatesExactly(e, script);
    assert NothingToAdopt(e) <==> forall id :: id in s.remote.resources.live ==> !Matching(s.remote.resources.live[id], spec) by {
      NameOf(s);
    }
    var t := Reconcile(e, script);
    assert forall id :: Made(e, t, id) == Made(s, t, id);
  }

  lemma SettledValid(s: State)
    requires Settled(s)
    ensures s.remote.Valid()
  {
  }

  lemma NameOf(s: State)
    requires Settled(s) && s.stored.status.resourceID in s.remote.resources.live
    ensures s.remote.resources.live[s.stored.status.resourceID].name == s.stored.spec.name
  {
  }

  /** An object that has its finalizer, or gets it in this step. */
  lemma FinalizerStep(s: State) returns (step: Step)
    requires Live(s) && Truthful(s) && !s.stored.deleting && s.site == SiteReady
    ensures step == SetSite(SiteReady) || step == Activate(Plain(1))
    ensures var t := Do(s, step);
      && t.stored == s.stored.(finalizer := true) && t.remote == s.remote && t.site == s.site
      && Live(t) && Truthful(t)
  {
    hide ReconcileLive, Backed, Truthful, Unique, Base;
    if s.stored.finalizer {
      step := SetSite(SiteReady);
      SameSite(s, SiteReady);
    } else {
      step := Activate(Plain(1));
      SmoothIsQuiet(Plain(1));
      QuietIsTame(Plain(1), s.stored.spec);
      QuietIsGentle(Plain(1), s.stored.spec);
      ActivationKeeps(s, Plain(1));
      SetFinalizerSmooth(Start(s, Plain(1)), 0);
      var f := SetFinalizer(Start(s, Plain(1)), true);
      assert f.s.script == [];
      HaltedLive(f.s);
    }
  }

  lemma HaltedLive(s: State)
    requires Halted(s)
    ensures ReconcileLive(s) == Halt(s)
  {
    hide UpdateAndFinish, Create, FindResource;
  }

  lemma InitNotDeleting(s: State)
    requires Init(s)
    ensures !s.stored.deleting && s.stored.status.resourceID == 0
  {
    hide Base;
  }

  lemma SameNothing(s: State, t: State)
    requires NothingToAdopt(s) && t.remote == s.remote && t.stored == s.stored.(finalizer := true)
    ensures NothingToAdopt(t)
  {
  }

  lemma LiveValid(s: State)
    requires Live(s)
    ensures s.remote.Valid()
  {
    hide Unique, Backed;
  }

  lemma BudgetCreates(s: State)
    ensures Budget(s) >= CallsToCreate(s.stored.spec)
  {
  }

  /** What is ours is what is tracked. */
  lemma OursIsTracked(s: State, id: nat)
    requires Settled(s) && id in s.remote.resources.live && s.remote.resources.live[id].ours
    ensures id == s.stored.status.resourceID
  {
    EngagedWhenCurrent(s);
    RidMatches(s);
    hide Base, Honest, Truthful, Matching;
  }

  lemma StillResolvable(s: State, script: seq<Event>, spec: Spec)
    requires Live(s) && !s.stored.deleting && Smooth(script) && !Reconcile(s, script).stored.deleting
    requires NeedsDomain(spec) ==> Resolve(s.remote.domains, spec.fullDomain).Resolved?
    requires Reconcile(s, script).stored.spec != spec
    ensures Resolvable(ApplyEnv(Reconcile(s, script), EditSpec(spec)))
  {
    SmoothIsQuiet(script);
    QuietIsTame(script, s.stored.spec);
    ActivationKeeps(s, script);
    hide Reconcile, Live, Truthful, Resolve;
  }

  lemma OtherNames(s: State, t: State, spec: Spec)
    requires Stays(s, t) && spec.name != s.stored.spec.name
    requires forall id :: id in s.remote.resources.live ==> s.remote.resources.live[id].name != spec.name
    ensures forall id :: id in t.remote.resources.live ==> !Matching(t.remote.resources.live[id], spec)
  {
  }

  /** From every initial state in which nothing matches: a rename between two undisturbed activations
      leads to two live resources of the reconciler's own making, unless the new name is in use. */
  lemma TwoInRuns(s: State, spec: Spec) returns (trace: seq<State>, steps: seq<Step>)
    requires Init(s) && s.site == SiteReady && Resolvable(s) && NothingToAdopt(s) && spec.name != s.stored.spec.name
    requires NeedsDomain(spec) ==> Resolve(s.remote.domains, spec.fullDomain).Resolved?
    requires forall id :: id in s.remote.resources.live ==> s.remote.resources.live[id].name != spec.name
    ensures IsRun(trace, steps) && trace[0] == s
    ensures |steps| == 4 && steps[0] in {SetSite(SiteReady), Activate(Plain(1))} && steps[2] == Act(EditSpec(spec))
    ensures steps[1].Activate? && Smooth(steps[1].script) && steps[3].Activate? && Smooth(steps[3].script)
    ensures var live := trace[4].remote.resources.live; exists a, b :: a != b && a in live && b in live && live[a].ours && live[b].ours
  {
    hide Init, Reconcile, Resolvable, NothingToAdopt, Live, Truthful, Smooth, CallsToCreate, Base, SpecRealised, Matching, Resolve, ApplyEnv;
    InitKeeps(s);
    InitNotDeleting(s);
    var step := FinalizerStep(s);
    var u := Do(s, step);
    SameResolvable(s, u);
    SameNothing(s, u);
    var go, again := Plain(Budget(u)), Plain(CallsToCreate(spec));
    Converges(u, go);
    LiveValid(u);
    BudgetCreates(u);
    CreatesExactly(u, go);
    var v := Reconcile(u, go);
    var b :| Made(u, v, b);
    OursIsTracked(v, b);
    StillResolvable(u, go, spec);
    RenamedExactly(v, spec, again);
    var e := ApplyEnv(v, EditSpec(spec));
    var t := Reconcile(e, again);
    OtherNames(u, v, spec);
    var c :| Made(v, t, c);
    assert b != c && b in t.remote.resources.live && c in t.remote.resources.live;
    trace, steps := [s, u, v, e, t], [step, Activate(go), Act(EditSpec(spec)), Activate(again)];
  }
}
