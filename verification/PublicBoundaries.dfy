/** Where the PublicResource reconciler stops short of its promises, and why the theorems of
    PublicRuns assume what they assume. */
module PublicBoundaries {
  import opened Shared
  import opened Domains
  import opened Server
  import opened PublicResource
  import opened PublicSafety
  import opened PublicChildren
  import opened PublicProtocol
  import opened PublicRuns
  import opened PublicConvergence
  import opened PublicCleanup

  // ---- Optional settings ----

  /** What a spec asks for, optional settings included. */
  function Wanted(spec: Spec): Settings {
    var a := spec.auth;
    Settings(spec.enabled, spec.ssl, a.Auth? && a.sso, false, a.Auth? && |a.whitelist| > 0, |spec.rules| > 0,
             spec.tlsServerName, spec.hostHeader, if a.Auth? && a.sso then a.autoLoginIdp else 0)
  }

  /** A settings update makes an HTTP resource what its spec asks for exactly if no optional setting
      that the spec leaves out is still in force: such a setting is never cleared. */
  lemma SettingsFollowTheSpec(row: ResourceRow, spec: Spec)
    requires spec.protocol == HTTP
    ensures var w := Wanted(spec);
      Apply(row, SettingsRequest(spec)).settings == w <==>
        && (w.tlsServerName == "" ==> row.settings.tlsServerName == "")
        && (w.hostHeader == "" ==> row.settings.hostHeader == "")
        && (w.skipToIdp == 0 ==> row.settings.skipToIdp == 0)
        && (!w.emailWhitelist ==> !row.settings.emailWhitelist)
    ensures Apply(row, SettingsRequest(spec)).name == (if spec.name != "" then spec.name else row.name)
  {
    var a := Apply(row, SettingsRequest(spec)).settings;
    var w := Wanted(spec);
    assert a.enabled == w.enabled && a.ssl == w.ssl && a.sso == w.sso && a.blockAccess == w.blockAccess && a.applyRules == w.applyRules;
    assert a.tlsServerName == w.tlsServerName <==> (w.tlsServerName == "" ==> row.settings.tlsServerName == "");
    assert a.hostHeader == w.hostHeader <==> (w.hostHeader == "" ==> row.settings.hostHeader == "");
    assert a.skipToIdp == w.skipToIdp <==> (w.skipToIdp == 0 ==> row.settings.skipToIdp == 0);
    assert a.emailWhitelist == w.emailWhitelist <==> (!w.emailWhitelist ==> !row.settings.emailWhitelist);
  }

  /** Of other resources only the name and the enabled flag are managed. */
  lemma BasicSettingsOnly(row: ResourceRow, spec: Spec)
    requires spec.protocol != HTTP && spec.name != ""
    ensures var after := Apply(row, SettingsRequest(spec));
      && after.name == spec.name && after.settings.enabled == spec.enabled
      && after == row.(name := after.name, settings := row.settings.(enabled := after.settings.enabled))
  {
  }

  // ---- Creating anew ----

  /** No listing leads the reconciler to an existing resource. */
  ghost predicate NothingToAdopt(s: State) {
    var live := s.remote.resources.live;
    && (forall id :: id in live ==> !Matching(live[id], s.stored.spec))
    && (s.stored.status.resourceID in live ==> live[s.stored.status.resourceID].name != s.stored.spec.name)
  }

  predicate NeedsDomain(spec: Spec) {
    spec.protocol == HTTP && spec.fullDomain != ""
  }

  /** The calls up to and including the creation of the resource. */
  function CallsToCreate(spec: Spec): nat {
    if NeedsDomain(spec) then 4 else 3
  }

  /** Poised to run the whole protocol, undisturbed. */
  ghost predicate Poised(s: State, script: seq<Event>) {
    && s.remote.Valid() && s.stored.finalizer && !s.stored.deleting && s.site == SiteReady && Resolvable(s)
    && NothingToAdopt(s) && Smooth(script)
  }

  lemma ListingEmptyHanded(s: State, script: seq<Event>)
    requires Poised(s, script)
    ensures var items := Listing(s.remote.resources.live, s.stored.spec.name, s.remote.resources.next);
      && FindResource(items, s.stored.spec).None?
      && (s.stored.status.resourceID != 0 ==> !Lists(items, s.stored.status.resourceID))
  {
    var items := Listing(s.remote.resources.live, s.stored.spec.name, s.remote.resources.next);
    forall item | item in items ensures !IsMatch(item.name, item.fullDomain, s.stored.spec) {
      var i :| 0 <= i < |items| && items[i] == item;
      assert !Matching(s.remote.resources.live[item.id], s.stored.spec);
    }
    hide Listing, FindResource;
  }

  /** t is s after a new resource of ours was created under an ID not used before. */
  ghost predicate CreatedAnew(s: State, t: State, id: nat) {
    && s.remote.resources.next <= id < t.remote.resources.next && id in t.remote.resources.live
    && t.remote.resources.live[id].ours && t.remote.resources.live[id].name == s.stored.spec.name
    && t.remote.resources.live[id].settings == s.remote.defaults
    && t.remote.resources.live == s.remote.resources.live[id := t.remote.resources.live[id]]
    && t.remote.targets == s.remote.targets && t.remote.rules == s.remote.rules && t.site == s.site
  }

  /** The calls of ensureExists up to the creation, when there is nothing to adopt. */
  ghost function Creation(s: State): Created {
    var l := ApiList(s, s.res.spec.name).s;
    var p := Patch(l, l.res.status.(phase := Creating)).s;
    var d := ChooseDomain(p);
    ApiCreate(d.s, NewRequest(d.s.res.spec, d.id, d.subdomain))
  }

  function AfterCreation(c: Created): Outcome {
    var p := Persist(c.s, c.id);
    if p.r.Err? then Outcome(p.s, p.r) else Populate(p.s, p.id)
  }

  lemma CreationSmooth(s: State, n: nat)
    requires Poised(s, s.script) && Fuel(s, CallsToCreate(s.stored.spec) + n) && s.res == s.stored
    ensures var c := Creation(s);
      && c.r.Ok? && Fuel(c.s, n) && |c.s.script| + CallsToCreate(s.stored.spec) == |s.script|
      && c.s.res == c.s.stored == s.stored.(status := s.stored.status.(phase := Creating))
      && CreatedAnew(s, c.s, c.id) && c.id + 1 == c.s.remote.resources.next
      && EnsureExists(s) == Ensured(AfterCreation(c).s, AfterCreation(c).r, false)
  {
    hide Listing, FindResource, Resolve, Compose, NothingToAdopt, Persist, Populate, AfterCreation, Lists;
    ListingEmptyHanded(s, s.script);
    var dom := if NeedsDomain(s.stored.spec) then 1 else 0;
    SmoothCall(s, ListResources, 2 + dom + n);
    var l := ApiList(s, s.res.spec.name).s;
    SmoothCall(l, PatchStatus, 1 + dom + n);
    var p := Patch(l, l.res.status.(phase := Creating)).s;
    MergeAll(l.res.status, l.res.status.(phase := Creating));
    if dom == 1 { SmoothCall(p, ListDomains, 1 + n); }
    var d := ChooseDomain(p);
    SmoothCall(d.s, CreateResource, n);
    hide Advance, MergeStatus;
    assert AfterCreation(Creation(s)) == Create(l) by { CreateIs(l); }
  }

  lemma CreateIs(l: State)
    requires Patch(l, l.res.status.(phase := Creating)).r.Ok? && ChooseDomain(Patch(l, l.res.status.(phase := Creating)).s).r.Ok?
    ensures var d := ChooseDomain(Patch(l, l.res.status.(phase := Creating)).s);
      var c := ApiCreate(d.s, NewRequest(d.s.res.spec, d.id, d.subdomain));
      c.r.Ok? ==> Create(l) == AfterCreation(c)
  {
    hide Patch, ChooseDomain, ApiCreate, Persist, Populate, NewRequest;
  }

  lemma StartPoised(s: State, script: seq<Event>, n: nat)
    requires Poised(s, script) && n <= |script|
    ensures Poised(Start(s, script), script) && Fuel(Start(s, script), n)
    ensures s.stored.finalizer && !s.stored.deleting && s.site == SiteReady
  {
    hide Smooth, Matching;
  }

  /** The last ID handed out to a resource. */
  function Newest(s: State): nat {
    if s.remote.resources.next == 0 then 0 else s.remote.resources.next - 1
  }

  /** Stopped right after it created a resource: the resource is live, but not recorded. */
  lemma StoppedAfterCreate(s: State, script: seq<Event>)
    requires Poised(s, script) && |script| == CallsToCreate(s.stored.spec)
    ensures var t := Reconcile(s, script);
      && CreatedAnew(s, t, Newest(t))
      && t.stored == s.stored.(status := s.stored.status.(phase := Creating))
  {
    hide Poised, CreatedAnew, Creation, Populate, EnsureExists, CallsToCreate, UpdateAndFinish, Reconcile, Patch,
         Persist, Get, AfterCreation, NothingToAdopt, Smooth, Fuel, Resolvable;
    var m := Start(s, script);
    StartPoised(s, script, |script|);
    CreationSmooth(m, 0);
    var c := Creation(m);
    assert c.s.script == [];
    AfterHalted(c);
    StopsThere(s, script, c.s.(crashed := true));
    CreatedHalt(m, s, c.s, c.id);
  }

  lemma StopsThere(s: State, script: seq<Event>, h: State)
    requires !s.stored.deleting && s.stored.finalizer && s.site == SiteReady && h.crashed
    requires EnsureExists(Start(s, script)) == Ensured(h, Err({}), false)
    ensures Reconcile(s, script) == h
  {
    hide EnsureExists, UpdateAndFinish, Patch;
    ReconcileIs(s, script);
    HaltedStays(h, 0);
    assert Halt(h) == h;
  }

  lemma AfterHalted(c: Created)
    requires Halted(c.s)
    ensures AfterCreation(c) == Outcome(c.s.(crashed := true), Err({}))
  {
    hide Populate, Patch, ApiDelete;
    HaltedStays(c.s, c.id);
  }

  /** A stopped process has no effect. */
  lemma HaltedStays(s: State, id: nat)
    requires Halted(s)
    ensures Persist(s, id) == Created(Halt(s), Err({}), 0) && (forall after :: Patch(s, after) == Outcome(Halt(s), Err({})))
    ensures Get(s) == Outcome(Halt(s), Err({}))
  {
  }

  lemma CreatedHalt(m: State, s: State, c: State, id: nat)
    requires CreatedAnew(m, c, id) && m.remote == s.remote && m.stored == s.stored && m.site == s.site
    ensures CreatedAnew(s, Halt(c), id)
  {
  }

  // ---- A created resource that is not recorded ----

  /** If the object is deleted before a created resource is recorded, cleanup leaves the resource
      behind for good. */
  lemma OrphanSurvivesCleanup(s: State, script: seq<Event>, cleanup: seq<Event>)
    requires Poised(s, script) && |script| == CallsToCreate(s.stored.spec) && s.stored.status.resourceID == 0
    requires Smooth(cleanup) && 2 <= |cleanup|
    ensures var m := Reconcile(s, script); var t := Reconcile(ApplyEnv(m, RequestDelete), cleanup);
      t.stored.Gone() && Newest(m) in t.remote.resources.live && t.remote.resources.live[Newest(m)].ours
  {
    hide Reconcile, Poised, Smooth;
    StoppedAfterCreate(s, script);
    StartPoised(s, script, 0) by { hide *; }
    assert s.remote.Valid() && s.stored.finalizer by { PoisedFacts(s, script); }
    var m := Reconcile(s, script);
    CleanupCompletes(ApplyEnv(m, RequestDelete), cleanup);
  }

  lemma PoisedFacts(s: State, script: seq<Event>)
    requires Poised(s, script)
    ensures s.remote.Valid() && s.stored.finalizer && !s.stored.deleting && s.site == SiteReady && Smooth(script)
  {
  }

  /** If the object is renamed, the next activation creates a second resource and the first stays
      live, under an ID that the status then forgets. */
  lemma RenamingMakesTwo(s: State, spec: Spec, script: seq<Event>)
    requires var e := ApplyEnv(s, EditSpec(spec)); Poised(e, script) && |script| == CallsToCreate(spec) && e.stored.spec == spec
    requires var id := s.stored.status.resourceID; id in s.remote.resources.live && s.remote.resources.live[id].ours
    ensures var t := Reconcile(ApplyEnv(s, EditSpec(spec)), script);
      var a, b := s.stored.status.resourceID, Newest(t);
      && a != b && a in t.remote.resources.live && b in t.remote.resources.live
      && t.remote.resources.live[a].ours && t.remote.resources.live[b].ours
  {
    hide Reconcile, Smooth, Matching;
    StoppedAfterCreate(ApplyEnv(s, EditSpec(spec)), script);
  }

  // ---- Hashes and generations outlive their resource ----

  /** Stopped right after it recorded a new resource: the hashes and the observed generation of the
      resource before it are still in the status. */
  lemma StoppedAfterRecord(s: State, script: seq<Event>)
    requires Poised(s, script) && |script| == CallsToCreate(s.stored.spec) + 1
    ensures var t := Reconcile(s, script);
      && CreatedAnew(s, t, Newest(t))
      && t.stored == s.stored.(status := s.stored.status.(resourceID := Newest(t), phase := Creating))
  {
    hide Poised, CreatedAnew, Creation, Populate, EnsureExists, CallsToCreate, UpdateAndFinish, Reconcile, Patch, Persist, Get,
         AfterCreation, NothingToAdopt, Smooth, Fuel, Resolvable;
    var m := Start(s, script);
    StartPoised(s, script, |script|);
    CreationSmooth(m, 1);
    var c := Creation(m);
    PersistsThenHalts(c);
    var p := Persist(c.s, c.id).s;
    StopsThere(s, script, p.(crashed := true));
    CreatedHalt(m, s, c.s, c.id);
    RecordedHalt(s, Halt(c.s), p, c.id);
  }

  lemma PersistsThenHalts(c: Created)
    requires Fuel(c.s, 1) && |c.s.script| == 1 && c.s.res == c.s.stored
    ensures var p := Persist(c.s, c.id);
      && AfterCreation(c) == Outcome(p.s.(crashed := true), Err({}))
      && p.s.stored == c.s.stored.(status := c.s.stored.status.(resourceID := c.id, phase := Creating))
      && p.s.remote == c.s.remote && p.s.site == c.s.site
  {
    hide MergeStatus, ApiUpdate, PopulateChildren;
    SmoothCall(c.s, PatchStatus, 0);
    var after := c.s.res.status.(resourceID := c.id, phase := Creating);
    MergeAll(c.s.res.status, after);
  }

  lemma RecordedHalt(s: State, h: State, p: State, id: nat)
    requires CreatedAnew(s, h, id) && p.remote == h.remote && p.site == h.site
    ensures CreatedAnew(s, p.(crashed := true), id)
  {
  }

  /** One way in which deletions by others go wrong (PublicOutage has all): the reconciler can record a new
      resource, fail, and from then on report the object ready although the new resource has none of
      its targets; it will not create them until the spec is edited. */
  lemma SilentOutage(s: State, script: seq<Event>, again: seq<Event>)
    requires Poised(s, script) && |script| == CallsToCreate(s.stored.spec) + 1
    requires s.stored.status.observedGeneration == s.stored.generation && s.stored.spec.targets != []
    requires Smooth(again) && |again| == 3
    ensures var t := Reconcile(Reconcile(s, script), again);
      && MarkedReady(t.stored) && t.stored.spec == s.stored.spec && t.stored.status.resourceID in t.remote.resources.live
      && (forall id :: id in t.remote.targets.live ==> t.remote.targets.live[id].resource != t.stored.status.resourceID)
      && !SpecRealised(t)
  {
    hide Reconcile, Poised, Smooth, Fuel;
    StoppedAfterRecord(s, script);
    PoisedFacts(s, script);
    var u := Reconcile(s, script);
    ReadyAgain(u, again);
    hide *;
    var t := Reconcile(u, again);
    var id := t.stored.status.resourceID;
    RealisedHasTarget(t);
  }

  lemma RealisedHasTarget(s: State)
    requires s.stored.spec.targets != []
    ensures SpecRealised(s) ==>
      exists id :: id in s.remote.targets.live && s.remote.targets.live[id].resource == s.stored.status.resourceID
  {
    if SpecRealised(s) {
      var first := s.stored.status.targets.ids[0];
      assert s.remote.targets.live[first] == Row(s, Targets, s.stored.status.resourceID, s.stored.spec.targets[0], 0);
    }
  }

  /** A recorded resource that is still there under its name is enough to be marked ready. */
  lemma ReadyAgain(s: State, script: seq<Event>)
    requires s.stored.finalizer && !s.stored.deleting && s.site == SiteReady
    requires s.stored.status.observedGeneration == s.stored.generation
    requires var id := s.stored.status.resourceID;
      0 < id < s.remote.resources.next && id in s.remote.resources.live && s.remote.resources.live[id].name == s.stored.spec.name
    requires Smooth(script) && 3 <= |script|
    ensures var t := Reconcile(s, script);
      && MarkedReady(t.stored) && t.remote == s.remote && t.stored == s.stored.(status := t.stored.status)
      && SameClaims(t.stored.status, s.stored.status)
  {
    hide FindResource, Update, Create;
    var m := Start(s, script);
    ReconcileIs(s, script);
    SmoothCall(m, ListResources, 2);
    var l := Advance(m, ListResources);
    var id := s.stored.status.resourceID;
    var items := Listing(s.remote.resources.live, s.stored.spec.name, s.remote.resources.next);
    assert ResourceItem(id, s.stored.spec.name, s.remote.resources.live[id].fullDomain) in items;
    assert Lists(items, id);
    SmoothCall(l, GetObject, 1);
    var g := Advance(l, GetObject);
    SmoothCall(g, PatchStatus, 0);
    hide Listing, Lists;
  }
}
