/** What the next undisturbed activation does in a state that deletions by others can leave behind, where
    the status may claim what nothing on the server backs: it reports ready, and ReadyExactly says when
    that is true. PublicDrops shows that every state of a run with such deletions is one of these. */
module PublicLoose {
  import opened Shared
  import opened Domains
  import opened Server
  import opened PublicResource
  import opened PublicSafety
  import opened PublicChildren
  import opened PublicSteps
  import opened PublicProtocol
  import opened PublicRuns
  import opened PublicConvergence
  import opened PublicTwins

  // ---- States in which claims need not be backed ----

  ghost predicate Known(s: State, kind: Kind) {
    forall id :: id in s.stored.status.Kept(kind).ids ==> id < s.remote.Table(kind).next
  }

  /** What is left of the invariant once others delete resources: the status may claim children, hashes
      and an observed generation that nothing on the server backs any more. */
  ghost predicate Loose(s: State) {
    var st, live := s.stored.status, s.remote.resources.live;
    && Base(s) && Unique(s) && Vouched(st) && st.observedGeneration <= |s.versions|
    && (st.resourceID in live ==> Matching(live[st.resourceID], s.stored.spec))
    && Known(s, Targets) && Known(s, Rules)
  }

  /** Nothing keeps an activation from doing its work. */
  ghost predicate Eligible(s: State) {
    s.stored.finalizer && !s.stored.deleting && s.site == SiteReady && Resolvable(s)
  }

  /** The recorded resource, if any, is gone. */
  ghost predicate Stranded(s: State) {
    Loose(s) && s.stored.status.resourceID !in s.remote.resources.live
  }

  lemma LiveIsLoose(s: State)
    requires Live(s)
    ensures Loose(s)
  {
    forall kind ensures Known(s, kind) {
      assert Honest(s, s.stored.status, kind) by { if kind == Targets {} }
      assert s.remote.Table(kind).Valid();
    }
    hide Unique, Recomposes;
  }

  /** Others may delete any resource at any time. */
  lemma DropIsLoose(s: State, id: nat)
    requires Loose(s)
    ensures var t := ApplyEnv(s, DropResource(id)); Loose(t) && (id == s.stored.status.resourceID ==> Stranded(t))
  {
    hide Recomposes, Matching;
  }

  // ---- One undisturbed swap ----

  ghost predicate ChildrenRealised(s: State, kind: Kind) {
    Realised(s, kind, s.stored.status.resourceID, s.stored.spec.Children(kind), s.stored.status.Kept(kind).ids)
  }

  /** The recorded hash is that of the spec, so the children count as realised. */
  predicate Trusted(s: State, kind: Kind) {
    s.stored.status.Kept(kind).hash == HashOf(s.stored.spec.Children(kind))
  }

  /** In step with the stored object, with calls left. */
  ghost predicate Ready1(s: State, n: nat) {
    Loose(s) && s.res == s.stored && Fuel(s, n) && s.stored.status.resourceID in s.remote.resources.live
  }

  /** What one swap changes. */
  ghost predicate SwappedOnly(s: State, t: State, kind: Kind) {
    && t.stored == s.stored.(status := s.stored.status.WithKept(kind, t.stored.status.Kept(kind)))
    && t.remote.resources == s.remote.resources && t.remote.Table(Other(kind)) == s.remote.Table(Other(kind))
    && t.siteID == s.siteID
  }

  lemma QuietStored(s: State, t: State)
    requires Base(s) && Base(t) && Follows(s, t) && Quiet(s.script) && t.stored.status == s.stored.status
    ensures t.stored == s.stored
  {
    hide Recomposes;
  }

  lemma LooseSound(s: State, n: nat)
    requires Loose(s) && Fuel(s, n)
    ensures Sound(s) && Quiet(s.script) && Tame(s.script, s.stored.spec)
  {
    SmoothIsQuiet(s.script);
    QuietIsTame(s.script, s.stored.spec);
    hide Smooth;
  }

  /** A served patch of the status alone. */
  lemma PatchLoose(s: State, after: Status, n: nat)
    requires Sound(s) && s.res == s.stored && Fuel(s, n + 1)
    ensures var p := Patch(s, after);
      && p.r.Ok? && Sound(p.s) && Fuel(p.s, n) && p.s.stored == s.stored.(status := after) && p.s.res == p.s.stored
      && p.s.remote == s.remote && p.s.siteID == s.siteID && p.s.versions == s.versions && p.s.site == s.site
  {
    SmoothCall(s, PatchStatus, n);
    MergeAll(s.res.status, after);
    var p := Patch(s, after).s;
    forall i | 0 <= i < |p.script| ensures TameEnv(p.script[i].env, p.stored.spec) {
      assert p.script[i] == s.script[i + 1];
    }
    hide Advance, MergeStatus, Recomposes;
  }

  lemma RealisedAfter(b: State, t: State, kind: Kind, resource: nat, specs: seq<ChildSpec>, ids: seq<nat>, gone: seq<nat>)
    requires Realised(b, kind, resource, specs, ids) && t.siteID == b.siteID
    requires forall id :: id in b.remote.Table(kind).live && id !in gone ==>
      id in t.remote.Table(kind).live && t.remote.Table(kind).live[id] == b.remote.Table(kind).live[id]
    requires forall k :: 0 <= k < |ids| ==> ids[k] !in gone
    ensures Realised(t, kind, resource, specs, ids)
  {
  }

  lemma NewKnown(s: State, kind: Kind, resource: nat, ids: seq<nat>, base: nat)
    requires NewChildren(s, kind, resource, ids, base) && s.remote.Table(kind).Valid()
    ensures forall id :: id in ids ==> base <= id < s.remote.Table(kind).next
  {
  }

  /** A swap that nothing disturbs: trusted children are left alone, others are created anew. */
  lemma SyncLoose(s: State, kind: Kind, n: nat)
    requires Ready1(s, n + SyncCost(s, kind))
    ensures var t := Sync(s, kind);
      && t.r.Ok? && Ready1(t.s, n) && SwappedOnly(s, t.s, kind)
      && (ChildrenRealised(t.s, kind) <==> (Trusted(s, kind) ==> ChildrenRealised(s, kind)))
  {
    hide Base, Unique, Tame, Grew, CreateChildren, DeleteChildren, Patch, NewChildren, Realised, Follows, Vouched;
    if !Trusted(s, kind) { SyncAnew(s, kind, n); }
  }

  lemma SyncAnew(s: State, kind: Kind, n: nat)
    requires Ready1(s, n + SyncCost(s, kind)) && !Trusted(s, kind)
    ensures var t := Sync(s, kind);
      t.r.Ok? && Ready1(t.s, n) && SwappedOnly(s, t.s, kind) && ChildrenRealised(t.s, kind)
  {
    hide Base, Unique, Tame, Grew, CreateChildren, DeleteChildren, Patch, NewChildren, Realised, Vouched;
    var specs, kept, id := s.stored.spec.Children(kind), s.stored.status.Kept(kind), s.stored.status.resourceID;
    var base := s.remote.Table(kind).next;
    LooseSound(s, n + SyncCost(s, kind));
    CreateChildrenSmooth(s, kind, id, specs, n + 1 + |kept.ids|);
    CreateChildrenKeeps(s, kind, id, specs);
    var b := CreateChildren(s, kind, id, specs);
    GrewFacts(s, b.s, kind);
    GrewAside(s, b.s, kind);
    QuietStored(s, b.s);
    SoundValid(b.s, kind);
    NewKnown(b.s, kind, id, b.ids, base);
    var after := s.stored.status.WithKept(kind, Tracked(b.ids, HashOf(specs)));
    PatchLoose(b.s, after, n + |kept.ids|);
    var p := Patch(b.s, after).s;
    DeleteChildrenSmooth(p, kind, id, kept.ids, n);
    DeleteChildrenKeeps(p, kind, id, kept.ids);
    var t := DeleteChildren(p, kind, id, kept.ids);
    LooseSound1(p, n + |kept.ids|);
    ShrankStored(p, t, kind, kept.ids);
    KnownNot(s, kind, b.ids);
    ShrankRows(p, t, kind, kept.ids);
    RealisedAfter(b.s, t, kind, id, specs, b.ids, kept.ids);
    SwappedLoose(s, b.s, t, kind, b.ids);
  }

  lemma GrewAside(s: State, t: State, kind: Kind)
    requires Grew(s, t, kind)
    ensures t.remote.Table(Other(kind)) == s.remote.Table(Other(kind))
  {
  }

  lemma SoundValid(s: State, kind: Kind)
    requires Sound(s)
    ensures s.remote.Table(kind).Valid() && Base(s)
  {
  }

  lemma LooseSound1(s: State, n: nat)
    requires Fuel(s, n)
    ensures Quiet(s.script)
  {
    SmoothIsQuiet(s.script);
  }

  lemma ShrankStored(s: State, t: State, kind: Kind, ids: seq<nat>)
    requires Shrank(s, t, kind, ids) && Sound(s) && Sound(t) && Quiet(s.script)
    ensures t.stored == s.stored && t.res == s.res && t.remote.resources == s.remote.resources && t.siteID == s.siteID
    ensures t.remote.Table(Other(kind)) == s.remote.Table(Other(kind)) && t.remote.Table(kind).next == s.remote.Table(kind).next
    ensures t.versions == s.versions
  {
    QuietStored(s, t);
    hide Unique, Tame, Base;
  }

  lemma ShrankRows(s: State, t: State, kind: Kind, ids: seq<nat>)
    requires Shrank(s, t, kind, ids)
    ensures forall id :: id in s.remote.Table(kind).live && id !in ids ==>
      id in t.remote.Table(kind).live && t.remote.Table(kind).live[id] == s.remote.Table(kind).live[id]
  {
    hide Follows;
  }

  lemma KnownNot(s: State, kind: Kind, ids: seq<nat>)
    requires Loose(s) && forall id :: id in ids ==> s.remote.Table(kind).next <= id
    ensures forall k :: 0 <= k < |ids| ==> ids[k] !in s.stored.status.Kept(kind).ids
  {
    assert Known(s, kind) by { if kind == Targets {} }
    forall k | 0 <= k < |ids| ensures ids[k] !in s.stored.status.Kept(kind).ids { assert ids[k] in ids; }
    hide Base, Unique, Vouched;
  }

  lemma SwappedLoose(s: State, b: State, t: State, kind: Kind, ids: seq<nat>)
    requires Loose(s) && Sound(t) && Grew(s, b, kind) && t.versions == b.versions && Quiet(s.script)
    requires t.remote.resources == b.remote.resources && t.remote.Table(Other(kind)) == b.remote.Table(Other(kind))
    requires t.remote.Table(kind).next == b.remote.Table(kind).next
    requires t.stored == s.stored.(status := s.stored.status.WithKept(kind, t.stored.status.Kept(kind)))
    requires t.stored.status.Kept(kind).ids == ids && forall id :: id in ids ==> id < b.remote.Table(kind).next
    ensures Loose(t)
  {
    assert Known(t, kind);
    assert Known(s, Other(kind)) by { if kind == Targets {} }
    assert t.stored.status.Kept(Other(kind)) == s.stored.status.Kept(Other(kind)) by { if kind == Targets {} }
    assert Known(t, Other(kind));
    assert Known(t, Targets) && Known(t, Rules) by { if kind == Targets {} }
    hide Base, Unique, Tame, Gentle;
  }

  // ---- A whole undisturbed activation ----

  /** A settings update of the recorded resource. */
  lemma SettingsLoose(s: State, n: nat)
    requires Ready1(s, n + 1)
    ensures var id := s.stored.status.resourceID; var q := SettingsRequest(s.stored.spec); var u := ApiUpdate(s, id, q);
      && u.r.Ok? && Ready1(u.s, n) && u.s.stored == s.stored && Carries(u.s, id, q)
      && u.s.remote.targets == s.remote.targets && u.s.remote.rules == s.remote.rules && u.s.siteID == s.siteID
  {
    hide Recomposes, SettingsRequest, Matching, Vouched;
    var id := s.stored.status.resourceID;
    var q := SettingsRequest(s.stored.spec);
    RequestName(s.stored.spec);
    SmoothCall(s, UpdateResource(id), n);
    var t := Advance(s, UpdateResource(id));
    var u := ApiUpdate(s, id, q).s;
    assert Base(t) && Unique(t);
    LooseLinked(s, t);
    RowUpdated(t, u, id, q);
    assert Known(s, Targets) && Known(s, Rules);
    hide Advance, Apply, Unique;
  }

  lemma LooseLinked(s: State, t: State)
    requires Loose(s) && s.stored.status.resourceID in s.remote.resources.live
    requires t.remote == s.remote && t.stored == s.stored && t.versions == s.versions
    ensures Linked(t, t.stored.status) && Matching(t.remote.resources.live[t.stored.status.resourceID], t.stored.spec)
  {
    hide Base, Unique, Matching;
  }

  lemma SwapsCarry(s: State, t: State, kind: Kind)
    requires SwappedOnly(s, t, kind)
    ensures ChildrenRealised(t, Other(kind)) <==> ChildrenRealised(s, Other(kind))
    ensures Trusted(t, Other(kind)) <==> Trusted(s, Other(kind))
    ensures SyncCost(t, Other(kind)) == SyncCost(s, Other(kind))
    ensures forall id, q :: Carries(t, id, q) <==> Carries(s, id, q)
  {
    assert t.stored.status.Kept(Other(kind)) == s.stored.status.Kept(Other(kind)) by { if kind == Targets {} }
    forall i, spec, c ensures Row(t, Other(kind), i, spec, c) == Row(s, Other(kind), i, spec, c) {}
    hide Apply;
  }

  /** An update brings settings up to date, and those children that are not trusted. */
  lemma UpdateLoose(s: State, n: nat)
    requires Ready1(s, n + UpdateCost(s))
    ensures var t := Update(s); var id := s.stored.status.resourceID;
      && t.r.Ok? && Ready1(t.s, n) && t.s.stored == s.stored.(status := t.s.stored.status)
      && t.s.stored.status.resourceID == id && t.s.stored.status.observedGeneration == s.stored.status.observedGeneration
      && Carries(t.s, id, SettingsRequest(s.stored.spec))
      && (forall kind :: ChildrenRealised(t.s, kind) <==> (Trusted(s, kind) ==> ChildrenRealised(s, kind)))
  {
    hide Ready1, Sync, ApiUpdate, SettingsRequest, Carries, ChildrenRealised, SyncCost, Apply;
    var id := s.stored.status.resourceID;
    assert s.res == s.stored && Ready1(s, n + SyncCost(s, Targets) + SyncCost(s, Rules) + 1) by { Ready1Copy(s, n + UpdateCost(s)); }
    SettingsLoose(s, n + SyncCost(s, Targets) + SyncCost(s, Rules));
    var u := ApiUpdate(s, id, SettingsRequest(s.res.spec)).s;
    SameChildren(s, u);
    SyncLoose(u, Targets, n + SyncCost(s, Rules));
    var t := Sync(u, Targets).s;
    SwapsCarry(u, t, Targets);
    SyncLoose(t, Rules, n);
    var r := Sync(t, Rules).s;
    SwapsCarry(t, r, Rules);
    forall kind ensures ChildrenRealised(r, kind) <==> (Trusted(s, kind) ==> ChildrenRealised(s, kind)) {
      if kind == Targets {} else {}
    }
  }

  lemma Ready1Copy(s: State, n: nat)
    requires Ready1(s, n)
    ensures s.res == s.stored && Fuel(s, n)
  {
  }

  lemma SameChildren(s: State, t: State)
    requires t.stored == s.stored && t.remote.targets == s.remote.targets && t.remote.rules == s.remote.rules && t.siteID == s.siteID
    ensures forall kind :: ChildrenRealised(t, kind) <==> ChildrenRealised(s, kind)
    ensures forall kind :: Trusted(t, kind) <==> Trusted(s, kind)
    ensures forall kind :: SyncCost(t, kind) == SyncCost(s, kind)
  {
    forall kind ensures ChildrenRealised(t, kind) <==> ChildrenRealised(s, kind) {
      assert t.remote.Table(kind) == s.remote.Table(kind) by { if kind == Targets {} }
      forall i, spec, c ensures Row(t, kind, i, spec, c) == Row(s, kind, i, spec, c) {}
    }
  }

  /** What the next undisturbed activation will realise: everything, if it has to create or adopt a
      resource; otherwise nothing new if the current generation counts as observed, and all but the
      children that their hashes vouch for if it does not. */
  ghost predicate WillRealise(s: State) {
    var id := s.stored.status.resourceID;
    || id !in s.remote.resources.live
    || (if s.stored.status.observedGeneration == s.stored.generation then SpecRealised(s)
        else forall kind :: Trusted(s, kind) ==> ChildrenRealised(s, kind))
  }

  lemma RealisedMeans(s: State)
    requires s.stored.status.resourceID != 0
    ensures SpecRealised(s) <==>
      && Carries(s, s.stored.status.resourceID, SettingsRequest(s.stored.spec))
      && forall kind :: ChildrenRealised(s, kind)
  {
    if forall kind :: ChildrenRealised(s, kind) { assert ChildrenRealised(s, Targets) && ChildrenRealised(s, Rules); }
    if SpecRealised(s) {
      forall kind ensures ChildrenRealised(s, kind) { if kind == Targets {} }
    }
    hide Realised, Carries;
  }

  lemma FinishLoose(s: State)
    requires Ready1(s, 1)
    ensures var t := Finish(s);
      MarkedReady(t.stored) && t.stored == s.stored.(status := t.stored.status) && (SpecRealised(t) <==> SpecRealised(s))
  {
    PatchSmooth(s, Finished(s), 0);
    SmoothCall(s, PatchStatus, 0);
    var t := Finish(s);
    assert t.remote == s.remote && t.siteID == s.siteID && SameClaimsOn(t.stored.status, s.stored.status);
    SameRealised(s, t);
    hide SpecRealised, Loose;
  }

  predicate SameClaimsOn(a: Status, b: Status) {
    a.resourceID == b.resourceID && a.targets == b.targets && a.rules == b.rules
  }

  lemma SameRealised(s: State, t: State)
    requires t.remote == s.remote && t.siteID == s.siteID && t.stored.spec == s.stored.spec && SameClaimsOn(t.stored.status, s.stored.status)
    ensures SpecRealised(t) <==> SpecRealised(s)
  {
    forall kind, i, spec, c ensures Row(t, kind, i, spec, c) == Row(s, kind, i, spec, c) {}
    hide SettingsRequest, Apply;
  }

  lemma FuelEnough(s: State, n: nat, m: nat)
    requires n <= m && Fuel(s, m)
    ensures Fuel(s, n)
  {
  }

  lemma ListedByName(s: State)
    requires Loose(s) && s.stored.status.resourceID in s.remote.resources.live
    ensures s.stored.status.resourceID != 0
    ensures Lists(Listing(s.remote.resources.live, s.stored.spec.name, s.remote.resources.next), s.stored.status.resourceID)
  {
    var id := s.stored.status.resourceID;
    var items := Listing(s.remote.resources.live, s.stored.spec.name, s.remote.resources.next);
    assert ResourceItem(id, s.stored.spec.name, s.remote.resources.live[id].fullDomain) in items;
    hide Listing, Recomposes, Unique, Vouched;
  }

  lemma SameLoose(s: State, t: State)
    requires Loose(s) && t.remote == s.remote && t.stored == s.stored && t.versions == s.versions
    ensures Loose(t)
  {
    hide Recomposes, Matching, Vouched;
  }

  /** The end of an activation that found the recorded resource. */
  lemma UpdateAndFinishLoose(s: State)
    requires Ready1(s, UpdateCost(s) + 1)
    ensures var t := UpdateAndFinish(s, true, false);
      && MarkedReady(t.stored) && t.stored == s.stored.(status := t.stored.status) && (SpecRealised(t) <==> WillRealise(s))
  {
    hide Ready1, Update, Finish, SpecRealised, UpdateCost, Carries, ChildrenRealised, Trusted, SettingsRequest, Base, Unique;
    Ready1Copy(s, UpdateCost(s) + 1);
    Ready1ID(s, UpdateCost(s) + 1);
    if NeedsUpdate(s, true, false) {
      UpdateLoose(s, 1);
      var u := Update(s).s;
      FinishLoose(u);
      RealisedMeans(u);
    } else {
      Ready1Less(s, 1, UpdateCost(s) + 1);
      FinishLoose(s);
    }
  }

  lemma Ready1ID(s: State, n: nat)
    requires Ready1(s, n)
    ensures s.stored.status.resourceID != 0 && s.stored.status.resourceID in s.remote.resources.live && Base(s)
  {
  }

  lemma Ready1Less(s: State, n: nat, m: nat)
    requires n <= m && Ready1(s, m)
    ensures Ready1(s, n)
  {
  }

  /** The recorded resource is listed under its name, so the activation keeps it. */
  lemma KeepsListed(s: State, script: seq<Event>)
    requires Loose(s) && Eligible(s) && s.stored.status.resourceID in s.remote.resources.live
    requires Smooth(script) && |script| >= Budget(s)
    ensures var t := Reconcile(s, script);
      && MarkedReady(t.stored) && t.stored == s.stored.(status := t.stored.status) && (SpecRealised(t) <==> WillRealise(s))
  {
    hide Create, UpdateAndFinish, SpecRealised, Listing, FindResource, ChildrenRealised, Trusted, Resolvable, Lists, Smooth, SyncCost, Loose;
    var m := Start(s, script);
    ReconcileIs(s, script);
    SmoothCall(m, ListResources, Budget(s) - 1);
    var l := Advance(m, ListResources);
    ListedByName(s);
    SmoothCall(l, GetObject, Budget(s) - 2);
    var g := Get(l).s;
    assert EnsureExists(m) == Ensured(l, Ok, false);
    assert Reconcile(s, script) == UpdateAndFinish(g, true, false);
    BudgetCovers(s);
    FuelEnough(g, UpdateCost(s) + 1, Budget(s) - 2);
    SameLoose(s, g);
    assert UpdateCost(g) == UpdateCost(s) by { SameCost(s, g); }
    UpdateAndFinishLoose(g);
    SameRealised(s, g);
    SameChildren(s, g);
    hide Advance, Get;
  }

  lemma BudgetCovers(s: State)
    ensures Budget(s) >= UpdateCost(s) + 3
  {
  }

  // ---- With no resource recorded ----

  lemma StrandedErased(s: State, script: seq<Event>)
    requires Stranded(s) && Tame(script, s.stored.spec) && s.stored.finalizer
    ensures var x := Erased(Start(s, script));
      && Ready0(x) && Fresh(x) && Apt(x) && !x.crashed && !Engaged(x.stored.status)
      && x.stored.status.resourceID !in x.remote.resources.live
  {
    var x := Erased(Start(s, script));
    UnengagedBacked(x, x.stored.status);
    StoredIsAVersion(s);
    hide Recomposes, Matching, Tame, SettingsRequest;
  }

  lemma DeadNotListed(s: State, name: string)
    requires s.stored.status.resourceID !in s.remote.resources.live
    ensures !Lists(Listing(s.remote.resources.live, name, s.remote.resources.next), s.stored.status.resourceID)
  {
    hide Listing;
  }

  /** After the list call nothing is listed under the recorded ID. */
  lemma NotListed(s: State)
    requires Live(Erased(s)) && Synced(Erased(s)) && Tame(s.script, s.stored.spec) && s.stored.finalizer
    requires s.stored.status.resourceID !in s.remote.resources.live
    ensures var l := ApiList(s, s.res.spec.name); l.r.Ok? ==> !Lists(l.items, s.stored.status.resourceID)
  {
    hide Listing, Lists, ApiList, Live, Synced, Tame;
    ListKeeps(Erased(s), s.res.spec.name);
    ListErased(s, s.res.spec.name);
    DeadNotListed(s, s.res.spec.name);
  }

  /** With the earlier observed generation and condition put back. */
  lemma TwinsReady(x: State, y: State, before: Status)
    requires Twins(x, y, before) && Ready0(y) && !y.crashed && Vouched(before) && before.observedGeneration <= |y.versions|
    requires y.stored.status.resourceID in y.remote.resources.live
    ensures Ready0(x) && !x.crashed && (Fresh(y) ==> Fresh(x)) && (Apt(y) ==> Apt(x)) && (UpToDate(y) ==> UpToDate(x))
    ensures x.script == y.script && UpdateCost(x) == UpdateCost(y) && x.stored.status.resourceID == y.stored.status.resourceID
    ensures x.remote == y.remote && x.stored.spec == y.stored.spec && x.stored.generation == y.stored.generation
    ensures x.versions == y.versions && x.stored.status.observedGeneration == before.observedGeneration
  {
    var sx, sy := x.stored.status, y.stored.status;
    forall kind ensures Honest(x, sx, kind) {
      assert Honest(y, sy, kind) by { if kind == Targets {} }
      forall i, spec, c ensures Row(x, kind, i, spec, c) == Row(y, kind, i, spec, c) {}
      if kind == Targets {}
    }
    hide Recomposes, SettingsRequest, Apply, Tame;
  }

  /** The end of an undisturbed activation that has backed claims again. */
  lemma FinishRealised(s: State, hadID: bool, adopted: bool)
    requires Ready0(s) && Fresh(s) && Fuel(s, UpdateCost(s) + 1) && s.stored.status.resourceID in s.remote.resources.live
    requires NeedsUpdate(s, hadID, adopted) || UpToDate(s)
    ensures var t := UpdateAndFinish(s, hadID, adopted);
      MarkedReady(t.stored) && SpecRealised(t) && t.stored.spec == s.stored.spec && t.stored.generation == s.stored.generation
  {
    hide Base, Unique, Backed, Tame, Update, Patch, Follows, Synced, Quiet, Kept, Fresh, Apt, Gentle, SpecRealised, Carries;
    SmoothIsQuiet(s.script);
    QuietIsGentle(s.script, s.stored.spec) by { hide Quiet; }
    InStep(s);
    var w := if NeedsUpdate(s, hadID, adopted) then Update(s).s else s;
    if NeedsUpdate(s, hadID, adopted) {
      FreshIsApt(s);
      UpdateSmooth(s, 1);
      UpdateKeeps(s);
      Onward(s, w);
      StillFresh(s, w);
      InStep(w);
    }
    FinishKeeps(w);
    FinishSmooth(w);
    var t := Finish(w);
    assert UpToDate(t) by { FinishedUpToDate(w, t); }
    UpToDateIsRealised(t);
  }

  lemma FreshIsApt(s: State)
    requires Fresh(s)
    ensures Apt(s)
  {
    hide SettingsRequest;
  }

  lemma FinishedUpToDate(s: State, t: State)
    requires UpToDate(s) && t.remote == s.remote && t.stored == s.stored.(status := Finished(s)) && s.res.status == s.stored.status
    ensures UpToDate(t)
  {
    hide SettingsRequest, Apply;
  }

  /** Without a live recorded resource an undisturbed activation creates or adopts one and realises
      the whole spec, whatever the status still claims. */
  lemma StartsOver(s: State, script: seq<Event>)
    requires Stranded(s) && Eligible(s) && Smooth(script) && |script| >= Budget(s)
    ensures var t := Reconcile(s, script);
      && MarkedReady(t.stored) && t.stored.spec == s.stored.spec && t.stored.generation == s.stored.generation && SpecRealised(t)
  {
    hide Loose, Base, Unique, Backed, Tame, EnsureExists, UpdateAndFinish, Get, Synced, Quiet, Kept, Fresh, Apt, Gentle, Follows,
         SpecRealised, UpdateCost, Resolvable, Twins, Erased, Carries, HashedAs, ApiList, Lists, Smooth;
    SmoothIsQuiet(script);
    QuietIsTame(script, s.stored.spec);
    QuietIsGentle(script, s.stored.spec);
    var m := Start(s, script);
    var x := Erased(m);
    ReconcileIs(s, script);
    StrandedErased(s, script);
    ErasedSame(m);
    SameResolvable(s, x);
    EnsureExistsSmooth(x);
    EnsureExistsKeeps(x);
    NotListed(m);
    EnsureExistsTwins(m);
    var f, e := EnsureExists(x), EnsureExists(m);
    Onward(x, f.s);
    StillFresh(x, f.s);
    StrandedVouched(s);
    KeptVersions(x, f.s);
    TwinsReady(e.s, f.s, s.stored.status);
    var hadID := m.res.status.resourceID != 0;
    FuelTwin(e.s, f.s, UpdateCost(f.s) + 2);
    if hadID && !e.adopted {
      GetSmooth(e.s, UpdateCost(e.s) + 1);
      GetKeeps(e.s);
      var g := Get(e.s).s;
      Onward(e.s, g);
      FuelQuiet(e.s, UpdateCost(e.s) + 2);
      StillFresh(e.s, g);
      SameCost(e.s, g);
      assert UpToDate(g) by { SameStoredUpToDate(e.s, g); }
      FinishRealised(g, hadID, e.adopted);
    } else {
      FuelEnough(e.s, UpdateCost(e.s) + 1, UpdateCost(e.s) + 2);
      AdoptedNeedsUpdate(e.s, hadID);
      FinishRealised(e.s, hadID, e.adopted);
    }
  }

  lemma AdoptedNeedsUpdate(s: State, hadID: bool)
    ensures NeedsUpdate(s, hadID, true)
  {
  }

  lemma FuelQuiet(s: State, n: nat)
    requires Fuel(s, n)
    ensures Quiet(s.script)
  {
  }

  lemma FuelTwin(x: State, y: State, n: nat)
    requires Fuel(y, n) && x.script == y.script && !x.crashed
    ensures Fuel(x, n)
  {
  }

  lemma SameStoredUpToDate(s: State, t: State)
    requires UpToDate(s) && t.remote == s.remote && t.stored == s.stored
    ensures UpToDate(t)
  {
    hide SettingsRequest, Apply;
  }

  lemma StrandedVouched(s: State)
    requires Stranded(s)
    ensures Vouched(s.stored.status) && s.stored.status.observedGeneration <= |s.versions|
  {
  }

  lemma KeptVersions(s: State, t: State)
    requires Kept(s, t, Ok)
    ensures |s.versions| <= |t.versions|
  {
  }

  lemma ErasedSame(m: State)
    ensures var x := Erased(m);
      && x.stored.spec == m.stored.spec && x.stored.generation == m.stored.generation && x.versions == m.versions
      && x.remote == m.remote && x.script == m.script && x.crashed == m.crashed && Budget(x) <= Budget(m)
      && x.stored.finalizer == m.stored.finalizer && x.stored.deleting == m.stored.deleting && x.site == m.site && x.res.spec == m.res.spec
      && x.stored.status.resourceID == m.stored.status.resourceID && x.res.status.resourceID == m.res.status.resourceID
  {
  }

  /** In every loose state the next undisturbed activation reports ready; it is true exactly if
      WillRealise held before. */
  lemma ReadyExactly(s: State, script: seq<Event>)
    requires Loose(s) && Eligible(s) && Smooth(script) && |script| >= Budget(s)
    ensures var t := Reconcile(s, script);
      MarkedReady(t.stored) && t.stored.spec == s.stored.spec && (SpecRealised(t) <==> WillRealise(s))
  {
    hide Loose, Eligible, Reconcile, SpecRealised, Smooth;
    if s.stored.status.resourceID in s.remote.resources.live { KeepsListed(s, script); } else { StartsOver(s, script); }
  }
}
