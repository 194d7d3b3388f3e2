/** What happens after others have deleted resources: when exactly the next undisturbed activation
    reports ready without realising the spec, and how a run gets there. */
module PublicOutage {
  import opened Shared
  import opened Domains
  import opened Server
  import opened PublicResource
  import opened PublicSafety
  import opened PublicChildren
  import opened PublicSteps
  import opened PublicProtocol
  import opened PublicRuns
  import opened PublicAccounts
  import PublicConservation
  import opened PublicConvergence
  import opened PublicBoundaries
  import opened PublicTwins
  import opened PublicLoose

  // ---- Settings in force ----

  /** A settings update for the spec would change none of these settings. */
  predicate InForce(settings: Settings, spec: Spec) {
    Apply(ResourceRow("", false, "", 0, "", settings, false), SettingsRequest(spec)).settings == settings
  }

  lemma InForceMeans(row: ResourceRow, spec: Spec)
    requires row.name == spec.name
    ensures Apply(row, SettingsRequest(spec)) == row <==> InForce(row.settings, spec)
  {
  }

  /** Nothing of the spec is left to be done but, perhaps, to record it. */
  ghost predicate Fitting(s: State, spec: Spec) {
    && Quiet(s.script) && s.res.spec == s.stored.spec == spec && spec.targets == [] && spec.rules == []
    && forall id :: id in s.remote.resources.live && Matching(s.remote.resources.live[id], spec) ==>
         InForce(s.remote.resources.live[id].settings, spec)
  }

  lemma AdvanceFits(s: State, spec: Spec, call: Call)
    requires Fitting(s, spec) && !Halted(s)
    ensures Fitting(Advance(s, call), spec) && Advance(s, call).remote == s.remote && Advance(s, call).res == s.res
  {
    assert s.script[0].env.Calm?;
    hide InForce, Matching;
  }

  lemma SameFits(s: State, t: State, spec: Spec)
    requires Fitting(s, spec) && t.remote.resources == s.remote.resources && t.script == s.script
    requires t.stored.spec == spec && t.res.spec == spec
    ensures Fitting(t, spec)
  {
    hide InForce, Matching;
  }

  lemma PatchFits(s: State, spec: Spec, after: Status)
    requires Fitting(s, spec)
    ensures Fitting(Patch(s, after).s, spec) && Patch(s, after).s.remote == s.remote
  {
    hide Fitting, Advance, MergeStatus;
    FittingSpec(s, spec);
    if Halted(s) {
      SameFits(s, Halt(s), spec);
    } else {
      AdvanceFits(s, spec, PatchStatus);
      FittingSpec(Advance(s, PatchStatus), spec);
      SameFits(Advance(s, PatchStatus), Patch(s, after).s, spec);
    }
  }

  lemma FittingSpec(s: State, spec: Spec)
    requires Fitting(s, spec)
    ensures s.res.spec == s.stored.spec == spec && spec.targets == [] && spec.rules == [] && Quiet(s.script)
  {
  }

  lemma ReadFits(s: State, spec: Spec)
    requires Fitting(s, spec)
    ensures Fitting(Get(s).s, spec) && Get(s).s.remote == s.remote
    ensures forall name :: Fitting(ApiList(s, name).s, spec) && ApiList(s, name).s.remote == s.remote
    ensures Fitting(ChooseDomain(s).s, spec) && ChooseDomain(s).s.remote == s.remote
  {
    hide Fitting, Advance, Resolve, Listing;
    FittingSpec(s, spec);
    SameFits(s, s.(crashed := true), spec);
    if !Halted(s) {
      forall call ensures Fitting(Advance(s, call), spec) && Advance(s, call).remote == s.remote && Advance(s, call).res == s.res {
        AdvanceFits(s, spec, call);
      }
      FittingSpec(Advance(s, GetObject), spec);
      SameFits(Advance(s, GetObject), Advance(s, GetObject).(res := Advance(s, GetObject).stored), spec);
    }
  }

  /** The defaults do what the spec asks for, so a new resource fits. */
  lemma CreationFits(s: State, spec: Spec, q: CreateRequest)
    requires Fitting(s, spec) && InForce(s.remote.defaults, spec)
    ensures Fitting(ApiCreate(s, q).s, spec)
  {
    hide Advance, Compose, InForce, Matching;
    if !Halted(s) { AdvanceFits(s, spec, CreateResource); }
  }

  lemma DeletionFits(s: State, spec: Spec, id: nat)
    requires Fitting(s, spec)
    ensures Fitting(ApiDelete(s, id).s, spec)
  {
    hide Advance, InForce, Matching;
    if !Halted(s) { AdvanceFits(s, spec, DeleteResource(id)); }
  }

  lemma AppliedInForce(row: ResourceRow, spec: Spec)
    ensures Matching(Apply(row, SettingsRequest(spec)), spec) ==> InForce(Apply(row, SettingsRequest(spec)).settings, spec)
    ensures Matching(Apply(row, PostCreateRequest(spec)), spec) ==> InForce(Apply(row, PostCreateRequest(spec)).settings, spec)
  {
  }

  lemma RowFits(s: State, spec: Spec, id: nat, row: ResourceRow)
    requires Fitting(s, spec) && (Matching(row, spec) ==> InForce(row.settings, spec))
    ensures Fitting(s.(remote := s.remote.(resources := s.remote.resources.Put(id, row))), spec)
  {
    hide InForce, Matching;
  }

  lemma UpdateFits(s: State, spec: Spec, id: nat, q: UpdateRequest)
    requires Fitting(s, spec) && q in {SettingsRequest(spec), PostCreateRequest(spec)}
    ensures Fitting(ApiUpdate(s, id, q).s, spec)
  {
    hide Advance, InForce, Matching, Apply, SettingsRequest, PostCreateRequest, Fitting;
    if Halted(s) {
      FittingSpec(s, spec);
      SameFits(s, Halt(s), spec);
    } else {
      AdvanceFits(s, spec, UpdateResource(id));
      var t := Advance(s, UpdateResource(id));
      if id in t.remote.resources.live {
        AppliedInForce(t.remote.resources.live[id], spec);
        RowFits(t, spec, id, Apply(t.remote.resources.live[id], q));
      }
    }
  }

  lemma NoChildren(s: State, kind: Kind, resource: nat)
    ensures CreateChildren(s, kind, resource, []) == Batch(s, [], false, {})
  {
  }

  lemma {:induction false} DeleteChildrenFits(s: State, spec: Spec, kind: Kind, resource: nat, ids: seq<nat>)
    requires Fitting(s, spec)
    ensures Fitting(DeleteChildren(s, kind, resource, ids), spec)
    decreases |ids|
  {
    if ids != [] {
      DeleteOneFits(s, spec, kind, resource, ids[0]);
      DeleteChildrenFits(DeleteOne(s, kind, resource, ids[0]), spec, kind, resource, ids[1..]);
    }
    hide Fitting, DeleteOne;
  }

  lemma DeleteOneFits(s: State, spec: Spec, kind: Kind, resource: nat, id: nat)
    requires Fitting(s, spec)
    ensures Fitting(DeleteOne(s, kind, resource, id), spec)
  {
    hide Advance, Fitting;
    FittingSpec(s, spec);
    if Halted(s) {
      SameFits(s, Halt(s), spec);
    } else {
      AdvanceFits(s, spec, DeleteChild(kind, id));
      var t := Advance(s, DeleteChild(kind, id));
      FittingSpec(t, spec);
      SameFits(t, DeleteOne(s, kind, resource, id), spec) by { if kind == Targets {} }
    }
  }

  lemma PopulateFits(s: State, spec: Spec, id: nat)
    requires Fitting(s, spec)
    ensures Fitting(Populate(s, id).s, spec)
  {
    hide Fitting, Get, ApiUpdate, ApiList, ChooseDomain, CreateChildren, Patch, SettingsRequest, PostCreateRequest;
    ReadFits(s, spec);
    var g := Get(s);
    FittingSpec(g.s, spec);
    UpdateFits(g.s, spec, id, PostCreateRequest(spec));
    var u := ApiUpdate(g.s, id, PostCreateRequest(spec));
    FittingSpec(u.s, spec);
    NoChildren(u.s, Targets, id);
    NoChildren(u.s, Rules, id);
    PatchFits(u.s, spec, u.s.res.status.(targets := Tracked([], HashOf(spec.targets)), rules := Tracked([], HashOf(spec.rules))));
  }

  lemma CreateFits(s: State, spec: Spec)
    requires Fitting(s, spec) && InForce(s.remote.defaults, spec)
    ensures Fitting(Create(s).s, spec)
  {
    hide Fitting, Get, ApiList, ChooseDomain, ApiCreate, ApiDelete, Patch, Populate, InForce;
    var creating := s.res.status.(phase := Creating);
    PatchFits(s, spec, creating);
    var p := Patch(s, creating).s;
    ReadFits(p, spec);
    var d := ChooseDomain(p);
    var q := NewRequest(d.s.res.spec, d.id, d.subdomain);
    CreationFits(d.s, spec, q);
    var c := ApiCreate(d.s, q);
    var after := c.s.res.status.(resourceID := c.id, phase := Creating);
    PatchFits(c.s, spec, after);
    var r := Patch(c.s, after).s;
    DeletionFits(r, spec, c.id);
    PopulateFits(r, spec, c.id);
  }

  /** A resource that matches is adopted; without one, the new one fits. */
  lemma EnsureExistsFits(s: State, spec: Spec)
    requires Fitting(s, spec)
    requires InForce(s.remote.defaults, spec) || exists id :: id in s.remote.resources.live && Matching(s.remote.resources.live[id], spec)
    requires s.remote.resources.Valid()
    ensures Fitting(EnsureExists(s).s, spec)
  {
    hide Fitting, ApiList, Get, ChooseDomain, FindResource, Create, Patch, Lists, InForce;
    FittingSpec(s, spec);
    ReadFits(s, spec);
    var l := ApiList(s, spec.name);
    FittingSpec(l.s, spec);
    ListedItems(s, spec.name);
    if l.r.Ok? {
      if FindResource(l.items, spec).Some? {
        PatchFits(l.s, spec, Adopted(l.s.res.status, FindResource(l.items, spec).value.id));
      } else {
        CreateFits(l.s, spec);
      }
    }
  }

  lemma ListedItems(s: State, name: string)
    requires s.remote.resources.Valid() && Quiet(s.script)
    ensures var l := ApiList(s, name); l.r.Ok? ==>
      forall id :: id in s.remote.resources.live && s.remote.resources.live[id].name == name ==>
        ResourceItem(id, name, s.remote.resources.live[id].fullDomain) in l.items
  {
    if !Halted(s) { assert s.script[0].env.Calm?; }
    hide Listing;
  }

  lemma SyncFits(s: State, spec: Spec, kind: Kind)
    requires Fitting(s, spec)
    ensures Fitting(Sync(s, kind).s, spec)
  {
    hide Fitting, CreateChildren, DeleteChildren, Patch;
    FittingSpec(s, spec);
    var id, kept := s.res.status.resourceID, s.res.status.Kept(kind);
    assert spec.Children(kind) == [];
    NoChildren(s, kind, id);
    var after := s.res.status.WithKept(kind, Tracked([], HashOf([])));
    PatchFits(s, spec, after);
    DeleteChildrenFits(Patch(s, after).s, spec, kind, id, kept.ids);
  }

  lemma PatchesFit(s: State, spec: Spec)
    requires Fitting(s, spec)
    ensures forall after :: Fitting(Patch(s, after).s, spec)
  {
    forall after ensures Fitting(Patch(s, after).s, spec) { PatchFits(s, spec, after); }
    hide Patch, Fitting;
  }

  lemma UpdateAndFinishFits(s: State, spec: Spec, hadID: bool, adopted: bool)
    requires Fitting(s, spec)
    ensures Fitting(UpdateAndFinish(s, hadID, adopted), spec)
  {
    hide Fitting, Sync, ApiUpdate, Patch, SettingsRequest;
    FittingSpec(s, spec);
    PatchesFit(s, spec);
    var id, q := s.res.status.resourceID, SettingsRequest(spec);
    UpdateFits(s, spec, id, q);
    var u := ApiUpdate(s, id, q).s;
    SyncFits(u, spec, Targets);
    var t := Sync(u, Targets).s;
    SyncFits(t, spec, Rules);
    PatchesFit(u, spec);
    PatchesFit(t, spec);
    PatchesFit(Sync(t, Rules).s, spec);
  }

  lemma ReconcileReadyFits(s: State, spec: Spec)
    requires Fitting(s, spec)
    requires InForce(s.remote.defaults, spec) || exists id :: id in s.remote.resources.live && Matching(s.remote.resources.live[id], spec)
    requires s.remote.resources.Valid()
    ensures Fitting(ReconcileReady(s), spec)
  {
    hide Fitting, EnsureExists, UpdateAndFinish, Patch, Get, InForce, ApiList, ChooseDomain;
    EnsureExistsFits(s, spec);
    var e := EnsureExists(s);
    PatchesFit(e.s, spec);
    ReadFits(e.s, spec);
    var hadID := s.res.status.resourceID != 0;
    UpdateAndFinishFits(Get(e.s).s, spec, hadID, e.adopted);
    UpdateAndFinishFits(e.s, spec, hadID, e.adopted);
  }

  // ---- The activation after a resource is gone ----

  /** A live resource that the spec would adopt. */
  ghost predicate Adoptable(s: State, id: nat) {
    id in s.remote.resources.live && Matching(s.remote.resources.live[id], s.stored.spec)
  }

  /** The status vouches for something that the spec asks for and nothing but the spec will bring back:
      the current generation counts as observed although there is something to do, or a hash that
      survived is that of a list that is not empty. */
  ghost predicate Unguarded(s: State) {
    var spec, live := s.stored.spec, s.remote.resources.live;
    if s.stored.status.observedGeneration == s.stored.generation then
      || spec.targets != [] || spec.rules != []
      || (if exists id :: Adoptable(s, id) then exists id :: Adoptable(s, id) && !InForce(live[id].settings, spec)
          else !InForce(s.remote.defaults, spec))
    else
      !(exists id :: Adoptable(s, id)) && exists kind :: Trusted(s, kind) && s.stored.spec.Children(kind) != []
  }

  lemma LiveWillRealise(s: State)
    requires Live(s) && Truthful(s)
    ensures WillRealise(s)
  {
    hide SpecRealised, Base, Unique, SettingsRequest, Apply;
    if s.stored.status.resourceID in s.remote.resources.live {
      if s.stored.status.observedGeneration == s.stored.generation {
        UpToDateIsRealised(s) by { hide Live; }
      } else {
        forall kind | Trusted(s, kind) ensures ChildrenRealised(s, kind) {
          assert Honest(s, s.stored.status, kind) by { if kind == Targets {} }
        }
      }
    }
  }

  lemma FittingWillRealise(s: State, spec: Spec)
    requires Loose(s) && Fitting(s, spec)
    ensures WillRealise(s)
  {
    hide Base, Unique, Vouched, InForce, SettingsRequest, Apply;
    var id := s.stored.status.resourceID;
    if id in s.remote.resources.live {
      ListedByName(s) by { hide *; }
      InForceMeans(s.remote.resources.live[id], spec);
      assert Carries(s, id, SettingsRequest(spec));
    }
  }

  /** What happens between the two checks of the observed generation. */
  lemma AfterEnsure(s: State, hadID: bool, adopted: bool)
    requires Ready0(s) && !s.crashed && Quiet(s.script) && Apt(s) && s.stored.status.resourceID in s.remote.resources.live
    requires adopted || UpToDate(s)
    ensures var g := Get(s);
      var v := if !hadID || adopted then UpdateAndFinish(s, hadID, adopted)
        else if g.r.Err? then g.s else UpdateAndFinish(g.s, hadID, adopted);
      Live(v) && Follows(s, v) && (Behind(s) ==> Truthful(v))
  {
    hide Base, Unique, Backed, Tame, UpdateAndFinish, Get, Synced, Apt, Gentle, Follows, UpToDate, Quiet;
    QuietIsGentle(s.script, s.stored.spec);
    RidNonZero(s);
    SelfKept(s);
    if !hadID || adopted {
      UpdateAndFinishLive(s, hadID, adopted);
      if Behind(s) { UpdateAndFinishThrough(s, s, hadID, adopted); }
    } else {
      GetKeeps(s);
      var g := Get(s);
      KeptFollows(s, g.s, g.r);
      if g.r.Ok? {
        Onward(s, g.s);
        UpdateAndFinishLive(g.s, hadID, adopted);
        FollowsChain(s, g.s, UpdateAndFinish(g.s, hadID, adopted));
        if Behind(s) {
          StillBehind(s, g.s);
          RereadNeedsUpdate(g.s);
          UpdateAndFinishThrough(s, g.s, hadID, adopted);
        }
      } else if Behind(s) {
        StillBehind(s, g.s);
      }
    }
  }

  lemma UpdateAndFinishLive(s: State, hadID: bool, adopted: bool)
    requires Ready0(s) && !s.crashed && s.stored.status.resourceID in s.remote.resources.live
    ensures var t := UpdateAndFinish(s, hadID, adopted); Live(t) && Follows(s, t)
  {
    hide Base, Unique, Backed, Tame, Update, Patch, Follows, Synced, Kept, Apt, Gentle;
    if NeedsUpdate(s, hadID, adopted) {
      UpdateKeeps(s);
      var u := Update(s);
      KeptFollows(s, u.s, u.r);
      TameFollows(s, u.s);
      if u.r.Ok? {
        Onward(s, u.s);
        FinishKeeps(u.s);
        FollowsChain(s, u.s, Finish(u.s));
      } else {
        ReportKeeps(u.s, Unready(u.s, Erroneous));
        FollowsChain(s, u.s, Patch(u.s, Unready(u.s, Erroneous)).s);
      }
    } else {
      FinishKeeps(s);
    }
  }

  lemma AlikeKept(a: Status, b: Status, before: Status, kind: Kind)
    requires Alike(a, b, before)
    ensures KeptAlike(a.Kept(kind), b.Kept(kind), before.Kept(kind))
  {
  }

  /** What the blank twin keeps carries over. */
  lemma CousinsLoose(s: State, x: State, y: State, before: Status)
    requires Cousins(x, y, before) && Live(y) && Vouched(before) && before.observedGeneration <= |y.versions|
    requires before == s.stored.status && Loose(s)
    requires s.remote.targets.next <= y.remote.targets.next && s.remote.rules.next <= y.remote.rules.next
    ensures Loose(x) && x.remote == y.remote && x.versions == y.versions && x.siteID == y.siteID
    ensures x.stored.spec == y.stored.spec && x.stored.generation == y.stored.generation
    ensures x.stored.status.observedGeneration == before.observedGeneration && x.stored.status.resourceID == y.stored.status.resourceID
  {
    forall kind ensures Known(x, kind) {
      AlikeKept(x.stored.status, y.stored.status, before, kind);
      assert Honest(y, y.stored.status, kind) by { if kind == Targets {} }
      assert Known(s, kind) by { if kind == Targets {} }
      assert y.remote.Table(kind).Valid() && s.remote.Table(kind).next <= y.remote.Table(kind).next;
    }
    hide Recomposes, Unique, Matching, Alike;
  }

  /** Hashes that do not come from the earlier status are honest. */
  lemma CousinsWillRealise(s: State, x: State, y: State)
    requires Cousins(x, y, s.stored.status) && Live(y) && Behind(s)
    requires x.stored.spec == s.stored.spec && x.stored.generation == s.stored.generation
    requires forall kind :: Trusted(s, kind) && x.stored.status.Kept(kind) != y.stored.status.Kept(kind) ==> s.stored.spec.Children(kind) == []
    ensures WillRealise(x)
  {
    hide Recomposes, Unique, Matching, Base;
    forall kind | Trusted(x, kind) ensures ChildrenRealised(x, kind) {
      AlikeKept(x.stored.status, y.stored.status, s.stored.status, kind);
      if x.stored.status.Kept(kind) == y.stored.status.Kept(kind) {
        assert Honest(y, y.stored.status, kind) by { if kind == Targets {} }
        forall i, spec, c ensures Row(x, kind, i, spec, c) == Row(y, kind, i, spec, c) {}
      }
    }
    hide Alike;
  }

  /** A patch of condition or phase. */
  lemma ReportClaims(s: State, after: Status)
    requires Vouched(s.stored.status) && Quiet(s.script) && SameClaims(after, s.res.status) && Reports(s.res.status, after)
    ensures var t := Patch(s, after).s;
      && t.remote == s.remote && t.versions == s.versions && t.siteID == s.siteID && t.site == s.site
      && t.stored == s.stored.(status := t.stored.status) && SameClaims(t.stored.status, s.stored.status) && Vouched(t.stored.status)
  {
    if !Halted(s) {
      assert s.script[0].env.Calm?;
      assert Advance(s, PatchStatus) == s.(script := s.script[1..], log := s.log + [Entry(PatchStatus, s.script[0].reply)]);
    }
    ReportVouched(s.stored.status, s.res.status, after);
    hide Advance, Vouched;
  }

  lemma ReportLoose(s: State, after: Status)
    requires Loose(s) && Quiet(s.script) && SameClaims(after, s.res.status) && Reports(s.res.status, after)
    ensures var t := Patch(s, after).s;
      && Loose(t) && (WillRealise(s) ==> WillRealise(t)) && SameGround(s, t)
  {
    hide Recomposes, Unique, Matching, SpecRealised, Realised, Patch, Base, ChildrenRealised, Trusted, Vouched;
    var t := Patch(s, after).s;
    ReportClaims(s, after);
    SameBaseUnique(s, t);
    SameKnown(s, t, Targets);
    SameKnown(s, t, Rules);
    SameRealised(s, t);
    forall kind ensures ChildrenRealised(t, kind) <==> ChildrenRealised(s, kind) { SameChildrenAt(s, t, kind); }
    forall kind ensures Trusted(t, kind) == Trusted(s, kind) { SameTrusted(s, t, kind); }
  }

  lemma SameKnown(s: State, t: State, kind: Kind)
    requires Known(s, kind) && t.remote == s.remote && SameClaims(t.stored.status, s.stored.status)
    ensures Known(t, kind)
  {
    SameKept(t.stored.status, s.stored.status, kind);
  }

  lemma SameTrusted(s: State, t: State, kind: Kind)
    requires t.stored.spec == s.stored.spec && SameClaims(t.stored.status, s.stored.status)
    ensures Trusted(t, kind) == Trusted(s, kind)
  {
    SameKept(t.stored.status, s.stored.status, kind);
  }

  lemma SameKept(a: Status, b: Status, kind: Kind)
    requires SameClaims(a, b)
    ensures a.Kept(kind) == b.Kept(kind)
  {
  }

  lemma SameChildrenAt(s: State, t: State, kind: Kind)
    requires t.remote == s.remote && t.siteID == s.siteID && t.stored.spec == s.stored.spec
    requires SameClaims(t.stored.status, s.stored.status)
    ensures ChildrenRealised(t, kind) <==> ChildrenRealised(s, kind)
  {
    forall i, spec, c ensures Row(t, kind, i, spec, c) == Row(s, kind, i, spec, c) {}
    SameKept(t.stored.status, s.stored.status, kind);
  }

  lemma SameBaseUnique(s: State, t: State)
    requires Base(s) && Unique(s) && t.remote == s.remote && t.versions == s.versions
    requires t.stored == s.stored.(status := t.stored.status)
    ensures Base(t) && Unique(t)
  {
    hide Recomposes, Matching;
  }

  /** The object itself, the site and the domains are as they were. */
  predicate SameGround(s: State, t: State) {
    && t.stored.spec == s.stored.spec && t.stored.generation == s.stored.generation && t.stored.finalizer == s.stored.finalizer
    && t.stored.deleting == s.stored.deleting && t.site == s.site && t.remote.domains == s.remote.domains
  }

  lemma GroundEligible(s: State, t: State)
    requires Eligible(s) && SameGround(s, t)
    ensures Eligible(t)
  {
    hide Resolve;
  }

  lemma QuietGround(s: State, t: State)
    requires Base(s) && Base(t) && Follows(s, t) && Quiet(s.script)
    ensures SameGround(s, t) && Quiet(t.script)
  {
    hide Recomposes;
  }

  lemma NextGrows(s: State)
    requires Ready0(s) && !s.crashed
    ensures var t := EnsureExists(s).s;
      s.remote.targets.next <= t.remote.targets.next && s.remote.rules.next <= t.remote.rules.next
  {
    hide EnsureExists, Ready0;
    PublicConservation.EnsureExistsBalanced(s);
    assert Births(s, EnsureExists(s).s, Targets) && Births(s, EnsureExists(s).s, Rules);
  }

  /** Where a resource can be adopted, nothing else is done. */
  lemma AdoptsOrStays(s: State)
    requires Quiet(s.script) && s.remote.resources.Valid() && s.res == s.stored && exists id :: Adoptable(s, id)
    requires s.stored.status.resourceID !in s.remote.resources.live
    ensures var e := EnsureExists(s);
      || (e.s.stored.status == s.stored.status && e.s.remote == s.remote)
      || (e.s.stored.status.targets == Tracked([], NoHash) && e.s.stored.status.rules == Tracked([], NoHash))
  {
    hide Listing, FindResource, Lists, Create, Matching;
    if !Halted(s) {
      assert s.script[0].env.Calm?;
      var id :| Adoptable(s, id);
      var spec := s.res.spec;
      var items := Listing(s.remote.resources.live, spec.name, s.remote.resources.next);
      DeadNotListed(s, spec.name);
      AdoptableListed(s, id);
      var l := ApiList(s, spec.name);
      if l.r.Ok? {
        assert l.items == items;
        var after := Adopted(l.s.res.status, FindResource(items, spec).value.id);
        assert Quiet(l.s.script) by { assert l.s.script == s.script[1..]; }
        AdoptingPatch(l.s, FindResource(items, spec).value.id);
      }
    }
    hide Patch;
  }

  lemma AdoptableListed(s: State, id: nat)
    requires s.remote.resources.Valid() && Adoptable(s, id)
    ensures FindResource(Listing(s.remote.resources.live, s.stored.spec.name, s.remote.resources.next), s.stored.spec).Some?
  {
    var items := Listing(s.remote.resources.live, s.stored.spec.name, s.remote.resources.next);
    assert ResourceItem(id, s.stored.spec.name, s.remote.resources.live[id].fullDomain) in items;
    hide Listing, FindResource;
  }

  lemma AdoptingPatch(s: State, id: nat)
    requires Quiet(s.script) && s.res.status == s.stored.status
    ensures var p := Patch(s, Adopted(s.res.status, id)).s;
      || (p.stored.status == s.stored.status && p.remote == s.remote)
      || (p.stored.status.targets == Tracked([], NoHash) && p.stored.status.rules == Tracked([], NoHash))
  {
    var after := Adopted(s.res.status, id);
    MergeAll(s.stored.status, after);
    if !Halted(s) { assert s.script[0].env.Calm?; }
    hide MergeStatus;
  }

  lemma UntrustedWillRealise(s: State)
    requires Behind(s) && s.stored.status.targets == Tracked([], NoHash) && s.stored.status.rules == Tracked([], NoHash)
    ensures WillRealise(s)
  {
    hide SpecRealised, ChildrenRealised;
    forall kind ensures !Trusted(s, kind) { if kind == Targets {} }
  }

  /** What holds after the check for existence, whether it succeeded or not. */
  lemma EnsureLoose(s: State, script: seq<Event>)
    requires Stranded(s) && Eligible(s) && Quiet(script)
    ensures var m := Start(s, script); var e, f := EnsureExists(m), EnsureExists(Erased(m));
      && Loose(e.s) && SameGround(s, e.s) && Quiet(e.s.script) && Live(f.s) && Cousins(e.s, f.s, s.stored.status)
      && e.s.stored.status.observedGeneration == s.stored.status.observedGeneration
      && f.r == e.r && f.adopted == e.adopted && (e.r.Ok? ==> Twins(e.s, f.s, s.stored.status))
  {
    hide Loose, Base, Unique, Backed, Tame, EnsureExists, Synced, Quiet, Kept, Fresh, Apt, Gentle, Follows, Resolvable,
         Twins, Erased, Cousins, ApiList, Lists;
    QuietIsTame(script, s.stored.spec);
    var m := Start(s, script);
    var x := Erased(m);
    StrandedErased(s, script);
    ErasedSame(m);
    EnsureExistsKeeps(x);
    NotListed(m);
    EnsureExistsTwins(m);
    var f, e := EnsureExists(x), EnsureExists(m);
    KeptFollows(x, f.s, f.r);
    NextGrows(x);
    StrandedVouched(s);
    FollowsVersions(x, f.s);
    StrandedLoose(s);
    CousinsLoose(s, e.s, f.s, s.stored.status);
    QuietGround(x, f.s);
    CousinsGround(e.s, f.s, s.stored.status);
  }

  lemma StrandedLoose(s: State)
    requires Stranded(s)
    ensures Loose(s)
  {
  }

  lemma FollowsVersions(s: State, t: State)
    requires Follows(s, t)
    ensures |s.versions| <= |t.versions|
  {
  }

  lemma CousinsGround(x: State, y: State, before: Status)
    requires Cousins(x, y, before)
    ensures SameGround(x, y) && x.script == y.script
  {
  }

  /** A failed check for existence leaves nothing unguarded that was not. */
  lemma EnsureFails(s: State, script: seq<Event>)
    requires Stranded(s) && Eligible(s) && Quiet(script) && EnsureExists(Start(s, script)).r.Err?
    requires Behind(s) && !Unguarded(s)
    ensures WillRealise(EnsureExists(Start(s, script)).s)
  {
    hide Loose, Eligible, EnsureExists, Cousins, Erased, Quiet, Live, Twins, WillRealise, Adoptable, Trusted;
    var m := Start(s, script);
    var e, f := EnsureExists(m), EnsureExists(Erased(m));
    EnsureLoose(s, script);
    if exists id :: Adoptable(s, id) {
      SameAdoptable(s, m);
      StrandedValid(s);
      AdoptsOrStays(m);
      if e.s.stored.status == s.stored.status && e.s.remote == s.remote {
        GoneWillRealise(e.s);
      } else {
        UntrustedWillRealise(e.s);
      }
    } else {
      CousinsWillRealise(s, e.s, f.s);
    }
  }

  lemma SameAdoptable(s: State, t: State)
    requires t.remote == s.remote && t.stored.spec == s.stored.spec
    ensures (exists id :: Adoptable(s, id)) ==> exists id :: Adoptable(t, id)
  {
    if exists id :: Adoptable(s, id) { var id :| Adoptable(s, id); assert Adoptable(t, id); }
  }

  lemma StrandedValid(s: State)
    requires Stranded(s)
    ensures s.remote.resources.Valid()
  {
  }

  lemma GoneWillRealise(s: State)
    requires s.stored.status.resourceID !in s.remote.resources.live
    ensures WillRealise(s)
  {
  }

  lemma ReportEnsureLoose(s: State, kinds: set<ErrKind>)
    requires Loose(s) && Quiet(s.script)
    ensures var t := ReportEnsure(s, kinds); Loose(t) && (WillRealise(s) ==> WillRealise(t)) && SameGround(s, t)
  {
    hide Patch, Loose, WillRealise, SameGround, Quiet;
    if Conflict in kinds {
      ReportLoose(s, Unready(s, Pending));
    } else if BadRequest in kinds {
      ReportLoose(s, Unready(s, PermanentError).(phase := Failed));
    } else {
      ReportLoose(s, Unready(s, Erroneous));
    }
  }

  /** A successful check for existence puts everything in order but the observed generation. */
  lemma EnsureWorks(s: State, script: seq<Event>)
    requires Stranded(s) && Eligible(s) && Quiet(script) && EnsureExists(Start(s, script)).r.Ok?
    ensures var e := EnsureExists(Start(s, script));
      && Ready0(e.s) && !e.s.crashed && Apt(e.s) && e.s.stored.status.resourceID in e.s.remote.resources.live
      && (e.adopted || UpToDate(e.s))
  {
    hide Loose, Base, Unique, Backed, Tame, EnsureExists, Synced, Quiet, Kept, Fresh, Apt, Gentle, Follows, Resolvable, UpToDate,
         Twins, Erased, Cousins, ApiList, Lists, UpdateCost;
    QuietIsTame(script, s.stored.spec);
    QuietIsGentle(script, s.stored.spec) by { hide Quiet; }
    var m := Start(s, script);
    var x := Erased(m);
    StrandedErased(s, script);
    ErasedSame(m);
    EnsureExistsKeeps(x);
    EnsureLoose(s, script);
    var f, e := EnsureExists(x), EnsureExists(m);
    Onward(x, f.s);
    StillApt(x, f.s);
    KeptVersions(x, f.s);
    StrandedVouched(s);
    TwinsReady(e.s, f.s, s.stored.status);
  }

  /** After any undisturbed activation, cut short anywhere, what is unguarded was so before. */
  lemma AfterQuiet(s: State, script: seq<Event>)
    requires Stranded(s) && Eligible(s) && Quiet(script)
    ensures var t := Reconcile(s, script);
      Loose(t) && SameGround(s, t) && (Behind(s) && !Unguarded(s) ==> WillRealise(t))
  {
    hide Loose, Base, Unique, Backed, Tame, EnsureExists, UpdateAndFinish, ReportEnsure, Get, Synced, Quiet, Apt, Follows, UpToDate,
         Twins, Erased, Cousins, Unguarded, WillRealise, Truthful, SameGround, Resolvable;
    var m := Start(s, script);
    ReconcileIs(s, script);
    EnsureLoose(s, script);
    var e := EnsureExists(m);
    var t := ReconcileReady(m);
    assert Reconcile(s, script) == t by { hide *; }
    if e.r.Err? {
      if Behind(s) && !Unguarded(s) { EnsureFails(s, script); }
      ReportEnsureLoose(e.s, e.r.kinds);
      GroundChain(s, e.s, t);
    } else {
      EnsureWorks(s, script);
      AfterEnsure(e.s, m.res.status.resourceID != 0, e.adopted);
      LiveIsLoose(t);
      QuietGround(e.s, t);
      GroundChain(s, e.s, t);
      if Behind(s) {
        assert Behind(e.s) by { SameBehind(s, e.s); }
        LiveWillRealise(t);
      }
    }
  }

  lemma SameBehind(s: State, t: State)
    requires Behind(s) && SameGround(s, t) && t.stored.status.observedGeneration == s.stored.status.observedGeneration
    ensures Behind(t)
  {
  }

  lemma GroundChain(s: State, t: State, u: State)
    requires SameGround(s, t) && SameGround(t, u)
    ensures SameGround(s, u)
  {
  }

  /** If the current generation counts as observed, there was nothing to do before the activation, and
      whatever it does leaves it at that. */
  lemma NothingToDo(s: State, script: seq<Event>)
    requires Stranded(s) && Eligible(s) && Quiet(script) && !Behind(s) && !Unguarded(s)
    ensures WillRealise(Reconcile(s, script))
  {
    hide Loose, ReconcileReady, WillRealise, Fitting, InForce, Resolvable, Quiet;
    var m, spec := Start(s, script), s.stored.spec;
    StrandedValid(s);
    NothingFits(s, script);
    ReconcileIs(s, script);
    ReconcileReadyFits(m, spec);
    AfterQuiet(s, script);
    FittingWillRealise(Reconcile(s, script), spec);
  }

  lemma NothingFits(s: State, script: seq<Event>)
    requires Quiet(script) && !Behind(s) && !Unguarded(s)
    ensures Fitting(Start(s, script), s.stored.spec)
    ensures InForce(s.remote.defaults, s.stored.spec) ||
      exists id :: id in s.remote.resources.live && Matching(s.remote.resources.live[id], s.stored.spec)
  {
    var live, spec := s.remote.resources.live, s.stored.spec;
    forall id | id in live && Matching(live[id], spec) ensures InForce(live[id].settings, spec) {
      assert Adoptable(s, id);
    }
    if exists id :: Adoptable(s, id) {
      var id :| Adoptable(s, id);
      assert id in live && Matching(live[id], spec);
    }
    hide InForce, Matching;
  }

  // ---- The failing runs ----

  /** Stopped right after it adopted a resource. */
  lemma StoppedAfterAdopt(s: State, script: seq<Event>) returns (id: nat)
    requires Stranded(s) && Eligible(s) && Smooth(script) && |script| == 2 && exists id :: Adoptable(s, id)
    ensures var t := Reconcile(s, script);
      && Adoptable(s, id) && t.remote == s.remote && t.siteID == s.siteID && t.stored == s.stored.(status := t.stored.status)
      && t.stored.status == Status(Creating, id, Tracked([], NoHash), Tracked([], NoHash), s.stored.status.observedGeneration, s.stored.status.condition)
  {
    hide Listing, FindResource, Lists, Create, Matching, SettingsRequest, Resolvable, Loose;
    var m := Start(s, script);
    ReconcileIs(s, script);
    StrandedValid(s);
    var a :| Adoptable(s, a);
    AdoptableListed(s, a);
    DeadNotListed(s, s.stored.spec.name);
    SmoothCall(m, ListResources, 1);
    var l := Advance(m, ListResources);
    var items := Listing(s.remote.resources.live, s.stored.spec.name, s.remote.resources.next);
    id := FindResource(items, s.stored.spec).value.id;
    var after := Adopted(l.res.status, id);
    PatchSmooth(l, after, 0);
    SmoothCall(l, PatchStatus, 0);
    var p := Patch(l, after).s;
    assert EnsureExists(m) == Ensured(p, Ok, true);
    assert p.script == [];
    HaltedUpdate(p);
    FoundAdoptable(s, id) by { assert FindResource(items, s.stored.spec).value in items; }
    hide Patch, Advance;
  }

  lemma FoundAdoptable(s: State, id: nat)
    requires var items := Listing(s.remote.resources.live, s.stored.spec.name, s.remote.resources.next);
      FindResource(items, s.stored.spec).Some? && FindResource(items, s.stored.spec).value.id == id
    ensures Adoptable(s, id)
  {
    var items := Listing(s.remote.resources.live, s.stored.spec.name, s.remote.resources.next);
    var item := FindResource(items, s.stored.spec).value;
    var i :| 0 <= i < |items| && items[i] == item;
    hide Listing, FindResource;
  }

  lemma HaltedUpdate(s: State)
    requires Halted(s)
    ensures UpdateAndFinish(s, false, true) == Halt(s) && UpdateAndFinish(s, true, true) == Halt(s)
  {
    hide Sync, SettingsRequest;
  }

  /** Children of earlier resources are not those of a new one. */
  lemma OthersChildren(s: State, t: State, kind: Kind, specs: seq<ChildSpec>, ids: seq<nat>)
    requires s.remote.Valid() && t.remote.targets == s.remote.targets && t.remote.rules == s.remote.rules
    requires t.stored.status.resourceID >= s.remote.resources.next && specs != []
    ensures !Realised(t, kind, t.stored.status.resourceID, specs, ids)
  {
    var live := t.remote.Table(kind).live;
    assert forall id :: id in live ==> live[id].resource < s.remote.resources.next by { if kind == Targets {} }
    if 0 < |ids| && ids[0] in live {
      assert live[ids[0]] != Row(t, kind, t.stored.status.resourceID, specs[0], 0);
    }
  }

  /** A resource that was just created, with the earlier hashes and observed generation. */
  lemma RecordedAlone(s: State, t: State)
    requires Stranded(s) && CreatedAnew(s, t, t.stored.status.resourceID)
    requires t.stored == s.stored.(status := s.stored.status.(resourceID := t.stored.status.resourceID, phase := Creating))
    requires Unguarded(s) && !(exists id :: Adoptable(s, id))
    ensures !WillRealise(t)
  {
    hide Unique, Base, InForce, SettingsRequest, Apply, Vouched;
    var id, spec := t.stored.status.resourceID, s.stored.spec;
    StrandedRemote(s);
    if Behind(s) {
      var kind :| Trusted(s, kind) && spec.Children(kind) != [];
      assert Trusted(t, kind) by { if kind == Targets {} }
      OthersChildren(s, t, kind, spec.Children(kind), t.stored.status.Kept(kind).ids);
    } else if spec.targets != [] {
      OthersChildren(s, t, Targets, spec.targets, t.stored.status.targets.ids);
    } else if spec.rules != [] {
      OthersChildren(s, t, Rules, spec.rules, t.stored.status.rules.ids);
    } else {
      InForceMeans(t.remote.resources.live[id], spec);
    }
    hide Realised;
  }

  lemma StrandedRemote(s: State)
    requires Stranded(s)
    ensures s.remote.Valid()
  {
    hide Recomposes, Unique;
  }

  /** A resource that was just adopted, with the earlier observed generation. */
  lemma AdoptedAlone(s: State, t: State, id: nat)
    requires Stranded(s) && Adoptable(s, id) && Unguarded(s)
    requires t.remote == s.remote && t.stored == s.stored.(status := Adopted(s.stored.status, id))
    ensures !WillRealise(t)
  {
    hide Base, InForce, SettingsRequest, Apply, Vouched;
    var spec := s.stored.spec;
    assert !Behind(s);
    if spec.targets == [] && spec.rules == [] {
      var a :| Adoptable(s, a) && !InForce(s.remote.resources.live[a].settings, spec);
      assert a == id;
      InForceMeans(s.remote.resources.live[id], spec);
    }
  }

  // ---- When exactly ready is wrong ----

  /** An undisturbed activation, cut short anywhere, and then one that is not: the object is reported
      ready for its current generation, and its spec is not realised. */
  ghost predicate Outage(s: State, first: seq<Event>, second: seq<Event>) {
    var m := Reconcile(s, first); var t := Reconcile(m, second);
    && Quiet(first) && Smooth(second) && |second| >= Budget(m)
    && MarkedReady(t.stored) && t.stored.spec == s.stored.spec && !SpecRealised(t)
  }

  lemma OutageHappens(s: State) returns (first: seq<Event>, second: seq<Event>)
    requires Stranded(s) && Eligible(s) && Unguarded(s)
    ensures Outage(s, first, second)
  {
    hide Reconcile, Stranded, Eligible, SpecRealised, WillRealise, Unguarded, CreatedAnew, Smooth, Adoptable, CallsToCreate;
    if exists id :: Adoptable(s, id) {
      first := Plain(2);
      var id := StoppedAfterAdopt(s, first);
      AdoptedAlone(s, Reconcile(s, first), id);
    } else {
      first := Plain(CallsToCreate(s.stored.spec) + 1);
      StrandedPoised(s, first);
      StoppedAfterRecord(s, first);
      RecordedAlone(s, Reconcile(s, first));
    }
    var m := Reconcile(s, first);
    second := Plain(Budget(m));
    SmoothIsQuiet(first);
    AfterQuiet(s, first);
    GroundEligible(s, m);
    ReadyExactly(m, second);
  }

  lemma StrandedPoised(s: State, script: seq<Event>)
    requires Stranded(s) && Eligible(s) && !(exists id :: Adoptable(s, id)) && Smooth(script)
    ensures Poised(s, script)
  {
    StrandedRemote(s);
    forall id | id in s.remote.resources.live ensures !Matching(s.remote.resources.live[id], s.stored.spec) {
      assert !Adoptable(s, id);
    }
    hide Loose, Resolvable, Matching;
  }

  /** After the recorded resource is gone, whoever deleted it and whatever the status still claims: an
      outage can follow exactly if the state is unguarded. */
  lemma OutageExactly(s: State)
    requires Stranded(s) && Eligible(s)
    ensures (exists first, second :: Outage(s, first, second)) <==> Unguarded(s)
  {
    hide Stranded, Eligible, Unguarded, Outage;
    if Unguarded(s) {
      var first, second := OutageHappens(s);
      assert Outage(s, first, second);
    }
    if exists first, second :: Outage(s, first, second) {
      var first, second :| Outage(s, first, second);
      GuardedIsHonest(s, first, second);
    }
  }

  lemma GuardedIsHonest(s: State, first: seq<Event>, second: seq<Event>)
    requires Stranded(s) && Eligible(s) && Outage(s, first, second)
    ensures Unguarded(s)
  {
    hide Reconcile, Stranded, Eligible, SpecRealised, WillRealise, Unguarded, Smooth, Quiet, Loose, SameGround;
    var m := Reconcile(s, first);
    AfterQuiet(s, first);
    GroundEligible(s, m);
    ReadyExactly(m, second);
    if !Unguarded(s) && !Behind(s) { NothingToDo(s, first); }
  }

  /** In particular when the tracked resource of a settled object is deleted: unless the spec asks for
      nothing but settings that are the server's defaults, an outage can follow. */
  lemma DroppedExactly(s: State)
    requires Settled(s) && Resolvable(s)
    ensures var t := ApplyEnv(s, DropResource(s.stored.status.resourceID));
      && Stranded(t) && Eligible(t)
      && ((exists first, second :: Outage(t, first, second)) <==>
            s.stored.spec.targets != [] || s.stored.spec.rules != [] || !InForce(s.remote.defaults, s.stored.spec))
  {
    hide Live, Truthful, InForce, Outage, Resolve, Loose;
    var t := ApplyEnv(s, DropResource(s.stored.status.resourceID));
    LiveIsLoose(s);
    DropIsLoose(s, s.stored.status.resourceID);
    NoneAdoptable(s);
    OutageExactly(t);
    assert !(exists id :: Adoptable(t, id));
  }

  /** No second resource matches. */
  lemma NoneAdoptable(s: State)
    requires Settled(s)
    ensures forall id :: !Adoptable(ApplyEnv(s, DropResource(s.stored.status.resourceID)), id)
  {
    EngagedWhenCurrent(s);
    hide Base, Honest, Matching, UpToDate;
  }

  // ---- How runs get there ----

  /** From every initial state whose spec asks for a target or a rule a run leads to an outage; one
      deletion by others is the only disturbance, and one process stops early. */
  lemma OutageInRuns(s: State) returns (trace: seq<State>, steps: seq<Step>)
    requires Init(s) && s.site == SiteReady && Resolvable(s) && (s.stored.spec.targets != [] || s.stored.spec.rules != [])
    ensures IsRun(trace, steps) && |steps| == 4 && trace[0] == s
    ensures steps[0].Activate? && Smooth(steps[0].script) && steps[1] == Act(DropResource(trace[1].stored.status.resourceID))
    ensures steps[2].Activate? && Quiet(steps[2].script) && steps[3].Activate? && Smooth(steps[3].script)
    ensures MarkedReady(trace[4].stored) && trace[4].stored.spec == s.stored.spec && !SpecRealised(trace[4])
  {
    hide Init, Reconcile, Settled, Resolvable, SpecRealised, Outage, Smooth, Quiet, Live, Truthful, ApplyEnv, Stranded, Eligible;
    InitKeeps(s);
    InitNotDeleting(s);
    var go := Plain(Budget(s));
    Converges(s, go);
    var t := Reconcile(s, go);
    ResolvableAfter(s, go);
    DroppedExactly(t);
    var drop := DropResource(t.stored.status.resourceID);
    var u := ApplyEnv(t, drop);
    var first, second :| Outage(u, first, second);
    OutageMeans(u, first, second);
    DropKeepsSpec(t, t.stored.status.resourceID);
    var v := Reconcile(u, first);
    trace, steps := [s, t, u, v, Reconcile(v, second)], [Activate(go), Act(drop), Activate(first), Activate(second)];
  }

  lemma InitNotDeleting(s: State)
    requires Init(s)
    ensures !s.stored.deleting
  {
    hide Base;
  }

  lemma DropKeepsSpec(s: State, id: nat)
    ensures ApplyEnv(s, DropResource(id)).stored == s.stored
  {
  }

  lemma OutageMeans(s: State, first: seq<Event>, second: seq<Event>)
    requires Outage(s, first, second)
    ensures var t := Reconcile(Reconcile(s, first), second);
      && Quiet(first) && Smooth(second)
      && MarkedReady(t.stored) && t.stored.spec == s.stored.spec && !SpecRealised(t)
  {
    hide Reconcile, SpecRealised, Smooth;
  }

  lemma ResolvableAfter(s: State, script: seq<Event>)
    requires Live(s) && !s.stored.deleting && Smooth(script) && Resolvable(s)
    requires Reconcile(s, script).stored.spec == s.stored.spec
    ensures Resolvable(Reconcile(s, script))
  {
    SmoothIsQuiet(script);
    QuietIsTame(script, s.stored.spec);
    ActivationKeeps(s, script);
    hide Reconcile, Live, Truthful, Resolve;
  }

  /** The settings update finds the resource deleted: the reconciler forgets the resource and its
      children, but keeps their hashes, and an outage can follow exactly if one of the hashes is that of
      a list that is not empty. */
  lemma ResetKeepsHashes(s: State, script: seq<Event>)
    requires Loose(s) && Eligible(s) && Behind(s) && s.stored.status.resourceID in s.remote.resources.live
    requires |script| == 4 && (forall i :: 0 <= i < 4 ==> script[i].reply.Served?)
    requires script[0].env.Calm? && script[1].env.Calm? && script[3].env.Calm?
    requires script[2].env == DropResource(s.stored.status.resourceID)
    ensures var t := Reconcile(s, script);
      && t.stored == s.stored.(status := Forgotten(s.stored.status)) && Stranded(t) && Eligible(t)
      && ((exists first, second :: Outage(t, first, second)) <==> exists kind :: Trusted(s, kind) && s.stored.spec.Children(kind) != [])
  {
    hide Loose, Unguarded, Outage, Adoptable, Resolvable;
    ForgetsGone(s, script);
    var t := Reconcile(s, script);
    ForgottenStranded(s, t);
    OutageExactly(t);
    UnguardedByHash(s, t);
    hide Reconcile;
  }

  lemma ForgetsGone(s: State, script: seq<Event>)
    requires Loose(s) && Eligible(s) && Behind(s) && s.stored.status.resourceID in s.remote.resources.live
    requires |script| == 4 && (forall i :: 0 <= i < 4 ==> script[i].reply.Served?)
    requires script[0].env.Calm? && script[1].env.Calm? && script[3].env.Calm?
    requires script[2].env == DropResource(s.stored.status.resourceID)
    ensures var t := Reconcile(s, script); var id := s.stored.status.resourceID;
      && t.stored == s.stored.(status := Forgotten(s.stored.status)) && t.versions == s.versions && t.site == s.site
      && t.remote == s.remote.(resources := s.remote.resources.Remove(id))
  {
    hide Create, FindResource, Lists, Listing, Sync, SettingsRequest, Resolvable, Loose;
    var m := Start(s, script);
    ReconcileIs(s, script);
    var id := s.stored.status.resourceID;
    ListedByName(s);
    var l := Advance(m, ListResources);
    assert EnsureExists(m) == Ensured(l, Ok, false);
    var g := Get(l).s;
    assert NeedsUpdate(g, true, false);
    var u := ApiUpdate(g, id, SettingsRequest(g.res.spec));
    assert u.r == Err({NotFound}) && u.s.res == u.s.stored == s.stored && u.s.script == script[3..];
    assert Update(g) == u;
    MergeAll(u.s.res.status, Forgotten(u.s.res.status));
    hide MergeStatus;
  }

  lemma ForgottenStranded(s: State, t: State)
    requires Loose(s) && Eligible(s)
    requires t.stored == s.stored.(status := Forgotten(s.stored.status)) && t.versions == s.versions && t.site == s.site
    requires t.remote == s.remote.(resources := s.remote.resources.Remove(s.stored.status.resourceID))
    ensures Stranded(t) && Eligible(t)
  {
    forall kind ensures Known(t, kind) { if kind == Targets {} }
    assert 0 !in s.remote.resources.live;
    hide Recomposes, Matching, Resolve;
  }

  lemma UnguardedByHash(s: State, t: State)
    requires Loose(s) && Behind(s) && s.stored.status.resourceID in s.remote.resources.live
    requires t.stored == s.stored.(status := Forgotten(s.stored.status))
    requires t.remote == s.remote.(resources := s.remote.resources.Remove(s.stored.status.resourceID))
    ensures Unguarded(t) <==> exists kind :: Trusted(s, kind) && s.stored.spec.Children(kind) != []
  {
    forall id ensures !Adoptable(t, id) {}
    forall kind ensures Trusted(t, kind) == Trusted(s, kind) { if kind == Targets {} }
    hide Base, Matching, InForce;
  }

  /** The resource of a settled object is deleted, and the process stops right after it created another:
      the next activation will adopt that one, which clears the hashes but keeps the observed
      generation, so an outage can follow. */
  lemma ReadoptionKeepsGeneration(s: State, script: seq<Event>)
    requires Settled(s) && Resolvable(s) && Smooth(script) && |script| == CallsToCreate(s.stored.spec)
    ensures var u := ApplyEnv(s, DropResource(s.stored.status.resourceID)); var t := Reconcile(u, script);
      && Stranded(t) && Eligible(t) && (exists id :: Adoptable(t, id))
      && ((exists first, second :: Outage(t, first, second)) <==>
            s.stored.spec.targets != [] || s.stored.spec.rules != [] || !InForce(s.remote.defaults, s.stored.spec))
  {
    hide Reconcile, Settled, Resolvable, Smooth, Outage, InForce, Eligible, Poised, CallsToCreate, Loose, CreatedAnew, Live;
    var id := s.stored.status.resourceID;
    var u := ApplyEnv(s, DropResource(id));
    var t := Reconcile(u, script);
    DroppedExactly(s);
    NoneAdoptable(s);
    StrandedPoised(u, script);
    StoppedAfterCreate(u, script);
    SmoothIsQuiet(script);
    AfterQuiet(u, script);
    GroundEligible(u, t);
    CreatedStranded(s, u, t);
    OutageExactly(t);
  }

  lemma CreatedStranded(s: State, u: State, t: State)
    requires Settled(s) && u == ApplyEnv(s, DropResource(s.stored.status.resourceID)) && CreatedAnew(u, t, Newest(t)) && Loose(t)
    requires t.stored == u.stored.(status := u.stored.status.(phase := Creating))
    requires forall id :: !Adoptable(u, id)
    ensures Stranded(t) && Adoptable(t, Newest(t))
    ensures Unguarded(t) <==> s.stored.spec.targets != [] || s.stored.spec.rules != [] || !InForce(s.remote.defaults, s.stored.spec)
  {
    EngagedWhenCurrent(s);
    var id := s.stored.status.resourceID;
    assert id in s.remote.resources.live && id < s.remote.resources.next;
    forall a ensures Adoptable(t, a) <==> a == Newest(t) {}
    hide Base, Honest, Matching, InForce, Truthful;
  }
}
