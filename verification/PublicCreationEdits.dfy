/** Edits that come while an activation creates the resource of an object: when exactly one of them can
    be reported as observed although it is not. */
module PublicCreationEdits {
  import opened Shared
  import opened Domains
  import opened Server
  import opened PublicResource
  import opened PublicSafety
  import opened PublicChildren
  import opened PublicSteps
  import opened PublicProtocol
  import opened PublicRuns
  import opened PublicConvergence
  import opened PublicBoundaries
  import opened PublicTwins
  import opened PublicLoose
  import opened PublicOutage
  import opened PublicConfined

  // ---- What one version does for another ----

  /** The settings of a new resource after the update that follows its creation. */
  function Configured(defaults: Settings, spec: Spec): Settings {
    Apply(ResourceRow("", false, "", 0, "", defaults, false), PostCreateRequest(spec)).settings
  }

  /** In content and order the children of one list are the first of another. */
  predicate Leads(later: seq<ChildSpec>, specs: seq<ChildSpec>) {
    |later| <= |specs| && forall i :: 0 <= i < |later| ==> Content(later[i], i) == Content(specs[i], i)
  }

  /** What a new resource gets from one version is all that another asks for. */
  predicate Covered(defaults: Settings, spec: Spec, later: Spec) {
    InForce(Configured(defaults, spec), later) && Leads(later.targets, spec.targets) && Leads(later.rules, spec.rules)
  }

  /** Settings come from settings, whatever the names are. */
  lemma SettingsAlone(a: ResourceRow, b: ResourceRow, q: UpdateRequest, name: string)
    requires a.settings == b.settings
    ensures Apply(a, q).settings == Apply(b, q.(name := name)).settings
  {
  }

  lemma RequestsAlike(spec: Spec)
    ensures PostCreateRequest(spec) == SettingsRequest(spec).(name := PostCreateRequest(spec).name)
  {
  }

  lemma ConfiguredInForce(defaults: Settings, spec: Spec)
    ensures InForce(Configured(defaults, spec), spec)
  {
    hide Apply, SettingsRequest, PostCreateRequest;
    var row := ResourceRow("", false, "", 0, "", defaults, false);
    var q := SettingsRequest(spec);
    RequestsAlike(spec);
    SettingsAlone(row, row, q, PostCreateRequest(spec).name);
    ApplyTwice(row, q);
    var made := row.(settings := Configured(defaults, spec));
    SettingsAlone(Apply(row, q), made, q, q.name);
    assert q.(name := q.name) == q;
  }

  lemma CoversItself(defaults: Settings, spec: Spec)
    ensures Covered(defaults, spec, spec)
  {
    ConfiguredInForce(defaults, spec);
    hide InForce, Configured, Content;
  }

  /** An edit that asks for nothing new is covered. */
  lemma SameWorkCovers(defaults: Settings, spec: Spec, later: Spec)
    requires SameIdentity(later, spec) && SameWork(later, spec)
    ensures Covered(defaults, spec, later)
  {
    CoversItself(defaults, spec);
    hide SettingsRequest, Configured, Content, Apply;
  }

  /** The tracked resource is what a new one is made into for a version. */
  ghost predicate MadeFor(s: State, defaults: Settings, v: Spec) {
    var id := s.stored.status.resourceID;
    && id in s.remote.resources.live && s.remote.resources.live[id].settings == Configured(defaults, v)
    && HashedAs(s.stored.status, v) && TracksOnly(s.stored.status, v)
  }

  lemma LeadsRealised(s: State, kind: Kind, resource: nat, specs: seq<ChildSpec>, later: seq<ChildSpec>, ids: seq<nat>)
    requires Realised(s, kind, resource, specs, ids) && |ids| == |specs|
    ensures Realised(s, kind, resource, later, ids) <==> Leads(later, specs)
  {
    var live := s.remote.Table(kind).live;
    forall i | 0 <= i < |later| && i < |specs|
      ensures live[ids[i]] == Row(s, kind, resource, later[i], i) <==> Content(later[i], i) == Content(specs[i], i)
    {
      assert live[ids[i]] == Row(s, kind, resource, specs[i], i);
    }
    if Realised(s, kind, resource, later, ids) {
      forall i | 0 <= i < |later| ensures Content(later[i], i) == Content(specs[i], i) {
        assert live[ids[i]] == Row(s, kind, resource, later[i], i);
      }
    }
    hide Content;
  }

  /** A resource made for one version realises another exactly if the one covers the other. */
  lemma MadeForRealises(s: State, defaults: Settings, v: Spec)
    requires Live(s) && MadeFor(s, defaults, v)
    ensures SpecRealised(s) <==> Covered(defaults, v, s.stored.spec)
  {
    hide Base, Unique, InForce, Apply, SettingsRequest, Configured, Leads;
    var st, spec := s.stored.status, s.stored.spec;
    var id := st.resourceID;
    RidNonZero(s) by { hide *; }
    assert Honest(s, st, Targets) && Honest(s, st, Rules);
    LeadsRealised(s, Targets, id, v.targets, spec.targets, st.targets.ids);
    LeadsRealised(s, Rules, id, v.rules, spec.rules, st.rules.ids);
    InForceMeans(s.remote.resources.live[id], spec);
    hide Realised;
  }

  // ---- Creating a new resource while the object is edited ----

  /** No call but those about resources changes them. */
  lemma ResourcesStay(s: State, after: Status)
    requires Tame(s.script, s.stored.spec)
    ensures Patch(s, after).s.remote == s.remote && Get(s).s.remote == s.remote && ChooseDomain(s).s.remote == s.remote
  {
    if !Halted(s) { assert TameEnv(s.script[0].env, s.stored.spec); }
    hide MergeStatus, Resolve;
  }

  lemma CreatedRow(s: State, q: CreateRequest)
    requires Tame(s.script, s.stored.spec)
    ensures var c := ApiCreate(s, q); c.r.Ok? ==>
      && c.id in c.s.remote.resources.live && c.s.remote.resources.live[c.id].settings == s.remote.defaults
      && c.s.remote.defaults == s.remote.defaults
  {
    if !Halted(s) { assert TameEnv(s.script[0].env, s.stored.spec); }
    hide Compose;
  }

  lemma UpdatedRow(s: State, id: nat, v: Spec)
    requires Tame(s.script, s.stored.spec) && id in s.remote.resources.live && s.remote.resources.live[id].settings == s.remote.defaults
    ensures var u := ApiUpdate(s, id, PostCreateRequest(v)); u.r.Ok? ==>
      id in u.s.remote.resources.live && u.s.remote.resources.live[id].settings == Configured(s.remote.defaults, v)
  {
    hide PostCreateRequest, Apply;
    var q := PostCreateRequest(v);
    if !Halted(s) { assert TameEnv(s.script[0].env, s.stored.spec); }
    SettingsAlone(s.remote.resources.live[id], ResourceRow("", false, "", 0, "", s.remote.defaults, false), q, q.name);
    assert q.(name := q.name) == q;
  }

  /** Whichever version the process read last is the one that it made the resource for. */
  lemma PopulateMakes(s: State, id: nat, vs: seq<Spec>, later: Spec)
    requires Populating(s, id) && Confined(s, vs, later)
    requires s.remote.resources.live[id].settings == s.remote.defaults
    ensures var t := Populate(s, id);
      && Confined(t.s, vs, later)
      && (t.r.Ok? ==> MadeFor(t.s, s.remote.defaults, vs[|vs| - 1]) || (t.s.versions == vs + [later] && MadeFor(t.s, s.remote.defaults, later)))
  {
    hide Base, Unique, Tame, Honest, Follows, Get, ApiUpdate, PopulateChildren, Apply, Synced, Kept, Confined, Configured,
         PostCreateRequest, HashedAs, TracksOnly, ChooseDomain, Patch;
    var g := Get(s);
    GetKeeps(s);
    ReadConfined(s, "", vs, later);
    ResourcesStay(s, s.res.status);
    if g.r.Ok? {
      Onward(s, g.s);
      InStep(g.s);
      RidMatches(g.s);
      var v := g.s.res.spec;
      ConfinedMeans(g.s, vs, later);
      PostCreateName(v);
      ApiUpdateKeeps(g.s, id, PostCreateRequest(v));
      WriteConfined(g.s, id, PostCreateRequest(v), vs, later);
      UpdatedRow(g.s, id, v);
      var u := ApiUpdate(g.s, id, PostCreateRequest(v));
      if u.r.Ok? {
        Onward(g.s, u.s);
        PopulateChildrenKeeps(u.s, id);
        PopulateChildrenConfined(u.s, id, vs, later);
        var t := PopulateChildren(u.s, id);
        KeptFollows(g.s, u.s, u.r);
        KeptFollows(u.s, t.s, t.r);
        ConfinedGrows(g.s, u.s, t.s, vs, later);
      }
    }
  }

  lemma PostCreateName(spec: Spec)
    ensures PostCreateRequest(spec).name == "" || PostCreateRequest(spec).name == spec.name
  {
  }

  lemma ConfinedMeans(s: State, vs: seq<Spec>, later: Spec)
    requires Confined(s, vs, later)
    ensures s.stored.spec == vs[|vs| - 1] || (s.stored.spec == later && s.versions == vs + [later])
  {
  }

  lemma ConfinedGrows(s: State, u: State, t: State, vs: seq<Spec>, later: Spec)
    requires Confined(t, vs, later) && Follows(s, u) && Follows(u, t)
    ensures s.versions == vs + [later] ==> t.versions == vs + [later]
  {
  }

  lemma PopulateChildrenConfined(s: State, id: nat, vs: seq<Spec>, later: Spec)
    requires Confined(s, vs, later)
    ensures Confined(PopulateChildren(s, id).s, vs, later)
  {
    hide CreateChildren, Patch, Confined;
    CreationConfined(s, Targets, id, s.res.spec.targets, vs, later);
    var t := CreateChildren(s, Targets, id, s.res.spec.targets).s;
    PatchesConfined(t, vs, later);
    CreationConfined(t, Rules, id, t.res.spec.rules, vs, later);
    PatchesConfined(CreateChildren(t, Rules, id, t.res.spec.rules).s, vs, later);
  }

  lemma PatchesConfined(s: State, vs: seq<Spec>, later: Spec)
    requires Confined(s, vs, later)
    ensures forall after :: Confined(Patch(s, after).s, vs, later)
  {
    forall after ensures Confined(Patch(s, after).s, vs, later) { PatchConfined(s, after, vs, later); }
    hide Patch, Confined;
  }

  lemma CreateAndPersistMakes(s: State, vs: seq<Spec>, later: Spec)
    requires Ready0(s) && !s.crashed && Vacant(s) && Confined(s, vs, later)
    ensures var c := CreateAndPersist(s);
      && Confined(c.s, vs, later)
      && (c.r.Ok? ==> c.id in c.s.remote.resources.live && c.s.remote.resources.live[c.id].settings == s.remote.defaults
                      && c.s.remote.defaults == s.remote.defaults)
  {
    hide Base, Unique, Tame, Honest, Follows, Patch, ChooseDomain, ApiCreate, ApiDelete, Synced, Fresh, Quiet, Ready0, Confined,
         Kept, Matching, Vacant, Get, ApiUpdate, ApiList;
    InStep(s);
    var creating := s.stored.status.(phase := Creating);
    SameClaimsBacked(s, s.stored.status, creating);
    VacantUnengaged(s);
    PatchKeeps(s, creating);
    PatchConfined(s, creating, vs, later);
    var p := Patch(s, creating);
    if p.r.Ok? {
      Onward(s, p.s);
      InStep(p.s);
      KeptFollows(s, p.s, p.r);
      VacantFollows(s, p.s);
      ChooseDomainKeeps(p.s);
      ReadConfined(p.s, "", vs, later);
      var d := ChooseDomain(p.s);
      if d.r.Ok? {
        Onward(p.s, d.s);
        ReadyTame(d.s);
        var q := NewRequest(d.s.res.spec, d.id, d.subdomain);
        CreatedRow(d.s, q);
        CreateConfined(d.s, q, vs, later);
        var c := ApiCreate(d.s, q);
        if c.r.Ok? {
          KeptFollows(p.s, d.s, d.r);
          VacantFollows(p.s, d.s);
          ApiCreateKeeps(d.s, q);
          Onward(d.s, c.s);
          ReadyTame(c.s);
          var after := c.s.res.status.(resourceID := c.id, phase := Creating);
          ResourcesStay(c.s, after);
          PatchConfined(c.s, after, vs, later);
          WriteConfined(Patch(c.s, after).s, c.id, PostCreateRequest(c.s.res.spec), vs, later);
        }
      }
    }
  }

  lemma ReadyTame(s: State)
    requires Ready0(s)
    ensures Tame(s.script, s.stored.spec)
  {
  }

  /** A successful creation under one edit makes the resource for one of the two versions. */
  lemma CreateMakes(s: State, vs: seq<Spec>, later: Spec)
    requires Ready0(s) && !s.crashed && Vacant(s) && Confined(s, vs, later)
    ensures var t := Create(s);
      && Confined(t.s, vs, later)
      && (t.r.Ok? ==> MadeFor(t.s, s.remote.defaults, vs[|vs| - 1]) || (t.s.versions == vs + [later] && MadeFor(t.s, s.remote.defaults, later)))
  {
    hide Base, Unique, Tame, Honest, Follows, CreateAndPersist, Populate, Synced, Kept, Confined, MadeFor, Vacant;
    CreateAndPersistKeeps(s);
    CreateAndPersistMakes(s, vs, later);
    var c := CreateAndPersist(s);
    if c.r.Ok? {
      Onward(s, c.s);
      PopulateMakes(c.s, c.id, vs, later);
    }
  }

  // ---- Which edits are missed ----

  /** An object without a resource: none is recorded, and none can be adopted. */
  ghost predicate NewObject(s: State) {
    Live(s) && Eligible(s) && Vacant(s) && s.stored.status.resourceID == 0
  }

  /** The activation ends with the edited object reported ready, and the edit is not realised. */
  ghost predicate Misses(s: State, script: seq<Event>, later: Spec) {
    var t := Reconcile(s, script);
    Edits(script, later) && t.stored.spec == later && MarkedReady(t.stored) && !SpecRealised(t)
  }

  lemma EditsAreTame(script: seq<Event>, later: Spec, spec: Spec)
    requires Edits(script, later) && SameIdentity(later, spec)
    ensures Tame(script, spec)
  {
  }

  lemma EditsStart(s: State, script: seq<Event>, later: Spec)
    requires Live(s) && s.stored.finalizer && Edits(script, later) && SameIdentity(later, s.stored.spec)
    ensures var m := Start(s, script);
      Ready0(m) && !m.crashed && Fresh(m) && Confined(m, s.versions, later) && (Vacant(s) ==> Vacant(m))
  {
    StartKeeps(s, script);
    EditsAreTame(script, later, s.stored.spec);
    hide Unique, Backed, Matching, Tame, Edits;
  }

  /** Without a resource to keep or to adopt the reconciler creates one. */
  lemma CreatesAnew(s: State)
    requires Ready0(s) && Vacant(s) && s.res == s.stored && s.stored.status.resourceID !in s.remote.resources.live
    ensures var l := ApiList(s, s.res.spec.name); var c := Create(l.s);
      && EnsureExists(s) == (if l.r.Ok? then Ensured(c.s, c.r, false) else Ensured(l.s, l.r, false))
      && (l.r.Ok? ==> Ready0(l.s) && !l.s.crashed && Vacant(l.s) && l.s.remote == s.remote && l.s.res == s.res)
  {
    hide Base, Backed, Tame, ApiList, Listing, FindResource, Kept, Unique, Matching, Create, Lists;
    ListKeeps(s, s.res.spec.name);
    var l := ApiList(s, s.res.spec.name);
    if l.r.Ok? {
      Onward(s, l.s);
      KeptFollows(s, l.s, l.r);
      VacantFollows(s, l.s);
      NothingListed(s);
      DeadNotListed(s, s.res.spec.name);
    }
  }

  lemma NothingListed(s: State)
    requires Vacant(s)
    ensures FindResource(Listing(s.remote.resources.live, s.stored.spec.name, s.remote.resources.next), s.stored.spec).None?
  {
    var items := Listing(s.remote.resources.live, s.stored.spec.name, s.remote.resources.next);
    forall item | item in items ensures !IsMatch(item.name, item.fullDomain, s.stored.spec) {
      var i :| 0 <= i < |items| && items[i] == item;
      assert !Matching(s.remote.resources.live[item.id], s.stored.spec);
    }
    hide Listing, FindResource;
  }

  /** A report of a failure leaves the observed generation alone. */
  lemma FailureObserves(s: State, kinds: set<ErrKind>)
    requires Live(s) && Tame(s.script, s.stored.spec)
    ensures ReportEnsure(s, kinds).stored.status.observedGeneration == s.stored.status.observedGeneration
    ensures Base(ReportEnsure(s, kinds))
  {
    ReportKeeps(s, Unready(s, Pending));
    ReportKeeps(s, Unready(s, PermanentError).(phase := Failed));
    ReportKeeps(s, Unready(s, Erroneous));
    hide Patch, Base, Unique, Backed, Tame;
  }

  /** An edit is not missed if what was done for the first version covers it. */
  lemma CoveredIsRealised(s: State, script: seq<Event>, later: Spec)
    requires NewObject(s) && SameIdentity(later, s.stored.spec) && Edits(script, later)
    requires Covered(s.remote.defaults, s.stored.spec, later)
    requires var t := Reconcile(s, script); t.stored.spec == later && MarkedReady(t.stored)
    ensures SpecRealised(Reconcile(s, script))
  {
    hide Base, Unique, Backed, Tame, ApiList, Create, FindResource, Patch, Covered, Confined, Vacant, MadeFor, SpecRealised, Edits, Kept,
         MarkedReady, Resolvable, Matching, ReportEnsure, Finish, Ready0, EnsureExists;
    var m, vs, spec := Start(s, script), s.versions, s.stored.spec;
    NewHasNothing(s);
    EditsStart(s, script, later);
    ReconcileIs(s, script);
    CreatesAnew(m);
    ReadConfined(m, spec.name, vs, later);
    var l := ApiList(m, spec.name);
    var e := EnsureExists(m);
    EnsureExistsKeeps(m);
    KeptFollows(m, e.s, e.r);
    if e.r.Err? {
      ReadyTame(m);
      TameFollows(m, e.s);
      FailureObserves(e.s, e.r.kinds);
      NotMarked(Reconcile(s, script));
    } else {
      CreateMakes(l.s, vs, later);
      CreateKeeps(l.s);
      Onward(m, e.s);
      var t := Finish(e.s);
      assert Reconcile(s, script) == t;
      FinishKeeps(e.s);
      FinishConfined(e.s, vs, later);
      InStep(e.s);
      MadeForAfter(e.s, t, s.remote.defaults, spec, later);
      if MadeFor(t, s.remote.defaults, spec) {
        MadeForRealises(t, s.remote.defaults, spec);
      } else {
        CoversItself(s.remote.defaults, later);
        MadeForRealises(t, s.remote.defaults, later);
      }
    }
  }

  lemma NewHasNothing(s: State)
    requires NewObject(s)
    ensures s.stored.status.resourceID !in s.remote.resources.live && s.stored.status.observedGeneration == 0
    ensures Live(s) && Eligible(s) && Vacant(s) && s.stored.status.resourceID == 0 && s.versions[|s.versions| - 1] == s.stored.spec
  {
  }

  lemma NotMarked(s: State)
    requires Base(s) && s.stored.status.observedGeneration == 0
    ensures !MarkedReady(s.stored)
  {
  }

  lemma FinishConfined(s: State, vs: seq<Spec>, later: Spec)
    requires Confined(s, vs, later)
    ensures Confined(Finish(s), vs, later)
  {
    PatchConfined(s, Finished(s), vs, later);
    hide Patch, Confined;
  }

  lemma MadeForAfter(s: State, t: State, defaults: Settings, spec: Spec, later: Spec)
    requires t.remote == s.remote && SameClaimsOn(t.stored.status, s.stored.status)
    ensures MadeFor(s, defaults, spec) ==> MadeFor(t, defaults, spec)
    ensures MadeFor(s, defaults, later) ==> MadeFor(t, defaults, later)
  {
    hide Configured;
  }

  // ---- The script in which the edit is missed ----

  /** Everything up to the recording patch is done for the first version, and the patch brings the edit. */
  lemma PopulateEdited(s: State, id: nat, later: Spec)
    requires Populating(s, id) && Lead(s, 2 + |s.stored.spec.targets| + |s.stored.spec.rules|, Tail(later, 1))
    requires later != s.stored.spec && !s.stored.deleting && s.remote.resources.live[id].settings == s.remote.defaults
    ensures var t := Populate(s, id);
      && t.r.Ok? && Fuel(t.s, 1) && t.s.stored.spec == later
      && t.s.stored.generation == s.stored.generation + 1 && t.s.res == t.s.stored && MadeFor(t.s, s.remote.defaults, s.stored.spec)
  {
    hide Base, Unique, Tame, Honest, Follows, ApiUpdate, CreateChildren, Patch, Get, Apply, Synced, Kept, Configured, PopulateChildren,
         PostCreateRequest, Lead, Tail;
    var spec := s.stored.spec;
    var nt, nr := |spec.targets|, |spec.rules|;
    LeadGet(s, 1 + nt + nr, Tail(later, 1));
    GetKeeps(s);
    var g := Get(s).s;
    Onward(s, g);
    InStep(g);
    RidMatches(g);
    ReadyTame(g);
    var q := PostCreateRequest(spec);
    PostCreateName(spec);
    LeadUpdate(g, id, q, nt + nr, Tail(later, 1));
    ApiUpdateKeeps(g, id, q);
    UpdatedRow(g, id, spec);
    var u := ApiUpdate(g, id, q).s;
    Onward(g, u);
    PopulateChildrenKeeps(u, id);
    PopulateChildrenEdited(u, id, later);
  }

  lemma PopulateChildrenEdited(s: State, id: nat, later: Spec)
    requires Lead(s, |s.stored.spec.targets| + |s.stored.spec.rules|, Tail(later, 1)) && s.res == s.stored && later != s.stored.spec
    requires id in s.remote.resources.live && !s.stored.deleting
    ensures var t := PopulateChildren(s, id);
      && t.r.Ok? && Fuel(t.s, 1) && t.s.stored.spec == later
      && t.s.stored.generation == s.stored.generation + 1 && t.s.res == t.s.stored
  {
    hide CreateChildren, Patch, Lead, Tail;
    var spec := s.stored.spec;
    LeadChildren(s, Targets, id, spec.targets, |spec.rules|, Tail(later, 1));
    var t := CreateChildren(s, Targets, id, spec.targets);
    LeadChildren(t.s, Rules, id, spec.rules, 0, Tail(later, 1));
    var r := CreateChildren(t.s, Rules, id, spec.rules);
    EditedPatch(r.s, r.s.res.status.(targets := Tracked(t.ids, HashOf(spec.targets)), rules := Tracked(r.ids, HashOf(spec.rules))), later, 1);
  }

  /** All the calls before the one that brings the edit. */
  function CallsBefore(spec: Spec): nat {
    CallsToCreate(spec) + 3 + |spec.targets| + |spec.rules|
  }

  function LateScript(spec: Spec, later: Spec): seq<Event> {
    EditedAt(CallsBefore(spec), later, 1)
  }

  lemma CreateAndPersistLeads(s: State, n: nat, tail: seq<Event>)
    requires s.res == s.stored && Resolvable(s) && Lead(s, n + CallsToCreate(s.stored.spec), tail)
    ensures var c := CreateAndPersist(s);
      c.r.Ok? && Lead(c.s, n, tail) && c.s.stored == s.stored.(status := c.s.stored.status)
  {
    hide Patch, ChooseDomain, ApiCreate, ApiDelete, Lead, Resolve;
    var dom := if NeedsDomain(s.stored.spec) then 1 else 0;
    var creating := s.res.status.(phase := Creating);
    LeadPatch(s, creating, n + 2 + dom, tail);
    var p := Patch(s, creating).s;
    LeadDomain(p, n + 2, tail);
    var d := ChooseDomain(p);
    var q := NewRequest(d.s.res.spec, d.id, d.subdomain);
    LeadCreate(d.s, q, n + 1, tail);
    var c := ApiCreate(d.s, q);
    LeadPatch(c.s, c.s.res.status.(resourceID := c.id, phase := Creating), n, tail);
  }

  /** One edit, at that moment, with every call answered: the object is reported ready for its new
      generation, and the edit is realised exactly if what was done for the old version covers it. */
  lemma LateEdit(s: State, later: Spec)
    requires NewObject(s) && SameIdentity(later, s.stored.spec) && later != s.stored.spec
    ensures var t := Reconcile(s, LateScript(s.stored.spec, later));
      && MarkedReady(t.stored) && t.stored.spec == later && t.stored.generation == s.stored.generation + 1
      && (SpecRealised(t) <==> Covered(s.remote.defaults, s.stored.spec, later)) && TracksOnly(t.stored.status, s.stored.spec)
  {
    hide Base, Unique, Backed, Tame, ApiList, CreateAndPersist, Populate, FindResource, Patch, Covered, Confined, Vacant, MadeFor, SpecRealised,
         Edits, Kept, Resolvable, Matching, Finish, Lead, Tail, EditedAt, CallsToCreate;
    var vs, spec := s.versions, s.stored.spec;
    var script := LateScript(spec, later);
    var m := Start(s, script);
    EditedAtLeads(s, CallsBefore(spec), later, 1);
    NewHasNothing(s);
    EditsStart(s, script, later);
    ReconcileIs(s, script);
    CreatesAnew(m);
    ResolvableStart(s, script);
    LeadList(m, spec.name, CallsToCreate(spec) + 2 + |spec.targets| + |spec.rules|, Tail(later, 1));
    var l := ApiList(m, spec.name).s;
    SameResolvable(m, l);
    CreateAndPersistLeads(l, 2 + |spec.targets| + |spec.rules|, Tail(later, 1));
    CreateAndPersistKeeps(l);
    ReadConfined(m, spec.name, vs, later);
    CreateAndPersistMakes(l, vs, later);
    var c := CreateAndPersist(l);
    Onward(l, c.s);
    PopulateEdited(c.s, c.id, later);
    PopulateKeeps(c.s, c.id);
    var e := Populate(c.s, c.id).s;
    Onward(c.s, e);
    assert EnsureExists(m) == Ensured(e, Ok, false);
    assert Reconcile(s, script) == Finish(e);
    FinishSmooth(e);
    FinishKeeps(e);
    MadeForAfter(e, Finish(e), s.remote.defaults, spec, later);
    MadeForRealises(Finish(e), s.remote.defaults, spec);
    assert TracksOnly(Finish(e).stored.status, spec) by { MadeForTracks(Finish(e), s.remote.defaults, spec); }
  }

  lemma MadeForTracks(s: State, defaults: Settings, v: Spec)
    requires MadeFor(s, defaults, v)
    ensures TracksOnly(s.stored.status, v)
  {
  }

  lemma ResolvableStart(s: State, script: seq<Event>)
    requires NewObject(s)
    ensures Resolvable(Start(s, script))
  {
    hide Resolve;
  }
}
