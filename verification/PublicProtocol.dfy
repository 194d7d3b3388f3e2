/** Whole activations of the PublicResource reconciler, and runs of them. */
module PublicProtocol {
  import opened Shared
  import opened Server
  import opened PublicResource
  import opened PublicSafety
  import opened PublicChildren
  import opened PublicSteps

  // ---- Create ----

  lemma CreateAndPersistKeeps(s: State)
    requires Ready0(s) && !s.crashed && Vacant(s)
    ensures var c := CreateAndPersist(s);
      && Kept(s, c.s, c.r)
      && !Engaged(c.s.stored.status)
      && (c.r.Ok? ==> !c.s.crashed && c.s.stored.status.resourceID == c.id && c.id in c.s.remote.resources.live)
  {
    hide Base, Unique, Tame, Honest, Follows, Patch, ChooseDomain, ApiCreate, ApiDelete, Synced, Fresh, Quiet, Ready0,
         Kept, Matching;
    InStep(s);
    var creating := s.stored.status.(phase := Creating);
    SameClaimsBacked(s, s.stored.status, creating);
    PatchKeeps(s, creating);
    var p := Patch(s, creating);
    VacantUnengaged(s);
    if p.r.Ok? {
      Onward(s, p.s);
      InStep(p.s);
      KeptFollows(s, p.s, p.r);
      VacantFollows(s, p.s);
      ChooseDomainKeeps(p.s);
      var d := ChooseDomain(p.s);
      KeptChain(s, p.s, d.s, d.r);
      if d.r.Ok? {
        Onward(s, d.s);
        KeptFollows(s, d.s, d.r);
        VacantFollows(s, d.s);
        var q := NewRequest(d.s.res.spec, d.id, d.subdomain);
        ApiCreateKeeps(d.s, q);
        var c := ApiCreate(d.s, q);
        KeptChain(s, d.s, c.s, c.r);
        if c.r.Ok? {
          Onward(s, c.s);
          InStep(c.s);
          PersistKeeps(c.s, c.id);
          KeptChain(s, c.s, Persist(c.s, c.id).s, Persist(c.s, c.id).r);
        }
      }
    }
  }

  lemma PersistKeeps(s: State, id: nat)
    requires Ready0(s) && !s.crashed && !Engaged(s.stored.status)
    requires id in s.remote.resources.live && Matching(s.remote.resources.live[id], s.stored.spec)
    ensures var c := Persist(s, id);
      && Kept(s, c.s, c.r) && !Engaged(c.s.stored.status)
      && (c.r.Ok? ==> !c.s.crashed && c.s.stored.status.resourceID == id && id in c.s.remote.resources.live)
  {
    hide Base, Unique, Tame, Honest, Follows, Patch, ApiDelete, Matching;
    InStep(s);
    var after := s.stored.status.(resourceID := id, phase := Creating);
    UnengagedBacked(s, after);
    PatchKeeps(s, after);
    var q := Patch(s, after);
    TameFollows(s, q.s);
    if q.r.Err? {
      RollBackKeeps(q.s, id);
      RollBackStatus(q.s, id);
      FollowsChain(s, q.s, ApiDelete(q.s, id).s);
    }
  }

  lemma RollBackStatus(s: State, id: nat)
    ensures ApiDelete(s, id).s.stored.status == s.stored.status
  {
  }

  lemma TameFollows(s: State, t: State)
    requires Follows(s, t) && Tame(s.script, s.stored.spec)
    ensures Tame(t.script, t.stored.spec)
  {
  }

  lemma KeptFollows(s: State, t: State, r: Result)
    requires Kept(s, t, r)
    ensures Follows(s, t) && Live(t)
  {
  }

  lemma NewChildrenGrew(s: State, t: State, kind: Kind, resource: nat, ids: seq<nat>, base: nat)
    requires NewChildren(s, Other(kind), resource, ids, base) && Grew(s, t, kind)
    ensures NewChildren(t, Other(kind), resource, ids, base)
  {
  }

  lemma RealisedGrew(s: State, t: State, kind: Kind, resource: nat, specs: seq<ChildSpec>, ids: seq<nat>)
    requires Realised(s, Other(kind), resource, specs, ids) && Grew(s, t, kind)
    ensures Realised(t, Other(kind), resource, specs, ids)
  {
  }

  /** The status while a new resource is being populated: nothing claimed yet. */
  ghost predicate Populating(s: State, id: nat) {
    && Ready0(s) && !s.crashed && !Engaged(s.stored.status)
    && s.stored.status.resourceID == id && id in s.remote.resources.live
  }

  lemma PopulateTargets(s: State, id: nat)
    requires Populating(s, id)
    ensures var t := CreateChildren(s, Targets, id, s.res.spec.targets);
      && Grew(s, t.s, Targets) && Populating2(s, t.s, id) && NotFound !in t.kinds
      && NewChildren(t.s, Targets, id, t.ids, 0)
      && Backed(t.s, s.stored.status.(targets := Tracked(t.ids, NoHash)))
      && (!t.failed ==> !t.s.crashed && Realised(t.s, Targets, id, s.res.spec.targets, t.ids) && |t.ids| == |s.res.spec.targets|)
  {
    hide Base, Unique, Tame, Grew, CreateChildren, Follows, NewChildren, Realised, Synced, Honest;
    CreateChildrenKeeps(s, Targets, id, s.res.spec.targets);
    var t := CreateChildren(s, Targets, id, s.res.spec.targets);
    GrewFacts(s, t.s, Targets);
    GrewBacked(s, t.s, s.stored.status, Targets);
    NewSince(t.s, Targets, id, t.ids, s.remote.Table(Targets).next);
    ClaimMore(t.s, s.stored.status, Targets, t.ids);
    assert [] + t.ids == t.ids;
  }

  /** t follows s with the same copy, status and resources, and is as safe as s. */
  ghost predicate Populating2(s: State, t: State, id: nat) {
    && Ready0(t) && t.res == s.res && t.stored.status == s.stored.status && t.remote.resources == s.remote.resources
    && Follows(s, t)
  }

  lemma PopulateRules(s: State, id: nat, targetIDs: seq<nat>)
    requires Populating(s, id) && NewChildren(s, Targets, id, targetIDs, 0)
    requires Realised(s, Targets, id, s.res.spec.targets, targetIDs)
    ensures var r := CreateChildren(s, Rules, id, s.res.spec.rules);
      && Grew(s, r.s, Rules) && Populating2(s, r.s, id) && NotFound !in r.kinds
      && Backed(r.s, s.stored.status.(targets := Tracked(targetIDs, NoHash), rules := Tracked(r.ids, NoHash)))
      && (!r.failed ==> !r.s.crashed && |r.ids| == |s.res.spec.rules| && Backed(r.s, s.stored.status.(
            targets := Tracked(targetIDs, HashOf(s.res.spec.targets)), rules := Tracked(r.ids, HashOf(s.res.spec.rules)))))
  {
    hide Base, Unique, Tame, Grew, CreateChildren, Follows, NewChildren, Realised, Synced, Honest;
    var st := s.stored.status;
    CreateChildrenKeeps(s, Rules, id, s.res.spec.rules);
    var r := CreateChildren(s, Rules, id, s.res.spec.rules);
    GrewFacts(s, r.s, Rules);
    GrewBacked(s, r.s, st, Rules);
    NewSince(r.s, Rules, id, r.ids, s.remote.Table(Rules).next);
    NewChildrenGrew(s, r.s, Rules, id, targetIDs, 0);
    RealisedGrew(s, r.s, Rules, id, s.res.spec.targets, targetIDs);
    ClaimMore(r.s, st, Targets, targetIDs);
    assert [] + targetIDs == targetIDs && [] + r.ids == r.ids;
    ClaimMore(r.s, st.(targets := Tracked(targetIDs, NoHash)), Rules, r.ids);
    if !r.failed {
      CopyIsAVersion(s, Targets);
      CopyIsAVersion(s, Rules);
      VersionsGrow(s, r.s, Targets, s.res.spec.targets);
      VersionsGrow(s, r.s, Rules, s.res.spec.rules);
      ClaimNew(r.s, st, Targets, targetIDs, s.res.spec.targets);
      ClaimNew(r.s, st.(targets := Tracked(targetIDs, HashOf(s.res.spec.targets))), Rules, r.ids, s.res.spec.rules);
    }
  }

  /** One child is tracked for each that the spec lists. */
  predicate TracksOnly(st: Status, spec: Spec) {
    |st.targets.ids| == |spec.targets| && |st.rules.ids| == |spec.rules|
  }

  lemma PopulateChildrenKeeps(s: State, id: nat)
    requires Populating(s, id)
    ensures var t := PopulateChildren(s, id);
      && Kept(s, t.s, t.r) && t.s.remote.resources == s.remote.resources
      && t.s.stored.status.resourceID == id && t.s.stored.status.observedGeneration == 0
      && (t.r.Ok? ==> !t.s.crashed && HashedAs(t.s.stored.status, s.res.spec) && TracksOnly(t.s.stored.status, s.res.spec))
      && (t.r.Err? ==> NotFound !in t.r.kinds)
  {
    hide Base, Unique, Tame, Grew, CreateChildren, Patch, Follows, NewChildren, Realised, Synced, Honest;
    var st := s.stored.status;
    InStep(s) by { hide Backed; }
    PopulateTargets(s, id);
    var t := CreateChildren(s, Targets, id, s.res.spec.targets);
    if t.failed {
      if |t.ids| > 0 {
        PatchKeeps(t.s, st.(targets := Tracked(t.ids, NoHash)));
        FollowsChain(s, t.s, PopulateChildren(s, id).s);
      }
    } else {
      PopulateRules(t.s, id, t.ids);
      var r := CreateChildren(t.s, Rules, id, t.s.res.spec.rules);
      FollowsChain(s, t.s, r.s);
      if r.failed {
        PatchKeeps(r.s, st.(targets := Tracked(t.ids, NoHash), rules := Tracked(r.ids, NoHash)));
      } else {
        PatchKeeps(r.s, st.(targets := Tracked(t.ids, HashOf(s.res.spec.targets)), rules := Tracked(r.ids, HashOf(s.res.spec.rules))));
      }
      FollowsChain(s, r.s, PopulateChildren(s, id).s);
    }
  }

  lemma SamePostCreate(a: Spec, b: Spec)
    requires SameIdentity(a, b) && SameWork(a, b)
    ensures PostCreateRequest(a) == PostCreateRequest(b)
  {
  }

  lemma PopulateKeeps(s: State, id: nat)
    requires Populating(s, id)
    ensures var t := Populate(s, id);
      && Kept(s, t.s, t.r) && id in t.s.remote.resources.live
      && t.s.stored.status.resourceID == id && t.s.stored.status.observedGeneration == 0
      && (t.r.Err? ==> NotFound !in t.r.kinds)
      && (t.r.Ok? ==> !t.s.crashed)
      && (t.r.Ok? && Gentle(s.script, s.stored.spec) && Apt(s) ==>
            Carries(t.s, id, PostCreateRequest(s.stored.spec)) && HashedAs(t.s.stored.status, s.stored.spec))
  {
    hide Base, Unique, Tame, Honest, Follows, Get, ApiUpdate, PopulateChildren, Apply, Synced, Kept, Ready0, Apt,
         Gentle;
    var g := Get(s);
    GetKeeps(s);
    if g.r.Ok? {
      Onward(s, g.s);
      InStep(g.s);
      RidMatches(g.s);
      var q := PostCreateRequest(g.s.res.spec);
      ApiUpdateKeeps(g.s, id, q);
      var u := ApiUpdate(g.s, id, q);
      KeptChain(s, g.s, u.s, u.r);
      if u.r.Ok? {
        Onward(s, u.s);
        PopulateChildrenKeeps(u.s, id);
        var t := PopulateChildren(u.s, id);
        KeptChain(s, u.s, t.s, t.r);
        if t.r.Ok? && Gentle(s.script, s.stored.spec) && Apt(s) {
          StillApt(s, g.s);
          StillApt(s, u.s);
          SamePostCreate(g.s.res.spec, s.stored.spec);
          CarriesFollows(u.s, t.s, id, q);
        }
      }
    }
  }

  // ---- Ensuring existence ----

  /** The resource carries this spec's settings and the stored hashes are this spec's. */
  ghost predicate UpToDate(s: State) {
    && Carries(s, s.stored.status.resourceID, SettingsRequest(s.stored.spec))
    && HashedAs(s.stored.status, s.stored.spec)
  }

  lemma PostCreateIsSettings(s: State, id: nat)
    requires Base(s) && Linked(s, s.stored.status) && s.stored.status.resourceID == id
    requires Carries(s, id, PostCreateRequest(s.stored.spec))
    ensures Carries(s, id, SettingsRequest(s.stored.spec))
  {
  }

  /** A listing by the spec's name shows the tracked resource, and no match means none exists. */
  lemma ListingDecides(s: State)
    requires Live(s) && SameIdentity(s.res.spec, s.stored.spec)
    ensures var items := Listing(s.remote.resources.live, s.res.spec.name, s.remote.resources.next);
      var id := s.stored.status.resourceID;
      && (Lists(items, id) ==> id in s.remote.resources.live)
      && (Engaged(s.stored.status) ==> Lists(items, id))
      && (FindResource(items, s.res.spec).None? && !Engaged(s.stored.status) ==> Vacant(s))
      && (FindResource(items, s.res.spec).Some? ==>
            var m := FindResource(items, s.res.spec).value.id;
            m in s.remote.resources.live && Matching(s.remote.resources.live[m], s.stored.spec))
  {
    hide Honest, Recomposes, Listing, FindResource;
    var live := s.remote.resources.live;
    var items := Listing(live, s.res.spec.name, s.remote.resources.next);
    var id := s.stored.status.resourceID;
    if Engaged(s.stored.status) {
      assert ResourceItem(id, s.res.spec.name, live[id].fullDomain) in items;
    }
    forall m | m in live && Matching(live[m], s.stored.spec)
      ensures ResourceItem(m, s.res.spec.name, live[m].fullDomain) in items
    {
    }
  }

  lemma AdoptedBacked(s: State, st: Status, id: nat)
    requires Linked(s, st) && id in s.remote.resources.live && Matching(s.remote.resources.live[id], s.stored.spec)
    ensures Backed(s, Adopted(st, id))
  {
    var after := Adopted(st, id);
    forall kind ensures Honest(s, after, kind) {
      if kind == Targets {}
    }
  }

  /** What a successful check for existence has established. */
  ghost predicate EnsuredFacts(s: State, e: Ensured) {
    && e.s.stored.status.resourceID in e.s.remote.resources.live
    && e.s.stored.status.observedGeneration == s.stored.status.observedGeneration
    && (!Engaged(s.stored.status) && s.stored.status.resourceID !in s.remote.resources.live && !e.adopted
        && Gentle(s.script, s.stored.spec) && Apt(s) ==>
          UpToDate(e.s))
  }

  lemma EnsureExistsKeeps(s: State)
    requires Ready0(s) && !s.crashed
    ensures var e := EnsureExists(s);
      && Kept(s, e.s, e.r)
      && e.s.stored.status.observedGeneration == s.stored.status.observedGeneration
      && (Engaged(s.stored.status) ==> !e.adopted && e.s.remote == s.remote && e.s.stored.status == s.stored.status)
      && (e.r.Ok? ==> !e.s.crashed && EnsuredFacts(s, e))
  {
    hide Base, Unique, Tame, Honest, Follows, ApiList, Listing, FindResource, Patch, Create, Synced, Kept, Ready0, Apt, Gentle,
         Matching, Vacant, Lists, Carries;
    InStep(s);
    ListKeeps(s, s.res.spec.name);
    var l := ApiList(s, s.res.spec.name);
    if l.r.Ok? {
      Onward(s, l.s);
      InStep(l.s);
      ListingDecides(l.s);
      var st := s.stored.status;
      if st.resourceID != 0 && Lists(l.items, st.resourceID) {
      } else if FindResource(l.items, s.res.spec).Some? {
        var id := FindResource(l.items, s.res.spec).value.id;
        LiveNonZero(l.s);
        AdoptedBacked(l.s, st, id);
        PatchKeeps(l.s, Adopted(st, id));
        KeptChain(s, l.s, EnsureExists(s).s, EnsureExists(s).r);
      } else {
        LiveNonZero(l.s);
        CreateKeeps(l.s);
        var c := Create(l.s);
        KeptChain(s, l.s, c.s, c.r);
        if Gentle(s.script, s.stored.spec) && Apt(s) { StillApt(s, l.s); }
      }
    }
  }

  lemma LiveNonZero(s: State)
    requires Live(s)
    ensures Engaged(s.stored.status) ==> s.stored.status.resourceID != 0
  {
  }

  lemma CreateKeeps(s: State)
    requires Ready0(s) && !s.crashed && Vacant(s)
    ensures var c := Create(s);
      && Kept(s, c.s, c.r) && c.s.stored.status.observedGeneration == 0
      && (c.r.Ok? ==> !c.s.crashed && c.s.stored.status.resourceID in c.s.remote.resources.live)
      && (c.r.Ok? && Gentle(s.script, s.stored.spec) && Apt(s) ==> UpToDate(c.s))
  {
    hide Base, Unique, Tame, Honest, Follows, CreateAndPersist, Populate, Synced, Kept, Apt, Gentle, Carries,
         SettingsRequest, PostCreateRequest;
    CreateAndPersistKeeps(s);
    var c := CreateAndPersist(s);
    if c.r.Ok? {
      Onward(s, c.s);
      PopulateKeeps(c.s, c.id);
      var t := Populate(c.s, c.id);
      KeptChain(s, c.s, t.s, t.r);
      if t.r.Ok? && Gentle(s.script, s.stored.spec) && Apt(s) {
        StillApt(s, c.s);
        Onward(s, t.s);
        StillApt(s, t.s);
        SamePostCreate(c.s.stored.spec, t.s.stored.spec);
        PostCreateIsSettings(t.s, c.id);
      }
    }
  }

  // ---- Whole activations ----

  /** The Ready mark is honest: a status that claims the current generation is backed by the server. */
  ghost predicate Truthful(s: State) {
    s.stored.status.observedGeneration == s.stored.generation ==> UpToDate(s)
  }

  /** What an activation leaves behind. */
  ghost predicate Through(s: State, t: State) {
    && Follows(s, t) && Live(t)
    && (Gentle(s.script, s.stored.spec) && Apt(s) && Truthful(s) ==> Truthful(t))
  }

  /** Reporting a failure keeps the old observed generation. */
  lemma ReportThrough(s: State, t: State, after: Status)
    requires Live(s) && Follows(s, t) && Live(t) && Tame(t.script, t.stored.spec)
    requires SameClaims(after, t.res.status) && Reports(t.res.status, after)
    requires Behind(s) && t.stored.status.observedGeneration == s.stored.status.observedGeneration
    ensures Through(s, Patch(t, after).s)
  {
    hide Base, Unique, Backed, Tame, Patch, UpToDate;
    ReportKeeps(t, after);
    var u := Patch(t, after).s;
    FollowsChain(s, t, u);
    StillBehind(s, u);
  }

  ghost predicate Behind(s: State) {
    s.stored.status.observedGeneration != s.stored.generation
  }

  /** New versions only leave the observed generation further behind. */
  lemma StillBehind(s: State, t: State)
    requires Live(s) && Base(t) && Follows(s, t) && Behind(s)
    requires t.stored.status.observedGeneration == s.stored.status.observedGeneration
    ensures Behind(t)
  {
    hide Unique, Honest, Recomposes;
  }

  function Finished(s: State): Status {
    s.res.status.(phase := Ready, observedGeneration := s.res.generation,
                  condition := Condition(true, Reconciled, s.res.generation))
  }

  lemma FinishedBacked(s: State)
    requires Ready0(s) && !s.crashed && s.stored.status.resourceID in s.remote.resources.live
    ensures Backed(s, Finished(s))
  {
    var st := s.stored.status;
    forall kind ensures Honest(s, Finished(s), kind) {
      assert Honest(s, st, kind) by { if kind == Targets {} }
    }
  }

  lemma FinishKeeps(s: State)
    requires Ready0(s) && (!s.crashed ==> s.stored.status.resourceID in s.remote.resources.live)
    ensures var t := Finish(s);
      && Follows(s, t) && Live(t) && t.remote == s.remote
      && (t.stored.status == s.stored.status || (!s.crashed && t.stored.status == Finished(s)))
  {
    hide Base, Unique, Honest, Tame, Patch, Follows;
    if s.crashed {
      SameBesidesCarries(s, s);
      assert Finish(s) == s by { CrashedPatch(s, Finished(s)); }
    } else {
      InStep(s);
      FinishedBacked(s);
      PatchKeeps(s, Finished(s));
    }
  }

  lemma CrashedPatch(s: State, after: Status)
    requires s.crashed
    ensures Patch(s, after).s == s && Patch(s, after).r.Err?
  {
  }

  /** Being up to date does not depend on which of two versions that ask for the same is stored. */
  lemma SameWorkUpToDate(s: State, t: State)
    requires UpToDate(s) && t.remote == s.remote && SameWork(t.stored.spec, s.stored.spec)
    requires t.stored.status.resourceID == s.stored.status.resourceID
    requires t.stored.status.targets == s.stored.status.targets && t.stored.status.rules == s.stored.status.rules
    ensures UpToDate(t)
  {
    hide Apply, SettingsRequest;
  }

  lemma FollowsGently(s: State, t: State)
    requires Follows(s, t) && Gentle(s.script, s.stored.spec)
    ensures Gentle(t.script, t.stored.spec) && SameWork(t.stored.spec, s.stored.spec)
  {
  }

  /** Finishing what has been brought up to date is honest. */
  lemma FinishHonest(s0: State, s: State)
    requires Live(s0) && Follows(s0, s) && Ready0(s) && Behind(s0) && Gentle(s.script, s.stored.spec)
    requires s.stored.status.observedGeneration == s0.stored.status.observedGeneration
    requires !s.crashed ==> s.stored.status.resourceID in s.remote.resources.live && UpToDate(s)
    ensures Through(s0, Finish(s))
  {
    hide Base, Unique, Backed, Tame, Finish, UpToDate, Gentle, SameWork;
    FinishKeeps(s);
    var t := Finish(s);
    FollowsChain(s0, s, t);
    if t.stored.status.observedGeneration == s0.stored.status.observedGeneration {
      StillBehind(s0, t);
    } else {
      InStep(s);
      FollowsGently(s, t);
      SameWorkUpToDate(s, t);
    }
  }

  lemma QuietSpec(s: State, t: State)
    requires Live(s) && Live(t) && Follows(s, t) && Quiet(s.script)
    ensures t.stored.spec == s.stored.spec && t.stored.generation == s.stored.generation
  {
  }

  lemma FinishThrough(s0: State, s: State)
    requires Live(s0) && Follows(s0, s) && Ready0(s) && Behind(s0)
    requires s.stored.status.observedGeneration == s0.stored.status.observedGeneration
    requires !s.crashed ==> s.stored.status.resourceID in s.remote.resources.live
    requires !s.crashed && Gentle(s0.script, s0.stored.spec) && Apt(s0) ==> UpToDate(s)
    ensures Through(s0, Finish(s))
  {
    hide Base, Unique, Backed, Tame, Finish, UpToDate, Gentle;
    if Gentle(s0.script, s0.stored.spec) && Apt(s0) {
      FollowsGently(s0, s);
      FinishHonest(s0, s);
    } else {
      FinishKeeps(s);
      FollowsChain(s0, s, Finish(s));
    }
  }

  lemma ReportUpdateThrough(s0: State, s: State, kinds: set<ErrKind>)
    requires Live(s0) && Follows(s0, s) && Live(s) && Tame(s.script, s.stored.spec) && NotFound !in kinds && Behind(s0)
    requires s.stored.status.observedGeneration == s0.stored.status.observedGeneration
    ensures Through(s0, ReportUpdate(s, kinds))
  {
    ReportThrough(s0, s, Unready(s, Erroneous));
    hide Patch, Through;
  }

  /** From a state that needs work: update when needed, then mark it done. */
  lemma UpdateAndFinishThrough(s0: State, s: State, hadID: bool, adopted: bool)
    requires Ready0(s0) && Kept(s0, s, Ok) && !s.crashed && Behind(s0)
    requires s.stored.status.resourceID in s.remote.resources.live && s.stored.status.resourceID != 0
    requires s.stored.status.observedGeneration == s0.stored.status.observedGeneration
    requires !NeedsUpdate(s, hadID, adopted) && Gentle(s0.script, s0.stored.spec) && Apt(s0) ==> UpToDate(s)
    ensures Through(s0, UpdateAndFinish(s, hadID, adopted))
  {
    hide Base, Unique, Backed, Tame, Follows, Finish, Update, ReportUpdate, Carries, HashedAs, Synced, Apt, Gentle,
         Through, SameWork;
    Onward(s0, s);
    var gently := Gentle(s0.script, s0.stored.spec) && Apt(s0);
    if gently { StillApt(s0, s); }
    if NeedsUpdate(s, hadID, adopted) {
      UpdateKeeps(s);
      var u := Update(s);
      KeptChain(s0, s, u.s, u.r);
      if u.r.Err? {
        TameFollows(s, u.s);
        ReportUpdateThrough(s0, u.s, u.r.kinds);
      } else {
        Onward(s0, u.s);
        if gently && !u.s.crashed {
          StillApt(s, u.s);
          SameWorkCarries(u.s, s.stored.spec);
        }
        FinishThrough(s0, u.s);
      }
    } else {
      FinishThrough(s0, s);
    }
  }

  lemma SameWorkCarries(s: State, spec: Spec)
    requires SameWork(s.stored.spec, spec)
    requires Carries(s, s.stored.status.resourceID, SettingsRequest(spec)) && HashedAs(s.stored.status, spec)
    ensures UpToDate(s)
  {
    hide Apply, SettingsRequest;
  }

  lemma ReportEnsureThrough(s0: State, s: State, kinds: set<ErrKind>)
    requires Live(s0) && Follows(s0, s) && Live(s) && Tame(s.script, s.stored.spec) && Behind(s0)
    requires s.stored.status.observedGeneration == s0.stored.status.observedGeneration
    ensures Through(s0, ReportEnsure(s, kinds))
  {
    hide Patch, Through, Base, Live, Tame, Follows;
    if Conflict in kinds {
      ReportThrough(s0, s, Unready(s, Pending));
    } else if BadRequest in kinds {
      ReportThrough(s0, s, Unready(s, PermanentError).(phase := Failed));
    } else {
      ReportThrough(s0, s, Unready(s, Erroneous));
    }
  }

  lemma RidNonZero(s: State)
    requires Live(s) && s.stored.status.resourceID in s.remote.resources.live
    ensures s.stored.status.resourceID != 0
  {
  }

  /** After a re-read the copy is current, so an object that is behind is updated. */
  lemma RereadNeedsUpdate(s: State)
    requires Behind(s) && s.res == s.stored && s.stored.status.resourceID != 0
    ensures NeedsUpdate(s, true, false)
  {
  }

  lemma BehindThrough(s: State)
    requires Ready0(s) && !s.crashed && Behind(s)
    ensures Through(s, ReconcileReady(s))
  {
    hide Base, Unique, Backed, Tame, EnsureExists, ReportEnsure, UpdateAndFinish, Get, Carries, HashedAs, Synced,
         Apt, Gentle;
    var e := EnsureExists(s);
    EnsureExistsKeeps(s);
    InStep(s);
    var hadID := s.res.status.resourceID != 0;
    if e.r.Err? {
      TameFollows(s, e.s);
      ReportEnsureThrough(s, e.s, e.r.kinds);
    } else {
      Onward(s, e.s);
      RidNonZero(e.s);
      if hadID && !e.adopted {
        GetKeeps(e.s);
        var g := Get(e.s);
        KeptChain(s, e.s, g.s, g.r);
        StillBehind(s, g.s);
        if g.r.Ok? {
          RereadNeedsUpdate(g.s);
          UpdateAndFinishThrough(s, g.s, hadID, e.adopted);
        }
      } else {
        if !hadID { NotEngagedWithoutID(s); }
        UpdateAndFinishThrough(s, e.s, hadID, e.adopted);
      }
    }
  }

  lemma NotEngagedWithoutID(s: State)
    requires Live(s) && s.stored.status.resourceID == 0
    ensures !Engaged(s.stored.status) && s.stored.status.resourceID !in s.remote.resources.live
  {
  }

  /** t makes the same claims about the same server rows as s. */
  ghost predicate SameStanding(s: State, t: State) {
    t.remote == s.remote && SameClaims(t.stored.status, s.stored.status)
  }

  lemma StandingTruthful(s: State, t: State)
    requires Live(s) && Live(t) && Follows(s, t) && SameStanding(s, t)
    ensures Through(s, t)
  {
    hide Base, Unique, Honest, Gentle, UpToDate, SameWork;
    if Gentle(s.script, s.stored.spec) && Truthful(s) {
      FollowsGently(s, t);
      if Behind(s) { StillBehind(s, t); }
      else if !Behind(t) { SameWorkUpToDate(s, t); }
    }
  }

  lemma EngagedWhenCurrent(s: State)
    requires Live(s) && !Behind(s)
    ensures Engaged(s.stored.status)
  {
  }

  /** A patch that only reports keeps the standing. */
  lemma ReportStanding(s0: State, s: State, after: Status)
    requires Live(s0) && Follows(s0, s) && Live(s) && SameStanding(s0, s)
    requires Tame(s.script, s.stored.spec) && SameClaims(after, s.res.status) && Reports(s.res.status, after)
    ensures var t := Patch(s, after).s; Follows(s0, t) && Live(t) && SameStanding(s0, t)
  {
    hide Base, Unique, Backed, Tame, Patch;
    ReportKeeps(s, after);
    FollowsChain(s0, s, Patch(s, after).s);
  }

  lemma ReportEnsureStanding(s0: State, s: State, kinds: set<ErrKind>)
    requires Live(s0) && Follows(s0, s) && Live(s) && SameStanding(s0, s) && Tame(s.script, s.stored.spec)
    ensures Through(s0, ReportEnsure(s, kinds)) && SameStanding(s0, ReportEnsure(s, kinds))
  {
    hide Patch, Through, Live, Tame, Follows;
    if Conflict in kinds {
      ReportStanding(s0, s, Unready(s, Pending));
    } else if BadRequest in kinds {
      ReportStanding(s0, s, Unready(s, PermanentError).(phase := Failed));
    } else {
      ReportStanding(s0, s, Unready(s, Erroneous));
    }
    StandingTruthful(s0, ReportEnsure(s, kinds));
  }

  /** A current object that needs no update: nothing is left to do but to mark it again. */
  lemma CurrentFinish(s0: State, s: State)
    requires Ready0(s0) && Kept(s0, s, Ok) && !s.crashed && SameStanding(s0, s)
    requires s.stored.status.observedGeneration == s.res.generation && s.stored.status.resourceID in s.remote.resources.live
    ensures Through(s0, Finish(s)) && SameStanding(s0, Finish(s))
  {
    hide Base, Unique, Honest, Tame, Follows, Patch;
    Onward(s0, s);
    InStep(s);
    FinishKeeps(s);
    FollowsChain(s0, s, Finish(s));
    StandingTruthful(s0, Finish(s));
  }

  lemma ThroughChain(s: State, t: State, u: State)
    requires Ready0(s) && Kept(s, t, Ok) && SameStanding(s, t) && !t.crashed && Through(t, u)
    ensures Through(s, u)
  {
    hide Base, Unique, Backed, Gentle, Quiet, SameWork, Truthful, Tame;
    FollowsChain(s, t, u);
    if Gentle(s.script, s.stored.spec) && Apt(s) && Truthful(s) {
      StandingTruthful(s, t);
      StillApt(s, t);
    }
    hide Follows;
  }

  lemma CurrentThrough(s: State)
    requires Ready0(s) && !s.crashed && !Behind(s)
    ensures Through(s, ReconcileReady(s))
    ensures Quiet(s.script) && Fresh(s) ==> SameStanding(s, ReconcileReady(s))
  {
    hide Base, Unique, Backed, Tame, EnsureExists, ReportEnsure, UpdateAndFinish, Get, Carries, HashedAs, Synced,
         Fresh, Quiet, Truthful, Through, Apt, Gentle, Steady;
    var e := EnsureExists(s);
    EnsureExistsKeeps(s);
    InStep(s);
    EngagedWhenCurrent(s);
    LiveNonZero(s);
    if e.r.Err? {
      TameFollows(s, e.s);
      ReportEnsureStanding(s, e.s, e.r.kinds);
    } else {
      Onward(s, e.s);
      RidNonZero(e.s);
      GetKeeps(e.s);
      var g := Get(e.s);
      KeptChain(s, e.s, g.s, g.r);
      if g.r.Err? {
        StandingTruthful(s, g.s);
      } else {
        Onward(s, g.s);
        if Behind(g.s) {
          RereadNeedsUpdate(g.s);
          SelfKept(g.s);
          UpdateAndFinishThrough(g.s, g.s, true, false);
          ThroughChain(s, g.s, ReconcileReady(s));
          if Quiet(s.script) && Fresh(s) { StillFresh(s, g.s); }
        } else {
          CurrentFinish(s, g.s);
          NotNeeded(g.s);
        }
      }
    }
  }

  lemma SelfKept(s: State)
    requires Ready0(s)
    ensures Kept(s, s, Ok)
  {
    SameBesidesCarries(s, s);
    FreshFollows(s, s);
    hide Follows, Base, Unique, Backed;
  }

  lemma NotNeeded(s: State)
    requires !Behind(s) && s.res == s.stored
    ensures UpdateAndFinish(s, true, false) == Finish(s)
  {
  }

  lemma ReconcileLiveThrough(s: State)
    requires Ready0(s) && !s.crashed
    ensures Through(s, ReconcileLive(s))
  {
    hide Base, Unique, Backed, Tame, ReconcileReady, Follows, Patch, UpToDate;
    if s.site != SiteReady {
      SameBesidesCarries(s, s);
      ReportStanding(s, s, Unready(s, Pending));
      StandingTruthful(s, ReconcileLive(s));
    } else if Behind(s) {
      BehindThrough(s);
    } else {
      CurrentThrough(s);
    }
  }
}
