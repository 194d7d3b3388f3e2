/** Where every target and rule on the server comes from. In every state of every run each row is
    exactly one of: tracked by the status, there before the object, left when it could not be
    recorded, or left when it could not be deleted; the log says which call it was. */
module PublicConservation {
  import opened Shared
  import opened Domains
  import opened Server
  import opened PublicResource
  import opened PublicSafety
  import opened PublicChildren
  import opened PublicSteps
  import opened PublicProtocol
  import opened PublicRuns
  import opened PublicAccounts

  // ---- Whole pieces ----

  /** Both sides are accounted for. */
  ghost predicate Balanced(s: State, t: State) {
    && Goes(s, t)
    && Accounted(s, t, Targets) && Accounted(s, t, Rules) && Bounded(t, Targets) && Bounded(t, Rules)
  }

  lemma BalancedChain(s: State, m: State, t: State)
    requires Balanced(s, m) && Balanced(m, t)
    ensures Balanced(s, t)
  {
    hide Accounted, Bounded;
    AccountedChain(s, m, t, Targets);
    AccountedChain(s, m, t, Rules);
  }

  lemma NeutralBalanced(s: State, t: State)
    requires Neutral(s, t) && Goes(s, t) && Bounded(s, Targets) && Bounded(s, Rules)
    ensures Balanced(s, t)
  {
    hide Accounted, Bounded, Neutral;
    NeutralAccounted(s, t, Targets);
    NeutralAccounted(s, t, Rules);
  }

  lemma BalancedBounded(s: State, t: State)
    requires Balanced(s, t)
    ensures Bounded(t, Targets) && Bounded(t, Rules)
  {
    hide Accounted, Bounded;
  }

  /** One side was accounted for, and nothing happened on the other. */
  lemma OneSideBalanced(s: State, t: State, kind: Kind)
    requires Goes(s, t) && Accounted(s, t, kind) && SideNeutral(s, t, Other(kind)) && Bounded(s, Other(kind))
    requires t.remote.Table(kind).Valid()
    ensures Balanced(s, t)
  {
    hide Accounted, Bounded, SideNeutral;
    BoundedAfter(s, t, kind);
    SideNeutralAccounted(s, t, Other(kind));
    if kind == Targets {}
  }

  lemma SideNeutralChain(s: State, m: State, t: State, kind: Kind)
    requires SideNeutral(s, m, kind) && SideNeutral(m, t, kind)
    ensures SideNeutral(s, t, kind)
  {
    hide TrackedIDs;
    forall i | |s.log| <= i < |t.log| ensures !Creates(t.log[i], kind) && !Deletes(t.log[i], kind) {
      if i < |m.log| { assert t.log[i] == m.log[i]; }
    }
  }

  lemma CreatingAside(s: State, t: State, kind: Kind, have: set<nat>)
    requires Traced(s, t, kind, {}, have) && Grew(s, t, kind)
    ensures SideNeutral(s, t, Other(kind))
  {
    hide Follows, ServedBirth, LostBirth;
  }

  lemma PatchingAside(s: State, after: Status, kind: Kind)
    requires s.res.status == s.stored.status && after.Kept(kind).ids == s.stored.status.Kept(kind).ids
    ensures SideNeutral(s, Patch(s, after).s, kind)
  {
    if !Halted(s) {
      AdvanceNeutral(s, PatchStatus);
      AdvanceLogs(s, PatchStatus);
      MergeAll(s.res.status, after);
      var t := Advance(s, PatchStatus);
      assert t.remote.Table(kind) == s.remote.Table(kind) by { if kind == Targets {} }
    }
    hide Advance, MergeStatus;
  }

  lemma DeletingAside(s: State, t: State, kind: Kind, ids: seq<nat>)
    requires Deleted(s, t, kind, ids) && Shrank(s, t, kind, ids)
    ensures SideNeutral(s, t, Other(kind))
  {
    hide Follows, DeleteRefused, DeleteTried, Keys;
  }

  /** A patch that lost or was refused, or that only added to the list, leaves no loose ends. */
  lemma PatchAccounted(s: State, b: State, after: Status, kind: Kind, have: set<nat>)
    requires Bounded(s, kind) && Gathered(s, b, kind, have)
    requires b.stored.status == s.stored.status && b.res.status == s.stored.status
    requires IDSet(after.Kept(kind).ids) == TrackedIDs(s, kind) + have ||
      (IDSet(after.Kept(kind).ids) == have && Patch(b, after).r.Err?)
    ensures Accounted(s, Patch(b, after).s, kind)
  {
    hide Gathered, Bounded, Accounted, Patch, Births;
    PatchCases(s, b, after, kind, have);
    var p := Patch(b, after);
    var how :| Patched(s, b, p.s, kind, have, how)
      && (how.NotMade? || how.NotDone? ==> p.r.Err?)
      && (how.Replaced? && p.r.Err? ==> p.s.log[|b.log|].reply.Lost?)
      && (how.Replaced? ==> IDSet(after.Kept(kind).ids) == have);
    if how.Replaced? && p.r.Ok? {
      assert Patched(s, b, p.s, kind, have, Added);
      PatchedAccounted(s, b, p.s, kind, have, Added);
    } else {
      PatchedAccounted(s, b, p.s, kind, have, how);
    }
  }

  lemma NoPatchAccounted(s: State, b: State, kind: Kind)
    requires Bounded(s, kind) && Gathered(s, b, kind, {}) && b.stored.status == s.stored.status
    ensures Accounted(s, b, kind)
  {
    hide Gathered, Bounded, Accounted, Births;
    PatchedAccounted(s, b, b, kind, {}, NotMade);
  }

  lemma PatchReplaces(s: State, b: State, after: Status, kind: Kind, have: set<nat>)
    requires b.stored.status == s.stored.status && b.res.status == s.stored.status
    requires IDSet(after.Kept(kind).ids) == have && Patch(b, after).r.Ok?
    ensures Patched(s, b, Patch(b, after).s, kind, have, Replaced)
  {
    AdvanceNeutral(b, PatchStatus);
    AdvanceLogs(b, PatchStatus);
    MergeAll(b.res.status, after);
    var p := Patch(b, after);
    assert p.s.remote.Table(kind) == b.remote.Table(kind) by { if kind == Targets {} }
    hide Advance, MergeStatus;
  }

  lemma IDSetAppend(a: seq<nat>, b: seq<nat>)
    ensures IDSet(a + b) == IDSet(a) + IDSet(b)
  {
  }

  /** What creation gives to the account of both sides. */
  lemma CreationSides(s: State, kind: Kind, specs: seq<ChildSpec>)
    requires Ready0(s) && !s.crashed && s.stored.status.resourceID in s.remote.resources.live
    ensures var b := CreateChildren(s, kind, s.stored.status.resourceID, specs);
      && Gathered(s, b.s, kind, IDSet(b.ids)) && SideNeutral(s, b.s, Other(kind)) && Goes(s, b.s)
      && b.s.stored.status == s.stored.status && b.s.res == s.res && Sound(b.s) && b.s.remote.resources == s.remote.resources
      && TrackedRowsAt(b.s, kind)
      && (IDSet(b.ids) == {} <==> |b.ids| == 0)
  {
    hide CreateChildren, Traced, Gathered, SideNeutral, Base, Unique, Tame, Synced, NewChildren, Realised, Linked;
    var id := s.stored.status.resourceID;
    CreateChildrenTraced(s, kind, id, specs);
    CreateChildrenKeeps(s, kind, id, specs);
    var b := CreateChildren(s, kind, id, specs);
    Gather(s, b.s, kind, IDSet(b.ids));
    CreatingAside(s, b.s, kind, IDSet(b.ids));
    FollowsGoes(s, b.s);
    assert Honest(s, s.stored.status, kind) by { if kind == Targets {} }
    if |b.ids| > 0 { assert b.ids[0] in IDSet(b.ids); }
    hide Follows, Honest;
    assert TrackedRowsAt(s, kind) by { HonestRows(s, kind); }
  }

  /** Tracked children that are live hang off the recorded resource. */
  ghost predicate TrackedRowsAt(s: State, kind: Kind) {
    var live := s.remote.Table(kind).live;
    var st := s.stored.status;
    forall k :: 0 <= k < |st.Kept(kind).ids| && st.Kept(kind).ids[k] in live ==> live[st.Kept(kind).ids[k]].resource == st.resourceID
  }

  lemma HonestRows(s: State, kind: Kind)
    requires Honest(s, s.stored.status, kind)
    ensures TrackedRowsAt(s, kind) && forall k :: 0 <= k < |s.stored.status.Kept(kind).ids| ==> s.stored.status.Kept(kind).ids[k] in s.remote.Table(kind).live
  {
  }

  lemma SyncBalanced(s: State, kind: Kind)
    requires Ready0(s) && !s.crashed && s.stored.status.resourceID in s.remote.resources.live
    ensures Balanced(s, Sync(s, kind).s)
  {
    hide Base, Unique, Tame, Backed, CreateChildren, DeleteChildren, Patch, Follows, Synced, Steady, Gathered, SideNeutral,
         Accounted, Bounded, Swapped, TrackedRowsAt, Sound, Balanced;
    SyncKeeps(s, kind);
    SyncedStatus(s);
    FollowsGoes(s, Sync(s, kind).s);
    LiveBounded(s, kind);
    LiveBounded(s, Other(kind));
    LiveBounded(Sync(s, kind).s, kind);
    var specs := s.res.spec.Children(kind);
    var st := s.stored.status;
    if st.Kept(kind).hash == HashOf(specs) {
      HaltNeutral(s);
      NeutralBalanced(s, s) by { if kind == Targets {} }
    } else {
      CreationSides(s, kind, specs);
      SyncAccounted(s, kind);
      OneSideBalanced(s, Sync(s, kind).s, kind);
    }
  }

  lemma SyncAccounted(s: State, kind: Kind)
    requires Ready0(s) && !s.crashed && s.stored.status.resourceID in s.remote.resources.live
    requires s.stored.status.Kept(kind).hash != HashOf(s.res.spec.Children(kind))
    ensures Accounted(s, Sync(s, kind).s, kind) && SideNeutral(s, Sync(s, kind).s, Other(kind))
  {
    hide Base, Unique, Tame, Backed, CreateChildren, DeleteChildren, Patch, Follows, Synced, Steady, Gathered, SideNeutral,
         Accounted, Bounded, Swapped, TrackedRowsAt, Sound, Births;
    SyncedStatus(s);
    LiveBounded(s, kind);
    var specs := s.res.spec.Children(kind);
    var st := s.stored.status;
    var id := st.resourceID;
    CreationSides(s, kind, specs);
    var b := CreateChildren(s, kind, id, specs);
    if b.failed {
      var more := st.WithKept(kind, st.Kept(kind).(ids := st.Kept(kind).ids + b.ids));
      if |b.ids| > 0 {
        IDSetAppend(st.Kept(kind).ids, b.ids);
        PatchAccounted(s, b.s, more, kind, IDSet(b.ids));
        PatchingAside(b.s, more, Other(kind));
        SideNeutralChain(s, b.s, Patch(b.s, more).s, Other(kind));
      } else {
        NoPatchAccounted(s, b.s, kind);
      }
    } else {
      var after := st.WithKept(kind, Tracked(b.ids, HashOf(specs)));
      PatchingAside(b.s, after, Other(kind));
      var p := Patch(b.s, after);
      SideNeutralChain(s, b.s, p.s, Other(kind));
      if p.r.Err? {
        PatchAccounted(s, b.s, after, kind, IDSet(b.ids));
      } else {
        CopyIsAVersion(s, kind);
        SwapBalanced(s, b, kind, specs);
      }
    }
  }

  lemma SwapBalanced(s: State, b: Batch, kind: Kind, specs: seq<ChildSpec>)
    requires Ready0(s) && !s.crashed && s.stored.status.resourceID in s.remote.resources.live
    requires b == CreateChildren(s, kind, s.stored.status.resourceID, specs) && !b.failed
    requires exists v :: 0 <= v < |s.versions| && s.versions[v].Children(kind) == specs
    requires var p := Patch(b.s, s.stored.status.WithKept(kind, Tracked(b.ids, HashOf(specs)))); p.r.Ok? && SideNeutral(s, p.s, Other(kind))
    ensures var p := Patch(b.s, s.stored.status.WithKept(kind, Tracked(b.ids, HashOf(specs))));
      var t := DeleteChildren(p.s, kind, s.stored.status.resourceID, s.stored.status.Kept(kind).ids);
      Accounted(s, t, kind) && SideNeutral(s, t, Other(kind))
  {
    hide Base, Unique, Tame, Backed, CreateChildren, DeleteChildren, Patch, Follows, Synced, Steady, Gathered, SideNeutral,
         Accounted, Bounded, TrackedRowsAt, Births, NewChildren, Realised, Deleted, Patched, Grew, Linked, Honest;
    SyncedStatus(s);
    LiveBounded(s, kind);
    var st := s.stored.status;
    var id := st.resourceID;
    CreationSides(s, kind, specs);
    CreateChildrenKeeps(s, kind, id, specs);
    GrewFacts(s, b.s, kind);
    GrewBacked(s, b.s, st, kind);
    NewSince(b.s, kind, id, b.ids, s.remote.Table(kind).next);
    VersionsGrow(s, b.s, kind, specs);
    ClaimNew(b.s, st, kind, b.ids, specs);
    var after := st.WithKept(kind, Tracked(b.ids, HashOf(specs)));
    PatchKeeps(b.s, after);
    PatchReplaces(s, b.s, after, kind, IDSet(b.ids));
    var p := Patch(b.s, after).s;
    var before := st.Kept(kind).ids;
    TameFollows(b.s, p);
    TrackedRowsAfter(b.s, p, kind, before);
    DeleteChildrenDeletes(p, kind, id, before);
    DeleteChildrenKeeps(p, kind, id, before);
    var t := DeleteChildren(p, kind, id, before);
    DeletingAside(p, t, kind, before);
    SideNeutralChain(s, p, t, Other(kind));
    ShrankGoes(p, t, kind, before);
    SwapAccounted(s, b.s, p, t, kind, IDSet(b.ids), before);
  }

  lemma ShrankGoes(s: State, t: State, kind: Kind, ids: seq<nat>)
    requires Shrank(s, t, kind, ids)
    ensures Goes(s, t) && t.stored.status == s.stored.status
  {
  }

  lemma TrackedRowsAfter(s: State, t: State, kind: Kind, ids: seq<nat>)
    requires TrackedRowsAt(s, kind) && t.remote == s.remote && ids == s.stored.status.Kept(kind).ids
    ensures var live := t.remote.Table(kind).live;
      forall k :: 0 <= k < |ids| && ids[k] in live ==> live[ids[k]].resource == s.stored.status.resourceID
  {
  }

  // ---- Populating a new resource ----

  /** Nothing is tracked while a new resource is being populated, so the patch that records its
      children only adds. */
  lemma RecordAccounted(s: State, b: State, after: Status, kind: Kind, have: set<nat>)
    requires Bounded(s, kind) && Gathered(s, b, kind, have) && TrackedIDs(s, kind) == {}
    requires b.stored.status == s.stored.status && b.res.status == s.stored.status
    requires IDSet(after.Kept(kind).ids) == have
    ensures Accounted(s, Patch(b, after).s, kind)
  {
    hide Gathered, Accounted, Bounded, Patch;
    PatchAccounted(s, b, after, kind, have);
  }

  lemma PopulatingTracksNothing(s: State, id: nat)
    requires Populating(s, id)
    ensures TrackedIDs(s, Targets) == {} && TrackedIDs(s, Rules) == {}
    ensures s.stored.status.targets.ids == [] && s.stored.status.rules.ids == []
    ensures s.res.status == s.stored.status
  {
    hide Base, Unique, Backed, Tame;
  }

  lemma PopulateTargetsBalanced(s: State, id: nat)
    requires Populating(s, id) && CreateChildren(s, Targets, id, s.res.spec.targets).failed
    ensures var t := PopulateChildren(s, id).s; Accounted(s, t, Targets) && SideNeutral(s, t, Rules)
  {
    hide Base, Unique, Tame, Backed, CreateChildren, Patch, Synced, Gathered, SideNeutral, Accounted, Bounded, Follows,
         TrackedRowsAt, Sound, TrackedIDs, IDSet;
    PopulatingTracksNothing(s, id);
    LiveBounded(s, Targets);
    CreationSides(s, Targets, s.res.spec.targets);
    var b := CreateChildren(s, Targets, id, s.res.spec.targets);
    if |b.ids| > 0 {
      var after := s.stored.status.(targets := s.stored.status.targets.(ids := b.ids));
      RecordAccounted(s, b.s, after, Targets, IDSet(b.ids));
      PatchingAside(b.s, after, Rules);
      SideNeutralChain(s, b.s, Patch(b.s, after).s, Rules);
    } else {
      NoPatchAccounted(s, b.s, Targets);
    }
  }

  lemma PopulateBothBalanced(s: State, id: nat)
    requires Populating(s, id) && !CreateChildren(s, Targets, id, s.res.spec.targets).failed
    ensures var t := PopulateChildren(s, id).s; Accounted(s, t, Targets) && Accounted(s, t, Rules)
  {
    hide Base, Unique, Tame, Backed, CreateChildren, Patch, Synced, Gathered, SideNeutral, Accounted, Bounded, Follows,
         TrackedRowsAt, TrackedIDs, IDSet, NewChildren, Realised, Traced;
    PopulatingTracksNothing(s, id);
    LiveBounded(s, Targets);
    LiveBounded(s, Rules);
    PopulateTargets(s, id);
    var b := CreateChildren(s, Targets, id, s.res.spec.targets);
    CreateChildrenTraced(s, Targets, id, s.res.spec.targets);
    Gather(s, b.s, Targets, IDSet(b.ids));
    LiveBounded(b.s, Targets);
    LiveBounded(b.s, Rules);
    CreateChildrenTraced(b.s, Rules, id, b.s.res.spec.rules);
    CreateChildrenKeeps(b.s, Rules, id, b.s.res.spec.rules);
    var c := CreateChildren(b.s, Rules, id, b.s.res.spec.rules);
    GatherThen(s, b.s, c.s, Targets, IDSet(b.ids), IDSet(c.ids));
    GatherAfter(s, b.s, c.s, Rules, IDSet(c.ids), IDSet(b.ids));
    var st := s.stored.status;
    var after := if c.failed then st.(targets := st.targets.(ids := b.ids), rules := st.rules.(ids := c.ids))
      else st.(targets := Tracked(b.ids, HashOf(c.s.res.spec.targets)), rules := Tracked(c.ids, HashOf(c.s.res.spec.rules)));
    RecordAccounted(s, c.s, after, Targets, IDSet(b.ids));
    RecordAccounted(s, c.s, after, Rules, IDSet(c.ids));
  }

  lemma PopulateChildrenBalanced(s: State, id: nat)
    requires Populating(s, id)
    ensures Balanced(s, PopulateChildren(s, id).s)
  {
    hide Base, Unique, Tame, Backed, PopulateChildren, CreateChildren, Synced, SideNeutral, Accounted, Bounded, Follows;
    PopulateChildrenKeeps(s, id);
    var t := PopulateChildren(s, id).s;
    FollowsGoes(s, t);
    LiveBounded(s, Targets);
    LiveBounded(s, Rules);
    LiveBounded(t, Targets);
    LiveBounded(t, Rules);
    if CreateChildren(s, Targets, id, s.res.spec.targets).failed {
      PopulateTargetsBalanced(s, id);
      OneSideBalanced(s, t, Targets);
    } else {
      PopulateBothBalanced(s, id);
    }
  }

  /** A piece that keeps the claims and does not touch children. */
  lemma NeutralPiece(s: State, t: State)
    requires Live(s) && Follows(s, t) && Neutral(s, t)
    ensures Balanced(s, t)
  {
    hide Live, Follows, Neutral, Bounded, Balanced;
    LiveBounded(s, Targets);
    LiveBounded(s, Rules);
    FollowsGoes(s, t);
    NeutralBalanced(s, t);
  }

  lemma PopulateBalanced(s: State, id: nat)
    requires Populating(s, id)
    ensures Balanced(s, Populate(s, id).s)
  {
    hide Base, Unique, Tame, Honest, Follows, Get, ApiUpdate, PopulateChildren, Apply, Synced, Kept, Ready0, Balanced, Neutral;
    var g := Get(s);
    GetKeeps(s);
    GetNeutral(s);
    KeptFollows(s, g.s, g.r);
    Ready0Live(s);
    NeutralPiece(s, g.s);
    if g.r.Ok? {
      Onward(s, g.s);
      InStep(g.s);
      RidMatches(g.s);
      var q := PostCreateRequest(g.s.res.spec);
      ApiUpdateKeeps(g.s, id, q);
      UpdateNeutral(g.s, id, q);
      var u := ApiUpdate(g.s, id, q);
      KeptFollows(g.s, u.s, u.r);
      NeutralPiece(g.s, u.s);
      BalancedChain(s, g.s, u.s);
      if u.r.Ok? {
        KeptChain(s, g.s, u.s, u.r);
        Onward(s, u.s);
        PopulateChildrenBalanced(u.s, id);
        BalancedChain(s, u.s, Populate(s, id).s);
      }
    }
  }

  lemma Ready0Live(s: State)
    requires Ready0(s)
    ensures Live(s)
  {
  }

  lemma CreateBalanced(s: State)
    requires Ready0(s) && !s.crashed && Vacant(s)
    ensures Balanced(s, Create(s).s)
  {
    hide Base, Unique, Tame, Honest, Follows, CreateAndPersist, Populate, Synced, Kept, Balanced, Neutral, Vacant, Live;
    Ready0Live(s);
    CreateAndPersistKeeps(s);
    CreateAndPersistNeutral(s);
    var c := CreateAndPersist(s);
    KeptFollows(s, c.s, c.r);
    NeutralPiece(s, c.s);
    if c.r.Ok? {
      Onward(s, c.s);
      PopulateBalanced(c.s, c.id);
      BalancedChain(s, c.s, Create(s).s);
    }
  }

  lemma AdoptNeutral(s: State, id: nat)
    requires s.res.status == s.stored.status && !Engaged(s.stored.status)
    ensures Neutral(s, Patch(s, Adopted(s.res.status, id)).s)
  {
    PatchNeutral(s, Adopted(s.res.status, id));
    hide Patch, Neutral;
  }

  lemma EnsureExistsBalanced(s: State)
    requires Ready0(s) && !s.crashed
    ensures Balanced(s, EnsureExists(s).s)
  {
    hide Base, Unique, Tame, Honest, Follows, ApiList, Listing, FindResource, Patch, Create, Synced, Kept, Ready0,
         Matching, Vacant, Lists, Carries, Balanced, Neutral;
    InStep(s);
    ListKeeps(s, s.res.spec.name);
    ListNeutral(s, s.res.spec.name);
    var l := ApiList(s, s.res.spec.name);
    KeptFollows(s, l.s, l.r);
    NeutralPiece(s, l.s);
    if l.r.Ok? {
      Onward(s, l.s);
      InStep(l.s);
      ListingDecides(l.s);
      LiveNonZero(l.s);
      var st := s.stored.status;
      if st.resourceID != 0 && Lists(l.items, st.resourceID) {
      } else if FindResource(l.items, s.res.spec).Some? {
        var id := FindResource(l.items, s.res.spec).value.id;
        AdoptedBacked(l.s, st, id);
        PatchKeeps(l.s, Adopted(st, id));
        AdoptNeutral(l.s, id);
        var p := Patch(l.s, Adopted(st, id));
        KeptFollows(l.s, p.s, p.r);
        NeutralPiece(l.s, p.s);
        BalancedChain(s, l.s, p.s);
      } else {
        CreateBalanced(l.s);
        BalancedChain(s, l.s, Create(l.s).s);
      }
    }
  }

  lemma UpdateBalanced(s: State)
    requires Ready0(s) && !s.crashed && s.stored.status.resourceID in s.remote.resources.live
    ensures Balanced(s, Update(s).s)
  {
    hide Base, Unique, Tame, Backed, Follows, Sync, ApiUpdate, Ready0, Kept, Fresh, Apt, Apply, SettingsRequest, Balanced, Neutral;
    RequestName(s.res.spec);
    var id := s.stored.status.resourceID;
    InStep(s);
    RidMatches(s);
    var q := SettingsRequest(s.res.spec);
    ApiUpdateKeeps(s, id, q);
    UpdateNeutral(s, id, q);
    var u := ApiUpdate(s, id, q);
    KeptFollows(s, u.s, u.r);
    NeutralPiece(s, u.s);
    if u.r.Ok? {
      Onward(s, u.s);
      SyncKeeps(u.s, Targets);
      SyncBalanced(u.s, Targets);
      var t := Sync(u.s, Targets);
      BalancedChain(s, u.s, t.s);
      if t.r.Ok? {
        if t.s.crashed {
          CrashedSync(t.s, Rules);
        } else {
          Onward(u.s, t.s);
          SyncBalanced(t.s, Rules);
          BalancedChain(s, t.s, Sync(t.s, Rules).s);
        }
      }
    }
  }

  /** A patch of condition, phase or observed generation. */
  lemma ReportBalanced(s: State, after: Status)
    requires Bounded(s, Targets) && Bounded(s, Rules)
    requires after.targets.ids == s.res.status.targets.ids && after.rules.ids == s.res.status.rules.ids
    ensures Balanced(s, Patch(s, after).s)
  {
    hide Bounded, Balanced, Neutral;
    PatchNeutral(s, after);
    PatchGoes(s, after);
    NeutralBalanced(s, Patch(s, after).s);
  }

  lemma PatchGoes(s: State, after: Status)
    ensures Goes(s, Patch(s, after).s)
  {
    if !Halted(s) { AdvanceLogs(s, PatchStatus); }
    hide Advance, MergeStatus;
  }

  lemma FinishBalanced(s: State)
    requires Bounded(s, Targets) && Bounded(s, Rules)
    ensures Balanced(s, Finish(s))
  {
    hide Patch, Bounded, Balanced;
    ReportBalanced(s, Finished(s));
  }

  lemma ReportEnsureBalanced(s: State, kinds: set<ErrKind>)
    requires Bounded(s, Targets) && Bounded(s, Rules)
    ensures Balanced(s, ReportEnsure(s, kinds))
  {
    hide Patch, Bounded, Balanced;
    if Conflict in kinds {
      ReportBalanced(s, Unready(s, Pending));
    } else if BadRequest in kinds {
      ReportBalanced(s, Unready(s, PermanentError).(phase := Failed));
    } else {
      ReportBalanced(s, Unready(s, Erroneous));
    }
  }

  lemma UpdateAndFinishBalanced(s: State, hadID: bool, adopted: bool)
    requires Ready0(s) && !s.crashed && s.stored.status.resourceID in s.remote.resources.live
    ensures Balanced(s, UpdateAndFinish(s, hadID, adopted))
  {
    hide Base, Unique, Backed, Tame, Follows, Finish, Update, Synced, Patch, Balanced, Bounded, Kept;
    LiveBounded(s, Targets);
    LiveBounded(s, Rules);
    if NeedsUpdate(s, hadID, adopted) {
      UpdateKeeps(s);
      UpdateBalanced(s);
      var u := Update(s);
      BalancedBounded(s, u.s);
      if u.r.Err? {
        ReportBalanced(u.s, Unready(u.s, Erroneous));
      } else {
        FinishBalanced(u.s);
      }
      BalancedChain(s, u.s, UpdateAndFinish(s, hadID, adopted));
    } else {
      FinishBalanced(s);
    }
  }

  lemma ReconcileReadyBalanced(s: State)
    requires Ready0(s) && !s.crashed
    ensures Balanced(s, ReconcileReady(s))
  {
    hide Base, Unique, Backed, Tame, EnsureExists, ReportEnsure, UpdateAndFinish, Get, Synced, Balanced, Bounded, Neutral, Follows;
    var e := EnsureExists(s);
    EnsureExistsKeeps(s);
    EnsureExistsBalanced(s);
    BalancedBounded(s, e.s);
    InStep(s);
    var hadID := s.res.status.resourceID != 0;
    if e.r.Err? {
      ReportEnsureBalanced(e.s, e.r.kinds);
    } else {
      Onward(s, e.s);
      if hadID && !e.adopted {
        GetKeeps(e.s);
        GetNeutral(e.s);
        var g := Get(e.s);
        NeutralPiece(e.s, g.s);
        BalancedChain(s, e.s, g.s);
        if g.r.Ok? {
          Onward(e.s, g.s);
          UpdateAndFinishBalanced(g.s, hadID, e.adopted);
          BalancedChain(s, g.s, ReconcileReady(s));
        }
      } else {
        UpdateAndFinishBalanced(e.s, hadID, e.adopted);
      }
    }
    if e.r.Err? || !hadID || e.adopted { BalancedChain(s, e.s, ReconcileReady(s)); }
  }

  lemma ReconcileLiveBalanced(s: State)
    requires Ready0(s) && !s.crashed
    ensures Balanced(s, ReconcileLive(s))
  {
    hide Base, Unique, Backed, Tame, ReconcileReady, Patch, Synced, Balanced, Bounded;
    LiveBounded(s, Targets);
    LiveBounded(s, Rules);
    if s.site == SiteReady {
      ReconcileReadyBalanced(s);
    } else {
      ReportBalanced(s, Unready(s, Pending));
    }
  }

  lemma SetFinalizerGoes(s: State, present: bool)
    ensures Goes(s, SetFinalizer(s, present).s)
  {
    if !Halted(s) { AdvanceLogs(s, if present then AddFinalizer else RemoveFinalizer); }
    hide Advance;
  }

  /** Every activation of an object that is not being deleted, whatever fails and wherever it stops. */
  lemma ActivationBalanced(s: State, script: seq<Event>)
    requires Live(s) && !s.stored.deleting && Tame(script, s.stored.spec)
    ensures forall kind :: Accounted(s, Reconcile(s, script), kind)
  {
    hide Base, Unique, Backed, Tame, ReconcileLive, Synced, SetFinalizer, Patch, Follows, Accounted, Bounded, Neutral;
    var t := Reconcile(s, script);
    var m := Start(s, script);
    StartKeeps(s, script);
    LiveBounded(m, Targets);
    LiveBounded(m, Rules);
    if s.stored.finalizer {
      ReconcileLiveBalanced(m);
    } else {
      SetFinalizerKeeps(m);
      FinalizerNeutral(m, true);
      SetFinalizerGoes(m, true);
      var f := SetFinalizer(m, true);
      NeutralBalanced(m, f.s);
      if f.r.Ok? {
        ReconcileLiveBalanced(f.s);
        BalancedChain(m, f.s, t);
      }
    }
    forall kind ensures Accounted(s, t, kind) {
      StartAccounted(s, m, t, kind) by { if kind == Targets {} }
    }
  }

  lemma StartAccounted(s: State, m: State, t: State, kind: Kind)
    requires Accounted(m, t, kind) && m.remote == s.remote && m.stored == s.stored && m.log == s.log
    ensures Accounted(s, t, kind)
  {
    hide Recorded, NotRecorded, DeleteRefused, DeleteTried, PatchLost;
    assert Keys(m, kind) == Keys(s, kind) && TrackedIDs(m, kind) == TrackedIDs(s, kind) && NextID(m, kind) == NextID(s, kind);
    hide Keys, TrackedIDs, NextID;
  }

  // ---- One activation ----

  /** An entry made by one birth is not that of another. */
  lemma OneBirth(s: State, t: State, kind: Kind, id: nat, i: int, j: int)
    requires Births(s, t, kind) && Born(t.log, |s.log|, kind, id, i) && Born(t.log, |s.log|, kind, id, j)
    ensures i == j
  {
    hide Keys, NextID;
  }

  lemma RecordedOrNot(t: State, i: nat)
    requires i < |t.log|
    ensures !(Recorded(t.log, i) && NotRecorded(t, i))
  {
    if Recorded(t.log, i) {
      var j :| NextPatch(t.log, i, j) && !t.log[j].reply.Refused?;
      assert !Unpatched(t.log, i);
      forall k | NextPatch(t.log, i, k) ensures k == j {
        assert !(k < j) && !(j < k);
      }
    }
  }

  /** A row that could not be recorded was never tracked. */
  lemma OneReason(s: State, t: State, kind: Kind, id: nat)
    requires Births(s, t, kind) && Bounded(s, kind)
    ensures !(LeftByPersist(s, t, kind, id) && WasTracked(s, t, kind, id))
  {
    hide Recorded, NotRecorded, Births, Keys, TrackedIDs;
    if LeftByPersist(s, t, kind, id) && WasTracked(s, t, kind, id) {
      var i :| Born(t.log, |s.log|, kind, id, i) && NotRecorded(t, i);
      BornIsNew(s, t, kind, id, i);
      var j :| Born(t.log, |s.log|, kind, id, j) && Recorded(t.log, j);
      OneBirth(s, t, kind, id, i, j);
      BornIndex(t.log, |s.log|, kind, id, i);
      RecordedOrNot(t, i);
      assert false;
    }
  }

  lemma BornIsNew(s: State, t: State, kind: Kind, id: nat, i: int)
    requires Births(s, t, kind) && Born(t.log, |s.log|, kind, id, i) && Bounded(s, kind)
    ensures NextID(s, kind) <= id && id !in TrackedIDs(s, kind)
  {
    hide Keys, TrackedIDs;
  }

  /** Conservation: whatever fails in an activation and wherever it stops, untracked rows stay, and
      each row that it leaves untracked is either new and could not be recorded, or was tracked and
      could not be deleted, and not both. */
  lemma Conserves(s: State, script: seq<Event>, kind: Kind)
    requires Live(s) && !s.stored.deleting && Tame(script, s.stored.spec)
    ensures var t := Reconcile(s, script);
      && LeftOver(s, kind) <= LeftOver(t, kind)
      && forall id :: id in LeftOver(t, kind) - LeftOver(s, kind) ==>
           (LeftByPersist(s, t, kind, id) <==> !LeftByDelete(s, t, kind, id))
  {
    hide Reconcile, LeftByPersist, LeftByDelete, Live, Tame, LeftOver, Births, Trackings, Bounded;
    ActivationBalanced(s, script);
    LiveBounded(s, kind);
    var t := Reconcile(s, script);
    assert Accounted(s, t, kind);
    forall id ensures !(LeftByPersist(s, t, kind, id) && LeftByDelete(s, t, kind, id)) {
      OneReason(s, t, kind, id);
      DeletedWasTracked(s, t, kind, id);
    }
  }

  lemma DeletedWasTracked(s: State, t: State, kind: Kind, id: nat)
    ensures LeftByDelete(s, t, kind, id) ==> WasTracked(s, t, kind, id)
  {
    hide WasTracked;
  }

  /** Creation itself: all IDs it returns, also when it fails as a whole, are those of new rows, and a
      new row is missing from them exactly if its answer was lost. */
  lemma CreateChildrenExact(s: State, kind: Kind, resource: nat, specs: seq<ChildSpec>)
    requires Sound(s) && resource in s.remote.resources.live
    ensures var b := CreateChildren(s, kind, resource, specs);
      && IDSet(b.ids) <= Keys(b.s, kind) - Keys(s, kind) && Keys(s, kind) <= Keys(b.s, kind)
      && forall id :: id in Keys(b.s, kind) - Keys(s, kind) ==> (id !in b.ids <==> LostBirth(b.s.log, |s.log|, kind, id))
  {
    hide CreateChildren, Sound, Grew, Births;
    CreateChildrenTraced(s, kind, resource, specs);
    CreateChildrenKeeps(s, kind, resource, specs);
    SoundFacts(s, kind);
    var b := CreateChildren(s, kind, resource, specs);
    forall id ensures !(ServedBirth(b.s.log, |s.log|, kind, id) && LostBirth(b.s.log, |s.log|, kind, id)) {
      if ServedBirth(b.s.log, |s.log|, kind, id) && LostBirth(b.s.log, |s.log|, kind, id) {
        var i :| Born(b.s.log, |s.log|, kind, id, i) && b.s.log[i].reply.Served?;
        var j :| Born(b.s.log, |s.log|, kind, id, j) && b.s.log[j].reply.Lost?;
        OneBirth(s, b.s, kind, id, i, j);
      }
    }
    hide ServedBirth, LostBirth, Born;
    forall id | id in b.ids ensures id in Keys(b.s, kind) && id !in Keys(s, kind) {
      var k :| 0 <= k < |b.ids| && b.ids[k] == id;
    }
  }

  // ---- Runs ----

  lemma StepAccounted(s: State, step: Step, kind: Kind)
    requires Inv(s) && TameStep(step, s.stored.spec) && Bounded(s, kind)
    ensures Accounted(s, Do(s, step), kind)
  {
    hide Accounted, Bounded, Base, Unique, Backed, Tame, Reconcile;
    var t := Do(s, step);
    match step
    case Act(env) =>
      ActNeutral(s, env);
      NeutralAccounted(s, t, kind);
    case SetSite(site) =>
      HaltNeutral(s);
      assert Neutral(s, t);
      NeutralAccounted(s, t, kind);
    case Activate(script) =>
      if s.stored.deleting {
        DeletingNeutral(s, script);
        NeutralAccounted(s, t, kind);
      } else {
        ActivationBalanced(s, script);
      }
  }

  lemma ActNeutral(s: State, env: Env)
    ensures Neutral(s, ApplyEnv(s, env))
  {
  }

  lemma DeletingNeutral(s: State, script: seq<Event>)
    requires s.stored.deleting
    ensures Neutral(s, Reconcile(s, script))
  {
    hide ApiDelete, SetFinalizer, ReconcileLive, Neutral;
    var m := Start(s, script);
    assert Neutral(s, m) by { StartNeutral(s, m); }
    var id := m.res.status.resourceID;
    DeleteNeutral(m, id);
    NeutralChain(s, m, ApiDelete(m, id).s);
    FinalizerNeutral(m, false);
    NeutralChain(s, m, SetFinalizer(m, false).s);
    FinalizerNeutral(ApiDelete(m, id).s, false);
    NeutralChain(s, ApiDelete(m, id).s, SetFinalizer(ApiDelete(m, id).s, false).s);
  }

  lemma StartNeutral(s: State, m: State)
    requires m.remote == s.remote && m.stored == s.stored && m.log == s.log
    ensures Neutral(s, m)
  {
  }

  /** Nothing that is tracked was there before the object. */
  ghost predicate Owned(s: State, kind: Kind, first: nat) {
    first <= NextID(s, kind) && forall id :: id in TrackedIDs(s, kind) ==> first <= id
  }

  lemma OwnedStep(s: State, t: State, kind: Kind, first: nat)
    requires Owned(s, kind, first) && Accounted(s, t, kind)
    ensures Owned(t, kind, first)
  {
    hide TrackedIDs, Keys, Explained;
    forall id | id in TrackedIDs(t, kind) ensures first <= id {
      WasTrackedMeans(s, t, kind, id);
    }
  }

  /** Every step of every run is accounted for. */
  lemma {:induction false} RunAccounted(trace: seq<State>, steps: seq<Step>, k: nat, kind: Kind)
    requires IsRun(trace, steps) && k < |trace| && Init(trace[0]) && TameSteps(steps, trace[0].stored.spec)
    ensures Bounded(trace[k], kind) && Owned(trace[k], kind, NextID(trace[0], kind))
    ensures k > 0 ==> Accounted(trace[k - 1], trace[k], kind)
  {
    hide Init, Do, TameStep, Inv, Bounded, Owned, Accounted, NextID;
    InitKeeps(trace[0]);
    if k == 0 {
      InitLeftOver(trace[0], kind);
    } else {
      RunAccounted(trace, steps, k - 1, kind);
      RunKeepsInv(trace, steps, k - 1);
      RunKeepsInv(trace, steps, k);
      TameStepSame(steps[k - 1], trace[0].stored.spec, trace[k - 1].stored.spec);
      StepAccounted(trace[k - 1], steps[k - 1], kind);
      OwnedStep(trace[k - 1], trace[k], kind, NextID(trace[0], kind));
      InvValid(trace[k], kind);
      BoundedAfter(trace[k - 1], trace[k], kind);
    }
  }

  lemma InvValid(s: State, kind: Kind)
    requires Inv(s)
    ensures s.remote.Table(kind).Valid()
  {
    hide Unique, Backed, Recomposes;
  }

  lemma InitLeftOver(s: State, kind: Kind)
    requires Init(s)
    ensures LeftOver(s, kind) == Keys(s, kind) && Bounded(s, kind) && Owned(s, kind, NextID(s, kind))
  {
    hide Recomposes, Matching;
    assert s.remote.Table(kind).Valid();
    assert TrackedIDs(s, kind) == {} by { if kind == Targets {} }
  }

  lemma {:induction false} LeftOverStays(trace: seq<State>, steps: seq<Step>, i: nat, k: nat, kind: Kind, id: nat)
    requires IsRun(trace, steps) && i <= k < |trace| && Init(trace[0]) && TameSteps(steps, trace[0].stored.spec)
    requires id in LeftOver(trace[i], kind)
    ensures id in LeftOver(trace[k], kind)
    decreases k
  {
    hide IsRun, Init, TameSteps, Births, Trackings, LeftByPersist, LeftByDelete, LeftOver, Bounded, Owned;
    if i < k {
      LeftOverStays(trace, steps, i, k - 1, kind, id);
      RunAccounted(trace, steps, k, kind);
    }
  }

  // ---- Where every row comes from ----

  datatype Fate = InUse | Older | NeverRecorded(step: nat) | NeverDeleted(step: nat)

  /** The row stopped being accounted for by the status in this step of the run. */
  ghost predicate LeftIn(trace: seq<State>, j: nat, k: nat, kind: Kind, id: nat)
    requires k < |trace|
  {
    j < k && id in LeftOver(trace[j + 1], kind) && id !in LeftOver(trace[j], kind)
  }

  ghost predicate HasFate(trace: seq<State>, k: nat, kind: Kind, id: nat, fate: Fate)
    requires k < |trace|
  {
    match fate
    case InUse => id in TrackedIDs(trace[k], kind)
    case Older => id in Keys(trace[0], kind)
    case NeverRecorded(j) => LeftIn(trace, j, k, kind, id) && LeftByPersist(trace[j], trace[j + 1], kind, id)
    case NeverDeleted(j) => LeftIn(trace, j, k, kind, id) && LeftByDelete(trace[j], trace[j + 1], kind, id)
  }

  lemma {:induction false} SomeFate(trace: seq<State>, steps: seq<Step>, k: nat, kind: Kind, id: nat) returns (fate: Fate)
    requires IsRun(trace, steps) && k < |trace| && Init(trace[0]) && TameSteps(steps, trace[0].stored.spec)
    requires id in LeftOver(trace[k], kind)
    ensures HasFate(trace, k, kind, id, fate)
  {
    hide IsRun, Init, TameSteps, Births, Trackings, LeftByPersist, LeftByDelete, Bounded, Owned;
    if k == 0 {
      fate := Older;
    } else if id in LeftOver(trace[k - 1], kind) {
      fate := SomeFate(trace, steps, k - 1, kind, id);
      assert !fate.InUse?;
    } else {
      RunAccounted(trace, steps, k, kind);
      fate := if LeftByPersist(trace[k - 1], trace[k], kind, id) then NeverRecorded(k - 1) else NeverDeleted(k - 1);
    }
  }

  /** Two reasons for the same row are the same reason. */
  lemma SameFate(trace: seq<State>, steps: seq<Step>, k: nat, kind: Kind, id: nat, a: Fate, b: Fate)
    requires IsRun(trace, steps) && k < |trace| && Init(trace[0]) && TameSteps(steps, trace[0].stored.spec)
    requires HasFate(trace, k, kind, id, a) && HasFate(trace, k, kind, id, b) && !a.InUse? && !b.InUse?
    ensures a == b
  {
    hide IsRun, Init, TameSteps, LeftByPersist, LeftByDelete, Bounded, Owned, LeftOver, Keys;
    InitLeftOver(trace[0], kind);
    if a.Older? || b.Older? {
      if !b.Older? { LeftOverStays(trace, steps, 0, b.step, kind, id); }
      if !a.Older? { LeftOverStays(trace, steps, 0, a.step, kind, id); }
    } else if a.step < b.step {
      LeftOverStays(trace, steps, a.step + 1, b.step, kind, id);
    } else if b.step < a.step {
      LeftOverStays(trace, steps, b.step + 1, a.step, kind, id);
    } else {
      var s, t := trace[a.step], trace[a.step + 1];
      RunAccounted(trace, steps, a.step, kind);
      RunAccounted(trace, steps, a.step + 1, kind);
      OneReason(s, t, kind, id);
      DeletedWasTracked(s, t, kind, id);
    }
  }

  /** A row with a reason to be left over is not tracked. */
  lemma FateMeansLeftOver(trace: seq<State>, steps: seq<Step>, k: nat, kind: Kind, id: nat, fate: Fate)
    requires IsRun(trace, steps) && k < |trace| && Init(trace[0]) && TameSteps(steps, trace[0].stored.spec)
    requires HasFate(trace, k, kind, id, fate) && !fate.InUse?
    ensures id in LeftOver(trace[k], kind)
  {
    hide IsRun, Init, TameSteps, LeftByPersist, LeftByDelete, LeftOver, Keys;
    InitLeftOver(trace[0], kind);
    LeftOverStays(trace, steps, if fate.Older? then 0 else fate.step + 1, k, kind, id);
  }

  /** In every state of every run, whatever fails and wherever its activations stop, every target and
      rule on the server has exactly one fate. */
  lemma EveryRowHasOneFate(trace: seq<State>, steps: seq<Step>, k: nat, kind: Kind, id: nat)
    requires IsRun(trace, steps) && k < |trace| && Init(trace[0]) && TameSteps(steps, trace[0].stored.spec)
    requires id in Keys(trace[k], kind)
    ensures exists fate :: HasFate(trace, k, kind, id, fate) && forall other :: HasFate(trace, k, kind, id, other) ==> other == fate
  {
    hide IsRun, Init, TameSteps, LeftByPersist, LeftByDelete, Keys, TrackedIDs;
    var fate := InUse;
    if id !in TrackedIDs(trace[k], kind) { fate := SomeFate(trace, steps, k, kind, id); }
    assert HasFate(trace, k, kind, id, fate);
    forall other | HasFate(trace, k, kind, id, other) ensures other == fate {
      if other.InUse? {
        if !fate.InUse? { FateMeansLeftOver(trace, steps, k, kind, id, fate); }
      } else {
        FateMeansLeftOver(trace, steps, k, kind, id, other);
        SameFate(trace, steps, k, kind, id, fate, other);
      }
    }
  }

  /** No answer about children was lost, no recording patch or deletion refused or lost. */
  predicate CleanEntry(e: Entry) {
    match e.call
    case PatchStatus => e.reply.Served?
    case CreateChild(_, _, _) => !e.reply.Lost?
    case DeleteChild(_, _) => !e.reply.Refused?
    case _ => true
  }

  /** Every call made since the log had n entries was clean. */
  ghost predicate CleanSince(s: State, n: nat) {
    forall i :: n <= i < |s.log| ==> CleanEntry(s.log[i])
  }

  ghost predicate CleanRun(trace: seq<State>, steps: seq<Step>)
    requires |trace| == |steps| + 1
  {
    forall k :: 0 <= k < |steps| && steps[k].Activate? ==> !trace[k + 1].crashed && CleanSince(trace[k + 1], |trace[k].log|)
  }

  lemma CleanLeavesNothing(s: State, t: State, kind: Kind, id: nat)
    requires s.log <= t.log && !t.crashed && CleanSince(t, |s.log|)
    ensures !LeftByPersist(s, t, kind, id) && !LeftByDelete(s, t, kind, id)
  {
    hide WasTracked;
  }

  lemma IdleLeavesNothing(s: State, step: Step, kind: Kind)
    requires !step.Activate?
    ensures LeftOver(Do(s, step), kind) == LeftOver(s, kind)
  {
    if step.Act? { ActNeutral(s, step.env); }
    assert Do(s, step).remote.Table(kind) == s.remote.Table(kind) by { if kind == Targets {} }
    hide ApplyEnv;
    if kind == Targets {}
  }

  /** In a run in which nothing of that kind fails nothing leaks: what is not tracked was there before. */
  lemma {:induction false} NothingLeaks(trace: seq<State>, steps: seq<Step>, k: nat, kind: Kind)
    requires IsRun(trace, steps) && k < |trace| && Init(trace[0]) && TameSteps(steps, trace[0].stored.spec) && CleanRun(trace, steps)
    ensures LeftOver(trace[k], kind) == Keys(trace[0], kind)
  {
    hide Init, Do, TameStep, LeftOver, LeftByPersist, LeftByDelete, Keys, Births, Trackings, Inv, Bounded, Owned, CleanSince;
    InitLeftOver(trace[0], kind);
    if k > 0 {
      var j := k - 1;
      NothingLeaks(trace, steps, j, kind);
      RunAccounted(trace, steps, k, kind);
      BirthsLog(trace[j], trace[k], kind);
      if steps[j].Activate? {
        forall id ensures !LeftByPersist(trace[j], trace[k], kind, id) && !LeftByDelete(trace[j], trace[k], kind, id) {
          CleanLeavesNothing(trace[j], trace[k], kind, id);
        }
      } else {
        IdleLeavesNothing(trace[j], steps[j], kind);
      }
    }
  }
}
