/** The pieces of one activation: each keeps the invariant wherever it is cut short, and success
    means that the stored status claims what the piece was for. */
module PublicSteps {
  import opened Shared
  import opened Server
  import opened PublicResource
  import opened PublicSafety
  import opened PublicChildren

  // ---- Claims about children ----

  lemma ClaimNew(s: State, st: Status, kind: Kind, ids: seq<nat>, specs: seq<ChildSpec>)
    requires Backed(s, st) && st.resourceID in s.remote.resources.live
    requires NewChildren(s, kind, st.resourceID, ids, 0) && Realised(s, kind, st.resourceID, specs, ids)
    requires exists v :: 0 <= v < |s.versions| && s.versions[v].Children(kind) == specs
    ensures Backed(s, st.WithKept(kind, Tracked(ids, HashOf(specs))))
  {
    var after := st.WithKept(kind, Tracked(ids, HashOf(specs)));
    forall k ensures Honest(s, after, k) {
      assert Honest(s, st, k) by { if k == Targets {} }
      if k == kind {} else { assert k == Other(kind); }
    }
  }

  lemma ClaimMore(s: State, st: Status, kind: Kind, ids: seq<nat>)
    requires Backed(s, st) && st.resourceID in s.remote.resources.live
    requires NewChildren(s, kind, st.resourceID, ids, 0)
    ensures Backed(s, st.WithKept(kind, st.Kept(kind).(ids := st.Kept(kind).ids + ids)))
  {
    var after := st.WithKept(kind, st.Kept(kind).(ids := st.Kept(kind).ids + ids));
    forall k ensures Honest(s, after, k) {
      assert Honest(s, st, k) by { if k == Targets {} }
      if k == kind {} else { assert k == Other(kind); }
    }
  }

  lemma NewSince(s: State, kind: Kind, resource: nat, ids: seq<nat>, base: nat)
    requires NewChildren(s, kind, resource, ids, base)
    ensures NewChildren(s, kind, resource, ids, 0)
  {
  }

  lemma ShrankBacked(s: State, t: State, st: Status, kind: Kind, ids: seq<nat>)
    requires Backed(s, st) && Shrank(s, t, kind, ids)
    requires forall k :: 0 <= k < |st.Kept(kind).ids| ==> st.Kept(kind).ids[k] !in ids
    ensures Backed(t, st)
  {
    forall k ensures Honest(t, st, k) {
      assert Honest(s, st, k) by { if k == Targets {} }
      if st.Kept(k).hash.HashOf? {
        var v :| 0 <= v < |s.versions| && s.versions[v].Children(k) == st.Kept(k).hash.specs;
        assert t.versions[v] == s.versions[v];
      }
      if k == kind {} else { assert k == Other(kind); }
    }
  }

  /** Children created now are not among the ones tracked before. */
  lemma NewNotOld(s: State, t: State, kind: Kind, ids: seq<nat>, resource: nat)
    requires Base(s) && Honest(s, s.stored.status, kind)
    requires NewChildren(t, kind, resource, ids, s.remote.Table(kind).next)
    ensures forall k :: 0 <= k < |ids| ==> ids[k] !in s.stored.status.Kept(kind).ids
  {
    assert s.remote.Table(kind).Valid();
  }

  lemma CopyIsAVersion(s: State, kind: Kind)
    requires Synced(s) && !s.crashed
    ensures exists v :: 0 <= v < |s.versions| && s.versions[v].Children(kind) == s.res.spec.Children(kind)
  {
    assert s.versions[s.res.generation - 1] == s.res.spec;
  }

  lemma VersionsGrow(s: State, t: State, kind: Kind, specs: seq<ChildSpec>)
    requires Follows(s, t) && exists v :: 0 <= v < |s.versions| && s.versions[v].Children(kind) == specs
    ensures exists v :: 0 <= v < |t.versions| && t.versions[v].Children(kind) == specs
  {
    var v :| 0 <= v < |s.versions| && s.versions[v].Children(kind) == specs;
    assert t.versions[v] == s.versions[v];
  }

  // ---- Update: settings, then the two swaps ----

  /** What one swap does to the stored status when it succeeds. */
  ghost predicate Swapped(s: State, t: State, kind: Kind, specs: seq<ChildSpec>) {
    var a, b := s.stored.status, t.stored.status;
    && b == a.WithKept(kind, b.Kept(kind)) && b.Kept(kind).hash == HashOf(specs)
  }

  lemma SyncKeeps(s: State, kind: Kind)
    requires Ready0(s) && !s.crashed && s.stored.status.resourceID in s.remote.resources.live
    ensures var t := Sync(s, kind);
      && Kept(s, t.s, t.r) && t.s.remote.resources == s.remote.resources
      && (t.r.Ok? ==> Swapped(s, t.s, kind, s.res.spec.Children(kind)))
      && (t.r.Err? ==> NotFound !in t.r.kinds)
      && t.s.stored.status.resourceID == s.stored.status.resourceID
      && t.s.stored.status.observedGeneration == s.stored.status.observedGeneration
  {
    hide Base, Unique, Tame, Backed, Grew, CreateChildren, DeleteChildren, Patch, Follows, NewChildren, Realised,
         Synced, Steady;
    var specs := s.res.spec.Children(kind);
    var st := s.stored.status;
    SyncedStatus(s);
    if st.Kept(kind).hash == HashOf(specs) {
      SameBesidesCarries(s, s);
      FreshFollows(s, s);
    } else {
      var id := st.resourceID;
      var base := s.remote.Table(kind).next;
      CopyIsAVersion(s, kind);
      CreateChildrenKeeps(s, kind, id, specs);
      var b := CreateChildren(s, kind, id, specs);
      GrewFacts(s, b.s, kind);
      GrewBacked(s, b.s, st, kind);
      NewSince(b.s, kind, id, b.ids, base);
      if b.failed {
        ClaimMore(b.s, st, kind, b.ids);
        PatchKeeps(b.s, st.WithKept(kind, st.Kept(kind).(ids := st.Kept(kind).ids + b.ids)));
        FollowsChain(s, b.s, Sync(s, kind).s);
      } else {
        VersionsGrow(s, b.s, kind, specs);
        ClaimNew(b.s, st, kind, b.ids, specs);
        var after := st.WithKept(kind, Tracked(b.ids, HashOf(specs)));
        PatchKeeps(b.s, after);
        var p := Patch(b.s, after);
        FollowsChain(s, b.s, p.s);
        if p.r.Ok? {
          FinishSwap(s, b.s, p.s, kind, b.ids, specs);
          FreshFollows(s, b.s);
          SteadyChain(s, b.s, p.s);
          SteadyChain(s, p.s, Sync(s, kind).s);
        }
      }
    }
  }

  lemma SyncedStatus(s: State)
    requires Synced(s) && !s.crashed
    ensures s.res.status == s.stored.status
  {
  }

  lemma GrewFacts(s: State, t: State, kind: Kind)
    requires Grew(s, t, kind)
    ensures Follows(s, t) && t.remote.resources == s.remote.resources && t.stored.status == s.stored.status
    ensures t.res == s.res && t.stored.finalizer == s.stored.finalizer
  {
  }

  lemma SteadyChain(s: State, t: State, u: State)
    requires Follows(s, t) && Steady(s, t) && Steady(t, u)
    ensures Steady(s, u)
  {
    hide Quiet, Gentle, SameWork, Fresh, Apt;
  }

  lemma FinishSwap(s: State, b: State, p: State, kind: Kind, ids: seq<nat>, specs: seq<ChildSpec>)
    requires Ready0(s) && Ready0(p) && Follows(s, p) && p.remote == b.remote
    requires p.stored.status == s.stored.status.WithKept(kind, Tracked(ids, HashOf(specs)))
    requires NewChildren(b, kind, s.stored.status.resourceID, ids, s.remote.Table(kind).next)
    ensures var t := DeleteChildren(p, kind, s.stored.status.resourceID, s.stored.status.Kept(kind).ids);
      && Follows(s, t) && Live(t) && Synced(t) && t.remote.resources == p.remote.resources && t.stored.status == p.stored.status
      && Steady(p, t)
  {
    hide Base, Unique, Tame, Linked, Honest, Follows, NewChildren, Synced, DeleteChildren, Steady;
    var before := s.stored.status.Kept(kind).ids;
    assert Honest(s, s.stored.status, kind) by { if kind == Targets {} }
    NewNotOld(s, b, kind, ids, s.stored.status.resourceID);
    DeleteChildrenKeeps(p, kind, s.stored.status.resourceID, before);
    var t := DeleteChildren(p, kind, s.stored.status.resourceID, before);
    ShrankBacked(p, t, p.stored.status, kind, before);
    FollowsChain(s, p, t);
    FreshFollows(p, t);
  }

  /** The settings a request carries are on the server, and repeating it would change nothing. */
  ghost predicate Carries(s: State, id: nat, q: UpdateRequest) {
    id in s.remote.resources.live && Apply(s.remote.resources.live[id], q) == s.remote.resources.live[id]
  }

  lemma RowUpdated(s: State, t: State, id: nat, q: UpdateRequest)
    requires Base(s) && Unique(s) && id in s.remote.resources.live && Matching(s.remote.resources.live[id], s.stored.spec)
    requires q.name == "" || q.name == s.stored.spec.name
    requires t == s.(remote := s.remote.(resources := s.remote.resources.Put(id, Apply(s.remote.resources.live[id], q))))
    ensures Base(t) && Unique(t) && Follows(s, t) && Carries(t, id, q)
    ensures Linked(s, s.stored.status) ==> Linked(t, t.stored.status)
  {
    hide Recomposes;
    ApplyTwice(s.remote.resources.live[id], q);
  }

  lemma ApplyTwice(row: ResourceRow, q: UpdateRequest)
    ensures Apply(Apply(row, q), q) == Apply(row, q)
    ensures Apply(row, q).fullDomain == row.fullDomain && Apply(row, q).ours == row.ours
    ensures Apply(row, q).name == (if q.name == "" then row.name else q.name)
  {
  }

  lemma RowUpdatedHonest(s: State, t: State, st: Status, kind: Kind)
    requires Honest(s, st, kind) && t.remote.targets == s.remote.targets && t.remote.rules == s.remote.rules
    requires t.versions == s.versions && t.siteID == s.siteID
    ensures Honest(t, st, kind)
  {
    assert t.remote.Table(kind) == s.remote.Table(kind);
  }

  lemma ApiUpdateKeeps(s: State, id: nat, q: UpdateRequest)
    requires Ready0(s) && (id in s.remote.resources.live ==> Matching(s.remote.resources.live[id], s.stored.spec))
    requires q.name == "" || q.name == s.stored.spec.name
    ensures var u := ApiUpdate(s, id, q);
      && Kept(s, u.s, u.r) && u.s.stored.status == s.stored.status && u.s.res == s.res
      && u.s.remote.resources.live.Keys == s.remote.resources.live.Keys
      && (u.r.Ok? ==> !u.s.crashed && Carries(u.s, id, q))
      && (u.r.Err? && NotFound in u.r.kinds ==> id !in s.remote.resources.live)
  {
    hide Base, Unique, Honest, Advance, Tame;
    var u := ApiUpdate(s, id, q);
    if Halted(s) {
      SameBesidesCarries(s, u.s);
      BackedFollows(s, u.s, s.stored.status);
    } else {
      AdvanceFollows(s, UpdateResource(id));
      var t := Advance(s, UpdateResource(id));
      BackedFollows(s, t, s.stored.status);
      if u.s != t {
        RowUpdated(t, u.s, id, q);
        RowUpdatedHonest(t, u.s, s.stored.status, Targets);
        RowUpdatedHonest(t, u.s, s.stored.status, Rules);
        FollowsChain(s, t, u.s);
      }
      FreshFollows(s, u.s);
    }
  }

  lemma CarriesFollows(s: State, t: State, id: nat, q: UpdateRequest)
    requires Carries(s, id, q) && t.remote.resources == s.remote.resources
    ensures Carries(t, id, q)
  {
  }

  lemma KeptChain(s: State, t: State, u: State, r: Result)
    requires Kept(s, t, Ok) && Kept(t, u, r)
    ensures Kept(s, u, r)
  {
    FollowsChain(s, t, u);
    if r.Ok? { SteadyChain(s, t, u); }
    hide Follows, Live, Synced, Steady;
  }

  lemma Onward(s: State, t: State)
    requires Ready0(s) && Kept(s, t, Ok)
    ensures Ready0(t) && SameIdentity(t.stored.spec, s.stored.spec)
  {
    hide Base, Unique, Backed;
  }

  /** The stored hashes are those of the given spec. */
  predicate HashedAs(st: Status, spec: Spec) {
    st.targets.hash == HashOf(spec.targets) && st.rules.hash == HashOf(spec.rules)
  }

  lemma CrashedSync(s: State, kind: Kind)
    requires s.crashed
    ensures Sync(s, kind).s == s && (Sync(s, kind).r.Err? ==> NotFound !in Sync(s, kind).r.kinds)
  {
    var specs := s.res.spec.Children(kind);
    var b := ServeAll(Batch(s, Zeros(|specs|), false, {}), kind, s.res.status.resourceID, specs, Indices(|specs|));
    assert b.s == s && NotFound !in b.kinds;
  }

  lemma RidMatches(s: State)
    requires Live(s)
    ensures var id := s.stored.status.resourceID;
      id in s.remote.resources.live ==> Matching(s.remote.resources.live[id], s.stored.spec)
  {
  }

  lemma RequestName(spec: Spec)
    ensures SettingsRequest(spec).name == spec.name
  {
  }

  lemma UpdateKeeps(s: State)
    requires Ready0(s) && !s.crashed && s.stored.status.resourceID in s.remote.resources.live
    ensures var t := Update(s);
      && Kept(s, t.s, t.r)
      && t.s.remote.resources.live.Keys == s.remote.resources.live.Keys
      && t.s.stored.status.resourceID == s.stored.status.resourceID
      && t.s.stored.status.observedGeneration == s.stored.status.observedGeneration
      && (t.r.Err? ==> NotFound !in t.r.kinds)
      && (t.r.Ok? && !t.s.crashed && Gentle(s.script, s.stored.spec) && Apt(s) ==>
            Carries(t.s, s.stored.status.resourceID, SettingsRequest(s.stored.spec)) && HashedAs(t.s.stored.status, s.stored.spec))
  {
    hide Base, Unique, Tame, Backed, Follows, Sync, ApiUpdate, Ready0, Kept, Fresh, Quiet, Gentle, Apt, Apply,
         SettingsRequest;
    RequestName(s.res.spec);
    var id := s.stored.status.resourceID;
    InStep(s);
    RidMatches(s);
    var q := SettingsRequest(s.res.spec);
    ApiUpdateKeeps(s, id, q);
    var u := ApiUpdate(s, id, q);
    if u.r.Ok? {
      Onward(s, u.s);
      SyncKeeps(u.s, Targets);
      var t := Sync(u.s, Targets);
      KeptChain(s, u.s, t.s, t.r);
      if t.r.Ok? {
        if t.s.crashed {
          CrashedSync(t.s, Rules);
          DeadEnd(s, t.s);
        } else {
          Onward(s, t.s);
          SyncKeeps(t.s, Rules);
          var r := Sync(t.s, Rules);
          KeptChain(s, t.s, r.s, r.r);
          if r.r.Ok? && Gentle(s.script, s.stored.spec) && Apt(s) {
            StillApt(s, u.s);
            StillApt(s, t.s);
            AptMeans(s);
            CarriesFollows(u.s, r.s, id, q);
          }
        }
      }
    }
  }

  /** What Ready0 means for the process's copy. */
  lemma InStep(s: State)
    requires Ready0(s) && !s.crashed
    ensures s.res.status == s.stored.status && SameIdentity(s.res.spec, s.stored.spec) && Live(s)
    ensures Fresh(s) ==> s.res.spec == s.stored.spec && s.res.generation == s.stored.generation
  {
    CopyHasIdentity(s);
  }

  lemma StillFresh(s: State, t: State)
    requires Ready0(s) && Kept(s, t, Ok) && Quiet(s.script) && Fresh(s) && !t.crashed
    ensures t.stored.spec == s.stored.spec && t.stored.generation == s.stored.generation
    ensures t.res.spec == s.stored.spec && t.res.generation == s.stored.generation && Quiet(t.script) && Fresh(t)
  {
  }

  /** The same for activations in which others ask for nothing new. */
  lemma StillApt(s: State, t: State)
    requires Ready0(s) && Kept(s, t, Ok) && Gentle(s.script, s.stored.spec) && Apt(s) && !t.crashed
    ensures SameWork(t.stored.spec, s.stored.spec) && SameWork(t.res.spec, s.stored.spec)
    ensures Gentle(t.script, t.stored.spec) && Apt(t)
  {
    hide Live, SettingsRequest, Gentle;
  }

  lemma AptMeans(s: State)
    requires Apt(s) && !s.crashed
    ensures SameWork(s.res.spec, s.stored.spec)
  {
  }

  lemma DeadEnd(s: State, t: State)
    requires Kept(s, t, Ok) && t.crashed
    ensures forall r: Result :: Kept(s, t, r)
  {
  }
}
