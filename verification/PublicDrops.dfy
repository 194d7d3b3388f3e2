/** Runs in which others delete resources at any time, also between two calls of an activation: what
    still holds in every state, and what the next undisturbed activation does there. */
module PublicDrops {
  import opened Shared
  import opened Domains
  import opened Server
  import opened PublicResource
  import opened PublicSafety
  import opened PublicChildren
  import opened PublicSteps
  import opened PublicProtocol
  import opened PublicRuns
  import opened PublicConvergence
  import opened PublicTwins
  import opened PublicLoose
  import opened PublicOutage

  // ---- Assumptions and invariant ----

  /** Others may delete any resource and ask for the deletion of the object; edits keep the identity. */
  predicate WildEnv(env: Env, spec: Spec) {
    env.EditSpec? ==> SameIdentity(env.spec, spec)
  }

  ghost predicate Wild(script: seq<Event>, spec: Spec) {
    forall i :: 0 <= i < |script| ==> WildEnv(script[i].env, spec)
  }

  ghost predicate Bounded(s: State, kind: Kind, ids: seq<nat>) {
    forall id :: id in ids ==> id < s.remote.Table(kind).next
  }

  /** A status that may be stored. */
  ghost predicate Fair(s: State, st: Status) {
    var live := s.remote.resources.live;
    && Vouched(st) && st.observedGeneration <= |s.versions|
    && (st.resourceID in live ==> Matching(live[st.resourceID], s.stored.spec))
    && Bounded(s, Targets, st.targets.ids) && Bounded(s, Rules, st.rules.ids)
  }

  lemma LooseIsFair(s: State)
    ensures Loose(s) <==> Base(s) && Unique(s) && Fair(s, s.stored.status)
  {
    assert s.stored.status.Kept(Targets) == s.stored.status.targets && s.stored.status.Kept(Rules) == s.stored.status.rules;
    assert Known(s, Targets) <==> Bounded(s, Targets, s.stored.status.targets.ids);
    assert Known(s, Rules) <==> Bounded(s, Rules, s.stored.status.rules.ids);
    hide Base, Unique, Vouched, Matching;
  }

  /** Holds throughout an activation. */
  ghost predicate Adrift(s: State) {
    && Base(s) && Unique(s) && Fair(s, s.stored.status) && Fair(s, s.res.status) && Wild(s.script, s.stored.spec)
    && SameIdentity(s.res.spec, s.stored.spec) && s.res.generation <= |s.versions|
  }

  /** No resource can be adopted. */
  ghost predicate Bare(s: State) {
    forall id :: id in s.remote.resources.live ==> !Matching(s.remote.resources.live[id], s.stored.spec)
  }

  /** What every piece of an activation keeps. */
  ghost predicate Drifts(s: State, t: State) {
    && Adrift(t) && SameIdentity(t.stored.spec, s.stored.spec) && s.versions <= t.versions
    && t.stored.finalizer == s.stored.finalizer && (s.stored.deleting ==> t.stored.deleting)
    && t.remote.domains == s.remote.domains && t.site == s.site
    && (forall kind :: s.remote.Table(kind).next <= t.remote.Table(kind).next)
  }

  /** And nothing was created. */
  ghost predicate Barely(s: State, t: State) {
    Drifts(s, t) && (Bare(s) ==> Bare(t))
  }

  lemma DriftsChain(s: State, t: State, u: State)
    requires Drifts(s, t) && Drifts(t, u)
    ensures Drifts(s, u) && (Barely(s, t) && Barely(t, u) ==> Barely(s, u))
  {
    hide Adrift;
  }

  // ---- Single calls ----

  /** Where no row is added or changed a status stays fair. */
  lemma FairCarries(s: State, t: State, st: Status)
    requires Fair(s, st) && |s.versions| <= |t.versions| && SameIdentity(t.stored.spec, s.stored.spec)
    requires forall kind :: s.remote.Table(kind).next <= t.remote.Table(kind).next
    requires forall id :: id in t.remote.resources.live ==>
      id in s.remote.resources.live && t.remote.resources.live[id] == s.remote.resources.live[id]
    ensures Fair(t, st)
  {
    hide Vouched;
  }

  lemma WildSame(script: seq<Event>, a: Spec, b: Spec)
    requires Wild(script, a) && SameIdentity(a, b)
    ensures Wild(script, b) && (script != [] ==> Wild(script[1..], b))
  {
    forall i | 0 <= i < |script| ensures WildEnv(script[i].env, b) { assert WildEnv(script[i].env, a); }
  }

  lemma EnvDrifts(s: State, env: Env)
    requires Base(s) && Unique(s) && WildEnv(env, s.stored.spec)
    ensures var t := ApplyEnv(s, env);
      && Base(t) && Unique(t) && SameIdentity(t.stored.spec, s.stored.spec) && s.versions <= t.versions
      && t.stored.status == s.stored.status && t.stored.finalizer == s.stored.finalizer && (s.stored.deleting ==> t.stored.deleting)
      && t.remote == s.remote.(resources := t.remote.resources) && t.site == s.site && t.res == s.res && t.script == s.script
      && t.crashed == s.crashed
      && (forall id :: id in t.remote.resources.live ==>
            id in s.remote.resources.live && t.remote.resources.live[id] == s.remote.resources.live[id])
  {
    if env.DropResource? { RowRemoved(s, ApplyEnv(s, env), env.id); } else { EnvKeeps(s, env); }
    hide Base, Unique;
  }

  lemma AdvanceDrifts(s: State, call: Call)
    requires Adrift(s) && !Halted(s)
    ensures var t := Advance(s, call);
      && Barely(s, t) && t.res == s.res && t.stored.status == s.stored.status && t.crashed == s.crashed
      && t.remote == s.remote.(resources := t.remote.resources)
      && (forall id :: id in t.remote.resources.live ==>
            id in s.remote.resources.live && t.remote.resources.live[id] == s.remote.resources.live[id])
  {
    hide Base, Unique, ApplyEnv, Matching, Vouched, Fair;
    var env := s.script[0].env;
    var m := s.(script := s.script[1..], log := s.log + [Entry(call, s.script[0].reply)]);
    SameBase(s, m);
    assert WildEnv(env, s.stored.spec);
    EnvDrifts(m, env);
    var t := Advance(s, call);
    WildSame(s.script, s.stored.spec, t.stored.spec);
    FairCarries(s, t, s.stored.status);
    FairCarries(s, t, s.res.status);
    BareCarries(s, t);
  }

  lemma SameBase(s: State, t: State)
    requires t.remote == s.remote && t.stored == s.stored && t.versions == s.versions
    ensures Base(t) == Base(s) && Unique(t) == Unique(s)
  {
    hide Recomposes, Matching;
  }

  lemma BareCarries(s: State, t: State)
    requires SameIdentity(t.stored.spec, s.stored.spec)
    requires forall id :: id in t.remote.resources.live ==>
      id in s.remote.resources.live && t.remote.resources.live[id] == s.remote.resources.live[id]
    ensures Bare(s) ==> Bare(t)
  {
  }

  /** Only the status and the process's copy change. */
  lemma StatusDrifts(s: State, t: State)
    requires Adrift(s) && t.remote == s.remote && t.versions == s.versions && t.script == s.script && t.site == s.site
    requires t.stored == s.stored.(status := t.stored.status) && Fair(s, t.stored.status)
    requires t.res == s.res || t.res == t.stored || (t.res == s.res.(status := t.res.status) && Fair(s, t.res.status))
    ensures Barely(s, t)
  {
    BaseStatus(s, t);
    StoredIsAVersion(s);
    FairAgain(s, t, t.stored.status);
    FairAgain(s, t, t.res.status);
    BareCarries(s, t);
    hide Base, Unique, Fair, Bare;
  }

  lemma BaseStatus(s: State, t: State)
    requires Base(s) && Unique(s) && t.remote == s.remote && t.versions == s.versions && t.stored == s.stored.(status := t.stored.status)
    ensures Base(t) && Unique(t)
  {
    hide Recomposes, Matching;
  }

  lemma FairAgain(s: State, t: State, st: Status)
    requires Fair(s, st) && t.remote == s.remote && t.versions == s.versions && t.stored.spec == s.stored.spec
    ensures Fair(t, st)
  {
    FairCarries(s, t, st);
    hide Fair;
  }

  /** Others act, and then only the status and the copy change. */
  lemma CallDrifts(s: State, call: Call, t: State)
    requires Adrift(s) && !Halted(s)
    requires var m := Advance(s, call);
      && t.remote == m.remote && t.versions == m.versions && t.script == m.script && t.site == m.site
      && t.stored == m.stored.(status := t.stored.status) && (Fair(m, t.stored.status) || t.stored.status == s.stored.status)
      && (t.res == m.res || t.res == t.stored || (t.res == m.res.(status := t.res.status) && Fair(m, t.res.status)))
    ensures Barely(s, t)
  {
    hide Advance, Fair, Base, Unique, Bare;
    AdvanceDrifts(s, call);
    var m := Advance(s, call);
    StatusDrifts(m, t);
    DriftsChain(s, m, t);
  }

  lemma HaltDrifts(s: State)
    requires Adrift(s)
    ensures Barely(s, Halt(s))
  {
    StatusDrifts(s, Halt(s));
    hide Adrift, Bare;
  }

  lemma MergeFair(s: State, stored: Status, before: Status, after: Status)
    requires Fair(s, stored) && Fair(s, after)
    requires stored == before || (after.observedGeneration == before.observedGeneration && Reports(before, after))
    ensures Fair(s, MergeStatus(stored, before, after))
  {
    if stored == before { MergeAll(stored, after); }
  }

  /** What a patch does after others have acted. */
  lemma PatchShape(s: State, after: Status)
    requires !Halted(s)
    ensures var m, p := Advance(s, PatchStatus), Patch(s, after);
      && p.s == m.(stored := m.stored.(status := p.s.stored.status), res := p.s.res)
      && p.s.stored.status in {m.stored.status, MergeStatus(m.stored.status, s.res.status, after)}
      && (p.r.Ok? ==> p.s.res == p.s.stored && p.s.stored.status == MergeStatus(m.stored.status, s.res.status, after))
      && (p.r.Err? ==> p.s.res == s.res.(status := after))
  {
    hide Advance, MergeStatus;
  }

  lemma PatchDrifts(s: State, after: Status)
    requires Adrift(s) && Fair(s, after)
    requires s.stored.status == s.res.status || (after.observedGeneration == s.res.status.observedGeneration && Reports(s.res.status, after))
    ensures var p := Patch(s, after);
      && Barely(s, p.s)
      && (p.r.Ok? ==> p.s.res == p.s.stored && (s.stored.status == s.res.status ==> p.s.stored.status == after))
  {
    hide Advance, MergeStatus, Fair, Base, Unique, Vouched, Drifts, Bare, Patch;
    AdriftFair(s);
    if Halted(s) {
      HaltDrifts(s);
      assert Patch(s, after) == Outcome(Halt(s), Err({})) by { HaltedPatch(s, after); }
    } else {
      AdvanceDrifts(s, PatchStatus);
      PatchShape(s, after);
      var m := Advance(s, PatchStatus);
      AdvancedFair(s, m, after);
      MergeFair(m, m.stored.status, s.res.status, after);
      MergeAll(s.res.status, after);
      CallDrifts(s, PatchStatus, Patch(s, after).s);
    }
  }

  lemma HaltedPatch(s: State, after: Status)
    requires Halted(s)
    ensures Patch(s, after) == Outcome(Halt(s), Err({}))
  {
  }

  lemma AdriftFair(s: State)
    requires Adrift(s)
    ensures Fair(s, s.stored.status) && Fair(s, s.res.status) && Base(s) && Unique(s)
  {
  }

  lemma AdvancedFair(s: State, t: State, st: Status)
    requires Fair(s, st) && Drifts(s, t) && Adrift(s)
    requires t.remote == s.remote.(resources := t.remote.resources)
    requires forall id :: id in t.remote.resources.live ==>
      id in s.remote.resources.live && t.remote.resources.live[id] == s.remote.resources.live[id]
    ensures Fair(t, st) && Fair(t, t.stored.status)
  {
    FairCarries(s, t, st);
    hide Fair, Base, Unique;
  }

  /** Calls that only read, and deletions, leave status and copy alone; a served read of the object
      brings the copy up to date. */
  lemma ReadDrifts(s: State, name: string)
    requires Adrift(s)
    ensures var g := Get(s); Barely(s, g.s) && g.s.stored.status == s.stored.status && (g.r.Ok? ==> g.s.res == g.s.stored)
    ensures var l := ApiList(s, name);
      && Barely(s, l.s) && l.s.stored.status == s.stored.status && l.s.res == s.res
      && (l.r.Ok? ==> l.items == Listing(l.s.remote.resources.live, name, l.s.remote.resources.next))
    ensures var d := ApiDomains(s); Barely(s, d.s) && d.s.stored.status == s.stored.status && d.s.res == s.res
  {
    hide Advance, Fair, Base, Unique, Vouched, Drifts, Bare, Listing, Wild;
    HaltDrifts(s);
    if !Halted(s) {
      forall call ensures Barely(s, Advance(s, call)) && Advance(s, call).res == s.res && Advance(s, call).stored.status == s.stored.status {
        AdvanceDrifts(s, call);
      }
      CallDrifts(s, GetObject, Get(s).s);
    }
  }

  /** A row goes, or no row does. */
  lemma RowsGo(s: State, t: State, id: nat)
    requires Adrift(s) && t == s.(remote := s.remote.(resources := s.remote.resources.Remove(id)))
    ensures Barely(s, t)
  {
    RowRemoved(s, t, id);
    FairCarries(s, t, s.stored.status);
    FairCarries(s, t, s.res.status);
    hide Base, Unique, Fair, Wild;
  }

  lemma DeleteDrifts(s: State, id: nat)
    requires Adrift(s)
    ensures var d := ApiDelete(s, id); Barely(s, d.s) && d.s.stored.status == s.stored.status && d.s.res == s.res
  {
    hide Advance, Adrift, Drifts, Bare;
    if Halted(s) {
      HaltDrifts(s);
    } else {
      AdvanceDrifts(s, DeleteResource(id));
      var t := Advance(s, DeleteResource(id));
      assert Adrift(t) by { DriftsAdrift(s, t); }
      var u := t.(remote := t.remote.(resources := t.remote.resources.Remove(id)));
      RowsGo(t, u, id);
      DriftsChain(s, t, u);
    }
  }

  lemma DriftsAdrift(s: State, t: State)
    requires Drifts(s, t)
    ensures Adrift(t) && SameIdentity(t.stored.spec, s.stored.spec) && t.stored.finalizer == s.stored.finalizer
    ensures t.remote.domains == s.remote.domains && t.site == s.site && (s.stored.deleting ==> t.stored.deleting)
    ensures forall kind :: s.remote.Table(kind).next <= t.remote.Table(kind).next
  {
  }

  /** A new row that matches, when none did. */
  lemma RowMade(s: State, t: State, skip: nat, row: ResourceRow)
    requires Adrift(s) && Bare(s) && s.stored.finalizer && Matching(row, s.stored.spec)
    requires t == s.(remote := s.remote.(resources := s.remote.resources.Add(skip, row)))
    ensures Drifts(s, t)
  {
    FairMade(s, t, skip, row, s.stored.status);
    FairMade(s, t, skip, row, s.res.status);
    hide Fair, Wild, Recomposes;
  }

  lemma FairMade(s: State, t: State, skip: nat, row: ResourceRow, st: Status)
    requires Fair(s, st) && Matching(row, s.stored.spec)
    requires t == s.(remote := s.remote.(resources := s.remote.resources.Add(skip, row)))
    ensures Fair(t, st)
  {
    assert t.remote.Table(Targets) == s.remote.Table(Targets) && t.remote.Table(Rules) == s.remote.Table(Rules);
    hide Vouched, Matching;
  }

  lemma CreateDrifts(s: State, q: CreateRequest)
    requires Adrift(s) && Bare(s) && s.stored.finalizer && Matching(s.remote.NewRow(q), s.stored.spec)
    ensures var c := ApiCreate(s, q);
      && Drifts(s, c.s) && c.s.stored.status == s.stored.status && c.s.res == s.res
      && (c.r.Ok? ==> c.id in c.s.remote.resources.live && Matching(c.s.remote.resources.live[c.id], c.s.stored.spec))
  {
    hide Advance, Adrift, Drifts, Bare, Compose;
    if Halted(s) {
      HaltDrifts(s);
    } else {
      AdvanceDrifts(s, CreateResource);
      var t := Advance(s, CreateResource);
      DriftsAdrift(s, t);
      if !s.script[0].reply.Refused? {
        var skip, row := s.script[0].reply.skip, t.remote.NewRow(q);
        var u := t.(remote := t.remote.(resources := t.remote.resources.Add(skip, row)));
        RowMade(t, u, skip, row);
        DriftsChain(s, t, u);
      }
    }
  }

  lemma UpdateDrifts(s: State, id: nat, q: UpdateRequest)
    requires Adrift(s) && (id in s.remote.resources.live ==> Matching(s.remote.resources.live[id], s.stored.spec))
    requires q.name == "" || q.name == s.stored.spec.name
    ensures var u := ApiUpdate(s, id, q); Drifts(s, u.s) && u.s.stored.status == s.stored.status && u.s.res == s.res
  {
    hide Advance, Adrift, Drifts, Bare, Apply;
    if Halted(s) {
      HaltDrifts(s);
    } else {
      AdvanceDrifts(s, UpdateResource(id));
      var t := Advance(s, UpdateResource(id));
      DriftsAdrift(s, t);
      if id in t.remote.resources.live {
        var u := t.(remote := t.remote.(resources := t.remote.resources.Put(id, Apply(t.remote.resources.live[id], q))));
        RowChanged(t, u, id, q);
        DriftsChain(s, t, u);
      }
    }
  }

  lemma RowChanged(s: State, t: State, id: nat, q: UpdateRequest)
    requires Adrift(s) && id in s.remote.resources.live && Matching(s.remote.resources.live[id], s.stored.spec)
    requires q.name == "" || q.name == s.stored.spec.name
    requires t == s.(remote := s.remote.(resources := s.remote.resources.Put(id, Apply(s.remote.resources.live[id], q))))
    ensures Drifts(s, t)
  {
    RowUpdated(s, t, id, q);
    ApplyTwice(s.remote.resources.live[id], q);
    assert t.remote.Table(Targets) == s.remote.Table(Targets) && t.remote.Table(Rules) == s.remote.Table(Rules);
    hide Base, Unique, Wild, Apply, Vouched;
  }

  // ---- Children ----

  /** A child row is added or removed; no status is concerned. */
  lemma ChildrenDrift(s: State, t: State, kind: Kind)
    requires Adrift(s) && Base(t) && t == s.(remote := s.remote.WithTable(kind, t.remote.Table(kind)))
    requires s.remote.Table(kind).next <= t.remote.Table(kind).next
    ensures Barely(s, t)
  {
    assert t.remote.resources == s.remote.resources by { if kind == Targets {} }
    assert forall k :: s.remote.Table(k).next <= t.remote.Table(k).next;
    FairCarries(s, t, s.stored.status);
    FairCarries(s, t, s.res.status);
    SameResources(s, t);
    hide Base, Unique, Fair, Wild;
  }

  lemma SameResources(s: State, t: State)
    requires t.remote.resources == s.remote.resources && t.stored == s.stored
    ensures Unique(t) == Unique(s) && Bare(t) == Bare(s)
  {
    hide Matching;
  }

  lemma ServeOneDrifts(b: Batch, kind: Kind, resource: nat, specs: seq<ChildSpec>, i: nat)
    requires Adrift(b.s) && !Halted(b.s) && |b.ids| == |specs| && i < |specs| && Bounded(b.s, kind, b.ids)
    ensures var c := ServeOne(b, kind, resource, specs, i);
      Barely(b.s, c.s) && Bounded(c.s, kind, c.ids) && c.s.stored.status == b.s.stored.status && c.s.res == b.s.res
  {
    hide Advance, Adrift, Drifts, Bare, Row, Handed;
    var call := CreateChild(kind, resource, Handed(b.s, kind));
    AdvanceDrifts(b.s, call);
    var t := Advance(b.s, call);
    DriftsAdrift(b.s, t);
    BoundedGrows(b.s, t, kind, b.ids);
    if !b.s.script[0].reply.Refused? && resource in t.remote.resources.live {
      var skip, row := b.s.script[0].reply.skip, Row(t, kind, resource, specs[i], i);
      assert row.resource == resource by { RowHangs(t, kind, resource, specs[i], i); }
      var u := t.(remote := t.remote.WithTable(kind, t.remote.Table(kind).Add(skip, row)));
      assert Base(t) && Unique(t) by { AdriftFair(t); }
      RowInserted(t, u, kind, skip, row);
      TableOf(t.remote, kind, t.remote.Table(kind).Add(skip, row));
      ChildrenDrift(t, u, kind);
      DriftsChain(b.s, t, u);
      BoundedGrows(t, u, kind, b.ids);
      BoundedSlot(u, kind, b.ids, i, t.remote.Table(kind).next + skip);
      hide Base, Unique, Bounded;
    }
  }

  lemma BoundedGrows(s: State, t: State, kind: Kind, ids: seq<nat>)
    requires Bounded(s, kind, ids) && s.remote.Table(kind).next <= t.remote.Table(kind).next
    ensures Bounded(t, kind, ids)
  {
  }

  lemma BoundedSlot(s: State, kind: Kind, ids: seq<nat>, i: nat, id: nat)
    requires Bounded(s, kind, ids) && i < |ids| && id < s.remote.Table(kind).next
    ensures Bounded(s, kind, ids[i := id])
  {
    var filled := ids[i := id];
    forall a | a in filled ensures a < s.remote.Table(kind).next {
      var k :| 0 <= k < |filled| && filled[k] == a;
      if k != i { assert ids[k] in ids; }
    }
  }

  lemma RowHangs(s: State, kind: Kind, resource: nat, spec: ChildSpec, i: nat)
    ensures Row(s, kind, resource, spec, i).resource == resource
  {
  }

  lemma TableOf(remote: Remote, kind: Kind, table: Store<Child>)
    ensures remote.WithTable(kind, table).Table(kind) == table
  {
  }

  lemma {:induction false} ServeAllDrifts(b: Batch, kind: Kind, resource: nat, specs: seq<ChildSpec>, pending: seq<nat>)
    requires Adrift(b.s) && |b.ids| == |specs| && Bounded(b.s, kind, b.ids) && forall j :: 0 <= j < |pending| ==> pending[j] < |specs|
    ensures var c := ServeAll(b, kind, resource, specs, pending);
      Barely(b.s, c.s) && Bounded(c.s, kind, c.ids) && c.s.stored.status == b.s.stored.status && c.s.res == b.s.res
    decreases |pending|
  {
    hide Adrift, Drifts, Bare, ServeOne;
    if pending == [] {
      SelfDrifts(b.s);
    } else if Halted(b.s) {
      HaltDrifts(b.s);
    } else {
      var p := Chosen(pending, b.s.script[0].pick);
      var m := ServeOne(b, kind, resource, specs, pending[p]);
      ServeOneDrifts(b, kind, resource, specs, pending[p]);
      DriftsAdrift(b.s, m.s);
      var rest := pending[..p] + pending[p + 1..];
      ServeAllDrifts(m, kind, resource, specs, rest);
      DriftsChain(b.s, m.s, ServeAll(m, kind, resource, specs, rest).s);
    }
  }

  lemma SelfDrifts(s: State)
    requires Adrift(s)
    ensures Barely(s, s)
  {
    hide Adrift;
  }

  lemma CreateChildrenDrifts(s: State, kind: Kind, resource: nat, specs: seq<ChildSpec>)
    requires Adrift(s)
    ensures var b := CreateChildren(s, kind, resource, specs);
      Barely(s, b.s) && Bounded(b.s, kind, b.ids) && b.s.stored.status == s.stored.status && b.s.res == s.res
  {
    assert Bounded(s, kind, Zeros(|specs|)) by { AdriftFair(s); if kind == Targets {} }
    var b := ServeAll(Batch(s, Zeros(|specs|), false, {}), kind, resource, specs, Indices(|specs|));
    ServeAllDrifts(Batch(s, Zeros(|specs|), false, {}), kind, resource, specs, Indices(|specs|));
    NonZeroOf(b.ids);
    hide ServeAll, Adrift, Drifts, Base, Unique, Fair, Bare;
  }

  lemma {:induction false} DeleteChildrenDrifts(s: State, kind: Kind, resource: nat, ids: seq<nat>)
    requires Adrift(s)
    ensures var t := DeleteChildren(s, kind, resource, ids);
      Barely(s, t) && t.stored.status == s.stored.status && t.res == s.res
    decreases |ids|
  {
    hide Adrift, Drifts, Bare, DeleteOne;
    if ids == [] {
      SelfDrifts(s);
    } else {
      var m := DeleteOne(s, kind, resource, ids[0]);
      DeleteOneDrifts(s, kind, resource, ids[0]);
      DriftsAdrift(s, m);
      DeleteChildrenDrifts(m, kind, resource, ids[1..]);
      DriftsChain(s, m, DeleteChildren(m, kind, resource, ids[1..]));
    }
  }

  lemma DeleteOneDrifts(s: State, kind: Kind, resource: nat, id: nat)
    requires Adrift(s)
    ensures var t := DeleteOne(s, kind, resource, id); Barely(s, t) && t.stored.status == s.stored.status && t.res == s.res
  {
    hide Advance, Adrift, Drifts, Bare;
    if Halted(s) {
      HaltDrifts(s);
    } else {
      AdvanceDrifts(s, DeleteChild(kind, id));
      var t := Advance(s, DeleteChild(kind, id));
      DriftsAdrift(s, t);
      var u := t.(remote := t.remote.WithTable(kind, t.remote.Table(kind).Remove(id)));
      AdriftFair(t);
      RowDeleted(t, u, kind, id);
      TableOf(t.remote, kind, t.remote.Table(kind).Remove(id));
      ChildrenDrift(t, u, kind);
      DriftsChain(s, t, u);
      hide Base, Unique;
    }
  }

  // ---- Pieces of an activation ----

  /** A piece that succeeded leaves the copy's status as it is stored. */
  predicate InHand(s: State) {
    s.res.status == s.stored.status
  }

  ghost predicate Yields(s: State, t: State, r: Result) {
    Drifts(s, t) && (r.Ok? ==> InHand(t))
  }

  lemma YieldsOn(s: State, t: State, u: State, r: Result)
    requires Drifts(s, t) && Yields(t, u, r)
    ensures Yields(s, u, r)
  {
    DriftsChain(s, t, u);
    hide Drifts;
  }

  lemma PersistDrifts(s: State, id: nat)
    requires Adrift(s) && InHand(s) && id in s.remote.resources.live && Matching(s.remote.resources.live[id], s.stored.spec)
    ensures var c := Persist(s, id); Yields(s, c.s, c.r) && (c.r.Ok? ==> c.s.stored.status.resourceID == c.id)
  {
    hide Adrift, Drifts, Bare, Patch, ApiDelete;
    var after := s.stored.status.(resourceID := id, phase := Creating);
    assert Fair(s, after) by { AdriftFair(s); }
    PatchDrifts(s, after);
    var p := Patch(s, after);
    DriftsAdrift(s, p.s);
    if p.r.Err? {
      DeleteDrifts(p.s, id);
      DriftsChain(s, p.s, ApiDelete(p.s, id).s);
    }
  }

  /** The request that is made with the chosen domain leads to a row that matches. */
  lemma DomainDrifts(s: State)
    requires Adrift(s)
    ensures var d := ChooseDomain(s);
      && Barely(s, d.s) && d.s.res == s.res && d.s.stored.status == s.stored.status
      && (d.r.Ok? ==> Matching(d.s.remote.NewRow(NewRequest(s.res.spec, d.id, d.subdomain)), d.s.stored.spec))
  {
    hide Bare, Fair, Unique, Wild, Drifts, Resolve, Compose, ApiDomains;
    ReadDrifts(s, "");
    SelfDrifts(s);
    var d := ChooseDomain(s);
    DriftsAdrift(s, d.s);
    SameRecomposes(s.remote.domains, s.stored.spec, s.res.spec);
    if d.r.Ok? && s.res.spec.protocol == HTTP && s.res.spec.fullDomain != "" {
      ResolvedHasID(s.remote.domains, s.res.spec.fullDomain);
    }
  }

  lemma CreateAndPersistDrifts(s: State)
    requires Adrift(s) && InHand(s) && Bare(s) && s.stored.finalizer
    ensures var c := CreateAndPersist(s); Yields(s, c.s, c.r) && (c.r.Ok? ==> c.s.stored.status.resourceID == c.id)
  {
    hide Adrift, Drifts, Bare, Patch, ApiCreate, ChooseDomain, Persist, Matching;
    var creating := s.stored.status.(phase := Creating);
    assert Fair(s, creating) by { AdriftFair(s); }
    PatchDrifts(s, creating);
    var p := Patch(s, creating);
    DriftsAdrift(s, p.s);
    if p.r.Ok? {
      DomainDrifts(p.s);
      var d := ChooseDomain(p.s);
      DriftsAdrift(p.s, d.s);
      DriftsChain(s, p.s, d.s);
      if d.r.Ok? {
        var q := NewRequest(d.s.res.spec, d.id, d.subdomain);
        CreateDrifts(d.s, q);
        var c := ApiCreate(d.s, q);
        DriftsAdrift(d.s, c.s);
        DriftsChain(s, d.s, c.s);
        if c.r.Ok? {
          PersistDrifts(c.s, c.id);
          YieldsOn(s, c.s, Persist(c.s, c.id).s, Persist(c.s, c.id).r);
        }
      }
    }
  }

  /** Tracking children that the server has handed out. */
  lemma TracksFair(s: State, targets: Tracked, rules: Tracked)
    requires Adrift(s) && Bounded(s, Targets, targets.ids) && Bounded(s, Rules, rules.ids)
    ensures Fair(s, s.stored.status.(targets := targets, rules := rules))
  {
    AdriftFair(s);
    hide Base, Unique, Matching;
  }

  lemma StoredBounded(s: State)
    requires Adrift(s)
    ensures Bounded(s, Targets, s.stored.status.targets.ids) && Bounded(s, Rules, s.stored.status.rules.ids)
  {
  }

  lemma PopulateChildrenDrifts(s: State, id: nat)
    requires Adrift(s) && InHand(s)
    ensures var t := PopulateChildren(s, id); Yields(s, t.s, t.r)
  {
    hide Adrift, Drifts, Bare, Patch, CreateChildren, Bounded, Fair;
    var st := s.stored.status;
    CreateChildrenDrifts(s, Targets, id, s.res.spec.targets);
    var t := CreateChildren(s, Targets, id, s.res.spec.targets);
    DriftsAdrift(s, t.s);
    StoredBounded(t.s);
    if t.failed {
      SelfDrifts(t.s);
      TracksFair(t.s, st.targets.(ids := t.ids), st.rules);
      PatchDrifts(t.s, st.(targets := st.targets.(ids := t.ids)));
      DriftsChain(s, t.s, PopulateChildren(s, id).s);
    } else {
      CreateChildrenDrifts(t.s, Rules, id, t.s.res.spec.rules);
      var r := CreateChildren(t.s, Rules, id, t.s.res.spec.rules);
      DriftsAdrift(t.s, r.s);
      DriftsChain(s, t.s, r.s);
      BoundedGrows(t.s, r.s, Targets, t.ids);
      var spec := r.s.res.spec;
      TracksFair(r.s, st.targets.(ids := t.ids), st.rules.(ids := r.ids));
      TracksFair(r.s, Tracked(t.ids, HashOf(spec.targets)), Tracked(r.ids, HashOf(spec.rules)));
      PatchDrifts(r.s, st.(targets := st.targets.(ids := t.ids), rules := st.rules.(ids := r.ids)));
      PatchDrifts(r.s, st.(targets := Tracked(t.ids, HashOf(spec.targets)), rules := Tracked(r.ids, HashOf(spec.rules))));
      DriftsChain(s, r.s, PopulateChildren(s, id).s);
    }
  }

  lemma RecordedMatches(s: State)
    requires Adrift(s)
    ensures var id := s.stored.status.resourceID; id in s.remote.resources.live ==> Matching(s.remote.resources.live[id], s.stored.spec)
    ensures s.res.spec.name == s.stored.spec.name && SameIdentity(s.res.spec, s.stored.spec)
  {
  }

  lemma CreationDrifts(s: State)
    requires Adrift(s) && InHand(s) && Bare(s) && s.stored.finalizer
    ensures var c := Create(s); Yields(s, c.s, c.r)
  {
    hide Adrift, Drifts, Bare, CreateAndPersist, Get, ApiUpdate, PopulateChildren, Matching, PostCreateRequest, ApiList, ApiDomains;
    CreateAndPersistDrifts(s);
    var c := CreateAndPersist(s);
    DriftsAdrift(s, c.s);
    if c.r.Ok? {
      ReadDrifts(c.s, "");
      var g := Get(c.s);
      DriftsAdrift(c.s, g.s);
      DriftsChain(s, c.s, g.s);
      if g.r.Ok? {
        RecordedMatches(g.s);
        var q := PostCreateRequest(g.s.res.spec);
        PostName(g.s.res.spec);
        UpdateDrifts(g.s, c.id, q);
        var u := ApiUpdate(g.s, c.id, q);
        DriftsAdrift(g.s, u.s);
        DriftsChain(s, g.s, u.s);
        if u.r.Ok? {
          PopulateChildrenDrifts(u.s, c.id);
          YieldsOn(s, u.s, PopulateChildren(u.s, c.id).s, PopulateChildren(u.s, c.id).r);
        }
      }
    }
  }

  lemma PostName(spec: Spec)
    ensures PostCreateRequest(spec).name == "" || PostCreateRequest(spec).name == spec.name
  {
  }

  /** A listing by the name decides whether there is a resource to adopt. */
  lemma ListingTells(s: State)
    requires Adrift(s)
    ensures var m := FindResource(Listing(s.remote.resources.live, s.res.spec.name, s.remote.resources.next), s.res.spec);
      if m.None? then Bare(s)
      else m.value.id in s.remote.resources.live && Matching(s.remote.resources.live[m.value.id], s.stored.spec)
  {
    var live, spec := s.remote.resources.live, s.res.spec;
    var items := Listing(live, spec.name, s.remote.resources.next);
    var m := FindResource(items, spec);
    if m.None? {
      forall id | id in live ensures !Matching(live[id], s.stored.spec) {
        if live[id].name == spec.name { assert ResourceItem(id, spec.name, live[id].fullDomain) in items; }
      }
    } else {
      var i :| 0 <= i < |items| && items[i] == m.value;
    }
    hide Listing, FindResource, Recomposes, Fair, Unique, Wild;
  }

  lemma EnsureExistsDrifts(s: State)
    requires Adrift(s) && InHand(s) && s.stored.finalizer
    ensures var e := EnsureExists(s); Yields(s, e.s, e.r)
  {
    hide Adrift, Drifts, Bare, Patch, ApiList, Listing, FindResource, Create, Lists, Get, ApiDomains, Matching, Fair;
    ReadDrifts(s, s.res.spec.name);
    var l := ApiList(s, s.res.spec.name);
    DriftsAdrift(s, l.s);
    if l.r.Ok? {
      ListingTells(l.s);
      var m := FindResource(l.items, l.s.res.spec);
      if m.Some? {
        var after := Adopted(l.s.stored.status, m.value.id);
        AdoptionFair(l.s, m.value.id);
        PatchDrifts(l.s, after);
        DriftsChain(s, l.s, Patch(l.s, after).s);
      } else {
        CreationDrifts(l.s);
        YieldsOn(s, l.s, Create(l.s).s, Create(l.s).r);
      }
    }
  }

  lemma AdoptionFair(s: State, id: nat)
    requires Adrift(s) && id in s.remote.resources.live && Matching(s.remote.resources.live[id], s.stored.spec)
    ensures Fair(s, Adopted(s.stored.status, id))
  {
    hide Base, Unique, Matching;
  }

  lemma SyncDrifts(s: State, kind: Kind)
    requires Adrift(s) && InHand(s)
    ensures var t := Sync(s, kind); Yields(s, t.s, t.r)
  {
    hide Adrift, Drifts, Bare, Patch, CreateChildren, DeleteChildren, Fair, Bounded;
    var specs, st, id := s.res.spec.Children(kind), s.stored.status, s.stored.status.resourceID;
    SelfDrifts(s);
    CreateChildrenDrifts(s, kind, id, specs);
    var b := CreateChildren(s, kind, id, specs);
    DriftsAdrift(s, b.s);
    KeptFair(b.s, kind, b.ids, HashOf(specs));
    var more := st.WithKept(kind, st.Kept(kind).(ids := st.Kept(kind).ids + b.ids));
    var after := st.WithKept(kind, Tracked(b.ids, HashOf(specs)));
    PatchDrifts(b.s, more);
    PatchDrifts(b.s, after);
    DriftsChain(s, b.s, Patch(b.s, more).s);
    var p := Patch(b.s, after);
    DriftsAdrift(b.s, p.s);
    DriftsChain(s, b.s, p.s);
    DeleteChildrenDrifts(p.s, kind, id, st.Kept(kind).ids);
    DriftsChain(s, p.s, DeleteChildren(p.s, kind, id, st.Kept(kind).ids));
  }

  lemma KeptFair(s: State, kind: Kind, ids: seq<nat>, hash: Hash)
    requires Adrift(s) && Bounded(s, kind, ids)
    ensures var st := s.stored.status;
      && Fair(s, st.WithKept(kind, Tracked(ids, hash)))
      && Fair(s, st.WithKept(kind, st.Kept(kind).(ids := st.Kept(kind).ids + ids)))
  {
    StoredBounded(s);
    var kept := s.stored.status.Kept(kind);
    assert Bounded(s, kind, kept.ids + ids) by { if kind == Targets {} }
    if kind == Targets {
      TracksFair(s, Tracked(ids, hash), s.stored.status.rules);
      TracksFair(s, kept.(ids := kept.ids + ids), s.stored.status.rules);
    } else {
      TracksFair(s, s.stored.status.targets, Tracked(ids, hash));
      TracksFair(s, s.stored.status.targets, kept.(ids := kept.ids + ids));
    }
    hide Adrift, Fair, Bounded;
  }

  lemma UpdatingDrifts(s: State)
    requires Adrift(s) && InHand(s)
    ensures var u := Update(s); Yields(s, u.s, u.r)
  {
    hide Adrift, Drifts, Bare, ApiUpdate, Sync, SettingsRequest, Matching;
    var id, q := s.stored.status.resourceID, SettingsRequest(s.res.spec);
    RequestName(s.res.spec);
    RecordedMatches(s);
    UpdateDrifts(s, id, q);
    var u := ApiUpdate(s, id, q);
    DriftsAdrift(s, u.s);
    if u.r.Ok? {
      SyncDrifts(u.s, Targets);
      var t := Sync(u.s, Targets);
      YieldsOn(s, u.s, t.s, t.r);
      if t.r.Ok? {
        DriftsAdrift(u.s, t.s);
        SyncDrifts(t.s, Rules);
        YieldsOn(s, t.s, Sync(t.s, Rules).s, Sync(t.s, Rules).r);
      }
    }
  }

  // ---- Whole activations ----

  /** Failure reports, also with a copy that is ahead of what is stored, and the reset after a 404. */
  lemma ReportsDrift(s: State, kinds: set<ErrKind>)
    requires Adrift(s)
    ensures Drifts(s, ReportEnsure(s, kinds)) && Drifts(s, ReportUpdate(s, kinds)) && Drifts(s, Patch(s, Unready(s, Pending)).s)
  {
    hide Patch, Adrift, Drifts, Fair, Bare;
    ReportFair(s);
    PatchDrifts(s, Unready(s, Pending));
    PatchDrifts(s, Unready(s, Erroneous));
    PatchDrifts(s, Unready(s, PermanentError).(phase := Failed));
    PatchDrifts(s, Forgotten(s.res.status));
  }

  lemma ReportFair(s: State)
    requires Adrift(s)
    ensures Fair(s, Unready(s, Pending)) && Fair(s, Unready(s, Erroneous)) && Fair(s, Unready(s, PermanentError).(phase := Failed))
    ensures Fair(s, Forgotten(s.res.status))
  {
    assert 0 !in s.remote.resources.live;
    hide Recomposes, Unique, Matching;
  }

  lemma FinishDrifts(s: State)
    requires Adrift(s) && InHand(s)
    ensures Drifts(s, Finish(s))
  {
    assert Fair(s, Finished(s)) by { hide Base, Unique, Matching; }
    PatchDrifts(s, Finished(s));
    hide Patch, Adrift, Drifts, Fair, Bare;
  }

  lemma UpdateAndFinishDrifts(s: State, hadID: bool, adopted: bool)
    requires Adrift(s) && InHand(s)
    ensures Drifts(s, UpdateAndFinish(s, hadID, adopted))
  {
    hide Adrift, Drifts, Update, Finish, ReportUpdate, ReportEnsure, Patch;
    FinishDrifts(s);
    UpdatingDrifts(s);
    var u := Update(s);
    DriftsAdrift(s, u.s);
    ReportsDrift(u.s, if u.r.Err? then u.r.kinds else {});
    if u.r.Ok? { FinishDrifts(u.s); }
    DriftsChain(s, u.s, if u.r.Err? then ReportUpdate(u.s, u.r.kinds) else Finish(u.s));
  }

  lemma ReconcileReadyDrifts(s: State)
    requires Adrift(s) && InHand(s) && s.stored.finalizer
    ensures Drifts(s, ReconcileReady(s))
  {
    hide Adrift, Drifts, EnsureExists, UpdateAndFinish, ReportEnsure, ReportUpdate, Patch, Get, ApiList, ApiDomains, Bare;
    EnsureExistsDrifts(s);
    var e := EnsureExists(s);
    DriftsAdrift(s, e.s);
    if e.r.Err? {
      ReportsDrift(e.s, e.r.kinds);
      DriftsChain(s, e.s, ReportEnsure(e.s, e.r.kinds));
    } else {
      var hadID := s.res.status.resourceID != 0;
      ReadDrifts(e.s, "");
      var g := Get(e.s);
      DriftsAdrift(e.s, g.s);
      DriftsChain(s, e.s, g.s);
      if hadID && !e.adopted {
        if g.r.Ok? {
          UpdateAndFinishDrifts(g.s, hadID, e.adopted);
          DriftsChain(s, g.s, UpdateAndFinish(g.s, hadID, e.adopted));
        }
      } else {
        UpdateAndFinishDrifts(e.s, hadID, e.adopted);
        DriftsChain(s, e.s, UpdateAndFinish(e.s, hadID, e.adopted));
      }
    }
  }

  /** An update of an object that was edited since it was read is refused. */
  lemma FinalizerDrifts(s: State, present: bool)
    requires Adrift(s) && (present || s.stored.deleting)
    ensures var f := SetFinalizer(s, present);
      && Adrift(f.s) && SameIdentity(f.s.stored.spec, s.stored.spec)
      && (f.r.Ok? ==> InHand(f.s) && f.s.stored.finalizer == present)
  {
    hide Advance, Fair, Wild, Bare;
    if Halted(s) {
      HaltDrifts(s);
    } else {
      var call := if present then AddFinalizer else RemoveFinalizer;
      AdvanceDrifts(s, call);
      var t := Advance(s, call);
      DriftsAdrift(s, t);
      var f := SetFinalizer(s, present).s;
      if f != t {
        FinalizerUnique(t, f);
        FairAgain(t, f, t.stored.status);
        FairAgain(t, f, f.res.status);
      }
    }
    hide Recomposes, Unique;
  }

  lemma FinalizerUnique(s: State, t: State)
    requires Unique(s) && t.remote == s.remote && t.stored == s.stored.(finalizer := t.stored.finalizer)
    requires t.stored.finalizer || s.stored.deleting
    ensures Unique(t)
  {
    hide Matching;
  }

  lemma CleanupDrifts(s: State)
    requires Adrift(s) && s.stored.deleting
    ensures Adrift(Cleanup(s)) && SameIdentity(Cleanup(s).stored.spec, s.stored.spec)
  {
    hide Adrift, Drifts, Bare, ApiDelete, SetFinalizer;
    var id := s.res.status.resourceID;
    DeleteDrifts(s, id);
    var d := ApiDelete(s, id);
    DriftsAdrift(s, d.s);
    FinalizerDrifts(s, false);
    FinalizerDrifts(d.s, false);
  }

  lemma ActivationDrifts(s: State, script: seq<Event>)
    requires Loose(s) && Wild(script, s.stored.spec)
    ensures Loose(Reconcile(s, script)) && SameIdentity(Reconcile(s, script).stored.spec, s.stored.spec)
  {
    hide Adrift, Drifts, Cleanup, SetFinalizer, ReconcileReady, Patch, ReportEnsure, ReportUpdate, Loose, Bare, Wild;
    var m := Start(s, script);
    StartAdrift(s, script);
    AdriftIsLoose(m);
    if s.stored.deleting {
      CleanupDrifts(m);
      AdriftIsLoose(Cleanup(m));
    } else {
      FinalizerDrifts(m, true);
      var f := if s.stored.finalizer then m else SetFinalizer(m, true).s;
      AdriftIsLoose(f);
      if s.stored.finalizer || SetFinalizer(m, true).r.Ok? {
        ReportsDrift(f, {});
        ReconcileReadyDrifts(f);
        DriftsAdrift(f, ReconcileLive(f));
        AdriftIsLoose(ReconcileLive(f));
      }
    }
  }

  lemma StartAdrift(s: State, script: seq<Event>)
    requires Loose(s) && Wild(script, s.stored.spec)
    ensures Adrift(Start(s, script))
  {
    LooseIsFair(s);
    var m := Start(s, script);
    SameBase(s, m);
    FairCarries(s, m, s.stored.status);
    StoredIsAVersion(s);
    hide Base, Unique, Fair, Wild, Loose;
  }

  lemma AdriftIsLoose(s: State)
    requires Adrift(s)
    ensures Loose(s)
  {
    LooseIsFair(s);
    hide Loose, Base, Unique, Fair;
  }

  // ---- Runs ----

  ghost predicate WildStep(step: Step, spec: Spec) {
    match step
    case Act(env) => WildEnv(env, spec)
    case SetSite(_) => true
    case Activate(script) => Wild(script, spec)
  }

  ghost predicate WildSteps(steps: seq<Step>, spec: Spec) {
    forall i :: 0 <= i < |steps| ==> WildStep(steps[i], spec)
  }

  lemma StepDrifts(s: State, step: Step)
    requires Loose(s) && WildStep(step, s.stored.spec)
    ensures Loose(Do(s, step)) && SameIdentity(Do(s, step).stored.spec, s.stored.spec)
  {
    hide Reconcile, ApplyEnv, Base, Unique, Fair, Wild, Loose;
    LooseIsFair(s);
    match step
    case Act(env) =>
      var t := ApplyEnv(s, env);
      EnvDrifts(s, env);
      FairCarries(s, t, s.stored.status);
      LooseIsFair(t);
    case SetSite(site) =>
      SameLoose(s, s.(site := site));
    case Activate(script) =>
      ActivationDrifts(s, script);
  }

  lemma WildStepSame(step: Step, a: Spec, b: Spec)
    requires SameIdentity(a, b) && WildStep(step, a)
    ensures WildStep(step, b)
  {
    if step.Activate? { WildSame(step.script, a, b); }
  }

  /** Whatever others delete, and whenever: every state of every run is loose. */
  lemma {:induction false} RunLoose(trace: seq<State>, steps: seq<Step>, k: nat)
    requires IsRun(trace, steps) && k < |trace| && Loose(trace[0]) && WildSteps(steps, trace[0].stored.spec)
    ensures Loose(trace[k]) && SameIdentity(trace[k].stored.spec, trace[0].stored.spec)
  {
    hide Loose, Do, WildStep;
    if k > 0 {
      RunLoose(trace, steps, k - 1);
      WildStepSame(steps[k - 1], trace[0].stored.spec, trace[k - 1].stored.spec);
      StepDrifts(trace[k - 1], steps[k - 1]);
    }
  }

  lemma RunsAreLoose(trace: seq<State>, steps: seq<Step>, s: State)
    requires IsRun(trace, steps) && s in trace && Init(trace[0]) && WildSteps(steps, trace[0].stored.spec)
    ensures Loose(s)
  {
    hide IsRun, Init, WildSteps, Live, Loose;
    InitKeeps(trace[0]);
    LiveIsLoose(trace[0]);
    var k :| 0 <= k < |trace| && trace[k] == s;
    RunLoose(trace, steps, k);
  }

  /** In every state of every run, with deletions by others between any two calls: the next undisturbed
      activation reports ready, and it is true exactly if WillRealise held before. */
  lemma ReadyInRuns(trace: seq<State>, steps: seq<Step>, s: State, script: seq<Event>)
    requires IsRun(trace, steps) && s in trace && Init(trace[0]) && WildSteps(steps, trace[0].stored.spec)
    requires Eligible(s) && Smooth(script) && |script| >= Budget(s)
    ensures var t := Reconcile(s, script);
      MarkedReady(t.stored) && t.stored.spec == s.stored.spec && (SpecRealised(t) <==> WillRealise(s))
  {
    hide IsRun, Init, WildSteps, Loose, Eligible, Reconcile, SpecRealised, Smooth, WillRealise;
    RunsAreLoose(trace, steps, s);
    ReadyExactly(s, script);
  }

  /** And whenever the recorded resource is gone in such a run, an outage can follow exactly if the state
      is unguarded. */
  lemma OutageInRunsExactly(trace: seq<State>, steps: seq<Step>, s: State)
    requires IsRun(trace, steps) && s in trace && Init(trace[0]) && WildSteps(steps, trace[0].stored.spec)
    requires Eligible(s) && s.stored.status.resourceID !in s.remote.resources.live
    ensures (exists first, second :: Outage(s, first, second)) <==> Unguarded(s)
  {
    hide IsRun, Init, WildSteps, Loose, Eligible, Outage, Unguarded;
    RunsAreLoose(trace, steps, s);
    OutageExactly(s);
  }

  /** Deletions by others do not lead to a second resource, nor to one without the finalizer. */
  lemma StillAtMostOne(trace: seq<State>, steps: seq<Step>, t: State, a: nat, b: nat)
    requires IsRun(trace, steps) && t in trace && Init(trace[0]) && WildSteps(steps, trace[0].stored.spec)
    requires var live := t.remote.resources.live; a in live && b in live && live[a].ours && live[b].ours
    ensures a == b && (t.stored.finalizer || t.stored.deleting)
  {
    hide IsRun, Init, WildSteps, Base, Known, Vouched;
    RunsAreLoose(trace, steps, t);
  }
}
