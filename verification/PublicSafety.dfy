/** What every activation of the PublicResource reconciler keeps, wherever it is cut short. */
module PublicSafety {
  import opened Shared
  import opened Domains
  import opened Server
  import opened PublicResource

  // ---- Assumptions on the environment ----

  predicate SameIdentity(a: Spec, b: Spec) {
    a.name == b.name && a.protocol == b.protocol && a.fullDomain == b.fullDomain
  }

  /** No one else deletes the resource, and edits keep name, protocol and domain. */
  ghost predicate TameEnv(env: Env, spec: Spec) {
    !env.DropResource? && (env.EditSpec? ==> SameIdentity(env.spec, spec))
  }

  ghost predicate Tame(script: seq<Event>, spec: Spec) {
    forall i :: 0 <= i < |script| ==> TameEnv(script[i].env, spec)
  }

  /** The environment does nothing at all during the activation. */
  ghost predicate Quiet(script: seq<Event>) {
    forall i :: 0 <= i < |script| ==> script[i].env.Calm?
  }

  /** Two versions that ask the server for the same. */
  predicate SameWork(a: Spec, b: Spec) {
    a.targets == b.targets && a.rules == b.rules && SettingsRequest(a) == SettingsRequest(b)
  }

  /** What others do during the activation asks for nothing new. */
  ghost predicate Gentle(script: seq<Event>, spec: Spec) {
    forall i :: 0 <= i < |script| ==>
      match script[i].env
      case Calm => true
      case RequestDelete => true
      case EditSpec(later) => SameIdentity(later, spec) && SameWork(later, spec)
      case DropResource(_) => false
  }

  lemma QuietIsGentle(script: seq<Event>, spec: Spec)
    requires Quiet(script)
    ensures Gentle(script, spec)
  {
  }

  /** The server composes the domain that the spec asked for (see Domains.ResolutionRoundTrip). */
  ghost predicate Recomposes(domains: seq<Domain>, spec: Spec) {
    spec.protocol == HTTP && spec.fullDomain != "" ==>
      match Resolve(domains, spec.fullDomain)
      case Unresolved => true
      case Resolved(id, subdomain) => Compose(domains, id, subdomain) == spec.fullDomain
  }

  // ---- The invariant ----

  ghost predicate Base(s: State) {
    && s.remote.Valid()
    && 1 <= s.stored.generation == |s.versions|
    && s.versions[|s.versions| - 1] == s.stored.spec
    && (forall i :: 0 <= i < |s.versions| ==> SameIdentity(s.versions[i], s.stored.spec))
    && Recomposes(s.remote.domains, s.stored.spec)
  }

  predicate Matching(row: ResourceRow, spec: Spec) {
    IsMatch(row.name, row.fullDomain, spec)
  }

  /** At most one live resource matches the spec, and everything the reconciler created matches. */
  ghost predicate Unique(s: State) {
    var live := s.remote.resources.live;
    && (forall id :: id in live && live[id].ours ==> Matching(live[id], s.stored.spec))
    && (forall a, b :: a in live && b in live && Matching(live[a], s.stored.spec) && Matching(live[b], s.stored.spec) ==> a == b)
    && (forall id :: id in live && live[id].ours ==> s.stored.finalizer || s.stored.deleting)
  }

  /** A status that claims anything about the remote side beyond an ID. */
  predicate Engaged(st: Status) {
    st.targets != Tracked([], NoHash) || st.rules != Tracked([], NoHash) || st.observedGeneration != 0
  }

  /** The Ready condition is only true of the generation that was observed. */
  predicate Vouched(st: Status) {
    st.condition.Condition? && st.condition.holds ==> st.condition.generation == st.observedGeneration
  }

  ghost predicate Linked(s: State, st: Status) {
    var live := s.remote.resources.live;
    && Vouched(st)
    && st.observedGeneration <= |s.versions|
    && (st.resourceID in live ==> Matching(live[st.resourceID], s.stored.spec))
    && (Engaged(st) ==> st.resourceID in live)
  }

  /** Every tracked child is live on the resource, and a recorded hash stands for children that
      are live with exactly the hashed content, in order, at the front of the tracked list. */
  ghost predicate Honest(s: State, st: Status, kind: Kind) {
    var kept := st.Kept(kind);
    var live := s.remote.Table(kind).live;
    && (forall k :: 0 <= k < |kept.ids| ==> kept.ids[k] in live && live[kept.ids[k]].resource == st.resourceID)
    && (kept.hash.HashOf? ==>
          && |kept.hash.specs| <= |kept.ids|
          && (forall i :: 0 <= i < |kept.hash.specs| ==>
                live[kept.ids[i]] == Row(s, kind, st.resourceID, kept.hash.specs[i], i))
          && exists v :: 0 <= v < |s.versions| && s.versions[v].Children(kind) == kept.hash.specs)
  }

  /** The claims that would hold if the stored status were st. */
  ghost predicate Backed(s: State, st: Status) {
    Linked(s, st) && Honest(s, st, Targets) && Honest(s, st, Rules)
  }

  ghost predicate Live(s: State) {
    Base(s) && Unique(s) && Backed(s, s.stored.status)
  }

  /** The invariant between activations; a deletion in progress may have removed the resource. */
  ghost predicate Inv(s: State) {
    Base(s) && Unique(s) && (!s.stored.deleting ==> Backed(s, s.stored.status))
  }

  /** The process's copy agrees with the stored status and is some stored version. */
  ghost predicate Synced(s: State) {
    !s.crashed ==>
      && s.res.status == s.stored.status
      && 1 <= s.res.generation <= |s.versions|
      && s.res.spec == s.versions[s.res.generation - 1]
  }

  /** The process's copy is the current version of the object. */
  ghost predicate Fresh(s: State) {
    !s.crashed ==> s.res.spec == s.stored.spec && s.res.generation == s.stored.generation
  }

  /** The process's copy asks for the same as the current version of the object. */
  ghost predicate Apt(s: State) {
    !s.crashed ==> SameWork(s.res.spec, s.stored.spec)
  }

  /** The copy stays as current as what others do allows. */
  ghost predicate Steady(s: State, t: State) {
    && (Quiet(s.script) && Fresh(s) ==> Fresh(t))
    && (Gentle(s.script, s.stored.spec) && Apt(s) ==> Apt(t))
  }

  /** What any piece of an activation leaves alone. */
  ghost predicate Follows(s: State, t: State) {
    && (Tame(s.script, s.stored.spec) ==> Tame(t.script, t.stored.spec))
    && (Quiet(s.script) ==> Quiet(t.script) && t.versions == s.versions && t.stored.deleting == s.stored.deleting)
    && (Gentle(s.script, s.stored.spec) ==> Gentle(t.script, t.stored.spec) && SameWork(t.stored.spec, s.stored.spec))
    && SameIdentity(t.stored.spec, s.stored.spec)
    && s.versions <= t.versions
    && t.siteID == s.siteID && t.site == s.site
    && t.remote.domains == s.remote.domains && t.remote.defaults == s.remote.defaults
    && t.stored.finalizer == s.stored.finalizer
    && (s.stored.deleting ==> t.stored.deleting)
    && (s.crashed ==> t.crashed && t.log == s.log)
    && s.log <= t.log
    && (s.stored.status.targets.hash.HashOf? ==> t.stored.status.targets.hash.HashOf?)
  }

  ghost predicate Ready0(s: State) {
    Live(s) && Synced(s) && Tame(s.script, s.stored.spec) && s.stored.finalizer
  }

  // ---- Single calls ----

  /** What the environment may do during a call: new versions of the spec, a request to delete. */
  ghost predicate EnvOnly(s: State, t: State) {
    && Follows(s, t) && t.remote == s.remote && t.res == s.res
    && t.stored.status == s.stored.status && t.crashed == s.crashed
  }

  /** The environment on its own. */
  lemma EnvKeeps(s: State, env: Env)
    requires Base(s) && TameEnv(env, s.stored.spec)
    ensures var t := ApplyEnv(s, env);
      && t == s.(stored := t.stored, versions := t.versions)
      && Base(t) && (Unique(s) ==> Unique(t))
      && s.versions <= t.versions && SameIdentity(t.stored.spec, s.stored.spec)
      && t.stored.status == s.stored.status && t.stored.finalizer == s.stored.finalizer
      && (s.stored.deleting ==> t.stored.deleting)
      && (env.Calm? ==> t == s)
      && (t.versions == s.versions || t.stored.generation == s.stored.generation + 1)
  {
    hide Recomposes;
    var t := ApplyEnv(s, env);
    forall i | 0 <= i < |t.versions| ensures SameIdentity(t.versions[i], t.stored.spec) {
      if i < |s.versions| { assert SameIdentity(s.versions[i], s.stored.spec); }
    }
    assert Recomposes(t.remote.domains, t.stored.spec) by { SameRecomposes(s.remote.domains, s.stored.spec, t.stored.spec); }
  }

  lemma SameRecomposes(domains: seq<Domain>, a: Spec, b: Spec)
    requires SameIdentity(a, b) && Recomposes(domains, a)
    ensures Recomposes(domains, b)
  {
    hide Resolve, Compose;
  }

  lemma TameSame(script: seq<Event>, a: Spec, b: Spec)
    requires SameIdentity(a, b) && Tame(script, a)
    ensures Tame(script, b)
  {
    forall i | 0 <= i < |script| ensures TameEnv(script[i].env, b) {
      assert TameEnv(script[i].env, a);
    }
  }

  lemma GentleAdvance(s: State, call: Call)
    requires !Halted(s) && Gentle(s.script, s.stored.spec)
    ensures var t := Advance(s, call); Gentle(t.script, t.stored.spec) && SameWork(t.stored.spec, s.stored.spec)
  {
    hide SettingsRequest;
    var t := Advance(s, call);
    var env := s.script[0].env;
    assert match env case EditSpec(later) => SameIdentity(later, s.stored.spec) && SameWork(later, s.stored.spec) case _ => true;
    forall i | 0 <= i < |t.script|
      ensures match t.script[i].env
              case Calm => true
              case RequestDelete => true
              case EditSpec(later) => SameIdentity(later, t.stored.spec) && SameWork(later, t.stored.spec)
              case DropResource(_) => false
    {
      assert t.script[i] == s.script[i + 1];
    }
  }

  lemma AdvanceFollows(s: State, call: Call)
    requires !Halted(s) && Base(s) && Tame(s.script, s.stored.spec)
    ensures var t := Advance(s, call);
      && EnvOnly(s, t) && Base(t) && (Unique(s) ==> Unique(t)) && (Synced(s) ==> Synced(t))
      && Tame(t.script, t.stored.spec)
  {
    hide Recomposes, Unique, ApplyEnv, SameWork, SettingsRequest, Gentle;
    if Gentle(s.script, s.stored.spec) { GentleAdvance(s, call); }
    var env := s.script[0].env;
    var m := s.(script := s.script[1..], log := s.log + [Entry(call, s.script[0].reply)]);
    if Unique(s) { SameUnique(s, m); }
    assert TameEnv(env, s.stored.spec);
    EnvKeeps(m, env);
    var t := Advance(s, call);
    forall i | 0 <= i < |m.script| ensures TameEnv(m.script[i].env, s.stored.spec) {
      assert TameEnv(s.script[i + 1].env, s.stored.spec);
    }
    TameSame(m.script, s.stored.spec, t.stored.spec);
  }

  lemma SameUnique(s: State, t: State)
    requires Unique(s) && t.remote == s.remote && t.stored == s.stored
    ensures Unique(t)
  {
  }

  /** Claims survive whatever leaves the remote rows alone. */
  lemma BackedCarries(s: State, t: State, st: Status)
    requires Backed(s, st) && t.remote == s.remote && t.siteID == s.siteID
    requires s.versions <= t.versions && SameIdentity(t.stored.spec, s.stored.spec)
    ensures Backed(t, st)
  {
    forall kind ensures Honest(t, st, kind) {
      assert Honest(s, st, kind) by { if kind == Targets {} }
      if st.Kept(kind).hash.HashOf? {
        var v :| 0 <= v < |s.versions| && s.versions[v].Children(kind) == st.Kept(kind).hash.specs;
        assert t.versions[v] == s.versions[v];
      }
    }
  }

  lemma BackedFollows(s: State, t: State, st: Status)
    requires Backed(s, st) && t.remote == s.remote && Follows(s, t)
    ensures Backed(t, st)
  {
    BackedCarries(s, t, st) by { hide Backed; }
    hide Backed;
  }

  /** t differs from s at most in the stored status, the process's copy and the log. */
  predicate SameBesides(s: State, t: State) {
    && t.remote == s.remote && t.versions == s.versions && t.siteID == s.siteID && t.site == s.site && t.script == s.script
    && t.stored == s.stored.(status := t.stored.status) && (s.crashed ==> t.crashed) && t.log == s.log
    && (s.stored.status.targets.hash.HashOf? ==> t.stored.status.targets.hash.HashOf?)
  }

  lemma SameBesidesCarries(s: State, t: State)
    requires SameBesides(s, t)
    ensures (Base(s) ==> Base(t)) && (Unique(s) ==> Unique(t)) && Follows(s, t)
  {
  }

  lemma FollowsChain(s: State, t: State, u: State)
    requires Follows(s, t) && Follows(t, u)
    ensures Follows(s, u)
  {
  }

  lemma FreshFollows(s: State, t: State)
    requires Base(s) && Base(t) && Follows(s, t) && t.res == s.res
    ensures Steady(s, t)
  {
  }

  /** What a finished piece leaves behind: safe in any case, and in step when it succeeded. */
  ghost predicate Kept(s: State, t: State, r: Result) {
    && Follows(s, t) && Live(t)
    && (r.Ok? ==> Synced(t) && Steady(s, t))
  }

  predicate SameClaims(a: Status, b: Status) {
    a.resourceID == b.resourceID && a.targets == b.targets && a.rules == b.rules && a.observedGeneration == b.observedGeneration
  }

  /** A report sets the condition to false, or leaves it alone. */
  predicate Reports(before: Status, after: Status) {
    after.condition == before.condition || (after.condition.Condition? && !after.condition.holds)
  }

  lemma ReportVouched(stored: Status, before: Status, after: Status)
    requires Vouched(stored) && SameClaims(after, before) && Reports(before, after)
    ensures Vouched(MergeStatus(stored, before, after))
  {
  }

  lemma SameClaimsBacked(s: State, a: Status, b: Status)
    requires SameClaims(a, b) && Backed(s, a) && Vouched(b)
    ensures Backed(s, b)
  {
    forall kind ensures Honest(s, b, kind) {
      assert Honest(s, a, kind) by { if kind == Targets {} }
    }
  }

  lemma MergeAll(st: Status, after: Status)
    ensures MergeStatus(st, st, after) == after
  {
  }

  lemma PatchKeeps(s: State, after: Status)
    requires Ready0(s) && Backed(s, after)
    requires s.stored.status.targets.hash.HashOf? ==> after.targets.hash.HashOf?
    ensures var p := Patch(s, after);
      && Kept(s, p.s, p.r) && p.s.remote == s.remote
      && (p.s.stored.status == s.stored.status || p.s.stored.status == after)
      && (p.r.Ok? ==> p.s.stored.status == after && p.s.res == p.s.stored && !p.s.crashed)
      && (p.r.Err? ==> p.r.kinds == {})
  {
    hide Base, Unique, Backed, Advance, MergeStatus, Tame, Follows;
    var p := Patch(s, after);
    if Halted(s) {
      SameBesidesCarries(s, p.s);
      BackedFollows(s, p.s, s.stored.status);
    } else {
      AdvanceFollows(s, PatchStatus);
      var t := Advance(s, PatchStatus);
      MergeAll(s.res.status, after);
      SameBesidesCarries(t, p.s);
      FollowsChain(s, t, p.s);
      BackedFollows(s, p.s, p.s.stored.status);
    }
  }

  lemma BackedVouches(s: State)
    requires Backed(s, s.stored.status)
    ensures Vouched(s.stored.status)
  {
  }

  /** A patch of condition and phase is safe whatever the process has in memory. */
  lemma ReportKeeps(s: State, after: Status)
    requires Live(s) && Tame(s.script, s.stored.spec) && SameClaims(after, s.res.status) && Reports(s.res.status, after)
    ensures var t := Patch(s, after).s;
      && Follows(s, t) && Live(t) && t.remote == s.remote && SameClaims(t.stored.status, s.stored.status)
  {
    hide Base, Unique, Backed, Advance, Tame, Follows;
    var p := Patch(s, after);
    if Halted(s) {
      SameBesidesCarries(s, p.s);
    } else {
      AdvanceFollows(s, PatchStatus);
      var t := Advance(s, PatchStatus);
      SameBesidesCarries(t, p.s);
      FollowsChain(s, t, p.s);
    }
    BackedFollows(s, p.s, s.stored.status);
    assert Vouched(s.stored.status) by { BackedVouches(s); }
    ReportVouched(s.stored.status, s.res.status, after);
    SameClaimsBacked(p.s, s.stored.status, p.s.stored.status);
  }

  lemma GetKeeps(s: State)
    requires Ready0(s)
    ensures var g := Get(s);
      && Kept(s, g.s, g.r) && g.s.remote == s.remote && g.s.stored.status == s.stored.status
      && (g.r.Ok? ==> g.s.res == g.s.stored && !g.s.crashed)
      && (g.r.Err? ==> g.r.kinds == {})
  {
    hide Base, Unique, Backed, Advance, Tame, Follows;
    var g := Get(s);
    if Halted(s) {
      SameBesidesCarries(s, g.s);
    } else {
      AdvanceFollows(s, GetObject);
      var t := Advance(s, GetObject);
      SameBesidesCarries(t, g.s);
      FollowsChain(s, t, g.s);
      StoredIsAVersion(g.s);
    }
    BackedFollows(s, g.s, s.stored.status);
  }

  lemma StoredIsAVersion(s: State)
    requires Base(s)
    ensures 1 <= s.stored.generation <= |s.versions| && s.stored.spec == s.versions[s.stored.generation - 1]
  {
  }

  lemma CopyHasIdentity(s: State)
    requires Base(s) && Synced(s) && !s.crashed
    ensures SameIdentity(s.res.spec, s.stored.spec) && Recomposes(s.remote.domains, s.res.spec)
  {
    assert SameIdentity(s.versions[s.res.generation - 1], s.stored.spec);
  }

  lemma ListKeeps(s: State, name: string)
    requires Ready0(s)
    ensures var l := ApiList(s, name);
      && Kept(s, l.s, l.r) && l.s.remote == s.remote && l.s.stored.status == s.stored.status && l.s.res == s.res
      && (l.r.Ok? ==> !l.s.crashed && l.items == Listing(s.remote.resources.live, name, s.remote.resources.next))
  {
    hide Base, Unique, Backed, Advance, Tame, Follows, Listing;
    var l := ApiList(s, name);
    if Halted(s) {
      SameBesidesCarries(s, l.s);
    } else {
      AdvanceFollows(s, ListResources);
    }
    BackedFollows(s, l.s, s.stored.status);
    FreshFollows(s, l.s);
  }

  lemma DomainsKeeps(s: State)
    requires Ready0(s)
    ensures var d := ApiDomains(s);
      && Kept(s, d.s, d.r) && d.s.remote == s.remote && d.s.stored.status == s.stored.status && d.s.res == s.res
      && (d.r.Ok? ==> !d.s.crashed)
  {
    hide Base, Unique, Backed, Advance, Tame, Follows;
    var d := ApiDomains(s);
    if Halted(s) {
      SameBesidesCarries(s, d.s);
    } else {
      AdvanceFollows(s, ListDomains);
    }
    BackedFollows(s, d.s, s.stored.status);
    FreshFollows(s, d.s);
  }

  /** The request that is made with the chosen domain leads to a row that matches the spec. */
  lemma ChooseDomainKeeps(s: State)
    requires Ready0(s) && !s.crashed
    ensures var d := ChooseDomain(s);
      && Kept(s, d.s, d.r) && d.s.remote == s.remote && d.s.stored.status == s.stored.status && d.s.res == s.res
      && (d.r.Ok? ==> !d.s.crashed && Matching(d.s.remote.NewRow(NewRequest(s.res.spec, d.id, d.subdomain)), d.s.stored.spec))
  {
    hide Base, Unique, Backed, Resolve, Compose, ApiDomains, Tame;
    DomainsKeeps(s);
    CopyHasIdentity(s);
    var d := ChooseDomain(s);
    SameBesidesCarries(s, s);
    if d.r.Ok? && s.res.spec.protocol == HTTP && s.res.spec.fullDomain != "" {
      ResolvedHasID(s.remote.domains, s.res.spec.fullDomain);
    }
  }

  lemma ResolvedHasID(domains: seq<Domain>, fullDomain: string)
    ensures var r := Resolve(domains, fullDomain); r.Resolved? ==> r.id != ""
  {
  }

  // ---- Creating the resource ----

  /** A resource may be created when none matches and nothing is claimed about one. */
  ghost predicate Vacant(s: State) {
    && !Engaged(s.stored.status)
    && forall id :: id in s.remote.resources.live ==> !Matching(s.remote.resources.live[id], s.stored.spec)
  }

  lemma VacantFollows(s: State, t: State)
    requires Vacant(s) && Follows(s, t) && t.remote.resources == s.remote.resources
    requires !Engaged(t.stored.status)
    ensures Vacant(t)
  {
  }

  /** A status that claims nothing is backed, provided its resource, if live, is the right one. */
  lemma UnengagedBacked(s: State, st: Status)
    requires !Engaged(st) && Vouched(st)
    requires st.resourceID in s.remote.resources.live ==> Matching(s.remote.resources.live[st.resourceID], s.stored.spec)
    ensures Backed(s, st)
  {
    forall kind ensures Honest(s, st, kind) {
      if kind == Targets {}
    }
  }

  lemma RowAdded(s: State, t: State, skip: nat, row: ResourceRow)
    requires Base(s) && Unique(s) && Vacant(s) && Linked(s, s.stored.status)
    requires s.stored.finalizer && Matching(row, s.stored.spec)
    requires t == s.(remote := s.remote.(resources := s.remote.resources.Add(skip, row)))
    ensures Base(t) && Unique(t) && Backed(t, t.stored.status) && Follows(s, t)
    ensures Matching(t.remote.resources.live[s.remote.resources.next + skip], t.stored.spec)
  {
    UnengagedBacked(t, t.stored.status);
  }

  lemma ApiCreateKeeps(s: State, q: CreateRequest)
    requires Ready0(s) && Vacant(s) && Matching(s.remote.NewRow(q), s.stored.spec)
    ensures var c := ApiCreate(s, q);
      && Kept(s, c.s, c.r) && c.s.stored.status == s.stored.status && c.s.res == s.res
      && (c.r.Ok? ==> !c.s.crashed && c.id in c.s.remote.resources.live && Matching(c.s.remote.resources.live[c.id], c.s.stored.spec))
  {
    hide Base, Unique, Honest, Advance, Tame, Vacant;
    var c := ApiCreate(s, q);
    if Halted(s) {
      SameBesidesCarries(s, c.s);
      BackedFollows(s, c.s, s.stored.status);
    } else {
      AdvanceFollows(s, CreateResource);
      var t := Advance(s, CreateResource);
      BackedFollows(s, t, s.stored.status);
      VacantFollows(s, t) by { assert !Engaged(s.stored.status) by { VacantUnengaged(s); } }
      match s.script[0].reply
      case Refused(_) =>
      case Served(skip) =>
        RowAdded(t, c.s, skip, t.remote.NewRow(q));
        FollowsChain(s, t, c.s);
        FreshFollows(s, c.s);
      case Lost(skip, _) =>
        RowAdded(t, c.s, skip, t.remote.NewRow(q));
        FollowsChain(s, t, c.s);
    }
  }

  lemma VacantUnengaged(s: State)
    requires Vacant(s)
    ensures !Engaged(s.stored.status)
  {
  }

  lemma RowRemoved(s: State, t: State, id: nat)
    requires Base(s) && Unique(s)
    requires t == s.(remote := s.remote.(resources := s.remote.resources.Remove(id)))
    ensures Base(t) && Unique(t) && Follows(s, t)
    ensures Linked(s, s.stored.status) && !Engaged(s.stored.status) ==> Backed(t, t.stored.status)
  {
    if Linked(s, s.stored.status) && !Engaged(s.stored.status) {
      UnengagedBacked(t, t.stored.status);
    }
  }

  /** Deleting a resource is safe while the stored status claims nothing. */
  lemma RollBackKeeps(s: State, id: nat)
    requires Live(s) && Tame(s.script, s.stored.spec) && !Engaged(s.stored.status)
    ensures var d := ApiDelete(s, id);
      && Follows(s, d.s) && Live(d.s)
  {
    hide Base, Unique, Advance, Tame;
    var d := ApiDelete(s, id);
    if Halted(s) {
      SameBesidesCarries(s, d.s);
      BackedFollows(s, d.s, s.stored.status);
    } else {
      AdvanceFollows(s, DeleteResource(id));
      var t := Advance(s, DeleteResource(id));
      BackedFollows(s, t, s.stored.status);
      if t.remote != d.s.remote {
        RowRemoved(t, d.s, id);
      }
    }
  }
}
