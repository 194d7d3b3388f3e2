/** Runs of the PrivateResource reconciler: at most one resource while what identifies it is not edited,
    and what is gone when the finalizer is gone. */
module PrivateRuns {
  import opened Shared
  import opened Domains
  import opened Server
  import opened PrivateResource

  // ---- At most one ----

  /** The backend of an HTTP resource may change, since its domain identifies it. */
  predicate SameIdentity(a: Spec, b: Spec) {
    a.name == b.name && a.mode == b.mode && if a.mode == HTTP_MODE then a.fullDomain == b.fullDomain else a.destination == b.destination
  }

  predicate KeepsIdentity(env: Env, spec: Spec) {
    env.EditSpec? ==> SameIdentity(env.spec, spec)
  }

  ghost predicate AllKeep(script: seq<Event>, spec: Spec) {
    forall i :: 0 <= i < |script| ==> KeepsIdentity(script[i].env, spec)
  }

  /** The server composes the domain that the spec asked for (see Domains.ResolutionRoundTrip). */
  ghost predicate Recomposes(domains: seq<Domain>, spec: Spec) {
    spec.mode == HTTP_MODE && spec.fullDomain != "" ==>
      match Resolve(domains, spec.fullDomain)
      case Unresolved => true
      case Resolved(id, subdomain) => Compose(domains, id, subdomain) == spec.fullDomain
  }

  predicate Matching(row: Row, spec: Spec, siteID: nat) {
    IsMatch(ItemOf(0, row), spec, siteID)
  }

  /** What is ours can be found again, and there is at most one of it. */
  ghost predicate One(s: State) {
    var live := s.rows.live;
    && s.rows.Valid() && Recomposes(s.domains, s.stored.spec)
    && (forall id :: id in live && live[id].ours ==> Matching(live[id], s.stored.spec, s.siteID) && (s.stored.finalizer || s.stored.deleting))
    && (forall a, b :: a in live && b in live && live[a].ours && live[b].ours ==> a == b)
  }

  ghost predicate NoOurs(s: State) {
    forall id :: id in s.rows.live ==> !s.rows.live[id].ours
  }

  /** Holds throughout an activation. */
  ghost predicate Sole(s: State) {
    && One(s) && AllKeep(s.script, s.stored.spec)
    && SameIdentity(s.res.spec, s.stored.spec) && (s.stored.finalizer || s.stored.deleting)
  }

  ghost predicate StaysSole(s: State, t: State) {
    && Sole(t) && SameIdentity(t.stored.spec, s.stored.spec) && t.siteID == s.siteID
    && (s.stored.deleting ==> t.stored.deleting) && (NoOurs(s) ==> NoOurs(t))
  }

  lemma EnvOne(s: State, env: Env)
    requires One(s) && KeepsIdentity(env, s.stored.spec)
    ensures var t := ApplyEnv(s, env);
      && One(t) && SameIdentity(t.stored.spec, s.stored.spec) && t.res == s.res && t.stored.finalizer == s.stored.finalizer
      && t.script == s.script && t.siteID == s.siteID && t.domains == s.domains
      && (s.stored.deleting ==> t.stored.deleting) && (NoOurs(s) ==> NoOurs(t))
  {
    hide Resolve, Compose;
  }

  lemma KeepSame(script: seq<Event>, a: Spec, b: Spec)
    requires AllKeep(script, a) && SameIdentity(a, b)
    ensures AllKeep(script, b)
  {
    forall i | 0 <= i < |script| ensures KeepsIdentity(script[i].env, b) {
      assert KeepsIdentity(script[i].env, a);
    }
  }

  lemma AdvanceSole(s: State)
    requires Sole(s) && !Halted(s)
    ensures StaysSole(s, Advance(s)) && Advance(s).res == s.res && Advance(s).domains == s.domains
  {
    hide ApplyEnv, Recomposes, Matching;
    var m := s.(script := s.script[1..]);
    assert KeepsIdentity(s.script[0].env, s.stored.spec);
    EnvOne(m, s.script[0].env);
    assert forall i :: 0 <= i < |m.script| ==> m.script[i] == s.script[i + 1];
    KeepSame(m.script, s.stored.spec, Advance(s).stored.spec);
  }

  /** What happens to the status does not matter here. */
  lemma SameRowsSole(s: State, t: State)
    requires Sole(s) && t.rows == s.rows && t.script == s.script && t.siteID == s.siteID && t.domains == s.domains
    requires t.res.spec == s.res.spec || t.res.spec == s.stored.spec
    requires t.stored == s.stored.(status := t.stored.status)
    ensures StaysSole(s, t)
  {
    hide Recomposes, Matching;
  }

  lemma AskSole(s: State)
    requires Sole(s)
    ensures StaysSole(s, Ask(s).s) && Ask(s).s.res == s.res && Ask(s).s.domains == s.domains
  {
    hide Sole, StaysSole, Advance;
    if Halted(s) { SameRowsSole(s, Halt(s)); } else { AdvanceSole(s); }
  }

  lemma Unpack(s: State, t: State)
    requires StaysSole(s, t)
    ensures Sole(t) && SameIdentity(t.stored.spec, s.stored.spec) && t.siteID == s.siteID && (NoOurs(s) ==> NoOurs(t))
    ensures s.stored.deleting ==> t.stored.deleting
  {
  }

  lemma PatchSole(s: State, after: Status)
    requires Sole(s)
    ensures StaysSole(s, Patch(s, after).s)
  {
    hide One, NoOurs, AllKeep, Advance, MergeStatus;
    if Halted(s) {
      SameRowsSole(s, Halt(s));
    } else {
      AdvanceSole(s);
      SameRowsSole(Advance(s), Patch(s, after).s);
    }
  }

  lemma GetSole(s: State)
    requires Sole(s)
    ensures StaysSole(s, Get(s).s)
  {
    hide One, NoOurs, AllKeep, Advance;
    if Halted(s) {
      SameRowsSole(s, Halt(s));
    } else {
      AdvanceSole(s);
      SameRowsSole(Advance(s), Get(s).s);
    }
  }

  /** The address that was found leads to the domain in the spec. */
  ghost predicate Addresses(s: State, address: Address) {
    if s.res.spec.mode == HTTP_MODE
    then s.res.spec.fullDomain != "" && address.Address? && Compose(s.domains, address.domainID, address.subdomain) == s.res.spec.fullDomain
    else address.NoAddress?
  }

  lemma FindAddressSole(s: State)
    requires Sole(s)
    ensures var a := FindAddress(s); StaysSole(s, a.s) && a.s.res == s.res && (a.r.Ok? ==> Addresses(a.s, a.address))
  {
    hide One, NoOurs, AllKeep, Ask, Resolve, Compose;
    AskSole(s);
    SameRowsSole(s, s);
    assert Recomposes(s.domains, s.stored.spec) by { SoleRecomposes(s); }
  }

  lemma SoleRecomposes(s: State)
    requires Sole(s)
    ensures Recomposes(s.domains, s.stored.spec)
  {
  }

  lemma RowAdded(s: State, skip: nat, row: Row)
    requires Sole(s) && NoOurs(s) && Matching(row, s.stored.spec, s.siteID)
    ensures Sole(s.(rows := s.rows.Add(skip, row)))
  {
    hide AllKeep, Recomposes, Matching;
  }

  /** What is created can be found again. */
  lemma NewRowMatches(s: State, address: Address, spec: Spec)
    requires Addresses(s, address) && SameIdentity(s.res.spec, spec)
    ensures Matching(NewRow(s, s.res.spec, address), spec, s.siteID)
  {
    hide Compose;
  }

  /** A resource may be created only when none of ours lives. */
  lemma ApiCreateSole(s: State, address: Address)
    requires Sole(s) && NoOurs(s) && Addresses(s, address)
    ensures var c := ApiCreate(s, s.res.spec, address);
      Sole(c.s) && SameIdentity(c.s.stored.spec, s.stored.spec) && c.s.siteID == s.siteID
  {
    hide Advance, Sole, StaysSole, NoOurs, Matching, NewRow, SameIdentity, Addresses;
    if Halted(s) {
      SameRowsSole(s, Halt(s));
      Unpack(s, Halt(s));
    } else {
      AdvanceSole(s);
      var t := Advance(s);
      Unpack(s, t);
      OursMatch(t);
      SameAddresses(s, t, address);
      NewRowMatches(t, address, t.stored.spec);
      if !s.script[0].reply.Refused? { RowAdded(t, s.script[0].reply.skip, NewRow(t, s.res.spec, address)); }
    }
  }

  lemma ApiDeleteSole(s: State, id: nat)
    requires Sole(s)
    ensures StaysSole(s, ApiDelete(s, id).s)
  {
    hide Advance, AllKeep, Recomposes, Matching;
    if !Halted(s) { AdvanceSole(s); }
  }

  /** An update does not make a resource of ours unfindable. */
  lemma UpdatedMatches(s: State, row: Row, address: Address, spec: Spec)
    requires Addresses(s, address) && SameIdentity(s.res.spec, spec) && Matching(row, spec, s.siteID)
    ensures Matching(Updated(s, row, s.res.spec, address), spec, s.siteID)
  {
    hide Compose;
  }

  lemma RowReplaced(s: State, id: nat, row: Row)
    requires Sole(s) && id in s.rows.live && row.ours == s.rows.live[id].ours
    requires row.ours ==> Matching(row, s.stored.spec, s.siteID)
    ensures StaysSole(s, s.(rows := s.rows.Put(id, row)))
  {
    hide AllKeep, Recomposes, Matching;
  }

  lemma StaysChain(s: State, t: State, u: State)
    requires StaysSole(s, t) && StaysSole(t, u)
    ensures StaysSole(s, u)
  {
    hide Sole;
  }

  lemma OursMatch(s: State)
    requires Sole(s)
    ensures forall id :: id in s.rows.live && s.rows.live[id].ours ==> Matching(s.rows.live[id], s.stored.spec, s.siteID)
    ensures SameIdentity(s.res.spec, s.stored.spec)
  {
  }

  lemma ApiUpdateSole(s: State, id: nat, address: Address)
    requires Sole(s) && Addresses(s, address)
    ensures StaysSole(s, ApiUpdate(s, id, s.res.spec, address).s)
  {
    hide Advance, Sole, StaysSole, Matching, Updated, SameIdentity, Addresses;
    if Halted(s) {
      SameRowsSole(s, Halt(s)) by { hide *; }
    } else {
      AdvanceSole(s);
      var t := Advance(s);
      Unpack(s, t);
      OursMatch(t);
      assert Addresses(t, address) by { SameAddresses(s, t, address); }
      if id in t.rows.live {
        var row := t.rows.live[id];
        if row.ours { UpdatedMatches(t, row, address, t.stored.spec); }
        UpdatedKeepsOwner(t, s.res.spec, address);
        RowReplaced(t, id, Updated(t, row, s.res.spec, address));
        StaysChain(s, t, t.(rows := t.rows.Put(id, Updated(t, row, s.res.spec, address))));
      }
    }
  }

  lemma SameAddresses(s: State, t: State, address: Address)
    requires Addresses(s, address) && t.res == s.res && t.domains == s.domains
    ensures Addresses(t, address)
  {
  }

  lemma UpdatedKeepsOwner(s: State, spec: Spec, address: Address)
    ensures forall row :: Updated(s, row, spec, address).ours == row.ours
  {
    hide Compose;
  }

  /** If nothing that is listed matches, then nothing of ours lives. */
  lemma ListingShowsOurs(s: State)
    requires Sole(s) && FindSiteResource(Named(s.rows.live, s.res.spec.name, s.rows.next), s.res.spec, s.siteID).None?
    ensures NoOurs(s)
  {
    var items := Named(s.rows.live, s.res.spec.name, s.rows.next);
    assert forall id :: id in s.rows.live && s.rows.live[id].name == s.res.spec.name ==> ItemOf(id, s.rows.live[id]) in items;
    assert forall id :: id in s.rows.live && s.rows.live[id].ours ==> IsMatch(ItemOf(id, s.rows.live[id]), s.res.spec, s.siteID);
    hide Named, FindSiteResource;
  }

  lemma RecordSole(s: State, id: nat)
    requires Sole(s)
    ensures Sole(Record(s, id).s) && SameIdentity(Record(s, id).s.stored.spec, s.stored.spec)
  {
    hide Sole, StaysSole, Patch, ApiDelete;
    var after := s.res.status.(id := id, phase := Creating);
    PatchSole(s, after);
    var p := Patch(s, after);
    Unpack(s, p.s);
    ApiDeleteSole(p.s, id);
    Unpack(p.s, ApiDelete(p.s, id).s);
  }

  lemma CreateSole(s: State)
    requires Sole(s) && NoOurs(s)
    ensures Sole(Create(s).s) && SameIdentity(Create(s).s.stored.spec, s.stored.spec)
  {
    hide Sole, StaysSole, NoOurs, Patch, FindAddress, ApiCreate, Record, Addresses;
    var after := s.res.status.(phase := Creating);
    PatchSole(s, after);
    var p := Patch(s, after);
    Unpack(s, p.s);
    FindAddressSole(p.s);
    var a := FindAddress(p.s);
    Unpack(p.s, a.s);
    if p.r.Ok? && a.r.Ok? {
      ApiCreateSole(a.s, a.address);
      var c := ApiCreate(a.s, a.s.res.spec, a.address);
      RecordSole(c.s, c.id);
    }
  }

  lemma EnsureExistsSole(s: State)
    requires Sole(s)
    ensures Sole(EnsureExists(s).s) && SameIdentity(EnsureExists(s).s.stored.spec, s.stored.spec)
  {
    hide Sole, StaysSole, NoOurs, Patch, Create, FindSiteResource, Named, Ask, Lists;
    AskSole(s);
    var l := ApiList(s, s.res.spec.name);
    Unpack(s, l.s);
    if l.r.Ok? && !(l.s.res.status.id != 0 && Lists(l.items, l.s.res.status.id)) {
      var m := FindSiteResource(l.items, l.s.res.spec, l.s.siteID);
      if m.Some? {
        var after := l.s.res.status.(id := m.value.id, phase := Creating);
        PatchSole(l.s, after);
        Unpack(l.s, Patch(l.s, after).s);
      } else {
        ListingShowsOurs(l.s);
        CreateSole(l.s);
      }
    }
  }

  lemma UpdateSole(s: State)
    requires Sole(s)
    ensures Sole(Update(s).s) && SameIdentity(Update(s).s.stored.spec, s.stored.spec)
  {
    hide Sole, StaysSole, FindAddress, ApiUpdate, Addresses;
    FindAddressSole(s);
    var a := FindAddress(s);
    Unpack(s, a.s);
    if a.r.Ok? {
      ApiUpdateSole(a.s, a.s.res.status.id, a.address);
      Unpack(a.s, ApiUpdate(a.s, a.s.res.status.id, a.s.res.spec, a.address).s);
    }
  }

  lemma PatchesSole(s: State)
    requires Sole(s)
    ensures forall after :: Sole(Patch(s, after).s) && SameIdentity(Patch(s, after).s.stored.spec, s.stored.spec)
  {
    forall after ensures Sole(Patch(s, after).s) && SameIdentity(Patch(s, after).s.stored.spec, s.stored.spec) {
      PatchSole(s, after);
      Unpack(s, Patch(s, after).s);
    }
    hide Patch, Sole, StaysSole;
  }

  lemma UpdateAndFinishSole(s: State, hadID: bool, adopted: bool)
    requires Sole(s)
    ensures Sole(UpdateAndFinish(s, hadID, adopted)) && SameIdentity(UpdateAndFinish(s, hadID, adopted).stored.spec, s.stored.spec)
  {
    hide Sole, Patch, Update;
    PatchesSole(s);
    UpdateSole(s);
    PatchesSole(Update(s).s);
  }

  lemma ReconcileLiveSole(s: State)
    requires Sole(s)
    ensures Sole(ReconcileLive(s)) && SameIdentity(ReconcileLive(s).stored.spec, s.stored.spec)
  {
    hide Sole, StaysSole, Patch, Get, EnsureExists, UpdateAndFinish;
    PatchesSole(s);
    EnsureExistsSole(s);
    var e := EnsureExists(s);
    PatchesSole(e.s);
    GetSole(e.s);
    var g := Get(e.s);
    Unpack(e.s, g.s);
    var hadID := s.res.status.id != 0;
    UpdateAndFinishSole(g.s, hadID, e.adopted);
    UpdateAndFinishSole(e.s, hadID, e.adopted);
  }

  /** The environment's part of a call, also before there is a finalizer. */
  lemma AdvanceOne(s: State)
    requires One(s) && AllKeep(s.script, s.stored.spec) && SameIdentity(s.res.spec, s.stored.spec) && !Halted(s)
    ensures var t := Advance(s);
      && One(t) && AllKeep(t.script, t.stored.spec) && SameIdentity(t.res.spec, t.stored.spec) && t.res == s.res
      && SameIdentity(t.stored.spec, s.stored.spec) && (s.stored.deleting ==> t.stored.deleting)
  {
    hide ApplyEnv, Recomposes, Matching;
    var m := s.(script := s.script[1..]);
    assert KeepsIdentity(s.script[0].env, s.stored.spec);
    EnvOne(m, s.script[0].env);
    assert forall i :: 0 <= i < |m.script| ==> m.script[i] == s.script[i + 1];
    KeepSame(m.script, s.stored.spec, Advance(s).stored.spec);
  }

  lemma SetFinalizerSole(s: State, present: bool)
    requires One(s) && AllKeep(s.script, s.stored.spec) && SameIdentity(s.res.spec, s.stored.spec)
    requires present || s.stored.deleting
    ensures var f := SetFinalizer(s, present);
      && One(f.s) && SameIdentity(f.s.stored.spec, s.stored.spec)
      && (present && f.r.Ok? ==> Sole(f.s))
  {
    hide Recomposes, Matching, Advance, AllKeep;
    if !Halted(s) { AdvanceOne(s); }
  }

  lemma CleanupOne(s: State)
    requires Sole(s) && s.stored.deleting
    ensures One(Cleanup(s)) && SameIdentity(Cleanup(s).stored.spec, s.stored.spec)
  {
    hide One, AllKeep, NoOurs, ApiDelete, SetFinalizer;
    SetFinalizerSole(s, false);
    var id := s.res.status.id;
    ApiDeleteSole(s, id);
    Unpack(s, ApiDelete(s, id).s);
    SetFinalizerSole(ApiDelete(s, id).s, false);
  }

  ghost predicate KeepsIdentityStep(step: Step, spec: Spec) {
    match step
    case Act(env) => KeepsIdentity(env, spec)
    case SetSite(_) => true
    case Activate(script) => AllKeep(script, spec)
  }

  ghost predicate KeepsIdentitySteps(steps: seq<Step>, spec: Spec) {
    forall i :: 0 <= i < |steps| ==> KeepsIdentityStep(steps[i], spec)
  }

  lemma StartOne(s: State, script: seq<Event>, ready: bool)
    requires One(s)
    ensures One(s.(res := s.stored, script := script, crashed := false)) && One(s.(siteReady := ready))
  {
  }

  lemma StepOne(s: State, step: Step)
    requires One(s) && KeepsIdentityStep(step, s.stored.spec)
    ensures One(Do(s, step)) && SameIdentity(Do(s, step).stored.spec, s.stored.spec)
  {
    hide One, AllKeep, ReconcileLive, Cleanup, SetFinalizer, ApplyEnv, KeepsIdentity;
    match step
    case Act(env) => EnvOne(s, env);
    case SetSite(ready) => StartOne(s, [], ready);
    case Activate(script) =>
      var t := s.(res := s.stored, script := script, crashed := false);
      StartOne(s, script, s.siteReady);
      if s.stored.Gone() {
      } else if s.stored.deleting {
        CleanupOne(t);
      } else if s.stored.finalizer {
        ReconcileLiveSole(t);
      } else {
        SetFinalizerSole(t, true);
        var f := SetFinalizer(t, true);
        if f.r.Ok? { ReconcileLiveSole(f.s); }
      }
  }

  lemma StepSame(step: Step, a: Spec, b: Spec)
    requires KeepsIdentityStep(step, a) && SameIdentity(a, b)
    ensures KeepsIdentityStep(step, b)
  {
    if step.Activate? { KeepSame(step.script, a, b); }
  }

  lemma {:induction false} RunOne(trace: seq<State>, steps: seq<Step>, k: nat)
    requires IsRun(trace, steps) && k < |trace| && One(trace[0]) && KeepsIdentitySteps(steps, trace[0].stored.spec)
    ensures One(trace[k]) && SameIdentity(trace[k].stored.spec, trace[0].stored.spec)
  {
    hide One, Do, KeepsIdentityStep;
    if k > 0 {
      RunOne(trace, steps, k - 1);
      StepSame(steps[k - 1], trace[0].stored.spec, trace[k - 1].stored.spec);
      StepOne(trace[k - 1], steps[k - 1]);
    }
  }

  ghost predicate Init(s: State) {
    s.rows.Valid() && Recomposes(s.domains, s.stored.spec) && s.stored.status == NEW_STATUS && NoOurs(s)
  }

  /** However often it is stopped, and whatever others add or delete, the reconciler never has two
      live site resources of its own making, and has none before its finalizer is stored. */
  lemma AtMostOneSiteResource(trace: seq<State>, steps: seq<Step>, t: State)
    requires IsRun(trace, steps) && t in trace && Init(trace[0]) && KeepsIdentitySteps(steps, trace[0].stored.spec)
    ensures forall a, b :: a in t.rows.live && b in t.rows.live && t.rows.live[a].ours && t.rows.live[b].ours ==> a == b
    ensures !t.stored.finalizer && !t.stored.deleting ==> NoOurs(t)
  {
    hide IsRun, KeepsIdentitySteps, Recomposes, Matching;
    var k :| 0 <= k < |trace| && trace[k] == t;
    RunOne(trace, steps, k);
  }

  // ---- Cleanup ----

  /** What others can do to the rows: delete some, add fresh ones that are not ours. */
  ghost predicate Thinned(s: State, t: State) {
    && s.rows.next <= t.rows.next
    && (forall id :: id in t.rows.live && id < s.rows.next ==> id in s.rows.live)
    && (forall id :: id in t.rows.live && t.rows.live[id].ours ==> id in s.rows.live && s.rows.live[id].ours && id < s.rows.next)
  }

  lemma EnvThins(s: State, env: Env)
    requires s.rows.Valid()
    ensures var t := ApplyEnv(s, env); t.rows.Valid() && Thinned(s, t) && t.stored.finalizer == s.stored.finalizer
  {
  }

  lemma FinalizerOffKeepsRows(s: State)
    requires s.rows.Valid()
    ensures Thinned(s, SetFinalizer(s, false).s)
  {
    if !Halted(s) { EnvThins(s.(script := s.script[1..]), s.script[0].env); }
    hide ApplyEnv;
  }

  lemma DeleteRemoves(s: State, id: nat)
    requires s.rows.Valid() && id < s.rows.next
    ensures var d := ApiDelete(s, id);
      && d.s.rows.Valid() && Thinned(s, d.s) && d.s.stored.finalizer == s.stored.finalizer
      && (d.r.Ok? || NotFound in d.r.kinds ==> id !in d.s.rows.live)
  {
    if !Halted(s) { EnvThins(s.(script := s.script[1..]), s.script[0].env); }
    hide ApplyEnv;
  }

  /** If an activation takes the finalizer off, the recorded resource is gone, and of the
      reconciler's own only those that were never recorded are left. */
  lemma FinalizerOffMeansGone(s: State, script: seq<Event>)
    requires s.rows.Valid() && s.stored.status.id < s.rows.next
    requires s.stored.deleting && s.stored.finalizer && !Reconcile(s, script).stored.finalizer
    ensures var t := Reconcile(s, script);
      && s.stored.status.id !in t.rows.live
      && forall id :: id in t.rows.live && t.rows.live[id].ours ==> id in s.rows.live && id != s.stored.status.id
  {
    hide ApiDelete, SetFinalizer, ReconcileLive;
    var t := s.(res := s.stored, script := script, crashed := false);
    var id := s.stored.status.id;
    if id == 0 {
      FinalizerOffKeepsRows(t);
    } else {
      DeleteRemoves(t, id);
      FinalizerOffKeepsRows(ApiDelete(t, id).s);
    }
  }

  /** The request to delete the recorded row was acknowledged, or found nothing to delete. */
  predicate DeletionDone(s: State, e: Event) {
    e.reply.Served? || (e.reply.Lost? && s.stored.status.id !in ApplyEnv(s, e.env).rows.live)
  }

  lemma DeletionAnswer(s: State, id: nat)
    requires !Halted(s) && id == s.stored.status.id
    ensures var d := ApiDelete(s, id); var e := s.script[0];
      && (DeletionDone(s, e) <==> d.r.Ok? || NotFound in d.r.kinds)
      && d.s.stored == ApplyEnv(s, e.env).stored && d.s.res == s.res && d.s.script == s.script[1..] && d.s.crashed == s.crashed
  {
    OthersAct(s, s.(script := s.script[1..]), s.script[0].env);
    hide ApplyEnv;
  }

  /** What others do does not depend on the process. */
  lemma OthersAct(s: State, t: State, env: Env)
    requires t.stored == s.stored
    ensures ApplyEnv(t, env).stored == ApplyEnv(s, env).stored
    ensures ApplyEnv(t, env).res == t.res && ApplyEnv(t, env).script == t.script && ApplyEnv(t, env).crashed == t.crashed
    ensures t.rows == s.rows ==> ApplyEnv(t, env).rows.live == ApplyEnv(s, env).rows.live
    ensures s.stored.finalizer == ApplyEnv(s, env).stored.finalizer
  {
  }

  lemma FinalizerAnswer(s: State)
    requires s.stored.finalizer
    ensures var f := SetFinalizer(s, false);
      !f.s.stored.finalizer <==> !Halted(s) && !s.script[0].reply.Refused? && ApplyEnv(s, s.script[0].env).stored == s.res
  {
    if !Halted(s) {
      OthersAct(s, s.(script := s.script[1..]), s.script[0].env);
    }
    hide ApplyEnv;
  }

  /** With a row recorded the finalizer comes off exactly if the deletion is acknowledged or finds the
      row gone, nobody touches the object meanwhile, and the update that takes it off is done. */
  lemma FinalizerComesOff(s: State, script: seq<Event>)
    requires s.stored.deleting && s.stored.finalizer && s.stored.status.id != 0
    ensures !Reconcile(s, script).stored.finalizer <==>
      && 2 <= |script| && DeletionDone(s, script[0]) && !script[1].reply.Refused?
      && ApplyEnv(ApplyEnv(s, script[0].env), script[1].env).stored == s.stored
  {
    hide ReconcileLive, ApplyEnv, ApiDelete, SetFinalizer, DeletionDone;
    var m := s.(res := s.stored, script := script, crashed := false);
    if script == [] {
      HaltedDelete(m, s.stored.status.id);
    } else {
      OthersAct(s, m, script[0].env);
      DeletionAnswer(m, s.stored.status.id);
      SameAnswer(s, m, script[0]);
      var d := ApiDelete(m, s.stored.status.id).s;
      if 2 <= |script| { OthersAct(ApplyEnv(s, script[0].env), d, script[1].env); }
      FinalizerAnswer(d);
    }
  }

  lemma HaltedDelete(s: State, id: nat)
    requires Halted(s)
    ensures ApiDelete(s, id) == Outcome(Halt(s), Err({}))
  {
  }

  lemma SameAnswer(s: State, t: State, e: Event)
    requires t.stored == s.stored && t.rows == s.rows
    ensures DeletionDone(t, e) == DeletionDone(s, e)
  {
    OthersAct(s, t, e.env);
    hide ApplyEnv;
  }

  /** A deletion that fails with anything but a 404 keeps the finalizer, also if it was done and only
      the answer got lost. */
  lemma FailedDeleteKeepsFinalizer(s: State, script: seq<Event>)
    requires s.stored.deleting && s.stored.finalizer && s.stored.status.id != 0
    requires script != [] && !DeletionDone(s, script[0])
    ensures Reconcile(s, script).stored.finalizer
  {
    FinalizerComesOff(s, script);
    hide Reconcile, DeletionDone;
  }

  // ---- Recorded IDs, and the finalizer in runs ----

  /** The recorded ID was handed out by the server. */
  ghost predicate Recorded(s: State) {
    s.rows.Valid() && s.stored.status.id < s.rows.next
  }

  /** And so was the one in the process's copy. */
  ghost predicate Numbered(s: State) {
    Recorded(s) && s.res.status.id < s.rows.next
  }

  /** What every piece of an activation keeps. */
  ghost predicate StaysNumbered(s: State, t: State) {
    Numbered(t) && s.rows.next <= t.rows.next && t.stored.finalizer == s.stored.finalizer
  }

  lemma EnvNumbered(s: State, env: Env)
    requires Numbered(s)
    ensures var t := ApplyEnv(s, env); StaysNumbered(s, t) && t.res == s.res && t.stored.status == s.stored.status
  {
  }

  lemma AdvanceNumbered(s: State)
    requires Numbered(s) && !Halted(s)
    ensures var t := Advance(s); StaysNumbered(s, t) && t.res == s.res && t.stored.status == s.stored.status
  {
    EnvNumbered(s.(script := s.script[1..]), s.script[0].env);
    hide ApplyEnv;
  }

  lemma StaysNumberedChain(s: State, t: State, u: State)
    requires StaysNumbered(s, t) && StaysNumbered(t, u)
    ensures StaysNumbered(s, u)
  {
    hide Numbered;
  }

  lemma PatchNumbered(s: State, after: Status)
    requires Numbered(s) && after.id < s.rows.next
    ensures StaysNumbered(s, Patch(s, after).s)
  {
    if !Halted(s) { AdvanceNumbered(s); }
    hide Advance;
  }

  lemma ReadNumbered(s: State)
    requires Numbered(s)
    ensures StaysNumbered(s, Ask(s).s) && StaysNumbered(s, Get(s).s) && Ask(s).s.res == s.res
    ensures StaysNumbered(s, FindAddress(s).s) && FindAddress(s).s.res == s.res
  {
    if !Halted(s) { AdvanceNumbered(s); }
    hide Advance, Resolve;
  }

  lemma CreateNumbered(s: State, spec: Spec, address: Address)
    requires Numbered(s)
    ensures var c := ApiCreate(s, spec, address); StaysNumbered(s, c.s) && c.id < c.s.rows.next
  {
    if !Halted(s) { AdvanceNumbered(s); }
    hide Advance, NewRow;
  }

  lemma WriteNumbered(s: State, id: nat, spec: Spec, address: Address)
    requires Numbered(s)
    ensures StaysNumbered(s, ApiUpdate(s, id, spec, address).s) && StaysNumbered(s, ApiDelete(s, id).s)
  {
    if !Halted(s) { AdvanceNumbered(s); }
    hide Advance, Updated;
  }

  lemma StaysNumberedIs(s: State, t: State)
    requires StaysNumbered(s, t)
    ensures Numbered(t) && t.res.status.id < t.rows.next && t.stored.finalizer == s.stored.finalizer
  {
  }

  lemma RecordNumbered(s: State, id: nat)
    requires Numbered(s) && id < s.rows.next
    ensures StaysNumbered(s, Record(s, id).s)
  {
    hide Numbered, StaysNumbered, Patch, ApiDelete;
    var after := s.res.status.(id := id, phase := Creating);
    PatchNumbered(s, after);
    var p := Patch(s, after).s;
    StaysNumberedIs(s, p);
    WriteNumbered(p, id, s.res.spec, NoAddress);
    StaysNumberedChain(s, p, ApiDelete(p, id).s);
  }

  lemma CreationNumbered(s: State)
    requires Numbered(s)
    ensures StaysNumbered(s, Create(s).s)
  {
    hide Numbered, StaysNumbered, Patch, FindAddress, ApiCreate, Record;
    NumberedIs(s);
    var creating := s.res.status.(phase := Creating);
    PatchNumbered(s, creating);
    var p := Patch(s, creating);
    StaysNumberedIs(s, p.s);
    ReadNumbered(p.s);
    var a := FindAddress(p.s);
    StaysNumberedIs(p.s, a.s);
    StaysNumberedChain(s, p.s, a.s);
    CreateNumbered(a.s, a.s.res.spec, a.address);
    var c := ApiCreate(a.s, a.s.res.spec, a.address);
    StaysNumberedIs(a.s, c.s);
    StaysNumberedChain(s, a.s, c.s);
    RecordNumbered(c.s, c.id);
    StaysNumberedChain(s, c.s, Record(c.s, c.id).s);
  }

  lemma NumberedIs(s: State)
    requires Numbered(s)
    ensures s.res.status.id < s.rows.next
  {
  }

  lemma ListedNumbered(s: State, name: string)
    requires Numbered(s)
    ensures forall item :: item in Named(s.rows.live, name, s.rows.next) ==> item.id < s.rows.next
  {
    hide Named;
  }

  lemma EnsureExistsNumbered(s: State)
    requires Numbered(s)
    ensures StaysNumbered(s, EnsureExists(s).s)
  {
    hide Numbered, StaysNumbered, Patch, Create, Ask, FindSiteResource, Named, Lists;
    ReadNumbered(s);
    var l := ApiList(s, s.res.spec.name);
    StaysNumberedIs(s, l.s);
    ListedNumbered(l.s, s.res.spec.name);
    if l.r.Ok? {
      var m := FindSiteResource(l.items, l.s.res.spec, l.s.siteID);
      if m.Some? {
        var after := l.s.res.status.(id := m.value.id, phase := Creating);
        PatchNumbered(l.s, after);
        StaysNumberedChain(s, l.s, Patch(l.s, after).s);
      }
      CreationNumbered(l.s);
      StaysNumberedChain(s, l.s, Create(l.s).s);
    }
  }

  /** All the patches that end an activation. */
  lemma PatchesNumbered(s: State)
    requires Numbered(s)
    ensures forall after: Status :: after.id == s.res.status.id || after.id == 0 ==> StaysNumbered(s, Patch(s, after).s)
  {
    NumberedIs(s);
    forall after: Status | after.id == s.res.status.id || after.id == 0 ensures StaysNumbered(s, Patch(s, after).s) {
      PatchNumbered(s, after) by { assert 0 < s.rows.next; }
    }
    hide Patch, StaysNumbered;
  }

  lemma UpdateAndFinishNumbered(s: State, hadID: bool, adopted: bool)
    requires Numbered(s)
    ensures StaysNumbered(s, UpdateAndFinish(s, hadID, adopted))
  {
    hide Numbered, StaysNumbered, Patch, FindAddress, ApiUpdate;
    PatchesNumbered(s);
    ReadNumbered(s);
    var a := FindAddress(s);
    StaysNumberedIs(s, a.s);
    WriteNumbered(a.s, a.s.res.status.id, a.s.res.spec, a.address);
    var u := Update(s).s;
    if a.r.Ok? { StaysNumberedChain(s, a.s, u); }
    StaysNumberedIs(s, u);
    PatchesNumbered(u);
    if adopted || (hadID && s.res.status.id != 0 && s.res.generation != s.res.status.observedGeneration) {
      StaysNumberedChain(s, u, UpdateAndFinish(s, hadID, adopted));
    }
  }

  lemma ReconcileLiveNumbered(s: State)
    requires Numbered(s)
    ensures StaysNumbered(s, ReconcileLive(s))
  {
    hide Numbered, StaysNumbered, Patch, Get, EnsureExists, UpdateAndFinish;
    PatchesNumbered(s);
    EnsureExistsNumbered(s);
    var e := EnsureExists(s);
    StaysNumberedIs(s, e.s);
    PatchesNumbered(e.s);
    ReadNumbered(e.s);
    var g := Get(e.s);
    StaysNumberedIs(e.s, g.s);
    var hadID := s.res.status.id != 0;
    UpdateAndFinishNumbered(g.s, hadID, e.adopted);
    UpdateAndFinishNumbered(e.s, hadID, e.adopted);
    StaysNumberedChain(s, e.s, g.s);
    StaysNumberedChain(s, g.s, UpdateAndFinish(g.s, hadID, e.adopted));
    StaysNumberedChain(s, e.s, UpdateAndFinish(e.s, hadID, e.adopted));
    forall after: Status | after.id == e.s.res.status.id || after.id == 0 ensures StaysNumbered(s, Patch(e.s, after).s) {
      StaysNumberedChain(s, e.s, Patch(e.s, after).s);
    }
  }

  lemma SetFinalizerNumbered(s: State, present: bool)
    requires Numbered(s)
    ensures var f := SetFinalizer(s, present).s;
      Numbered(f) && (present && s.stored.finalizer ==> f.stored.finalizer) && s.rows.next <= f.rows.next
    ensures SetFinalizer(s, true).r.Ok? ==> SetFinalizer(s, true).s.stored.finalizer
  {
    if !Halted(s) { AdvanceNumbered(s); }
    hide Advance;
  }

  lemma StepRecorded(s: State, step: Step)
    requires Recorded(s)
    ensures Recorded(Do(s, step))
    ensures step.Activate? && s.stored.finalizer && !s.stored.deleting ==> Do(s, step).stored.finalizer
  {
    hide ApplyEnv, ReconcileLive, SetFinalizer, ApiDelete, Recorded, StaysNumbered;
    match step
    case Act(env) => ActRecorded(s, env);
    case SetSite(ready) => StartNumbered(s, [], ready);
    case Activate(script) =>
      var t := s.(res := s.stored, script := script, crashed := false);
      StartNumbered(s, script, s.siteReady);
      ReconcileLiveNumbered(t);
      StaysNumberedIs(t, ReconcileLive(t));
      SetFinalizerNumbered(t, true);
      var f := SetFinalizer(t, true).s;
      ReconcileLiveNumbered(f);
      StaysNumberedIs(f, ReconcileLive(f));
      SetFinalizerNumbered(t, false);
      var d := ApiDelete(t, t.res.status.id).s;
      WriteNumbered(t, t.res.status.id, t.res.spec, NoAddress);
      StaysNumberedIs(t, d);
      SetFinalizerNumbered(d, false);
  }

  lemma ActRecorded(s: State, env: Env)
    requires Recorded(s)
    ensures Recorded(ApplyEnv(s, env))
  {
  }

  lemma StartNumbered(s: State, script: seq<Event>, ready: bool)
    requires Recorded(s)
    ensures Numbered(s.(res := s.stored, script := script, crashed := false)) && Recorded(s.(siteReady := ready))
  {
  }

  lemma {:induction false} RunRecorded(trace: seq<State>, steps: seq<Step>, k: nat)
    requires IsRun(trace, steps) && k < |trace| && Recorded(trace[0])
    ensures Recorded(trace[k])
  {
    hide Recorded, Do;
    if k > 0 {
      RunRecorded(trace, steps, k - 1);
      StepRecorded(trace[k - 1], steps[k - 1]);
    }
  }

  /** In every state of every run, whatever others do: an activation that takes the finalizer off finds
      the object being deleted and leaves its recorded resource gone, and of the reconciler's own only
      those that were never recorded. */
  lemma FinalizerOffInRuns(trace: seq<State>, steps: seq<Step>, s: State, script: seq<Event>)
    requires IsRun(trace, steps) && s in trace && Init(trace[0]) && s.stored.finalizer
    ensures var t := Reconcile(s, script);
      !t.stored.finalizer ==>
        && s.stored.deleting && s.stored.status.id !in t.rows.live
        && forall id :: id in t.rows.live && t.rows.live[id].ours ==> id in s.rows.live && id != s.stored.status.id
  {
    hide IsRun, Recomposes, NoOurs, Reconcile;
    var k :| 0 <= k < |trace| && trace[k] == s;
    RunRecorded(trace, steps, k);
    StepRecorded(s, Activate(script));
    if s.stored.deleting && !Reconcile(s, script).stored.finalizer { FinalizerOffMeansGone(s, script); }
  }

  // ---- Settings ----

  /** An update makes a row, whoever created it, what a creation from the same spec would have made it
      exactly if nothing that the spec leaves empty, false or absent is still set at the server: that is never cleared. */
  lemma UpdateFollowsTheSpec(s: State, row: Row, spec: Spec, address: Address)
    ensures Updated(s, row, spec, address) == NewRow(s, spec, address).(ours := row.ours) <==>
      && (spec.name == "" ==> row.name == "") && (spec.mode == "" ==> row.mode == "")
      && (spec.destination == "" ==> row.destination == "") && (s.siteID == 0 ==> row.siteID == 0)
      && (!spec.disableIcmp ==> !row.disableIcmp) && (spec.alias == "" ==> row.alias == "")
      && (address.NoAddress? ==> row.fullDomain == "" && row.scheme == "" && row.port == 0 && row.ssl.None?)
      && (address.Address? ==> row.tcpPorts == "" && row.udpPorts == "")
      && (address.NoAddress? ==> (spec.tcpPorts == "" ==> row.tcpPorts == "") && (spec.udpPorts == "" ==> row.udpPorts == ""))
      && (address.Address? ==> (spec.scheme == "" ==> row.scheme == "") && (spec.port == 0 ==> row.port == 0)
                               && (spec.ssl.None? ==> row.ssl.None?))
  {
    hide Compose;
  }
}
