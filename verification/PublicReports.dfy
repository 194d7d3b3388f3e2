/** What an activation does when it cannot do its work: while the site is not ready, and when a call is
    refused. */
module PublicReports {
  import opened Shared
  import opened Domains
  import opened Server
  import opened PublicResource
  import opened PublicSafety
  import opened PublicSteps
  import opened PublicProtocol
  import opened PublicRuns
  import opened PublicConvergence
  import opened PublicBoundaries
  import opened PublicTwins
  import opened PublicLoose
  import opened PublicConfined

  // ---- While the site is not ready ----

  /** Nothing at the server changed but that others deleted resources. */
  ghost predicate LeftAlone(s: State, t: State, script: seq<Event>) {
    var before, after := s.remote.resources.live, t.remote.resources.live;
    && t.remote == s.remote.(resources := t.remote.resources) && t.remote.resources.next == s.remote.resources.next
    && (forall id :: id in after ==> id in before && after[id] == before[id])
    && forall id :: id in before && id !in after ==> exists i :: 0 <= i < |script| && script[i].env == DropResource(id)
  }

  /** The only calls are the two that concern the object. */
  predicate OnlyTheObject(s: State, t: State) {
    s.log <= t.log && |t.log| <= |s.log| + 2 && forall k :: |s.log| <= k < |t.log| ==> t.log[k].call in {AddFinalizer, PatchStatus}
  }

  /** What a served report makes of the status. */
  function Waiting(s: State): Status {
    s.stored.status.(condition := Condition(false, Pending, s.stored.generation))
  }

  /** The finalizer is in place when the status is to be patched. */
  predicate FinalizerGoesOn(s: State, script: seq<Event>) {
    script != [] && script[0].reply.Served? && ApplyEnv(s, script[0].env).stored == s.stored
  }

  /** Without a ready site the reconciler waits: under any script, and whatever it has done before, it
      calls nobody but for its own object, leaves the server alone, and reports Pending and nothing else,
      exactly if that patch is done. */
  lemma UnreadySiteWaits(s: State, script: seq<Event>)
    requires s.site != SiteReady && !s.stored.deleting
    ensures var t := Reconcile(s, script);
      && OnlyTheObject(s, t) && LeftAlone(s, t, script)
      && t.stored.status == (
           if s.stored.finalizer then (if script != [] && !script[0].reply.Refused? then Waiting(s) else s.stored.status)
           else if FinalizerGoesOn(s, script) && |script| > 1 && !script[1].reply.Refused? then Waiting(s) else s.stored.status)
  {
    hide ApplyEnv, MergeStatus, ReconcileReady;
    var m := Start(s, script);
    if s.stored.finalizer {
      WaitsNow(m);
    } else if script != [] {
      FirstCall(m, AddFinalizer);
      var f := SetFinalizer(m, true);
      SameOthersAct(s, m, script);
      if f.r.Ok? {
        WaitsNow(f.s);
        LeftAloneChain(s, f.s, ReconcileLive(f.s), script);
      }
    }
  }

  /** The report, when the copy is what is stored. */
  lemma WaitsNow(s: State)
    requires s.site != SiteReady && s.res == s.stored && !s.crashed
    ensures var t := ReconcileLive(s);
      && s.log <= t.log && |t.log| <= |s.log| + 1 && (forall k :: |s.log| <= k < |t.log| ==> t.log[k].call == PatchStatus)
      && LeftAlone(s, t, s.script)
      && t.stored.status == if s.script != [] && !s.script[0].reply.Refused? then Waiting(s) else s.stored.status
  {
    hide MergeStatus, ReconcileReady, ApplyEnv;
    if s.script != [] {
      FirstCall(s, PatchStatus);
      MergeAll(s.stored.status, Waiting(s));
    }
  }

  lemma FirstCall(s: State, call: Call)
    requires !Halted(s)
    ensures var t := Advance(s, call);
      && LeftAlone(s, t, s.script) && t.stored.status == s.stored.status && t.res == s.res && t.site == s.site && t.crashed == s.crashed
      && t.script == s.script[1..] && t.log == s.log + [Entry(call, s.script[0].reply)]
  {
  }

  lemma SameOthersAct(s: State, m: State, script: seq<Event>)
    requires script != [] && m == Start(s, script)
    ensures Advance(m, AddFinalizer).stored == ApplyEnv(s, script[0].env).stored
  {
  }

  lemma LeftAloneChain(s: State, m: State, t: State, script: seq<Event>)
    requires script != [] && LeftAlone(s, m, script) && LeftAlone(m, t, script[1..])
    ensures LeftAlone(s, t, script)
  {
    forall id | id in s.remote.resources.live && id !in t.remote.resources.live
      ensures exists i :: 0 <= i < |script| && script[i].env == DropResource(id)
    {
      if id in m.remote.resources.live {
        var i :| 0 <= i < |script| - 1 && script[1..][i].env == DropResource(id);
        assert script[i + 1].env == DropResource(id);
      }
    }
  }

  // ---- When a call is refused ----

  /** A domain that is taken leaves the object pending, a bad request is final, anything else is an error. */
  function Verdict(s: State, f: Fault, phase: Phase): Status {
    s.stored.status.(
      phase := if f == BadRequest then Failed else phase,
      condition := Condition(false, match f case Conflict => Pending case BadRequest => PermanentError case _ => Erroneous, s.stored.generation))
  }

  function Refusing(f: Fault): seq<Event> {
    [Event(Calm, 0, Refused(f)), PLAIN]
  }

  lemma Reported(s: State, f: Fault)
    requires s.script == [PLAIN] && !s.crashed && s.res == s.stored
    ensures var t := ReportEnsure(s, {f}); t.remote == s.remote && t.stored == s.stored.(status := Verdict(s, f, s.stored.status.phase))
  {
    MergeAll(s.stored.status, Verdict(s, f, s.stored.status.phase));
    hide MergeStatus;
  }

  /** The listing is refused: nothing at the server changes, and the status says why. */
  lemma ListingRefused(s: State, f: Fault)
    requires Eligible(s)
    ensures var t := Reconcile(s, Refusing(f));
      t.remote == s.remote && t.stored == s.stored.(status := Verdict(s, f, s.stored.status.phase))
  {
    hide ReportEnsure, Listing, FindResource, Create, Resolvable, UpdateAndFinish, Lists;
    var script := Refusing(f);
    var m := Start(s, script);
    ReconcileIs(s, script);
    var l := ApiList(m, s.stored.spec.name);
    assert l.r == Err({f}) && l.s.script == [PLAIN];
    Reported(l.s, f);
  }

  /** The creation of the resource is refused: nothing at the server changes, and the status says why. */
  lemma CreationRefused(s: State, f: Fault)
    requires Eligible(s) && s.remote.Valid() && NothingToAdopt(s)
    ensures var t := Reconcile(s, Plain(CallsToCreate(s.stored.spec) - 1) + Refusing(f));
      t.remote == s.remote && t.stored == s.stored.(status := Verdict(s, f, Creating))
  {
    hide ReportEnsure, Listing, FindResource, ApiList, Patch, ChooseDomain, ApiCreate, Resolvable, Populate, Persist, Lead, CallsToCreate, Lists, Refusing;
    var spec, tail := s.stored.spec, Refusing(f);
    var dom := if NeedsDomain(spec) then 1 else 0;
    CountsCalls(spec);
    var script := Plain(CallsToCreate(spec) - 1) + tail;
    var m := Start(s, script);
    ReconcileIs(s, script);
    RefusingLeads(s, CallsToCreate(spec) - 1, f);
    LeadList(m, spec.name, dom + 1, tail);
    var l := ApiList(m, spec.name);
    NothingIsListed(s, m);
    var creating := s.stored.status.(phase := Creating);
    LeadPatch(l.s, creating, dom, tail);
    var p := Patch(l.s, creating).s;
    SameResolvable(s, p);
    LeadDomain(p, 0, tail);
    var d := ChooseDomain(p);
    var q := NewRequest(d.s.res.spec, d.id, d.subdomain);
    RefusedCreate(d.s, q, f);
    var c := ApiCreate(d.s, q);
    assert Create(l.s) == Outcome(c.s, c.r);
    Reported(c.s, f);
    assert EnsureExists(m) == Ensured(c.s, c.r, false);
    assert Reconcile(s, script) == ReportEnsure(c.s, c.r.kinds);
  }

  lemma CountsCalls(spec: Spec)
    ensures CallsToCreate(spec) == 3 + if NeedsDomain(spec) then 1 else 0
  {
  }

  lemma RefusingLeads(s: State, n: nat, f: Fault)
    ensures Lead(Start(s, Plain(n) + Refusing(f)), n, Refusing(f))
  {
    var script := Plain(n) + Refusing(f);
    assert forall i :: 0 <= i < n ==> script[i] == Plain(n)[i];
    assert script[n..] == Refusing(f);
  }

  lemma NothingIsListed(s: State, m: State)
    requires Eligible(s) && s.remote.Valid() && NothingToAdopt(s) && m.remote == s.remote && m.stored == s.stored && m.res == s.stored
    requires m.script != [] && !m.crashed && m.script[0].env.Calm?
    ensures var l := ApiList(m, s.stored.spec.name); l.r.Ok? ==>
      && FindResource(l.items, s.stored.spec).None?
      && (s.stored.status.resourceID != 0 ==> !Lists(l.items, s.stored.status.resourceID))
  {
    ListingEmptyHanded(s, []);
    hide FindResource, Listing, Lists, NothingToAdopt, Resolvable;
  }

  lemma RefusedCreate(s: State, q: CreateRequest, f: Fault)
    requires Lead(s, 0, Refusing(f))
    ensures var c := ApiCreate(s, q);
      c.r == Err({f}) && c.s.script == [PLAIN] && !c.s.crashed && c.s.remote == s.remote && c.s.stored == s.stored && c.s.res == s.res
  {
    assert s.script == Refusing(f) by { assert s.script[0..] == s.script; }
    hide Compose;
  }

  /** The update of a resource is refused: nothing at the server changes, the object is in error, and its
      generation does not count as observed. */
  lemma UpdateRefused(s: State, f: Fault)
    requires Live(s) && Eligible(s) && Behind(s) && s.stored.status.resourceID in s.remote.resources.live
    ensures var t := Reconcile(s, Plain(2) + Refusing(f));
      && t.remote == s.remote
      && t.stored == s.stored.(status := s.stored.status.(condition := Condition(false, Erroneous, s.stored.generation)))
  {
    hide Listing, FindResource, Create, ApiList, Resolvable, Lead, Lists, Live, Sync, Get, Refusing;
    var spec, tail, script := s.stored.spec, Refusing(f), Plain(2) + Refusing(f);
    var m := Start(s, script);
    ReconcileIs(s, script);
    RefusingLeads(s, 2, f);
    LeadList(m, spec.name, 1, tail);
    var l := ApiList(m, spec.name);
    LiveIsLoose(s);
    ListedByName(s);
    ServedListing(m, spec.name);
    LeadGet(l.s, 0, tail);
    var g := Get(l.s).s;
    assert EnsureExists(m) == Ensured(l.s, Ok, false);
    var id, q := s.stored.status.resourceID, SettingsRequest(spec);
    RefusedUpdate(g, id, q, f);
    var u := ApiUpdate(g, id, q);
    assert Update(g) == u;
    RereadNeedsUpdate(g);
    assert Reconcile(s, script) == ReportUpdate(u.s, {f});
    MergeAll(u.s.stored.status, Unready(u.s, Erroneous));
    hide MergeStatus;
  }

  lemma ServedListing(s: State, name: string)
    requires !Halted(s) && s.script[0].env.Calm? && s.script[0].reply.Served?
    ensures ApiList(s, name).items == Listing(s.remote.resources.live, name, s.remote.resources.next)
  {
    hide Listing;
  }

  lemma RefusedUpdate(s: State, id: nat, q: UpdateRequest, f: Fault)
    requires Lead(s, 0, Refusing(f))
    ensures var u := ApiUpdate(s, id, q);
      u.r == Err({f}) && u.s.script == [PLAIN] && !u.s.crashed && u.s.remote == s.remote && u.s.stored == s.stored && u.s.res == s.res
  {
    assert s.script == Refusing(f) by { assert s.script[0..] == s.script; }
    hide Apply;
  }

  /** A new resource that cannot be recorded is deleted again: what is live at the server is as before. */
  lemma UnrecordedIsRolledBack(s: State, f: Fault)
    requires Eligible(s) && s.remote.Valid() && NothingToAdopt(s)
    ensures var t := Reconcile(s, Plain(CallsToCreate(s.stored.spec)) + [Event(Calm, 0, Refused(f)), PLAIN, PLAIN]);
      && t.remote.resources.live == s.remote.resources.live && t.remote.targets == s.remote.targets && t.remote.rules == s.remote.rules
      && t.stored == s.stored.(status := s.stored.status.(phase := Creating, condition := Condition(false, Erroneous, s.stored.generation)))
  {
    hide ReportEnsure, Listing, FindResource, ApiList, Patch, ChooseDomain, ApiCreate, Resolvable, Populate, Persist, Lead, CallsToCreate, Lists;
    var spec, tail := s.stored.spec, [Event(Calm, 0, Refused(f)), PLAIN, PLAIN];
    var dom := if NeedsDomain(spec) then 1 else 0;
    CountsCalls(spec);
    var script := Plain(CallsToCreate(spec)) + tail;
    var m := Start(s, script);
    ReconcileIs(s, script);
    PlainLeads(s, CallsToCreate(spec), tail);
    LeadList(m, spec.name, dom + 2, tail);
    var l := ApiList(m, spec.name);
    NothingIsListed(s, m);
    var creating := s.stored.status.(phase := Creating);
    LeadPatch(l.s, creating, dom + 1, tail);
    var p := Patch(l.s, creating).s;
    SameResolvable(s, p);
    LeadDomain(p, 1, tail);
    var d := ChooseDomain(p);
    var q := NewRequest(d.s.res.spec, d.id, d.subdomain);
    LeadCreate(d.s, q, 0, tail);
    OneRowMore(d.s, q, tail);
    var c := ApiCreate(d.s, q);
    RollsBack(c.s, c.id, f);
    var r := Persist(c.s, c.id);
    assert Create(l.s) == Outcome(r.s, r.r);
    assert EnsureExists(m) == Ensured(r.s, r.r, false);
    assert Reconcile(s, script) == ReportEnsure(r.s, {});
  }

  lemma PlainLeads(s: State, n: nat, tail: seq<Event>)
    ensures Lead(Start(s, Plain(n) + tail), n, tail)
  {
    var script := Plain(n) + tail;
    assert forall i :: 0 <= i < n ==> script[i] == Plain(n)[i];
    assert script[n..] == tail;
  }

  lemma OneRowMore(s: State, q: CreateRequest, tail: seq<Event>)
    requires Lead(s, 1, tail) && s.remote.Valid()
    ensures var c := ApiCreate(s, q); var live := s.remote.resources.live;
      && c.id !in live && c.id in c.s.remote.resources.live && c.s.remote.resources.live == live[c.id := c.s.remote.resources.live[c.id]]
      && c.s.remote.targets == s.remote.targets && c.s.remote.rules == s.remote.rules
  {
    LeadCall(s, CreateResource, 0, tail);
    hide Compose;
  }

  lemma RollsBack(s: State, id: nat, f: Fault)
    requires Lead(s, 0, [Event(Calm, 0, Refused(f)), PLAIN, PLAIN]) && id in s.remote.resources.live && s.res == s.stored
    ensures var r := Persist(s, id); var t := ReportEnsure(r.s, {});
      && r.r == Err({}) && t.remote.resources.live == s.remote.resources.live - {id}
      && t.remote.targets == s.remote.targets && t.remote.rules == s.remote.rules
      && t.stored == s.stored.(status := s.stored.status.(condition := Condition(false, Erroneous, s.stored.generation)))
  {
    assert s.script == [Event(Calm, 0, Refused(f)), PLAIN, PLAIN] by { assert s.script[0..] == s.script; }
    var r := Persist(s, id).s;
    assert r.script == [PLAIN] && r.stored == s.stored && r.res.generation == s.stored.generation;
  }
}
