/** When a NewtSite that is marked ready for its current generation has its name at the server, and which
    renames that come during an activation can be missed. */
module NewtEdits {
  import opened Shared
  import opened Server
  import opened NewtSite
  import opened NewtSafety
  import opened NewtRuns

  // ---- The claim and its environment ----

  /** The site, if it is live, has the name. */
  predicate Called(s: State, id: nat, name: string) {
    id in s.sites.live ==> s.sites.live[id].name == name
  }

  /** If the current generation counts as observed, then the recorded site has the name in the spec. */
  predicate Truthful(s: State) {
    s.stored.status.observedGeneration == s.stored.generation ==> Called(s, s.stored.status.siteID, s.stored.spec.name)
  }

  /** Others may make one edit, again and again, and anything else at any time. */
  ghost predicate Edits(script: seq<Event>, later: Spec) {
    forall i :: 0 <= i < |script| ==> script[i].env.EditSpec? ==> script[i].env.spec == later
  }

  /** A site is recorded already, or the edit leaves the name alone. */
  predicate Sure(s: State, later: Spec) {
    s.stored.status.siteID != 0 || later.name == s.stored.spec.name
  }

  // ---- What an activation keeps until it is finished ----

  /** An object as it was when the activation began, or as it is after the edit. */
  predicate Version(o: Object, s0: State, later: Spec) {
    || (o.spec == s0.stored.spec && o.generation == s0.stored.generation)
    || (o.spec == later && o.generation == s0.stored.generation + 1)
  }

  ghost predicate Pace(s0: State, s: State, later: Spec) {
    var observed := s0.stored.status.observedGeneration;
    && s.sites.Valid() && Edits(s.script, later)
    && s.stored.status.siteID < s.sites.next && s.res.status.siteID < s.sites.next
    && Version(s.stored, s0, later) && Version(s.res, s0, later) && s.res.generation <= s.stored.generation
    && s.stored.status.observedGeneration == observed == s.res.status.observedGeneration && observed <= s0.stored.generation
    && (Truthful(s0) ==> Truthful(s))
  }

  /** What an activation leaves behind. */
  ghost predicate Good(s0: State, t: State, later: Spec) {
    && t.sites.Valid() && t.stored.status.siteID < t.sites.next
    && Version(t.stored, s0, later) && t.stored.status.observedGeneration <= t.stored.generation
    && (Truthful(s0) || t.stored.generation == s0.stored.generation + 1 ==> Truthful(t))
  }

  lemma PaceIsGood(s0: State, s: State, later: Spec)
    requires Pace(s0, s, later)
    ensures Good(s0, s, later)
  {
    hide Edits;
  }

  /** No site has changed its name, and no number was handed out twice. */
  predicate Onward(s: State, t: State) {
    && s.sites.next <= t.sites.next
    && forall id :: id in t.sites.live && id < s.sites.next ==> id in s.sites.live && t.sites.live[id].name == s.sites.live[id].name
  }

  lemma EnvPace(s0: State, s: State, env: Env, later: Spec)
    requires Pace(s0, s, later) && (env.EditSpec? ==> env.spec == later)
    ensures var t := ApplyEnv(s, env);
      && Pace(s0, t, later) && Onward(s, t) && t.res == s.res && t.stored.status == s.stored.status && t.script == s.script && t.crashed == s.crashed
  {
    hide Edits;
  }

  lemma AdvancePace(s0: State, s: State, later: Spec)
    requires Pace(s0, s, later) && !Halted(s)
    ensures var t := Advance(s);
      Pace(s0, t, later) && Onward(s, t) && t.res == s.res && t.stored.status == s.stored.status && t.crashed == s.crashed
  {
    hide ApplyEnv, Version;
    var m := s.(script := s.script[1..]);
    assert s.script[0].env.EditSpec? ==> s.script[0].env.spec == later;
    EnvPace(s0, m, s.script[0].env, later);
  }

  /** Only the status, the copy and what is no site change. */
  lemma StatusPace(s0: State, s: State, t: State, later: Spec)
    requires Pace(s0, s, later) && t.sites == s.sites && t.script == s.script
    requires t.stored == s.stored.(status := t.stored.status)
    requires t.stored.status.observedGeneration == s.stored.status.observedGeneration == t.res.status.observedGeneration
    requires t.res == t.stored || t.res == s.res.(status := t.res.status)
    requires t.stored.status.siteID < s.sites.next && t.res.status.siteID < s.sites.next
    requires t.stored.status.siteID == s.stored.status.siteID || Called(s, t.stored.status.siteID, s0.stored.spec.name)
    ensures Pace(s0, t, later) && Onward(s, t)
  {
    hide Edits;
  }

  predicate InHand(s: State) {
    s.res.status == s.stored.status
  }

  lemma MergeAll(st: Status, after: Status)
    ensures MergeStatus(st, st, after) == after
  {
  }

  lemma CalledOnward(s: State, t: State, id: nat, name: string)
    requires Onward(s, t) && Called(s, id, name) && id < s.sites.next
    ensures Called(t, id, name)
  {
  }

  lemma PatchPace(s0: State, s: State, after: Status, later: Spec)
    requires Pace(s0, s, later) && after.observedGeneration == s.res.status.observedGeneration && after.siteID < s.sites.next
    requires after.siteID == s.res.status.siteID || Called(s, after.siteID, s0.stored.spec.name)
    ensures var p := Patch(s, after);
      Pace(s0, p.s, later) && Onward(s, p.s) && (p.r.Ok? ==> p.s.res == p.s.stored && (InHand(s) ==> p.s.stored.status == after))
  {
    hide Advance, Version, Edits, Onward, Truthful;
    if Halted(s) {
      StatusPace(s0, s, Halt(s), later);
    } else {
      AdvancePace(s0, s, later);
      var t := Advance(s);
      assert s.sites.next <= t.sites.next by { hide *; OnwardNext(s, t); }
      MergeAll(s.res.status, after);
      if Called(s, after.siteID, s0.stored.spec.name) { CalledOnward(s, t, after.siteID, s0.stored.spec.name); }
      StatusPace(s0, t, Patch(s, after).s, later);
      OnwardChain(s, t, Patch(s, after).s);
    }
  }

  lemma OnwardNext(s: State, t: State)
    requires Onward(s, t)
    ensures s.sites.next <= t.sites.next
  {
  }

  lemma OnwardChain(s: State, t: State, u: State)
    requires Onward(s, t) && Onward(t, u)
    ensures Onward(s, u)
  {
  }

  /** Calls that leave the sites alone. */
  lemma ReadPace(s0: State, s: State, later: Spec)
    requires Pace(s0, s, later)
    ensures var g := Get(s);
      && Pace(s0, g.s, later) && Onward(s, g.s) && g.s.stored.status == s.stored.status && (g.r.Ok? ==> g.s.res == g.s.stored)
    ensures var a := Ask(s); Pace(s0, a.s, later) && Onward(s, a.s) && a.s.stored.status == s.stored.status && a.s.res == s.res
    ensures forall id ::
      var g := ApiGet(s, id);
      && Pace(s0, g.s, later) && Onward(s, g.s) && g.s.stored.status == s.stored.status && g.s.res == s.res
      && (g.r.Ok? ==> id in g.s.sites.live)
    ensures var p := Probe(s).s; Pace(s0, p, later) && Onward(s, p) && p.stored.status == s.stored.status && p.res == s.res
  {
    hide Advance, Version, Edits, Onward, Truthful;
    StatusPace(s0, s, Halt(s), later);
    if !Halted(s) {
      AdvancePace(s0, s, later);
      var t, g := Advance(s), Get(s).s;
      assert s.sites.next <= t.sites.next by { hide *; OnwardNext(s, t); }
      StatusPace(s0, t, g, later);
      OnwardChain(s, t, g);
    }
  }

  lemma WritePace(s0: State, s: State, credentials: Credentials, name: string, later: Spec)
    requires Pace(s0, s, later)
    ensures var w := WriteSecret(s, credentials);
      Pace(s0, w.s, later) && Onward(s, w.s) && w.s.stored.status == s.stored.status && w.s.res == s.res
    ensures var w := WriteDeployment(s, name);
      Pace(s0, w.s, later) && Onward(s, w.s) && w.s.stored.status == s.stored.status && w.s.res == s.res
  {
    hide Ask, Onward, Pace, Get, ApiGet, Probe;
    ReadPace(s0, s, later);
    var g := Ask(s).s;
    ReadPace(s0, g, later);
    var w := Ask(g).s;
    OnwardChain(s, g, w);
    StoresPace(s0, w, w.(secret := Some(credentials)), later);
    StoresPace(s0, w, w.(deployment := Some(name)), later);
    OnwardChain(s, w, w.(secret := Some(credentials)));
    OnwardChain(s, w, w.(deployment := Some(name)));
  }

  lemma StoresPace(s0: State, s: State, t: State, later: Spec)
    requires Pace(s0, s, later) && t == s.(secret := t.secret, deployment := t.deployment)
    ensures Pace(s0, t, later) && Onward(s, t)
  {
    hide Edits, Version;
  }

  lemma CreatePace(s0: State, s: State, name: string, credentials: Option<Credentials>, later: Spec)
    requires Pace(s0, s, later)
    ensures var c := ApiCreate(s, name, credentials);
      && Pace(s0, c.s, later) && c.s.stored.status == s.stored.status && c.s.res == s.res
      && (c.r.Ok? ==> c.id < c.s.sites.next && Called(c.s, c.id, name))
  {
    hide Advance, Version, Edits;
    if Halted(s) { StatusPace(s0, s, Halt(s), later); } else { AdvancePace(s0, s, later); }
  }

  lemma DeletePace(s0: State, s: State, id: nat, later: Spec)
    requires Pace(s0, s, later)
    ensures Pace(s0, ApiDelete(s, id).s, later)
  {
    hide Advance, Version, Edits;
    if Halted(s) { StatusPace(s0, s, Halt(s), later); } else { AdvancePace(s0, s, later); }
  }

  /** A rename is done only while the current generation does not count as observed. */
  lemma RenamePace(s0: State, s: State, id: nat, name: string, later: Spec)
    requires Pace(s0, s, later) && s.stored.status.observedGeneration < s.stored.generation
    ensures var r := ApiRename(s, id, name);
      && Pace(s0, r.s, later) && r.s.stored.status == s.stored.status && r.s.res == s.res && (r.r.Ok? ==> Called(r.s, id, name))
  {
    hide Advance, Edits;
    if Halted(s) { StatusPace(s0, s, Halt(s), later); } else { AdvancePace(s0, s, later); RenameLater(s); }
  }

  lemma RenameLater(s: State)
    requires !Halted(s)
    ensures s.stored.generation <= Advance(s).stored.generation
  {
  }

  // ---- The pieces of an activation ----

  /** A site is recorded that has the name from before the edit. */
  lemma RecordPace(s0: State, s: State, id: nat, after: Status, later: Spec)
    requires Pace(s0, s, later) && InHand(s) && after.siteID == id < s.sites.next && Called(s, id, s0.stored.spec.name)
    requires after.observedGeneration == s.res.status.observedGeneration
    ensures var r := Record(s, id, after); Pace(s0, r.s, later) && (r.r.Ok? ==> Called(r.s, r.s.stored.status.siteID, s0.stored.spec.name))
  {
    hide Patch, ApiDelete, Truthful, Version, Edits, Onward;
    PatchPace(s0, s, after, later);
    var p := Patch(s, after);
    CalledOnward(s, p.s, id, s0.stored.spec.name);
    DeletePace(s0, p.s, id, later);
  }

  lemma CreateSitePace(s0: State, s: State, later: Spec)
    requires Pace(s0, s, later) && InHand(s) && later.name == s0.stored.spec.name
    ensures var c := CreateSite(s); Pace(s0, c.s, later) && (c.r.Ok? ==> Called(c.s, c.s.stored.status.siteID, s0.stored.spec.name))
  {
    hide Patch, ApiCreate, Record, Truthful, Edits, Onward, WriteSecret, Ask, Get, ApiGet, Probe, WriteDeployment, Called;
    var creating := s.res.status.(phase := Creating);
    PatchPace(s0, s, creating, later);
    var p := Patch(s, creating);
    if p.r.Ok? {
      assert p.s.res.spec.name == s0.stored.spec.name;
      if p.s.res.spec.local {
        var c := ApiCreate(p.s, p.s.res.spec.name, None);
        CreatePace(s0, p.s, p.s.res.spec.name, None, later);
        if c.r.Ok? { RecordPace(s0, c.s, c.id, c.s.res.status.(siteID := c.id), later); }
      } else {
        CreateNewtPace(s0, p.s, later);
      }
    }
  }

  lemma CreateNewtPace(s0: State, s: State, later: Spec)
    requires Pace(s0, s, later) && InHand(s) && s.res.spec.name == s0.stored.spec.name
    ensures var c := CreateNewt(s); Pace(s0, c.s, later) && (c.r.Ok? ==> Called(c.s, c.s.stored.status.siteID, s0.stored.spec.name))
  {
    hide Patch, ApiCreate, Record, Truthful, Edits, Onward, WriteSecret, Ask, Get, ApiGet, Probe, WriteDeployment, Called, Version;
    ReadPace(s0, s, later);
    var d := Ask(s);
    if d.r.Ok? {
      var credentials := DefaultsOf(s);
      CreatePace(s0, d.s, d.s.res.spec.name, Some(credentials), later);
      var c := ApiCreate(d.s, d.s.res.spec.name, Some(credentials));
      if c.r.Ok? {
        WritePace(s0, c.s, credentials, "", later);
        var w := WriteSecret(c.s, credentials);
        if w.r.Ok? {
          OnwardNext(c.s, w.s);
          CalledOnward(c.s, w.s, c.id, s0.stored.spec.name);
          RecordPace(s0, w.s, c.id, w.s.res.status.(siteID := c.id, secretName := SecretNameFor(w.s.res.name)), later);
        }
      }
    }
  }

  lemma FindOrCreatePace(s0: State, s: State, later: Spec)
    requires Pace(s0, s, later) && InHand(s) && later.name == s0.stored.spec.name
    ensures var f := FindOrCreate(s); Pace(s0, f.s, later) && (f.r.Ok? ==> Called(f.s, f.s.stored.status.siteID, s0.stored.spec.name))
  {
    hide Patch, CreateSite, Truthful, Edits, Onward, Ask, Get, ApiGet, Probe, FindSite, Named;
    ReadPace(s0, s, later);
    var l := ApiList(s, s.res.spec.name);
    if l.r.Ok? {
      var m := FindSite(l.items, l.s.res.spec.name);
      if m.Some? {
        var after := l.s.res.status.(siteID := m.value.id, phase := Creating);
        PatchPace(s0, l.s, after, later);
        CalledOnward(l.s, Patch(l.s, after).s, m.value.id, s0.stored.spec.name);
      } else {
        CreateSitePace(s0, l.s, later);
      }
    }
  }

  lemma UpdateSitePace(s0: State, s: State, later: Spec)
    requires Pace(s0, s, later) && InHand(s) && s.stored.status.observedGeneration < s.stored.generation
    ensures var u := UpdateSite(s);
      && Pace(s0, u.s, later) && u.s.stored.status == s.stored.status && u.s.res == s.res
      && (u.r.Ok? ==> Called(u.s, s.res.status.siteID, s.res.spec.name))
  {
    hide ApiGet, ApiRename, Truthful, Version, Edits, Onward, Get, Ask, Probe;
    ReadPace(s0, s, later);
    var id := s.res.status.siteID;
    var g := ApiGet(s, id);
    if g.r.Ok? {
      assert g.s.stored.generation >= s.stored.generation by { GetLater(s, id); }
      RenamePace(s0, g.s, id, g.s.res.spec.name, later);
    }
  }

  lemma GetLater(s: State, id: nat)
    ensures s.stored.generation <= ApiGet(s, id).s.stored.generation
  {
    if !Halted(s) { RenameLater(s); }
    hide Advance;
  }

  // ---- The end ----

  /** The mark is true if the recorded site has the name in the copy, or if it was there before. */
  lemma FinishPace(s0: State, s: State, online: bool, later: Spec)
    requires Pace(s0, s, later) && InHand(s)
    requires s.res.generation != s.res.status.observedGeneration ==> Called(s, s.res.status.siteID, s.res.spec.name)
    ensures Good(s0, Finish(s, online), later)
  {
    hide Advance, Edits, Called;
    if Halted(s) {
      StatusPace(s0, s, Halt(s), later);
    } else {
      AdvancePace(s0, s, later);
      var m, t := Advance(s), Finish(s, online);
      MergeAll(s.res.status, Finished(s, online));
      SameSitesCalled(m, t);
      if s.res.generation != s.res.status.observedGeneration { CalledOnward(s, m, s.res.status.siteID, s.res.spec.name); }
    }
    hide Onward;
  }

  lemma SameSitesCalled(s: State, t: State)
    requires t.sites == s.sites
    ensures forall id, name :: Called(t, id, name) == Called(s, id, name)
  {
  }

  lemma ReportPace(s0: State, s: State, later: Spec)
    requires Pace(s0, s, later)
    ensures Pace(s0, Patch(s, Unready(s, Erroneous)).s, later)
    ensures Pace(s0, Patch(s, Unready(s, PermanentError).(phase := Failed)).s, later)
    ensures Pace(s0, Patch(s, Forgotten(s.res.status)).s, later)
  {
    hide Patch, Truthful, Version, Edits, Onward;
    PatchPace(s0, s, Unready(s, Erroneous), later);
    PatchPace(s0, s, Unready(s, PermanentError).(phase := Failed), later);
    assert 0 !in s.sites.live;
    PatchPace(s0, s, Forgotten(s.res.status), later);
  }

  /** Deployment concerns no site. */
  lemma DeployPace(s0: State, s: State, later: Spec)
    requires Pace(s0, s, later) && InHand(s)
    requires s.res.generation != s.res.status.observedGeneration ==> Called(s, s.res.status.siteID, s.res.spec.name)
    ensures Good(s0, Deploy(s), later)
  {
    hide Patch, Finish, Truthful, Version, Edits, Onward, WriteDeployment, WriteSecret, Ask, Get, ApiGet, Probe, Good, Called;
    ReadPace(s0, s, later);
    if s.res.spec.local || !s.res.spec.managed {
      FinishPace(s0, s, false, later);
    } else {
      var id, name := s.res.status.siteID, s.res.spec.name;
      var a := Ask(s);
      ReportPace(s0, a.s, later);
      PaceIsGood(s0, Patch(a.s, Unready(a.s, Erroneous)).s, later);
      var secretName := MountedSecret(a.s.res);
      WritePace(s0, a.s, Credentials("", ""), secretName, later);
      var d := WriteDeployment(a.s, secretName);
      ReportPace(s0, d.s, later);
      PaceIsGood(s0, Patch(d.s, Unready(d.s, Erroneous)).s, later);
      ReadPace(s0, d.s, later);
      var p := Probe(d.s);
      OnwardChain(s, a.s, d.s);
      OnwardChain(s, d.s, p.s);
      if Called(s, id, name) { CalledOnward(s, p.s, id, name); }
      FinishPace(s0, p.s, p.online, later);
    }
  }

  lemma ReconcileLivePace(s0: State, s: State, later: Spec)
    requires Pace(s0, s, later) && s.res == s.stored && s.stored.status.siteID == s0.stored.status.siteID && Sure(s0, later)
    requires s.stored.generation == s0.stored.generation
    ensures Good(s0, ReconcileLive(s), later)
  {
    hide Patch, Truthful, Edits, Onward, Ask, Get, ApiGet, Probe, Good, Deploy, UpdateSite, FindOrCreate, Called;
    var id := s.res.status.siteID;
    if id == 0 {
      FindOrCreatePace(s0, s, later);
      var f := FindOrCreate(s);
      ReportPace(s0, f.s, later);
      PaceIsGood(s0, Patch(f.s, Unready(f.s, Erroneous)).s, later);
      PaceIsGood(s0, Patch(f.s, Unready(f.s, PermanentError).(phase := Failed)).s, later);
      ReadPace(s0, f.s, later);
      var g := Get(f.s);
      if f.r.Ok? {
        if g.r.Ok? {
          CalledOnward(f.s, g.s, f.s.stored.status.siteID, s0.stored.spec.name);
          DeployPace(s0, g.s, later);
        } else {
          PaceIsGood(s0, g.s, later);
        }
      }
    } else if s.res.generation != s.res.status.observedGeneration {
      UpdateSitePace(s0, s, later);
      var u := UpdateSite(s);
      ReportPace(s0, u.s, later);
      PaceIsGood(s0, Patch(u.s, Unready(u.s, Erroneous)).s, later);
      PaceIsGood(s0, Patch(u.s, Forgotten(u.s.res.status)).s, later);
      if u.r.Ok? { DeployPace(s0, u.s, later); }
    } else {
      ReadPace(s0, s, later);
      var g := ApiGet(s, id);
      ReportPace(s0, g.s, later);
      PaceIsGood(s0, Patch(g.s, Forgotten(g.s.res.status)).s, later);
      PaceIsGood(s0, g.s, later);
      if g.r.Ok? { DeployPace(s0, g.s, later); }
    }
  }

  /** An activation, cut anywhere, keeps the claim true and leaves no untrue claim about the edit, provided
      that a site is recorded already or that the edit leaves the name alone. */
  lemma ActivationPace(s: State, script: seq<Event>, later: Spec)
    requires s.sites.Valid() && s.stored.status.siteID < s.sites.next && s.stored.status.observedGeneration <= s.stored.generation
    requires !s.stored.deleting && Edits(script, later) && Sure(s, later)
    ensures Good(s, Reconcile(s, script), later)
  {
    hide ReconcileLive, SetFinalizer, Edits, Good, Called, Advance;
    var m := s.(res := s.stored, script := script, crashed := false);
    SameSitesCalled(s, m);
    assert Pace(s, m, later);
    if s.stored.finalizer {
      ReconcileLivePace(s, m, later);
    } else {
      FinalizerPace(s, m, later);
      var f := SetFinalizer(m, true);
      if f.r.Ok? { ReconcileLivePace(s, f.s, later); } else { PaceIsGood(s, f.s, later); }
    }
  }

  lemma FinalizerPace(s0: State, s: State, later: Spec)
    requires Pace(s0, s, later) && s.res == s.stored
    ensures var f := SetFinalizer(s, true);
      && Pace(s0, f.s, later)
      && (f.r.Ok? ==> f.s.res == f.s.stored && f.s.stored.status == s.stored.status && f.s.stored.generation == s.stored.generation)
  {
    hide Advance, Edits, Called;
    if Halted(s) {
      StatusPace(s0, s, Halt(s), later);
    } else {
      AdvancePace(s0, s, later);
      SameSitesCalled(Advance(s), SetFinalizer(s, true).s);
    }
  }

  // ---- Runs ----

  /** The invariant of runs: what the status claims is so. */
  ghost predicate Honest(s: State) {
    && s.sites.Valid() && s.stored.status.siteID < s.sites.next
    && s.stored.status.observedGeneration <= s.stored.generation && Truthful(s)
  }

  /** Others may do anything; an edit during an activation is one that is not missed. */
  ghost predicate Seen(s: State, step: Step) {
    step.Activate? ==> !s.stored.deleting && exists later: Spec :: Edits(step.script, later) && Sure(s, later)
  }

  ghost predicate AllSeen(trace: seq<State>, steps: seq<Step>)
    requires |trace| == |steps| + 1
  {
    forall k :: 0 <= k < |steps| ==> Seen(trace[k], steps[k])
  }

  lemma StepHonest(s: State, step: Step)
    requires Honest(s) && Seen(s, step)
    ensures Honest(Do(s, step))
  {
    hide Reconcile, Edits, Sure;
    if step.Activate? {
      var later: Spec :| Edits(step.script, later) && Sure(s, later);
      ActivationPace(s, step.script, later);
    }
  }

  lemma {:induction false} RunHonest(trace: seq<State>, steps: seq<Step>, k: nat)
    requires IsRun(trace, steps) && k < |trace| && Honest(trace[0]) && AllSeen(trace, steps)
    ensures Honest(trace[k])
  {
    hide Honest, Do, Seen;
    if k > 0 {
      RunHonest(trace, steps, k - 1);
      StepHonest(trace[k - 1], steps[k - 1]);
    }
  }

  /** Ready is honest about the name: until the object is cleaned up, a status that observes the current
      generation means that the recorded site, if nobody deleted it, has the name in the spec. */
  lemma ReadyIsHonest(trace: seq<State>, steps: seq<Step>, t: State)
    requires IsRun(trace, steps) && t in trace && Init(trace[0]) && AllSeen(trace, steps)
    requires t.stored.status.observedGeneration == t.stored.generation && t.stored.status.siteID in t.sites.live
    ensures t.sites.live[t.stored.status.siteID].name == t.stored.spec.name
  {
    hide IsRun, AllSeen;
    assert 0 !in trace[0].sites.live;
    assert Honest(trace[0]);
    var k :| 0 <= k < |trace| && trace[k] == t;
    RunHonest(trace, steps, k);
    hide Init;
  }

  // ---- Which renames are missed ----

  /** The object is reported ready for the edit, and its site is live under another name. */
  ghost predicate Misses(s: State, script: seq<Event>, later: Spec) {
    var t := Reconcile(s, script); var id := t.stored.status.siteID;
    Edits(script, later) && t.stored.spec == later && MarkedReady(t.stored) && id in t.sites.live && t.sites.live[id].name != later.name
  }

  /** The next n calls are undisturbed and answered; then the tail of the script is left. */
  ghost predicate Lead(s: State, n: nat, tail: seq<Event>) {
    && !s.crashed && |s.script| == n + |tail| && s.script[n..] == tail && s.res == s.stored
    && forall i :: 0 <= i < n ==> s.script[i].env.Calm? && s.script[i].reply.Served?
  }

  lemma LeadCall(s: State, n: nat, tail: seq<Event>)
    requires Lead(s, n + 1, tail)
    ensures !Halted(s) && s.script[0].reply.Served? && Advance(s) == s.(script := s.script[1..]) && Lead(Advance(s), n, tail)
  {
    assert s.script[1..][n..] == s.script[n + 1..];
  }

  lemma LeadPatch(s: State, after: Status, n: nat, tail: seq<Event>)
    requires Lead(s, n + 1, tail)
    ensures var p := Patch(s, after); p.r.Ok? && Lead(p.s, n, tail) && SameBesidesStatus(s, p.s) && p.s.stored.status == after
  {
    LeadCall(s, n, tail);
    MergeAll(s.res.status, after);
  }

  lemma LeadAsk(s: State, n: nat, tail: seq<Event>)
    requires Lead(s, n + 1, tail)
    ensures Ask(s).r.Ok? && Lead(Ask(s).s, n, tail) && SameBesidesStatus(s, Ask(s).s) && Ask(s).s.stored == s.stored
  {
    LeadCall(s, n, tail);
  }

  lemma LeadCreate(s: State, name: string, credentials: Option<Credentials>, n: nat, tail: seq<Event>)
    requires Lead(s, n + 1, tail) && s.sites.Valid()
    ensures var c := ApiCreate(s, name, credentials);
      && c.r.Ok? && Lead(c.s, n, tail) && c.s.stored == s.stored && c.id in c.s.sites.live && c.s.sites.live[c.id].name == name
  {
    LeadCall(s, n, tail);
  }

  lemma LeadSecret(s: State, credentials: Credentials, n: nat, tail: seq<Event>)
    requires Lead(s, n + 2, tail)
    ensures var w := WriteSecret(s, credentials);
      w.r.Ok? && Lead(w.s, n, tail) && w.s.stored == s.stored && w.s.sites == s.sites && w.s.res.name == s.res.name
  {
    LeadAsk(s, n + 1, tail);
    LeadCall(Ask(s).s, n, tail);
    LeadAsk(Ask(s).s, n, tail);
    hide Advance;
  }

  /** The calls that find or create a site. */
  function CallsToFind(s: State): nat {
    if Existing(s).Some? then 2 else if s.stored.spec.local then 4 else 7
  }

  /** A live site with the name in the spec is recorded. */
  predicate Recorded(s: State, t: State) {
    var id := t.stored.status.siteID;
    t.stored == s.stored.(status := t.stored.status) && id in t.sites.live && t.sites.live[id].name == s.stored.spec.name
  }

  lemma LeadCreateSite(s: State, n: nat, tail: seq<Event>)
    requires Lead(s, n + (if s.stored.spec.local then 3 else 6), tail) && s.sites.Valid()
    ensures var f := CreateSite(s); f.r.Ok? && Lead(f.s, n, tail) && Recorded(s, f.s)
  {
    hide Patch, Ask, ApiCreate, WriteSecret, ApiDelete, Lead;
    var m := if s.stored.spec.local then n + 2 else n + 5;
    var creating := s.res.status.(phase := Creating);
    LeadPatch(s, creating, m, tail);
    LeadCopy(s, m + 1, tail);
    var p := Patch(s, creating).s;
    LeadCopy(p, m, tail);
    if s.stored.spec.local {
      LeadCreate(p, p.res.spec.name, None, n + 1, tail);
      var c := ApiCreate(p, p.res.spec.name, None);
      LeadPatch(c.s, c.s.res.status.(siteID := c.id), n, tail);
    } else {
      LeadAsk(p, n + 4, tail);
      var d := Ask(p).s;
      LeadCopy(d, n + 4, tail);
      var credentials := DefaultsOf(p);
      LeadCreate(d, d.res.spec.name, Some(credentials), n + 3, tail);
      var c := ApiCreate(d, d.res.spec.name, Some(credentials));
      LeadSecret(c.s, credentials, n + 1, tail);
      var w := WriteSecret(c.s, credentials).s;
      LeadPatch(w, w.res.status.(siteID := c.id, secretName := SecretNameFor(w.res.name)), n, tail);
    }
  }

  lemma LeadCopy(s: State, n: nat, tail: seq<Event>)
    requires Lead(s, n, tail)
    ensures s.res == s.stored && !s.crashed && (n > 0 ==> s.script != [])
  {
  }

  lemma LeadFind(s: State, n: nat, tail: seq<Event>)
    requires Lead(s, n + CallsToFind(s), tail) && s.sites.Valid()
    ensures var f := FindOrCreate(s); f.r.Ok? && Lead(f.s, n, tail) && Recorded(s, f.s)
  {
    hide Patch, Ask, CreateSite, Lead, FindSite, Named;
    LeadAsk(s, n + CallsToFind(s) - 1, tail);
    LeadCopy(s, n + CallsToFind(s), tail);
    var l := Ask(s).s;
    LeadCopy(l, n + CallsToFind(s) - 1, tail);
    if Existing(s).Some? {
      LeadPatch(l, l.res.status.(siteID := Existing(s).value.id, phase := Creating), n, tail);
    } else {
      LeadCreateSite(l, n, tail);
    }
  }

  /** The edit comes with the next call, and five more are undisturbed and answered. */
  function Tail(later: Spec): seq<Event> {
    [PLAIN.(env := EditSpec(later))] + Plain(5)
  }

  /** The edit comes with the re-read after the site was recorded. */
  function LateScript(s: State, later: Spec): seq<Event> {
    Plain(CallsToFind(s)) + Tail(later)
  }

  lemma LateScriptLeads(s: State, later: Spec)
    ensures var script, n := LateScript(s, later), CallsToFind(s); var m := s.(res := s.stored, script := script, crashed := false);
      Edits(script, later) && Lead(m, n, Tail(later))
  {
    var n, script := CallsToFind(s), LateScript(s, later);
    assert script[n..] == Tail(later);
    forall i | 0 <= i < |script| ensures script[i].env.EditSpec? ==> script[i].env.spec == later {
      if i < n { assert script[i] == Plain(n)[i]; } else if i > n { assert script[i] == Plain(5)[i - n - 1]; }
    }
    forall i | 0 <= i < n ensures script[i].env.Calm? && script[i].reply.Served? { assert script[i] == Plain(n)[i]; }
  }

  lemma EditedGet(s: State, later: Spec)
    requires Lead(s, 0, Tail(later)) && later != s.stored.spec && !s.stored.deleting
    ensures var g := Get(s);
      && g.r.Ok? && Fuel(g.s, 5) && g.s.sites == s.sites
      && g.s.stored == s.stored.(spec := later, generation := s.stored.generation + 1)
  {
    assert s.script == Tail(later) by { assert s.script[0..] == s.script; }
    assert Tail(later)[1..] == Plain(5);
  }

  lemma LateRename(s: State, later: Spec)
    requires s.sites.Valid() && s.stored.finalizer && !s.stored.deleting && s.stored.status.siteID == 0
    requires later.name != s.stored.spec.name
    ensures Misses(s, LateScript(s, later), later)
  {
    hide FindOrCreate, Get, Deploy, Lead, LateScript, Tail, Edits, Fuel, CallsToFind;
    var script, n := LateScript(s, later), CallsToFind(s);
    LateScriptLeads(s, later);
    var m := s.(res := s.stored, script := script, crashed := false);
    assert CallsToFind(m) == n by { SameCalls(s, m); }
    LeadFind(m, 0, Tail(later));
    var f := FindOrCreate(m).s;
    EditedGet(f, later);
    var g := Get(f).s;
    DeploySmooth(g);
    assert Reconcile(s, script) == Deploy(g);
  }

  lemma SameCalls(s: State, t: State)
    requires t.stored == s.stored && t.sites == s.sites
    ensures CallsToFind(t) == CallsToFind(s)
  {
  }

  /** For every edit, some activation in which others may make that edit ends with the object reported
      ready for it although its site has another name, exactly if no site is recorded and the edit
      changes the name: a site that was just adopted or created is not renamed. */
  lemma LateRenameIsMissed(s: State, later: Spec)
    requires s.sites.Valid() && s.stored.status.siteID < s.sites.next && s.stored.finalizer && !s.stored.deleting
    requires s.stored.status.observedGeneration <= s.stored.generation && later != s.stored.spec
    ensures (exists script :: Misses(s, script, later)) <==> s.stored.status.siteID == 0 && later.name != s.stored.spec.name
  {
    hide Reconcile, LateScript, Edits;
    if s.stored.status.siteID == 0 && later.name != s.stored.spec.name { LateRename(s, later); }
    if exists script :: Misses(s, script, later) {
      var script :| Misses(s, script, later);
      if Sure(s, later) { ActivationPace(s, script, later); }
    }
  }
}
