/** Runs of the NewtSite reconciler in which the site's name is not edited: one site at most is
    created, never before the finalizer, and cleanup removes it. */
module NewtRuns {
  import opened Shared
  import opened Server
  import opened NewtSite
  import opened NewtSafety

  // ---- At most one ----

  predicate KeepsName(env: Env, name: string) {
    env.EditSpec? ==> env.spec.name == name
  }

  ghost predicate KeepsNames(script: seq<Event>, name: string) {
    forall i :: 0 <= i < |script| ==> KeepsName(script[i].env, name)
  }

  ghost predicate One(s: State) {
    var live := s.sites.live;
    && s.sites.Valid()
    && (forall id :: id in live && live[id].ours ==> live[id].name == s.stored.spec.name && (s.stored.finalizer || s.stored.deleting))
    && (forall a, b :: a in live && b in live && live[a].ours && live[b].ours ==> a == b)
  }

  ghost predicate NoOurs(s: State) {
    forall id :: id in s.sites.live ==> !s.sites.live[id].ours
  }

  /** Holds throughout an activation. */
  ghost predicate Sole(s: State) {
    && One(s) && KeepsNames(s.script, s.stored.spec.name)
    && s.res.spec.name == s.stored.spec.name && (s.stored.finalizer || s.stored.deleting)
  }

  ghost predicate StaysSole(s: State, t: State) {
    Sole(t) && t.stored.spec.name == s.stored.spec.name && (s.stored.deleting ==> t.stored.deleting) && (NoOurs(s) ==> NoOurs(t))
  }

  lemma EnvOne(s: State, env: Env)
    requires One(s) && KeepsName(env, s.stored.spec.name)
    ensures var t := ApplyEnv(s, env);
      && One(t) && t.stored.spec.name == s.stored.spec.name && t.res == s.res && t.stored.finalizer == s.stored.finalizer
      && t.script == s.script && (s.stored.deleting ==> t.stored.deleting) && (NoOurs(s) ==> NoOurs(t))
  {
  }

  lemma AdvanceSole(s: State)
    requires Sole(s) && !Halted(s)
    ensures StaysSole(s, Advance(s)) && Advance(s).res == s.res
  {
    hide ApplyEnv;
    var m := s.(script := s.script[1..]);
    assert KeepsName(s.script[0].env, s.stored.spec.name);
    EnvOne(m, s.script[0].env);
    assert forall i :: 0 <= i < |m.script| ==> m.script[i] == s.script[i + 1];
  }

  /** What happens to status, Secret and deployment does not matter here. */
  lemma SameSitesSole(s: State, t: State)
    requires Sole(s) && t.sites == s.sites && t.script == s.script && t.res.spec.name == s.res.spec.name
    requires t.stored.spec == s.stored.spec && t.stored.finalizer == s.stored.finalizer && t.stored.deleting == s.stored.deleting
    ensures StaysSole(s, t)
  {
  }

  lemma AskSole(s: State)
    requires Sole(s)
    ensures StaysSole(s, Ask(s).s)
  {
    hide Sole, StaysSole, Advance;
    if Halted(s) { SameSitesSole(s, Halt(s)); } else { AdvanceSole(s); }
  }

  lemma StaysChain(s: State, t: State, u: State)
    requires StaysSole(s, t) && StaysSole(t, u)
    ensures StaysSole(s, u)
  {
  }

  lemma PatchSole(s: State, after: Status)
    requires Sole(s)
    ensures StaysSole(s, Patch(s, after).s)
  {
    hide One, NoOurs, KeepsNames, Advance, MergeStatus;
    if Halted(s) {
      SameSitesSole(s, Halt(s));
    } else {
      AdvanceSole(s);
      SameSitesSole(Advance(s), Patch(s, after).s);
    }
  }

  lemma GetSole(s: State)
    requires Sole(s)
    ensures StaysSole(s, Get(s).s)
  {
    hide One, NoOurs, KeepsNames, Advance;
    if Halted(s) {
      SameSitesSole(s, Halt(s));
    } else {
      AdvanceSole(s);
      SameSitesSole(Advance(s), Get(s).s);
    }
  }

  lemma ApiGetSole(s: State, id: nat)
    requires Sole(s)
    ensures StaysSole(s, ApiGet(s, id).s)
  {
    hide Sole, StaysSole, Advance;
    if Halted(s) { SameSitesSole(s, Halt(s)); } else { AdvanceSole(s); }
  }

  /** A site may be created only when none of ours lives. */
  lemma ApiCreateSole(s: State, credentials: Option<Credentials>)
    requires Sole(s) && NoOurs(s)
    ensures var c := ApiCreate(s, s.res.spec.name, credentials); Sole(c.s) && c.s.stored.spec.name == s.stored.spec.name
  {
    hide Advance, KeepsNames;
    if !Halted(s) { AdvanceSole(s); }
  }

  lemma ApiDeleteSole(s: State, id: nat)
    requires Sole(s)
    ensures StaysSole(s, ApiDelete(s, id).s)
  {
    hide Advance, KeepsNames;
    if !Halted(s) { AdvanceSole(s); }
  }

  lemma SiteRenamed(s: State, id: nat)
    requires Sole(s) && id in s.sites.live
    ensures StaysSole(s, s.(sites := s.sites.Put(id, s.sites.live[id].(name := s.stored.spec.name))))
  {
    hide KeepsNames;
  }

  /** Renaming gives a site the name that ours have anyway. */
  lemma ApiRenameSole(s: State, id: nat)
    requires Sole(s)
    ensures StaysSole(s, ApiRename(s, id, s.res.spec.name).s)
  {
    hide Advance, One, KeepsNames, NoOurs;
    if Halted(s) {
      SameSitesSole(s, Halt(s));
    } else {
      AdvanceSole(s);
      var t := Advance(s);
      if id in t.sites.live {
        SiteRenamed(t, id);
        StaysChain(s, t, t.(sites := t.sites.Put(id, t.sites.live[id].(name := t.stored.spec.name))));
      }
    }
  }

  lemma WriteSole(s: State, credentials: Credentials, name: string)
    requires Sole(s)
    ensures StaysSole(s, WriteSecret(s, credentials).s) && StaysSole(s, WriteDeployment(s, name).s)
  {
    hide Sole, StaysSole, Ask;
    AskSole(s);
    StaysSoleIsSole(s, Ask(s).s);
    var g := Ask(s);
    AskSole(g.s);
    StaysSoleIsSole(g.s, Ask(g.s).s);
    StaysChain(s, g.s, Ask(g.s).s);
    var w := Ask(g.s).s;
    SameSitesSole(w, w.(secret := Some(credentials)));
    SameSitesSole(w, w.(deployment := Some(name)));
    StaysChain(s, w, w.(secret := Some(credentials)));
    StaysChain(s, w, w.(deployment := Some(name)));
  }

  lemma StaysSoleIsSole(s: State, t: State)
    requires StaysSole(s, t)
    ensures Sole(t) && t.stored.spec.name == s.stored.spec.name && (NoOurs(s) ==> NoOurs(t))
    ensures s.stored.deleting ==> t.stored.deleting
  {
  }

  /** A listing without the name means that nothing of ours lives. */
  lemma ListingShowsOurs(s: State)
    requires Sole(s) && FindSite(Named(s.sites.live, s.res.spec.name, s.sites.next), s.res.spec.name).None?
    ensures NoOurs(s)
  {
    var items := Named(s.sites.live, s.res.spec.name, s.sites.next);
    assert forall id :: id in s.sites.live && s.sites.live[id].name == s.res.spec.name ==> SiteItem(id, s.res.spec.name) in items;
    hide Named, FindSite;
  }

  lemma CreateSiteSole(s: State)
    requires Sole(s) && NoOurs(s)
    ensures Sole(CreateSite(s).s) && CreateSite(s).s.stored.spec.name == s.stored.spec.name
  {
    hide Sole, StaysSole, NoOurs, Ask, Patch, ApiCreate, ApiDelete, WriteSecret;
    var p := Patch(s, s.res.status.(phase := Creating));
    PatchSole(s, s.res.status.(phase := Creating));
    StaysSoleIsSole(s, p.s);
    AskSole(p.s);
    var d := Ask(p.s);
    StaysSoleIsSole(p.s, d.s);
    if p.r.Ok? && p.s.res.spec.local {
      ApiCreateSole(p.s, None);
      var c := ApiCreate(p.s, p.s.res.spec.name, None);
      RecordSole(c.s, c.id, c.s.res.status.(siteID := c.id));
    } else if p.r.Ok? && d.r.Ok? {
      var credentials := DefaultsOf(p.s);
      ApiCreateSole(d.s, Some(credentials));
      var c := ApiCreate(d.s, d.s.res.spec.name, Some(credentials));
      WriteSole(c.s, credentials, "");
      var w := WriteSecret(c.s, credentials);
      StaysSoleIsSole(c.s, w.s);
      RecordSole(w.s, c.id, w.s.res.status.(siteID := c.id, secretName := SecretNameFor(w.s.res.name)));
    }
  }

  function DefaultsOf(s: State): Credentials
    requires Ask(s).r.Ok?
  {
    s.script[0].defaults
  }

  lemma RecordSole(s: State, id: nat, after: Status)
    requires Sole(s)
    ensures Sole(Record(s, id, after).s) && Record(s, id, after).s.stored.spec.name == s.stored.spec.name
  {
    hide Sole, StaysSole, Patch, ApiDelete;
    PatchSole(s, after);
    var p := Patch(s, after);
    StaysSoleIsSole(s, p.s);
    ApiDeleteSole(p.s, id);
    StaysSoleIsSole(p.s, ApiDelete(p.s, id).s);
  }

  lemma FindOrCreateSole(s: State)
    requires Sole(s)
    ensures Sole(FindOrCreate(s).s) && FindOrCreate(s).s.stored.spec.name == s.stored.spec.name
  {
    hide Sole, StaysSole, NoOurs, Patch, CreateSite, FindSite, Named;
    AskSole(s);
    var l := ApiList(s, s.res.spec.name);
    StaysSoleIsSole(s, l.s);
    if l.r.Ok? {
      AskKeepsCopy(s);
      var m := FindSite(l.items, l.s.res.spec.name);
      if m.Some? {
        var after := l.s.res.status.(siteID := m.value.id, phase := Creating);
        PatchSole(l.s, after);
        StaysSoleIsSole(l.s, Patch(l.s, after).s);
      } else {
        ListingShowsOurs(l.s);
        CreateSiteSole(l.s);
      }
    }
  }

  lemma AskKeepsCopy(s: State)
    ensures Ask(s).s.res == s.res
  {
  }

  /** Pieces that only patch, read or deploy. */
  lemma DeploySole(s: State)
    requires Sole(s)
    ensures Sole(Deploy(s)) && Deploy(s).stored.spec.name == s.stored.spec.name
  {
    hide Sole, StaysSole, Patch, Ask, WriteDeployment, Probe;
    AskSole(s);
    var a := Ask(s);
    StaysSoleIsSole(s, a.s);
    WriteSole(a.s, Credentials("", ""), MountedSecret(a.s.res));
    var d := WriteDeployment(a.s, MountedSecret(a.s.res));
    StaysSoleIsSole(a.s, d.s);
    ProbeIsAsk(d.s);
    AskSole(d.s);
    var p := Probe(d.s).s;
    StaysSoleIsSole(d.s, p);
    PatchesSole(a.s);
    PatchesSole(d.s);
    PatchesSole(p);
    PatchesSole(s);
  }

  lemma PatchesSole(s: State)
    requires Sole(s)
    ensures forall after :: Sole(Patch(s, after).s) && Patch(s, after).s.stored.spec.name == s.stored.spec.name
  {
    forall after ensures Sole(Patch(s, after).s) && Patch(s, after).s.stored.spec.name == s.stored.spec.name {
      PatchSole(s, after);
      StaysSoleIsSole(s, Patch(s, after).s);
    }
    hide Patch, Sole, StaysSole;
  }

  lemma ReconcileLiveSole(s: State)
    requires Sole(s)
    ensures Sole(ReconcileLive(s)) && ReconcileLive(s).stored.spec.name == s.stored.spec.name
  {
    hide Sole, StaysSole, Patch, Get, Deploy, FindOrCreate, ApiGet, UpdateSite;
    var id := s.res.status.siteID;
    if id == 0 {
      FindOrCreateSole(s);
      var f := FindOrCreate(s);
      PatchesSole(f.s);
      GetSole(f.s);
      StaysSoleIsSole(f.s, Get(f.s).s);
      DeploySole(Get(f.s).s);
    } else {
      UpdateSiteSole(s);
      ApiGetSole(s, id);
      StaysSoleIsSole(s, ApiGet(s, id).s);
      var u := if s.res.generation != s.res.status.observedGeneration then UpdateSite(s) else ApiGet(s, id);
      PatchesSole(u.s);
      DeploySole(u.s);
    }
  }

  lemma UpdateSiteSole(s: State)
    requires Sole(s)
    ensures Sole(UpdateSite(s).s) && UpdateSite(s).s.stored.spec.name == s.stored.spec.name
  {
    hide Sole, StaysSole, ApiRename;
    var id := s.res.status.siteID;
    ApiGetSole(s, id);
    var g := ApiGet(s, id);
    StaysSoleIsSole(s, g.s);
    ApiRenameSole(g.s, g.s.res.status.siteID);
    StaysSoleIsSole(g.s, ApiRename(g.s, g.s.res.status.siteID, g.s.res.spec.name).s);
  }

  /** The finalizer goes on before anything is created, and comes off only behind a deletion. */
  lemma SetFinalizerSole(s: State, present: bool)
    requires One(s) && KeepsNames(s.script, s.stored.spec.name) && s.res.spec.name == s.stored.spec.name
    requires present || s.stored.deleting
    ensures var f := SetFinalizer(s, present);
      && One(f.s) && f.s.stored.spec.name == s.stored.spec.name
      && (present && f.r.Ok? ==> Sole(f.s))
  {
    if !Halted(s) {
      var m := s.(script := s.script[1..]);
      assert KeepsName(s.script[0].env, s.stored.spec.name);
      EnvOne(m, s.script[0].env);
      assert forall i :: 0 <= i < |m.script| ==> m.script[i] == s.script[i + 1];
    }
    hide ApplyEnv;
  }

  lemma CleanupOne(s: State)
    requires Sole(s) && s.stored.deleting
    ensures One(Cleanup(s)) && Cleanup(s).stored.spec.name == s.stored.spec.name
  {
    hide One, KeepsNames, NoOurs, ApiDelete, SetFinalizer;
    SetFinalizerSole(s, false);
    var id := s.res.status.siteID;
    ApiDeleteSole(s, id);
    StaysSoleIsSole(s, ApiDelete(s, id).s);
    SetFinalizerSole(ApiDelete(s, id).s, false);
  }

  ghost predicate KeepsNameStep(step: Step, name: string) {
    match step
    case Act(env) => KeepsName(env, name)
    case Activate(script) => KeepsNames(script, name)
  }

  ghost predicate KeepsNameSteps(steps: seq<Step>, name: string) {
    forall i :: 0 <= i < |steps| ==> KeepsNameStep(steps[i], name)
  }

  lemma StepOne(s: State, step: Step)
    requires One(s) && KeepsNameStep(step, s.stored.spec.name)
    ensures One(Do(s, step)) && Do(s, step).stored.spec.name == s.stored.spec.name
  {
    hide One, KeepsNames, ReconcileLive, Cleanup, SetFinalizer, ApplyEnv, KeepsName;
    match step
    case Act(env) => EnvOne(s, env);
    case Activate(script) =>
      var t := s.(res := s.stored, script := script, crashed := false);
      assert One(t) by { StartOne(s, script); }
      if s.stored.Gone() {
      } else if s.stored.deleting {
        CleanupOne(t);
      } else if s.stored.finalizer {
        ReconcileLiveSole(t);
      } else {
        SetFinalizerSole(t, true);
        var f := SetFinalizer(t, true);
        if f.r.Ok? { ReconcileLiveSole(f.s); }
      }
  }

  lemma StartOne(s: State, script: seq<Event>)
    requires One(s)
    ensures One(s.(res := s.stored, script := script, crashed := false))
  {
  }

  lemma {:induction false} RunOne(trace: seq<State>, steps: seq<Step>, k: nat)
    requires IsRun(trace, steps) && k < |trace| && One(trace[0]) && KeepsNameSteps(steps, trace[0].stored.spec.name)
    ensures One(trace[k]) && trace[k].stored.spec.name == trace[0].stored.spec.name
  {
    hide One, Do, KeepsNameStep;
    if k > 0 {
      RunOne(trace, steps, k - 1);
      StepOne(trace[k - 1], steps[k - 1]);
    }
  }

  /** However often it is stopped, and whatever sites others add or delete, the reconciler never has
      two live sites of its own making, and has none at all before its finalizer is stored. */
  lemma AtMostOneSite(trace: seq<State>, steps: seq<Step>, t: State)
    requires IsRun(trace, steps) && t in trace && Init(trace[0]) && KeepsNameSteps(steps, trace[0].stored.spec.name)
    ensures forall a, b :: a in t.sites.live && b in t.sites.live && t.sites.live[a].ours && t.sites.live[b].ours ==> a == b
    ensures !t.stored.finalizer && !t.stored.deleting ==> NoOurs(t)
  {
    hide IsRun, KeepsNameSteps;
    var k :| 0 <= k < |trace| && trace[k] == t;
    RunOne(trace, steps, k);
  }

  // ---- Cleanup ----

  /** If an activation takes the finalizer off, the recorded site is gone; of the reconciler's own
      sites only those that were never recorded are left. */
  lemma CleanupRemovesTheSite(s: State, script: seq<Event>)
    requires Safe(s) && s.stored.deleting && s.stored.finalizer && !Reconcile(s, script).stored.finalizer
    ensures var t := Reconcile(s, script);
      && s.stored.status.siteID !in t.sites.live
      && forall id :: id in t.sites.live && t.sites.live[id].ours ==> id in s.sites.live && id != s.stored.status.siteID
  {
    hide ApiDelete, SetFinalizer, ReconcileLive, CredentialsAgree;
    var t := s.(res := s.stored, script := script, crashed := false);
    var id := s.stored.status.siteID;
    if id == 0 {
      FinalizerOffKeepsSites(t);
    } else {
      DeleteRemoves(t, id);
      FinalizerOffKeepsSites(ApiDelete(t, id).s);
    }
  }

  /** What others can do to the sites: delete some, add fresh ones that are not ours. */
  ghost predicate Thinned(s: State, t: State) {
    && s.sites.next <= t.sites.next
    && (forall id :: id in t.sites.live && id < s.sites.next ==> id in s.sites.live)
    && (forall id :: id in t.sites.live && t.sites.live[id].ours ==>
          id in s.sites.live && s.sites.live[id].ours && id < s.sites.next)
  }

  lemma EnvThins(s: State, env: Env)
    requires s.sites.Valid()
    ensures var t := ApplyEnv(s, env); t.sites.Valid() && Thinned(s, t) && t.stored.finalizer == s.stored.finalizer
  {
  }

  lemma FinalizerOffKeepsSites(s: State)
    requires s.sites.Valid()
    ensures Thinned(s, SetFinalizer(s, false).s)
  {
    if !Halted(s) { EnvThins(s.(script := s.script[1..]), s.script[0].env); }
    hide ApplyEnv;
  }

  lemma DeleteRemoves(s: State, id: nat)
    requires s.sites.Valid() && id < s.sites.next
    ensures var d := ApiDelete(s, id);
      && d.s.sites.Valid() && Thinned(s, d.s) && d.s.stored.finalizer == s.stored.finalizer
      && (d.r.Ok? || NotFound in d.r.kinds ==> id !in d.s.sites.live)
  {
    if !Halted(s) { EnvThins(s.(script := s.script[1..]), s.script[0].env); }
    hide ApplyEnv;
  }

  /** The request to delete the recorded row was acknowledged, or found nothing to delete. */
  predicate DeletionDone(s: State, e: Event) {
    e.reply.Served? || (e.reply.Lost? && s.stored.status.siteID !in ApplyEnv(s, e.env).sites.live)
  }

  lemma DeletionAnswer(s: State, id: nat)
    requires !Halted(s) && id == s.stored.status.siteID
    ensures var d := ApiDelete(s, id); var e := s.script[0];
      && (DeletionDone(s, e) <==> d.r.Ok? || NotFound in d.r.kinds)
      && d.s.stored == ApplyEnv(s, e.env).stored && d.s.res == s.res && d.s.script == s.script[1..] && d.s.crashed == s.crashed
  {
    OthersAct(s, s.(script := s.script[1..]), s.script[0].env);
    hide ApplyEnv;
  }

  /** What others do does not depend on the process. */
  lemma OthersAct(s: State, t: State, env: Env)
    requires t.stored == s.stored
    ensures ApplyEnv(t, env).stored == ApplyEnv(s, env).stored
    ensures ApplyEnv(t, env).res == t.res && ApplyEnv(t, env).script == t.script && ApplyEnv(t, env).crashed == t.crashed
    ensures t.sites == s.sites ==> ApplyEnv(t, env).sites.live == ApplyEnv(s, env).sites.live
    ensures s.stored.finalizer == ApplyEnv(s, env).stored.finalizer
  {
  }

  lemma FinalizerAnswer(s: State)
    requires s.stored.finalizer
    ensures var f := SetFinalizer(s, false);
      !f.s.stored.finalizer <==> !Halted(s) && !s.script[0].reply.Refused? && ApplyEnv(s, s.script[0].env).stored == s.res
  {
    if !Halted(s) {
      OthersAct(s, s.(script := s.script[1..]), s.script[0].env);
    }
    hide ApplyEnv;
  }

  /** With a row recorded the finalizer comes off exactly if the deletion is acknowledged or finds the
      row gone, nobody touches the object meanwhile, and the update that takes it off is done. */
  lemma FinalizerComesOff(s: State, script: seq<Event>)
    requires s.stored.deleting && s.stored.finalizer && s.stored.status.siteID != 0
    ensures !Reconcile(s, script).stored.finalizer <==>
      && 2 <= |script| && DeletionDone(s, script[0]) && !script[1].reply.Refused?
      && ApplyEnv(ApplyEnv(s, script[0].env), script[1].env).stored == s.stored
  {
    hide ReconcileLive, ApplyEnv, ApiDelete, SetFinalizer, DeletionDone;
    var m := s.(res := s.stored, script := script, crashed := false);
    if script == [] {
      HaltedDelete(m, s.stored.status.siteID);
    } else {
      OthersAct(s, m, script[0].env);
      DeletionAnswer(m, s.stored.status.siteID);
      SameAnswer(s, m, script[0]);
      var d := ApiDelete(m, s.stored.status.siteID).s;
      if 2 <= |script| { OthersAct(ApplyEnv(s, script[0].env), d, script[1].env); }
      FinalizerAnswer(d);
    }
  }

  lemma HaltedDelete(s: State, id: nat)
    requires Halted(s)
    ensures ApiDelete(s, id) == Outcome(Halt(s), Err({}))
  {
  }

  lemma SameAnswer(s: State, t: State, e: Event)
    requires t.stored == s.stored && t.sites == s.sites
    ensures DeletionDone(t, e) == DeletionDone(s, e)
  {
    OthersAct(s, t, e.env);
    hide ApplyEnv;
  }

  /** A deletion that fails with anything but a 404 keeps the finalizer, also if it was done and only
      the answer got lost. */
  lemma FailedDeleteKeepsFinalizer(s: State, script: seq<Event>)
    requires s.stored.deleting && s.stored.finalizer && s.stored.status.siteID != 0
    requires script != [] && !DeletionDone(s, script[0])
    ensures Reconcile(s, script).stored.finalizer
  {
    FinalizerComesOff(s, script);
    hide Reconcile, DeletionDone;
  }

  // ---- The finalizer in runs ----

  predicate SameFinalizer(s: State, t: State) {
    t.stored.finalizer == s.stored.finalizer
  }

  lemma AdvanceKeepsFinalizer(s: State)
    requires !Halted(s)
    ensures SameFinalizer(s, Advance(s))
  {
  }

  /** No single call but the update of the finalizer changes it. */
  lemma CallsKeepFinalizer(s: State)
    ensures SameFinalizer(s, Ask(s).s) && SameFinalizer(s, Get(s).s)
    ensures forall after :: SameFinalizer(s, Patch(s, after).s)
    ensures forall id :: SameFinalizer(s, ApiGet(s, id).s) && SameFinalizer(s, ApiDelete(s, id).s)
    ensures forall id, name :: SameFinalizer(s, ApiRename(s, id, name).s)
    ensures forall name, credentials :: SameFinalizer(s, ApiCreate(s, name, credentials).s)
  {
    if !Halted(s) { AdvanceKeepsFinalizer(s); }
    hide Advance, MergeStatus;
  }

  lemma WritesKeepFinalizer(s: State)
    ensures forall c :: SameFinalizer(s, WriteSecret(s, c).s)
    ensures forall name :: SameFinalizer(s, WriteDeployment(s, name).s)
  {
    CallsKeepFinalizer(s);
    CallsKeepFinalizer(Ask(s).s);
    hide Ask;
  }

  lemma RecordKeepsFinalizer(s: State, id: nat, after: Status)
    ensures SameFinalizer(s, Record(s, id, after).s)
  {
    CallsKeepFinalizer(s);
    CallsKeepFinalizer(Patch(s, after).s);
    hide Patch, ApiDelete;
  }

  lemma CreateKeepsFinalizer(s: State)
    ensures SameFinalizer(s, CreateLocal(s).s) && SameFinalizer(s, CreateNewt(s).s)
  {
    hide Ask, ApiCreate, Record, WriteSecret, Patch, ApiDelete, ApiGet, ApiRename, Get;
    CallsKeepFinalizer(s);
    var local := ApiCreate(s, s.res.spec.name, None);
    RecordKeepsFinalizer(local.s, local.id, local.s.res.status.(siteID := local.id));
    var d := Ask(s);
    if d.r.Ok? {
      CallsKeepFinalizer(d.s);
      var c := ApiCreate(d.s, d.s.res.spec.name, Some(DefaultsOf(s)));
      WritesKeepFinalizer(c.s);
      var w := WriteSecret(c.s, DefaultsOf(s)).s;
      RecordKeepsFinalizer(w, c.id, w.res.status.(siteID := c.id, secretName := SecretNameFor(w.res.name)));
    }
  }

  lemma FindOrCreateKeepsFinalizer(s: State)
    ensures SameFinalizer(s, FindOrCreate(s).s)
  {
    hide Ask, Patch, CreateLocal, CreateNewt, FindSite, Named, ApiDelete, ApiGet, ApiRename, ApiCreate, Get;
    CallsKeepFinalizer(s);
    var l := Ask(s).s;
    CallsKeepFinalizer(l);
    CreateKeepsFinalizer(Patch(l, l.res.status.(phase := Creating)).s);
  }

  lemma DeployKeepsFinalizer(s: State)
    ensures SameFinalizer(s, Deploy(s))
  {
    hide Ask, Patch, WriteDeployment, WriteSecret, ApiDelete, ApiGet, ApiRename, ApiCreate, Get, Probe;
    CallsKeepFinalizer(s);
    var a := Ask(s).s;
    CallsKeepFinalizer(a);
    WritesKeepFinalizer(a);
    var d := WriteDeployment(a, MountedSecret(a.res)).s;
    CallsKeepFinalizer(d);
    ProbeIsAsk(d);
    CallsKeepFinalizer(Probe(d).s);
  }

  lemma ReconcileLiveKeepsFinalizer(s: State)
    ensures SameFinalizer(s, ReconcileLive(s))
  {
    hide FindOrCreate, Patch, Get, Deploy, ApiGet, ApiRename, ApiDelete, ApiCreate, Ask;
    var id := s.res.status.siteID;
    CallsKeepFinalizer(s);
    FindOrCreateKeepsFinalizer(s);
    var f := FindOrCreate(s).s;
    CallsKeepFinalizer(f);
    DeployKeepsFinalizer(Get(f).s);
    var g := ApiGet(s, id).s;
    CallsKeepFinalizer(g);
    DeployKeepsFinalizer(g);
    var u := UpdateSite(s).s;
    CallsKeepFinalizer(u);
    DeployKeepsFinalizer(u);
  }

  /** The finalizer only comes off behind a deletion. */
  lemma OnlyDeletionTakesItOff(s: State, script: seq<Event>)
    requires s.stored.finalizer && !s.stored.deleting
    ensures Reconcile(s, script).stored.finalizer
  {
    ReconcileLiveKeepsFinalizer(s.(res := s.stored, script := script, crashed := false));
    hide ReconcileLive, SetFinalizer, Cleanup;
  }

  /** In every state of every run, whatever is edited, fails, stops or is created and deleted by others:
      an activation that takes the finalizer off finds the object being deleted and leaves its recorded
      site gone, and of the reconciler's own only those that were never recorded. */
  lemma FinalizerOffInRuns(trace: seq<State>, steps: seq<Step>, s: State, script: seq<Event>)
    requires IsRun(trace, steps) && s in trace && Init(trace[0]) && s.stored.finalizer
    ensures var t := Reconcile(s, script);
      !t.stored.finalizer ==>
        && s.stored.deleting && s.stored.status.siteID !in t.sites.live
        && forall id :: id in t.sites.live && t.sites.live[id].ours ==> id in s.sites.live && id != s.stored.status.siteID
  {
    hide IsRun, Reconcile, Agrees;
    var k :| 0 <= k < |trace| && trace[k] == s;
    InitIsSafe(trace[0]);
    RunAgrees(trace, steps, k);
    if !s.stored.deleting { OnlyDeletionTakesItOff(s, script); }
    else if !Reconcile(s, script).stored.finalizer { CleanupRemovesTheSite(s, script); }
  }

  // ---- Progress ----

  /** Nobody interferes and every call is answered. */
  ghost predicate Smooth(script: seq<Event>) {
    forall i :: 0 <= i < |script| ==> script[i].env.Calm? && script[i].reply.Served?
  }

  /** At least n more calls will be answered, and the process's copy is current. */
  ghost predicate Fuel(s: State, n: nat) {
    !s.crashed && n <= |s.script| && Smooth(s.script) && s.res == s.stored
  }

  lemma SmoothCall(s: State, n: nat)
    requires Fuel(s, n + 1)
    ensures !Halted(s) && s.script[0].reply.Served? && Advance(s) == s.(script := s.script[1..]) && Fuel(Advance(s), n)
  {
  }

  /** Nothing but the object's status may differ. */
  predicate SameBesidesStatus(s: State, t: State) {
    t.sites == s.sites && t.secret == s.secret && t.deployment == s.deployment && t.stored == s.stored.(status := t.stored.status)
  }

  lemma AskSmooth(s: State, n: nat)
    requires Fuel(s, n + 1)
    ensures Ask(s).r.Ok? && Fuel(Ask(s).s, n) && SameBesidesStatus(s, Ask(s).s) && Ask(s).s.stored == s.stored
  {
    SmoothCall(s, n);
  }

  lemma PatchSmooth(s: State, after: Status, n: nat)
    requires Fuel(s, n + 1)
    ensures var p := Patch(s, after);
      p.r.Ok? && Fuel(p.s, n) && SameBesidesStatus(s, p.s) && p.s.stored.status == after
  {
    SmoothCall(s, n);
  }

  lemma GetSmooth(s: State, n: nat)
    requires Fuel(s, n + 1)
    ensures Get(s).r.Ok? && Fuel(Get(s).s, n) && SameBesidesStatus(s, Get(s).s) && Get(s).s.stored == s.stored
  {
    SmoothCall(s, n);
  }

  lemma ApiGetSmooth(s: State, id: nat, n: nat)
    requires Fuel(s, n + 1)
    ensures var g := ApiGet(s, id);
      && g.r == (if id in s.sites.live then Ok else Err({NotFound}))
      && Fuel(g.s, n) && SameBesidesStatus(s, g.s) && g.s.stored == s.stored
  {
    SmoothCall(s, n);
  }

  /** The same sites, but one may have another name. */
  predicate Renamed(s: State, t: State, id: nat, name: string) {
    && id in s.sites.live && t.sites == s.sites.Put(id, s.sites.live[id].(name := name))
    && t.secret == s.secret && t.deployment == s.deployment && t.stored == s.stored
  }

  lemma UpdateSiteSmooth(s: State, n: nat)
    requires Fuel(s, n + 2)
    ensures var u := UpdateSite(s); var id := s.stored.status.siteID;
      && (id in s.sites.live ==> u.r.Ok? && Renamed(s, u.s, id, s.stored.spec.name))
      && (id !in s.sites.live ==> u.r == Err({NotFound}) && SameBesidesStatus(s, u.s) && u.s.stored == s.stored)
      && Fuel(u.s, n)
  {
    var id := s.stored.status.siteID;
    ApiGetSmooth(s, id, n + 1);
    SmoothCall(s, n + 1);
    var g := ApiGet(s, id);
    if id in s.sites.live {
      if s.sites.live[id].name == s.stored.spec.name {
        assert s.sites.Put(id, s.sites.live[id]) == s.sites;
      } else {
        SmoothCall(g.s, n);
      }
    }
    hide ApplyEnv;
  }

  lemma CreateSmooth(s: State, credentials: Option<Credentials>, n: nat)
    requires Fuel(s, n + 1) && s.sites.Valid()
    ensures var c := ApiCreate(s, s.res.spec.name, credentials);
      && c.r.Ok? && Fuel(c.s, n) && c.id != 0 && c.id !in s.sites.live && c.s.sites.Valid()
      && c.s.stored == s.stored && c.s.secret == s.secret && c.s.deployment == s.deployment
      && c.s.sites.live == s.sites.live[c.id := SiteRow(s.stored.spec.name, credentials, true)]
  {
    SmoothCall(s, n);
  }

  lemma WriteSecretSmooth(s: State, credentials: Credentials, n: nat)
    requires Fuel(s, n + 2)
    ensures var w := WriteSecret(s, credentials);
      && w.r.Ok? && Fuel(w.s, n) && w.s.secret == Some(credentials)
      && w.s.sites == s.sites && w.s.stored == s.stored && w.s.deployment == s.deployment
  {
    AskSmooth(s, n + 1);
    AskSmooth(Ask(s).s, n);
    assert !Halted(Ask(s).s) && Ask(s).s.script[0].reply.Served?;
    hide Ask;
  }

  lemma WriteDeploymentSmooth(s: State, name: string, n: nat)
    requires Fuel(s, n + 2)
    ensures var w := WriteDeployment(s, name);
      && w.r.Ok? && Fuel(w.s, n) && w.s.deployment == Some(name)
      && w.s.sites == s.sites && w.s.stored == s.stored && w.s.secret == s.secret
  {
    AskSmooth(s, n + 1);
    AskSmooth(Ask(s).s, n);
    assert !Halted(Ask(s).s) && Ask(s).s.script[0].reply.Served?;
    hide Ask;
  }

  predicate MarkedReady(o: Object) {
    && o.status.phase == Ready && o.status.observedGeneration == o.generation
    && o.status.condition == Condition(true, Reconciled, o.generation)
  }

  predicate HasTunnel(o: Object) {
    !o.spec.local && o.spec.managed
  }

  /** Deploying marks the object ready, mounts a Secret in a managed tunnel, reports the site online if
      the tunnel has a ready replica, and changes no claim. */
  ghost predicate Deployed(s: State, t: State)
    requires |s.script| >= 5
  {
    && MarkedReady(t.stored) && t.stored == s.stored.(status := t.stored.status) && SameClaim(t.stored.status, s.stored.status)
    && t.sites == s.sites && t.secret == s.secret
    && t.deployment == (if HasTunnel(s.stored) then Some(MountedSecret(s.stored)) else s.deployment)
    && t.stored.status.online == (HasTunnel(s.stored) && s.script[3].ready)
  }

  lemma DeploySmooth(s: State)
    requires Fuel(s, 5)
    ensures Deployed(s, Deploy(s))
  {
    hide Ask, Patch, WriteDeployment, Probe;
    if HasTunnel(s.stored) {
      AskSmooth(s, 4);
      var a := Ask(s);
      WriteDeploymentSmooth(a.s, MountedSecret(a.s.res), 2);
      var d := WriteDeployment(a.s, MountedSecret(a.s.res));
      assert d.s.script == s.script[3..] by { ThreeCalls(s, MountedSecret(a.s.res)); }
      ProbeSmooth(d.s, 1);
      FinishSmooth(Probe(d.s).s, Probe(d.s).online);
    } else {
      FinishSmooth(s, false);
    }
  }

  lemma ThreeCalls(s: State, name: string)
    requires Fuel(s, 5)
    ensures WriteDeployment(Ask(s).s, name).s.script == s.script[3..]
  {
    SmoothCall(s, 4);
    SmoothCall(Advance(s), 3);
    SmoothCall(Advance(Advance(s)), 2);
    hide Advance;
  }

  lemma ProbeSmooth(s: State, n: nat)
    requires Fuel(s, n + 1)
    ensures var p := Probe(s);
      Fuel(p.s, n) && SameBesidesStatus(s, p.s) && p.s.stored == s.stored && p.online == s.script[0].ready
  {
    SmoothCall(s, n);
  }

  lemma FinishSmooth(s: State, online: bool)
    requires Fuel(s, 1)
    ensures var t := Finish(s, online);
      MarkedReady(t.stored) && SameBesidesStatus(s, t) && SameClaim(t.stored.status, s.stored.status) && t.stored.status.online == online
  {
    PatchSmooth(s, Finished(s, online), 0);
    hide Patch;
  }

  /** A site with the wanted name, if one is live. */
  function Existing(s: State): Option<SiteItem> {
    FindSite(Named(s.sites.live, s.stored.spec.name, s.sites.next), s.stored.spec.name)
  }

  /** What finding or creating a site leaves behind: the existing one is linked and the Secret is
      left alone; a new one comes with its credentials in the Secret. */
  ghost predicate Linked(s: State, t: State) {
    var st := t.stored.status;
    && t.stored == s.stored.(status := st) && t.deployment == s.deployment
    && st.siteID != 0 && st.siteID in t.sites.live && t.sites.live[st.siteID].name == s.stored.spec.name
    && (Existing(s).Some? ==>
          st.siteID == Existing(s).value.id && t.sites == s.sites && t.secret == s.secret && st.secretName == s.stored.status.secretName)
    && (Existing(s).None? ==>
          && st.siteID !in s.sites.live && t.sites.live[st.siteID].ours
          && t.sites.live == s.sites.live[st.siteID := t.sites.live[st.siteID]])
    && (Existing(s).None? && s.stored.spec.local ==>
          t.sites.live[st.siteID].credentials.None? && t.secret == s.secret && st.secretName == s.stored.status.secretName)
    && (Existing(s).None? && !s.stored.spec.local ==>
          && t.secret.Some? && t.secret == t.sites.live[st.siteID].credentials && st.secretName == SecretNameFor(s.stored.name))
  }

  lemma CreateSiteSmooth(s: State, n: nat)
    requires Fuel(s, n + 6) && s.sites.Valid() && Existing(s).None?
    ensures var f := CreateSite(s); f.r.Ok? && Fuel(f.s, n) && Linked(s, f.s)
  {
    hide Patch, Ask, ApiCreate, WriteSecret, FindSite, Named;
    var creating := s.res.status.(phase := Creating);
    PatchSmooth(s, creating, n + 5);
    var p := Patch(s, creating);
    if s.stored.spec.local {
      FuelLess(p.s, n + 2, n + 5);
      CreateSmooth(p.s, None, n + 1);
      var c := ApiCreate(p.s, p.s.res.spec.name, None);
      PatchSmooth(c.s, c.s.res.status.(siteID := c.id), n);
    } else {
      AskSmooth(p.s, n + 4);
      var d := Ask(p.s);
      var credentials := DefaultsOf(p.s);
      CreateSmooth(d.s, Some(credentials), n + 3);
      var c := ApiCreate(d.s, d.s.res.spec.name, Some(credentials));
      WriteSecretSmooth(c.s, credentials, n + 1);
      var w := WriteSecret(c.s, credentials);
      PatchSmooth(w.s, w.s.res.status.(siteID := c.id, secretName := SecretNameFor(w.s.res.name)), n);
    }
  }

  lemma FuelLess(s: State, m: nat, n: nat)
    requires m <= n && Fuel(s, n)
    ensures Fuel(s, m)
  {
  }

  lemma FindOrCreateSmooth(s: State, n: nat)
    requires Fuel(s, n + 7) && s.sites.Valid()
    ensures var f := FindOrCreate(s); f.r.Ok? && Fuel(f.s, n) && Linked(s, f.s)
  {
    hide Patch, Ask, CreateSite;
    AskSmooth(s, n + 6);
    var l := Ask(s);
    if Existing(s).Some? {
      FuelLess(l.s, n + 1, n + 6);
      PatchSmooth(l.s, l.s.res.status.(siteID := Existing(s).value.id, phase := Creating), n);
    } else {
      CreateSiteSmooth(l.s, n);
    }
    hide FindSite, Named;
  }

  /** The tunnel of a managed site runs with the credentials of the recorded site. */
  ghost predicate TunnelWorks(s: State) {
    var st := s.stored.status;
    && s.deployment == Some(SecretNameFor(s.stored.name))
    && s.secret.Some? && st.siteID in s.sites.live && s.secret == s.sites.live[st.siteID].credentials
  }

  /** Without a recorded site, one undisturbed activation links or creates one and gets ready. The
      tunnel of a managed site then works exactly if the site was created just now, or the Secret
      already held the credentials of the site that was adopted. */
  lemma FirstActivation(s: State, script: seq<Event>)
    requires Safe(s) && !s.stored.deleting && s.stored.status.siteID == 0 && Smooth(script) && 14 <= |script|
    ensures var t := Reconcile(s, script); var id := t.stored.status.siteID;
      && MarkedReady(t.stored) && t.stored.spec == s.stored.spec && Safe(t) && !t.stored.deleting
      && id != 0 && id in t.sites.live && t.sites.live[id].name == s.stored.spec.name
      && (Existing(s).Some? ==> t.sites == s.sites && t.secret == s.secret && id == Existing(s).value.id)
      && (Existing(s).None? ==> id !in s.sites.live && t.sites.live == s.sites.live[id := t.sites.live[id]] && t.sites.live[id].ours)
      && (Existing(s).None? ==>
            if s.stored.spec.local then t.sites.live[id].credentials == None && t.secret == s.secret
            else t.secret.Some? && t.sites.live[id].credentials == t.secret && t.stored.status.secretName == s.stored.name + "-newt-credentials")
      && (HasTunnel(s.stored) ==>
            (TunnelWorks(t) <==>
             Existing(s).None? || (s.secret.Some? && s.secret == s.sites.live[Existing(s).value.id].credentials)))
  {
    hide SetFinalizer, FindOrCreate, Get, Deploy, FindSite, Named;
    StepAgrees(s, Activate(script));
    var t := s.(res := s.stored, script := script, crashed := false);
    var u := if s.stored.finalizer then t else SetFinalizer(t, true).s;
    assert Fuel(u, 13) && u.stored.finalizer && u.stored == s.stored.(finalizer := true)
        && u.sites == s.sites && u.secret == s.secret && (s.stored.finalizer || SetFinalizer(t, true).r.Ok?) by {
      SetFinalizerSmooth(t, 13);
    }
    FindOrCreateSmooth(u, 6);
    var f := FindOrCreate(u);
    GetSmooth(f.s, 5);
    DeploySmooth(Get(f.s).s);
  }

  lemma SetFinalizerSmooth(s: State, n: nat)
    requires Fuel(s, n + 1) && !s.stored.Gone()
    ensures var f := SetFinalizer(s, true);
      && f.r.Ok? && Fuel(f.s, n) && f.s.stored == s.stored.(finalizer := true)
      && f.s.sites == s.sites && f.s.secret == s.secret && f.s.deployment == s.deployment
  {
    SmoothCall(s, n);
  }

  /** With a recorded site, one undisturbed activation gets ready with that site if it is still
      there, under the name in the spec unless that was seen to already; otherwise it forgets the
      site. The tunnel of a managed site works exactly if the Secret has the site's credentials. */
  lemma NextActivation(s: State, script: seq<Event>)
    requires Safe(s) && !s.stored.deleting && s.stored.status.siteID != 0 && Smooth(script) && 8 <= |script|
    ensures var t := Reconcile(s, script); var id := s.stored.status.siteID;
      && Safe(t) && t.stored.spec == s.stored.spec && t.stored.finalizer && !t.stored.deleting && t.secret == s.secret
      && (id !in s.sites.live ==>
            t.sites == s.sites && t.stored == s.stored.(finalizer := true, status := Forgotten(s.stored.status)))
      && (id in s.sites.live ==>
            && MarkedReady(t.stored) && SameClaim(t.stored.status, s.stored.status)
            && t.sites == (if s.stored.generation == s.stored.status.observedGeneration then s.sites
                           else s.sites.Put(id, s.sites.live[id].(name := s.stored.spec.name)))
            && (HasTunnel(s.stored) ==>
                  (TunnelWorks(t) <==> s.secret.Some? && s.secret == s.sites.live[id].credentials)))
  {
    hide SetFinalizer, UpdateSite, ApiGet, Deploy, Patch;
    StepAgrees(s, Activate(script));
    var t := s.(res := s.stored, script := script, crashed := false);
    var u := if s.stored.finalizer then t else SetFinalizer(t, true).s;
    assert Fuel(u, 7) && u.stored.finalizer && u.stored == s.stored.(finalizer := true)
        && u.sites == s.sites && u.secret == s.secret && (s.stored.finalizer || SetFinalizer(t, true).r.Ok?) by {
      SetFinalizerSmooth(t, 7);
    }
    var id := s.stored.status.siteID;
    UpdateSiteSmooth(u, 5);
    FuelLess(u, 6, 7);
    ApiGetSmooth(u, id, 5);
    var v := if s.stored.generation != s.stored.status.observedGeneration then UpdateSite(u).s else ApiGet(u, id).s;
    if id in s.sites.live {
      DeploySmooth(v);
    } else {
      FuelLess(v, 1, 5);
      PatchSmooth(v, Forgotten(v.res.status), 0);
    }
  }

  /** From every state that any run can leave behind, two undisturbed activations are enough. */
  lemma TwoActivationsGetReady(s: State, first: seq<Event>, second: seq<Event>)
    requires Safe(s) && !s.stored.deleting && Smooth(first) && 14 <= |first| && Smooth(second) && 14 <= |second|
    ensures var t := Reconcile(Reconcile(s, first), second);
      MarkedReady(t.stored) && t.stored.spec == s.stored.spec && t.stored.status.siteID in t.sites.live
  {
    hide Reconcile, Safe;
    if s.stored.status.siteID == 0 {
      FirstActivation(s, first);
    } else {
      NextActivation(s, first);
    }
    var m := Reconcile(s, first);
    if m.stored.status.siteID == 0 {
      FirstActivation(m, second);
    } else {
      NextActivation(m, second);
    }
  }

  /** In every run, whatever state it has come to. */
  lemma EveryRunGetsReady(trace: seq<State>, steps: seq<Step>, k: nat)
    requires IsRun(trace, steps) && k + 1 < |steps| && Init(trace[0]) && !trace[k].stored.deleting
    requires steps[k].Activate? && Smooth(steps[k].script) && 14 <= |steps[k].script|
    requires steps[k + 1].Activate? && Smooth(steps[k + 1].script) && 14 <= |steps[k + 1].script|
    ensures MarkedReady(trace[k + 2].stored) && trace[k + 2].stored.status.siteID in trace[k + 2].sites.live
  {
    hide Init, Reconcile, Smooth;
    var j := k + 1;
    assert trace[k + 1] == Do(trace[k], steps[k]) && trace[j + 1] == Do(trace[j], steps[j]);
    RunAgrees(trace, steps, k) by { InitIsSafe(trace[0]); }
    hide Safe;
    TwoActivationsGetReady(trace[k], steps[k].script, steps[j].script);
  }

  lemma InitIsSafe(s: State)
    requires Init(s)
    ensures Safe(s)
  {
  }

  lemma OneCall(s: State, id: nat, n: nat)
    requires Fuel(s, n + 1)
    ensures ApiGet(s, id).s.script == s.script[1..]
  {
    SmoothCall(s, n);
  }

  /** And after that an undisturbed activation changes nothing at the server, in the Secret or in the
      object, except that it reports whether the managed tunnel is ready. */
  lemma ReadyStaysPut(s: State, script: seq<Event>)
    requires Safe(s) && !s.stored.deleting && s.stored.finalizer && MarkedReady(s.stored) && Smooth(script) && 8 <= |script|
    requires s.stored.status.siteID in s.sites.live
    ensures var t := Reconcile(s, script);
      && t.sites == s.sites && t.secret == s.secret
      && t.stored == s.stored.(status := s.stored.status.(online := HasTunnel(s.stored) && script[4].ready))
  {
    hide SetFinalizer, FindOrCreate, Get, UpdateSite, ApiGet, Deploy;
    NextActivation(s, script);
    var t := s.(res := s.stored, script := script, crashed := false);
    var id := s.stored.status.siteID;
    ApiGetSmooth(t, id, 7);
    FuelLess(ApiGet(t, id).s, 5, 7);
    OneCall(t, id, 7);
    DeploySmooth(ApiGet(t, id).s);
  }

  // ---- Where the protocol stops short ----

  /** How many IDs went to others before the last call's row was created. */
  function LastSkip(script: seq<Event>): nat {
    if script == [] || script[|script| - 1].reply.Refused? then 0 else script[|script| - 1].reply.skip
  }

  /** A site that is live but not recorded, as a process leaves it that stops right after creating it. */
  lemma StoppedAfterCreate(s: State, script: seq<Event>)
    requires Safe(s) && !s.stored.deleting && s.stored.finalizer && s.stored.status.siteID == 0 && Existing(s).None?
    requires Smooth(script) && |script| == if s.stored.spec.local then 3 else 4
    ensures var t := Reconcile(s, script);
      && t.stored == s.stored.(status := s.stored.status.(phase := Creating)) && t.secret == s.secret
      && t.sites == s.sites.Add(LastSkip(script),
           SiteRow(s.stored.spec.name, if s.stored.spec.local then None else Some(script[2].defaults), true))
  {
    var t := s.(res := s.stored, script := script, crashed := false);
    var n := |script| - 1;
    AskSmooth(t, n);
    var l := Ask(t).s;
    assert l == t.(script := script[1..]) by { SmoothCall(t, n); }
    var creating := l.res.status.(phase := Creating);
    PatchSmooth(l, creating, n - 1);
    var p := Patch(l, creating).s;
    assert p.script == script[2..] by { SmoothCall(l, n - 1); }
    if s.stored.spec.local {
      SmoothCall(p, 0);
    } else {
      AskSmooth(p, 1);
      assert Ask(p).s == p.(script := script[3..]) by { SmoothCall(p, 1); }
      SmoothCall(Ask(p).s, 0);
    }
    hide Ask, Patch, FindSite, Named, Advance;
  }

  /** The adopted site's credentials are lost: stopped between creating a site and writing its
      Secret, the reconciler later adopts the site and reports it ready, but its tunnel cannot work. */
  lemma AdoptionLosesCredentials(s: State, script: seq<Event>, again: seq<Event>)
    requires Safe(s) && !s.stored.deleting && s.stored.finalizer && s.stored.status.siteID == 0
    requires HasTunnel(s.stored) && Existing(s).None? && s.secret.None?
    requires Smooth(script) && |script| == 4 && Smooth(again) && 14 <= |again|
    ensures var t := Reconcile(Reconcile(s, script), again);
      MarkedReady(t.stored) && t.stored.status.siteID in t.sites.live && t.secret.None? && !TunnelWorks(t)
  {
    hide Reconcile, FindSite, Named, TunnelWorks, Safe;
    StepAgrees(s, Activate(script));
    StoppedAfterCreate(s, script);
    var m := Reconcile(s, script);
    FirstActivation(m, again);
    assert Existing(m).Some? by { UnlistedMeansNone(m, s.sites.next + LastSkip(script)); }
    assert TunnelWorks(Reconcile(m, again)) ==> false;
  }

  lemma UnlistedMeansNone(s: State, id: nat)
    requires id in s.sites.live && s.sites.live[id].name == s.stored.spec.name && id < s.sites.next
    ensures Existing(s).Some?
  {
    assert SiteItem(id, s.stored.spec.name) in Named(s.sites.live, s.stored.spec.name, s.sites.next);
    hide Named, FindSite;
  }

  // ---- Renaming ----

  lemma ExistingMeans(s: State)
    requires s.sites.Valid()
    ensures Existing(s).None? <==> forall id :: id in s.sites.live ==> s.sites.live[id].name != s.stored.spec.name
  {
    var items := Named(s.sites.live, s.stored.spec.name, s.sites.next);
    forall id | id in s.sites.live && s.sites.live[id].name == s.stored.spec.name ensures Existing(s).Some? { UnlistedMeansNone(s, id); }
    hide Named, FindSite;
  }

  /** An undisturbed activation creates a site exactly if none is recorded and none that is live has the
      name in the spec. */
  lemma CreatesExactly(s: State, script: seq<Event>)
    requires Safe(s) && !s.stored.deleting && Smooth(script) && 14 <= |script|
    ensures var t := Reconcile(s, script);
      (exists id :: id in t.sites.live && id !in s.sites.live) <==>
        s.stored.status.siteID == 0 && forall id :: id in s.sites.live ==> s.sites.live[id].name != s.stored.spec.name
  {
    hide Reconcile, FindSite, Named, TunnelWorks, CredentialsAgree, HasTunnel;
    ExistingMeans(s);
    if s.stored.status.siteID == 0 { FirstActivation(s, script); } else { NextActivation(s, script); }
  }

  predicate TwoOurs(s: State, a: nat, b: nat) {
    a != b && a in s.sites.live && b in s.sites.live && s.sites.live[a].ours && s.sites.live[b].ours
  }

  /** Why AtMostOneSite keeps the name: if the object is renamed while a created site is not yet recorded,
      the next activation creates a second one exactly if no live site has the new name. */
  lemma RenamingMakesTwo(s: State, script: seq<Event>, spec: Spec, again: seq<Event>)
    requires Safe(s) && !s.stored.deleting && s.stored.finalizer && s.stored.status.siteID == 0 && Existing(s).None?
    requires Smooth(script) && |script| == (if s.stored.spec.local then 3 else 4) && Smooth(again) && 14 <= |again|
    requires spec.name != s.stored.spec.name
    ensures var e := ApplyEnv(Reconcile(s, script), EditSpec(spec)); var t := Reconcile(e, again);
      && ((exists id :: id in t.sites.live && id !in e.sites.live) <==> NameFree(s, spec))
      && (NameFree(s, spec) ==> TwoOurs(t, s.sites.next + LastSkip(script), t.stored.status.siteID))
  {
    hide Reconcile, FindSite, Named, TunnelWorks, Agrees;
    StepAgrees(s, Activate(script));
    StoppedAfterCreate(s, script);
    var m := Reconcile(s, script);
    EnvAgrees(m, EditSpec(spec), m.stored.status);
    var e := ApplyEnv(m, EditSpec(spec));
    SafeValid(s);
    ExistingMeans(e) by { SafeValid(e); }
    var first := s.sites.next + LastSkip(script);
    assert e.stored.spec == spec && e.sites == m.sites && e.stored.status.siteID == 0;
    assert e.sites.live == s.sites.live[first := e.sites.live[first]] && e.sites.live[first].ours;
    assert first !in s.sites.live && e.sites.live[first].name == s.stored.spec.name;
    assert NameFree(e, spec) <==> NameFree(s, spec) by {
      forall id | id in s.sites.live ensures id in e.sites.live && e.sites.live[id] == s.sites.live[id] {}
    }
    CreatesExactly(e, again);
    if NameFree(s, spec) { FirstActivation(e, again); }
  }

  predicate NameFree(s: State, spec: Spec) {
    forall id :: id in s.sites.live ==> s.sites.live[id].name != spec.name
  }

  lemma SafeValid(s: State)
    requires Safe(s)
    ensures s.sites.Valid()
  {
  }

  const PLAIN := Event(Calm, Served(0), Credentials("", ""), true)

  function Plain(n: nat): (script: seq<Event>)
    ensures |script| == n && Smooth(script)
  {
    seq(n, _ => PLAIN)
  }

  /** An object that has its finalizer, or gets it in this step. */
  lemma FinalizerStep(s: State) returns (step: Step)
    requires !s.stored.deleting && s.stored.status.siteID == 0
    ensures step == Act(Calm) || step == Activate(Plain(1))
    ensures var t := Do(s, step); t.stored == s.stored.(finalizer := true) && t.sites == s.sites
  {
    if s.stored.finalizer {
      step := Act(Calm);
    } else {
      step := Activate(Plain(1));
      var m := s.(res := s.stored, script := Plain(1), crashed := false);
      SetFinalizerSmooth(m, 0);
      var f := SetFinalizer(m, true).s;
      assert f.script == [];
      hide CreateSite, FindSite, Named;
    }
  }

  /** From every initial state in which neither name is in use: an object that is renamed right after its
      site was created comes to have two. */
  lemma TwoInRuns(s: State, spec: Spec) returns (trace: seq<State>, steps: seq<Step>)
    requires Init(s) && !s.stored.deleting && spec.name != s.stored.spec.name
    requires forall id :: id in s.sites.live ==> s.sites.live[id].name !in {s.stored.spec.name, spec.name}
    ensures IsRun(trace, steps) && trace[0] == s
    ensures |steps| == 4 && steps[0] in {Act(Calm), Activate(Plain(1))} && steps[2] == Act(EditSpec(spec))
    ensures steps[1].Activate? && Smooth(steps[1].script) && steps[3].Activate? && Smooth(steps[3].script)
    ensures exists a, b :: TwoOurs(trace[4], a, b)
  {
    hide Reconcile, FindSite, Named, Agrees, Smooth, ApplyEnv;
    var step := FinalizerStep(s);
    var u := Do(s, step);
    InitIsSafe(s);
    StepAgrees(s, step);
    SafeValid(u);
    ExistingMeans(u);
    var cut, again := Plain(if s.stored.spec.local then 3 else 4), Plain(14);
    RenamingMakesTwo(u, cut, spec, again);
    var m := Reconcile(u, cut);
    var e := ApplyEnv(m, EditSpec(spec));
    var t := Reconcile(e, again);
    trace, steps := [s, u, m, e, t], [step, Activate(cut), Act(EditSpec(spec)), Activate(again)];
    assert NameFree(u, spec);
    assert TwoOurs(t, u.sites.next + LastSkip(cut), t.stored.status.siteID);
    assert trace[4] == t;
  }
}
