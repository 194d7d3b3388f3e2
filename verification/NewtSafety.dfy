/** What every run of the NewtSite reconciler keeps: the Secret agrees with the recorded site, at
    most one site is created, and the finalizer guards it. */
module NewtSafety {
  import opened Shared
  import opened Server
  import opened NewtSite

  // ---- Credentials ----

  /** The recorded site, while it lives, was created with the credentials in the Secret. */
  ghost predicate CredentialsAgree(s: State, st: Status) {
    st.secretName != "" && st.siteID in s.sites.live ==>
      s.secret.Some? && s.secret == s.sites.live[st.siteID].credentials
  }

  /** What must hold if the stored status were st. */
  ghost predicate Agrees(s: State, st: Status) {
    && s.sites.Valid()
    && st.siteID < s.sites.next
    && (st.siteID == 0 ==> st.secretName == "")
    && (st.secretName == "" || st.secretName == SecretNameFor(s.stored.name))
    && CredentialsAgree(s, st)
  }

  ghost predicate Safe(s: State) {
    Agrees(s, s.stored.status)
  }

  /** The process's copy has the stored status. */
  predicate Synced(s: State) {
    s.res.status == s.stored.status && s.res.name == s.stored.name
  }

  /** Everything but the process's own copy, script and life is the same. */
  predicate SameStores(s: State, t: State) {
    t.sites == s.sites && t.secret == s.secret && t.stored.name == s.stored.name
  }

  lemma SameStoresAgree(s: State, t: State, st: Status)
    requires Agrees(s, st) && SameStores(s, t)
    ensures Agrees(t, st)
  {
  }

  /** Whatever others do to the sites or the object, a claim that held still holds. */
  lemma EnvAgrees(s: State, env: Env, st: Status)
    requires Agrees(s, st)
    ensures var t := ApplyEnv(s, env);
      && Agrees(t, st) && t.res == s.res && t.crashed == s.crashed && t.secret == s.secret
      && t.stored.status == s.stored.status && t.stored.name == s.stored.name && s.sites.next <= t.sites.next
  {
  }

  lemma AdvanceAgrees(s: State, st: Status)
    requires Agrees(s, st) && !Halted(s)
    ensures var t := Advance(s);
      && Agrees(t, st) && t.res == s.res && t.crashed == s.crashed && t.secret == s.secret
      && t.stored.status == s.stored.status && t.stored.name == s.stored.name && s.sites.next <= t.sites.next
  {
    hide ApplyEnv;
    var m := s.(script := s.script[1..]);
    SameStoresAgree(s, m, st);
    EnvAgrees(m, s.script[0].env, st);
    hide Agrees;
  }

  lemma AskAgrees(s: State, st: Status)
    requires Agrees(s, st)
    ensures var a := Ask(s);
      && Agrees(a.s, st) && a.s.res == s.res && a.s.secret == s.secret && (a.r.Ok? ==> !Halted(s))
      && a.s.stored.status == s.stored.status && a.s.stored.name == s.stored.name
  {
    hide Agrees, Advance;
    if Halted(s) { SameStoresAgree(s, Halt(s), st); } else { AdvanceAgrees(s, st); }
  }

  /** A patch leaves the stored status as it was or as the process wants it. */
  lemma PatchAgrees(s: State, after: Status)
    requires Safe(s) && Synced(s) && Agrees(s, after)
    ensures var p := Patch(s, after);
      && Safe(p.s) && p.s.secret == s.secret
      && (p.r.Ok? ==> p.s.stored.status == after && p.s.res == p.s.stored && !p.s.crashed)
      && (p.s.stored.status == s.stored.status || Agrees(p.s, after))
  {
    hide Agrees, Advance;
    if Halted(s) {
      SameStoresAgree(s, Halt(s), s.stored.status);
    } else {
      AdvanceAgrees(s, s.stored.status);
      AdvanceAgrees(s, after);
      assert MergeStatus(s.stored.status, s.stored.status, after) == after;
      var t := Advance(s);
      SameStoresAgree(t, Patch(s, after).s, s.stored.status);
      SameStoresAgree(t, Patch(s, after).s, after);
    }
  }

  predicate SameClaim(a: Status, b: Status) {
    a.siteID == b.siteID && a.secretName == b.secretName
  }

  /** Phase, generation and condition can be patched whatever the process has in memory. */
  lemma ReportAgrees(s: State, after: Status)
    requires Safe(s) && SameClaim(after, s.res.status)
    ensures Safe(Patch(s, after).s)
  {
    hide Advance;
    if Halted(s) {
      SameStoresAgree(s, Halt(s), s.stored.status);
    } else {
      AdvanceAgrees(s, s.stored.status);
    }
  }

  lemma GetAgrees(s: State)
    requires Safe(s)
    ensures Safe(Get(s).s) && (Get(s).r.Ok? ==> Synced(Get(s).s))
  {
    hide Agrees, Advance;
    if Halted(s) {
      SameStoresAgree(s, Halt(s), s.stored.status);
    } else {
      AdvanceAgrees(s, s.stored.status);
      SameStoresAgree(Advance(s), Get(s).s, s.stored.status);
    }
  }

  lemma SetFinalizerAgrees(s: State, present: bool)
    requires Safe(s) && Synced(s)
    ensures var f := SetFinalizer(s, present); Safe(f.s) && (f.r.Ok? ==> Synced(f.s))
  {
    hide Agrees, Advance;
    if Halted(s) {
      SameStoresAgree(s, Halt(s), s.stored.status);
    } else {
      AdvanceAgrees(s, s.stored.status);
      SameStoresAgree(Advance(s), SetFinalizer(s, present).s, s.stored.status);
    }
  }

  /** A new site cannot be the recorded one. */
  lemma ApiCreateAgrees(s: State, name: string, credentials: Option<Credentials>)
    requires Safe(s)
    ensures var c := ApiCreate(s, name, credentials);
      && Safe(c.s) && c.s.res == s.res && c.s.secret == s.secret
      && c.s.stored.status == s.stored.status && c.s.stored.name == s.stored.name
      && (c.r.Ok? ==> && 0 < c.id < c.s.sites.next
                      && c.id in c.s.sites.live && c.s.sites.live[c.id].credentials == credentials)
  {
    hide Advance;
    if !Halted(s) { AdvanceAgrees(s, s.stored.status); }
  }

  lemma ApiDeleteAgrees(s: State, id: nat)
    requires Safe(s)
    ensures Safe(ApiDelete(s, id).s) && ApiDelete(s, id).s.stored.status == s.stored.status
    ensures ApiDelete(s, id).s.res == s.res && ApiDelete(s, id).s.stored.name == s.stored.name
  {
    hide Advance;
    if !Halted(s) { AdvanceAgrees(s, s.stored.status); }
  }

  lemma ApiGetAgrees(s: State, id: nat)
    requires Safe(s)
    ensures var g := ApiGet(s, id);
      && Safe(g.s) && g.s.res == s.res && g.s.stored.status == s.stored.status && g.s.stored.name == s.stored.name
  {
    hide Advance;
    if !Halted(s) { AdvanceAgrees(s, s.stored.status); }
  }

  lemma ApiRenameAgrees(s: State, id: nat, name: string)
    requires Safe(s)
    ensures var g := ApiRename(s, id, name);
      && Safe(g.s) && g.s.res == s.res && g.s.stored.status == s.stored.status && g.s.stored.name == s.stored.name
  {
    hide Advance;
    if !Halted(s) { AdvanceAgrees(s, s.stored.status); }
  }

  lemma WriteDeploymentAgrees(s: State, name: string)
    requires Safe(s)
    ensures var d := WriteDeployment(s, name);
      && Safe(d.s) && d.s.res == s.res && d.s.stored.status == s.stored.status && d.s.stored.name == s.stored.name
  {
    hide Agrees, Ask;
    AskAgrees(s, s.stored.status);
    var g := Ask(s);
    AskAgrees(g.s, s.stored.status);
    SameStoresAgree(Ask(g.s).s, Ask(g.s).s.(deployment := Some(name)), s.stored.status);
  }

  /** The Secret is only written while no site is recorded, so no claim can break; and afterwards
      the new site can be claimed. */
  lemma WriteSecretAgrees(s: State, credentials: Credentials, id: nat)
    requires Safe(s) && s.stored.status.siteID == 0 && 0 < id < s.sites.next
    requires id in s.sites.live ==> s.sites.live[id].credentials == Some(credentials)
    ensures var w := WriteSecret(s, credentials);
      && Safe(w.s) && w.s.res == s.res && w.s.stored.status == s.stored.status && w.s.stored.name == s.stored.name
      && (w.r.Ok? ==> Agrees(w.s, w.s.stored.status.(siteID := id, secretName := SecretNameFor(s.stored.name))))
  {
    hide Ask;
    var plain := s.stored.status.(siteID := id, secretName := "");
    AskAgrees(s, s.stored.status);
    AskTable(s, id);
    var g := Ask(s);
    AskAgrees(g.s, s.stored.status);
    AskTable(g.s, id);
  }

  /** A call to another store leaves a row alone or lets others delete it; IDs are not reused. */
  lemma AskTable(s: State, id: nat)
    requires id < s.sites.next
    ensures var t := Ask(s).s;
      id < t.sites.next && (id in t.sites.live ==> id in s.sites.live && t.sites.live[id] == s.sites.live[id])
  {
  }

  // ---- The pieces of an activation ----

  lemma RecordAgrees(s: State, id: nat, after: Status)
    requires Safe(s) && Synced(s) && Agrees(s, after)
    ensures Safe(Record(s, id, after).s)
  {
    hide Agrees, Patch, ApiDelete;
    PatchAgrees(s, after);
    ApiDeleteAgrees(Patch(s, after).s, id);
  }

  lemma CreateLocalAgrees(s: State)
    requires Safe(s) && Synced(s) && s.stored.status.siteID == 0
    ensures Safe(CreateLocal(s).s)
  {
    hide ApiCreate, Record;
    ApiCreateAgrees(s, s.res.spec.name, None);
    var c := ApiCreate(s, s.res.spec.name, None);
    if c.r.Ok? {
      RecordAgrees(c.s, c.id, c.s.res.status.(siteID := c.id));
    }
  }

  lemma CreateNewtAgrees(s: State)
    requires Safe(s) && Synced(s) && s.stored.status.siteID == 0
    ensures Safe(CreateNewt(s).s)
  {
    hide Agrees, Ask, ApiCreate, WriteSecret, Record;
    AskAgrees(s, s.stored.status);
    var d := Ask(s);
    if d.r.Ok? {
      var credentials := s.script[0].defaults;
      ApiCreateAgrees(d.s, d.s.res.spec.name, Some(credentials));
      var c := ApiCreate(d.s, d.s.res.spec.name, Some(credentials));
      if c.r.Ok? {
        WriteSecretAgrees(c.s, credentials, c.id);
        var w := WriteSecret(c.s, credentials);
        if w.r.Ok? {
          RecordAgrees(w.s, c.id, w.s.res.status.(siteID := c.id, secretName := SecretNameFor(w.s.res.name)));
        }
      }
    }
  }

  /** Phase changes leave all claims as they are. */
  lemma PhaseAgrees(s: State, st: Status, phase: Phase)
    requires Agrees(s, st)
    ensures Agrees(s, st.(phase := phase))
  {
  }

  lemma AdoptableAgrees(s: State, id: nat)
    requires Safe(s) && s.stored.status.siteID == 0 && id in s.sites.live
    ensures Agrees(s, s.stored.status.(siteID := id, phase := Creating))
  {
  }

  lemma FindOrCreateAgrees(s: State)
    requires Safe(s) && Synced(s) && s.stored.status.siteID == 0
    ensures Safe(FindOrCreate(s).s)
  {
    hide Agrees, Ask, Named, FindSite, Patch, CreateLocal, CreateNewt;
    AskAgrees(s, s.stored.status);
    var l := ApiList(s, s.res.spec.name);
    if l.r.Ok? {
      var m := FindSite(l.items, l.s.res.spec.name);
      if m.Some? {
        AdoptableAgrees(l.s, m.value.id);
        PatchAgrees(l.s, l.s.res.status.(siteID := m.value.id, phase := Creating));
      } else {
        PhaseAgrees(l.s, l.s.stored.status, Creating);
        PatchAgrees(l.s, l.s.res.status.(phase := Creating));
        var p := Patch(l.s, l.s.res.status.(phase := Creating));
        if p.r.Ok? {
          if p.s.res.spec.local { CreateLocalAgrees(p.s); } else { CreateNewtAgrees(p.s); }
        }
      }
    }
  }

  lemma DeployAgrees(s: State)
    requires Safe(s)
    ensures Safe(Deploy(s))
  {
    hide Agrees, Ask, Patch, WriteDeployment, Probe;
    AskAgrees(s, s.stored.status);
    var a := Ask(s);
    WriteDeploymentAgrees(a.s, MountedSecret(a.s.res));
    var d := WriteDeployment(a.s, MountedSecret(a.s.res));
    ReportAgrees(a.s, Unready(a.s, Erroneous));
    ReportAgrees(d.s, Unready(d.s, Erroneous));
    ProbeIsAsk(d.s);
    AskAgrees(d.s, d.s.stored.status);
    FinishAgrees(Probe(d.s).s, Probe(d.s).online);
    FinishAgrees(s, false);
  }

  /** A probe changes what any call that only reads does. */
  lemma ProbeIsAsk(s: State)
    ensures Probe(s).s == Ask(s).s
  {
  }

  lemma FinishAgrees(s: State, online: bool)
    requires Safe(s)
    ensures Safe(Finish(s, online))
  {
    hide Safe, Patch;
    ReportAgrees(s, Finished(s, online));
  }

  lemma FirstTimeAgrees(s: State)
    requires Safe(s) && Synced(s) && s.stored.status.siteID == 0
    ensures Safe(FirstTime(s))
  {
    hide Safe, FindOrCreate, Patch, Get, Deploy;
    FindOrCreateAgrees(s);
    var f := FindOrCreate(s);
    ReportAgrees(f.s, Unready(f.s, PermanentError).(phase := Failed));
    ReportAgrees(f.s, Unready(f.s, Erroneous));
    GetAgrees(f.s);
    DeployAgrees(Get(f.s).s);
  }

  /** Forgetting a site that is gone claims nothing. */
  lemma ForgetAgrees(s: State)
    requires Safe(s) && Synced(s)
    ensures Safe(Patch(s, Forgotten(s.res.status)).s)
  {
    PatchAgrees(s, Forgotten(s.res.status));
    hide Patch;
  }

  lemma UpdateSiteAgrees(s: State)
    requires Safe(s) && Synced(s)
    ensures var u := UpdateSite(s); Safe(u.s) && u.s.res == s.res && u.s.stored.status == s.stored.status && u.s.stored.name == s.stored.name
  {
    hide Safe, ApiRename;
    var id := s.res.status.siteID;
    ApiGetAgrees(s, id);
    var g := ApiGet(s, id);
    ApiRenameAgrees(g.s, g.s.res.status.siteID, g.s.res.spec.name);
  }

  lemma ReconcileLiveAgrees(s: State)
    requires Safe(s) && Synced(s)
    ensures Safe(ReconcileLive(s))
  {
    hide Safe, FirstTime, UpdateSite, ApiGet, Deploy, Patch;
    var id := s.res.status.siteID;
    if id == 0 {
      FirstTimeAgrees(s);
    } else {
      UpdateSiteAgrees(s);
      ApiGetAgrees(s, id);
      var u := if s.res.generation != s.res.status.observedGeneration then UpdateSite(s) else ApiGet(s, id);
      DeployAgrees(u.s);
      ForgetAgrees(u.s);
      ReportAgrees(u.s, Unready(u.s, Erroneous));
    }
  }

  lemma CleanupAgrees(s: State)
    requires Safe(s) && Synced(s)
    ensures Safe(Cleanup(s))
  {
    hide Safe, ApiDelete, SetFinalizer;
    var id := s.res.status.siteID;
    SetFinalizerAgrees(s, false);
    ApiDeleteAgrees(s, id);
    SetFinalizerAgrees(ApiDelete(s, id).s, false);
  }

  lemma StepAgrees(s: State, step: Step)
    requires Safe(s)
    ensures Safe(Do(s, step))
  {
    hide ReconcileLive, Cleanup, SetFinalizer, Agrees;
    match step
    case Act(env) => EnvAgrees(s, env, s.stored.status);
    case Activate(script) =>
      var t := s.(res := s.stored, script := script, crashed := false);
      SameStoresAgree(s, t, s.stored.status);
      CleanupAgrees(t);
      ReconcileLiveAgrees(t);
      SetFinalizerAgrees(t, true);
      var f := SetFinalizer(t, true);
      if f.r.Ok? { ReconcileLiveAgrees(f.s); }
  }

  ghost predicate Init(s: State) {
    && s.sites.Valid() && s.stored.status == NEW_STATUS
    && forall id :: id in s.sites.live ==> !s.sites.live[id].ours
  }

  lemma {:induction false} RunAgrees(trace: seq<State>, steps: seq<Step>, k: nat)
    requires IsRun(trace, steps) && k < |trace| && Safe(trace[0])
    ensures Safe(trace[k])
  {
    hide Safe, Do;
    if k > 0 {
      RunAgrees(trace, steps, k - 1);
      StepAgrees(trace[k - 1], steps[k - 1]);
    }
  }

  /** In every state of every run, whatever fails, stops, is edited, or is created and deleted by
      others: a recorded Secret name means that the Secret holds what the recorded site was created with. */
  lemma SecretMatchesSite(trace: seq<State>, steps: seq<Step>, t: State)
    requires IsRun(trace, steps) && t in trace && Init(trace[0])
    ensures CredentialsAgree(t, t.stored.status)
  {
    hide IsRun;
    var k :| 0 <= k < |trace| && trace[k] == t;
    RunAgrees(trace, steps, k);
  }
}
