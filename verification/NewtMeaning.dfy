/** The names that a NewtSite's tunnel goes by, and what an activation reports when a call is refused. */
module NewtMeaning {
  import opened Shared
  import opened Server
  import opened NewtSite
  import opened NewtSafety
  import opened NewtRuns
  import opened NewtEdits

  // ---- The Secret ----

  /** The Secret that belongs to an object of that name. */
  function SecretText(name: string): string {
    name + "-newt-credentials"
  }

  /** In every state of every run a recorded Secret is the one that the object's name gives, and it is
      recorded only with a site. */
  lemma RecordedSecret(trace: seq<State>, steps: seq<Step>, t: State)
    requires IsRun(trace, steps) && t in trace && Init(trace[0])
    ensures var st := t.stored.status; st.secretName in {"", SecretText(t.stored.name)} && (st.siteID == 0 ==> st.secretName == "")
  {
    hide IsRun;
    var k :| 0 <= k < |trace| && trace[k] == t;
    RunAgrees(trace, steps, k);
  }

  /** A managed tunnel that is not local gets its deployment with the recorded Secret, or with that of its
      name, and no other object gets one. */
  lemma TunnelMounts(s: State)
    requires Fuel(s, 5)
    ensures var t, recorded := Deploy(s), s.stored.status.secretName;
      && t.deployment == (if s.stored.spec.managed && !s.stored.spec.local
                          then Some(if recorded != "" then recorded else SecretText(s.stored.name)) else s.deployment)
      && t.stored.status.online == (s.stored.spec.managed && !s.stored.spec.local && s.script[3].ready)
  {
    DeploySmooth(s);
    hide Deploy;
  }

  /** When the deployment cannot be read back the site is ready, and taken to be offline. */
  lemma UnreadIsOffline(s: State, event: Event)
    requires s.res == s.stored && !s.crashed && s.script == Plain(3) + [event, PLAIN] && s.stored.spec.managed && !s.stored.spec.local
    requires event.env.Calm? && !event.reply.Served?
    ensures var t := Deploy(s); MarkedReady(t.stored) && !t.stored.status.online
  {
    var tail := [event, PLAIN];
    assert Lead(s, 3, tail) by {
      assert s.script[3..] == tail;
      assert forall i :: 0 <= i < 3 ==> s.script[i] == Plain(3)[i];
    }
    hide WriteDeployment, Ask, MergeStatus;
    LeadAsk(s, 2, tail);
    var a := Ask(s).s;
    LeadCopy(s, 3, tail);
    LeadCopy(a, 2, tail);
    LeadDeployment(a, MountedSecret(a.res), 0, tail);
    var d := WriteDeployment(a, MountedSecret(a.res)).s;
    LeadCopy(d, 0, tail);
    assert d.script == tail by { LeadNow(d, tail); }
    var p := Probe(d);
    assert p.s.script == [PLAIN] && !p.online && p.s.res == p.s.stored;
    MergeAll(p.s.stored.status, Finished(p.s, false));
  }

  lemma LeadNow(s: State, tail: seq<Event>)
    requires Lead(s, 0, tail)
    ensures s.script == tail
  {
    assert s.script[0..] == s.script;
  }

  lemma LeadDeployment(s: State, name: string, n: nat, tail: seq<Event>)
    requires Lead(s, n + 2, tail)
    ensures var w := WriteDeployment(s, name); w.r.Ok? && Lead(w.s, n, tail) && w.s.stored == s.stored
  {
    LeadAsk(s, n + 1, tail);
    LeadCall(Ask(s).s, n, tail);
    LeadAsk(Ask(s).s, n, tail);
    hide Advance;
  }

  /** A new tunnel site and its Secret get the credentials that the server handed out for it. */
  lemma CredentialsAreTheServers(s: State, script: seq<Event>)
    requires Safe(s) && s.stored.finalizer && !s.stored.deleting && s.stored.status.siteID == 0 && !s.stored.spec.local
    requires Existing(s).None? && Smooth(script) && 14 <= |script|
    ensures var t := Reconcile(s, script); var id := t.stored.status.siteID;
      id in t.sites.live && t.sites.live[id].credentials == t.secret == Some(script[2].defaults)
  {
    hide Named, FindSite, Deploy, Patch, ApiCreate, WriteSecret, Ask, Get, CreateNewt;
    FirstActivation(s, script);
    var m := s.(res := s.stored, script := script, crashed := false);
    AskSmooth(m, 13);
    var l := Ask(m).s;
    ScriptAfter(m, m.res.status);
    var creating := l.res.status.(phase := Creating);
    PatchSmooth(l, creating, 12);
    ScriptAfter(l, creating);
    var p := Patch(l, creating).s;
    NewtGetsDefaults(p, 7);
    var f := CreateNewt(p);
    assert FindOrCreate(m) == f;
    GetSmooth(f.s, 6);
    FuelLess(Get(f.s).s, 5, 6);
    DeploySmooth(Get(f.s).s);
  }

  lemma ScriptAfter(s: State, after: Status)
    requires !Halted(s)
    ensures Ask(s).s.script == s.script[1..] && Patch(s, after).s.script == s.script[1..]
  {
  }

  lemma NewtGetsDefaults(s: State, n: nat)
    requires Fuel(s, n + 5) && s.sites.Valid()
    ensures var f := CreateNewt(s); f.r.Ok? && Fuel(f.s, n) && f.s.secret == Some(s.script[0].defaults)
  {
    hide Ask, ApiCreate, WriteSecret, Patch;
    AskSmooth(s, n + 4);
    var d, credentials := Ask(s).s, s.script[0].defaults;
    CreateSmooth(d, Some(credentials), n + 3);
    var c := ApiCreate(d, d.res.spec.name, Some(credentials));
    WriteSecretSmooth(c.s, credentials, n + 1);
    var w := WriteSecret(c.s, credentials).s;
    PatchSmooth(w, w.res.status.(siteID := c.id, secretName := SecretNameFor(w.res.name)), n);
  }

  // ---- Finding and naming ----

  /** Of a listing the first site of the name would be adopted. */
  lemma {:induction false} FindsFirst(items: seq<SiteItem>, name: string)
    ensures match FindSite(items, name)
      case None => forall item :: item in items ==> item.name != name
      case Some(m) => exists i :: 0 <= i < |items| && items[i] == m && m.name == name && forall j :: 0 <= j < i ==> items[j].name != name
  {
    if items != [] {
      var rest := items[1..];
      assert items == [items[0]] + rest;
      if items[0].name != name {
        FindsFirst(rest, name);
        if FindSite(rest, name).Some? {
          var i :| 0 <= i < |rest| && rest[i] == FindSite(rest, name).value && rest[i].name == name && forall j :: 0 <= j < i ==> rest[j].name != name;
          assert items[i + 1] == rest[i];
          forall j | 0 <= j < i + 1 ensures items[j].name != name { if j > 0 { assert items[j] == rest[j - 1]; } }
        }
      }
    }
  }

  lemma PlainCall(s: State, n: nat)
    requires s.script == Plain(n + 1) && !s.crashed
    ensures Advance(s) == s.(script := Plain(n))
  {
    assert Plain(n + 1)[1..] == Plain(n);
  }

  lemma PlainUpdate(s: State, n: nat)
    requires s.script == Plain(n + 2) && !s.crashed && s.res == s.stored && s.stored.status.siteID in s.sites.live
    ensures var u := UpdateSite(s); var id := s.stored.status.siteID;
      && u.r.Ok? && !u.s.crashed && u.s.stored == s.stored && u.s.res == s.stored
      && u.s.script == Plain(if s.sites.live[id].name == s.stored.spec.name then n + 1 else n)
  {
    hide Advance;
    PlainCall(s, n + 1);
    var g := ApiGet(s, s.stored.status.siteID).s;
    PlainCall(g, n);
  }

  lemma PlainFinish(s: State, n: nat)
    requires s.script == Plain(n) && !s.crashed && s.res == s.stored && s.stored.generation != s.stored.status.observedGeneration
    ensures MarkedReady(Finish(s, false).stored) <==> n > 0
  {
    hide Advance, MergeStatus;
    if n > 0 {
      PlainCall(s, n - 1);
      MergeAll(s.stored.status, Finished(s, false));
    }
  }

  lemma PlainActivation(s: State, n: nat)
    requires s.stored.finalizer && !s.stored.deleting && s.stored.status.siteID != 0 && s.stored.status.siteID in s.sites.live
    requires s.stored.generation != s.stored.status.observedGeneration && !(s.stored.spec.managed && !s.stored.spec.local)
    ensures MarkedReady(Reconcile(s, Plain(n + 2)).stored) <==> n > 0 || s.sites.live[s.stored.status.siteID].name == s.stored.spec.name
  {
    hide UpdateSite, Finish, MarkedReady;
    var m := s.(res := s.stored, script := Plain(n + 2), crashed := false);
    PlainUpdate(m, n);
    PlainFinish(UpdateSite(m).s, if s.sites.live[s.stored.status.siteID].name == s.stored.spec.name then n + 1 else n);
  }

  /** A site that has its name already is not renamed: reading it and marking the object are the only calls
      for an object without a tunnel, and one more renames it. */
  lemma RenamesOnlyIfNeeded(s: State)
    requires s.stored.finalizer && !s.stored.deleting && s.stored.status.siteID != 0 && s.stored.status.siteID in s.sites.live
    requires s.stored.generation != s.stored.status.observedGeneration && !(s.stored.spec.managed && !s.stored.spec.local)
    ensures MarkedReady(Reconcile(s, Plain(2)).stored) <==> s.sites.live[s.stored.status.siteID].name == s.stored.spec.name
    ensures MarkedReady(Reconcile(s, Plain(3)).stored)
  {
    hide Reconcile, MarkedReady, Plain;
    PlainActivation(s, 0);
    PlainActivation(s, 1);
  }

  function RefusedRecord(f: Fault): seq<Event> {
    [PLAIN.(reply := Refused(f)), PLAIN, PLAIN]
  }

  /** Nothing live at the server has changed, and the report of the failure says so. */
  predicate Undone(s: State, r: Outcome) {
    var t := Patch(r.s, Unready(r.s, Erroneous)).s;
    && r.r == Err({}) && t.sites.live == s.sites.live
    && t.stored == s.stored.(status := s.stored.status.(phase := Creating, condition := Condition(false, Erroneous, s.stored.generation)))
  }

  lemma LocalUndone(s: State, f: Fault)
    requires Lead(s, 1, RefusedRecord(f)) && s.sites.Valid() && s.stored.status.phase == Creating
    ensures Undone(s, CreateLocal(s))
  {
    hide Patch, ApiCreate, Record, Lead, RefusedRecord;
    var tail := RefusedRecord(f);
    LeadCopy(s, 1, tail);
    LeadCreate(s, s.res.spec.name, None, 0, tail);
    OneSiteMore(s, s.res.spec.name, None, 0, tail);
    var c := ApiCreate(s, s.res.spec.name, None);
    LeadCopy(c.s, 0, tail);
    RollsBack(c.s, c.id, c.s.res.status.(siteID := c.id), f);
  }

  lemma NewtUndone(s: State, f: Fault)
    requires Lead(s, 4, RefusedRecord(f)) && s.sites.Valid() && s.stored.status.phase == Creating
    ensures Undone(s, CreateNewt(s))
  {
    hide Patch, Ask, ApiCreate, WriteSecret, Record, Lead, RefusedRecord;
    var tail := RefusedRecord(f);
    LeadCopy(s, 4, tail);
    LeadAsk(s, 3, tail);
    var d := Ask(s).s;
    LeadCopy(d, 3, tail);
    var credentials := DefaultsOf(s);
    LeadCreate(d, d.res.spec.name, Some(credentials), 2, tail);
    OneSiteMore(d, d.res.spec.name, Some(credentials), 2, tail);
    var c := ApiCreate(d, d.res.spec.name, Some(credentials));
    LeadSecret(c.s, credentials, 0, tail);
    var w := WriteSecret(c.s, credentials).s;
    LeadCopy(w, 0, tail);
    RollsBack(w, c.id, w.res.status.(siteID := c.id, secretName := SecretNameFor(w.res.name)), f);
  }

  /** A new site that cannot be recorded is deleted again. */
  lemma UnrecordedIsRolledBack(s: State, f: Fault)
    requires Safe(s) && s.stored.finalizer && !s.stored.deleting && s.stored.status.siteID == 0 && Existing(s).None?
    ensures var t := Reconcile(s, Plain(if s.stored.spec.local then 3 else 6) + RefusedRecord(f));
      && t.sites.live == s.sites.live
      && t.stored == s.stored.(status := s.stored.status.(phase := Creating, condition := Condition(false, Erroneous, s.stored.generation)))
  {
    hide Patch, Ask, CreateLocal, CreateNewt, Lead, FindSite, Named, RefusedRecord;
    var tail := RefusedRecord(f);
    var n := if s.stored.spec.local then 3 else 6;
    var m := s.(res := s.stored, script := Plain(n) + tail, crashed := false);
    PlainLeads(s, n, tail);
    LeadAsk(m, n - 1, tail);
    LeadCopy(m, n, tail);
    var l := Ask(m).s;
    LeadCopy(l, n - 1, tail);
    var creating := l.res.status.(phase := Creating);
    LeadPatch(l, creating, n - 2, tail);
    var p := Patch(l, creating).s;
    LeadCopy(p, n - 2, tail);
    if s.stored.spec.local { LocalUndone(p, f); } else { NewtUndone(p, f); }
    assert FindOrCreate(m) == (if s.stored.spec.local then CreateLocal(p) else CreateNewt(p));
  }

  lemma PlainLeads(s: State, n: nat, tail: seq<Event>)
    ensures Lead(s.(res := s.stored, script := Plain(n) + tail, crashed := false), n, tail)
  {
    var script := Plain(n) + tail;
    assert forall i :: 0 <= i < n ==> script[i] == Plain(n)[i];
    assert script[n..] == tail;
  }

  lemma OneSiteMore(s: State, name: string, credentials: Option<Credentials>, n: nat, tail: seq<Event>)
    requires Lead(s, n + 1, tail) && s.sites.Valid()
    ensures var c := ApiCreate(s, name, credentials); c.id !in s.sites.live && c.s.sites.live == s.sites.live[c.id := c.s.sites.live[c.id]]
  {
    LeadCall(s, n, tail);
  }

  lemma RollsBack(s: State, id: nat, after: Status, f: Fault)
    requires Lead(s, 0, RefusedRecord(f)) && id in s.sites.live
    requires after == s.stored.status.(siteID := after.siteID, secretName := after.secretName)
    ensures var r := Record(s, id, after); var t := Patch(r.s, Unready(r.s, Erroneous)).s;
      && r.r == Err({}) && t.sites.live == s.sites.live - {id}
      && t.stored == s.stored.(status := s.stored.status.(condition := Condition(false, Erroneous, s.stored.generation)))
  {
    LeadNow(s, RefusedRecord(f));
    var r := Record(s, id, after).s;
    assert r.script == [PLAIN] && r.stored == s.stored && r.res.generation == s.stored.generation;
  }

  // ---- When a call is refused ----

  function Refusing(f: Fault): seq<Event> {
    [PLAIN.(reply := Refused(f)), PLAIN]
  }

  /** Looking for the site is refused: nothing changes but the status, where a bad request is final and
      anything else an error. */
  lemma ListingRefused(s: State, f: Fault)
    requires s.stored.finalizer && !s.stored.deleting && s.stored.status.siteID == 0
    ensures var t := Reconcile(s, Refusing(f));
      && t.sites == s.sites && t.secret == s.secret && t.deployment == s.deployment
      && t.stored == s.stored.(status := s.stored.status.(
           phase := if f == BadRequest then Failed else s.stored.status.phase,
           condition := Condition(false, if f == BadRequest then PermanentError else Erroneous, s.stored.generation)))
  {
    hide Named, FindSite, CreateSite, Deploy, MergeStatus;
    var m := s.(res := s.stored, script := Refusing(f), crashed := false);
    var l := ApiList(m, s.stored.spec.name);
    assert l.r == Err({f}) && l.s.script == [PLAIN];
    MergeAll(l.s.res.status, Unready(l.s, PermanentError).(phase := Failed));
    MergeAll(l.s.res.status, Unready(l.s, Erroneous));
  }

  /** Reading the recorded site is refused: an object that has to be brought up to date is in error, and
      one that was up to date stays as it is. */
  lemma ReadingRefused(s: State, f: Fault)
    requires s.stored.finalizer && !s.stored.deleting && s.stored.status.siteID != 0
    ensures var t := Reconcile(s, Refusing(f));
      && t.sites == s.sites && t.secret == s.secret && t.deployment == s.deployment
      && t.stored == (if s.stored.generation == s.stored.status.observedGeneration then s.stored
                      else s.stored.(status := s.stored.status.(condition := Condition(false, Erroneous, s.stored.generation))))
  {
    hide Deploy, MergeStatus, ApiRename;
    var m := s.(res := s.stored, script := Refusing(f), crashed := false);
    var g := ApiGet(m, s.stored.status.siteID);
    assert g.r == Err({f}) && g.s.script == [PLAIN];
    MergeAll(g.s.res.status, Unready(g.s, Erroneous));
  }

  /** The object is in error, and nothing else about its status has changed. */
  predicate InError(s: State, t: State) {
    t.stored == s.stored.(status := s.stored.status.(condition := Condition(false, Erroneous, s.stored.generation)))
  }

  lemma ErrorReported(s: State)
    requires s.script == [PLAIN] && !s.crashed && s.res == s.stored
    ensures var t := Patch(s, Unready(s, Erroneous)).s; InError(s, t) && t.sites == s.sites && t.secret == s.secret
  {
    MergeAll(s.stored.status, Unready(s, Erroneous));
    hide MergeStatus;
  }

  /** A tunnel whose service account or deployment cannot be written is in error, and its generation does
      not count as observed. */
  lemma DeploymentFails(s: State, n: nat, event: Event)
    requires s.res == s.stored && !s.crashed && n in {0, 2} && s.script == Plain(n) + [event, PLAIN]
    requires s.stored.spec.managed && !s.stored.spec.local && event.env.Calm? && !event.reply.Served?
    ensures InError(s, Deploy(s)) && Deploy(s).sites == s.sites
  {
    var tail := [event, PLAIN];
    assert s.script[n..] == tail && forall i :: 0 <= i < n ==> s.script[i] == Plain(n)[i];
    assert Lead(s, n, tail);
    hide Patch, Advance;
    if n == 0 {
      LeadNow(s, tail);
      FailedAsk(s, event);
      ErrorReported(Ask(s).s);
    } else {
      LeadAsk(s, 1, tail);
      var a := Ask(s).s;
      LeadAsk(a, 0, tail);
      var g := Ask(a).s;
      LeadNow(g, tail);
      FailedAsk(g, event);
      LeadCopy(a, 1, tail);
      LeadCopy(g, 0, tail);
      ErrorReported(WriteDeployment(a, MountedSecret(a.res)).s);
    }
  }

  lemma FailedAsk(s: State, event: Event)
    requires s.script == [event, PLAIN] && !s.crashed && event.env.Calm? && !event.reply.Served?
    ensures Ask(s).r.Err? && Ask(s).s == s.(script := [PLAIN])
  {
  }

  /** When its Secret cannot be written, or that is not known, a new site is not recorded; it stays at the
      server, under its name. */
  lemma UnwrittenSecretLeavesSite(s: State, event: Event)
    requires Safe(s) && s.stored.finalizer && !s.stored.deleting && s.stored.status.siteID == 0 && !s.stored.spec.local && Existing(s).None?
    requires event.env.Calm? && !event.reply.Served?
    ensures var t := Reconcile(s, Plain(5) + [event, PLAIN]);
      && t.stored == s.stored.(status := s.stored.status.(phase := Creating, condition := Condition(false, Erroneous, s.stored.generation)))
      && exists id :: id !in s.sites.live && id in t.sites.live && t.sites.live[id].name == s.stored.spec.name && t.sites.live[id].ours
  {
    hide Patch, Ask, ApiCreate, WriteSecret, Lead, FindSite, Named, CreateNewt;
    var tail := [event, PLAIN];
    var m := s.(res := s.stored, script := Plain(5) + tail, crashed := false);
    PlainLeads(s, 5, tail);
    LeadAsk(m, 4, tail);
    LeadCopy(m, 5, tail);
    var l := Ask(m).s;
    LeadCopy(l, 4, tail);
    var creating := l.res.status.(phase := Creating);
    LeadPatch(l, creating, 3, tail);
    var p := Patch(l, creating).s;
    LeadCopy(p, 3, tail);
    SecretFails(p, event);
    var c := CreateNewt(p);
    ErrorReported(c.s);
    assert FindOrCreate(m) == c;
  }

  lemma SecretFails(s: State, event: Event)
    requires Lead(s, 3, [event, PLAIN]) && s.sites.Valid() && event.env.Calm? && !event.reply.Served?
    ensures var c := CreateNewt(s);
      && c.r == Err({}) && c.s.script == [PLAIN] && !c.s.crashed && c.s.stored == s.stored && c.s.res == s.res
      && exists id :: id !in s.sites.live && id in c.s.sites.live && c.s.sites.live[id].name == s.stored.spec.name && c.s.sites.live[id].ours
  {
    hide Ask, ApiCreate, Record;
    var tail := [event, PLAIN];
    LeadCopy(s, 3, tail);
    LeadAsk(s, 2, tail);
    var d := Ask(s).s;
    LeadCopy(d, 2, tail);
    var credentials := DefaultsOf(s);
    LeadCreate(d, d.res.spec.name, Some(credentials), 1, tail);
    OneSiteMore(d, d.res.spec.name, Some(credentials), 1, tail);
    CreatedIsOurs(d, d.res.spec.name, Some(credentials));
    var c := ApiCreate(d, d.res.spec.name, Some(credentials));
    LeadAsk(c.s, 0, tail);
    var g := Ask(c.s).s;
    LeadNow(g, tail);
    LeadCopy(c.s, 1, tail);
    LeadCopy(g, 0, tail);
    FailedAsk(g, event);
    assert c.id !in s.sites.live && c.id in WriteSecret(c.s, credentials).s.sites.live;
  }

  lemma CreatedIsOurs(s: State, name: string, credentials: Option<Credentials>)
    ensures var c := ApiCreate(s, name, credentials); c.r.Ok? ==> c.s.sites.live[c.id].ours
  {
    hide Advance;
  }

  // ---- With nothing recorded ----

  /** The cleanup of an object without a site takes the finalizer off with one call. */
  lemma NothingToDelete(s: State)
    requires s.stored.deleting && s.stored.finalizer && s.stored.status.siteID == 0
    ensures var t := Reconcile(s, Plain(1)); t.stored == s.stored.(finalizer := false) && t.sites == s.sites
  {
  }
}
