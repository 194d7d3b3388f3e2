/** What a PrivateResource comes to at the server, field by field, and what an activation does when it
    cannot do its work. */
module PrivateMeaning {
  import opened Shared
  import opened Domains
  import opened Server
  import opened PrivateResource
  import opened PrivateRuns
  import opened PrivateConvergence
  import opened PrivateEdits

  // ---- The fields of a row ----

  /** The domain of an HTTP resource can be found. */
  predicate Addressable(s: State) {
    s.stored.spec.mode == "http" ==> s.stored.spec.fullDomain != "" && Resolve(s.domains, s.stored.spec.fullDomain).Resolved?
  }

  /** The text is the one that is asked for, if any is. */
  predicate Says(text: string, asked: string) {
    asked != "" ==> text == asked
  }

  /** The row has what the spec sets, and the access lists in any case. What the spec leaves empty, false
      or absent, and what is not of its mode, may be anything. */
  predicate RowServes(s: State, row: Row) {
    var spec := s.stored.spec;
    && Says(row.name, spec.name) && Says(row.mode, spec.mode) && Says(row.destination, spec.destination) && Says(row.alias, spec.alias)
    && row.access == spec.access && (spec.disableIcmp ==> row.disableIcmp) && (s.siteID != 0 ==> row.siteID == s.siteID)
    && (spec.mode == "http" ==>
          && (var r := Resolve(s.domains, spec.fullDomain); r.Resolved? && row.fullDomain == Compose(s.domains, r.id, r.subdomain))
          && Says(row.scheme, spec.scheme) && (spec.port != 0 ==> row.port == spec.port) && (spec.ssl.Some? ==> row.ssl == spec.ssl))
    && (spec.mode != "http" ==> Says(row.tcpPorts, spec.tcpPorts) && Says(row.udpPorts, spec.udpPorts))
  }

  /** The row is what the spec says in every field, with nothing in those of the other mode. */
  predicate RowIs(s: State, row: Row) {
    var spec := s.stored.spec; var http := spec.mode == "http";
    && RowServes(s, row) && row.ours
    && row.name == spec.name && row.mode == spec.mode && row.destination == spec.destination && row.alias == spec.alias
    && row.siteID == s.siteID && row.disableIcmp == spec.disableIcmp
    && (http ==> row.scheme == spec.scheme && row.port == spec.port && row.ssl == spec.ssl && row.tcpPorts == row.udpPorts == "")
    && (!http ==> row.tcpPorts == spec.tcpPorts && row.udpPorts == spec.udpPorts && row.fullDomain == row.scheme == "" && row.port == 0 && row.ssl == None)
  }

  lemma AddressMeans(s: State)
    ensures AddressOf(s).Some? <==> Addressable(s)
    ensures AddressOf(s).Some? ==>
      if s.stored.spec.mode == "http"
      then var r := Resolve(s.domains, s.stored.spec.fullDomain); r.Resolved? && AddressOf(s).value == Address(r.id, r.subdomain)
      else AddressOf(s).value == NoAddress
  {
    hide Resolve;
  }

  /** Being in place is having what the spec sets. */
  lemma InPlaceMeans(s: State, id: nat)
    ensures InPlace(s, id) <==> Addressable(s) && id in s.rows.live && RowServes(s, s.rows.live[id])
  {
    AddressMeans(s);
    hide Resolve, Compose;
  }

  lemma NewRowMeans(s: State, row: Row)
    requires AddressOf(s).Some?
    ensures row == NewRow(s, s.stored.spec, AddressOf(s).value) <==> RowIs(s, row)
  {
    AddressMeans(s);
    hide Resolve, Compose;
  }

  // ---- The resource of an object ----

  /** What the spec is about: by name and mode, and by its domain, or by destination and site. */
  predicate IsAbout(item: Item, spec: Spec, siteID: nat) {
    && item.name == spec.name && item.mode == spec.mode
    && (spec.mode == "http" ==> spec.fullDomain != "" && item.fullDomain == spec.fullDomain)
    && (spec.mode != "http" ==> item.destination == spec.destination && item.siteID == siteID)
  }

  predicate About(s: State, row: Row) {
    IsAbout(Item(0, row.name, row.mode, row.destination, row.siteID, row.fullDomain), s.stored.spec, s.siteID)
  }

  /** Of a listing the first item that the spec is about would be adopted. */
  lemma {:induction false} FindsFirst(items: seq<Item>, spec: Spec, siteID: nat)
    ensures match FindSiteResource(items, spec, siteID)
      case None => forall item :: item in items ==> !IsAbout(item, spec, siteID)
      case Some(m) => exists i :: 0 <= i < |items| && items[i] == m && IsAbout(m, spec, siteID) && forall j :: 0 <= j < i ==> !IsAbout(items[j], spec, siteID)
  {
    if items != [] {
      var rest := items[1..];
      assert items == [items[0]] + rest;
      if !IsAbout(items[0], spec, siteID) {
        FindsFirst(rest, spec, siteID);
        if FindSiteResource(rest, spec, siteID).Some? {
          var i :| 0 <= i < |rest| && rest[i] == FindSiteResource(rest, spec, siteID).value && IsAbout(rest[i], spec, siteID)
            && forall j :: 0 <= j < i ==> !IsAbout(rest[j], spec, siteID);
          assert items[i + 1] == rest[i];
          forall j | 0 <= j < i + 1 ensures !IsAbout(items[j], spec, siteID) { if j > 0 { assert items[j] == rest[j - 1]; } }
        }
      }
    }
  }

  /** A resource would be adopted exactly if a live one is what the spec is about, and then such a one is. */
  lemma ExistingMeans(s: State)
    requires s.rows.Valid()
    ensures Existing(s).Some? <==> exists id :: id in s.rows.live && About(s, s.rows.live[id])
    ensures Existing(s).Some? ==> var id := Existing(s).value.id; id in s.rows.live && About(s, s.rows.live[id])
  {
    var spec, live := s.stored.spec, s.rows.live;
    var items := Named(live, spec.name, s.rows.next);
    forall id | id in live ensures IsMatch(ItemOf(id, live[id]), spec, s.siteID) <==> About(s, live[id]) {}
    forall id | id in live && About(s, live[id]) ensures ItemOf(id, live[id]) in items {}
    if exists id :: id in live && About(s, live[id]) {
      var id :| id in live && About(s, live[id]);
      assert IsMatch(ItemOf(id, live[id]), spec, s.siteID);
    }
    hide Named, FindSiteResource, IsMatch, About;
  }

  /** What one undisturbed activation comes to: the recorded resource if it is live under its name, or
      else one that the spec is about, or else a new one; the new one is what the spec says in every
      field, and the others have what it sets, unless the current generation had been seen to before. */
  lemma ActivationServes(s: State, script: seq<Event>)
    requires Recorded(s) && !s.stored.deleting && s.siteReady && Addressable(s) && Smooth(script) && 10 <= |script|
    ensures var t := Reconcile(s, script); var id := t.stored.status.id;
      var kept := s.stored.status.id != 0 && s.stored.status.id in s.rows.live && s.rows.live[s.stored.status.id].name == s.stored.spec.name;
      && MarkedReady(t.stored) && t.stored.spec == s.stored.spec && id in t.rows.live
      && (kept ==> id == s.stored.status.id)
      && (!kept && (exists i :: i in s.rows.live && About(s, s.rows.live[i])) ==> id in s.rows.live && About(s, s.rows.live[id]))
      && (!kept && !(exists i :: i in s.rows.live && About(s, s.rows.live[i])) ==> id !in s.rows.live && RowIs(s, t.rows.live[id]))
      && (!(kept && s.stored.generation == s.stored.status.observedGeneration) ==> RowServes(s, t.rows.live[id]))
      && (forall i :: i in s.rows.live && i != id ==> i in t.rows.live && t.rows.live[i] == s.rows.live[i])
  {
    AddressMeans(s);
    OneActivationGetsReady(s, script);
    ExistingMeans(s);
    var t := Reconcile(s, script);
    var id := t.stored.status.id;
    NewRowMeans(s, t.rows.live[id]);
    InPlaceMeans(t, id);
    SameServes(s, t, t.rows.live[id]);
    hide Reconcile, Smooth, InPlace, RowServes, RowIs, NewRow, Existing, About, Resolve;
  }

  lemma SameServes(s: State, t: State, row: Row)
    requires t.stored.spec == s.stored.spec && t.domains == s.domains && t.siteID == s.siteID
    ensures RowServes(t, row) == RowServes(s, row)
  {
    hide Resolve, Compose;
  }

  /** So Ready is honest about what is there: in every run in which nobody else deletes rows and edits
      during an activation are seen, a status that observes the current generation means that the recorded
      resource is live and has what the spec sets. */
  lemma ReadyMeansServed(trace: seq<State>, steps: seq<Step>, t: State)
    requires IsRun(trace, steps) && t in trace && Init(trace[0]) && AllSeen(trace, steps)
    requires trace[0].stored.generation >= 1 && trace[0].stored.spec.name != ""
    requires t.stored.status.observedGeneration == t.stored.generation
    ensures var id := t.stored.status.id; id in t.rows.live && RowServes(t, t.rows.live[id])
  {
    ReadyIsHonest(trace, steps, t);
    InPlaceMeans(t, t.stored.status.id);
    hide IsRun, Init, AllSeen, InPlace, RowServes, Addressable;
  }

  // ---- While the site is not ready ----

  /** What others make of a state, one event after the other. */
  function Disturbed(s: State, events: seq<Event>): State
    decreases |events|
  {
    if events == [] then s else Disturbed(ApplyEnv(s, events[0].env), events[1..])
  }

  /** What a served report makes of the status. */
  function Waiting(s: State): Status {
    s.stored.status.(condition := Condition(false, Pending, s.stored.generation))
  }

  /** The finalizer is in place when the status is to be patched. */
  predicate FinalizerGoesOn(s: State, script: seq<Event>) {
    script != [] && script[0].reply.Served? && ApplyEnv(s, script[0].env).stored == s.stored
  }

  /** Without a ready site the reconciler waits: under any script it makes no more calls than those for
      its own object, the rows are what others make of them, and it reports Pending and nothing else,
      exactly if that patch is done. */
  lemma UnreadySiteWaits(s: State, script: seq<Event>)
    requires !s.siteReady && !s.stored.deleting
    ensures var t := Reconcile(s, script); var calls := |script| - |t.script|;
      && 0 <= calls <= (if s.stored.finalizer then 1 else 2) && t.script == script[calls..] && t.rows == Disturbed(s, script[..calls]).rows
      && t.stored.status == (
           if s.stored.finalizer then (if script != [] && !script[0].reply.Refused? then Waiting(s) else s.stored.status)
           else if FinalizerGoesOn(s, script) && |script| > 1 && !script[1].reply.Refused? then Waiting(s) else s.stored.status)
  {
    hide ReconcileLive, SetFinalizer, ApplyEnv;
    var m := s.(res := s.stored, script := script, crashed := false);
    if script != [] { assert script[..1] == [script[0]]; }
    if s.stored.finalizer {
      WaitsNow(s, m);
    } else {
      FinalizerNow(s, m);
      var f := SetFinalizer(m, true);
      if f.r.Ok? {
        var u := ApplyEnv(s, script[0].env);
        WaitsNow(u, f.s);
        if |script| > 1 {
          TwoEvents(s, script[..2]);
          assert script[1..][1..] == script[2..];
        }
      }
    }
  }

  lemma TwoEvents(s: State, events: seq<Event>)
    requires |events| == 2
    ensures Disturbed(s, events) == Disturbed(ApplyEnv(s, events[0].env), [events[1]])
  {
    assert events[1..] == [events[1]];
  }

  /** The report, when the copy is what is stored. */
  lemma WaitsNow(s: State, m: State)
    requires !m.siteReady && m.res == m.stored && !m.crashed && m.rows == s.rows
    ensures var t := ReconcileLive(m);
      if m.script == [] then t.script == [] && t.rows == s.rows && t.stored == m.stored
      else t.script == m.script[1..] && t.rows == Disturbed(s, [m.script[0]]).rows
           && t.stored.status == if m.script[0].reply.Refused? then m.stored.status else Waiting(m)
  {
    hide ApplyEnv, MergeStatus, ReconcileReady;
    if m.script != [] {
      CallAct(s, m);
      PrivateEdits.MergeAll(m.stored.status, Waiting(m));
    }
  }

  lemma FinalizerNow(s: State, m: State)
    requires m.res == m.stored == s.stored && !m.crashed && m.rows == s.rows && !m.stored.deleting
    ensures var f := SetFinalizer(m, true);
      if m.script == [] then f.r.Err? && f.s.script == [] && f.s.rows == s.rows && f.s.stored == m.stored
      else
        && f.s.script == m.script[1..] && f.s.rows == ApplyEnv(s, m.script[0].env).rows && f.s.rows == Disturbed(s, [m.script[0]]).rows
        && f.s.stored.status == s.stored.status && (f.r.Ok? <==> FinalizerGoesOn(s, m.script))
        && (f.r.Ok? ==> f.s.res == f.s.stored == s.stored.(finalizer := true) && !f.s.crashed && f.s.siteReady == m.siteReady)
  {
    hide ApplyEnv;
    if m.script != [] { CallAct(s, m); }
  }

  /** A call of a process that stands where s does. */
  lemma CallAct(s: State, m: State)
    requires !Halted(m) && m.rows == s.rows
    ensures var t, u := Advance(m), ApplyEnv(s, m.script[0].env);
      && t.rows == u.rows && t.stored.status == m.stored.status && t.res == m.res && t.script == m.script[1..] && t.siteReady == m.siteReady
      && t.crashed == m.crashed && (m.stored == s.stored ==> t.stored == u.stored)
    ensures Disturbed(s, [m.script[0]]) == ApplyEnv(s, m.script[0].env)
  {
    assert [m.script[0]][1..] == [];
  }

  // ---- When a call is refused ----

  /** A bad request is final, anything else is an error. */
  function Verdict(s: State, f: Fault, phase: Phase): Status {
    s.stored.status.(
      phase := if f == BadRequest then Failed else phase,
      condition := Condition(false, if f == BadRequest then PermanentError else Erroneous, s.stored.generation))
  }

  function Refusing(f: Fault): seq<Event> {
    [Event(Calm, Refused(f)), CALM]
  }

  /** Nothing keeps an activation from doing its work. */
  predicate Eligible(s: State) {
    s.stored.finalizer && !s.stored.deleting && s.siteReady && Addressable(s)
  }

  lemma RefusingLeads(s: State, n: nat, f: Fault)
    ensures Lead(s.(res := s.stored, script := seq(n, _ => CALM) + Refusing(f), crashed := false), n, Refusing(f))
  {
    assert (seq(n, _ => CALM) + Refusing(f))[n..] == Refusing(f);
  }

  lemma RefusedCalls(s: State, f: Fault)
    requires Lead(s, 0, Refusing(f))
    ensures Ask(s).r == Err({f}) && AfterRefusal(s, Ask(s).s)
    ensures forall spec, address :: ApiCreate(s, spec, address).r == Err({f}) && AfterRefusal(s, ApiCreate(s, spec, address).s)
    ensures forall id, spec, address :: ApiUpdate(s, id, spec, address).r == Err({f}) && AfterRefusal(s, ApiUpdate(s, id, spec, address).s)
  {
    assert s.script == Refusing(f) by { assert s.script[0..] == s.script; }
    hide NewRow, Updated;
  }

  predicate AfterRefusal(s: State, t: State) {
    t == s.(script := [CALM])
  }

  lemma Reported(s: State, after: Status)
    requires s.script == [CALM] && !s.crashed && s.res == s.stored
    ensures var t := Patch(s, after).s; t.rows == s.rows && t.stored == s.stored.(status := after)
  {
    PrivateEdits.MergeAll(s.stored.status, after);
    hide MergeStatus;
  }

  /** The listing is refused: the rows stay, and the status says why. */
  lemma ListingRefused(s: State, f: Fault)
    requires Eligible(s)
    ensures var t := Reconcile(s, Refusing(f)); t.rows == s.rows && t.stored == s.stored.(status := Verdict(s, f, s.stored.status.phase))
  {
    hide Patch, Named, FindSiteResource, Create, UpdateAndFinish, Lists, Lead, Refusing, Addressable, Ask;
    var script := Refusing(f);
    RefusingLeads(s, 0, f);
    assert seq(0, _ => CALM) + Refusing(f) == script;
    var m := s.(res := s.stored, script := script, crashed := false);
    LeadCopy(m, 0, script);
    RefusedCalls(m, f);
    var l := Ask(m);
    Reported(l.s, Verdict(s, f, s.stored.status.phase));
  }

  /** The creation is refused: the rows stay, and the status says why. */
  lemma CreationRefused(s: State, f: Fault)
    requires Eligible(s) && s.rows.Valid() && forall id :: id in s.rows.live ==> !About(s, s.rows.live[id])
    requires var id := s.stored.status.id; id == 0 || id !in s.rows.live || s.rows.live[id].name != s.stored.spec.name
    ensures var t := Reconcile(s, seq(CallsBefore(s.stored.spec) - 1, _ => CALM) + Refusing(f));
      t.rows == s.rows && t.stored == s.stored.(status := Verdict(s, f, Creating))
  {
    hide Patch, Named, FindSiteResource, ApiList, FindAddress, ApiCreate, UpdateAndFinish, Lists, Lead, Refusing, Resolve, About, CallsBefore;
    var spec, tail := s.stored.spec, Refusing(f);
    var dom := if spec.mode == HTTP_MODE then 1 else 0;
    CallsAre(spec);
    var script := seq(CallsBefore(spec) - 1, _ => CALM) + tail;
    RefusingLeads(s, CallsBefore(spec) - 1, f);
    var m := s.(res := s.stored, script := script, crashed := false);
    LeadList(m, 1 + dom, tail);
    var l := ApiList(m, spec.name);
    ExistingMeans(s);
    if s.stored.status.id != 0 { FoundIsListed(s); }
    LeadCopy(l.s, 1 + dom, tail);
    var creating := s.stored.status.(phase := Creating);
    LeadPatch(l.s, creating, dom, tail);
    var p := Patch(l.s, creating).s;
    LeadCopy(p, dom, tail);
    AddressMeans(s);
    SameAddress(s, p);
    LeadAddress(p, 0, tail);
    var a := FindAddress(p);
    LeadCopy(a.s, 0, tail);
    RefusedCalls(a.s, f);
    var c := ApiCreate(a.s, spec, a.address);
    LeadRuns(a.s, tail);
    assert Create(l.s) == Outcome(c.s, c.r);
    Reported(c.s, Verdict(s, f, Creating));
    assert EnsureExists(m) == Ensured(c.s, c.r, false);
  }

  lemma LeadRuns(s: State, tail: seq<Event>)
    requires Lead(s, 0, tail)
    ensures !s.crashed
  {
  }

  // ---- What is undone ----

  /** A new resource that cannot be recorded is deleted again. */
  lemma UnrecordedIsRolledBack(s: State, f: Fault)
    requires Eligible(s) && s.rows.Valid() && forall id :: id in s.rows.live ==> !About(s, s.rows.live[id])
    requires var id := s.stored.status.id; id == 0 || id !in s.rows.live || s.rows.live[id].name != s.stored.spec.name
    ensures var t := Reconcile(s, seq(CallsBefore(s.stored.spec), _ => CALM) + [Event(Calm, Refused(f)), CALM, CALM]);
      && t.rows.live == s.rows.live
      && t.stored == s.stored.(status := s.stored.status.(phase := Creating, condition := Condition(false, Erroneous, s.stored.generation)))
  {
    hide Patch, Named, FindSiteResource, ApiList, FindAddress, ApiCreate, UpdateAndFinish, Lists, Lead, Resolve, About, CallsBefore, Record, NewRow;
    var spec, tail := s.stored.spec, [Event(Calm, Refused(f)), CALM, CALM];
    var dom := if spec.mode == HTTP_MODE then 1 else 0;
    CallsAre(spec);
    var script := seq(CallsBefore(spec), _ => CALM) + tail;
    var m := s.(res := s.stored, script := script, crashed := false);
    assert Lead(m, CallsBefore(spec), tail) by { CalmLeads(s, CallsBefore(spec), tail); }
    LeadList(m, 2 + dom, tail);
    var l := ApiList(m, spec.name);
    ExistingMeans(s);
    if s.stored.status.id != 0 { FoundIsListed(s); }
    LeadCopy(l.s, 2 + dom, tail);
    var creating := s.stored.status.(phase := Creating);
    LeadPatch(l.s, creating, 1 + dom, tail);
    var p := Patch(l.s, creating).s;
    LeadCopy(p, 1 + dom, tail);
    AddressMeans(s);
    SameAddress(s, p);
    LeadAddress(p, 1, tail);
    var a := FindAddress(p);
    LeadCopy(a.s, 1, tail);
    LeadCreate(a.s, spec, a.address, tail);
    OneRowMore(a.s, spec, a.address, tail);
    var c := ApiCreate(a.s, spec, a.address);
    RollsBack(c.s, c.id, f);
    var r := Record(c.s, c.id);
    assert Create(l.s) == r;
    assert EnsureExists(m) == Ensured(r.s, r.r, false);
  }

  lemma CalmLeads(s: State, n: nat, tail: seq<Event>)
    ensures Lead(s.(res := s.stored, script := seq(n, _ => CALM) + tail, crashed := false), n, tail)
  {
    assert (seq(n, _ => CALM) + tail)[n..] == tail;
  }

  lemma OneRowMore(s: State, spec: Spec, address: Address, tail: seq<Event>)
    requires Lead(s, 1, tail) && s.rows.Valid()
    ensures var c := ApiCreate(s, spec, address); c.id !in s.rows.live && c.s.rows.live == s.rows.live[c.id := c.s.rows.live[c.id]]
  {
    LeadCall(s, 0, tail);
    hide NewRow;
  }

  lemma RollsBack(s: State, id: nat, f: Fault)
    requires Lead(s, 0, [Event(Calm, Refused(f)), CALM, CALM]) && id in s.rows.live
    ensures var r := Record(s, id); var t := Patch(r.s, Unready(r.s, Erroneous)).s;
      && r.r == Err({}) && t.rows.live == s.rows.live - {id}
      && t.stored == s.stored.(status := s.stored.status.(condition := Condition(false, Erroneous, s.stored.generation)))
  {
    assert s.script == [Event(Calm, Refused(f)), CALM, CALM] by { assert s.script[0..] == s.script; }
    var r := Record(s, id).s;
    assert r.script == [CALM] && r.stored == s.stored && r.res.generation == s.stored.generation;
  }

  /** An update that finds the resource gone forgets it, and changes nothing else. */
  lemma GoneIsForgotten(s: State)
    requires Recorded(s) && Eligible(s) && Found(s) && s.stored.generation != s.stored.status.observedGeneration
    ensures var gone := CALM.(env := DropRow(s.stored.status.id)); var dom := if s.stored.spec.mode == "http" then 1 else 0;
      var t := Reconcile(s, seq(2 + dom, _ => CALM) + [gone, CALM]);
      t.stored == s.stored.(status := s.stored.status.(id := 0)) && t.rows.live == s.rows.live - {s.stored.status.id}
  {
    hide Patch, Named, FindSiteResource, ApiList, FindAddress, Create, Lists, Lead, Resolve, Updated, Get, ApiUpdate;
    var spec, id := s.stored.spec, s.stored.status.id;
    var dom, tail := if spec.mode == HTTP_MODE then 1 else 0, [CALM.(env := DropRow(id)), CALM];
    var m := s.(res := s.stored, script := seq(2 + dom, _ => CALM) + tail, crashed := false);
    CalmLeads(s, 2 + dom, tail);
    LeadList(m, 1 + dom, tail);
    FoundIsListed(s);
    var l := ApiList(m, spec.name).s;
    LeadCopy(l, 1 + dom, tail);
    LeadGet(l, dom, tail);
    var g := Get(l).s;
    LeadCopy(g, dom, tail);
    AddressMeans(s);
    SameAddress(s, g);
    LeadAddress(g, 0, tail);
    var a := FindAddress(g);
    LeadCopy(a.s, 0, tail);
    FindsItGone(a.s, id, spec, a.address);
    var u := ApiUpdate(a.s, id, spec, a.address);
    assert EnsureExists(m) == Ensured(l, Ok, false);
    assert Update(g) == u;
  }

  lemma LeadGet(s: State, n: nat, tail: seq<Event>)
    requires Lead(s, n + 1, tail)
    ensures Get(s).r.Ok? && Lead(Get(s).s, n, tail) && SameBesidesStatus(s, Get(s).s) && Get(s).s.stored == s.stored
  {
    LeadCall(s, n, tail);
  }

  lemma FindsItGone(s: State, id: nat, spec: Spec, address: Address)
    requires Lead(s, 0, [CALM.(env := DropRow(id)), CALM]) && id == s.stored.status.id
    ensures var u := ApiUpdate(s, id, spec, address); var t := Patch(u.s, u.s.res.status.(id := 0)).s;
      && u.r == Err({NotFound}) && t.rows.live == s.rows.live - {id} && t.stored == s.stored.(status := s.stored.status.(id := 0))
  {
    assert s.script == [CALM.(env := DropRow(id)), CALM] by { assert s.script[0..] == s.script; }
    var u := ApiUpdate(s, id, spec, address).s;
    assert u.script == [CALM] && u.res == u.stored == s.stored;
    PrivateEdits.MergeAll(u.res.status, u.res.status.(id := 0));
    hide MergeStatus, Updated;
  }

  /** The cleanup of an object without a resource takes the finalizer off with one call. */
  lemma NothingToDelete(s: State)
    requires s.stored.deleting && s.stored.finalizer && s.stored.status.id == 0
    ensures var t := Reconcile(s, [CALM]); t.stored == s.stored.(finalizer := false) && t.rows == s.rows
  {
  }
}
