/** Progress of the PrivateResource reconciler: one undisturbed activation gets ready from any state that
    a run can leave behind, and after that there is nothing left to do. */
module PrivateConvergence {
  import opened Shared
  import opened Domains
  import opened Server
  import opened PrivateResource
  import opened PrivateRuns

  /** Nobody interferes and every call is answered. */
  ghost predicate Smooth(script: seq<Event>) {
    forall i :: 0 <= i < |script| ==> script[i].env.Calm? && script[i].reply.Served?
  }

  /** At least n more calls will be answered, and the process's copy is current. */
  ghost predicate Fuel(s: State, n: nat) {
    !s.crashed && n <= |s.script| && Smooth(s.script) && s.res == s.stored
  }

  lemma SmoothCall(s: State, n: nat)
    requires Fuel(s, n + 1)
    ensures !Halted(s) && s.script[0].reply.Served? && Advance(s) == s.(script := s.script[1..]) && Fuel(Advance(s), n)
  {
  }

  /** Nothing but the object's status may differ. */
  predicate SameBesidesStatus(s: State, t: State) {
    && t.rows == s.rows && t.domains == s.domains && t.siteID == s.siteID && t.siteReady == s.siteReady
    && t.stored == s.stored.(status := t.stored.status)
  }

  lemma FuelLess(s: State, m: nat, n: nat)
    requires m <= n && Fuel(s, n)
    ensures Fuel(s, m)
  {
  }

  lemma ReadSmooth(s: State, n: nat)
    requires Fuel(s, n + 1)
    ensures Ask(s).r.Ok? && Fuel(Ask(s).s, n) && SameBesidesStatus(s, Ask(s).s) && Ask(s).s.stored == s.stored
    ensures Get(s).r.Ok? && Fuel(Get(s).s, n) && SameBesidesStatus(s, Get(s).s) && Get(s).s.stored == s.stored
  {
    SmoothCall(s, n);
  }

  lemma PatchSmooth(s: State, after: Status, n: nat)
    requires Fuel(s, n + 1)
    ensures var p := Patch(s, after);
      p.r.Ok? && Fuel(p.s, n) && SameBesidesStatus(s, p.s) && p.s.stored.status == after
  {
    SmoothCall(s, n);
  }

  /** The address that the spec's domain leads to, if it leads anywhere. */
  function AddressOf(s: State): Option<Address> {
    var spec := s.stored.spec;
    if spec.mode != HTTP_MODE then Some(NoAddress) else
    if spec.fullDomain == "" then None else
    match Resolve(s.domains, spec.fullDomain)
    case Unresolved => None
    case Resolved(id, subdomain) => Some(Address(id, subdomain))
  }

  lemma FindAddressSmooth(s: State, n: nat)
    requires Fuel(s, n + 1) && AddressOf(s).Some?
    ensures var a := FindAddress(s);
      && a.r.Ok? && a.address == AddressOf(s).value && Fuel(a.s, n) && SameBesidesStatus(s, a.s) && a.s.stored == s.stored
  {
    hide Resolve, Ask, Get;
    FuelLess(s, n, n + 1);
    ReadSmooth(s, n);
  }

  /** Repeating the update would change nothing. */
  ghost predicate InPlace(s: State, id: nat) {
    && AddressOf(s).Some? && id in s.rows.live
    && Updated(s, s.rows.live[id], s.stored.spec, AddressOf(s).value) == s.rows.live[id]
  }

  lemma UpdatedTwice(s: State, row: Row, spec: Spec, address: Address)
    ensures var after := Updated(s, row, spec, address); Updated(s, after, spec, address) == after
    ensures Updated(s, row, spec, address).name == (if spec.name != "" then spec.name else row.name)
  {
    hide Compose;
  }

  lemma NewRowInPlace(s: State, spec: Spec, address: Address)
    ensures Updated(s, NewRow(s, spec, address), spec, address) == NewRow(s, spec, address)
  {
    hide Compose;
  }

  /** Only one row differs. */
  predicate RowsBeside(s: State, t: State, id: nat) {
    && id in t.rows.live && t.rows.live == s.rows.live[id := t.rows.live[id]]
    && t.domains == s.domains && t.siteID == s.siteID && t.siteReady == s.siteReady
  }

  lemma UpdateSmooth(s: State, n: nat)
    requires Fuel(s, n + 2) && AddressOf(s).Some? && s.stored.status.id in s.rows.live
    ensures var u := Update(s); var id := s.stored.status.id;
      && u.r.Ok? && Fuel(u.s, n) && u.s.stored == s.stored && RowsBeside(s, u.s, id) && InPlace(u.s, id)
      && (s.rows.live[id].name == s.stored.spec.name ==> u.s.rows.live[id].name == s.stored.spec.name)
      && (InPlace(s, id) ==> u.s.rows.live[id] == s.rows.live[id])
  {
    hide FindAddress, Resolve, Updated;
    FindAddressSmooth(s, n + 1);
    var a := FindAddress(s);
    SmoothCall(a.s, n);
    var id := s.stored.status.id;
    var after := Updated(Advance(a.s), s.rows.live[id], s.stored.spec, a.address);
    UpdatedTwice(Advance(a.s), s.rows.live[id], s.stored.spec, a.address);
    SameUpdated(Advance(a.s), Update(s).s, after, s.stored.spec, a.address);
    SameUpdated(s, Advance(a.s), s.rows.live[id], s.stored.spec, a.address);
  }

  lemma SameUpdated(s: State, t: State, row: Row, spec: Spec, address: Address)
    requires t.domains == s.domains && t.siteID == s.siteID
    ensures Updated(t, row, spec, address) == Updated(s, row, spec, address)
  {
    hide Compose;
  }

  lemma CreateSmooth(s: State, n: nat)
    requires Fuel(s, n + 4) && AddressOf(s).Some? && s.rows.Valid()
    ensures var c := Create(s); var id := c.s.stored.status.id;
      && c.r.Ok? && Fuel(c.s, n) && c.s.stored == s.stored.(status := c.s.stored.status) && id != 0 && id !in s.rows.live
      && c.s.stored.status.observedGeneration == s.stored.status.observedGeneration
      && RowsBeside(s, c.s, id) && InPlace(c.s, id) && c.s.rows.live[id].name == s.stored.spec.name && c.s.rows.live[id].ours
      && c.s.rows.live[id] == NewRow(s, s.stored.spec, AddressOf(s).value)
  {
    hide FindAddress, Resolve, Patch, NewRow, Updated, ApiDelete;
    var creating := s.res.status.(phase := Creating);
    PatchSmooth(s, creating, n + 3);
    var p := Patch(s, creating).s;
    FindAddressSmooth(p, n + 2);
    var a := FindAddress(p);
    SmoothCall(a.s, n + 1);
    var c := ApiCreate(a.s, a.s.res.spec, a.address);
    var after := c.s.res.status.(id := c.id, phase := Creating);
    PatchSmooth(c.s, after, n);
    var t := Patch(c.s, after).s;
    var row := NewRow(Advance(a.s), s.stored.spec, a.address);
    NewRowInPlace(Advance(a.s), s.stored.spec, a.address);
    SameUpdated(Advance(a.s), t, row, s.stored.spec, a.address);
    NewRowNamed(Advance(a.s), s.stored.spec, a.address);
    SameNewRow(s, Advance(a.s), s.stored.spec, a.address);
  }

  lemma SameNewRow(s: State, t: State, spec: Spec, address: Address)
    requires t.domains == s.domains && t.siteID == s.siteID
    ensures NewRow(t, spec, address) == NewRow(s, spec, address)
  {
    hide Compose;
  }

  lemma NewRowNamed(s: State, spec: Spec, address: Address)
    ensures NewRow(s, spec, address).name == spec.name && NewRow(s, spec, address).ours
  {
  }

  predicate MarkedReady(o: Object) {
    && o.status.phase == Ready && o.status.observedGeneration == o.generation
    && o.status.condition == Condition(true, Reconciled, o.generation)
  }

  /** The recorded resource is listed under the name in the spec. */
  predicate Found(s: State) {
    var id := s.stored.status.id; id != 0 && id in s.rows.live && s.rows.live[id].name == s.stored.spec.name
  }

  lemma FoundIsListed(s: State)
    requires s.rows.Valid() && s.stored.status.id != 0
    ensures Lists(Named(s.rows.live, s.stored.spec.name, s.rows.next), s.stored.status.id) <==> Found(s)
  {
    var id := s.stored.status.id;
    var items := Named(s.rows.live, s.stored.spec.name, s.rows.next);
    if Found(s) {
      assert ItemOf(id, s.rows.live[id]) in items;
      var i :| 0 <= i < |items| && items[i] == ItemOf(id, s.rows.live[id]);
    }
    if Lists(items, id) {
      var i :| 0 <= i < |items| && items[i].id == id;
      assert items[i] in items;
    }
    hide Named;
  }

  /** The resource that would be adopted. */
  function Existing(s: State): Option<Item> {
    FindSiteResource(Named(s.rows.live, s.stored.spec.name, s.rows.next), s.stored.spec, s.siteID)
  }

  lemma ExistingIsLive(s: State)
    requires s.rows.Valid() && Existing(s).Some?
    ensures var id := Existing(s).value.id; id != 0 && id in s.rows.live && s.rows.live[id].name == s.stored.spec.name
  {
    hide Named, FindSiteResource;
  }

  /** Checking for existence keeps, adopts or creates. */
  lemma EnsureExistsSmooth(s: State, n: nat)
    requires Fuel(s, n + 5) && AddressOf(s).Some? && s.rows.Valid()
    ensures var e := EnsureExists(s); var st := e.s.stored.status; var id := st.id;
      && e.r.Ok? && Fuel(e.s, n) && e.s.stored == s.stored.(status := st) && st.observedGeneration == s.stored.status.observedGeneration
      && RowsBeside(s, e.s, id) && id != 0 && e.s.rows.live[id].name == s.stored.spec.name
      && (Found(s) ==> !e.adopted && e.s.rows == s.rows && e.s.stored == s.stored)
      && (!Found(s) && Existing(s).Some? ==> e.adopted && e.s.rows == s.rows && id == Existing(s).value.id)
      && (!Found(s) && Existing(s).None? ==>
            && !e.adopted && id !in s.rows.live && e.s.rows.live[id].ours && InPlace(e.s, id)
            && e.s.rows.live[id] == NewRow(s, s.stored.spec, AddressOf(s).value))
  {
    hide Ask, Get, Patch, Create, FindSiteResource, Named, Lists, InPlace, Resolve;
    ReadSmooth(s, n + 4);
    var l := Ask(s).s;
    if s.stored.status.id != 0 { FoundIsListed(s); }
    if Found(s) {
      FuelLess(l, n, n + 4);
    } else if Existing(s).Some? {
      ExistingIsLive(s);
      FuelLess(l, n + 1, n + 4);
      PatchSmooth(l, l.res.status.(id := Existing(s).value.id, phase := Creating), n);
    } else {
      CreateSmooth(l, n);
    }
  }

  lemma FinishSmooth(s: State)
    requires Fuel(s, 1)
    ensures var t := Finish(s);
      MarkedReady(t.stored) && SameBesidesStatus(s, t) && t.stored.status.id == s.stored.status.id
  {
    PatchSmooth(s, s.res.status.(phase := Ready, observedGeneration := s.res.generation,
                                 condition := Condition(true, Reconciled, s.res.generation)), 0);
    hide Patch;
  }

  lemma SameInPlace(s: State, t: State, id: nat)
    requires t.rows.live == s.rows.live && t.domains == s.domains && t.siteID == s.siteID && t.stored.spec == s.stored.spec
    ensures InPlace(t, id) == InPlace(s, id)
  {
    hide Resolve;
    if id in s.rows.live && AddressOf(s).Some? { SameUpdated(s, t, s.rows.live[id], s.stored.spec, AddressOf(s).value); }
    hide Updated;
  }

  /** The update when one is due, and the mark. */
  lemma UpdateAndFinishSmooth(s: State, hadID: bool, adopted: bool)
    requires Fuel(s, 3) && AddressOf(s).Some? && s.stored.status.id in s.rows.live && s.stored.status.id != 0
    requires s.rows.live[s.stored.status.id].name == s.stored.spec.name
    ensures var t := UpdateAndFinish(s, hadID, adopted); var id := s.stored.status.id;
      && MarkedReady(t.stored) && t.stored == s.stored.(status := t.stored.status) && t.stored.status.id == id
      && RowsBeside(s, t, id) && t.rows.live[id].name == s.stored.spec.name
      && (if adopted || (hadID && s.stored.generation != s.stored.status.observedGeneration) then InPlace(t, id)
          else t.rows == s.rows && InPlace(t, id) == InPlace(s, id))
      && (InPlace(s, id) ==> t.rows.live[id] == s.rows.live[id])
  {
    hide Update, Patch, Resolve, InPlace;
    if adopted || (hadID && s.stored.generation != s.stored.status.observedGeneration) {
      UpdateSmooth(s, 1);
      var u := Update(s).s;
      FinishSmooth(u);
      SameInPlace(u, Finish(u), s.stored.status.id);
    } else {
      FuelLess(s, 1, 3);
      FinishSmooth(s);
      SameInPlace(s, Finish(s), s.stored.status.id);
    }
  }

  lemma SetFinalizerSmooth(s: State, n: nat)
    requires Fuel(s, n + 1) && !s.stored.deleting
    ensures var f := SetFinalizer(s, true);
      f.r.Ok? && Fuel(f.s, n) && f.s.stored == s.stored.(finalizer := true) && SameRows(s, f.s)
  {
    SmoothCall(s, n);
  }

  predicate SameRows(s: State, t: State) {
    t.rows == s.rows && t.domains == s.domains && t.siteID == s.siteID && t.siteReady == s.siteReady
  }

  lemma ReconcileReadySmooth(s: State)
    requires Fuel(s, 9) && AddressOf(s).Some? && s.rows.Valid()
    ensures var t := ReconcileReady(s); var id := t.stored.status.id;
      && MarkedReady(t.stored) && t.stored == s.stored.(status := t.stored.status)
      && id != 0 && RowsBeside(s, t, id) && t.rows.live[id].name == s.stored.spec.name
      && (Found(s) && s.stored.generation == s.stored.status.observedGeneration ==> t.rows == s.rows && id == s.stored.status.id)
      && (!(Found(s) && s.stored.generation == s.stored.status.observedGeneration) ==> InPlace(t, id))
      && (Found(s) ==> id == s.stored.status.id)
      && (!Found(s) && Existing(s).Some? ==> id == Existing(s).value.id)
      && (!Found(s) && Existing(s).None? ==>
            id !in s.rows.live && t.rows.live[id].ours && t.rows.live[id] == NewRow(s, s.stored.spec, AddressOf(s).value))
  {
    hide EnsureExists, UpdateAndFinish, Get, Ask, Patch, FindSiteResource, Named, InPlace, Resolve;
    EnsureExistsSmooth(s, 4);
    var e := EnsureExists(s);
    var hadID := s.res.status.id != 0;
    var id := e.s.stored.status.id;
    SameAddress(s, e.s);
    if hadID && !e.adopted {
      ReadSmooth(e.s, 3);
      var g := Get(e.s).s;
      SameAddress(e.s, g);
      SameInPlace(e.s, g, id);
      UpdateAndFinishSmooth(g, hadID, e.adopted);
      UpdateKeepsOwner(g, hadID, e.adopted);
    } else {
      FuelLess(e.s, 3, 4);
      UpdateAndFinishSmooth(e.s, hadID, e.adopted);
      UpdateKeepsOwner(e.s, hadID, e.adopted);
    }
  }

  lemma SameAddress(s: State, t: State)
    requires t.domains == s.domains && t.stored.spec == s.stored.spec
    ensures AddressOf(t) == AddressOf(s)
  {
    hide Resolve;
  }

  lemma UpdateKeepsOwner(s: State, hadID: bool, adopted: bool)
    requires Fuel(s, 3) && AddressOf(s).Some? && s.stored.status.id in s.rows.live
    ensures var t := UpdateAndFinish(s, hadID, adopted); var id := s.stored.status.id;
      id in t.rows.live && t.rows.live[id].ours == s.rows.live[id].ours
  {
    hide Patch, FindAddress, Resolve, Updated;
    var id := s.stored.status.id;
    FindAddressSmooth(s, 2);
    var a := FindAddress(s);
    SmoothCall(a.s, 1);
    FuelLess(s, 1, 3);
    FinishSmooth(s);
    UpdatedKeepsOwner(Advance(a.s), s.stored.spec, a.address);
    FinishSmooth(Update(s).s);
  }

  /** From every state that a run can leave behind one undisturbed activation is enough: the object is
      marked ready with a live resource under its name, kept, adopted or created; and unless the current
      generation had been seen to already, repeating the update would change nothing. */
  lemma OneActivationGetsReady(s: State, script: seq<Event>)
    requires Recorded(s) && !s.stored.deleting && s.siteReady && AddressOf(s).Some? && Smooth(script) && 10 <= |script|
    ensures var t := Reconcile(s, script); var id := t.stored.status.id;
      && MarkedReady(t.stored) && t.stored == s.stored.(finalizer := true, status := t.stored.status)
      && id != 0 && RowsBeside(s, t, id) && t.rows.live[id].name == s.stored.spec.name
      && (Found(s) ==> id == s.stored.status.id)
      && (!Found(s) && Existing(s).Some? ==> id == Existing(s).value.id)
      && (!Found(s) && Existing(s).None? ==>
            id !in s.rows.live && t.rows.live[id].ours && t.rows.live[id] == NewRow(s, s.stored.spec, AddressOf(s).value))
      && (if Found(s) && s.stored.generation == s.stored.status.observedGeneration then t.rows == s.rows else InPlace(t, id))
  {
    hide ReconcileReady, SetFinalizer, Resolve, FindSiteResource, Named, InPlace;
    var m := s.(res := s.stored, script := script, crashed := false);
    var u := if s.stored.finalizer then m else SetFinalizer(m, true).s;
    SetFinalizerSmooth(m, 9);
    assert Fuel(u, 9);
    SameAddress(s, u);
    assert Existing(u) == Existing(s);
    ReconcileReadySmooth(u);
  }

  /** In every run, whatever state it has come to. */
  lemma EveryRunGetsReady(trace: seq<State>, steps: seq<Step>, k: nat)
    requires IsRun(trace, steps) && k < |steps| && Init(trace[0]) && !trace[k].stored.deleting
    requires trace[k].siteReady && AddressOf(trace[k]).Some?
    requires steps[k].Activate? && Smooth(steps[k].script) && 10 <= |steps[k].script|
    ensures MarkedReady(trace[k + 1].stored) && trace[k + 1].stored.status.id in trace[k + 1].rows.live
  {
    hide Init, Reconcile, Smooth, Resolve, FindSiteResource, Named, InPlace;
    RunRecorded(trace, steps, k) by { InitIsRecorded(trace[0]); }
    assert trace[k + 1] == Do(trace[k], steps[k]);
    OneActivationGetsReady(trace[k], steps[k].script);
  }

  lemma InitIsRecorded(s: State)
    requires Init(s)
    ensures Recorded(s)
  {
    hide Recomposes;
  }

  /** And after that an undisturbed activation changes nothing at the server or the object. */
  lemma ReadyStaysPut(s: State, script: seq<Event>)
    requires Recorded(s) && !s.stored.deleting && s.stored.finalizer && s.siteReady && AddressOf(s).Some?
    requires MarkedReady(s.stored) && Found(s) && Smooth(script) && 10 <= |script|
    ensures var t := Reconcile(s, script); t.rows == s.rows && t.stored == s.stored
  {
    hide Reconcile, Resolve, FindSiteResource, Named, InPlace;
    OneActivationGetsReady(s, script);
  }
}
