/** When a PrivateResource that is marked ready for its current generation is in place at the server, and
    which edits that come during an activation can be missed. */
module PrivateEdits {
  import opened Shared
  import opened Domains
  import opened Server
  import opened PrivateResource
  import opened PrivateRuns
  import opened PrivateConvergence

  // ---- The claim and its environment ----

  /** If the current generation counts as observed, then the recorded resource is live under its name, and
      repeating its update would change nothing. */
  ghost predicate Truthful(s: State) {
    s.stored.status.observedGeneration == s.stored.generation ==> Found(s) && InPlace(s, s.stored.status.id)
  }

  /** Others may add rows, ask for the deletion of the object, and make one edit, again and again. */
  predicate MayDo(env: Env, later: Spec) {
    env.Calm? || env.RequestDelete? || env.AddRow? || env == EditSpec(later)
  }

  ghost predicate Edits(script: seq<Event>, later: Spec) {
    forall i :: 0 <= i < |script| ==> MayDo(script[i].env, later)
  }

  function WithSpec(s: State, spec: Spec): State {
    s.(stored := s.stored.(spec := spec))
  }

  /** A resource that is made for the current version is one that an update for the later one would leave
      alone; unless none can be made, as the domain cannot be resolved. */
  ghost predicate Covers(s: State, later: Spec) {
    AddressOf(s).Some? ==>
      && AddressOf(WithSpec(s, later)).Some?
      && var row := NewRow(s, s.stored.spec, AddressOf(s).value); Updated(s, row, later, AddressOf(WithSpec(s, later)).value) == row
  }

  lemma CoversItself(s: State)
    ensures Covers(s, s.stored.spec)
  {
    assert WithSpec(s, s.stored.spec) == s;
    if AddressOf(s).Some? { NewRowInPlace(s, s.stored.spec, AddressOf(s).value); }
    hide Updated, NewRow, Resolve;
  }

  // ---- What an activation keeps until it is finished ----

  /** An object as it was when the activation began, or as it is after the edit. */
  predicate Version(o: Object, s0: State, later: Spec) {
    || (o.spec == s0.stored.spec && o.generation == s0.stored.generation)
    || (o.spec == later && o.generation == s0.stored.generation + 1)
  }

  ghost predicate Pace(s0: State, s: State, later: Spec) {
    var observed := s0.stored.status.observedGeneration;
    && s.rows.Valid() && Edits(s.script, later) && s.domains == s0.domains && s.siteID == s0.siteID
    && s0.stored.spec.name != "" && later.name != ""
    && Version(s.stored, s0, later) && Version(s.res, s0, later) && s.res.generation <= s.stored.generation
    && s.stored.status.observedGeneration == observed == s.res.status.observedGeneration && observed <= s0.stored.generation
    && (Truthful(s0) ==> Truthful(s))
  }

  /** What an activation leaves behind. */
  ghost predicate Good(s0: State, t: State, later: Spec) {
    && t.rows.Valid() && Version(t.stored, s0, later) && t.stored.status.observedGeneration <= t.stored.generation
    && (Truthful(s0) || t.stored.generation == s0.stored.generation + 1 ==> Truthful(t))
  }

  lemma PaceIsGood(s0: State, s: State, later: Spec)
    requires Pace(s0, s, later)
    ensures Good(s0, s, later)
  {
    hide Found, InPlace, Edits;
  }

  /** The current generation does not count as observed, so what is recorded may change. */
  ghost predicate Free(s0: State, s: State) {
    Truthful(s0) ==> s.stored.status.observedGeneration < s.stored.generation
  }

  /** No row went or changed, and the object did not go back. */
  predicate Onward(s: State, t: State) {
    && (forall id :: id in s.rows.live ==> id in t.rows.live && t.rows.live[id] == s.rows.live[id])
    && s.rows.next <= t.rows.next && s.stored.generation <= t.stored.generation
  }

  lemma SameRowInPlace(s: State, t: State, id: nat)
    requires t.domains == s.domains && t.siteID == s.siteID && t.stored.spec == s.stored.spec
    requires id in s.rows.live ==> id in t.rows.live && t.rows.live[id] == s.rows.live[id]
    ensures InPlace(s, id) ==> InPlace(t, id)
  {
    hide Resolve;
    if id in s.rows.live && AddressOf(s).Some? { SameUpdated(s, t, s.rows.live[id], s.stored.spec, AddressOf(s).value); }
    hide Updated;
  }

  lemma TruthfulCarries(s: State, t: State)
    requires Truthful(s) && Onward(s, t) && t.domains == s.domains && t.siteID == s.siteID
    requires t.stored.status.observedGeneration == s.stored.status.observedGeneration
    requires s.stored.status.observedGeneration < s.stored.generation
      || (t.stored.generation == s.stored.generation ==> t.stored.spec == s.stored.spec && t.stored.status.id == s.stored.status.id)
    requires s.stored.status.observedGeneration <= s.stored.generation
    ensures Truthful(t)
  {
    if t.stored.spec == s.stored.spec { SameRowInPlace(s, t, s.stored.status.id); }
    hide InPlace;
  }

  lemma EnvPace(s0: State, s: State, env: Env, later: Spec)
    requires Pace(s0, s, later) && MayDo(env, later)
    ensures var t := ApplyEnv(s, env);
      && Pace(s0, t, later) && Onward(s, t) && t.res == s.res && t.stored.status == s.stored.status && t.script == s.script && t.crashed == s.crashed
  {
    var t := ApplyEnv(s, env);
    if Truthful(s) { TruthfulCarries(s, t); }
    hide Truthful, Edits;
  }

  lemma AdvancePace(s0: State, s: State, later: Spec)
    requires Pace(s0, s, later) && !Halted(s)
    ensures var t := Advance(s);
      Pace(s0, t, later) && Onward(s, t) && t.res == s.res && t.stored.status == s.stored.status && t.crashed == s.crashed
  {
    hide ApplyEnv, InPlace, Found;
    var m := s.(script := s.script[1..]);
    assert MayDo(s.script[0].env, later);
    if Truthful(s) { TruthfulCarries(s, m); }
    EnvPace(s0, m, s.script[0].env, later);
  }

  lemma HaltPace(s0: State, s: State, later: Spec)
    requires Pace(s0, s, later)
    ensures Pace(s0, Halt(s), later)
  {
    if Truthful(s) { TruthfulCarries(s, Halt(s)); }
    hide Truthful, Edits;
  }

  /** Only the status and the copy change. */
  lemma StatusPace(s0: State, s: State, t: State, later: Spec)
    requires Pace(s0, s, later) && t.rows == s.rows && t.script == s.script && t.domains == s.domains && t.siteID == s.siteID
    requires t.stored == s.stored.(status := t.stored.status)
    requires t.stored.status.observedGeneration == s.stored.status.observedGeneration == t.res.status.observedGeneration
    requires t.res == t.stored || t.res == s.res.(status := t.res.status)
    requires t.stored.status.id == s.stored.status.id || Free(s0, s)
    ensures Pace(s0, t, later)
  {
    if Truthful(s0) { TruthfulCarries(s, t); }
    hide Truthful, Edits;
  }

  predicate InHand(s: State) {
    s.res.status == s.stored.status
  }

  lemma MergeAll(st: Status, after: Status)
    ensures MergeStatus(st, st, after) == after
  {
  }

  lemma PatchPace(s0: State, s: State, after: Status, later: Spec)
    requires Pace(s0, s, later) && after.observedGeneration == s.res.status.observedGeneration
    requires after.id == s.res.status.id || Free(s0, s)
    ensures var p := Patch(s, after);
      && Pace(s0, p.s, later) && Onward(s, p.s) && (Free(s0, s) ==> Free(s0, p.s))
      && (p.r.Ok? ==> p.s.res == p.s.stored && (InHand(s) ==> p.s.stored.status == after))
  {
    hide Advance, Truthful, Version, Edits;
    if Halted(s) {
      HaltPace(s0, s, later);
    } else {
      AdvancePace(s0, s, later);
      MergeAll(s.res.status, after);
      StatusPace(s0, Advance(s), Patch(s, after).s, later);
    }
  }

  lemma ReadPace(s0: State, s: State, later: Spec)
    requires Pace(s0, s, later)
    ensures var g := Get(s);
      && Pace(s0, g.s, later) && Onward(s, g.s) && g.s.stored.status == s.stored.status && (g.r.Ok? ==> g.s.res == g.s.stored)
    ensures var a := Ask(s); Pace(s0, a.s, later) && Onward(s, a.s) && a.s.stored.status == s.stored.status && a.s.res == s.res
  {
    hide Advance, Truthful, Version, Edits;
    HaltPace(s0, s, later);
    if !Halted(s) {
      AdvancePace(s0, s, later);
      StatusPace(s0, Advance(s), Get(s).s, later);
    }
  }

  /** The copy as if it were stored. */
  function Copy(s: State): State {
    s.(stored := s.res)
  }

  lemma AddressPace(s0: State, s: State, later: Spec)
    requires Pace(s0, s, later)
    ensures var a := FindAddress(s);
      && Pace(s0, a.s, later) && Onward(s, a.s) && a.s.stored.status == s.stored.status && a.s.res == s.res
      && (a.r.Ok? ==> AddressOf(Copy(s)) == Some(a.address))
      && a.s.domains == s.domains && a.s.siteID == s.siteID
  {
    ReadPace(s0, s, later);
    hide Truthful, Edits, Version, Ask, Get, Resolve;
  }

  lemma CreatePace(s0: State, s: State, spec: Spec, address: Address, later: Spec)
    requires Pace(s0, s, later) && Free(s0, s)
    ensures var c := ApiCreate(s, spec, address);
      && Pace(s0, c.s, later) && c.s.stored.status == s.stored.status && c.s.res == s.res && Free(s0, c.s)
      && (c.r.Ok? ==> c.id != 0 && c.id in c.s.rows.live && c.s.rows.live[c.id] == NewRow(s, spec, address))
  {
    hide Advance, Version, Edits, Found, InPlace, NewRow;
    if Halted(s) {
      HaltPace(s0, s, later);
    } else {
      AdvancePace(s0, s, later);
      var t := Advance(s);
      assert NewRow(t, spec, address) == NewRow(s, spec, address) by { SameNewRow(s, t, spec, address); }
    }
  }

  lemma DeletePace(s0: State, s: State, id: nat, later: Spec)
    requires Pace(s0, s, later) && Free(s0, s)
    ensures Pace(s0, ApiDelete(s, id).s, later)
  {
    hide Advance, Version, Edits, Found, InPlace;
    if Halted(s) { HaltPace(s0, s, later); } else { AdvancePace(s0, s, later); }
  }

  lemma UpdatePace(s0: State, s: State, later: Spec)
    requires Pace(s0, s, later) && Free(s0, s) && InHand(s)
    ensures var u := Update(s); Pace(s0, u.s, later) && Free(s0, u.s) && (u.r.Ok? ==> Done(u.s) && InHand(u.s) && u.s.res == s.res)
  {
    hide Advance, Version, Edits, Updated, FindAddress, Resolve, Truthful;
    AddressPace(s0, s, later);
    var a := FindAddress(s);
    if a.r.Ok? { RowPace(s0, a.s, a.address, later); }
  }

  /** The recorded resource is in place for the version in the copy. */
  ghost predicate Done(s: State) {
    InHand(s) && Found(Copy(s)) && InPlace(Copy(s), s.res.status.id)
  }

  lemma RowPace(s0: State, s: State, address: Address, later: Spec)
    requires Pace(s0, s, later) && Free(s0, s) && InHand(s) && AddressOf(Copy(s)) == Some(address)
    ensures var u := ApiUpdate(s, s.res.status.id, s.res.spec, address);
      Pace(s0, u.s, later) && Free(s0, u.s) && (u.r.Ok? ==> Done(u.s) && u.s.res == s.res)
  {
    hide Advance, Edits, Updated, Resolve, Found, InPlace;
    var id, spec := s.res.status.id, s.res.spec;
    if Halted(s) {
      HaltPace(s0, s, later);
    } else {
      AdvancePace(s0, s, later);
      var t := Advance(s);
      if id in t.rows.live {
        var row := Updated(t, t.rows.live[id], spec, address);
        var u := t.(rows := t.rows.Put(id, row));
        SameAddress(Copy(s), Copy(u));
        assert Pace(s0, u, later);
        RowDone(t, u, address);
      }
    }
  }

  lemma RowDone(t: State, u: State, address: Address)
    requires var id := t.res.status.id;
      && id in t.rows.live && id != 0 && t.res.spec.name != ""
      && u == t.(rows := t.rows.Put(id, Updated(t, t.rows.live[id], t.res.spec, address)))
    requires AddressOf(Copy(u)) == Some(address)
    ensures Found(Copy(u)) && InPlace(Copy(u), t.res.status.id)
  {
    var row := t.rows.live[t.res.status.id];
    UpdatedTwice(t, row, t.res.spec, address);
    SameUpdated(t, Copy(u), Updated(t, row, t.res.spec, address), t.res.spec, address);
    hide Updated, Resolve;
  }

  /** Reports and resets leave the observed generation alone. */
  lemma ReportPace(s0: State, s: State, later: Spec)
    requires Pace(s0, s, later)
    ensures Pace(s0, Patch(s, Unready(s, Erroneous)).s, later) && Pace(s0, Patch(s, Unready(s, Pending)).s, later)
    ensures Pace(s0, Patch(s, Unready(s, PermanentError).(phase := Failed)).s, later)
    ensures Free(s0, s) ==> Pace(s0, Patch(s, s.res.status.(id := 0)).s, later)
  {
    hide Patch, Pace, Free, Truthful;
    PatchPaceAlike(s0, s, later);
    PatchPace(s0, s, Unready(s, Erroneous), later);
    PatchPace(s0, s, Unready(s, Pending), later);
    PatchPace(s0, s, Unready(s, PermanentError).(phase := Failed), later);
    if Free(s0, s) { PatchPace(s0, s, s.res.status.(id := 0), later); }
  }

  lemma PatchPaceAlike(s0: State, s: State, later: Spec)
    requires Pace(s0, s, later)
    ensures s.stored.status.observedGeneration == s.res.status.observedGeneration
  {
  }

  // ---- The end ----

  function Finished(s: State): Status {
    s.res.status.(phase := Ready, observedGeneration := s.res.generation, condition := Condition(true, Reconciled, s.res.generation))
  }

  /** The mark is true if what it is for was done, or if it was there before. */
  lemma FinishPace(s0: State, s: State, later: Spec)
    requires Pace(s0, s, later) && InHand(s)
    requires s.res.generation != s.res.status.observedGeneration ==> Done(s)
    ensures Good(s0, Finish(s), later)
  {
    hide Advance, Edits, Found, InPlace;
    if Halted(s) {
      HaltPace(s0, s, later);
    } else {
      AdvancePace(s0, s, later);
      var m, t := Advance(s), Finish(s);
      MergeAll(s.res.status, Finished(s));
      if t.stored.status.observedGeneration == m.stored.status.observedGeneration {
        if Truthful(m) { TruthfulCarries(m, t); }
      } else if t.stored.generation == s.res.generation {
        MarkTruthful(s, t);
      }
    }
  }

  lemma MarkTruthful(s: State, t: State)
    requires Done(s) && Onward(s, t) && t.domains == s.domains && t.siteID == s.siteID
    requires t.stored.spec == s.res.spec && t.stored.status.id == s.res.status.id
    ensures Truthful(t)
  {
    SameRowInPlace(Copy(s), t, s.res.status.id);
    hide InPlace;
  }

  // ---- Checking for existence ----

  /** A resource made for one version of the copy is in place for the same, and for a later one if it is covered. */
  lemma MadeDone(s0: State, s: State, made: Object, address: Address, later: Spec)
    requires Version(made, s0, later) && Version(s.res, s0, later) && made.generation <= s.res.generation && InHand(s)
    requires s.domains == s0.domains && s.siteID == s0.siteID && s.res.spec.name != ""
    requires AddressOf(WithSpec(s0, made.spec)) == Some(address)
    requires var id := s.res.status.id; id != 0 && id in s.rows.live && s.rows.live[id] == NewRow(s0, made.spec, address)
    requires Covers(s0, later)
    ensures Done(s)
  {
    hide Resolve;
    var row, spec := s.rows.live[s.res.status.id], s.res.spec;
    NewRowInPlace(s0, made.spec, address);
    NewRowNamed(s0, made.spec, address);
    SameAddress(WithSpec(s0, spec), Copy(s));
    if made.generation == s.res.generation {
      assert spec == made.spec;
    } else {
      assert AddressOf(WithSpec(s0, s0.stored.spec)) == AddressOf(s0);
      UpdatedTwice(s0, row, later, AddressOf(WithSpec(s0, later)).value);
    }
    SameUpdated(s0, Copy(s), row, spec, AddressOf(Copy(s)).value);
    hide Updated, NewRow;
  }

  lemma RecordPace(s0: State, s: State, id: nat, later: Spec)
    requires Pace(s0, s, later) && Free(s0, s) && InHand(s)
    ensures var r := Record(s, id);
      && Pace(s0, r.s, later) && (r.r.Ok? ==> Free(s0, r.s) && Onward(s, r.s) && r.s.res == r.s.stored && r.s.stored.status.id == id)
  {
    hide Patch, ApiDelete, Truthful, Version, Edits;
    var after := s.res.status.(id := id, phase := Creating);
    PatchPace(s0, s, after, later);
    var p := Patch(s, after);
    DeletePace(s0, p.s, id, later);
  }

  lemma CreationPace(s0: State, s: State, later: Spec)
    requires Pace(s0, s, later) && Free(s0, s) && InHand(s)
    ensures var c := Create(s);
      && Pace(s0, c.s, later)
      && (c.r.Ok? ==> c.s.res == c.s.stored && Free(s0, c.s) && c.s.stored.status.id != 0 && (Covers(s0, later) ==> Done(c.s)))
  {
    hide Patch, FindAddress, ApiCreate, Record, Truthful, Edits, Covers, NewRow, Done, Resolve;
    var creating := s.res.status.(phase := Creating);
    PatchPace(s0, s, creating, later);
    var p := Patch(s, creating);
    if p.r.Ok? {
      AddressPace(s0, p.s, later);
      var a := FindAddress(p.s);
      if a.r.Ok? {
        CreatePace(s0, a.s, a.s.res.spec, a.address, later);
        var c := ApiCreate(a.s, a.s.res.spec, a.address);
        if c.r.Ok? {
          RecordPace(s0, c.s, c.id, later);
          var r := Record(c.s, c.id);
          if r.r.Ok? && Covers(s0, later) {
            SameAddress(Copy(p.s), WithSpec(s0, p.s.res.spec));
            SameNewRow(s0, a.s, p.s.res.spec, a.address);
            MadeDone(s0, r.s, p.s.res, a.address, later);
          }
        }
      }
    }
  }

  /** The recorded resource is not listed, so the current generation does not count as observed. */
  lemma UnlistedFree(s0: State, s: State, later: Spec)
    requires Pace(s0, s, later) && s.res.spec == s0.stored.spec && s.res.generation == s0.stored.generation
    requires s.stored.status.id == 0 || !Lists(Named(s.rows.live, s.res.spec.name, s.rows.next), s.stored.status.id)
    ensures Free(s0, s)
  {
    if s.stored.status.id != 0 && s.stored.generation == s0.stored.generation { FoundIsListed(s); }
    hide Named, InPlace, Edits, Lists;
  }

  /** Something can be adopted, or is recorded already, or what would be created covers the edit. */
  ghost predicate Sure(s0: State, later: Spec) {
    s0.stored.status.id != 0 || Existing(s0).Some? || Covers(s0, later)
  }

  lemma EnsureExistsPace(s0: State, s: State, later: Spec)
    requires Pace(s0, s, later) && InHand(s) && s.res.spec == s0.stored.spec && s.res.generation == s0.stored.generation
    requires s.stored.status.id == s0.stored.status.id && Onward(s0, s)
    ensures var e := EnsureExists(s);
      && Pace(s0, e.s, later)
      && (e.r.Ok? ==>
            && InHand(e.s) && e.s.stored.status.id != 0
            && (e.adopted ==> Free(s0, e.s))
            && (!e.adopted && s0.stored.status.id == 0 && Sure(s0, later) ==> Done(e.s)))
  {
    hide Patch, Create, Truthful, Edits, Covers, Done, Named, FindSiteResource, Lists, Ask, Version, Free, Existing;
    ReadPace(s0, s, later);
    var l := ApiList(s, s.res.spec.name);
    if l.r.Ok? && !(s.stored.status.id != 0 && Lists(l.items, s.stored.status.id)) {
      UnlistedFree(s0, l.s, later);
      var m := FindSiteResource(l.items, l.s.res.spec, l.s.siteID);
      if m.Some? {
        ItemsLive(l.s, s.res.spec.name, m.value);
        PatchPace(s0, l.s, l.s.res.status.(id := m.value.id, phase := Creating), later);
      } else {
        NothingFound(s0, l.s);
        CreationPace(s0, l.s, later);
      }
    }
  }

  lemma ItemsLive(s: State, name: string, item: Item)
    requires s.rows.Valid() && item in Named(s.rows.live, name, s.rows.next)
    ensures item.id != 0
  {
    hide Named;
  }

  lemma NothingFound(s0: State, s: State)
    requires Onward(s0, s) && s.siteID == s0.siteID && s.rows.Valid()
    requires FindSiteResource(Named(s.rows.live, s0.stored.spec.name, s.rows.next), s0.stored.spec, s.siteID).None?
    ensures Existing(s0).None?
  {
    var name := s0.stored.spec.name;
    forall item | item in Named(s0.rows.live, name, s0.rows.next) ensures !IsMatch(item, s0.stored.spec, s0.siteID) {
      assert item in Named(s.rows.live, name, s.rows.next);
    }
    hide Named, FindSiteResource;
  }

  // ---- A whole activation ----

  lemma UpdateAndFinishPace(s0: State, s: State, hadID: bool, adopted: bool, later: Spec)
    requires Pace(s0, s, later) && InHand(s) && s.stored.status.id != 0
    requires adopted ==> Free(s0, s)
    requires !adopted && hadID ==> s.res == s.stored
    requires !adopted && !hadID ==> Done(s)
    ensures Good(s0, UpdateAndFinish(s, hadID, adopted), later)
  {
    hide Update, Finish, Patch, Done, Edits, Good, Found, InPlace;
    if adopted || (hadID && s.res.status.id != 0 && s.res.generation != s.res.status.observedGeneration) {
      assert Free(s0, s);
      UpdatePace(s0, s, later);
      var u := Update(s);
      if u.r.Ok? {
        FinishPace(s0, u.s, later);
      } else {
        ReportPace(s0, u.s, later);
        PaceIsGood(s0, Patch(u.s, Unready(u.s, Erroneous)).s, later);
        if NotFound in u.r.kinds { PaceIsGood(s0, Patch(u.s, u.s.res.status.(id := 0)).s, later); }
      }
    } else {
      FinishPace(s0, s, later);
    }
  }

  lemma ReconcileReadyPace(s0: State, s: State, later: Spec)
    requires Pace(s0, s, later) && InHand(s) && s.res.spec == s0.stored.spec && s.res.generation == s0.stored.generation
    requires s.stored.status.id == s0.stored.status.id && Onward(s0, s) && Sure(s0, later)
    ensures Good(s0, ReconcileReady(s), later)
  {
    hide EnsureExists, UpdateAndFinish, Get, Ask, Patch, Done, Edits, Good, Truthful, Version, Sure, Free, Pace;
    EnsureExistsPace(s0, s, later);
    var e := EnsureExists(s);
    var hadID := s.res.status.id != 0;
    ReadPace(s0, e.s, later);
    if e.r.Err? {
      ReportPace(s0, e.s, later);
      PaceIsGood(s0, ReconcileReady(s), later);
    } else if hadID && !e.adopted {
      var g := Get(e.s);
      if g.r.Err? { PaceIsGood(s0, g.s, later); } else { UpdateAndFinishPace(s0, g.s, hadID, e.adopted, later); }
    } else {
      UpdateAndFinishPace(s0, e.s, hadID, e.adopted, later);
    }
  }

  /** An activation, cut anywhere, keeps the claim true and leaves no untrue claim about the edit, provided
      that something is recorded, or can be adopted, or that what it would create covers the edit. */
  lemma ActivationPace(s: State, script: seq<Event>, later: Spec)
    requires s.rows.Valid() && s.stored.status.observedGeneration <= s.stored.generation && !s.stored.deleting
    requires s.stored.spec.name != "" && later.name != "" && Edits(script, later) && Sure(s, later)
    ensures Good(s, Reconcile(s, script), later)
  {
    hide ReconcileReady, Patch, SetFinalizer, Edits, Good, Sure, Found, InPlace, Advance;
    var m := s.(res := s.stored, script := script, crashed := false);
    if Truthful(s) { TruthfulCarries(s, m); }
    var f := if s.stored.finalizer then Outcome(m, Ok) else SetFinalizer(m, true);
    if !s.stored.finalizer { FinalizerPace(s, m, later); }
    if f.r.Err? {
      PaceIsGood(s, f.s, later);
    } else if !s.siteReady {
      ReportPace(s, f.s, later);
      PaceIsGood(s, Patch(f.s, Unready(f.s, Pending)).s, later);
    } else {
      ReconcileReadyPace(s, f.s, later);
    }
    hide Pace, Version;
  }

  lemma FinalizerPace(s0: State, s: State, later: Spec)
    requires Pace(s0, s, later) && s.res == s.stored && s.stored.generation == s0.stored.generation && Onward(s0, s)
    requires s.stored.status == s0.stored.status && s.stored.spec == s0.stored.spec
    ensures var f := SetFinalizer(s, true);
      && Pace(s0, f.s, later) && f.s.siteReady == s.siteReady
      && (f.r.Ok? ==> InHand(f.s) && f.s.res.spec == s0.stored.spec && f.s.res.generation == s0.stored.generation
                      && f.s.stored.status == s0.stored.status && Onward(s0, f.s))
  {
    hide Advance, Edits, InPlace, Found;
    if Halted(s) {
      HaltPace(s0, s, later);
    } else {
      AdvancePace(s0, s, later);
      var t, f := Advance(s), SetFinalizer(s, true).s;
      assert t.siteReady == s.siteReady by { AdvanceKeepsSite(s); }
      if f != t && Truthful(t) { TruthfulCarries(t, f); }
    }
  }

  lemma AdvanceKeepsSite(s: State)
    requires !Halted(s)
    ensures Advance(s).siteReady == s.siteReady
  {
  }

  // ---- Runs ----

  /** The invariant of runs: what the status claims is so. */
  ghost predicate Honest(s: State) {
    s.rows.Valid() && s.stored.status.observedGeneration <= s.stored.generation && s.stored.spec.name != "" && Truthful(s)
  }

  /** Nobody else deletes rows, names are not empty, and an edit during an activation is one that is not missed. */
  ghost predicate Seen(s: State, step: Step) {
    match step
    case Act(env) => !env.DropRow? && (env.EditSpec? ==> env.spec.name != "")
    case SetSite(_) => true
    case Activate(script) => !s.stored.deleting && exists later: Spec :: later.name != "" && Edits(script, later) && Sure(s, later)
  }

  /** In particular when nobody edits the object during an activation. */
  lemma QuietIsSeen(s: State, script: seq<Event>)
    requires Honest(s) && !s.stored.deleting && forall i :: 0 <= i < |script| ==> !script[i].env.DropRow? && !script[i].env.EditSpec?
    ensures Seen(s, Activate(script))
  {
    CoversItself(s);
    assert Edits(script, s.stored.spec) && Sure(s, s.stored.spec);
    hide Covers;
  }

  ghost predicate AllSeen(trace: seq<State>, steps: seq<Step>)
    requires |trace| == |steps| + 1
  {
    forall k :: 0 <= k < |steps| ==> Seen(trace[k], steps[k])
  }

  lemma EnvHonest(s: State, env: Env)
    requires Honest(s) && Seen(s, Act(env))
    ensures Honest(ApplyEnv(s, env))
  {
    hide Found, InPlace, Edits, Sure;
    TruthfulCarries(s, ApplyEnv(s, env));
    hide Truthful;
  }

  lemma SiteHonest(s: State, ready: bool)
    requires Honest(s)
    ensures Honest(s.(siteReady := ready))
  {
    TruthfulCarries(s, s.(siteReady := ready));
    hide Truthful;
  }

  lemma ActivationHonest(s: State, script: seq<Event>)
    requires Honest(s) && Seen(s, Activate(script))
    ensures Honest(Reconcile(s, script))
  {
    hide Reconcile, Truthful, Edits, Sure;
    var later: Spec :| later.name != "" && Edits(script, later) && Sure(s, later);
    ActivationPace(s, script, later);
  }

  lemma StepHonest(s: State, step: Step)
    requires Honest(s) && Seen(s, step)
    ensures Honest(Do(s, step))
  {
    hide Reconcile, ApplyEnv, Honest, Seen;
    match step
    case Act(env) => EnvHonest(s, env);
    case SetSite(ready) => SiteHonest(s, ready);
    case Activate(script) => ActivationHonest(s, script);
  }

  lemma {:induction false} RunHonest(trace: seq<State>, steps: seq<Step>, k: nat)
    requires IsRun(trace, steps) && k < |trace| && Honest(trace[0]) && AllSeen(trace, steps)
    ensures Honest(trace[k])
  {
    hide Honest, Do, Seen;
    if k > 0 {
      RunHonest(trace, steps, k - 1);
      StepHonest(trace[k - 1], steps[k - 1]);
    }
  }

  /** Ready is honest: until the object is cleaned up, a status that observes the current generation means
      that the recorded resource is live under its name, and that it is what the update makes it. */
  lemma ReadyIsHonest(trace: seq<State>, steps: seq<Step>, t: State)
    requires IsRun(trace, steps) && t in trace && Init(trace[0]) && AllSeen(trace, steps)
    requires trace[0].stored.generation >= 1 && trace[0].stored.spec.name != ""
    requires t.stored.status.observedGeneration == t.stored.generation
    ensures Found(t) && InPlace(t, t.stored.status.id)
  {
    hide IsRun, AllSeen, Found, InPlace;
    assert Honest(trace[0]) by { hide Recomposes; }
    var k :| 0 <= k < |trace| && trace[k] == t;
    RunHonest(trace, steps, k);
    hide Init;
  }

  // ---- Which edits are missed ----

  /** The object is reported ready for the edit, and the edit is not in place. */
  ghost predicate Misses(s: State, script: seq<Event>, later: Spec) {
    var t := Reconcile(s, script);
    Edits(script, later) && t.stored.spec == later && MarkedReady(t.stored) && !InPlace(t, t.stored.status.id)
  }

  /** The next n calls are undisturbed and answered; then the tail of the script is left. */
  ghost predicate Lead(s: State, n: nat, tail: seq<Event>) {
    && !s.crashed && |s.script| == n + |tail| && s.script[n..] == tail && s.res == s.stored
    && forall i :: 0 <= i < n ==> s.script[i].env.Calm? && s.script[i].reply.Served?
  }

  lemma LeadCall(s: State, n: nat, tail: seq<Event>)
    requires Lead(s, n + 1, tail)
    ensures !Halted(s) && s.script[0].reply.Served? && Advance(s) == s.(script := s.script[1..]) && Lead(Advance(s), n, tail)
  {
    assert s.script[1..][n..] == s.script[n + 1..];
  }

  lemma LeadPatch(s: State, after: Status, n: nat, tail: seq<Event>)
    requires Lead(s, n + 1, tail)
    ensures var p := Patch(s, after); p.r.Ok? && Lead(p.s, n, tail) && SameBesidesStatus(s, p.s) && p.s.stored.status == after
  {
    LeadCall(s, n, tail);
    MergeAll(s.res.status, after);
  }

  lemma LeadAsk(s: State, n: nat, tail: seq<Event>)
    requires Lead(s, n + 1, tail)
    ensures Ask(s).r.Ok? && Lead(Ask(s).s, n, tail) && SameBesidesStatus(s, Ask(s).s) && Ask(s).s.stored == s.stored
  {
    LeadCall(s, n, tail);
  }

  /** The calls before the patch that records a new resource. */
  function CallsBefore(spec: Spec): nat {
    if spec.mode == HTTP_MODE then 4 else 3
  }

  const CALM := Event(Calm, Served(0))

  /** The edit comes with that patch, and one more call is answered. */
  function Tail(later: Spec): seq<Event> {
    [Event(EditSpec(later), Served(0)), CALM]
  }

  function LateScript(spec: Spec, later: Spec): seq<Event> {
    seq(CallsBefore(spec), _ => CALM) + Tail(later)
  }

  lemma LeadAddress(s: State, n: nat, tail: seq<Event>)
    requires Lead(s, n + (if s.stored.spec.mode == HTTP_MODE then 1 else 0), tail) && AddressOf(s).Some?
    ensures var a := FindAddress(s);
      a.r.Ok? && a.address == AddressOf(s).value && Lead(a.s, n, tail) && SameBesidesStatus(s, a.s) && a.s.stored == s.stored
  {
    if s.stored.spec.mode == HTTP_MODE { LeadAsk(s, n, tail); }
    hide Ask, Resolve;
  }

  lemma LeadCreate(s: State, spec: Spec, address: Address, tail: seq<Event>)
    requires Lead(s, 1, tail) && s.rows.Valid()
    ensures var c := ApiCreate(s, spec, address);
      && c.r.Ok? && Lead(c.s, 0, tail) && c.s.stored == s.stored && c.s.domains == s.domains && c.s.siteID == s.siteID
      && c.id != 0 && c.id in c.s.rows.live && c.s.rows.live[c.id] == NewRow(s, spec, address)
  {
    LeadCall(s, 0, tail);
    hide NewRow;
  }

  /** The recording patch brings the edit, and the next one reports it observed. */
  lemma EditedRecord(s: State, id: nat, later: Spec)
    requires Lead(s, 0, Tail(later)) && later != s.stored.spec && !s.stored.deleting
    ensures var r := Record(s, id); var t := Finish(r.s);
      && r.r.Ok? && MarkedReady(t.stored) && t.stored.spec == later && t.stored.status.id == id
      && t.rows == s.rows && t.domains == s.domains && t.siteID == s.siteID
  {
    hide ApiDelete, MergeStatus;
    assert s.script == Tail(later) by { assert s.script[0..] == s.script; }
    var after := s.res.status.(id := id, phase := Creating);
    MergeAll(s.res.status, after);
    var r := Record(s, id).s;
    assert r.script == [CALM] && r.res == r.stored;
    MergeAll(r.res.status, Finished(r));
  }

  lemma LateScriptLeads(s: State, later: Spec)
    ensures var script := LateScript(s.stored.spec, later); var m := s.(res := s.stored, script := script, crashed := false);
      Edits(script, later) && Lead(m, CallsBefore(s.stored.spec), Tail(later))
  {
    var n, script := CallsBefore(s.stored.spec), LateScript(s.stored.spec, later);
    assert script[n..] == Tail(later);
    forall i | 0 <= i < |script| ensures MayDo(script[i].env, later) {
      if i >= n { assert script[i] == Tail(later)[i - n]; }
    }
  }

  /** An object that the reconciler will create a resource for. */
  ghost predicate NewObject(s: State) {
    && s.rows.Valid() && s.stored.finalizer && !s.stored.deleting && s.siteReady
    && s.stored.status.id == 0 && Existing(s).None? && AddressOf(s).Some?
  }

  lemma LateEdit(s: State, later: Spec)
    requires NewObject(s) && later != s.stored.spec && !Covers(s, later)
    ensures Misses(s, LateScript(s.stored.spec, later), later)
  {
    hide ApiList, Patch, FindAddress, ApiCreate, Record, Finish, Lead, Tail, LateScript, Resolve, NewRow, Updated, FindSiteResource, Named, Edits,
         CallsBefore;
    var spec, tail := s.stored.spec, Tail(later);
    var script := LateScript(spec, later);
    var dom := if spec.mode == HTTP_MODE then 1 else 0;
    LateScriptLeads(s, later);
    CallsAre(spec);
    var m := s.(res := s.stored, script := script, crashed := false);
    LeadList(m, 2 + dom, tail);
    var l := ApiList(m, spec.name).s;
    var creating := l.res.status.(phase := Creating);
    LeadPatch(l, creating, 1 + dom, tail);
    var p := Patch(l, creating).s;
    LeadCopy(l, 2 + dom, tail);
    LeadCopy(p, 1 + dom, tail);
    SameAddress(s, p);
    LeadAddress(p, 1, tail);
    var a := FindAddress(p);
    LeadCopy(a.s, 1, tail);
    LeadCreate(a.s, spec, a.address, tail);
    var c := ApiCreate(a.s, spec, a.address);
    EditedRecord(c.s, c.id, later);
    var r := Record(c.s, c.id);
    assert Create(l) == r;
    assert EnsureExists(m) == Ensured(r.s, Ok, false);
    assert Reconcile(s, script) == Finish(r.s);
    SameNewRow(s, a.s, spec, a.address);
    NotInPlace(s, Finish(r.s), c.id, later);
  }

  lemma CallsAre(spec: Spec)
    ensures CallsBefore(spec) == 3 + if spec.mode == HTTP_MODE then 1 else 0
  {
  }

  lemma LeadCopy(s: State, n: nat, tail: seq<Event>)
    requires Lead(s, n, tail)
    ensures s.res == s.stored
  {
  }

  lemma LeadList(s: State, n: nat, tail: seq<Event>)
    requires Lead(s, n + 1, tail)
    ensures var l := ApiList(s, s.stored.spec.name);
      && l.r.Ok? && Lead(l.s, n, tail) && SameBesidesStatus(s, l.s) && l.s.stored == s.stored
      && l.items == Named(s.rows.live, s.stored.spec.name, s.rows.next)
  {
    LeadAsk(s, n, tail);
    hide Ask, Named;
  }

  lemma NotInPlace(s: State, t: State, id: nat, later: Spec)
    requires AddressOf(s).Some? && !Covers(s, later) && t.stored.spec == later && t.domains == s.domains && t.siteID == s.siteID
    requires id in t.rows.live && t.rows.live[id] == NewRow(s, s.stored.spec, AddressOf(s).value)
    ensures !InPlace(t, id)
  {
    SameAddress(t, WithSpec(s, later));
    if AddressOf(t).Some? { SameUpdated(s, t, t.rows.live[id], later, AddressOf(t).value); }
    hide Updated, NewRow, Resolve;
  }

  /** For every edit, some activation in which others may make that edit ends with the object reported
      ready for it although it is not in place, exactly if a resource has to be created, none having been
      recorded, and what is created for the version before does not cover the edit. Where a resource is
      kept, adopted or created in the place of one that is gone, no edit is missed. */
  lemma LateEditIsMissed(s: State, later: Spec)
    requires s.rows.Valid() && s.stored.finalizer && !s.stored.deleting && s.siteReady
    requires s.stored.status.observedGeneration <= s.stored.generation
    requires s.stored.spec.name != "" && later.name != "" && later != s.stored.spec
    ensures (exists script :: Misses(s, script, later)) <==> s.stored.status.id == 0 && Existing(s).None? && !Covers(s, later)
  {
    hide Covers, Existing, Reconcile, InPlace, LateScript, Edits;
    if s.stored.status.id == 0 && Existing(s).None? && !Covers(s, later) {
      assert AddressOf(s).Some? by { UncoveredAddress(s, later); }
      LateEdit(s, later);
    }
    if exists script :: Misses(s, script, later) {
      var script :| Misses(s, script, later);
      if Sure(s, later) { ActivationPace(s, script, later); }
    }
  }

  lemma UncoveredAddress(s: State, later: Spec)
    requires !Covers(s, later)
    ensures AddressOf(s).Some?
  {
  }
}
