/** A status can keep hashes, IDs and an observed generation of a resource that is gone. Until the
    reconciler has populated or adopted another one it works as if they were not there; so what it
    does then can be read off the same state with a blank status. */
module PublicTwins {
  import opened Shared
  import opened Domains
  import opened Server
  import opened PublicResource
  import opened PublicSafety
  import opened PublicChildren
  import opened PublicSteps
  import opened PublicProtocol

  // ---- The blank twin of a state ----

  /** The status without anything that is claimed about a resource beyond its ID. */
  function Blank(st: Status): Status {
    Status(st.phase, st.resourceID, Tracked([], NoHash), Tracked([], NoHash), 0, NoCondition)
  }

  function Erased(s: State): State {
    s.(stored := s.stored.(status := Blank(s.stored.status)), res := s.res.(status := Blank(s.res.status)))
  }

  lemma AdvanceErased(s: State, call: Call)
    requires !Halted(s)
    ensures !Halted(Erased(s)) && Advance(Erased(s), call) == Erased(Advance(s, call))
  {
  }

  lemma BlankMerge(stored: Status, before: Status, after: Status)
    ensures Blank(MergeStatus(stored, before, after)) == MergeStatus(Blank(stored), Blank(before), Blank(after))
  {
  }

  lemma PatchErased(s: State, after: Status)
    ensures var p, q := Patch(s, after), Patch(Erased(s), Blank(after)); q == Outcome(Erased(p.s), p.r)
  {
    if !Halted(s) {
      AdvanceErased(s, PatchStatus);
      BlankMerge(Advance(s, PatchStatus).stored.status, s.res.status, after);
    }
    hide Advance, MergeStatus;
  }

  lemma GetErased(s: State)
    ensures Get(Erased(s)) == Outcome(Erased(Get(s).s), Get(s).r)
  {
    if !Halted(s) { AdvanceErased(s, GetObject); }
    hide Advance;
  }

  lemma ListErased(s: State, name: string)
    ensures ApiList(Erased(s), name) == Listed(Erased(ApiList(s, name).s), ApiList(s, name).r, ApiList(s, name).items)
  {
    if !Halted(s) { AdvanceErased(s, ListResources); }
    hide Advance, Listing;
  }

  lemma DomainErased(s: State)
    ensures var d := ChooseDomain(s); ChooseDomain(Erased(s)) == d.(s := Erased(d.s))
  {
    if !Halted(s) { AdvanceErased(s, ListDomains); }
    hide Advance, Resolve;
  }

  lemma CreateErased(s: State, q: CreateRequest)
    ensures var c := ApiCreate(s, q); ApiCreate(Erased(s), q) == c.(s := Erased(c.s))
  {
    if !Halted(s) { AdvanceErased(s, CreateResource); }
    hide Advance, Compose;
  }

  lemma UpdateErased(s: State, id: nat, q: UpdateRequest)
    ensures var u := ApiUpdate(s, id, q); ApiUpdate(Erased(s), id, q) == u.(s := Erased(u.s))
  {
    if !Halted(s) { AdvanceErased(s, UpdateResource(id)); }
    hide Advance, Apply;
  }

  lemma DeleteErased(s: State, id: nat)
    ensures var d := ApiDelete(s, id); ApiDelete(Erased(s), id) == d.(s := Erased(d.s))
  {
    if !Halted(s) { AdvanceErased(s, DeleteResource(id)); }
    hide Advance;
  }

  lemma PersistErased(s: State, id: nat)
    ensures var c := Persist(s, id); Persist(Erased(s), id) == c.(s := Erased(c.s))
  {
    hide Patch, ApiDelete;
    var after := s.res.status.(resourceID := id, phase := Creating);
    PatchErased(s, after);
    DeleteErased(Patch(s, after).s, id);
  }

  lemma CreateAndPersistErased(s: State)
    ensures var c := CreateAndPersist(s); CreateAndPersist(Erased(s)) == c.(s := Erased(c.s))
  {
    hide Patch, ChooseDomain, ApiCreate, Persist;
    var creating := s.res.status.(phase := Creating);
    PatchErased(s, creating);
    var p := Patch(s, creating).s;
    DomainErased(p);
    var d := ChooseDomain(p);
    var q := NewRequest(d.s.res.spec, d.id, d.subdomain);
    CreateErased(d.s, q);
    var c := ApiCreate(d.s, q);
    PersistErased(c.s, c.id);
  }

  lemma RowInsertedErased(t: State, kind: Kind, table: Store<Child>)
    ensures Erased(t.(remote := t.remote.WithTable(kind, table))) == Erased(t).(remote := t.remote.WithTable(kind, table))
  {
  }

  lemma ServeOneErased(b: Batch, kind: Kind, resource: nat, specs: seq<ChildSpec>, i: nat)
    requires |b.ids| == |specs| && i < |specs| && !Halted(b.s)
    ensures var c := ServeOne(b, kind, resource, specs, i);
      ServeOne(b.(s := Erased(b.s)), kind, resource, specs, i) == c.(s := Erased(c.s))
  {
    hide Advance, Row;
    var call := CreateChild(kind, resource, Handed(b.s, kind));
    assert Handed(Erased(b.s), kind) == Handed(b.s, kind);
    AdvanceErased(b.s, call);
    var t := Advance(b.s, call);
    assert Row(Erased(t), kind, resource, specs[i], i) == Row(t, kind, resource, specs[i], i) by { RowErased(t, kind, resource, specs[i], i); }
    var skip := if b.s.script[0].reply.Refused? then 0 else b.s.script[0].reply.skip;
    RowInsertedErased(t, kind, t.remote.Table(kind).Add(skip, Row(t, kind, resource, specs[i], i)));
    assert Erased(t).remote == t.remote && Erased(b.s).script == b.s.script;
    hide Erased, Handed;
  }

  lemma RowErased(t: State, kind: Kind, resource: nat, spec: ChildSpec, i: nat)
    ensures Row(Erased(t), kind, resource, spec, i) == Row(t, kind, resource, spec, i)
  {
  }

  lemma {:induction false} ServeAllErased(b: Batch, kind: Kind, resource: nat, specs: seq<ChildSpec>, pending: seq<nat>)
    requires |b.ids| == |specs| && forall j :: 0 <= j < |pending| ==> pending[j] < |specs|
    ensures var c := ServeAll(b, kind, resource, specs, pending);
      ServeAll(b.(s := Erased(b.s)), kind, resource, specs, pending) == c.(s := Erased(c.s))
    decreases |pending|
  {
    hide ServeOne;
    if pending != [] && !Halted(b.s) {
      var p := Chosen(pending, b.s.script[0].pick);
      ServeOneErased(b, kind, resource, specs, pending[p]);
      ServeAllErased(ServeOne(b, kind, resource, specs, pending[p]), kind, resource, specs, pending[..p] + pending[p + 1..]);
    }
  }

  lemma CreateChildrenErased(s: State, kind: Kind, resource: nat, specs: seq<ChildSpec>)
    ensures var b := CreateChildren(s, kind, resource, specs);
      CreateChildren(Erased(s), kind, resource, specs) == b.(s := Erased(b.s))
  {
    ServeAllErased(Batch(s, Zeros(|specs|), false, {}), kind, resource, specs, Indices(|specs|));
    hide ServeAll;
  }

  // ---- What populating a resource changes ----

  /** Either both statuses track the same, or the one still has the old hash where the other has none. */
  predicate KeptAlike(a: Tracked, b: Tracked, before: Tracked) {
    a == b || (a.hash == before.hash && b.hash == NoHash && (a.ids == before.ids || a.ids == b.ids))
  }

  predicate Alike(a: Status, b: Status, before: Status) {
    && b.phase == a.phase && b.resourceID == a.resourceID
    && a.observedGeneration == before.observedGeneration && b.observedGeneration == 0
    && a.condition == before.condition && b.condition == NoCondition
    && KeptAlike(a.targets, b.targets, before.targets) && KeptAlike(a.rules, b.rules, before.rules)
  }

  /** x and y are the same but for what is left in x of an earlier status. */
  predicate Cousins(x: State, y: State, before: Status) {
    && y == x.(stored := x.stored.(status := y.stored.status), res := x.res.(status := y.res.status))
    && Alike(x.stored.status, y.stored.status, before)
  }

  /** And what x tracks is new as well. */
  predicate Twins(x: State, y: State, before: Status) {
    && Cousins(x, y, before) && x.res == x.stored && y.res == y.stored
    && x.stored.status.targets == y.stored.status.targets && x.stored.status.rules == y.stored.status.rules
  }

  lemma ErasedCousins(s: State, before: Status)
    requires s.stored.status == before.(phase := s.stored.status.phase, resourceID := s.stored.status.resourceID)
    ensures Cousins(s, Erased(s), before)
  {
  }

  /** A patch of a copy that is in step. */
  function Patched(s: State, after: Status): Outcome
    requires !Halted(s)
  {
    var t := Advance(s, PatchStatus);
    var stored := t.stored.(status := after);
    match s.script[0].reply
    case Served(_) => Outcome(t.(stored := stored, res := stored), Ok)
    case Refused(_) => Outcome(t.(res := s.res.(status := after)), Err({}))
    case Lost(_, _) => Outcome(t.(stored := stored, res := s.res.(status := after)), Err({}))
  }

  lemma PatchInStep(s: State, after: Status)
    requires s.res.status == s.stored.status && !Halted(s)
    ensures Patch(s, after) == Patched(s, after)
  {
    assert Advance(s, PatchStatus).stored.status == s.stored.status;
    MergeAll(s.stored.status, after);
    hide Advance, MergeStatus;
  }

  lemma PatchCousins(s: State, after: Status, blank: Status, before: Status)
    requires s.res.status == s.stored.status && Alike(s.stored.status, Blank(s.stored.status), before) && Alike(after, blank, before)
    ensures var p, q := Patch(s, after), Patch(Erased(s), blank);
      && q.r == p.r && Cousins(p.s, q.s, before)
      && (p.r.Ok? ==> p.s.stored.status == after && q.s.stored.status == blank && p.s.res == p.s.stored && q.s.res == q.s.stored)
  {
    if !Halted(s) {
      PatchInStep(s, after);
      PatchInStep(Erased(s), blank);
      AdvanceErased(s, PatchStatus);
      assert Advance(s, PatchStatus).stored.status == s.stored.status;
      hide Patch;
    }
    hide Advance, MergeStatus, Alike;
  }

  /** Populating works the same on both; once it succeeds nothing is left of the earlier status but its
      observed generation. */
  lemma PopulateChildrenTwins(s: State, id: nat, before: Status)
    requires s.res.status == s.stored.status
    requires s.stored.status == before.(phase := s.stored.status.phase, resourceID := s.stored.status.resourceID)
    ensures var p, q := PopulateChildren(s, id), PopulateChildren(Erased(s), id);
      q.r == p.r && Cousins(p.s, q.s, before) && (p.r.Ok? ==> Twins(p.s, q.s, before))
  {
    hide CreateChildren, Patch;
    var st := s.stored.status;
    CreateChildrenErased(s, Targets, id, s.res.spec.targets);
    var t := CreateChildren(s, Targets, id, s.res.spec.targets);
    CreationKeepsStatus(s, Targets, id, s.res.spec.targets);
    if t.failed {
      ErasedCousins(t.s, before);
      PatchCousins(t.s, st.(targets := st.targets.(ids := t.ids)), Blank(st).(targets := Tracked(t.ids, NoHash)), before);
    } else {
      CreateChildrenErased(t.s, Rules, id, t.s.res.spec.rules);
      CreationKeepsStatus(t.s, Rules, id, t.s.res.spec.rules);
      var r := CreateChildren(t.s, Rules, id, t.s.res.spec.rules);
      if r.failed {
        PatchCousins(r.s, st.(targets := st.targets.(ids := t.ids), rules := st.rules.(ids := r.ids)),
                     Blank(st).(targets := Tracked(t.ids, NoHash), rules := Tracked(r.ids, NoHash)), before);
      } else {
        var targets, rules := Tracked(t.ids, HashOf(r.s.res.spec.targets)), Tracked(r.ids, HashOf(r.s.res.spec.rules));
        PatchCousins(r.s, st.(targets := targets, rules := rules), Blank(st).(targets := targets, rules := rules), before);
      }
    }
  }

  lemma {:induction false} ServeAllKeepsStatus(b: Batch, kind: Kind, resource: nat, specs: seq<ChildSpec>, pending: seq<nat>)
    requires |b.ids| == |specs| && forall j :: 0 <= j < |pending| ==> pending[j] < |specs|
    ensures var c := ServeAll(b, kind, resource, specs, pending); c.s.res == b.s.res && c.s.stored.status == b.s.stored.status
    decreases |pending|
  {
    if pending != [] && !Halted(b.s) {
      var p := Chosen(pending, b.s.script[0].pick);
      ServeOneKeepsStatus(b, kind, resource, specs, pending[p]);
      ServeAllKeepsStatus(ServeOne(b, kind, resource, specs, pending[p]), kind, resource, specs, pending[..p] + pending[p + 1..]);
    }
    hide ServeOne;
  }

  lemma ServeOneKeepsStatus(b: Batch, kind: Kind, resource: nat, specs: seq<ChildSpec>, i: nat)
    requires |b.ids| == |specs| && i < |specs| && !Halted(b.s)
    ensures var c := ServeOne(b, kind, resource, specs, i); c.s.res == b.s.res && c.s.stored.status == b.s.stored.status
  {
    var t := Advance(b.s, CreateChild(kind, resource, Handed(b.s, kind)));
    assert t.res == b.s.res && t.stored.status == b.s.stored.status;
    hide Advance, Row, Handed;
  }

  lemma CreationKeepsStatus(s: State, kind: Kind, resource: nat, specs: seq<ChildSpec>)
    ensures var b := CreateChildren(s, kind, resource, specs); b.s.res == s.res && b.s.stored.status == s.stored.status
  {
    ServeAllKeepsStatus(Batch(s, Zeros(|specs|), false, {}), kind, resource, specs, Indices(|specs|));
    hide ServeAll;
  }

  // ---- Ensuring existence ----

  /** Only phase and ID differ. */
  predicate Relabelled(st: Status, before: Status) {
    st == before.(phase := st.phase, resourceID := st.resourceID)
  }

  lemma PatchRelabels(s: State, after: Status, before: Status)
    requires s.res.status == s.stored.status && Relabelled(s.stored.status, before) && Relabelled(after, before)
    ensures var p := Patch(s, after);
      Relabelled(p.s.stored.status, before) && (p.r.Ok? ==> p.s.res == p.s.stored) && (p.r.Err? ==> p.s.stored.status in {s.stored.status, after})
  {
    if !Halted(s) {
      PatchInStep(s, after);
      assert Advance(s, PatchStatus).stored.status == s.stored.status;
      hide Patch;
    }
    hide Advance, MergeStatus;
  }

  lemma CallsKeepStatus(s: State)
    ensures forall q :: ApiCreate(s, q).s.stored.status == s.stored.status && ApiCreate(s, q).s.res == s.res
    ensures forall id, q :: ApiUpdate(s, id, q).s.stored.status == s.stored.status && ApiUpdate(s, id, q).s.res == s.res
    ensures forall id :: ApiDelete(s, id).s.stored.status == s.stored.status && ApiDelete(s, id).s.res == s.res
    ensures ChooseDomain(s).s.stored.status == s.stored.status && ChooseDomain(s).s.res == s.res
    ensures Get(s).s.stored.status == s.stored.status && (Get(s).r.Ok? ==> Get(s).s.res == Get(s).s.stored)
    ensures forall name :: ApiList(s, name).s.stored.status == s.stored.status && ApiList(s, name).s.res == s.res
  {
    if !Halted(s) {
      forall call ensures Advance(s, call).stored.status == s.stored.status && Advance(s, call).res == s.res {}
    }
    hide Advance, Apply, Compose, Resolve, Listing;
  }

  lemma CreateAndPersistRelabels(s: State)
    requires s.res.status == s.stored.status
    ensures var c := CreateAndPersist(s);
      Relabelled(c.s.stored.status, s.stored.status) && (c.r.Ok? ==> c.s.res == c.s.stored)
  {
    hide Patch, ChooseDomain, ApiCreate, ApiDelete, ApiUpdate, ApiList, Get;
    var before := s.stored.status;
    var creating := s.res.status.(phase := Creating);
    PatchRelabels(s, creating, before);
    var p := Patch(s, creating);
    CallsKeepStatus(p.s);
    var d := ChooseDomain(p.s);
    CallsKeepStatus(d.s);
    var c := ApiCreate(d.s, NewRequest(d.s.res.spec, d.id, d.subdomain));
    if p.r.Ok? && d.r.Ok? && c.r.Ok? {
      var after := c.s.res.status.(resourceID := c.id, phase := Creating);
      PatchRelabels(c.s, after, before);
      CallsKeepStatus(Patch(c.s, after).s);
    }
  }

  lemma CreateTwins(s: State)
    requires s.res.status == s.stored.status
    ensures var p, q := Create(s), Create(Erased(s)); var before := s.stored.status;
      q.r == p.r && Cousins(p.s, q.s, before) && (p.r.Ok? ==> Twins(p.s, q.s, before))
  {
    hide CreateAndPersist, PopulateChildren, Get, ApiUpdate, ApiCreate, ApiDelete, ApiList, ChooseDomain, Cousins, Erased, Twins;
    var before := s.stored.status;
    CreateAndPersistErased(s);
    CreateAndPersistRelabels(s);
    var c := CreateAndPersist(s);
    ErasedCousins(c.s, before);
    if c.r.Ok? {
      GetErased(c.s);
      CallsKeepStatus(c.s);
      var g := Get(c.s);
      ErasedCousins(g.s, before);
      ErasedSpec(g.s);
      if g.r.Ok? {
        var r := PostCreateRequest(g.s.res.spec);
        UpdateErased(g.s, c.id, r);
        CallsKeepStatus(g.s);
        var u := ApiUpdate(g.s, c.id, r);
        ErasedCousins(u.s, before);
        if u.r.Ok? { PopulateChildrenTwins(u.s, c.id, before); }
      }
    }
  }

  lemma ErasedSpec(s: State)
    ensures Erased(s).res.spec == s.res.spec && Erased(s).stored.spec == s.stored.spec && Erased(s).crashed == s.crashed
    ensures Erased(s).remote == s.remote && Erased(s).script == s.script && Erased(s).res.status.resourceID == s.res.status.resourceID
  {
  }

  /** Checking for existence works the same on both states, when the recorded resource is not listed. */
  lemma EnsureExistsTwins(s: State)
    requires s.res.status == s.stored.status
    requires var l := ApiList(s, s.res.spec.name); l.r.Ok? && s.stored.status.resourceID != 0 ==> !Lists(l.items, s.stored.status.resourceID)
    ensures var p, q := EnsureExists(s), EnsureExists(Erased(s)); var before := s.stored.status;
      q.r == p.r && q.adopted == p.adopted && Cousins(p.s, q.s, before) && (p.r.Ok? ==> Twins(p.s, q.s, before))
  {
    hide ApiList, Create, Patch, FindResource, Lists, ApiCreate, ApiDelete, ApiUpdate, ChooseDomain, Get, Erased;
    var before := s.stored.status;
    ListErased(s, s.res.spec.name);
    CallsKeepStatus(s);
    ErasedSpec(s);
    var l := ApiList(s, s.res.spec.name);
    ErasedSpec(l.s);
    ErasedCousins(l.s, before);
    if l.r.Ok? {
      if FindResource(l.items, l.s.res.spec).Some? {
        var id := FindResource(l.items, l.s.res.spec).value.id;
        var after := Adopted(before, id);
        AdoptTwins(l.s, id);
      } else {
        CreateTwins(l.s);
      }
    }
  }

  lemma AdoptTwins(s: State, id: nat)
    requires s.res.status == s.stored.status
    ensures var before := s.stored.status;
      var p, q := Patch(s, Adopted(s.res.status, id)), Patch(Erased(s), Adopted(Erased(s).res.status, id));
      q.r == p.r && Cousins(p.s, q.s, before) && (p.r.Ok? ==> Twins(p.s, q.s, before))
  {
    var after := Adopted(s.stored.status, id);
    assert Blank(after) == Adopted(Blank(s.stored.status), id);
    PatchCousins(s, after, Blank(after), s.stored.status);
    hide Patch;
  }
}
