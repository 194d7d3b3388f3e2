/** Activations during which others do nothing but make one edit, and activations in which that edit
    comes with a certain call. */
module PublicConfined {
  import opened Shared
  import opened Domains
  import opened Server
  import opened PublicResource
  import opened PublicSafety
  import opened PublicChildren
  import opened PublicRuns
  import opened PublicConvergence
  import opened PublicBoundaries

  // ---- Nothing but one edit ----

  /** Others may make one edit, again and again, at any time. */
  ghost predicate Edits(script: seq<Event>, later: Spec) {
    forall i :: 0 <= i < |script| ==> script[i].env == Calm || script[i].env == EditSpec(later)
  }

  /** The object has the versions that it had, or those and the later one. */
  ghost predicate Confined(s: State, vs: seq<Spec>, later: Spec) {
    && Edits(s.script, later) && vs != [] && (s.versions == vs || s.versions == vs + [later])
    && s.stored.spec == s.versions[|s.versions| - 1] && s.stored.generation == |s.versions|
  }

  lemma AdvanceConfined(s: State, call: Call, vs: seq<Spec>, later: Spec)
    requires Confined(s, vs, later) && !Halted(s)
    ensures Confined(Advance(s, call), vs, later) && Advance(s, call).remote == s.remote && Advance(s, call).res == s.res
  {
    assert s.script[0].env == Calm || s.script[0].env == EditSpec(later);
  }

  lemma SameConfined(s: State, t: State, vs: seq<Spec>, later: Spec)
    requires Confined(s, vs, later) && t.script == s.script && t.versions == s.versions
    requires t.stored.spec == s.stored.spec && t.stored.generation == s.stored.generation
    ensures Confined(t, vs, later)
  {
  }

  /** A step of the environment, then a change to status, copy or server. */
  lemma AfterAdvance(s: State, call: Call, t: State, vs: seq<Spec>, later: Spec)
    requires Confined(s, vs, later) && !Halted(s)
    requires var m := Advance(s, call);
      t.script == m.script && t.versions == m.versions && t.stored.spec == m.stored.spec && t.stored.generation == m.stored.generation
    ensures Confined(t, vs, later)
  {
    hide Advance;
    AdvanceConfined(s, call, vs, later);
    SameConfined(Advance(s, call), t, vs, later);
  }

  lemma PatchConfined(s: State, after: Status, vs: seq<Spec>, later: Spec)
    requires Confined(s, vs, later)
    ensures Confined(Patch(s, after).s, vs, later)
  {
    hide Advance, MergeStatus, Confined;
    if Halted(s) { SameConfined(s, Halt(s), vs, later); } else { AfterAdvance(s, PatchStatus, Patch(s, after).s, vs, later); }
  }

  lemma ReadConfined(s: State, name: string, vs: seq<Spec>, later: Spec)
    requires Confined(s, vs, later)
    ensures Confined(Get(s).s, vs, later) && Confined(ChooseDomain(s).s, vs, later) && Confined(ApiList(s, name).s, vs, later)
  {
    hide Advance, Resolve, Listing, Confined;
    if Halted(s) {
      SameConfined(s, Halt(s), vs, later);
    } else {
      AfterAdvance(s, GetObject, Get(s).s, vs, later);
      if ChooseDomain(s).s != s { AfterAdvance(s, ListDomains, ChooseDomain(s).s, vs, later); }
      AfterAdvance(s, ListResources, ApiList(s, name).s, vs, later);
    }
  }

  lemma CreateConfined(s: State, q: CreateRequest, vs: seq<Spec>, later: Spec)
    requires Confined(s, vs, later)
    ensures Confined(ApiCreate(s, q).s, vs, later)
  {
    hide Advance, Compose, Confined;
    if Halted(s) { SameConfined(s, Halt(s), vs, later); } else { AfterAdvance(s, CreateResource, ApiCreate(s, q).s, vs, later); }
  }

  lemma WriteConfined(s: State, id: nat, q: UpdateRequest, vs: seq<Spec>, later: Spec)
    requires Confined(s, vs, later)
    ensures Confined(ApiUpdate(s, id, q).s, vs, later) && Confined(ApiDelete(s, id).s, vs, later)
  {
    hide Advance, Apply, Confined;
    if Halted(s) {
      SameConfined(s, Halt(s), vs, later);
    } else {
      AfterAdvance(s, UpdateResource(id), ApiUpdate(s, id, q).s, vs, later);
      AfterAdvance(s, DeleteResource(id), ApiDelete(s, id).s, vs, later);
    }
  }

  lemma {:induction false} ServeAllConfined(b: Batch, kind: Kind, resource: nat, specs: seq<ChildSpec>, pending: seq<nat>, vs: seq<Spec>, later: Spec)
    requires Confined(b.s, vs, later) && |b.ids| == |specs| && forall j :: 0 <= j < |pending| ==> pending[j] < |specs|
    ensures Confined(ServeAll(b, kind, resource, specs, pending).s, vs, later)
    decreases |pending|
  {
    hide Confined, ServeOne;
    if pending != [] {
      if Halted(b.s) {
        SameConfined(b.s, Halt(b.s), vs, later);
      } else {
        var p := Chosen(pending, b.s.script[0].pick);
        ServeOneConfined(b, kind, resource, specs, pending[p], vs, later);
        ServeAllConfined(ServeOne(b, kind, resource, specs, pending[p]), kind, resource, specs, pending[..p] + pending[p + 1..], vs, later);
      }
    }
  }

  lemma ServeOneConfined(b: Batch, kind: Kind, resource: nat, specs: seq<ChildSpec>, i: nat, vs: seq<Spec>, later: Spec)
    requires Confined(b.s, vs, later) && |b.ids| == |specs| && i < |specs| && !Halted(b.s)
    ensures Confined(ServeOne(b, kind, resource, specs, i).s, vs, later)
  {
    hide Advance, Confined, Row, Handed;
    AfterAdvance(b.s, CreateChild(kind, resource, Handed(b.s, kind)), ServeOne(b, kind, resource, specs, i).s, vs, later);
  }

  lemma CreationConfined(s: State, kind: Kind, resource: nat, specs: seq<ChildSpec>, vs: seq<Spec>, later: Spec)
    requires Confined(s, vs, later)
    ensures Confined(CreateChildren(s, kind, resource, specs).s, vs, later)
  {
    ServeAllConfined(Batch(s, Zeros(|specs|), false, {}), kind, resource, specs, Indices(|specs|), vs, later);
    hide ServeAll;
  }

  lemma {:induction false} DeletionConfined(s: State, kind: Kind, resource: nat, ids: seq<nat>, vs: seq<Spec>, later: Spec)
    requires Confined(s, vs, later)
    ensures Confined(DeleteChildren(s, kind, resource, ids), vs, later)
    decreases |ids|
  {
    hide Confined, DeleteOne;
    if ids != [] {
      DeleteOneConfined(s, kind, resource, ids[0], vs, later);
      DeletionConfined(DeleteOne(s, kind, resource, ids[0]), kind, resource, ids[1..], vs, later);
    }
  }

  lemma DeleteOneConfined(s: State, kind: Kind, resource: nat, id: nat, vs: seq<Spec>, later: Spec)
    requires Confined(s, vs, later)
    ensures Confined(DeleteOne(s, kind, resource, id), vs, later)
  {
    hide Advance, Confined;
    if Halted(s) {
      SameConfined(s, Halt(s), vs, later);
    } else {
      AfterAdvance(s, DeleteChild(kind, id), DeleteOne(s, kind, resource, id), vs, later);
    }
  }

  // ---- The edit comes with a certain call ----

  /** The next n calls are undisturbed and answered; then the tail of the script is left. */
  ghost predicate Lead(s: State, n: nat, tail: seq<Event>) {
    && !s.crashed && |s.script| == n + |tail| && s.script[n..] == tail
    && forall i :: 0 <= i < n ==> s.script[i].env.Calm? && s.script[i].reply.Served?
  }

  lemma LeadCall(s: State, call: Call, n: nat, tail: seq<Event>)
    requires Lead(s, n + 1, tail)
    ensures !Halted(s) && s.script[0].reply.Served? && Lead(Advance(s, call), n, tail)
    ensures Advance(s, call) == s.(script := s.script[1..], log := s.log + [Entry(call, s.script[0].reply)])
  {
    assert s.script[1..][n..] == s.script[n + 1..];
  }

  lemma LeadPatch(s: State, after: Status, n: nat, tail: seq<Event>)
    requires Lead(s, n + 1, tail) && s.res == s.stored
    ensures var p := Patch(s, after);
      && p.r.Ok? && Lead(p.s, n, tail) && p.s.stored == s.stored.(status := after) && p.s.res == p.s.stored
      && p.s.remote == s.remote && p.s.versions == s.versions
  {
    LeadCall(s, PatchStatus, n, tail);
    MergeAll(s.res.status, after);
    hide Advance, MergeStatus;
  }

  lemma LeadGet(s: State, n: nat, tail: seq<Event>)
    requires Lead(s, n + 1, tail)
    ensures var g := Get(s);
      g.r.Ok? && Lead(g.s, n, tail) && g.s.stored == s.stored && g.s.res == s.stored && g.s.remote == s.remote && g.s.versions == s.versions
  {
    LeadCall(s, GetObject, n, tail);
    hide Advance;
  }

  lemma LeadDomain(s: State, n: nat, tail: seq<Event>)
    requires Lead(s, n + (if NeedsDomain(s.stored.spec) then 1 else 0), tail) && s.res == s.stored && Resolvable(s)
    ensures var d := ChooseDomain(s);
      d.r.Ok? && Lead(d.s, n, tail) && d.s.stored == s.stored && d.s.res == s.res && d.s.remote == s.remote && d.s.versions == s.versions
  {
    if NeedsDomain(s.stored.spec) { LeadCall(s, ListDomains, n, tail); }
    hide Advance, Resolve;
  }

  lemma LeadCreate(s: State, q: CreateRequest, n: nat, tail: seq<Event>)
    requires Lead(s, n + 1, tail)
    ensures var c := ApiCreate(s, q);
      c.r.Ok? && Lead(c.s, n, tail) && c.s.stored == s.stored && c.s.res == s.res && c.s.versions == s.versions
  {
    LeadCall(s, CreateResource, n, tail);
    hide Advance, Compose;
  }

  lemma LeadUpdate(s: State, id: nat, q: UpdateRequest, n: nat, tail: seq<Event>)
    requires Lead(s, n + 1, tail) && id in s.remote.resources.live
    ensures var u := ApiUpdate(s, id, q);
      u.r.Ok? && Lead(u.s, n, tail) && u.s.stored == s.stored && u.s.res == s.res && u.s.versions == s.versions
  {
    LeadCall(s, UpdateResource(id), n, tail);
    hide Advance, Apply;
  }

  lemma LeadServeOne(b: Batch, kind: Kind, resource: nat, specs: seq<ChildSpec>, i: nat, n: nat, tail: seq<Event>)
    requires Lead(b.s, n + 1, tail) && |b.ids| == |specs| && i < |specs| && resource in b.s.remote.resources.live
    ensures var c := ServeOne(b, kind, resource, specs, i);
      && Lead(c.s, n, tail) && c.failed == b.failed && c.s.remote.resources == b.s.remote.resources
      && c.s.stored == b.s.stored && c.s.res == b.s.res && c.s.versions == b.s.versions
  {
    assert b.s.script != [];
    LeadCall(b.s, CreateChild(kind, resource, Handed(b.s, kind)), n, tail);
    hide Advance, Row, Handed;
  }

  lemma {:induction false} LeadServeAll(b: Batch, kind: Kind, resource: nat, specs: seq<ChildSpec>, pending: seq<nat>, n: nat, tail: seq<Event>)
    requires Lead(b.s, n + |pending|, tail) && |b.ids| == |specs| && resource in b.s.remote.resources.live
    requires forall j :: 0 <= j < |pending| ==> pending[j] < |specs|
    ensures var c := ServeAll(b, kind, resource, specs, pending);
      && Lead(c.s, n, tail) && c.failed == b.failed && c.s.remote.resources == b.s.remote.resources
      && c.s.stored == b.s.stored && c.s.res == b.s.res && c.s.versions == b.s.versions
    decreases |pending|
  {
    hide ServeOne;
    if pending != [] {
      var p := Chosen(pending, b.s.script[0].pick);
      var rest := pending[..p] + pending[p + 1..];
      LeadServeOne(b, kind, resource, specs, pending[p], n + |rest|, tail);
      LeadServeAll(ServeOne(b, kind, resource, specs, pending[p]), kind, resource, specs, rest, n, tail);
    }
  }

  lemma LeadChildren(s: State, kind: Kind, resource: nat, specs: seq<ChildSpec>, n: nat, tail: seq<Event>)
    requires Lead(s, n + |specs|, tail) && resource in s.remote.resources.live
    ensures var b := CreateChildren(s, kind, resource, specs);
      && Lead(b.s, n, tail) && !b.failed && b.s.remote.resources == s.remote.resources
      && b.s.stored == s.stored && b.s.res == s.res && b.s.versions == s.versions
  {
    LeadServeAll(Batch(s, Zeros(|specs|), false, {}), kind, resource, specs, Indices(|specs|), n, tail);
    hide ServeAll;
  }

  lemma {:induction false} LeadDeletion(s: State, kind: Kind, resource: nat, ids: seq<nat>, n: nat, tail: seq<Event>)
    requires Lead(s, n + |ids|, tail)
    ensures var t := DeleteChildren(s, kind, resource, ids);
      Lead(t, n, tail) && t.remote.resources == s.remote.resources && t.stored == s.stored && t.res == s.res && t.versions == s.versions
    decreases |ids|
  {
    hide Lead, DeleteOne;
    if ids != [] {
      LeadDeleteOne(s, kind, resource, ids[0], n + |ids| - 1, tail);
      LeadDeletion(DeleteOne(s, kind, resource, ids[0]), kind, resource, ids[1..], n, tail);
    }
  }

  lemma LeadDeleteOne(s: State, kind: Kind, resource: nat, id: nat, n: nat, tail: seq<Event>)
    requires Lead(s, n + 1, tail)
    ensures var t := DeleteOne(s, kind, resource, id);
      Lead(t, n, tail) && t.remote.resources == s.remote.resources && t.stored == s.stored && t.res == s.res && t.versions == s.versions
  {
    LeadCall(s, DeleteChild(kind, id), n, tail);
    hide Advance;
  }

  /** The edit comes with the next call, and then there are more calls, undisturbed and answered. */
  function Tail(later: Spec, more: nat): seq<Event> {
    [Event(EditSpec(later), 0, Served(0))] + Plain(more)
  }

  /** The edit comes with the call after the first n. */
  function EditedAt(n: nat, later: Spec, more: nat): seq<Event> {
    Plain(n) + Tail(later, more)
  }

  lemma EditedAtLeads(s: State, n: nat, later: Spec, more: nat)
    ensures var script := EditedAt(n, later, more); Edits(script, later) && Lead(Start(s, script), n, Tail(later, more))
  {
    var script := EditedAt(n, later, more);
    assert forall i :: 0 <= i < n ==> script[i] == Plain(n)[i];
    assert script[n..] == Tail(later, more);
    forall i | 0 <= i < |script| ensures script[i].env == Calm || script[i].env == EditSpec(later) {
      if i > n { assert script[i] == Plain(more)[i - n - 1]; }
    }
  }

  lemma EditedPatch(s: State, after: Status, later: Spec, more: nat)
    requires Lead(s, 0, Tail(later, more)) && s.res == s.stored && later != s.stored.spec && !s.stored.Gone()
    ensures var p := Patch(s, after);
      && p.r.Ok? && p.s.script == Plain(more) && Fuel(p.s, more) && p.s.remote == s.remote && p.s.res == p.s.stored
      && p.s.stored == s.stored.(spec := later, generation := s.stored.generation + 1, status := after)
      && p.s.versions == s.versions + [later]
  {
    var tail := Tail(later, more);
    assert s.script == tail by { assert s.script[0..] == s.script; }
    assert tail[1..] == Plain(more);
    MergeAll(s.res.status, after);
    hide MergeStatus;
  }

  lemma LeadList(s: State, name: string, n: nat, tail: seq<Event>)
    requires Lead(s, n + 1, tail)
    ensures var l := ApiList(s, name);
      l.r.Ok? && Lead(l.s, n, tail) && l.s.stored == s.stored && l.s.res == s.res && l.s.remote == s.remote && l.s.versions == s.versions
  {
    LeadCall(s, ListResources, n, tail);
    hide Advance, Listing;
  }
}
