/** Targets and rules: what parallel creation and the swap of old for new children keep. */
module PublicChildren {
  import opened Shared
  import opened Server
  import opened PublicResource
  import opened PublicSafety

  function Other(kind: Kind): Kind {
    if kind == Targets then Rules else Targets
  }

  /** t comes from s by adding rows to one child table. */
  ghost predicate Grew(s: State, t: State, kind: Kind) {
    var before, after := s.remote.Table(kind), t.remote.Table(kind);
    && Follows(s, t) && t.res == s.res && t.stored.status == s.stored.status
    && t.remote.resources == s.remote.resources
    && t.remote.Table(Other(kind)) == s.remote.Table(Other(kind))
    && before.next <= after.next
    && (forall id :: id in before.live ==> id in after.live && after.live[id] == before.live[id])
    && (forall id :: id in after.live && id !in before.live ==> before.next <= id)
  }

  lemma GrewChain(s: State, t: State, u: State, kind: Kind)
    requires Grew(s, t, kind) && Grew(t, u, kind)
    ensures Grew(s, u, kind)
  {
    FollowsChain(s, t, u) by { hide Follows; }
    hide Follows;
  }

  ghost predicate Sound(s: State) {
    Base(s) && Unique(s) && Tame(s.script, s.stored.spec)
  }

  lemma GrewBacked(s: State, t: State, st: Status, kind: Kind)
    requires Backed(s, st) && Grew(s, t, kind)
    ensures Backed(t, st)
  {
    forall k ensures Honest(t, st, k) {
      assert Honest(s, st, k) by { if k == Targets {} }
      if st.Kept(k).hash.HashOf? {
        var v :| 0 <= v < |s.versions| && s.versions[v].Children(k) == st.Kept(k).hash.specs;
        assert t.versions[v] == s.versions[v];
      }
      if k == kind {} else { assert k == Other(kind); }
    }
  }

  /** Every filled slot names a live row, created since `base`, with the content of its item. */
  ghost predicate Slots(s: State, kind: Kind, resource: nat, specs: seq<ChildSpec>, ids: seq<nat>, base: nat) {
    var live := s.remote.Table(kind).live;
    && |ids| == |specs|
    && forall i :: 0 <= i < |ids| && ids[i] != 0 ==>
         base <= ids[i] && ids[i] in live && live[ids[i]] == Row(s, kind, resource, specs[i], i)
  }

  lemma SlotsGrew(s: State, t: State, kind: Kind, resource: nat, specs: seq<ChildSpec>, ids: seq<nat>, base: nat)
    requires Slots(s, kind, resource, specs, ids, base) && Grew(s, t, kind)
    ensures Slots(t, kind, resource, specs, ids, base)
  {
  }

  lemma RowInserted(s: State, t: State, kind: Kind, skip: nat, child: Child)
    requires Base(s) && Unique(s) && child.resource in s.remote.resources.live
    requires t == s.(remote := s.remote.WithTable(kind, s.remote.Table(kind).Add(skip, child)))
    ensures Base(t) && Unique(t) && Grew(s, t, kind)
    ensures s.remote.Table(kind).next + skip in t.remote.Table(kind).live
    ensures t.remote.Table(kind).live[s.remote.Table(kind).next + skip] == child
    ensures s.remote.Table(kind).next + skip > 0
  {
    if kind == Targets {} else {}
  }

  /** The row of an item, in its slot. */
  lemma SlotFilled(s: State, t: State, kind: Kind, resource: nat, specs: seq<ChildSpec>, i: nat, ids: seq<nat>, base: nat, skip: nat)
    requires Base(s) && Unique(s) && i < |specs| && resource in s.remote.resources.live
    requires Slots(s, kind, resource, specs, ids, base) && base <= s.remote.Table(kind).next
    requires t == s.(remote := s.remote.WithTable(kind, s.remote.Table(kind).Add(skip, Row(s, kind, resource, specs[i], i))))
    ensures Base(t) && Unique(t) && Grew(s, t, kind) && s.remote.Table(kind).next + skip > 0
    ensures Slots(t, kind, resource, specs, ids, base)
    ensures Slots(t, kind, resource, specs, ids[i := s.remote.Table(kind).next + skip], base)
  {
    hide Base, Unique, Grew, Content;
    RowInserted(s, t, kind, skip, Row(s, kind, resource, specs[i], i));
    SlotsGrew(s, t, kind, resource, specs, ids, base);
  }

  lemma {:induction false} ServeOneKeeps(b: Batch, kind: Kind, resource: nat, specs: seq<ChildSpec>, i: nat, base: nat)
    requires !Halted(b.s) && Sound(b.s) && i < |specs| && resource in b.s.remote.resources.live
    requires Slots(b.s, kind, resource, specs, b.ids, base) && base <= b.s.remote.Table(kind).next
    ensures var c := ServeOne(b, kind, resource, specs, i);
      && Grew(b.s, c.s, kind) && Sound(c.s) && (Synced(b.s) ==> Synced(c.s)) && !c.s.crashed
      && Slots(c.s, kind, resource, specs, c.ids, base)
      && (NotFound in c.kinds ==> NotFound in b.kinds)
      && (!c.failed ==> !b.failed && c.ids[i] != 0)
      && (forall j :: 0 <= j < |specs| && j != i ==> c.ids[j] == b.ids[j])
  {
    hide Base, Unique, Advance, Tame, Grew, Row, Slots;
    SlotsLength(b.s, kind, resource, specs, b.ids, base);
    var c := ServeOne(b, kind, resource, specs, i);
    AdvanceFollows(b.s, CreateChild(kind, resource, Handed(b.s, kind)));
    var t := Advance(b.s, CreateChild(kind, resource, Handed(b.s, kind)));
    EnvGrew(b.s, t, kind);
    SlotsGrew(b.s, t, kind, resource, specs, b.ids, base);
    if c.s != t {
      SlotFilled(t, c.s, kind, resource, specs, i, b.ids, base, b.s.script[0].reply.skip);
      GrewChain(b.s, t, c.s, kind);
    }
  }

  lemma EnvGrew(s: State, t: State, kind: Kind)
    requires EnvOnly(s, t)
    ensures Grew(s, t, kind)
  {
  }

  /** Every slot is filled or still pending. */
  ghost predicate Filled(ids: seq<nat>, pending: seq<nat>) {
    forall j :: 0 <= j < |ids| && ids[j] == 0 ==> j in pending
  }

  lemma FilledStep(ids: seq<nat>, later: seq<nat>, pending: seq<nat>, p: nat)
    requires Filled(ids, pending) && p < |pending| && |later| == |ids| && pending[p] < |ids|
    requires forall j :: 0 <= j < |ids| && j != pending[p] ==> later[j] == ids[j]
    requires later[pending[p]] != 0
    ensures Filled(later, pending[..p] + pending[p + 1..])
  {
    var rest := pending[..p] + pending[p + 1..];
    forall j | 0 <= j < |later| && later[j] == 0 ensures j in rest {
      var k :| 0 <= k < |pending| && pending[k] == j;
      assert rest[if k < p then k else k - 1] == j;
    }
  }

  /** For every schedule of the parallel calls: success fills every slot. */
  lemma {:induction false} ServeAllKeeps(b: Batch, kind: Kind, resource: nat, specs: seq<ChildSpec>, pending: seq<nat>, base: nat)
    requires Sound(b.s) && resource in b.s.remote.resources.live
    requires forall j :: 0 <= j < |pending| ==> pending[j] < |specs|
    requires Slots(b.s, kind, resource, specs, b.ids, base) && base <= b.s.remote.Table(kind).next
    requires !b.failed ==> Filled(b.ids, pending)
    ensures var c := ServeAll(b, kind, resource, specs, pending);
      && Grew(b.s, c.s, kind) && Sound(c.s) && (Synced(b.s) ==> Synced(c.s))
      && Slots(c.s, kind, resource, specs, c.ids, base)
      && (NotFound in c.kinds ==> NotFound in b.kinds)
      && (!c.failed ==> !b.failed && c.s.crashed == b.s.crashed && Filled(c.ids, []))
    decreases |pending|
  {
    hide Base, Unique, Tame, Grew, Slots, ServeOne, Synced, Filled, Sound;
    if pending == [] {
      SelfGrew(b.s, kind);
    } else if Halted(b.s) {
      HaltGrew(b.s, kind);
      SlotsGrew(b.s, Halt(b.s), kind, resource, specs, b.ids, base);
    } else {
      var p := Chosen(pending, b.s.script[0].pick);
      var i := pending[p];
      var rest := pending[..p] + pending[p + 1..];
      SlotsLength(b.s, kind, resource, specs, b.ids, base);
      var m := ServeOne(b, kind, resource, specs, i);
      ServeOneKeeps(b, kind, resource, specs, i, base);
      if !m.failed { FilledStep(b.ids, m.ids, pending, p); }
      GrewNext(b.s, m.s, kind);
      ServeAllKeeps(m, kind, resource, specs, rest, base);
      var c := ServeAll(m, kind, resource, specs, rest);
      GrewChain(b.s, m.s, c.s, kind);
    }
  }

  lemma SelfGrew(s: State, kind: Kind)
    ensures Grew(s, s, kind)
  {
  }

  lemma HaltGrew(s: State, kind: Kind)
    ensures Grew(s, Halt(s), kind) && (Sound(s) ==> Sound(Halt(s))) && Synced(Halt(s))
  {
  }

  lemma SlotsLength(s: State, kind: Kind, resource: nat, specs: seq<ChildSpec>, ids: seq<nat>, base: nat)
    requires Slots(s, kind, resource, specs, ids, base)
    ensures |ids| == |specs|
  {
  }

  lemma GrewNext(s: State, t: State, kind: Kind)
    requires Grew(s, t, kind)
    ensures s.remote.Table(kind).next <= t.remote.Table(kind).next && t.remote.resources == s.remote.resources
  {
  }

  lemma {:induction false} NonZeroOf(ids: seq<nat>)
    ensures forall k :: 0 <= k < |NonZero(ids)| ==> NonZero(ids)[k] != 0 && NonZero(ids)[k] in ids
  {
    if ids != [] {
      NonZeroOf(ids[1..]);
      var rest := NonZero(ids[1..]);
      forall k | 0 <= k < |NonZero(ids)| ensures NonZero(ids)[k] != 0 && NonZero(ids)[k] in ids {
        if ids[0] == 0 { assert NonZero(ids)[k] == rest[k] && rest[k] in ids[1..]; }
        else if k > 0 { assert NonZero(ids)[k] == rest[k - 1] && rest[k - 1] in ids[1..]; }
      }
    }
  }

  /** All of ids are live children of the resource, created since `base`. */
  ghost predicate NewChildren(s: State, kind: Kind, resource: nat, ids: seq<nat>, base: nat) {
    var live := s.remote.Table(kind).live;
    forall k :: 0 <= k < |ids| ==> base <= ids[k] && ids[k] in live && live[ids[k]].resource == resource
  }

  /** The rows ids[i] carry the contents of specs[i], in order. */
  ghost predicate Realised(s: State, kind: Kind, resource: nat, specs: seq<ChildSpec>, ids: seq<nat>) {
    var live := s.remote.Table(kind).live;
    |specs| <= |ids| && forall i :: 0 <= i < |specs| ==> ids[i] in live && live[ids[i]] == Row(s, kind, resource, specs[i], i)
  }

  lemma CreateChildrenKeeps(s: State, kind: Kind, resource: nat, specs: seq<ChildSpec>)
    requires Sound(s) && resource in s.remote.resources.live
    ensures var b := CreateChildren(s, kind, resource, specs);
      && Grew(s, b.s, kind) && Sound(b.s) && (Synced(s) ==> Synced(b.s))
      && NewChildren(b.s, kind, resource, b.ids, s.remote.Table(kind).next)
      && NotFound !in b.kinds
      && (!b.failed ==> b.s.crashed == s.crashed && |b.ids| == |specs| && Realised(b.s, kind, resource, specs, b.ids))
  {
    hide Base, Unique, Tame, Grew, Synced, ServeAll;
    var base := s.remote.Table(kind).next;
    assert Filled(Zeros(|specs|), Indices(|specs|)) by {
      forall j | 0 <= j < |specs| ensures j in Indices(|specs|) { assert Indices(|specs|)[j] == j; }
    }
    ServeAllKeeps(Batch(s, Zeros(|specs|), false, {}), kind, resource, specs, Indices(|specs|), base);
    var b := ServeAll(Batch(s, Zeros(|specs|), false, {}), kind, resource, specs, Indices(|specs|));
    if b.failed {
      NonZeroOf(b.ids);
    }
  }

  // ---- Deleting the old children ----

  /** t comes from s by removing rows with the given IDs from one child table. */
  ghost predicate Shrank(s: State, t: State, kind: Kind, ids: seq<nat>) {
    var before, after := s.remote.Table(kind), t.remote.Table(kind);
    && Follows(s, t) && t.res == s.res && t.stored.status == s.stored.status
    && t.remote.resources == s.remote.resources
    && t.remote.Table(Other(kind)) == s.remote.Table(Other(kind))
    && after.next == before.next
    && (forall id :: id in before.live && id !in ids ==> id in after.live)
    && (forall id :: id in after.live ==> id in before.live && after.live[id] == before.live[id])
  }

  lemma RowDeleted(s: State, t: State, kind: Kind, id: nat)
    requires Base(s) && Unique(s)
    requires t == s.(remote := s.remote.WithTable(kind, s.remote.Table(kind).Remove(id)))
    ensures Base(t) && Unique(t) && Shrank(s, t, kind, [id])
  {
    if kind == Targets {} else {}
  }

  lemma DeleteOneKeeps(s: State, kind: Kind, resource: nat, id: nat)
    requires Sound(s)
    ensures var t := DeleteOne(s, kind, resource, id);
      Sound(t) && (Synced(s) ==> Synced(t)) && Shrank(s, t, kind, [id])
  {
    hide Base, Unique, Advance, Tame;
    var t := DeleteOne(s, kind, resource, id);
    if Halted(s) {
      SameBesidesCarries(s, t);
    } else {
      AdvanceFollows(s, DeleteChild(kind, id));
      var m := Advance(s, DeleteChild(kind, id));
      if t != m {
        RowDeleted(m, t, kind, id);
      }
    }
  }

  lemma {:induction false} DeleteChildrenKeeps(s: State, kind: Kind, resource: nat, ids: seq<nat>)
    requires Sound(s)
    ensures var t := DeleteChildren(s, kind, resource, ids);
      Sound(t) && (Synced(s) ==> Synced(t)) && Shrank(s, t, kind, ids)
    decreases |ids|
  {
    hide Sound, DeleteOne, Synced;
    if ids != [] {
      var m := DeleteOne(s, kind, resource, ids[0]);
      DeleteOneKeeps(s, kind, resource, ids[0]);
      DeleteChildrenKeeps(m, kind, resource, ids[1..]);
    } else { SelfShrank(s, kind); }
  }

  lemma SelfShrank(s: State, kind: Kind)
    ensures Shrank(s, s, kind, [])
  {
  }
}
