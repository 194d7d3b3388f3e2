/** How a piece of an activation can account for the targets and rules on the server: which rows
    it created, recorded, failed to record or failed to delete, as its log shows. */
module PublicAccounts {
  import opened Shared
  import opened Domains
  import opened Server
  import opened PublicResource
  import opened PublicSafety
  import opened PublicChildren

  function Keys(s: State, kind: Kind): set<nat> {
    s.remote.Table(kind).live.Keys
  }

  function IDSet(ids: seq<nat>): set<nat> {
    set id | id in ids
  }

  function TrackedIDs(s: State, kind: Kind): set<nat> {
    IDSet(s.stored.status.Kept(kind).ids)
  }

  /** The rows that the status does not track. */
  function LeftOver(s: State, kind: Kind): set<nat> {
    Keys(s, kind) - TrackedIDs(s, kind)
  }

  function NextID(s: State, kind: Kind): nat {
    s.remote.Table(kind).next
  }

  // ---- What the log says ----

  predicate IsPatch(e: Entry) {
    e.call.PatchStatus?
  }

  predicate Creates(e: Entry, kind: Kind) {
    e.call.CreateChild? && e.call.kind == kind && !e.reply.Refused?
  }

  predicate Deletes(e: Entry, kind: Kind) {
    e.call.DeleteChild? && e.call.kind == kind
  }

  /** Since the log had n entries, its entry i created the row. */
  predicate Born(log: seq<Entry>, n: nat, kind: Kind, id: nat, i: int) {
    n <= i < |log| && Creates(log[i], kind) && log[i].call.id == id
  }

  /** Entry j is the first patch after entry i. */
  ghost predicate NextPatch(log: seq<Entry>, i: int, j: int) {
    0 <= i < j < |log| && IsPatch(log[j]) && forall k :: i < k < j ==> !IsPatch(log[k])
  }

  /** No patch was made after entry i. */
  ghost predicate Unpatched(log: seq<Entry>, i: nat) {
    forall k :: i < k < |log| ==> !IsPatch(log[k])
  }

  /** The process did not learn of the row, the patch to record it was not done, or the process
      stopped before it could make that patch. */
  ghost predicate NotRecorded(t: State, i: nat)
    requires i < |t.log|
  {
    || t.log[i].reply.Lost?
    || (exists j :: NextPatch(t.log, i, j) && t.log[j].reply.Refused?)
    || (t.crashed && Unpatched(t.log, i))
  }

  /** The row was reported and recorded. */
  ghost predicate Recorded(log: seq<Entry>, i: nat)
    requires i < |log|
  {
    log[i].reply.Served? && exists j :: NextPatch(log, i, j) && !log[j].reply.Refused?
  }

  /** Between s and t the row was created, but could not be recorded. */
  ghost predicate LeftByPersist(s: State, t: State, kind: Kind, id: nat) {
    exists i :: Born(t.log, |s.log|, kind, id, i) && NotRecorded(t, i)
  }

  ghost predicate DeleteRefused(log: seq<Entry>, n: nat, kind: Kind, id: nat) {
    exists j :: n <= j < |log| && Deletes(log[j], kind) && log[j].call.id == id && log[j].reply.Refused?
  }

  ghost predicate DeleteTried(log: seq<Entry>, n: nat, kind: Kind, id: nat) {
    exists j :: n <= j < |log| && Deletes(log[j], kind) && log[j].call.id == id
  }

  ghost predicate PatchLost(log: seq<Entry>, n: nat) {
    exists j :: n <= j < |log| && IsPatch(log[j]) && log[j].reply.Lost?
  }

  /** At s the row was tracked, or it was recorded since. */
  ghost predicate WasTracked(s: State, t: State, kind: Kind, id: nat) {
    id in TrackedIDs(s, kind) || exists i :: Born(t.log, |s.log|, kind, id, i) && Recorded(t.log, i)
  }

  /** Between s and t a tracked row was replaced, but its deletion was refused, or not tried because
      the process stopped or took the patch before it for failed. */
  ghost predicate LeftByDelete(s: State, t: State, kind: Kind, id: nat) {
    && WasTracked(s, t, kind, id)
    && (|| DeleteRefused(t.log, |s.log|, kind, id)
        || (!DeleteTried(t.log, |s.log|, kind, id) && (t.crashed || PatchLost(t.log, |s.log|))))
  }

  // ---- Accounts of a piece of an activation ----

  /** Rows are only created under fresh and ascending IDs, and rows that nobody tracks stay. */
  ghost predicate Births(s: State, t: State, kind: Kind) {
    && s.log <= t.log && NextID(s, kind) <= NextID(t, kind)
    && (forall id :: id in Keys(t, kind) ==> id in Keys(s, kind) || NextID(s, kind) <= id)
    && (forall i :: |s.log| <= i < |t.log| && Creates(t.log[i], kind) ==> NextID(s, kind) <= t.log[i].call.id < NextID(t, kind))
    && (forall i, j :: |s.log| <= i < j < |t.log| && Creates(t.log[i], kind) && Creates(t.log[j], kind) ==>
          t.log[i].call.id < t.log[j].call.id)
  }

  /** Whatever is tracked was tracked before or is new and recorded; and only what is no longer
      tracked is deleted. */
  ghost predicate Trackings(s: State, t: State, kind: Kind) {
    && (forall id :: id in TrackedIDs(t, kind) ==> id < NextID(t, kind) && WasTracked(s, t, kind, id))
    && (forall i :: |s.log| <= i < |t.log| && Deletes(t.log[i], kind) ==>
          var id := t.log[i].call.id;
          id < NextID(t, kind) && id !in TrackedIDs(t, kind) && (id in TrackedIDs(s, kind) || NextID(s, kind) <= id))
  }

  /** Untracked rows stay, and each row that became one has its reason. */
  ghost predicate Explained(s: State, t: State, kind: Kind) {
    && (forall id :: id in LeftOver(s, kind) ==> id in LeftOver(t, kind))
    && (forall id :: id in LeftOver(t, kind) && id !in LeftOver(s, kind) ==>
          LeftByPersist(s, t, kind, id) || LeftByDelete(s, t, kind, id))
  }

  ghost predicate Accounted(s: State, t: State, kind: Kind) {
    Births(s, t, kind) && Trackings(s, t, kind) && Explained(s, t, kind)
  }

  /** All IDs in use were handed out. */
  ghost predicate Bounded(s: State, kind: Kind) {
    && (forall id :: id in Keys(s, kind) ==> id < NextID(s, kind))
    && (forall id :: id in TrackedIDs(s, kind) ==> id < NextID(s, kind))
  }

  /** A stopped process logs nothing. */
  predicate Goes(s: State, t: State) {
    s.log <= t.log && (s.crashed ==> t.crashed && t.log == s.log)
  }

  lemma BirthsChain(s: State, m: State, t: State, kind: Kind)
    requires Births(s, m, kind) && Births(m, t, kind)
    ensures Births(s, t, kind)
  {
    forall i, j | |s.log| <= i < j < |t.log| && Creates(t.log[i], kind) && Creates(t.log[j], kind)
      ensures t.log[i].call.id < t.log[j].call.id
    {
      if i < |m.log| { assert m.log[i] == t.log[i]; }
      if j < |m.log| { assert m.log[j] == t.log[j]; }
    }
    forall i | |s.log| <= i < |t.log| && Creates(t.log[i], kind)
      ensures NextID(s, kind) <= t.log[i].call.id < NextID(t, kind)
    {
      if i < |m.log| { assert m.log[i] == t.log[i]; }
    }
    hide Keys, NextID, Creates;
  }

  lemma NextPatchStays(m: State, t: State, i: int, j: int)
    requires m.log <= t.log && NextPatch(m.log, i, j)
    ensures NextPatch(t.log, i, j)
  {
    assert t.log[j] == m.log[j];
    forall k | i < k < j ensures !IsPatch(t.log[k]) {
      assert t.log[k] == m.log[k];
    }
  }

  /** What was recorded stays recorded, and what could not be recorded stays so. */
  lemma RecordStays(m: State, t: State, i: nat)
    requires Goes(m, t) && i < |m.log|
    ensures Recorded(m.log, i) ==> Recorded(t.log, i)
    ensures NotRecorded(m, i) ==> NotRecorded(t, i)
  {
    assert t.log[i] == m.log[i];
    if Recorded(m.log, i) {
      var j :| NextPatch(m.log, i, j) && !m.log[j].reply.Refused?;
      NextPatchStays(m, t, i, j);
      assert t.log[j] == m.log[j];
    }
    if exists j :: NextPatch(m.log, i, j) && m.log[j].reply.Refused? {
      var j :| NextPatch(m.log, i, j) && m.log[j].reply.Refused?;
      NextPatchStays(m, t, i, j);
      assert t.log[j] == m.log[j];
    }
  }

  lemma BornStays(s: State, m: State, t: State, kind: Kind, id: nat, i: int)
    requires s.log <= m.log <= t.log
    ensures Born(m.log, |s.log|, kind, id, i) ==> Born(t.log, |s.log|, kind, id, i)
    ensures Born(t.log, |m.log|, kind, id, i) ==> Born(t.log, |s.log|, kind, id, i)
  {
    if Born(m.log, |s.log|, kind, id, i) { assert t.log[i] == m.log[i]; }
  }

  lemma WasTrackedStays(s: State, m: State, t: State, kind: Kind, id: nat)
    requires s.log <= m.log && Goes(m, t) && WasTracked(s, m, kind, id)
    ensures WasTracked(s, t, kind, id)
  {
    if id !in TrackedIDs(s, kind) {
      var i :| Born(m.log, |s.log|, kind, id, i) && Recorded(m.log, i);
      BornStays(s, m, t, kind, id, i);
      RecordStays(m, t, i);
      assert Born(t.log, |s.log|, kind, id, i) && Recorded(t.log, i);
    }
    hide Recorded;
  }

  lemma WasTrackedSince(s: State, m: State, t: State, kind: Kind, id: nat)
    requires s.log <= m.log && Goes(m, t) && Trackings(s, m, kind) && WasTracked(m, t, kind, id)
    ensures WasTracked(s, t, kind, id)
  {
    hide Recorded;
    if id in TrackedIDs(m, kind) {
      WasTrackedStays(s, m, t, kind, id);
    } else {
      var i :| Born(t.log, |m.log|, kind, id, i) && Recorded(t.log, i);
      BornStays(s, m, t, kind, id, i);
    }
  }

  lemma TrackingsChain(s: State, m: State, t: State, kind: Kind)
    requires Births(s, m, kind) && Births(m, t, kind) && Trackings(s, m, kind) && Trackings(m, t, kind) && Goes(m, t)
    ensures Trackings(s, t, kind)
  {
    hide WasTracked, Keys, TrackedIDs;
    forall id | id in TrackedIDs(t, kind) ensures WasTracked(s, t, kind, id) {
      WasTrackedSince(s, m, t, kind, id);
    }
    forall i | |s.log| <= i < |t.log| && Deletes(t.log[i], kind)
      ensures var id := t.log[i].call.id;
        id < NextID(t, kind) && id !in TrackedIDs(t, kind) && (id in TrackedIDs(s, kind) || NextID(s, kind) <= id)
    {
      var id := t.log[i].call.id;
      if i < |m.log| {
        assert m.log[i] == t.log[i];
        if id in TrackedIDs(t, kind) { TrackedBelow(m, t, kind, id); }
      } else if id in TrackedIDs(m, kind) {
        TrackedSinceOrNew(s, m, kind, id);
      }
    }
  }

  /** What is tracked now and was handed out before was tracked before. */
  lemma TrackedBelow(m: State, t: State, kind: Kind, id: nat)
    requires Births(m, t, kind) && Trackings(m, t, kind) && id in TrackedIDs(t, kind) && id < NextID(m, kind)
    ensures id in TrackedIDs(m, kind)
  {
    hide TrackedIDs, Keys;
  }

  lemma TrackedSinceOrNew(s: State, m: State, kind: Kind, id: nat)
    requires Births(s, m, kind) && Trackings(s, m, kind) && id in TrackedIDs(m, kind)
    ensures id in TrackedIDs(s, kind) || NextID(s, kind) <= id
  {
    hide TrackedIDs, Keys;
  }

  lemma PersistStays(s: State, m: State, t: State, kind: Kind, id: nat)
    requires s.log <= m.log && Goes(m, t) && LeftByPersist(s, m, kind, id)
    ensures LeftByPersist(s, t, kind, id)
  {
    hide NotRecorded;
    var i :| Born(m.log, |s.log|, kind, id, i) && NotRecorded(m, i);
    BornStays(s, m, t, kind, id, i);
    assert 0 <= i < |m.log| by { BornIndex(m.log, |s.log|, kind, id, i); }
    RecordStays(m, t, i);
  }

  lemma BornIndex(log: seq<Entry>, n: nat, kind: Kind, id: nat, i: int)
    requires Born(log, n, kind, id, i)
    ensures n <= i < |log|
  {
  }

  lemma PersistSince(s: State, m: State, t: State, kind: Kind, id: nat)
    requires s.log <= m.log <= t.log && LeftByPersist(m, t, kind, id)
    ensures LeftByPersist(s, t, kind, id)
  {
    hide NotRecorded;
    var i :| Born(t.log, |m.log|, kind, id, i) && NotRecorded(t, i);
    BornStays(s, m, t, kind, id, i);
  }

  /** A row that is left over is not deleted afterwards. */
  lemma DeleteStays(s: State, m: State, t: State, kind: Kind, id: nat)
    requires s.log <= m.log && Goes(m, t) && Births(m, t, kind) && Trackings(m, t, kind)
    requires LeftByDelete(s, m, kind, id) && id !in TrackedIDs(m, kind) && id < NextID(m, kind)
    ensures LeftByDelete(s, t, kind, id)
  {
    hide WasTracked, TrackedIDs, Keys;
    WasTrackedStays(s, m, t, kind, id);
    if DeleteRefused(m.log, |s.log|, kind, id) {
      var j :| |s.log| <= j < |m.log| && Deletes(m.log[j], kind) && m.log[j].call.id == id && m.log[j].reply.Refused?;
      assert t.log[j] == m.log[j];
    } else {
      assert forall j :: 0 <= j < |m.log| ==> m.log[j] == t.log[j];
      if PatchLost(m.log, |s.log|) {
        var j :| |s.log| <= j < |m.log| && IsPatch(m.log[j]) && m.log[j].reply.Lost?;
        assert t.log[j] == m.log[j];
      }
    }
  }

  /** A row that was still tracked had not been deleted before. */
  lemma DeleteSince(s: State, m: State, t: State, kind: Kind, id: nat)
    requires s.log <= m.log && Goes(m, t) && Births(s, m, kind) && Trackings(s, m, kind) && Births(m, t, kind)
    requires LeftByDelete(m, t, kind, id)
    ensures LeftByDelete(s, t, kind, id)
  {
    hide WasTracked, Keys, TrackedIDs;
    WasTrackedSince(s, m, t, kind, id);
    assert id in TrackedIDs(m, kind) || NextID(m, kind) <= id by { WasTrackedMeans(m, t, kind, id); }
    if DeleteRefused(t.log, |m.log|, kind, id) {
      var j :| |m.log| <= j < |t.log| && Deletes(t.log[j], kind) && t.log[j].call.id == id && t.log[j].reply.Refused?;
      assert |s.log| <= j;
    } else {
      assert forall j :: 0 <= j < |m.log| ==> m.log[j] == t.log[j];
      assert forall j :: |s.log| <= j < |m.log| && Deletes(m.log[j], kind) ==> m.log[j].call.id != id;
    }
  }

  lemma WasTrackedMeans(m: State, t: State, kind: Kind, id: nat)
    requires Births(m, t, kind) && WasTracked(m, t, kind, id)
    ensures id in TrackedIDs(m, kind) || NextID(m, kind) <= id
  {
    hide TrackedIDs, Keys;
  }

  lemma ExplainedChain(s: State, m: State, t: State, kind: Kind)
    requires Accounted(s, m, kind) && Accounted(m, t, kind) && Goes(m, t) && Bounded(m, kind)
    ensures Explained(s, t, kind)
  {
    hide LeftByPersist, LeftByDelete, Keys, TrackedIDs, Births, Trackings;
    forall id | id in LeftOver(t, kind) && id !in LeftOver(s, kind)
      ensures LeftByPersist(s, t, kind, id) || LeftByDelete(s, t, kind, id)
    {
      assert s.log <= m.log by { BirthsLog(s, m, kind); }
      if id in LeftOver(m, kind) {
        if LeftByPersist(s, m, kind, id) { PersistStays(s, m, t, kind, id); } else { DeleteStays(s, m, t, kind, id); }
      } else {
        if LeftByPersist(m, t, kind, id) { PersistSince(s, m, t, kind, id); } else { DeleteSince(s, m, t, kind, id); }
      }
    }
  }

  lemma BirthsLog(s: State, t: State, kind: Kind)
    requires Births(s, t, kind)
    ensures s.log <= t.log
  {
  }

  lemma AccountedChain(s: State, m: State, t: State, kind: Kind)
    requires Accounted(s, m, kind) && Accounted(m, t, kind) && Goes(m, t) && Bounded(m, kind)
    ensures Accounted(s, t, kind)
  {
    hide Births, Trackings, Explained, Bounded;
    ExplainedChain(s, m, t, kind);
    BirthsChain(s, m, t, kind);
    TrackingsChain(s, m, t, kind);
  }

  // ---- Pieces that do not touch children ----

  /** Neither table changed, nor the tracked lists, and no child was created or deleted. */
  ghost predicate Neutral(s: State, t: State) {
    && t.remote.targets == s.remote.targets && t.remote.rules == s.remote.rules
    && t.stored.status.targets.ids == s.stored.status.targets.ids && t.stored.status.rules.ids == s.stored.status.rules.ids
    && s.log <= t.log
    && forall i :: |s.log| <= i < |t.log| ==> !t.log[i].call.CreateChild? && !t.log[i].call.DeleteChild?
  }

  lemma NeutralAccounted(s: State, t: State, kind: Kind)
    requires Neutral(s, t) && Bounded(s, kind)
    ensures Accounted(s, t, kind) && Bounded(t, kind)
  {
    assert t.remote.Table(kind) == s.remote.Table(kind) && TrackedIDs(t, kind) == TrackedIDs(s, kind) by {
      if kind == Targets {}
    }
    assert LeftOver(t, kind) == LeftOver(s, kind);
    hide LeftByPersist, LeftByDelete;
  }

  lemma NeutralChain(s: State, m: State, t: State)
    requires Neutral(s, m) && Neutral(m, t)
    ensures Neutral(s, t)
  {
  }

  lemma AdvanceNeutral(s: State, call: Call)
    requires !Halted(s) && !call.CreateChild? && !call.DeleteChild?
    ensures var t := Advance(s, call);
      Neutral(s, t) && t.stored.status == s.stored.status && t.res == s.res
  {
  }

  lemma HaltNeutral(s: State)
    ensures Neutral(s, s) && Neutral(s, Halt(s))
  {
  }

  lemma PatchNeutral(s: State, after: Status)
    requires after.targets.ids == s.res.status.targets.ids && after.rules.ids == s.res.status.rules.ids
    ensures Neutral(s, Patch(s, after).s)
  {
    hide Advance;
    if Halted(s) { HaltNeutral(s); } else { AdvanceNeutral(s, PatchStatus); }
  }

  lemma GetNeutral(s: State)
    ensures Neutral(s, Get(s).s)
  {
    hide Advance;
    if Halted(s) { HaltNeutral(s); } else { AdvanceNeutral(s, GetObject); }
  }

  lemma ListNeutral(s: State, name: string)
    ensures Neutral(s, ApiList(s, name).s)
  {
    hide Advance, Listing;
    if Halted(s) { HaltNeutral(s); } else { AdvanceNeutral(s, ListResources); }
  }

  lemma DomainNeutral(s: State)
    ensures Neutral(s, ChooseDomain(s).s)
  {
    hide Advance, Resolve;
    HaltNeutral(s);
    if !Halted(s) { AdvanceNeutral(s, ListDomains); }
  }

  lemma CreateNeutral(s: State, q: CreateRequest)
    ensures Neutral(s, ApiCreate(s, q).s)
  {
    hide Advance, Compose;
    if Halted(s) { HaltNeutral(s); } else { AdvanceNeutral(s, CreateResource); }
  }

  lemma UpdateNeutral(s: State, id: nat, q: UpdateRequest)
    ensures Neutral(s, ApiUpdate(s, id, q).s)
  {
    hide Advance, Apply;
    if Halted(s) { HaltNeutral(s); } else { AdvanceNeutral(s, UpdateResource(id)); }
  }

  lemma DeleteNeutral(s: State, id: nat)
    ensures Neutral(s, ApiDelete(s, id).s)
  {
    hide Advance;
    if Halted(s) { HaltNeutral(s); } else { AdvanceNeutral(s, DeleteResource(id)); }
  }

  lemma FinalizerNeutral(s: State, present: bool)
    ensures Neutral(s, SetFinalizer(s, present).s)
  {
    hide Advance;
    if Halted(s) { HaltNeutral(s); } else { AdvanceNeutral(s, if present then AddFinalizer else RemoveFinalizer); }
  }

  lemma PersistNeutral(s: State, id: nat)
    ensures Neutral(s, Persist(s, id).s)
  {
    hide Patch, ApiDelete;
    var after := s.res.status.(resourceID := id, phase := Creating);
    PatchNeutral(s, after);
    var q := Patch(s, after).s;
    DeleteNeutral(q, id);
    NeutralChain(s, q, ApiDelete(q, id).s);
  }

  lemma CreateAndPersistNeutral(s: State)
    ensures Neutral(s, CreateAndPersist(s).s)
  {
    hide Patch, ChooseDomain, ApiCreate, Persist, Neutral;
    var creating := s.res.status.(phase := Creating);
    var p := Patch(s, creating);
    PatchNeutral(s, creating);
    var d := ChooseDomain(p.s);
    DomainNeutral(p.s);
    NeutralChain(s, p.s, d.s);
    var q := NewRequest(d.s.res.spec, d.id, d.subdomain);
    var c := ApiCreate(d.s, q);
    CreateNeutral(d.s, q);
    NeutralChain(s, d.s, c.s);
    PersistNeutral(c.s, c.id);
    NeutralChain(s, c.s, Persist(c.s, c.id).s);
  }

  // ---- Creation ----

  /** The IDs in the slots. */
  function Slotted(ids: seq<nat>): set<nat> {
    set i | 0 <= i < |ids| && ids[i] != 0 :: ids[i]
  }

  /** The pending slots are distinct and still empty. */
  ghost predicate Awaiting(ids: seq<nat>, pending: seq<nat>) {
    && (forall j :: 0 <= j < |pending| ==> pending[j] < |ids| && ids[pending[j]] == 0)
    && (forall j, k :: 0 <= j < k < |pending| ==> pending[j] != pending[k])
  }

  lemma AwaitingStep(ids: seq<nat>, later: seq<nat>, pending: seq<nat>, p: nat)
    requires Awaiting(ids, pending) && p < |pending| && |later| == |ids|
    requires forall j :: 0 <= j < |ids| && j != pending[p] ==> later[j] == ids[j]
    ensures Awaiting(later, pending[..p] + pending[p + 1..])
  {
    var rest := pending[..p] + pending[p + 1..];
    forall j | 0 <= j < |rest| ensures rest[j] < |later| && later[rest[j]] == 0 {
      assert rest[j] == pending[if j < p then j else j + 1];
    }
    forall j, k | 0 <= j < k < |rest| ensures rest[j] != rest[k] {
      assert rest[j] == pending[if j < p then j else j + 1] && rest[k] == pending[if k < p then k else k + 1];
    }
  }

  lemma SlottedUpdate(ids: seq<nat>, i: nat, id: nat)
    requires i < |ids| && ids[i] == 0 && id != 0
    ensures Slotted(ids[i := id]) == Slotted(ids) + {id}
  {
    var later := ids[i := id];
    forall x | x in Slotted(ids) + {id} ensures x in Slotted(later) {
      if x == id { assert later[i] == id; }
      else { var j :| 0 <= j < |ids| && ids[j] != 0 && ids[j] == x; assert later[j] == x; }
    }
  }

  /** Since the log had n entries only children of one kind were created. */
  ghost predicate OnlyCreates(log: seq<Entry>, n: nat, kind: Kind) {
    forall i :: n <= i < |log| ==> log[i].call.CreateChild? && log[i].call.kind == kind
  }

  ghost predicate ServedBirth(log: seq<Entry>, n: nat, kind: Kind, id: nat) {
    exists i :: Born(log, n, kind, id, i) && log[i].reply.Served?
  }

  ghost predicate LostBirth(log: seq<Entry>, n: nat, kind: Kind, id: nat) {
    exists i :: Born(log, n, kind, id, i) && log[i].reply.Lost?
  }

  /** From s, with IDs `had` in the slots, to t with IDs `have`: each new row was created by some entry
      of the log, and is in a slot unless its answer was lost. */
  ghost predicate Traced(s: State, t: State, kind: Kind, had: set<nat>, have: set<nat>) {
    && Births(s, t, kind) && OnlyCreates(t.log, |s.log|, kind) && had <= have && Keys(s, kind) <= Keys(t, kind)
    && (forall id :: id in Keys(t, kind) && id !in Keys(s, kind) ==> id in have || LostBirth(t.log, |s.log|, kind, id))
    && (forall id :: id in have && id !in had ==> ServedBirth(t.log, |s.log|, kind, id))
  }

  lemma BirthsExtend(s: State, m: State, t: State, kind: Kind, id: nat)
    requires s.log <= m.log <= t.log
    ensures ServedBirth(m.log, |s.log|, kind, id) ==> ServedBirth(t.log, |s.log|, kind, id)
    ensures LostBirth(m.log, |s.log|, kind, id) ==> LostBirth(t.log, |s.log|, kind, id)
    ensures ServedBirth(t.log, |m.log|, kind, id) ==> ServedBirth(t.log, |s.log|, kind, id)
    ensures LostBirth(t.log, |m.log|, kind, id) ==> LostBirth(t.log, |s.log|, kind, id)
  {
    assert forall i :: 0 <= i < |m.log| ==> m.log[i] == t.log[i];
    if ServedBirth(m.log, |s.log|, kind, id) {
      var i :| Born(m.log, |s.log|, kind, id, i) && m.log[i].reply.Served?;
      assert Born(t.log, |s.log|, kind, id, i);
    }
    if LostBirth(m.log, |s.log|, kind, id) {
      var i :| Born(m.log, |s.log|, kind, id, i) && m.log[i].reply.Lost?;
      assert Born(t.log, |s.log|, kind, id, i);
    }
    if ServedBirth(t.log, |m.log|, kind, id) {
      var i :| Born(t.log, |m.log|, kind, id, i) && t.log[i].reply.Served?;
      assert Born(t.log, |s.log|, kind, id, i);
    }
    if LostBirth(t.log, |m.log|, kind, id) {
      var i :| Born(t.log, |m.log|, kind, id, i) && t.log[i].reply.Lost?;
      assert Born(t.log, |s.log|, kind, id, i);
    }
  }

  lemma TracedChain(s: State, m: State, t: State, kind: Kind, had: set<nat>, mid: set<nat>, have: set<nat>)
    requires Traced(s, m, kind, had, mid) && Traced(m, t, kind, mid, have)
    ensures Traced(s, t, kind, had, have)
  {
    hide ServedBirth, LostBirth, Keys;
    BirthsChain(s, m, t, kind);
    assert s.log <= m.log <= t.log;
    forall i | |s.log| <= i < |t.log| ensures t.log[i].call.CreateChild? && t.log[i].call.kind == kind {
      if i < |m.log| { assert t.log[i] == m.log[i]; }
    }
    forall id | id in Keys(t, kind) && id !in Keys(s, kind) ensures id in have || LostBirth(t.log, |s.log|, kind, id) {
      BirthsExtend(s, m, t, kind, id);
    }
    forall id | id in have && id !in had ensures ServedBirth(t.log, |s.log|, kind, id) {
      BirthsExtend(s, m, t, kind, id);
    }
    hide Births;
  }

  lemma ServeOneTraced(b: Batch, kind: Kind, resource: nat, specs: seq<ChildSpec>, i: nat)
    requires !Halted(b.s) && |b.ids| == |specs| && i < |specs| && b.ids[i] == 0
    requires !b.s.script[0].env.DropResource? && b.s.remote.Table(kind).Valid() && resource in b.s.remote.resources.live
    ensures var c := ServeOne(b, kind, resource, specs, i); Traced(b.s, c.s, kind, Slotted(b.ids), Slotted(c.ids))
  {
    hide Content;
    var c := ServeOne(b, kind, resource, specs, i);
    var n := |b.s.log|;
    var reply := b.s.script[0].reply;
    var id := Handed(b.s, kind);
    assert c.s.log == b.s.log + [Entry(CreateChild(kind, resource, id), reply)];
    assert c.s.remote.Table(kind) == if reply.Refused? then b.s.remote.Table(kind)
      else b.s.remote.Table(kind).Add(reply.skip, Child(resource, if kind == Targets then b.s.siteID else 0, Content(specs[i], i)));
    if reply.Served? {
      SlottedUpdate(b.ids, i, id);
      assert Born(c.s.log, n, kind, id, n);
      assert ServedBirth(c.s.log, n, kind, id);
    } else if reply.Lost? {
      assert Born(c.s.log, n, kind, id, n);
      assert LostBirth(c.s.log, n, kind, id);
    }
    hide ServeOne, ServedBirth, LostBirth, Slotted;
  }

  lemma SelfTraced(s: State, kind: Kind, have: set<nat>)
    requires s.remote.Table(kind).Valid()
    ensures Traced(s, s, kind, have, have) && Traced(s, Halt(s), kind, have, have)
  {
  }

  lemma {:induction false} ServeAllTraced(b: Batch, kind: Kind, resource: nat, specs: seq<ChildSpec>, pending: seq<nat>)
    requires |b.ids| == |specs| && Awaiting(b.ids, pending) && Slots(b.s, kind, resource, specs, b.ids, 0)
    requires Sound(b.s) && resource in b.s.remote.resources.live
    ensures var c := ServeAll(b, kind, resource, specs, pending); Traced(b.s, c.s, kind, Slotted(b.ids), Slotted(c.ids))
    decreases |pending|
  {
    hide ServeOne, Sound, Slots, Grew, Slotted, Traced, Awaiting;
    SoundFacts(b.s, kind);
    SelfTraced(b.s, kind, Slotted(b.ids));
    if pending != [] && !Halted(b.s) {
      NextIsEmpty(b, specs, pending);
      var p := Chosen(pending, b.s.script[0].pick);
      var i := pending[p];
      var rest := pending[..p] + pending[p + 1..];
      var m := ServeOne(b, kind, resource, specs, i);
      ServeOneTraced(b, kind, resource, specs, i);
      ServeOneKeeps(b, kind, resource, specs, i, 0);
      GrewNext(b.s, m.s, kind);
      AwaitingStep(b.ids, m.ids, pending, p);
      ServeAllTraced(m, kind, resource, specs, rest);
      var c := ServeAll(m, kind, resource, specs, rest);
      TracedChain(b.s, m.s, c.s, kind, Slotted(b.ids), Slotted(m.ids), Slotted(c.ids));
    } else if pending != [] {
      NextIsEmpty(b, specs, pending);
    }
  }

  lemma NextIsEmpty(b: Batch, specs: seq<ChildSpec>, pending: seq<nat>)
    requires |b.ids| == |specs| && Awaiting(b.ids, pending)
    ensures forall j :: 0 <= j < |pending| ==> pending[j] < |specs| && b.ids[pending[j]] == 0
  {
  }

  lemma SoundFacts(s: State, kind: Kind)
    requires Sound(s)
    ensures s.remote.Table(kind).Valid() && (!Halted(s) ==> !s.script[0].env.DropResource?)
  {
    if !Halted(s) { assert TameEnv(s.script[0].env, s.stored.spec); }
  }

  lemma {:induction false} NonZeroSet(ids: seq<nat>)
    ensures IDSet(NonZero(ids)) == Slotted(ids)
  {
    if ids != [] {
      var rest := ids[1..];
      NonZeroSet(rest);
      forall x | x in Slotted(ids) ensures x in NonZero(ids) {
        var i :| 0 <= i < |ids| && ids[i] != 0 && ids[i] == x;
        if i > 0 { assert rest[i - 1] == x; assert x in Slotted(rest); assert x in IDSet(NonZero(rest)); }
      }
      forall x | x in NonZero(ids) ensures x in Slotted(ids) {
        if x in NonZero(rest) {
          assert x in IDSet(NonZero(rest));
          var i :| 0 <= i < |rest| && rest[i] != 0 && rest[i] == x;
          assert ids[i + 1] == x;
        }
      }
    }
  }

  lemma AllSlotted(ids: seq<nat>)
    requires forall j :: 0 <= j < |ids| ==> ids[j] != 0
    ensures Slotted(ids) == IDSet(ids)
  {
  }

  /** Every row that parallel creation adds is returned, unless its answer was lost, also when the
      creation fails as a whole. */
  lemma CreateChildrenTraced(s: State, kind: Kind, resource: nat, specs: seq<ChildSpec>)
    requires Sound(s) && resource in s.remote.resources.live
    ensures var b := CreateChildren(s, kind, resource, specs); Traced(s, b.s, kind, {}, IDSet(b.ids))
  {
    hide ServeAll, Sound, Traced, Grew;
    var zeros := Zeros(|specs|);
    var b0 := Batch(s, zeros, false, {});
    assert Slotted(zeros) == {};
    assert Awaiting(zeros, Indices(|specs|));
    assert Slots(s, kind, resource, specs, zeros, 0);
    assert Filled(zeros, Indices(|specs|)) by {
      forall j | 0 <= j < |specs| ensures j in Indices(|specs|) { assert Indices(|specs|)[j] == j; }
    }
    ServeAllTraced(b0, kind, resource, specs, Indices(|specs|));
    ServeAllKeeps(b0, kind, resource, specs, Indices(|specs|), 0);
    var b := ServeAll(b0, kind, resource, specs, Indices(|specs|));
    if b.failed {
      NonZeroSet(b.ids);
    } else {
      AllSlotted(b.ids);
    }
  }

  // ---- Deletion ----

  /** Since the log had n entries only these children were deleted. */
  ghost predicate OnlyDeletes(log: seq<Entry>, n: nat, kind: Kind, ids: seq<nat>) {
    forall i :: n <= i < |log| ==> log[i].call.DeleteChild? && log[i].call.kind == kind && log[i].call.id in ids
  }

  /** Of the given rows those are still there whose deletion was refused, or not tried before the
      process stopped; all other rows are. */
  ghost predicate Deleted(s: State, t: State, kind: Kind, ids: seq<nat>) {
    && s.log <= t.log && OnlyDeletes(t.log, |s.log|, kind, ids) && NextID(t, kind) == NextID(s, kind)
    && Keys(t, kind) <= Keys(s, kind)
    && (forall id :: id in Keys(s, kind) && id !in ids ==> id in Keys(t, kind))
    && (forall id :: id in ids && id in Keys(t, kind) ==>
          DeleteRefused(t.log, |s.log|, kind, id) || (!DeleteTried(t.log, |s.log|, kind, id) && t.crashed))
  }

  lemma DeleteOneDeletes(s: State, kind: Kind, resource: nat, id: nat)
    requires id in s.remote.Table(kind).live ==> s.remote.Table(kind).live[id].resource == resource
    requires !Halted(s) ==> !s.script[0].env.DropResource?
    ensures var t := DeleteOne(s, kind, resource, id);
      && Keys(t, kind) <= Keys(s, kind) && (forall k :: k in Keys(s, kind) && k != id ==> k in Keys(t, kind))
      && NextID(t, kind) == NextID(s, kind)
      && (Halted(s) ==> t == Halt(s))
      && (!Halted(s) ==>
            t.log == s.log + [Entry(DeleteChild(kind, id), s.script[0].reply)]
            && (id in Keys(t, kind) ==> s.script[0].reply.Refused?))
  {
    if !Halted(s) {
      assert Advance(s, DeleteChild(kind, id)).remote.Table(kind) == s.remote.Table(kind);
    }
  }

  lemma {:induction false} DeleteChildrenDeletes(s: State, kind: Kind, resource: nat, ids: seq<nat>)
    requires Sound(s)
    requires forall k :: 0 <= k < |ids| && ids[k] in s.remote.Table(kind).live ==> s.remote.Table(kind).live[ids[k]].resource == resource
    ensures Deleted(s, DeleteChildren(s, kind, resource, ids), kind, ids)
    decreases |ids|
  {
    hide Sound, DeleteOne, Follows, Keys;
    if ids != [] {
      var x, rest := ids[0], ids[1..];
      var m := DeleteOne(s, kind, resource, x);
      var t := DeleteChildren(m, kind, resource, rest);
      SoundFacts(s, kind);
      DeleteOneDeletes(s, kind, resource, x);
      DeleteOneKeeps(s, kind, resource, x);
      DeleteChildrenKeeps(m, kind, resource, rest);
      FollowsGoes(m, t);
      DeleteChildrenDeletes(m, kind, resource, rest);
      assert ids == [x] + rest;
      DeletedStep(s, m, t, kind, x, rest);
    }
  }

  lemma FollowsGoes(s: State, t: State)
    requires Follows(s, t)
    ensures Goes(s, t)
  {
  }

  lemma DeletedStep(s: State, m: State, t: State, kind: Kind, x: nat, rest: seq<nat>)
    requires Deleted(m, t, kind, rest) && Goes(m, t)
    requires Keys(m, kind) <= Keys(s, kind) && (forall k :: k in Keys(s, kind) && k != x ==> k in Keys(m, kind))
    requires NextID(m, kind) == NextID(s, kind)
    requires (m.log == s.log && m.crashed) ||
      (exists reply :: m.log == s.log + [Entry(DeleteChild(kind, x), reply)] && (x in Keys(m, kind) ==> reply.Refused?))
    ensures Deleted(s, t, kind, [x] + rest)
  {
    hide Keys;
    if !(m.log == s.log && m.crashed) {
      var n := |s.log|;
      assert m.log[n].call == DeleteChild(kind, x) && t.log[n] == m.log[n];
      forall id | id in [x] + rest && id in Keys(t, kind)
        ensures DeleteRefused(t.log, n, kind, id) || (!DeleteTried(t.log, n, kind, id) && t.crashed)
      {
        if id == x {
          assert t.log[n].reply.Refused? && t.log[n].call.id == id;
        } else if DeleteRefused(t.log, |m.log|, kind, id) {
          var j :| |m.log| <= j < |t.log| && Deletes(t.log[j], kind) && t.log[j].call.id == id && t.log[j].reply.Refused?;
          assert n <= j;
        }
      }
      forall i | n <= i < |t.log|
        ensures t.log[i].call.DeleteChild? && t.log[i].call.kind == kind && t.log[i].call.id in [x] + rest
      {
        if i > n { assert t.log[i].call.id in rest; }
      }
    }
  }

  // ---- Recording, and one swap ----

  ghost predicate AnyCreates(log: seq<Entry>, n: nat) {
    forall i :: n <= i < |log| ==> log[i].call.CreateChild?
  }

  /** Like Traced from empty slots, but children of the other kind may have been created as well. */
  ghost predicate Gathered(s: State, t: State, kind: Kind, have: set<nat>) {
    && Births(s, t, kind) && AnyCreates(t.log, |s.log|) && Keys(s, kind) <= Keys(t, kind)
    && (forall id :: id in Keys(t, kind) && id !in Keys(s, kind) ==> id in have || LostBirth(t.log, |s.log|, kind, id))
    && (forall id :: id in have ==> ServedBirth(t.log, |s.log|, kind, id))
  }

  lemma Gather(s: State, t: State, kind: Kind, have: set<nat>)
    requires Traced(s, t, kind, {}, have)
    ensures Gathered(s, t, kind, have)
  {
    hide Births, Keys, ServedBirth, LostBirth;
  }

  /** Creating children of the other kind afterwards. */
  lemma GatherThen(s: State, m: State, t: State, kind: Kind, have: set<nat>, other: set<nat>)
    requires Gathered(s, m, kind, have) && Traced(m, t, Other(kind), {}, other)
    requires t.remote.Table(kind) == m.remote.Table(kind) && m.remote.Table(kind).Valid()
    ensures Gathered(s, t, kind, have)
  {
    hide ServedBirth, LostBirth;
    assert Births(m, t, kind);
    BirthsChain(s, m, t, kind);
    forall i | |s.log| <= i < |t.log| ensures t.log[i].call.CreateChild? {
      if i < |m.log| { assert t.log[i] == m.log[i]; }
    }
    forall id { BirthsExtend(s, m, t, kind, id); }
    hide Births;
  }

  /** Creating children of the other kind before. */
  lemma GatherAfter(s: State, m: State, t: State, kind: Kind, have: set<nat>, other: set<nat>)
    requires Traced(s, m, Other(kind), {}, other) && Traced(m, t, kind, {}, have)
    requires m.remote.Table(kind) == s.remote.Table(kind) && m.remote.Table(kind).Valid()
    ensures Gathered(s, t, kind, have)
  {
    hide ServedBirth, LostBirth;
    assert Births(s, m, kind);
    BirthsChain(s, m, t, kind);
    forall i | |s.log| <= i < |t.log| ensures t.log[i].call.CreateChild? {
      if i < |m.log| { assert t.log[i] == m.log[i]; }
    }
    forall id { BirthsExtend(s, m, t, kind, id); }
    hide Births;
  }

  /** Nothing happened on this side. */
  ghost predicate SideNeutral(s: State, t: State, kind: Kind) {
    && t.remote.Table(kind) == s.remote.Table(kind) && TrackedIDs(t, kind) == TrackedIDs(s, kind) && s.log <= t.log
    && forall i :: |s.log| <= i < |t.log| ==> !Creates(t.log[i], kind) && !Deletes(t.log[i], kind)
  }

  lemma SideNeutralAccounted(s: State, t: State, kind: Kind)
    requires SideNeutral(s, t, kind) && Bounded(s, kind)
    ensures Accounted(s, t, kind) && Bounded(t, kind)
  {
    assert LeftOver(t, kind) == LeftOver(s, kind);
    hide LeftByPersist, LeftByDelete;
  }

  /** How the patch after a creation went. */
  datatype Patching = NotMade | NotDone | Added | Replaced

  ghost predicate Patched(s: State, b: State, t: State, kind: Kind, have: set<nat>, how: Patching) {
    && t.remote.Table(kind) == b.remote.Table(kind) && b.log <= t.log
    && (how.NotMade? || (|t.log| == |b.log| + 1 && IsPatch(t.log[|b.log|])))
    && match how
       case NotMade => t.log == b.log && (t.crashed || have == {}) && TrackedIDs(t, kind) == TrackedIDs(s, kind)
       case NotDone => t.log[|b.log|].reply.Refused? && TrackedIDs(t, kind) == TrackedIDs(s, kind)
       case Added => !t.log[|b.log|].reply.Refused? && TrackedIDs(t, kind) == TrackedIDs(s, kind) + have
       case Replaced => !t.log[|b.log|].reply.Refused? && TrackedIDs(t, kind) == have
  }

  /** A birth during the creation is followed at once by the patch. */
  lemma PatchFollows(s: State, b: State, t: State, kind: Kind, i: int)
    requires AnyCreates(b.log, |s.log|) && s.log <= b.log <= t.log && |s.log| <= i < |b.log|
    ensures t.log[i] == b.log[i]
    ensures |t.log| > |b.log| && IsPatch(t.log[|b.log|]) ==> NextPatch(t.log, i, |b.log|)
    ensures t.log == b.log ==> Unpatched(t.log, i)
  {
    forall k | i < k < |b.log| ensures !IsPatch(t.log[k]) {
      assert t.log[k] == b.log[k];
    }
  }

  /** A new row in a slot is recorded if the patch was done, and unrecorded otherwise. */
  lemma ServedFate(s: State, b: State, t: State, kind: Kind, have: set<nat>, how: Patching, id: nat)
    requires Gathered(s, b, kind, have) && Patched(s, b, t, kind, have, how) && id in have
    ensures how.Added? || how.Replaced? ==> WasTracked(s, t, kind, id)
    ensures how.NotMade? || how.NotDone? ==> LeftByPersist(s, t, kind, id)
  {
    hide Births, Keys, TrackedIDs, NextPatch, Unpatched;
    var i :| Born(b.log, |s.log|, kind, id, i) && b.log[i].reply.Served?;
    assert s.log <= b.log by { BirthsLog(s, b, kind); }
    PatchFollows(s, b, t, kind, i);
    assert Born(t.log, |s.log|, kind, id, i);
    if how.Added? || how.Replaced? {
      assert Recorded(t.log, i);
    } else {
      assert NotRecorded(t, i);
    }
  }

  lemma LostFate(s: State, b: State, t: State, kind: Kind, id: nat)
    requires s.log <= b.log <= t.log && LostBirth(b.log, |s.log|, kind, id)
    ensures LeftByPersist(s, t, kind, id)
  {
    var i :| Born(b.log, |s.log|, kind, id, i) && b.log[i].reply.Lost?;
    assert t.log[i] == b.log[i];
    assert Born(t.log, |s.log|, kind, id, i) && NotRecorded(t, i);
  }

  /** New IDs are above all old ones. */
  lemma HaveIsNew(s: State, b: State, kind: Kind, have: set<nat>, id: nat)
    requires Gathered(s, b, kind, have) && id in have
    ensures NextID(s, kind) <= id < NextID(b, kind)
  {
    var i :| Born(b.log, |s.log|, kind, id, i) && b.log[i].reply.Served?;
  }

  /** During creation and patch nothing was deleted, and nothing else was created. */
  lemma PatchedBirths(s: State, b: State, t: State, kind: Kind, have: set<nat>, how: Patching)
    requires Gathered(s, b, kind, have) && Patched(s, b, t, kind, have, how)
    ensures Births(s, t, kind) && !DeletedAny(t.log, |s.log|, kind)
  {
    assert forall i :: 0 <= i < |b.log| ==> t.log[i] == b.log[i];
    hide ServedBirth, LostBirth;
  }

  ghost predicate DeletedAny(log: seq<Entry>, n: nat, kind: Kind) {
    exists i :: n <= i < |log| && Deletes(log[i], kind)
  }

  /** The slots' IDs are fresh, and recorded or not as the patch went. */
  lemma HaveFates(s: State, b: State, t: State, kind: Kind, have: set<nat>, how: Patching)
    requires Gathered(s, b, kind, have) && Patched(s, b, t, kind, have, how)
    ensures forall id :: id in have ==>
      && NextID(s, kind) <= id < NextID(t, kind)
      && (how.Added? || how.Replaced? ==> WasTracked(s, t, kind, id))
      && (how.NotMade? || how.NotDone? ==> LeftByPersist(s, t, kind, id))
    ensures forall id :: id in TrackedIDs(s, kind) ==> WasTracked(s, t, kind, id)
  {
    hide LeftByPersist, WasTracked, TrackedIDs, Gathered, Patched;
    forall id | id in have
      ensures NextID(s, kind) <= id < NextID(t, kind)
      ensures how.Added? || how.Replaced? ==> WasTracked(s, t, kind, id)
      ensures how.NotMade? || how.NotDone? ==> LeftByPersist(s, t, kind, id)
    {
      HaveIsNew(s, b, kind, have, id);
      PatchedNext(s, b, t, kind, have, how);
      ServedFate(s, b, t, kind, have, how, id);
    }
    forall id | id in TrackedIDs(s, kind) ensures WasTracked(s, t, kind, id) { OldWasTracked(s, t, kind, id); }
  }

  lemma PatchedNext(s: State, b: State, t: State, kind: Kind, have: set<nat>, how: Patching)
    requires Patched(s, b, t, kind, have, how)
    ensures NextID(t, kind) == NextID(b, kind) && Keys(t, kind) == Keys(b, kind) && b.log <= t.log
  {
  }

  lemma PatchedAccounted(s: State, b: State, t: State, kind: Kind, have: set<nat>, how: Patching)
    requires Bounded(s, kind) && Gathered(s, b, kind, have) && Patched(s, b, t, kind, have, how)
    requires how.Replaced? ==> t.log[|b.log|].reply.Lost?
    ensures Accounted(s, t, kind)
  {
    hide ServedBirth, LostBirth, LeftByPersist, WasTracked, TrackedIDs, Keys;
    PatchedBirths(s, b, t, kind, have, how);
    HaveFates(s, b, t, kind, have, how);
    PatchedNext(s, b, t, kind, have, how);
    assert Trackings(s, t, kind);
    forall id | id in LeftOver(s, kind) ensures id in LeftOver(t, kind) {}
    forall id | id in LeftOver(t, kind) && id !in LeftOver(s, kind)
      ensures LeftByPersist(s, t, kind, id) || LeftByDelete(s, t, kind, id)
    {
      if id !in Keys(s, kind) {
        if id !in have { LostFate(s, b, t, kind, id); }
      } else {
        assert how.Replaced?;
        NothingDeleted(t.log, |s.log|, kind, id);
        PatchLostAt(t.log, |s.log|, |b.log|);
        assert WasTracked(s, t, kind, id);
      }
    }
    hide Births;
  }

  lemma NothingDeleted(log: seq<Entry>, n: nat, kind: Kind, id: nat)
    requires !DeletedAny(log, n, kind)
    ensures !DeleteTried(log, n, kind, id)
  {
  }

  lemma PatchLostAt(log: seq<Entry>, n: nat, j: nat)
    requires n <= j < |log| && IsPatch(log[j]) && log[j].reply.Lost?
    ensures PatchLost(log, n)
  {
  }

  lemma OldWasTracked(s: State, t: State, kind: Kind, id: nat)
    requires id in TrackedIDs(s, kind)
    ensures WasTracked(s, t, kind, id)
  {
  }

  /** After a served patch that replaced the tracked children, the old ones were deleted. */
  lemma SwapAccounted(s: State, b: State, p: State, t: State, kind: Kind, have: set<nat>, before: seq<nat>)
    requires Bounded(s, kind) && Gathered(s, b, kind, have) && Patched(s, b, p, kind, have, Replaced)
    requires TrackedIDs(s, kind) == IDSet(before) && Deleted(p, t, kind, before) && TrackedIDs(t, kind) == have && Goes(p, t)
    ensures Accounted(s, t, kind)
  {
    hide ServedBirth, LostBirth, LeftByPersist, WasTracked, TrackedIDs, Keys, DeleteRefused, DeleteTried;
    PatchedBirths(s, b, p, kind, have, Replaced);
    HaveFates(s, b, p, kind, have, Replaced);
    PatchedNext(s, b, p, kind, have, Replaced);
    SwapBirths(s, p, t, kind, before);
    forall id | WasTracked(s, p, kind, id) ensures WasTracked(s, t, kind, id) { WasTrackedStays(s, p, t, kind, id); }
    SwapTrackings(s, p, t, kind, have, before);
    forall id | id in LeftOver(t, kind) && id !in LeftOver(s, kind)
      ensures LeftByPersist(s, t, kind, id) || LeftByDelete(s, t, kind, id)
    {
      if id !in Keys(s, kind) {
        LostFate(s, b, t, kind, id);
      } else {
        assert id in before && WasTracked(s, t, kind, id);
        DeletedFate(s, p, t, kind, id);
      }
    }
    hide Births, Trackings;
  }

  lemma SwapTrackings(s: State, p: State, t: State, kind: Kind, have: set<nat>, before: seq<nat>)
    requires Bounded(s, kind) && TrackedIDs(s, kind) == IDSet(before) && TrackedIDs(t, kind) == have
    requires Births(s, p, kind) && Deleted(p, t, kind, before) && !DeletedAny(p.log, |s.log|, kind)
    requires forall id :: id in have ==> NextID(s, kind) <= id < NextID(p, kind) && WasTracked(s, t, kind, id)
    ensures Trackings(s, t, kind)
  {
    hide WasTracked, TrackedIDs, Keys, DeleteRefused, DeleteTried;
    forall i | |s.log| <= i < |t.log| && Deletes(t.log[i], kind)
      ensures var id := t.log[i].call.id;
        id < NextID(t, kind) && id !in TrackedIDs(t, kind) && (id in TrackedIDs(s, kind) || NextID(s, kind) <= id)
    {
      assert forall k :: |s.log| <= k < |p.log| ==> p.log[k] == t.log[k];
      assert t.log[i].call.id in IDSet(before);
    }
  }

  lemma DeletedFate(s: State, p: State, t: State, kind: Kind, id: nat)
    requires s.log <= p.log <= t.log && !DeletedAny(p.log, |s.log|, kind) && WasTracked(s, t, kind, id)
    requires DeleteRefused(t.log, |p.log|, kind, id) || (!DeleteTried(t.log, |p.log|, kind, id) && t.crashed)
    ensures LeftByDelete(s, t, kind, id)
  {
    hide WasTracked;
    assert forall i :: 0 <= i < |p.log| ==> t.log[i] == p.log[i];
    assert forall i :: |s.log| <= i < |p.log| ==> !Deletes(p.log[i], kind);
    if DeleteRefused(t.log, |p.log|, kind, id) {
      var j :| |p.log| <= j < |t.log| && Deletes(t.log[j], kind) && t.log[j].call.id == id && t.log[j].reply.Refused?;
      assert |s.log| <= j;
    }
  }

  lemma SwapBirths(s: State, p: State, t: State, kind: Kind, before: seq<nat>)
    requires Births(s, p, kind) && Deleted(p, t, kind, before)
    ensures Births(s, t, kind)
  {
    assert forall i :: 0 <= i < |p.log| ==> t.log[i] == p.log[i];
    hide DeleteRefused, DeleteTried;
  }

  lemma BoundedAfter(s: State, t: State, kind: Kind)
    requires Accounted(s, t, kind) && t.remote.Table(kind).Valid()
    ensures Bounded(t, kind)
  {
    hide WasTracked, LeftByPersist, LeftByDelete;
  }

  lemma LiveBounded(s: State, kind: Kind)
    requires Live(s)
    ensures Bounded(s, kind) && s.remote.Table(kind).Valid()
  {
    assert Honest(s, s.stored.status, kind) by { if kind == Targets {} }
    hide Unique, Linked, Recomposes;
  }

  /** What a patch of the tracked lists did, seen from before the creation. */
  lemma PatchCases(s: State, b: State, after: Status, kind: Kind, have: set<nat>)
    requires b.stored.status == s.stored.status && b.res.status == s.stored.status
    requires IDSet(after.Kept(kind).ids) == have || IDSet(after.Kept(kind).ids) == TrackedIDs(s, kind) + have
    ensures var p := Patch(b, after);
      exists how :: Patched(s, b, p.s, kind, have, how)
        && (how.NotMade? || how.NotDone? ==> p.r.Err?)
        && (p.r.Ok? ==> !Halted(b) && b.script[0].reply.Served? && p.s.log == b.log + [Entry(PatchStatus, b.script[0].reply)])
        && (how.Replaced? && p.r.Err? ==> p.s.log[|b.log|].reply.Lost?)
        && (how.Replaced? ==> IDSet(after.Kept(kind).ids) == have)
  {
    var p := Patch(b, after);
    if Halted(b) {
      assert Patched(s, b, p.s, kind, have, NotMade);
    } else {
      AdvanceNeutral(b, PatchStatus);
      MergeAll(b.res.status, after);
      var t := Advance(b, PatchStatus);
      assert t.log == b.log + [Entry(PatchStatus, b.script[0].reply)] by { AdvanceLogs(b, PatchStatus); }
      assert p.s.remote.Table(kind) == b.remote.Table(kind) by { if kind == Targets {} }
      if b.script[0].reply.Refused? {
        assert Patched(s, b, p.s, kind, have, NotDone);
      } else if IDSet(after.Kept(kind).ids) == have {
        assert Patched(s, b, p.s, kind, have, Replaced);
      } else {
        assert Patched(s, b, p.s, kind, have, Added);
      }
    }
    hide Advance, MergeStatus;
  }

  lemma AdvanceLogs(s: State, call: Call)
    requires !Halted(s)
    ensures Advance(s, call).log == s.log + [Entry(call, s.script[0].reply)]
  {
  }
}
