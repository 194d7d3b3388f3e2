/** Edits that come during an activation: for every state in which the reconciler can do its work, and
    for every edit that keeps the identity, when exactly it can be reported as observed although it is
    not. */
module PublicEdits {
  import opened Shared
  import opened Server
  import opened PublicResource
  import opened PublicSafety
  import opened PublicChildren
  import opened PublicSteps
  import opened PublicProtocol
  import opened PublicRuns
  import opened PublicConvergence
  import opened PublicTwins
  import opened PublicLoose
  import opened PublicOutage
  import opened PublicConfined
  import opened PublicCreationEdits

  // ---- What an update for one version leaves undone for a later one ----

  /** The settings of a resource after an update for the current version. */
  function SettingsAfter(s: State, id: nat): Settings
    requires id in s.remote.resources.live
  {
    Apply(s.remote.resources.live[id], SettingsRequest(s.stored.spec)).settings
  }

  /** The targets that are tracked after an update for the current version are what a later one asks for. */
  ghost predicate TargetsServe(s: State, later: Spec) {
    if Trusted(s, Targets) then Realised(s, Targets, s.stored.status.resourceID, later.targets, s.stored.status.targets.ids)
    else Leads(later.targets, s.stored.spec.targets)
  }

  /** Targets have to be recorded for the current version, and they or its settings do not cover the later one. */
  ghost predicate TargetsLeave(s: State, id: nat, later: Spec)
    requires id in s.remote.resources.live
  {
    !Trusted(s, Targets) && !(InForce(SettingsAfter(s, id), later) && Leads(later.targets, s.stored.spec.targets))
  }

  /** Rules have to be recorded for the current version, and they, the targets or the settings do not
      cover the later one. */
  ghost predicate RulesLeave(s: State, id: nat, later: Spec)
    requires id in s.remote.resources.live
  {
    && !Trusted(s, Rules)
    && !(InForce(SettingsAfter(s, id), later) && TargetsServe(s, later) && Leads(later.rules, s.stored.spec.rules))
  }

  // ---- One swap while the object is edited ----

  lemma SyncFacts(s: State, kind: Kind, vs: seq<Spec>, later: Spec)
    requires Ready0(s) && !s.crashed && s.stored.status.resourceID in s.remote.resources.live && Confined(s, vs, later)
    ensures var t := Sync(s, kind); var specs := s.res.spec.Children(kind);
      && Confined(t.s, vs, later)
      && (t.r.Ok? ==>
            && t.s.remote.Table(Other(kind)) == s.remote.Table(Other(kind))
            && (if s.stored.status.Kept(kind).hash == HashOf(specs) then t.s == s
                else |t.s.stored.status.Kept(kind).ids| == |specs| && t.s.res.generation in {|vs|, |vs| + 1}))
  {
    hide Base, Unique, Backed, Tame, Grew, CreateChildren, DeleteChildren, Patch, NewChildren, Realised, Follows, Confined, Synced;
    InStep(s);
    var specs, kept, id := s.res.spec.Children(kind), s.stored.status.Kept(kind), s.stored.status.resourceID;
    CreateChildrenKeeps(s, kind, id, specs);
    CreationKeepsStatus(s, kind, id, specs);
    CreationConfined(s, kind, id, specs, vs, later);
    var b := CreateChildren(s, kind, id, specs);
    GrewAside(s, b.s, kind);
    PatchesConfined(b.s, vs, later);
    var after := s.stored.status.WithKept(kind, Tracked(b.ids, HashOf(specs)));
    PatchRefreshes(b.s, after, vs, later);
    ResourcesStay(b.s, after);
    var p := Patch(b.s, after);
    DeletionConfined(p.s, kind, id, kept.ids, vs, later);
    DeletionAside(p.s, kind, id, kept.ids);
  }

  /** A served patch brings the copy to one of the two latest versions. */
  lemma PatchRefreshes(s: State, after: Status, vs: seq<Spec>, later: Spec)
    requires Confined(s, vs, later) && s.res.status == s.stored.status
    ensures var p := Patch(s, after); p.r.Ok? ==> p.s.stored.status == after && p.s.res.generation in {|vs|, |vs| + 1}
  {
    if !Halted(s) {
      PatchInStep(s, after);
      AdvanceConfined(s, PatchStatus, vs, later);
    }
    hide Advance, Edits;
  }

  lemma {:induction false} DeletionAside(s: State, kind: Kind, resource: nat, ids: seq<nat>)
    ensures var t := DeleteChildren(s, kind, resource, ids);
      && t.res == s.res && t.stored.status == s.stored.status && t.remote.Table(Other(kind)) == s.remote.Table(Other(kind))
    decreases |ids|
  {
    if ids != [] {
      DeleteOneAside(s, kind, resource, ids[0]);
      DeletionAside(DeleteOne(s, kind, resource, ids[0]), kind, resource, ids[1..]);
    }
    hide DeleteOne;
  }

  lemma DeleteOneAside(s: State, kind: Kind, resource: nat, id: nat)
    ensures var t := DeleteOne(s, kind, resource, id);
      && t.res == s.res && t.stored.status == s.stored.status && t.remote.Table(Other(kind)) == s.remote.Table(Other(kind))
  {
    if !Halted(s) {
      var t := Advance(s, DeleteChild(kind, id));
      assert t.remote.targets == s.remote.targets && t.remote.rules == s.remote.rules;
    }
    hide Advance;
  }

  // ---- An update while the object is edited ----

  /** An update is about to start for the version that was stored before the edit. */
  ghost predicate Updating(s: State, vs: seq<Spec>, later: Spec) {
    && Ready0(s) && !s.crashed && s.res == s.stored && s.stored.status.resourceID in s.remote.resources.live
    && Confined(s, vs, later) && s.versions == vs
  }

  function SettingsUpdated(s: State): Outcome {
    ApiUpdate(s, s.res.status.resourceID, SettingsRequest(s.res.spec))
  }

  function TargetsUpdated(s: State): Outcome {
    Sync(SettingsUpdated(s).s, Targets)
  }

  /** The copy is the edited version. */
  predicate Edited(s: State, vs: seq<Spec>) {
    s.res.generation == |vs| + 1
  }

  lemma CopyVersion(s: State, vs: seq<Spec>, later: Spec)
    requires Ready0(s) && !s.crashed && Confined(s, vs, later) && s.res.generation in {|vs|, |vs| + 1}
    ensures Edited(s, vs) ==> s.res.spec == later == s.stored.spec && s.versions == vs + [later]
    ensures !Edited(s, vs) ==> s.res.spec == vs[|vs| - 1]
  {
    hide Live, Edits;
  }

  lemma SettingsFacts(s: State, vs: seq<Spec>, later: Spec)
    requires Updating(s, vs, later)
    ensures var u := SettingsUpdated(s); var id := s.stored.status.resourceID;
      && Confined(u.s, vs, later)
      && (u.r.Ok? ==>
            && Ready0(u.s) && !u.s.crashed && u.s.res == s.res && u.s.stored.status == s.stored.status && u.s.siteID == s.siteID
            && id in u.s.remote.resources.live && u.s.remote.resources.live[id].settings == SettingsAfter(s, id)
            && u.s.remote.targets == s.remote.targets && u.s.remote.rules == s.remote.rules)
  {
    hide Base, Unique, Backed, Advance, Tame, Confined, Synced, Apply, SettingsRequest, Steady;
    var id, q := s.stored.status.resourceID, SettingsRequest(s.stored.spec);
    RequestName(s.stored.spec);
    RidMatches(s);
    ApiUpdateKeeps(s, id, q);
    WriteConfined(s, id, q, vs, later);
    var u := SettingsUpdated(s);
    if u.r.Ok? {
      Onward(s, u.s);
      AdvanceFollows(s, UpdateResource(id));
    }
  }

  lemma HashRealises(s: State, kind: Kind, specs: seq<ChildSpec>)
    requires Live(s) && s.stored.status.Kept(kind).hash == HashOf(specs)
    ensures Realised(s, kind, s.stored.status.resourceID, specs, s.stored.status.Kept(kind).ids)
  {
    assert Honest(s, s.stored.status, kind) by { if kind == Targets {} }
    hide Base, Unique, Linked;
  }

  lemma RealisedParts(s: State)
    requires Live(s) && s.stored.status.resourceID in s.remote.resources.live
    ensures var st, spec := s.stored.status, s.stored.spec; var id := st.resourceID;
      SpecRealised(s) <==>
        && InForce(s.remote.resources.live[id].settings, spec)
        && Realised(s, Targets, id, spec.targets, st.targets.ids) && Realised(s, Rules, id, spec.rules, st.rules.ids)
  {
    RidNonZero(s);
    InForceMeans(s.remote.resources.live[s.stored.status.resourceID], s.stored.spec);
    hide Base, Unique, Honest, Realised, InForce, Apply, SettingsRequest;
  }

  /** What an update for the version before the edit has left when the edit is stored. */
  ghost predicate Overtaken(s: State, w: State, later: Spec) {
    var id, st := s.stored.status.resourceID, w.stored.status;
    && Live(w) && w.stored.spec == later && st.resourceID == id && w.siteID == s.siteID
    && id in s.remote.resources.live && id in w.remote.resources.live
    && w.remote.resources.live[id].settings == SettingsAfter(s, id)
    && st.targets.hash == HashOf(s.stored.spec.targets)
    && (if Trusted(s, Targets) then st.targets == s.stored.status.targets && w.remote.targets == s.remote.targets
        else |st.targets.ids| == |s.stored.spec.targets|)
  }

  lemma OvertakenTargets(s: State, w: State, later: Spec)
    requires Overtaken(s, w, later)
    ensures Realised(w, Targets, w.stored.status.resourceID, later.targets, w.stored.status.targets.ids) <==> TargetsServe(s, later)
  {
    var id, ids := w.stored.status.resourceID, w.stored.status.targets.ids;
    HashRealises(w, Targets, s.stored.spec.targets);
    if !Trusted(s, Targets) { LeadsRealised(w, Targets, id, s.stored.spec.targets, later.targets, ids); }
    hide Live, Leads, SettingsAfter;
  }

  /** Overtaken while it recorded the targets: the rules were brought up to date afterwards. */
  lemma OvertakenEarly(s: State, w: State, later: Spec)
    requires Overtaken(s, w, later) && !Trusted(s, Targets) && w.stored.status.rules.hash == HashOf(later.rules)
    ensures !SpecRealised(w) <==> TargetsLeave(s, s.stored.status.resourceID, later)
  {
    OvertakenTargets(s, w, later);
    HashRealises(w, Rules, later.rules);
    RealisedParts(w);
    hide Live, Leads, SettingsAfter, Realised, InForce;
  }

  /** Overtaken after that: the rules were recorded for the version before, too. */
  lemma OvertakenLate(s: State, w: State, later: Spec)
    requires Overtaken(s, w, later) && !Trusted(s, Rules)
    requires w.stored.status.rules.hash == HashOf(s.stored.spec.rules) && |w.stored.status.rules.ids| == |s.stored.spec.rules|
    ensures !SpecRealised(w) <==> RulesLeave(s, s.stored.status.resourceID, later)
  {
    var id, ids := w.stored.status.resourceID, w.stored.status.rules.ids;
    OvertakenTargets(s, w, later);
    HashRealises(w, Rules, s.stored.spec.rules);
    LeadsRealised(w, Rules, id, s.stored.spec.rules, later.rules, ids);
    RealisedParts(w);
    hide Live, Leads, SettingsAfter, Realised, InForce;
  }

  /** The two swaps of an update, the second with the copy that the first left. */
  ghost predicate Swaps(s: State, x: State, w: State, vs: seq<Spec>) {
    var id, st := s.stored.status.resourceID, w.stored.status;
    && st.resourceID == id && w.siteID == s.siteID && st.observedGeneration == s.stored.status.observedGeneration
    && id in s.remote.resources.live && id in w.remote.resources.live
    && w.remote.resources.live[id].settings == SettingsAfter(s, id)
    && x.res.generation in {|vs|, |vs| + 1} && w.res.generation in {|vs|, |vs| + 1}
    && st.targets.hash == HashOf(s.res.spec.targets)
    && (if s.stored.status.targets.hash == HashOf(s.res.spec.targets)
        then x.res == s.res && st.targets == s.stored.status.targets && w.remote.targets == s.remote.targets
        else |st.targets.ids| == |s.res.spec.targets|)
    && st.rules.hash == HashOf(x.res.spec.rules)
    && (if s.stored.status.rules.hash == HashOf(x.res.spec.rules) then w.res == x.res else |st.rules.ids| == |x.res.spec.rules|)
  }

  lemma UpdateSwaps(s: State, vs: seq<Spec>, later: Spec)
    requires Updating(s, vs, later)
    ensures var x, w := TargetsUpdated(s).s, Update(s);
      && Confined(w.s, vs, later)
      && (w.r.Ok? && !w.s.crashed ==>
            Ready0(x) && !x.crashed && Confined(x, vs, later) && Ready0(w.s) && Swaps(s, x, w.s, vs))
  {
    hide Base, Unique, Backed, Tame, Confined, Synced, Apply, SettingsRequest, Steady, Sync, ApiUpdate, Realised, Follows, Kept, SettingsAfter;
    SettingsFacts(s, vs, later);
    var u := SettingsUpdated(s);
    if u.r.Ok? {
      SyncKeeps(u.s, Targets);
      SyncFacts(u.s, Targets, vs, later);
      var x := TargetsUpdated(s);
      if x.r.Ok? {
        Onward(u.s, x.s);
        if x.s.crashed {
          CrashedSync(x.s, Rules);
        } else {
          SyncKeeps(x.s, Rules);
          SyncFacts(x.s, Rules, vs, later);
          var w := Update(s);
          if w.r.Ok? && !w.s.crashed {
            Onward(x.s, w.s);
            KeptFollows(u.s, x.s, x.r);
            KeptFollows(x.s, w.s, w.r);
            SameSiteID(u.s, x.s);
            SameSiteID(x.s, w.s);
            UpdatingCopy(s, vs, later);
            InStep(u.s);
            InStep(x.s);
          }
        }
      }
    }
  }

  lemma SameSiteID(s: State, t: State)
    requires Follows(s, t)
    ensures t.siteID == s.siteID
  {
  }

  lemma UpdatingCopy(s: State, vs: seq<Spec>, later: Spec)
    requires Updating(s, vs, later)
    ensures s.res.generation == |vs| && s.res.spec == s.stored.spec == vs[|vs| - 1]
  {
    hide Ready0, Edits;
  }

  /** An update that was overtaken by the edit while it recorded the targets realises the edit exactly if
      settings and targets of the version before cover it; one that was overtaken later, if the rules
      do so as well. */
  lemma UpdateMeans(s: State, vs: seq<Spec>, later: Spec)
    requires Updating(s, vs, later)
    ensures var id := s.stored.status.resourceID; var x, w := TargetsUpdated(s).s, Update(s);
      && Confined(w.s, vs, later)
      && (w.r.Ok? && !w.s.crashed ==>
            && Ready0(w.s) && w.s.stored.status.resourceID == id && id in w.s.remote.resources.live
            && w.s.stored.status.observedGeneration == s.stored.status.observedGeneration
            && w.s.res.generation in {|vs|, |vs| + 1}
            && (Edited(w.s, vs) && Edited(x, vs) ==>
                  !Trusted(s, Targets) && (!SpecRealised(w.s) <==> TargetsLeave(s, id, later)))
            && (Edited(w.s, vs) && !Edited(x, vs) ==>
                  !Trusted(s, Rules) && (!SpecRealised(w.s) <==> RulesLeave(s, id, later))))
  {
    hide Live, Tame, Synced, Update, TargetsUpdated, Confined, SpecRealised, TargetsLeave, RulesLeave, SettingsAfter;
    UpdateSwaps(s, vs, later);
    UpdatingCopy(s, vs, later);
    var x, w := TargetsUpdated(s).s, Update(s);
    if w.r.Ok? && !w.s.crashed {
      CopyVersion(x, vs, later);
      CopyVersion(w.s, vs, later);
      if Edited(w.s, vs) {
        if Edited(x, vs) { OvertakenEarly(s, w.s, later); } else { OvertakenLate(s, w.s, later); }
      }
    }
  }

  // ---- Which edits are not missed ----

  /** The mark for the edited version comes from a copy of that version. */
  lemma FinishMeans(s: State, vs: seq<Spec>, later: Spec)
    requires Ready0(s) && Confined(s, vs, later) && later != vs[|vs| - 1] && s.stored.status.observedGeneration <= |vs|
    requires !s.crashed ==> s.stored.status.resourceID in s.remote.resources.live && s.res.generation in {|vs|, |vs| + 1}
    ensures var t := Finish(s);
      MarkedReady(t.stored) && t.stored.spec == later ==> !s.crashed && Edited(s, vs) && (SpecRealised(t) <==> SpecRealised(s))
  {
    hide Base, Unique, Backed, Tame, Patch, SpecRealised, Follows, Edits;
    FinishKeeps(s);
    FinishConfined(s, vs, later);
    var t := Finish(s);
    if MarkedReady(t.stored) && t.stored.spec == later {
      assert t.stored.generation == |vs| + 1;
      InStep(s);
      CopyVersion(s, vs, later);
      SameSiteID(s, t);
      SameRealised(s, t);
    }
  }

  /** Without a mark the observed generation is one from before the edit. */
  lemma OldMark(s: State, vs: seq<Spec>, later: Spec)
    requires Confined(s, vs, later) && s.stored.status.observedGeneration <= |vs| && later != vs[|vs| - 1]
    ensures !(MarkedReady(s.stored) && s.stored.spec == later)
  {
    hide Edits;
  }

  lemma EditsAreGentle(s: State, vs: seq<Spec>, later: Spec)
    requires Confined(s, vs, later) && s.stored.spec == later
    ensures Gentle(s.script, s.stored.spec)
  {
    hide SettingsRequest;
  }

  lemma FailureConfined(s: State, kinds: set<ErrKind>, vs: seq<Spec>, later: Spec)
    requires Live(s) && Tame(s.script, s.stored.spec) && Confined(s, vs, later)
    ensures var t := ReportUpdate(s, kinds); NotFound !in kinds ==>
      Confined(t, vs, later) && t.stored.status.observedGeneration == s.stored.status.observedGeneration
    ensures var t := ReportEnsure(s, kinds);
      Confined(t, vs, later) && t.stored.status.observedGeneration == s.stored.status.observedGeneration
  {
    hide Base, Unique, Backed, Tame, Patch, Confined;
    PatchesConfined(s, vs, later);
    ReportKeeps(s, Unready(s, Erroneous));
    FailureObserves(s, kinds);
  }

  /** The copy is current, and the later version was not seen to before. */
  ghost predicate Underway(s: State, vs: seq<Spec>, later: Spec) {
    && Ready0(s) && !s.crashed && s.res == s.stored && s.stored.status.resourceID in s.remote.resources.live
    && Confined(s, vs, later) && later != vs[|vs| - 1] && s.stored.status.observedGeneration <= |vs|
  }

  /** Once the edit is in the copy, nothing that comes later can be missed. */
  lemma SeenIsRealised(s: State, hadID: bool, adopted: bool, vs: seq<Spec>, later: Spec)
    requires Underway(s, vs, later) && s.versions != vs && (hadID || adopted)
    ensures var t := UpdateAndFinish(s, hadID, adopted); MarkedReady(t.stored) ==> SpecRealised(t)
  {
    hide Base, Unique, Backed, Tame, UpdateAndFinish, UpToDate, SpecRealised, Gentle, Edits;
    EditsAreGentle(s, vs, later);
    SelfKept(s);
    RidNonZero(s);
    assert Behind(s);
    RereadNeedsUpdate(s);
    UpdateAndFinishThrough(s, s, hadID, adopted);
    var t := UpdateAndFinish(s, hadID, adopted);
    if MarkedReady(t.stored) { UpToDateIsRealised(t); }
  }

  /** Otherwise the edit can be missed only if the update leaves something of it. */
  lemma OthersRealised(s: State, hadID: bool, adopted: bool, vs: seq<Spec>, later: Spec)
    requires Underway(s, vs, later) && s.versions == vs
    requires var id := s.stored.status.resourceID; NeedsUpdate(s, hadID, adopted) ==> !TargetsLeave(s, id, later) && !RulesLeave(s, id, later)
    ensures var t := UpdateAndFinish(s, hadID, adopted); MarkedReady(t.stored) && t.stored.spec == later ==> SpecRealised(t)
  {
    hide Base, Unique, Backed, Tame, Synced, Update, Finish, ReportUpdate, SpecRealised, TargetsLeave, RulesLeave, Confined, MarkedReady,
         TargetsUpdated, Kept, Follows;
    UpdatingCopy(s, vs, later);
    if NeedsUpdate(s, hadID, adopted) {
      UpdateKeeps(s);
      UpdateMeans(s, vs, later);
      var u := Update(s);
      if u.r.Err? {
        KeptFollows(s, u.s, u.r);
        TameFollows(s, u.s);
        FailureConfined(u.s, u.r.kinds, vs, later);
        OldMark(ReportUpdate(u.s, u.r.kinds), vs, later);
      } else {
        Onward(s, u.s);
        FinishMeans(u.s, vs, later);
      }
    } else {
      FinishMeans(s, vs, later);
    }
  }

  ghost predicate Leaves(s: State, id: nat, later: Spec)
    requires id in s.remote.resources.live
  {
    TargetsLeave(s, id, later) || RulesLeave(s, id, later)
  }

  /** What an update leaves depends on the resource, on the spec, and on what is tracked and trusted. */
  lemma SameLeaves(s: State, t: State, id: nat, later: Spec)
    requires id in s.remote.resources.live && t.remote == s.remote && t.siteID == s.siteID && t.stored.spec == s.stored.spec
    requires forall kind :: Trusted(t, kind) == Trusted(s, kind)
    requires Trusted(s, Targets) ==>
      t.stored.status.resourceID == s.stored.status.resourceID && t.stored.status.targets == s.stored.status.targets
    ensures TargetsLeave(t, id, later) == TargetsLeave(s, id, later) && RulesLeave(t, id, later) == RulesLeave(s, id, later)
  {
    hide InForce, Leads, Apply, SettingsRequest;
  }

  /** The rest of an activation that keeps or adopts a resource, or has created it anew. */
  lemma EndRealises(s: State, vs: seq<Spec>, later: Spec)
    requires Ready0(s) && !s.crashed && Confined(s, vs, later) && later != vs[|vs| - 1] && s.stored.status.observedGeneration <= |vs|
    requires Confined(EnsureExists(s).s, vs, later)
    requires var e := EnsureExists(s); var id := e.s.stored.status.resourceID; e.r.Ok? ==>
      && (s.stored.status.resourceID != 0 || e.adopted) && (e.adopted ==> e.s.res == e.s.stored)
      && id in e.s.remote.resources.live
      && (e.s.versions == vs && (e.adopted || s.stored.status.observedGeneration != |vs|) ==> !Leaves(e.s, id, later))
    ensures var t := ReconcileReady(s); MarkedReady(t.stored) && t.stored.spec == later ==> SpecRealised(t)
  {
    hide Base, Unique, Backed, Tame, Synced, EnsureExists, UpdateAndFinish, ReportEnsure, Get, SpecRealised, TargetsLeave, RulesLeave,
         Confined, MarkedReady, Kept, Follows;
    EnsureExistsKeeps(s);
    InStep(s);
    var e := EnsureExists(s);
    var id, hadID := e.s.stored.status.resourceID, s.stored.status.resourceID != 0;
    KeptFollows(s, e.s, e.r);
    if e.r.Err? {
      TameFollows(s, e.s);
      FailureConfined(e.s, e.r.kinds, vs, later);
      OldMark(ReportEnsure(e.s, e.r.kinds), vs, later);
    } else {
      Onward(s, e.s);
      if hadID && !e.adopted {
        GetKeeps(e.s);
        ReadConfined(e.s, "", vs, later);
        var g := Get(e.s);
        KeptFollows(e.s, g.s, g.r);
        if g.r.Err? {
          OldMark(g.s, vs, later);
        } else {
          Onward(e.s, g.s);
          CopyEnds(e.s, g.s, hadID, false, vs, later);
        }
      } else {
        SelfKept(e.s);
        KeptFollows(e.s, e.s, Ok);
        CopyEnds(e.s, e.s, hadID, true, vs, later);
      }
    }
  }

  /** With a current copy. */
  lemma CopyEnds(e: State, s: State, hadID: bool, adopted: bool, vs: seq<Spec>, later: Spec)
    requires Underway(s, vs, later) && Follows(e, s) && s.remote == e.remote && s.stored.status == e.stored.status && Confined(e, vs, later)
    requires hadID || adopted
    requires var id := e.stored.status.resourceID;
      e.versions == vs && (adopted || e.stored.status.observedGeneration != |vs|) ==> !Leaves(e, id, later)
    ensures var t := UpdateAndFinish(s, hadID, adopted); MarkedReady(t.stored) && t.stored.spec == later ==> SpecRealised(t)
  {
    hide Ready0, UpdateAndFinish, SpecRealised, TargetsLeave, RulesLeave, MarkedReady, Edits, Tame, Gentle, SameWork;
    if s.versions != vs {
      SeenIsRealised(s, hadID, adopted, vs, later);
    } else {
      SameLeaves(e, s, s.stored.status.resourceID, later);
      OthersRealised(s, hadID, adopted, vs, later);
    }
  }

  // ---- The three ways to a resource ----

  /** A recorded resource that is live is found by its name. */
  lemma KeepsRecorded(s: State)
    requires Ready0(s) && !s.crashed && s.res.spec.name == s.stored.spec.name && s.stored.status.resourceID in s.remote.resources.live
    ensures var l := ApiList(s, s.res.spec.name); EnsureExists(s) == Ensured(l.s, l.r, false)
    ensures s.stored.status.resourceID != 0
  {
    hide Base, Unique, Backed, Tame, ApiList, Listing, Lists, FindResource, Create, Patch;
    ListKeeps(s, s.res.spec.name);
    LiveIsLoose(s);
    ListedByName(s);
    InStep(s);
  }

  /** Without one, a resource that matches is adopted. */
  lemma Adopts(s: State, id: nat)
    requires Ready0(s) && !s.crashed && s.res == s.stored && s.stored.status.resourceID !in s.remote.resources.live && Adoptable(s, id)
    ensures var l := ApiList(s, s.res.spec.name); var p := Patch(l.s, Adopted(s.stored.status, id));
      EnsureExists(s) == (if l.r.Ok? then Ensured(p.s, p.r, true) else Ensured(l.s, l.r, false))
  {
    hide Base, Backed, Tame, ApiList, Listing, Lists, Create, Patch, Kept;
    ListKeeps(s, s.res.spec.name);
    var l := ApiList(s, s.res.spec.name);
    if l.r.Ok? {
      DeadNotListed(s, s.res.spec.name);
      FindsAdoptable(s, id);
    }
    hide FindResource;
  }

  lemma FindsAdoptable(s: State, id: nat)
    requires Live(s) && Adoptable(s, id)
    ensures var m := FindResource(Listing(s.remote.resources.live, s.stored.spec.name, s.remote.resources.next), s.stored.spec);
      m.Some? && m.value.id == id
  {
    var live, spec := s.remote.resources.live, s.stored.spec;
    var items := Listing(live, spec.name, s.remote.resources.next);
    assert ResourceItem(id, spec.name, live[id].fullDomain) in items;
    var m := FindResource(items, spec);
    if m.Some? {
      var i :| 0 <= i < |items| && items[i] == m.value;
      assert Adoptable(s, m.value.id);
    }
    hide Listing, FindResource, Recomposes, Honest;
  }

  /** Nothing is hashed as long as no resource is there. */
  lemma NothingTrusted(s: State)
    requires Live(s) && s.stored.status.resourceID !in s.remote.resources.live
    ensures !Engaged(s.stored.status) && forall kind :: !Trusted(s, kind)
  {
    forall kind ensures !Trusted(s, kind) { if kind == Targets {} }
    hide Base, Unique, Honest;
  }

  /** An activation is about to start. */
  ghost predicate Starting(s: State, script: seq<Event>, later: Spec) {
    && Live(s) && Eligible(s) && Edits(script, later) && SameIdentity(later, s.stored.spec) && later != s.stored.spec
  }

  lemma Starts(s: State, script: seq<Event>, later: Spec)
    requires Starting(s, script, later)
    ensures var m := Start(s, script); var vs := s.versions;
      && Live(s) && Reconcile(s, script) == ReconcileReady(m) && m.res == m.stored
      && Ready0(m) && !m.crashed && Confined(m, vs, later) && later != vs[|vs| - 1] && m.stored.status.observedGeneration <= |vs|
  {
    hide Ready0, Edits, ReconcileReady, Reconcile, Base, Unique, Honest, Resolvable, Start;
    EditsStart(s, script, later);
    ReconcileIs(s, script);
    StartFacts(s, script);
  }

  lemma StartFacts(s: State, script: seq<Event>)
    requires Live(s)
    ensures var m := Start(s, script); m.res == m.stored == s.stored && s.versions != [] && s.versions[|s.versions| - 1] == s.stored.spec
    ensures s.stored.status.observedGeneration <= |s.versions|
  {
    hide Unique, Honest, Recomposes;
  }

  lemma KeptRealises(s: State, script: seq<Event>, later: Spec)
    requires Starting(s, script, later) && s.stored.status.resourceID in s.remote.resources.live
    requires Behind(s) ==> !Leaves(s, s.stored.status.resourceID, later)
    ensures var t := Reconcile(s, script); MarkedReady(t.stored) && t.stored.spec == later ==> SpecRealised(t)
  {
    hide Starting, Live, Synced, Tame, Follows, ReconcileReady, Reconcile, SpecRealised, MarkedReady, TargetsLeave, RulesLeave, ApiList, EnsureExists, Confined, Kept;
    Starts(s, script, later);
    var m, vs := Start(s, script), s.versions;
    KeepsRecorded(m);
    var l := ApiList(m, m.res.spec.name);
    ListKeeps(m, m.res.spec.name);
    ReadConfined(m, m.res.spec.name, vs, later);
    KeptFollows(m, l.s, l.r);
    SameSiteID(m, l.s);
    if l.s.versions == vs { KeptLeaves(s, l.s, later); }
    EndRealises(m, vs, later);
  }

  lemma KeptLeaves(s: State, t: State, later: Spec)
    requires Live(s) && Live(t) && t.versions == s.versions && t.remote == s.remote && t.siteID == s.siteID
    requires t.stored.status == s.stored.status && s.stored.status.resourceID in s.remote.resources.live
    ensures Leaves(t, s.stored.status.resourceID, later) == Leaves(s, s.stored.status.resourceID, later)
    ensures Behind(s) <==> s.stored.status.observedGeneration != |s.versions|
  {
    SameLeaves(s, t, s.stored.status.resourceID, later);
    hide Leaves, Unique, Honest;
  }

  lemma AdoptedRealises(s: State, script: seq<Event>, later: Spec, id: nat)
    requires Starting(s, script, later) && s.stored.status.resourceID !in s.remote.resources.live
    requires Adoptable(s, id) && !Leaves(s, id, later)
    ensures var t := Reconcile(s, script); MarkedReady(t.stored) && t.stored.spec == later ==> SpecRealised(t)
  {
    hide Starting, Live, Synced, Tame, Follows, ReconcileReady, Reconcile, SpecRealised, MarkedReady, TargetsLeave, RulesLeave, ApiList, EnsureExists, Confined, Kept,
         Patch;
    Starts(s, script, later);
    var m, vs := Start(s, script), s.versions;
    Adopts(m, id);
    var l := ApiList(m, m.res.spec.name);
    ListKeeps(m, m.res.spec.name);
    ReadConfined(m, m.res.spec.name, vs, later);
    if l.r.Ok? {
      Onward(m, l.s);
      var after := Adopted(s.stored.status, id);
      AdoptionKeeps(m, l.s, id);
      PatchesConfined(l.s, vs, later);
      var p := Patch(l.s, after);
      KeptFollows(m, l.s, l.r);
      KeptFollows(l.s, p.s, p.r);
      SameSiteID(m, l.s);
      SameSiteID(l.s, p.s);
      if p.r.Ok? && p.s.versions == vs {
        AdoptedLeaves(s, p.s, id, later);
      }
    }
    EndRealises(m, vs, later);
  }

  lemma AdoptionKeeps(m: State, s: State, id: nat)
    requires Ready0(m) && Ready0(s) && Kept(m, s, Ok) && s.remote == m.remote && s.stored.status == m.stored.status && !s.crashed
    requires m.stored.status.resourceID !in m.remote.resources.live && Adoptable(m, id)
    ensures var p := Patch(s, Adopted(s.stored.status, id));
      && Kept(s, p.s, p.r) && p.s.remote == s.remote && s.res.status == m.stored.status
      && p.s.stored.status.observedGeneration == s.stored.status.observedGeneration
      && (p.r.Ok? ==> p.s.stored.status == Adopted(s.stored.status, id) && p.s.res == p.s.stored && !p.s.crashed)
  {
    hide Base, Unique, Honest, Tame, Patch;
    AdoptedBacked(s, s.stored.status, id);
    NothingTrusted(m);
    PatchKeeps(s, Adopted(s.stored.status, id));
  }

  lemma AdoptedLeaves(s: State, t: State, id: nat, later: Spec)
    requires Live(s) && Live(t) && t.versions == s.versions && t.remote == s.remote && t.siteID == s.siteID
    requires s.stored.status.resourceID !in s.remote.resources.live && Adoptable(s, id)
    requires t.stored.status == Adopted(s.stored.status, id)
    ensures Leaves(t, id, later) == Leaves(s, id, later)
  {
    NothingTrusted(s);
    forall kind ensures !Trusted(t, kind) { if kind == Targets {} }
    SameLeaves(s, t, id, later);
    hide Leaves, Unique, Honest;
  }

  /** A resource that was recorded and is gone is created anew, and then looked after once more. */
  lemma RecreatedRealises(s: State, script: seq<Event>, later: Spec)
    requires Starting(s, script, later) && Vacant(s)
    requires s.stored.status.resourceID !in s.remote.resources.live && s.stored.status.resourceID != 0
    ensures var t := Reconcile(s, script); MarkedReady(t.stored) && t.stored.spec == later ==> SpecRealised(t)
  {
    hide Starting, Live, Synced, Tame, Follows, ReconcileReady, Reconcile, SpecRealised, MarkedReady, TargetsLeave, RulesLeave, ApiList,
         EnsureExists, Confined, Kept, Create, Vacant, MadeFor;
    Starts(s, script, later);
    EditsStart(s, script, later) by { StartingMeans(s, script, later); }
    var m, vs := Start(s, script), s.versions;
    CreatesAnew(m);
    var l := ApiList(m, m.res.spec.name);
    ReadConfined(m, m.res.spec.name, vs, later);
    if l.r.Ok? {
      CreateMakes(l.s, vs, later);
      CreateKeeps(l.s);
      var e := Create(l.s).s;
      if Create(l.s).r.Ok? && e.versions == vs { MadeLeaves(e, s.remote.defaults, vs, later); }
    }
    EndRealises(m, vs, later);
  }

  lemma StartingMeans(s: State, script: seq<Event>, later: Spec)
    requires Starting(s, script, later)
    ensures Live(s) && s.stored.finalizer && Edits(script, later) && SameIdentity(later, s.stored.spec)
  {
  }

  lemma MadeLeaves(s: State, defaults: Settings, vs: seq<Spec>, later: Spec)
    requires Confined(s, vs, later) && s.versions == vs && MadeFor(s, defaults, vs[|vs| - 1])
    ensures !Leaves(s, s.stored.status.resourceID, later)
  {
    assert Trusted(s, Targets) && Trusted(s, Rules);
  }

  // ---- Scripts in which the edit is missed ----

  /** A whole swap before the edit comes. */
  lemma LeadSync(s: State, kind: Kind, n: nat, tail: seq<Event>)
    requires s.res == s.stored && s.stored.status.resourceID in s.remote.resources.live && Lead(s, n + SyncCost(s, kind), tail)
    ensures var t := Sync(s, kind);
      && t.r.Ok? && Lead(t.s, n, tail) && t.s.res == t.s.stored && t.s.versions == s.versions && t.s.remote.resources == s.remote.resources
      && t.s.stored == s.stored.(status := s.stored.status.WithKept(kind, t.s.stored.status.Kept(kind)))
  {
    hide CreateChildren, DeleteChildren, Patch, Lead;
    var specs, kept, id := s.stored.spec.Children(kind), s.stored.status.Kept(kind), s.stored.status.resourceID;
    if kept.hash != HashOf(specs) {
      LeadChildren(s, kind, id, specs, n + 1 + |kept.ids|, tail);
      var b := CreateChildren(s, kind, id, specs).s;
      var after := s.stored.status.WithKept(kind, Tracked(CreateChildren(s, kind, id, specs).ids, HashOf(specs)));
      LeadPatch(b, after, n + |kept.ids|, tail);
      LeadDeletion(Patch(b, after).s, kind, id, kept.ids, n, tail);
    } else {
      if kind == Targets {}
    }
  }

  /** A swap whose recording patch brings the edit. */
  lemma EditedSync(s: State, kind: Kind, later: Spec, n: nat)
    requires s.res == s.stored && s.stored.status.resourceID in s.remote.resources.live && !Trusted(s, kind)
    requires Lead(s, |s.stored.spec.Children(kind)|, Tail(later, n + |s.stored.status.Kept(kind).ids|))
    requires later != s.stored.spec && !s.stored.deleting
    ensures var t := Sync(s, kind);
      && t.r.Ok? && Fuel(t.s, n) && t.s.res == t.s.stored && t.s.stored.spec == later && t.s.versions == s.versions + [later]
      && t.s.stored.generation == s.stored.generation + 1 && t.s.stored.deleting == s.stored.deleting
      && t.s.stored.status == s.stored.status.WithKept(kind, t.s.stored.status.Kept(kind))
  {
    hide CreateChildren, DeleteChildren, Patch, Lead, Tail, Smooth;
    var specs, kept, id := s.stored.spec.Children(kind), s.stored.status.Kept(kind), s.stored.status.resourceID;
    LeadChildren(s, kind, id, specs, 0, Tail(later, n + |kept.ids|));
    var b := CreateChildren(s, kind, id, specs);
    var after := s.stored.status.WithKept(kind, Tracked(b.ids, HashOf(specs)));
    EditedPatch(b.s, after, later, n + |kept.ids|);
    var p := Patch(b.s, after).s;
    SmoothDeletion(p, kind, id, kept.ids, n);
  }

  lemma {:induction false} SmoothDeletion(s: State, kind: Kind, resource: nat, ids: seq<nat>, n: nat)
    requires Fuel(s, n + |ids|)
    ensures var t := DeleteChildren(s, kind, resource, ids);
      Fuel(t, n) && t.stored == s.stored && t.res == s.res && t.versions == s.versions
    decreases |ids|
  {
    if ids != [] {
      SmoothCall(s, DeleteChild(kind, ids[0]), n + |ids| - 1);
      SmoothDeletion(DeleteOne(s, kind, resource, ids[0]), kind, resource, ids[1..], n);
    }
  }

  /** The calls of an update before the one that brings the edit: that which records the targets, or that
      which records the rules. */
  function CallsUntil(s: State, early: bool): nat {
    1 + if early then |s.stored.spec.targets| else SyncCost(s, Targets) + |s.stored.spec.rules|
  }

  /** And the calls that come afterwards. */
  function CallsAfter(s: State, early: bool, later: Spec): nat {
    1 + |s.stored.status.rules.ids| + if early then |s.stored.status.targets.ids| + |later.rules| + 1 else 0
  }

  /** The edit comes with that call. */
  ghost predicate Interrupted(s: State, vs: seq<Spec>, later: Spec, early: bool) {
    && Updating(s, vs, later) && !s.stored.deleting && later != s.stored.spec
    && Lead(s, CallsUntil(s, early), Tail(later, CallsAfter(s, early, later)))
  }

  /** The mark at the end of an update that brought the copy to the edited version. */
  ghost predicate EndsMarked(s: State, vs: seq<Spec>, later: Spec) {
    var w := Update(s); var t := Finish(w.s);
    && w.r.Ok? && !w.s.crashed && Edited(w.s, vs) && MarkedReady(t.stored) && t.stored.spec == later
    && (SpecRealised(t) <==> SpecRealised(w.s))
  }

  lemma InterruptedEarly(s: State, vs: seq<Spec>, later: Spec)
    requires Interrupted(s, vs, later, true) && !Trusted(s, Targets)
    ensures EndsMarked(s, vs, later) && Edited(TargetsUpdated(s).s, vs)
  {
    hide Base, Unique, Backed, Tame, Synced, Confined, Lead, Tail, ApiUpdate, Sync, Finish, Smooth, Follows, Kept, SpecRealised, SettingsRequest,
         SettingsAfter;
    var id, more := s.stored.status.resourceID, 1 + |later.rules| + 1 + |s.stored.status.rules.ids|;
    var tail := Tail(later, CallsAfter(s, true, later));
    LeadUpdate(s, id, SettingsRequest(s.stored.spec), |s.stored.spec.targets|, tail);
    SettingsFacts(s, vs, later);
    UpdatingCopy(s, vs, later);
    var u := SettingsUpdated(s).s;
    EditedSync(u, Targets, later, more);
    SyncKeeps(u, Targets);
    var x := TargetsUpdated(s).s;
    Onward(u, x);
    LiveIsLoose(x);
    FuelEnough(x, 1 + SyncCost(x, Rules), more);
    SyncLoose(x, Rules, 1);
    SwapsRules(x, Update(s).s);
    FinishLoose(Update(s).s);
  }

  lemma SwapsRules(s: State, t: State)
    requires SwappedOnly(s, t, Rules) && Ready1(t, 1)
    ensures t.stored.spec == s.stored.spec && t.stored.generation == s.stored.generation && t.res == t.stored && !t.crashed
  {
    hide Loose;
  }

  lemma LeadRuns(s: State, n: nat, tail: seq<Event>)
    requires Lead(s, n, tail)
    ensures !s.crashed
  {
  }

  lemma InterruptedLate(s: State, vs: seq<Spec>, later: Spec)
    requires Interrupted(s, vs, later, false) && !Trusted(s, Rules)
    ensures EndsMarked(s, vs, later) && !Edited(TargetsUpdated(s).s, vs)
  {
    hide Base, Unique, Backed, Tame, Synced, Confined, Lead, Tail, ApiUpdate, Sync, Finish, Smooth, Follows, Kept, SpecRealised, SettingsRequest,
         SettingsAfter;
    var id, rules := s.stored.status.resourceID, s.stored.spec.rules;
    var tail := Tail(later, CallsAfter(s, false, later));
    LeadUpdate(s, id, SettingsRequest(s.stored.spec), SyncCost(s, Targets) + |rules|, tail);
    SettingsFacts(s, vs, later);
    UpdatingCopy(s, vs, later);
    var u := SettingsUpdated(s).s;
    LeadSync(u, Targets, |rules|, tail);
    SyncKeeps(u, Targets);
    var x := TargetsUpdated(s).s;
    Onward(u, x);
    EditedSync(x, Rules, later, 1);
    assert !x.crashed by { LeadRuns(x, |rules|, tail); }
    SyncKeeps(x, Rules);
    var w := Update(s).s;
    Onward(x, w);
    LiveIsLoose(w);
    FinishLoose(w);
  }

  /** Interrupted there, the update leaves what it leaves, and the object is reported ready. */
  lemma InterruptedMisses(s: State, vs: seq<Spec>, later: Spec, early: bool)
    requires Interrupted(s, vs, later, early)
    requires var id := s.stored.status.resourceID; if early then TargetsLeave(s, id, later) else RulesLeave(s, id, later)
    ensures var w := Update(s); var t := Finish(w.s);
      w.r.Ok? && MarkedReady(t.stored) && t.stored.spec == later && !SpecRealised(t)
  {
    hide Live, Synced, Tame, Confined, Lead, Tail, Update, Finish, SpecRealised, TargetsUpdated, InForce, Leads, SettingsAfter;
    if early { InterruptedEarly(s, vs, later); } else { InterruptedLate(s, vs, later); }
    UpdateMeans(s, vs, later);
  }

  /** The two calls before the update are answered undisturbed. */
  function OvertakingScript(s: State, early: bool, later: Spec): seq<Event> {
    EditedAt(2 + CallsUntil(s, early), later, CallsAfter(s, early, later))
  }

  ghost predicate LeavesThere(s: State, id: nat, later: Spec, early: bool)
    requires id in s.remote.resources.live
  {
    if early then TargetsLeave(s, id, later) else RulesLeave(s, id, later)
  }

  lemma KeptMisses(s: State, later: Spec, early: bool)
    requires Starting(s, OvertakingScript(s, early, later), later) && Behind(s)
    requires var id := s.stored.status.resourceID; id in s.remote.resources.live && LeavesThere(s, id, later, early)
    ensures Misses(s, OvertakingScript(s, early, later), later)
  {
    hide Live, Synced, Tame, Follows, Kept, ReconcileReady, Reconcile, SpecRealised, MarkedReady, TargetsLeave, RulesLeave, ApiList, Get,
         EnsureExists, Confined, Lead, Tail, EditedAt, Edits, Update, Finish, Trusted, CallsUntil, CallsAfter, Resolvable;
    var script, vs := OvertakingScript(s, early, later), s.versions;
    var n, tail := CallsUntil(s, early), Tail(later, CallsAfter(s, early, later));
    Starts(s, script, later);
    EditedAtLeads(s, 2 + n, later, CallsAfter(s, early, later));
    var m := Start(s, script);
    KeepsRecorded(m);
    LeadList(m, m.res.spec.name, 1 + n, tail);
    ListKeeps(m, m.res.spec.name);
    ReadConfined(m, m.res.spec.name, vs, later);
    var l := ApiList(m, m.res.spec.name).s;
    Onward(m, l);
    LeadGet(l, n, tail);
    GetKeeps(l);
    ReadConfined(l, "", vs, later);
    var g := Get(l).s;
    Onward(l, g);
    KeptFollows(m, l, Ok);
    KeptFollows(l, g, Ok);
    SameSiteID(m, l);
    SameSiteID(l, g);
    StoredMeans(s, g, early, later);
    SameLeaves(s, g, s.stored.status.resourceID, later);
    InterruptedMisses(g, vs, later, early);
    RereadNeedsUpdate(g);
    assert EnsureExists(m) == Ensured(l, Ok, false);
    assert ReconcileReady(m) == Finish(Update(g).s) by { KeptEnds(m, l); }
  }

  lemma StoredMeans(s: State, t: State, early: bool, later: Spec)
    requires t.stored == s.stored
    ensures CallsUntil(t, early) == CallsUntil(s, early) && CallsAfter(t, early, later) == CallsAfter(s, early, later)
    ensures forall kind :: Trusted(t, kind) == Trusted(s, kind)
    ensures Behind(t) == Behind(s)
  {
    forall kind ensures Trusted(t, kind) == Trusted(s, kind) { if kind == Targets {} }
  }

  lemma KeptEnds(m: State, l: State)
    requires EnsureExists(m) == Ensured(l, Ok, false) && m.res.status.resourceID != 0 && Get(l).r.Ok?
    requires NeedsUpdate(Get(l).s, true, false) && Update(Get(l).s).r.Ok?
    ensures ReconcileReady(m) == Finish(Update(Get(l).s).s)
  {
    hide EnsureExists, Get, Update, Finish, NeedsUpdate, ReportEnsure, ReportUpdate;
    assert ReconcileReady(m) == UpdateAndFinish(Get(l).s, true, false);
  }

  lemma AdoptedMisses(s: State, later: Spec, id: nat, early: bool)
    requires Starting(s, OvertakingScript(s, early, later), later) && s.stored.status.resourceID !in s.remote.resources.live
    requires Adoptable(s, id) && LeavesThere(s, id, later, early)
    ensures Misses(s, OvertakingScript(s, early, later), later)
  {
    hide Live, Synced, Tame, Follows, Kept, ReconcileReady, Reconcile, SpecRealised, MarkedReady, TargetsLeave, RulesLeave, ApiList, Patch,
         EnsureExists, Confined, Lead, Tail, EditedAt, Edits, Update, Finish, Trusted, CallsUntil, CallsAfter, Resolvable;
    var script, vs := OvertakingScript(s, early, later), s.versions;
    var n, tail := CallsUntil(s, early), Tail(later, CallsAfter(s, early, later));
    Starts(s, script, later);
    EditedAtLeads(s, 2 + n, later, CallsAfter(s, early, later));
    var m := Start(s, script);
    Adopts(m, id);
    LeadList(m, m.res.spec.name, 1 + n, tail);
    ListKeeps(m, m.res.spec.name);
    ReadConfined(m, m.res.spec.name, vs, later);
    var l := ApiList(m, m.res.spec.name).s;
    Onward(m, l);
    var after := Adopted(s.stored.status, id);
    AdoptionKeeps(m, l, id);
    LeadPatch(l, after, n, tail);
    PatchesConfined(l, vs, later);
    var p := Patch(l, after).s;
    Onward(l, p);
    KeptFollows(m, l, Ok);
    KeptFollows(l, p, Ok);
    SameSiteID(m, l);
    SameSiteID(l, p);
    AdoptedCalls(s, p, id, early, later);
    SameLeaves(s, p, id, later);
    InterruptedMisses(p, vs, later, early);
    assert EnsureExists(m) == Ensured(p, Ok, true);
    assert ReconcileReady(m) == Finish(Update(p).s) by { AdoptedEnds(m, p); }
  }

  lemma AdoptedCalls(s: State, t: State, id: nat, early: bool, later: Spec)
    requires Live(s) && s.stored.status.resourceID !in s.remote.resources.live
    requires t.stored == s.stored.(status := Adopted(s.stored.status, id))
    ensures CallsUntil(t, early) == CallsUntil(s, early) && CallsAfter(t, early, later) == CallsAfter(s, early, later)
    ensures forall kind :: !Trusted(t, kind) && !Trusted(s, kind)
  {
    NothingTrusted(s);
    forall kind ensures !Trusted(t, kind) { if kind == Targets {} }
    hide Live;
  }

  lemma AdoptedEnds(m: State, p: State)
    requires EnsureExists(m) == Ensured(p, Ok, true) && Update(p).r.Ok?
    ensures ReconcileReady(m) == Finish(Update(p).s)
  {
    var hadID := m.res.status.resourceID != 0;
    AdoptedNeedsUpdate(p, hadID);
    assert ReconcileReady(m) == UpdateAndFinish(p, hadID, true);
    hide EnsureExists, Get, Update, Finish, NeedsUpdate, ReportEnsure, ReportUpdate;
  }

  // ---- When exactly an edit can be missed ----

  /** The activation will bring a resource up to date that it keeps or adopts, with something to record
      for the current version, and what that version asks for up to then does not cover the later one;
      or it will create a resource, none having been recorded, and what it makes for the current version
      does not cover the later one. */
  ghost predicate Missable(s: State, later: Spec) {
    var rid := s.stored.status.resourceID;
    if rid in s.remote.resources.live then Behind(s) && Leaves(s, rid, later)
    else if exists id :: Adoptable(s, id) then exists id :: Adoptable(s, id) && Leaves(s, id, later)
    else rid == 0 && !Covered(s.remote.defaults, s.stored.spec, later)
  }

  lemma NothingAdoptable(s: State)
    requires Live(s) && s.stored.status.resourceID !in s.remote.resources.live && !(exists id :: Adoptable(s, id))
    ensures Vacant(s)
  {
    NothingTrusted(s);
    forall id | id in s.remote.resources.live ensures !Matching(s.remote.resources.live[id], s.stored.spec) { assert !Adoptable(s, id); }
    hide Live;
  }

  lemma MissableIsMissed(s: State, later: Spec) returns (script: seq<Event>)
    requires Live(s) && Eligible(s) && SameIdentity(later, s.stored.spec) && later != s.stored.spec && Missable(s, later)
    ensures Misses(s, script, later)
  {
    hide Live, Eligible, Misses, Covered, TargetsLeave, RulesLeave, Edits, SameIdentity, Matching;
    var rid := s.stored.status.resourceID;
    if rid in s.remote.resources.live {
      script := LeavingScript(s, rid, later);
    } else if exists id :: Adoptable(s, id) {
      var id :| id in s.remote.resources.live && Adoptable(s, id) && Leaves(s, id, later);
      script := LeavingScript(s, id, later);
    } else {
      NothingAdoptable(s);
      script := LateScript(s.stored.spec, later);
      NewMisses(s, later);
    }
  }

  lemma LeavingScript(s: State, id: nat, later: Spec) returns (script: seq<Event>)
    requires Live(s) && Eligible(s) && SameIdentity(later, s.stored.spec) && later != s.stored.spec
    requires id in s.remote.resources.live && Leaves(s, id, later)
    requires if id == s.stored.status.resourceID then Behind(s)
      else s.stored.status.resourceID !in s.remote.resources.live && Adoptable(s, id)
    ensures Misses(s, script, later)
  {
    hide Live, Eligible, Misses, TargetsLeave, RulesLeave, Edits, Adoptable, SameIdentity, Behind, EditedAt;
    var early := TargetsLeave(s, id, later);
    script := OvertakingScript(s, early, later);
    EditedAtLeads(s, 2 + CallsUntil(s, early), later, CallsAfter(s, early, later));
    if id == s.stored.status.resourceID { KeptMisses(s, later, early); } else { AdoptedMisses(s, later, id, early); }
  }

  lemma NewMisses(s: State, later: Spec)
    requires NewObject(s) && SameIdentity(later, s.stored.spec) && later != s.stored.spec
    requires !Covered(s.remote.defaults, s.stored.spec, later)
    ensures Misses(s, LateScript(s.stored.spec, later), later)
  {
    hide NewObject, Covered, Edits, SpecRealised, Reconcile, EditedAt;
    EditedAtLeads(s, CallsBefore(s.stored.spec), later, 1);
    LateEdit(s, later);
  }

  lemma OthersAreSeen(s: State, script: seq<Event>, later: Spec)
    requires Starting(s, script, later) && Misses(s, script, later)
    ensures Missable(s, later)
  {
    hide Live, Eligible, Covered, Leaves, Edits, Reconcile, SpecRealised;
    var rid := s.stored.status.resourceID;
    if rid in s.remote.resources.live {
      if Behind(s) ==> !Leaves(s, rid, later) { KeptRealises(s, script, later); }
    } else if exists id :: Adoptable(s, id) {
      var id :| Adoptable(s, id);
      if !Leaves(s, id, later) { AdoptedRealises(s, script, later, id); }
    } else {
      NothingAdoptable(s);
      if rid != 0 {
        RecreatedRealises(s, script, later);
      } else if Covered(s.remote.defaults, s.stored.spec, later) {
        CoveredIsRealised(s, script, later);
      }
    }
  }

  /** Why ReadyIsHonest excludes edits that ask for something new, and no others: in every state in which
      nothing keeps the reconciler from its work, and for every edit that keeps the identity, some
      activation in which others do nothing but that edit ends with the object reported ready for the
      edit although it is not realised, exactly if the edit is missable. */
  lemma LateEditIsMissed(s: State, later: Spec)
    requires Live(s) && Eligible(s) && SameIdentity(later, s.stored.spec) && later != s.stored.spec
    ensures (exists script :: Misses(s, script, later)) <==> Missable(s, later)
  {
    hide Live, Eligible, Missable, Reconcile, SpecRealised;
    if Missable(s, later) {
      var script := MissableIsMissed(s, later);
    }
    if exists script :: Misses(s, script, later) {
      var script :| Misses(s, script, later);
      OthersAreSeen(s, script, later);
    }
  }

  /** The calls that read or record bring an edit that comes with them, and pass one on that comes next. */
  lemma EditArrives(s: State, name: string, after: Status, vs: seq<Spec>, later: Spec)
    requires Ready0(s) && !s.crashed && Confined(s, vs, later) && later != vs[|vs| - 1]
    ensures forall t :: t in {ApiList(s, name).s, Get(s).s, Patch(s, after).s} && !t.crashed ==>
      s.script != [] && t.script == s.script[1..] && (s.versions != vs || s.script[0].env.EditSpec? ==> t.versions != vs)
  {
    assert !s.stored.Gone();
    if !Halted(s) {
      forall call ensures Advance(s, call).script == s.script[1..] && Advance(s, call).crashed == s.crashed
        && (s.versions != vs || s.script[0].env.EditSpec? ==> Advance(s, call).versions != vs)
      {
        assert s.script[0].env == Calm || s.script[0].env == EditSpec(later);
      }
    }
    hide Advance, Live, Synced, Tame, Edits, MergeStatus, Listing;
  }

  lemma SeenByUpdate(m: State, c: State, hadID: bool, adopted: bool, vs: seq<Spec>, later: Spec)
    requires Underway(c, vs, later) && c.versions != vs && (hadID || adopted)
    requires ReconcileReady(m) == UpdateAndFinish(c, hadID, adopted)
    ensures MarkedReady(ReconcileReady(m).stored) ==> SpecRealised(ReconcileReady(m))
  {
    SeenIsRealised(c, hadID, adopted, vs, later);
    hide UpdateAndFinish, ReconcileReady, Underway, SpecRealised;
  }

  /** In time: an edit that has come by the second call, which re-reads the object or records the
      adoption, is never missed. */
  lemma EarlyEditIsSeen(s: State, script: seq<Event>, later: Spec)
    requires Starting(s, script, later) && |script| >= 2 && (script[0].env.EditSpec? || script[1].env.EditSpec?)
    requires s.stored.status.resourceID in s.remote.resources.live || exists id :: Adoptable(s, id)
    ensures !Misses(s, script, later)
  {
    hide Live, Synced, Tame, Follows, ReconcileReady, Reconcile, SpecRealised, MarkedReady, ApiList, EnsureExists, Confined, Kept, Edits,
         Patch, Get, Matching, Resolvable, ReportEnsure, UpdateAndFinish;
    Starts(s, script, later);
    var m, vs := Start(s, script), s.versions;
    var name := m.res.spec.name;
    EditArrives(m, name, m.res.status, vs, later);
    ListKeeps(m, name);
    ReadConfined(m, name, vs, later);
    var l := ApiList(m, name);
    KeptFollows(m, l.s, l.r);
    TameFollows(m, l.s) by { ReadyTame(m); }
    if l.r.Err? {
      FailureConfined(l.s, l.r.kinds, vs, later);
      OldMark(ReportEnsure(l.s, l.r.kinds), vs, later);
    } else {
      Onward(m, l.s);
    }
    if s.stored.status.resourceID in s.remote.resources.live {
      KeepsRecorded(m);
      if l.r.Ok? { KeptInTime(m, l.s, vs, later); } else { FailedEnds(m, Ensured(l.s, l.r, false)); }
    } else {
      var id :| Adoptable(s, id);
      Adopts(m, id);
      if l.r.Ok? { AdoptedInTime(m, l.s, id, vs, later); } else { FailedEnds(m, Ensured(l.s, l.r, false)); }
    }
  }

  lemma FailedEnds(m: State, e: Ensured)
    requires EnsureExists(m) == e && e.r.Err?
    ensures ReconcileReady(m) == ReportEnsure(e.s, e.r.kinds)
  {
    hide EnsureExists, ReportEnsure, Get, UpdateAndFinish;
  }

  /** The edit was there when the object was listed, or comes with the call after that. */
  ghost predicate Arriving(s: State, vs: seq<Spec>, later: Spec) {
    && Ready0(s) && !s.crashed && Confined(s, vs, later) && later != vs[|vs| - 1] && s.stored.status.observedGeneration <= |vs|
    && (s.versions != vs || (s.script != [] && s.script[0].env.EditSpec?))
  }

  lemma KeptInTime(m: State, s: State, vs: seq<Spec>, later: Spec)
    requires Arriving(s, vs, later) && s.stored.status.resourceID in s.remote.resources.live
    requires EnsureExists(m) == Ensured(s, Ok, false) && m.res.status.resourceID != 0
    ensures var t := ReconcileReady(m); !(MarkedReady(t.stored) && t.stored.spec == later && !SpecRealised(t))
  {
    hide Live, Synced, Tame, Follows, SpecRealised, MarkedReady, EnsureExists, Confined, Kept, Get, ReportEnsure, UpdateAndFinish, Patch, ApiList;
    var g := Get(s);
    EditArrives(s, "", s.res.status, vs, later);
    GetKeeps(s);
    ReadConfined(s, "", vs, later);
    if g.r.Ok? {
      Onward(s, g.s);
      SeenByUpdate(m, g.s, true, false, vs, later);
    } else {
      OldMark(g.s, vs, later);
    }
  }

  lemma AdoptedInTime(m: State, s: State, id: nat, vs: seq<Spec>, later: Spec)
    requires Arriving(s, vs, later) && Ready0(m) && Kept(m, s, Ok) && s.remote == m.remote && s.stored.status == m.stored.status
    requires m.stored.status.resourceID !in m.remote.resources.live && Adoptable(m, id)
    requires var p := Patch(s, Adopted(m.stored.status, id)); EnsureExists(m) == Ensured(p.s, p.r, true)
    ensures var t := ReconcileReady(m); !(MarkedReady(t.stored) && t.stored.spec == later && !SpecRealised(t))
  {
    hide Live, Synced, Tame, Follows, SpecRealised, MarkedReady, EnsureExists, Confined, Kept, Get, ReportEnsure, UpdateAndFinish, Patch, ApiList;
    var after := Adopted(m.stored.status, id);
    var p := Patch(s, after);
    EditArrives(s, "", after, vs, later);
    AdoptionKeeps(m, s, id);
    PatchesConfined(s, vs, later);
    KeptFollows(s, p.s, p.r);
    if p.r.Ok? {
      Onward(s, p.s);
      SeenByUpdate(m, p.s, m.res.status.resourceID != 0, true, vs, later);
    } else {
      TameFollows(s, p.s) by { ReadyTame(s); }
      FailedEnds(m, Ensured(p.s, p.r, true));
      FailureConfined(p.s, p.r.kinds, vs, later);
      OldMark(ReportEnsure(p.s, p.r.kinds), vs, later);
    }
  }

  // ---- Edits of a settled object ----

  /** The object was up to date, is edited, and is edited again while the activation is at work: the
      second edit can be missed exactly if the first changed targets or rules and leaves something of it. */
  lemma EditedAgain(s: State, first: Spec, later: Spec)
    requires Settled(s) && Resolvable(s) && SameIdentity(first, s.stored.spec) && SameIdentity(later, first)
    requires first != s.stored.spec && later != first
    ensures var t := ApplyEnv(s, EditSpec(first)); var id := s.stored.status.resourceID;
      && Live(t) && Eligible(t) && t.stored.spec == first && id in t.remote.resources.live
      && (forall kind :: Trusted(t, kind) <==> first.Children(kind) == s.stored.spec.Children(kind))
      && ((exists script :: Misses(t, script, later)) <==> TargetsLeave(t, id, later) || RulesLeave(t, id, later))
  {
    hide Misses, TargetsLeave, RulesLeave, Base, Unique, Honest;
    var t := ApplyEnv(s, EditSpec(first));
    ActKeeps(s, EditSpec(first));
    EngagedWhenCurrent(s);
    EditedState(s, first);
    LateEditIsMissed(t, later);
  }

  lemma EditedState(s: State, first: Spec)
    requires Settled(s) && Resolvable(s) && SameIdentity(first, s.stored.spec) && first != s.stored.spec
    ensures var t := ApplyEnv(s, EditSpec(first)); Eligible(t) && Behind(t) && t.stored.spec == first
    ensures forall kind :: Trusted(ApplyEnv(s, EditSpec(first)), kind) <==> first.Children(kind) == s.stored.spec.Children(kind)
  {
    forall kind ensures Trusted(ApplyEnv(s, EditSpec(first)), kind) <==> first.Children(kind) == s.stored.spec.Children(kind) {
      if kind == Targets {}
    }
    hide Live, Carries;
  }

  /** From every initial state a run with two edits, each of which keeps the identity, leads to an object
      that is reported ready for the second although its targets are those of the first; no call fails. */
  lemma MissedInRuns(s: State, first: Spec, later: Spec) returns (trace: seq<State>, steps: seq<Step>)
    requires Init(s) && s.site == SiteReady && Resolvable(s)
    requires SameIdentity(first, s.stored.spec) && SameIdentity(later, first)
    requires first.targets != s.stored.spec.targets && !Leads(later.targets, first.targets)
    ensures IsRun(trace, steps) && |steps| == 3 && trace[0] == s
    ensures steps[0].Activate? && Smooth(steps[0].script) && steps[1] == Act(EditSpec(first))
    ensures steps[2].Activate? && Edits(steps[2].script, later)
    ensures MarkedReady(trace[3].stored) && trace[3].stored.spec == later && !SpecRealised(trace[3])
  {
    hide Init, Reconcile, Settled, Resolvable, SpecRealised, Smooth, Live, Truthful, ApplyEnv, Eligible, Edits, InForce, RulesLeave;
    InitKeeps(s);
    InitNotDeleting(s);
    var go := Plain(Budget(s));
    Converges(s, go);
    var t := Reconcile(s, go);
    ResolvableAfter(s, go);
    EditedAgain(t, first, later);
    var u := ApplyEnv(t, EditSpec(first));
    var script :| Misses(u, script, later);
    trace, steps := [s, t, u, Reconcile(u, script)], [Activate(go), Act(EditSpec(first)), Activate(script)];
  }
}
