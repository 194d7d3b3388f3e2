/** Runs of the PublicResource reconciler: any number of activations, cut short or not, with edits,
    a changing site and a request for deletion in between. The main safety theorems. */
module PublicRuns {
  import opened Shared
  import opened Server
  import opened PublicResource
  import opened PublicSafety
  import opened PublicChildren
  import opened PublicSteps
  import opened PublicProtocol

  // ---- One activation ----

  /** What an activation of an object that is not being deleted guarantees. */
  ghost predicate Activated(s: State, script: seq<Event>, t: State) {
    && Live(t) && Later(s, t)
    && (Gentle(script, s.stored.spec) && Truthful(s) ==> Truthful(t))
  }

  /** The object's history only grows, keeps its identity, and a recorded target set stays recorded. */
  ghost predicate Later(s: State, t: State) {
    && s.versions <= t.versions && SameIdentity(t.stored.spec, s.stored.spec)
    && t.siteID == s.siteID && t.remote.domains == s.remote.domains
    && (s.stored.status.targets.hash.HashOf? ==> t.stored.status.targets.hash.HashOf?)
    && (s.stored.deleting ==> t.stored.deleting)
    && (s.stored.finalizer ==> t.stored.finalizer)
  }

  lemma SetFinalizerKeeps(s: State)
    requires Live(s) && !s.crashed && s.res == s.stored && Tame(s.script, s.stored.spec)
    ensures var f := SetFinalizer(s, true);
      && Live(f.s) && Later(s, f.s)
      && (Gentle(s.script, s.stored.spec) ==> Gentle(f.s.script, f.s.stored.spec))
      && (Gentle(s.script, s.stored.spec) && Truthful(s) ==> Truthful(f.s))
      && (f.r.Ok? ==> Ready0(f.s) && Fresh(f.s) && Apt(f.s) && !f.s.crashed && (Quiet(s.script) ==> Quiet(f.s.script)))
  {
    hide Advance, Tame, Honest, Matching, Recomposes, SettingsRequest, Apply;
    var f := SetFinalizer(s, true);
    if Halted(s) {
      SameBesidesCarries(s, f.s);
      BackedFollows(s, f.s, s.stored.status);
    } else {
      AdvanceFollows(s, AddFinalizer);
      var t := Advance(s, AddFinalizer);
      BackedFollows(s, t, s.stored.status);
      FinalizerSet(t, f.s);
      StoredIsAVersion(f.s);
    }
  }

  lemma FinalizerSet(s: State, t: State)
    requires Base(s) && Unique(s) && Backed(s, s.stored.status)
    requires t == s.(stored := t.stored, res := t.res) && t.stored == s.stored.(finalizer := s.stored.finalizer || t.stored.finalizer)
    ensures Base(t) && Unique(t) && Backed(t, t.stored.status)
  {
    BackedCarries(s, t, t.stored.status);
  }

  /** The state in which an activation starts working. */
  function Start(s: State, script: seq<Event>): State {
    s.(res := s.stored, script := script, crashed := false)
  }

  lemma StartKeeps(s: State, script: seq<Event>)
    ensures Live(s) ==> Live(Start(s, script))
    ensures Truthful(s) ==> Truthful(Start(s, script))
    ensures Live(s) ==> Synced(Start(s, script)) && Fresh(Start(s, script)) && Apt(Start(s, script))
  {
    if Live(s) {
      BackedCarries(s, Start(s, script), s.stored.status);
    }
  }

  lemma ThroughActivated(s0: State, script: seq<Event>, s: State, t: State)
    requires Later(s0, s) && Through(s, t) && Apt(s)
    requires Gentle(script, s0.stored.spec) ==> Gentle(s.script, s.stored.spec)
    requires Gentle(script, s0.stored.spec) && Truthful(s0) ==> Truthful(s)
    ensures Activated(s0, script, t)
  {
  }

  /** An activation under any tame script, cut short anywhere, keeps all claims backed; and if
      others meanwhile ask for nothing new, the Ready mark stays honest. */
  lemma ActivationKeeps(s: State, script: seq<Event>)
    requires Live(s) && !s.stored.deleting && Tame(script, s.stored.spec)
    ensures Activated(s, script, Reconcile(s, script))
  {
    hide Base, Unique, Backed, Tame, Quiet, Gentle, SetFinalizer, ReconcileLive, Through, Truthful, Synced;
    StartKeeps(s, script);
    var t := Start(s, script);
    if s.stored.finalizer {
      ReconcileLiveThrough(t);
      ThroughActivated(s, script, t, ReconcileLive(t));
    } else {
      SetFinalizerKeeps(t);
      var f := SetFinalizer(t, true);
      if f.r.Ok? {
        ReconcileLiveThrough(f.s);
        ThroughActivated(s, script, f.s, ReconcileLive(f.s));
      }
    }
  }

  // ---- Runs ----

  /** The invariant that survives cleanup as well. */
  ghost predicate TameStep(step: Step, spec: Spec) {
    match step
    case Act(env) => TameEnv(env, spec)
    case SetSite(_) => true
    case Activate(script) => Tame(script, spec)
  }

  ghost predicate TameSteps(steps: seq<Step>, spec: Spec) {
    forall i :: 0 <= i < |steps| ==> TameStep(steps[i], spec)
  }

  lemma ActKeeps(s: State, env: Env)
    requires Base(s) && Unique(s) && TameEnv(env, s.stored.spec)
    ensures var t := ApplyEnv(s, env);
      && Base(t) && Unique(t) && Later(s, t)
      && (Backed(s, s.stored.status) ==> Backed(t, t.stored.status))
      && (Backed(s, s.stored.status) && Truthful(s) ==> Truthful(t))
  {
    hide Base, Unique, Backed, ApplyEnv;
    EnvKeeps(s, env);
    var t := ApplyEnv(s, env);
    if Backed(s, s.stored.status) {
      BackedCarries(s, t, s.stored.status);
      if Truthful(s) {
        EditUncovers(s, t);
      }
    }
  }

  /** An edit leaves the object behind; anything else leaves what was up to date up to date. */
  lemma EditUncovers(s: State, t: State)
    requires Live(s) && Truthful(s) && Base(t) && t.remote == s.remote && t.stored.status == s.stored.status
    requires t.versions == s.versions || t.stored.generation == s.stored.generation + 1
    ensures Truthful(t)
  {
    hide Unique, Honest, Recomposes, SettingsRequest, Apply;
  }

  /** Cleaning up under any tame script only removes. */
  lemma CleanupKeeps(s: State)
    requires Base(s) && Unique(s) && Tame(s.script, s.stored.spec) && s.stored.deleting
    ensures var t := Cleanup(s);
      && Base(t) && Unique(t) && s.versions <= t.versions && SameIdentity(t.stored.spec, s.stored.spec) && t.stored.deleting
  {
    hide Advance, Tame, Matching, Recomposes, ApiDelete, SetFinalizer;
    var id := s.res.status.resourceID;
    if id == 0 {
      RemoveFinalizerKeeps(s);
    } else {
      DeleteKeeps(s, id);
      var d := ApiDelete(s, id);
      if d.r.Ok? || NotFound in d.r.kinds {
        RemoveFinalizerKeeps(d.s);
      }
    }
  }

  lemma DeleteKeeps(s: State, id: nat)
    requires Base(s) && Unique(s) && Tame(s.script, s.stored.spec)
    ensures var d := ApiDelete(s, id);
      && Base(d.s) && Unique(d.s) && Follows(s, d.s) && Tame(d.s.script, d.s.stored.spec)
  {
    hide Advance, Tame, Base, Unique;
    var d := ApiDelete(s, id);
    if Halted(s) {
      SameBesidesCarries(s, d.s);
    } else {
      AdvanceFollows(s, DeleteResource(id));
      var t := Advance(s, DeleteResource(id));
      if t != d.s {
        RowRemoved(t, d.s, id);
        FollowsChain(s, t, d.s);
      }
    }
  }

  lemma RemoveFinalizerKeeps(s: State)
    requires Base(s) && Unique(s) && Tame(s.script, s.stored.spec) && s.stored.deleting
    ensures var f := SetFinalizer(s, false);
      && Base(f.s) && Unique(f.s) && s.versions <= f.s.versions && SameIdentity(f.s.stored.spec, s.stored.spec) && f.s.stored.deleting
  {
    hide Advance, Tame, Matching, Recomposes;
    var f := SetFinalizer(s, false);
    if !Halted(s) {
      AdvanceFollows(s, RemoveFinalizer);
      var t := Advance(s, RemoveFinalizer);
      assert f.s == t || f.s == t.(stored := f.s.stored, res := f.s.res);
    }
  }

  lemma StepKeepsInv(s: State, step: Step)
    requires Inv(s) && TameStep(step, s.stored.spec)
    ensures var t := Do(s, step); Inv(t) && SameIdentity(t.stored.spec, s.stored.spec)
  {
    hide Backed, Tame, Matching, Recomposes, Reconcile, ApplyEnv;
    match step
    case Act(env) =>
      ActKeeps(s, env);
    case SetSite(site) =>
      SameSite(s, site);
    case Activate(script) =>
      if !s.stored.deleting {
        ActivationKeeps(s, script);
      } else {
        DeletingActivation(s, script);
      }
  }

  lemma SameSite(s: State, site: Site)
    ensures var t := s.(site := site);
      (Base(s) ==> Base(t)) && (Unique(s) ==> Unique(t)) && (Backed(s, s.stored.status) ==> Backed(t, t.stored.status))
      && (Truthful(s) ==> Truthful(t))
  {
    if Backed(s, s.stored.status) {
      BackedCarries(s, s.(site := site), s.stored.status);
    }
  }

  lemma DeletingActivation(s: State, script: seq<Event>)
    requires Base(s) && Unique(s) && Tame(script, s.stored.spec) && s.stored.deleting
    ensures var t := Reconcile(s, script);
      Base(t) && Unique(t) && t.stored.deleting && SameIdentity(t.stored.spec, s.stored.spec)
  {
    hide Tame, Cleanup;
    var t := Start(s, script);
    if !s.stored.Gone() {
      CleanupKeeps(t);
    }
  }

  /** Initially nothing is claimed, nothing is ours, and at most one resource matches. */
  ghost predicate Init(s: State) {
    && Base(s) && s.versions == [s.stored.spec] && s.stored.status == NEW_STATUS && !s.stored.deleting
    && (forall id :: id in s.remote.resources.live ==> !s.remote.resources.live[id].ours)
    && (forall a, b :: && a in s.remote.resources.live && b in s.remote.resources.live
                       && Matching(s.remote.resources.live[a], s.stored.spec)
                       && Matching(s.remote.resources.live[b], s.stored.spec)
                       ==> a == b)
  }

  lemma InitKeeps(s: State)
    requires Init(s)
    ensures Live(s) && Truthful(s) && Inv(s)
  {
    UnengagedBacked(s, s.stored.status);
  }

  lemma TameStepSame(step: Step, a: Spec, b: Spec)
    requires SameIdentity(a, b) && TameStep(step, a)
    ensures TameStep(step, b)
  {
    if step.Activate? {
      forall i | 0 <= i < |step.script| ensures TameEnv(step.script[i].env, b) {
        assert TameEnv(step.script[i].env, a);
      }
    }
  }

  lemma {:induction false} RunKeepsInv(trace: seq<State>, steps: seq<Step>, k: nat)
    requires IsRun(trace, steps) && k < |trace| && Inv(trace[0]) && TameSteps(steps, trace[0].stored.spec)
    ensures Inv(trace[k]) && SameIdentity(trace[k].stored.spec, trace[0].stored.spec)
  {
    hide Inv, Do, TameStep;
    if k > 0 {
      RunKeepsInv(trace, steps, k - 1);
      TameStepSame(steps[k - 1], trace[0].stored.spec, trace[k - 1].stored.spec);
      StepKeepsInv(trace[k - 1], steps[k - 1]);
    }
  }

  // ---- At most one ----

  /** In every state of every run, wherever its activations are cut short, at most one live resource
      was created for the object. */
  lemma AtMostOne(trace: seq<State>, steps: seq<Step>, t: State, a: nat, b: nat)
    requires IsRun(trace, steps) && t in trace && Init(trace[0]) && TameSteps(steps, trace[0].stored.spec)
    requires var live := t.remote.resources.live; a in live && b in live && live[a].ours && live[b].ours
    ensures a == b
  {
    hide IsRun, Init, TameSteps, Base, Backed;
    InitKeeps(trace[0]);
    var k :| 0 <= k < |trace| && trace[k] == t;
    RunKeepsInv(trace, steps, k);
  }

  /** A resource the reconciler created is never alive without the finalizer, except behind a deletion. */
  lemma FinalizerFirst(trace: seq<State>, steps: seq<Step>, t: State, id: nat)
    requires IsRun(trace, steps) && t in trace && Init(trace[0]) && TameSteps(steps, trace[0].stored.spec)
    requires id in t.remote.resources.live && t.remote.resources.live[id].ours
    ensures t.stored.finalizer || t.stored.deleting
  {
    hide IsRun, Init, TameSteps, Base, Backed;
    InitKeeps(trace[0]);
    var k :| 0 <= k < |trace| && trace[k] == t;
    RunKeepsInv(trace, steps, k);
  }

  // ---- Until cleanup ----

  /** No activation of the run starts on an object that is being deleted. */
  ghost predicate NoCleanup(trace: seq<State>, steps: seq<Step>)
    requires |trace| == |steps| + 1
  {
    forall k :: 0 <= k < |steps| && steps[k].Activate? ==> !trace[k].stored.deleting
  }

  /** During its activations others may ask for the deletion and edit the object, but for nothing new. */
  ghost predicate GentleSteps(trace: seq<State>, steps: seq<Step>)
    requires |trace| == |steps| + 1
  {
    forall k :: 0 <= k < |steps| && steps[k].Activate? ==> Gentle(steps[k].script, trace[k].stored.spec)
  }

  lemma StepLive(s: State, step: Step)
    requires Live(s) && TameStep(step, s.stored.spec) && (step.Activate? ==> !s.stored.deleting)
    ensures var t := Do(s, step);
      && Live(t) && Later(s, t)
      && ((step.Activate? ==> Gentle(step.script, s.stored.spec)) && Truthful(s) ==> Truthful(t))
  {
    hide Backed, Tame, Matching, Recomposes, Reconcile, ApplyEnv, Truthful;
    match step
    case Act(env) => ActKeeps(s, env);
    case SetSite(site) => SameSite(s, site);
    case Activate(script) => ActivationKeeps(s, script);
  }

  lemma {:induction false} RunLive(trace: seq<State>, steps: seq<Step>, k: nat)
    requires IsRun(trace, steps) && k < |trace| && Live(trace[0]) && TameSteps(steps, trace[0].stored.spec) && NoCleanup(trace, steps)
    ensures Live(trace[k]) && Later(trace[0], trace[k]) && (GentleSteps(trace, steps) && Truthful(trace[0]) ==> Truthful(trace[k]))
    ensures k > 0 ==> Later(trace[k - 1], trace[k])
  {
    hide Live, Do, TameStep, Truthful;
    if k > 0 {
      RunLive(trace, steps, k - 1);
      TameStepSame(steps[k - 1], trace[0].stored.spec, trace[k - 1].stored.spec);
      StepLive(trace[k - 1], steps[k - 1]);
    }
  }

  lemma {:induction false} RunLater(trace: seq<State>, steps: seq<Step>, i: nat, k: nat)
    requires IsRun(trace, steps) && i <= k < |trace| && Live(trace[0]) && TameSteps(steps, trace[0].stored.spec) && NoCleanup(trace, steps)
    ensures Later(trace[i], trace[k])
    decreases k
  {
    hide Live, IsRun, TameSteps, NoCleanup;
    if i < k {
      RunLater(trace, steps, i, k - 1);
      RunLive(trace, steps, k);
    }
  }

  /** Everything the current spec asks for is on the server, under the tracked resource. */
  ghost predicate SpecRealised(s: State) {
    var st, spec := s.stored.status, s.stored.spec;
    && st.resourceID != 0
    && Carries(s, st.resourceID, SettingsRequest(spec))
    && Realised(s, Targets, st.resourceID, spec.targets, st.targets.ids)
    && Realised(s, Rules, st.resourceID, spec.rules, st.rules.ids)
  }

  lemma UpToDateIsRealised(s: State)
    requires Live(s) && UpToDate(s)
    ensures SpecRealised(s)
  {
    assert Honest(s, s.stored.status, Targets) && Honest(s, s.stored.status, Rules);
    RidNonZero(s);
  }

  /** Ready is honest: in every run in which edits during an activation ask for nothing new, a status
      that observes the current generation means that the spec is realised on the server. */
  lemma ReadyIsHonest(trace: seq<State>, steps: seq<Step>, t: State)
    requires IsRun(trace, steps) && t in trace && Init(trace[0]) && TameSteps(steps, trace[0].stored.spec)
    requires NoCleanup(trace, steps) && GentleSteps(trace, steps)
    requires t.stored.status.observedGeneration == t.stored.generation
    ensures SpecRealised(t)
  {
    hide IsRun, Init, TameSteps, NoCleanup, GentleSteps, Live, SpecRealised;
    InitKeeps(trace[0]);
    var k :| 0 <= k < |trace| && trace[k] == t;
    RunLive(trace, steps, k);
    UpToDateIsRealised(t);
  }

  /** What users look at: a Ready condition that is true of the current generation means the same. */
  lemma ReadyConditionIsHonest(trace: seq<State>, steps: seq<Step>, t: State)
    requires IsRun(trace, steps) && t in trace && Init(trace[0]) && TameSteps(steps, trace[0].stored.spec)
    requires NoCleanup(trace, steps) && GentleSteps(trace, steps)
    requires var c := t.stored.status.condition; c.Condition? && c.holds && c.generation == t.stored.generation
    ensures t.stored.status.observedGeneration == t.stored.generation && SpecRealised(t)
  {
    hide IsRun, Init, TameSteps, NoCleanup, GentleSteps, SpecRealised;
    InitKeeps(trace[0]);
    var k :| 0 <= k < |trace| && trace[k] == t;
    RunLive(trace, steps, k);
    BackedVouches(t);
    hide Live;
    ReadyIsHonest(trace, steps, t);
  }

  /** The recorded target set is that of some version of the object, and all of it is live on the
      tracked resource. */
  ghost predicate Serving(s: State) {
    var id, kept := s.stored.status.resourceID, s.stored.status.targets;
    && id in s.remote.resources.live
    && exists v :: 0 <= v < |s.versions| && kept.hash == HashOf(s.versions[v].targets)
                   && Realised(s, Targets, id, s.versions[v].targets, kept.ids)
  }

  /** Every version of the object lists a target. */
  ghost predicate NeverEmpty(s: State) {
    forall v :: 0 <= v < |s.versions| ==> s.versions[v].targets != []
  }

  /** Some target is live on the tracked resource. */
  ghost predicate Reachable(s: State) {
    exists id :: id in s.remote.targets.live && s.remote.targets.live[id].resource == s.stored.status.resourceID
  }

  /** No traffic gap: once a full target set has been recorded, then in every later state of the
      run up to cleanup the set that is recorded, past or present, is live on the resource; so at no
      time is it without a target, unless some version of the object lists none. */
  lemma NoTrafficGap(trace: seq<State>, steps: seq<Step>, i: nat, k: nat)
    requires IsRun(trace, steps) && i <= k < |trace| && Init(trace[0]) && TameSteps(steps, trace[0].stored.spec)
    requires NoCleanup(trace, steps) && trace[i].stored.status.targets.hash.HashOf?
    ensures Serving(trace[k]) && (NeverEmpty(trace[k]) ==> Reachable(trace[k]))
  {
    hide IsRun, Init, TameSteps, NoCleanup, Live;
    InitKeeps(trace[0]);
    RunLive(trace, steps, k);
    RunLater(trace, steps, i, k);
    HashMeansServing(trace[k]);
  }

  lemma HashMeansServing(t: State)
    requires Live(t) && t.stored.status.targets.hash.HashOf?
    ensures Serving(t) && (NeverEmpty(t) ==> Reachable(t))
  {
    hide Base, Unique;
    var kept, id, live := t.stored.status.targets, t.stored.status.resourceID, t.remote.targets.live;
    assert Honest(t, t.stored.status, Targets);
    var v :| 0 <= v < |t.versions| && t.versions[v].Children(Targets) == kept.hash.specs;
    assert Realised(t, Targets, id, t.versions[v].targets, kept.ids);
    if t.versions[v].targets != [] {
      assert kept.ids[0] in live && live[kept.ids[0]].resource == id;
    }
  }
}
