/** The end of a PublicResource: what is gone when the finalizer is gone. */
module PublicCleanup {
  import opened Shared
  import opened Server
  import opened PublicResource
  import opened PublicSafety
  import opened PublicRuns
  import opened PublicConvergence

  /** What others can do to the resources while the process waits: only delete. */
  ghost predicate Thinned(s: State, t: State) {
    forall id :: id in t.remote.resources.live ==> id in s.remote.resources.live && t.remote.resources.live[id] == s.remote.resources.live[id]
  }

  lemma AdvanceThins(s: State, call: Call)
    requires !Halted(s)
    ensures Thinned(s, Advance(s, call)) && Advance(s, call).stored.finalizer == s.stored.finalizer
  {
  }

  /** If an activation takes the finalizer off, under any script, then the recorded resource is gone
      and nothing was created meanwhile. */
  lemma FinalizerOffMeansGone(s: State, script: seq<Event>)
    requires s.remote.resources.Valid() && s.stored.deleting && s.stored.finalizer && !Reconcile(s, script).stored.finalizer
    ensures var t := Reconcile(s, script);
      t.stored.status == s.stored.status && s.stored.status.resourceID !in t.remote.resources.live && Thinned(s, t)
  {
    hide Advance, ReconcileLive;
    var m := s.(res := s.stored, script := script, crashed := false);
    var id := s.stored.status.resourceID;
    var d := if id == 0 then m else ApiDelete(m, id).s;
    if id != 0 { DeleteRemoves(m, id); }
    FinalizerOff(d);
  }

  lemma DeleteRemoves(s: State, id: nat)
    ensures var d := ApiDelete(s, id);
      && Thinned(s, d.s) && d.s.stored.finalizer == s.stored.finalizer && d.s.res == s.res
      && (d.r.Ok? || NotFound in d.r.kinds ==> id !in d.s.remote.resources.live)
  {
    hide ApplyEnv;
    if !Halted(s) { AdvanceThins(s, DeleteResource(id)); }
    AdvanceKeepsCopy(s, DeleteResource(id));
    hide Advance;
  }

  lemma AdvanceKeepsCopy(s: State, call: Call)
    ensures !Halted(s) ==> Advance(s, call).res == s.res
  {
  }

  /** The stored object must be what the process read for the update to go through. */
  lemma FinalizerOff(s: State)
    ensures var f := SetFinalizer(s, false);
      && Thinned(s, f.s)
      && (s.stored.finalizer && !f.s.stored.finalizer ==> f.s.stored.status == s.res.status)
  {
    hide ApplyEnv;
    if !Halted(s) { AdvanceThins(s, RemoveFinalizer); }
    hide Advance;
  }

  /** From every state of every run: an activation that takes the finalizer off finds the object being
      deleted and leaves its recorded resource gone. */
  lemma FinalizerOffInRuns(trace: seq<State>, steps: seq<Step>, s: State, script: seq<Event>)
    requires IsRun(trace, steps) && s in trace && Init(trace[0]) && TameSteps(steps, trace[0].stored.spec)
    requires s.stored.finalizer && Tame(script, s.stored.spec)
    ensures var t := Reconcile(s, script);
      !t.stored.finalizer ==> s.stored.deleting && s.stored.status.resourceID !in t.remote.resources.live
  {
    hide IsRun, Init, TameSteps, Tame, Unique, Backed, Recomposes, Reconcile;
    InitKeeps(trace[0]);
    var k :| 0 <= k < |trace| && trace[k] == s;
    RunKeepsInv(trace, steps, k);
    if !s.stored.deleting {
      ActivationKeeps(s, script);
    } else if !Reconcile(s, script).stored.finalizer {
      FinalizerOffMeansGone(s, script);
    }
  }

  /** The request to delete the recorded row was acknowledged, or found nothing to delete. */
  predicate DeletionDone(s: State, e: Event) {
    e.reply.Served? || (e.reply.Lost? && s.stored.status.resourceID !in ApplyEnv(s, e.env).remote.resources.live)
  }

  lemma DeletionAnswer(s: State, id: nat)
    requires !Halted(s) && id == s.stored.status.resourceID
    ensures var d := ApiDelete(s, id); var e := s.script[0];
      && (DeletionDone(s, e) <==> d.r.Ok? || NotFound in d.r.kinds)
      && d.s.stored == ApplyEnv(s, e.env).stored && d.s.res == s.res && d.s.script == s.script[1..] && d.s.crashed == s.crashed
  {
    OthersAct(s, s.(script := s.script[1..], log := s.log + [Entry(DeleteResource(id), s.script[0].reply)]), s.script[0].env);
    hide ApplyEnv;
  }

  /** What others do does not depend on the process. */
  lemma OthersAct(s: State, t: State, env: Env)
    requires t.stored == s.stored
    ensures ApplyEnv(t, env).stored == ApplyEnv(s, env).stored
    ensures ApplyEnv(t, env).res == t.res && ApplyEnv(t, env).script == t.script && ApplyEnv(t, env).crashed == t.crashed
    ensures t.remote == s.remote ==> ApplyEnv(t, env).remote.resources.live == ApplyEnv(s, env).remote.resources.live
    ensures s.stored.finalizer == ApplyEnv(s, env).stored.finalizer
  {
  }

  lemma FinalizerAnswer(s: State)
    requires s.stored.finalizer
    ensures var f := SetFinalizer(s, false);
      !f.s.stored.finalizer <==> !Halted(s) && !s.script[0].reply.Refused? && ApplyEnv(s, s.script[0].env).stored == s.res
  {
    if !Halted(s) {
      OthersAct(s, s.(script := s.script[1..], log := s.log + [Entry(RemoveFinalizer, s.script[0].reply)]), s.script[0].env);
    }
    hide ApplyEnv;
  }

  /** With a row recorded the finalizer comes off exactly if the deletion is acknowledged or finds the
      row gone, nobody touches the object meanwhile, and the update that takes it off is done. */
  lemma FinalizerComesOff(s: State, script: seq<Event>)
    requires s.stored.deleting && s.stored.finalizer && s.stored.status.resourceID != 0
    ensures !Reconcile(s, script).stored.finalizer <==>
      && 2 <= |script| && DeletionDone(s, script[0]) && !script[1].reply.Refused?
      && ApplyEnv(ApplyEnv(s, script[0].env), script[1].env).stored == s.stored
  {
    hide ReconcileLive, ApplyEnv, ApiDelete, SetFinalizer, DeletionDone;
    var m := s.(res := s.stored, script := script, crashed := false);
    if script == [] {
      HaltedDelete(m, s.stored.status.resourceID);
    } else {
      OthersAct(s, m, script[0].env);
      DeletionAnswer(m, s.stored.status.resourceID);
      SameAnswer(s, m, script[0]);
      var d := ApiDelete(m, s.stored.status.resourceID).s;
      if 2 <= |script| { OthersAct(ApplyEnv(s, script[0].env), d, script[1].env); }
      FinalizerAnswer(d);
    }
  }

  lemma HaltedDelete(s: State, id: nat)
    requires Halted(s)
    ensures ApiDelete(s, id) == Outcome(Halt(s), Err({}))
  {
  }

  lemma SameAnswer(s: State, t: State, e: Event)
    requires t.stored == s.stored && t.remote == s.remote
    ensures DeletionDone(t, e) == DeletionDone(s, e)
  {
    OthersAct(s, t, e.env);
    hide ApplyEnv;
  }

  /** A deletion that fails with anything but a 404 keeps the finalizer, also if it was done and only
      the answer got lost. */
  lemma FailedDeleteKeepsFinalizer(s: State, script: seq<Event>)
    requires s.stored.deleting && s.stored.finalizer && s.stored.status.resourceID != 0
    requires script != [] && !DeletionDone(s, script[0])
    ensures Reconcile(s, script).stored.finalizer
  {
    FinalizerComesOff(s, script);
    hide Reconcile, DeletionDone;
  }

  /** Undisturbed, two calls end it; of all resources exactly the recorded one is removed, so none
      of the reconciler's own stays behind exactly if it had no other. */
  lemma CleanupCompletes(s: State, script: seq<Event>)
    requires s.remote.resources.Valid() && s.stored.deleting && s.stored.finalizer && Smooth(script) && 2 <= |script|
    ensures var t := Reconcile(s, script); var id := s.stored.status.resourceID;
      && t.stored.Gone() && t.remote.resources.live == s.remote.resources.live - {id}
      && ((forall k :: k in t.remote.resources.live ==> !t.remote.resources.live[k].ours) <==>
          (forall k :: k in s.remote.resources.live && s.remote.resources.live[k].ours ==> k == id))
  {
    hide ReconcileLive;
    var m := s.(res := s.stored, script := script, crashed := false);
    var id := s.stored.status.resourceID;
    var d := if id == 0 then m else ApiDelete(m, id).s;
    if id == 0 {
      SmoothCall(m, RemoveFinalizer, 1);
      assert s.remote.resources.live - {id} == s.remote.resources.live;
    } else {
      SmoothCall(m, DeleteResource(id), 1);
      assert id !in s.remote.resources.live ==> s.remote.resources.live - {id} == s.remote.resources.live;
      SmoothCall(d, RemoveFinalizer, 0);
    }
    assert Reconcile(s, script) == SetFinalizer(d, false).s;
    assert d.res == d.stored == s.stored;
    var live, left := s.remote.resources.live, Reconcile(s, script).remote.resources.live;
    assert Reconcile(s, script).stored.Gone();
    assert left == live - {id};
    hide *;
    forall k | k in live && live[k].ours && k != id ensures k in left && left[k].ours {}
  }
}
