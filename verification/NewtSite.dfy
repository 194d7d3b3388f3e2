/** The NewtSite reconciler as a function of three stores: the object, the sites on the server and
    the Secret with the tunnel's credentials. As in PublicResource, the script holds one event for
    each call, and a script that runs out is a process that stops. */
module NewtSite {
  import opened Shared
  import opened Server

  datatype Credentials = Credentials(newtID: string, secret: string)

  datatype Spec = Spec(name: string, local: bool, managed: bool)

  datatype Status = Status(
    phase: Phase, siteID: nat, secretName: string, observedGeneration: nat, online: bool, condition: Condition)

  const NEW_STATUS := Status(NoPhase, 0, "", 0, false, NoCondition)

  datatype Object = Object(name: string, spec: Spec, generation: nat, finalizer: bool, deleting: bool, status: Status) {
    /** Kubernetes removes an object that is being deleted once no finalizer holds it. */
    predicate Gone() {
      deleting && !finalizer
    }
  }

  function SecretNameFor(name: string): (secretName: string)
    ensures secretName != ""
  {
    name + "-newt-credentials"
  }

  /** A site on the server; local sites have no credentials. `ours` records who asked for it. */
  datatype SiteRow = SiteRow(name: string, credentials: Option<Credentials>, ours: bool)

  datatype SiteItem = SiteItem(id: nat, name: string)

  datatype Env =
    | Calm | EditSpec(spec: Spec) | RequestDelete
    | DropSite(id: nat) | AddSite(skip: nat, name: string, credentials: Option<Credentials>)

  /** `defaults` is what the server would hand out for a new site; `ready` says whether the deployment
      has a ready replica. */
  datatype Event = Event(env: Env, reply: Reply, defaults: Credentials, ready: bool)

  /** stored, sites, secret, deployment: what outlives the process. The deployment is known by the
      name of the Secret it mounts. */
  datatype State = State(
    stored: Object, sites: Store<SiteRow>, secret: Option<Credentials>, deployment: Option<string>,
    res: Object, script: seq<Event>, crashed: bool)

  function ApplyEnv(s: State, env: Env): State {
    match env
    case Calm => s
    case EditSpec(spec) =>
      if spec == s.stored.spec || s.stored.Gone() then s
      else s.(stored := s.stored.(spec := spec, generation := s.stored.generation + 1))
    case RequestDelete => s.(stored := s.stored.(deleting := true))
    case DropSite(id) => s.(sites := s.sites.Remove(id))
    case AddSite(skip, name, credentials) => s.(sites := s.sites.Add(skip, SiteRow(name, credentials, false)))
  }

  predicate Halted(s: State) {
    s.crashed || s.script == []
  }

  function Halt(s: State): State {
    s.(crashed := true)
  }

  function Advance(s: State): State
    requires !Halted(s)
  {
    ApplyEnv(s.(script := s.script[1..]), s.script[0].env)
  }

  // ---- Single calls ----

  datatype Outcome = Outcome(s: State, r: Result)

  function MergeStatus(stored: Status, before: Status, after: Status): Status {
    Status(Merge(stored.phase, before.phase, after.phase),
           Merge(stored.siteID, before.siteID, after.siteID),
           Merge(stored.secretName, before.secretName, after.secretName),
           Merge(stored.observedGeneration, before.observedGeneration, after.observedGeneration),
           Merge(stored.online, before.online, after.online),
           Merge(stored.condition, before.condition, after.condition))
  }

  /** The mutation stays in memory even when the patch fails; a served patch refreshes the whole copy. */
  function Patch(s: State, after: Status): Outcome {
    if Halted(s) then Outcome(Halt(s), Err({})) else
    var t := Advance(s);
    var merged := t.stored.(status := MergeStatus(t.stored.status, s.res.status, after));
    match s.script[0].reply
    case Served(_) => Outcome(t.(stored := merged, res := merged), Ok)
    case Refused(_) => Outcome(t.(res := s.res.(status := after)), Err({}))
    case Lost(_, _) => Outcome(t.(stored := merged, res := s.res.(status := after)), Err({}))
  }

  function Get(s: State): Outcome {
    if Halted(s) then Outcome(Halt(s), Err({})) else
    var t := Advance(s);
    if s.script[0].reply.Served? then Outcome(t.(res := t.stored), Ok) else Outcome(t, Err({}))
  }

  /** A full update is refused when the stored object changed since it was read. */
  function SetFinalizer(s: State, present: bool): Outcome {
    if Halted(s) then Outcome(Halt(s), Err({})) else
    var t := Advance(s);
    var changed := t.stored.(finalizer := present);
    if t.stored != s.res || t.stored.Gone() then Outcome(t, Err({})) else
    match s.script[0].reply
    case Served(_) => Outcome(t.(stored := changed, res := changed), Ok)
    case Refused(_) => Outcome(t, Err({}))
    case Lost(_, _) => Outcome(t.(stored := changed), Err({}))
  }

  /** A call that reads, or whose effect is not part of the model. */
  function Ask(s: State): Outcome {
    if Halted(s) then Outcome(Halt(s), Err({})) else
    match s.script[0].reply
    case Served(_) => Outcome(Advance(s), Ok)
    case Refused(f) => Outcome(Advance(s), Err({f}))
    case Lost(_, f) => Outcome(Advance(s), Err({f}))
  }

  datatype Listed = Listed(s: State, r: Result, items: seq<SiteItem>)

  /** The live sites below n that carry a name, in ID order. */
  function Named(live: map<nat, SiteRow>, name: string, n: nat): (items: seq<SiteItem>)
    ensures forall item :: item in items ==> item.id < n && item.id in live && live[item.id].name == name == item.name
    ensures forall id :: 0 <= id < n && id in live && live[id].name == name ==> SiteItem(id, name) in items
  {
    if n == 0 then [] else
    var before := Named(live, name, n - 1);
    if n - 1 in live && live[n - 1].name == name then before + [SiteItem(n - 1, name)] else before
  }

  function ApiList(s: State, name: string): Listed {
    var a := Ask(s);
    if a.r.Err? then Listed(a.s, a.r, []) else Listed(a.s, Ok, Named(a.s.sites.live, name, a.s.sites.next))
  }

  datatype Created = Created(s: State, r: Result, id: nat)

  function ApiCreate(s: State, name: string, credentials: Option<Credentials>): Created {
    if Halted(s) then Created(Halt(s), Err({}), 0) else
    var t := Advance(s);
    var row := SiteRow(name, credentials, true);
    match s.script[0].reply
    case Refused(f) => Created(t, Err({f}), 0)
    case Served(skip) => Created(t.(sites := t.sites.Add(skip, row)), Ok, t.sites.next + skip)
    case Lost(skip, f) => Created(t.(sites := t.sites.Add(skip, row)), Err({f}), 0)
  }

  function ApiGet(s: State, id: nat): Outcome {
    if Halted(s) then Outcome(Halt(s), Err({})) else
    var t := Advance(s);
    if s.script[0].reply.Served? then Outcome(t, if id in t.sites.live then Ok else Err({NotFound}))
    else Outcome(t, Err({s.script[0].reply.fault}))
  }

  function ApiRename(s: State, id: nat, name: string): Outcome {
    if Halted(s) then Outcome(Halt(s), Err({})) else
    var t := Advance(s);
    if s.script[0].reply.Refused? then Outcome(t, Err({s.script[0].reply.fault})) else
    if id !in t.sites.live then Outcome(t, Err({NotFound})) else
    var u := t.(sites := t.sites.Put(id, t.sites.live[id].(name := name)));
    if s.script[0].reply.Lost? then Outcome(u, Err({s.script[0].reply.fault})) else Outcome(u, Ok)
  }

  function ApiDelete(s: State, id: nat): Outcome {
    if Halted(s) then Outcome(Halt(s), Err({})) else
    var t := Advance(s);
    if s.script[0].reply.Refused? then Outcome(t, Err({s.script[0].reply.fault})) else
    if id !in t.sites.live then Outcome(t, Err({NotFound})) else
    var u := t.(sites := t.sites.Remove(id));
    if s.script[0].reply.Lost? then Outcome(u, Err({s.script[0].reply.fault})) else Outcome(u, Ok)
  }

  /** Create-or-update reads first and then writes; its errors are Kubernetes errors. */
  function WriteSecret(s: State, credentials: Credentials): Outcome {
    var g := Ask(s);
    if g.r.Err? then Outcome(g.s, Err({})) else
    var w := Ask(g.s);
    if Halted(g.s) || g.s.script[0].reply.Refused? then Outcome(w.s, Err({}))
    else Outcome(w.s.(secret := Some(credentials)), if w.r.Ok? then Ok else Err({}))
  }

  function WriteDeployment(s: State, secretName: string): Outcome {
    var g := Ask(s);
    if g.r.Err? then Outcome(g.s, Err({})) else
    var w := Ask(g.s);
    if Halted(g.s) || g.s.script[0].reply.Refused? then Outcome(w.s, Err({}))
    else Outcome(w.s.(deployment := Some(secretName)), if w.r.Ok? then Ok else Err({}))
  }

  // ---- The reconciler ----

  function FindSite(items: seq<SiteItem>, name: string): (m: Option<SiteItem>)
    ensures m.Some? ==> m.value in items && m.value.name == name
    ensures m.None? ==> forall item :: item in items ==> item.name != name
  {
    if items == [] then None else if items[0].name == name then Some(items[0]) else FindSite(items[1..], name)
  }

  /** Record a created site; if that fails, delete it again. */
  function Record(s: State, id: nat, after: Status): Outcome {
    var p := Patch(s, after);
    if p.r.Err? then Outcome(ApiDelete(p.s, id).s, p.r) else p
  }

  function CreateLocal(s: State): Outcome {
    var c := ApiCreate(s, s.res.spec.name, None);
    if c.r.Err? then Outcome(c.s, c.r) else Record(c.s, c.id, c.s.res.status.(siteID := c.id))
  }

  /** The server creates the site, then the Secret is written, then both are recorded. */
  function CreateNewt(s: State): Outcome {
    var d := Ask(s);
    if d.r.Err? then d else
    var credentials := s.script[0].defaults;
    var c := ApiCreate(d.s, d.s.res.spec.name, Some(credentials));
    if c.r.Err? then Outcome(c.s, c.r) else
    var w := WriteSecret(c.s, credentials);
    if w.r.Err? then w else
    Record(w.s, c.id, w.s.res.status.(siteID := c.id, secretName := SecretNameFor(w.s.res.name)))
  }

  function CreateSite(s: State): Outcome {
    var p := Patch(s, s.res.status.(phase := Creating));
    if p.r.Err? then p else if p.s.res.spec.local then CreateLocal(p.s) else CreateNewt(p.s)
  }

  function FindOrCreate(s: State): Outcome {
    var l := ApiList(s, s.res.spec.name);
    if l.r.Err? then Outcome(l.s, l.r) else
    match FindSite(l.items, l.s.res.spec.name)
    case Some(item) => Patch(l.s, l.s.res.status.(siteID := item.id, phase := Creating))
    case None => CreateSite(l.s)
  }

  function UpdateSite(s: State): Outcome {
    var g := ApiGet(s, s.res.status.siteID);
    if g.r.Err? then g else
    if g.s.sites.live[s.res.status.siteID].name == g.s.res.spec.name then g
    else ApiRename(g.s, g.s.res.status.siteID, g.s.res.spec.name)
  }

  function Unready(s: State, reason: Reason): Status {
    s.res.status.(condition := Condition(false, reason, s.res.generation))
  }

  function Forgotten(status: Status): Status {
    status.(siteID := 0, secretName := "")
  }

  function Finished(s: State, online: bool): Status {
    s.res.status.(phase := Ready, observedGeneration := s.res.generation, online := online,
                  condition := Condition(true, Reconciled, s.res.generation))
  }

  function Finish(s: State, online: bool): State {
    Patch(s, Finished(s, online)).s
  }

  datatype Probed = Probed(s: State, online: bool)

  /** Reading the deployment back; when that fails the site is taken to be offline. */
  function Probe(s: State): Probed {
    if Halted(s) then Probed(Halt(s), false) else Probed(Advance(s), s.script[0].reply.Served? && s.script[0].ready)
  }

  function MountedSecret(o: Object): string {
    if o.status.secretName == "" then SecretNameFor(o.name) else o.status.secretName
  }

  /** Service account and deployment of a managed tunnel. */
  function Deploy(s: State): State {
    if s.res.spec.local || !s.res.spec.managed then Finish(s, false) else
    var a := Ask(s);
    if a.r.Err? then Patch(a.s, Unready(a.s, Erroneous)).s else
    var d := WriteDeployment(a.s, MountedSecret(a.s.res));
    if d.r.Err? then Patch(d.s, Unready(d.s, Erroneous)).s else
    var p := Probe(d.s);
    Finish(p.s, p.online)
  }

  function FirstTime(s: State): State {
    var f := FindOrCreate(s);
    if f.r.Err? then
      (if BadRequest in f.r.kinds then Patch(f.s, Unready(f.s, PermanentError).(phase := Failed)).s
       else Patch(f.s, Unready(f.s, Erroneous)).s)
    else
      var g := Get(f.s);
      if g.r.Err? then g.s else Deploy(g.s)
  }

  function Changed(s: State): State {
    var u := UpdateSite(s);
    if u.r.Ok? then Deploy(u.s)
    else if NotFound in u.r.kinds then Patch(u.s, Forgotten(u.s.res.status)).s
    else Patch(u.s, Unready(u.s, Erroneous)).s
  }

  function Steady(s: State): State {
    var g := ApiGet(s, s.res.status.siteID);
    if g.r.Ok? then Deploy(g.s)
    else if NotFound in g.r.kinds then Patch(g.s, Forgotten(g.s.res.status)).s
    else g.s
  }

  function ReconcileLive(s: State): State {
    if s.res.status.siteID == 0 then FirstTime(s)
    else if s.res.generation != s.res.status.observedGeneration then Changed(s)
    else Steady(s)
  }

  function Cleanup(s: State): State {
    var id := s.res.status.siteID;
    if id == 0 then SetFinalizer(s, false).s else
    var d := ApiDelete(s, id);
    if d.r.Err? && NotFound !in d.r.kinds then d.s else SetFinalizer(d.s, false).s
  }

  /** One activation of the reconciler under a script. */
  function Reconcile(s0: State, script: seq<Event>): State {
    var s := s0.(res := s0.stored, script := script, crashed := false);
    if s.stored.Gone() then s else
    if s.stored.deleting then Cleanup(s) else
    if s.stored.finalizer then ReconcileLive(s) else
    var f := SetFinalizer(s, true);
    if f.r.Err? then f.s else ReconcileLive(f.s)
  }

  // ---- Runs ----

  datatype Step = Act(env: Env) | Activate(script: seq<Event>)

  function Do(s: State, step: Step): State {
    match step
    case Act(env) => ApplyEnv(s, env)
    case Activate(script) => Reconcile(s, script)
  }

  /** A run passes through the states of the trace, one step at a time. */
  ghost predicate IsRun(trace: seq<State>, steps: seq<Step>) {
    |trace| == |steps| + 1 && forall k :: 0 <= k < |steps| ==> trace[k + 1] == Do(trace[k], steps[k])
  }
}
