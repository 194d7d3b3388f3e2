/** The PublicResource reconciler as a function of the cluster, the server and a script.

    The script holds one event for each call the process makes, in order. An event says what the
    environment does just before the call and how the call is answered. A script that runs out is a
    process that stops: from then on nothing it does has an effect. Cutting a script after n events
    therefore gives the state in which the process is killed after n calls, so a statement about
    all scripts is a statement about every intermediate state. */
module PublicResource {
  import opened Shared
  import opened Domains
  import opened Server

  // ---- The Kubernetes object ----

  datatype Protocol = HTTP | TCP | UDP

  datatype Auth = NoAuth | Auth(sso: bool, autoLoginIdp: nat, whitelist: seq<string>)

  datatype Spec = Spec(
    name: string, protocol: Protocol, fullDomain: string, proxyPort: nat,
    enabled: bool, ssl: bool, hostHeader: string, tlsServerName: string, auth: Auth,
    targets: seq<TargetSpec>, rules: seq<RuleSpec>)
  {
    function Children(kind: Kind): seq<ChildSpec> {
      if kind == Targets then targets else rules
    }
  }

  /** The hash of a list of child specs: injective, and never the empty hash. */
  datatype Hash = NoHash | HashOf(specs: seq<ChildSpec>)

  datatype Tracked = Tracked(ids: seq<nat>, hash: Hash)

  datatype Status = Status(
    phase: Phase, resourceID: nat, targets: Tracked, rules: Tracked,
    observedGeneration: nat, condition: Condition)
  {
    function Kept(kind: Kind): Tracked {
      if kind == Targets then targets else rules
    }

    function WithKept(kind: Kind, kept: Tracked): Status {
      if kind == Targets then this.(targets := kept) else this.(rules := kept)
    }
  }

  const NEW_STATUS := Status(NoPhase, 0, Tracked([], NoHash), Tracked([], NoHash), 0, NoCondition)

  datatype Object = Object(spec: Spec, generation: nat, finalizer: bool, deleting: bool, status: Status) {
    /** Kubernetes removes an object that is being deleted once no finalizer holds it. */
    predicate Gone() {
      deleting && !finalizer
    }
  }

  // ---- The environment ----

  datatype Env = Calm | EditSpec(spec: Spec) | DropResource(id: nat) | RequestDelete

  /** `pick` chooses which of the parallel calls the server sees next. */
  datatype Event = Event(env: Env, pick: nat, reply: Reply)

  /** The log names the ID that the server hands out for a child; the process learns it only when it
      is answered. */
  datatype Call =
    | GetObject | PatchStatus | AddFinalizer | RemoveFinalizer
    | ListResources | ListDomains | CreateResource | UpdateResource(id: nat) | DeleteResource(id: nat)
    | CreateChild(kind: Kind, resource: nat, id: nat) | DeleteChild(kind: Kind, id: nat)

  datatype Entry = Entry(call: Call, reply: Reply)

  datatype Site = Missing | NotReady | SiteReady

  /** stored, remote, versions: what outlives the process; versions lists every spec ever stored.
      res: the process's own copy of the object. */
  datatype State = State(
    stored: Object, versions: seq<Spec>, remote: Remote, site: Site, siteID: nat,
    res: Object, script: seq<Event>, crashed: bool, log: seq<Entry>)

  function ApplyEnv(s: State, env: Env): State {
    match env
    case Calm => s
    case EditSpec(spec) =>
      // Storing an identical spec does not bump the generation.
      if spec == s.stored.spec || s.stored.Gone() then s
      else s.(stored := s.stored.(spec := spec, generation := s.stored.generation + 1), versions := s.versions + [spec])
    case DropResource(id) => s.(remote := s.remote.(resources := s.remote.resources.Remove(id)))
    case RequestDelete => s.(stored := s.stored.(deleting := true))
  }

  predicate Halted(s: State) {
    s.crashed || s.script == []
  }

  function Halt(s: State): State {
    s.(crashed := true)
  }

  function Advance(s: State, call: Call): State
    requires !Halted(s)
  {
    ApplyEnv(s.(script := s.script[1..], log := s.log + [Entry(call, s.script[0].reply)]), s.script[0].env)
  }

  // ---- Single calls ----

  datatype Outcome = Outcome(s: State, r: Result)

  function MergeKept(stored: Tracked, before: Tracked, after: Tracked): Tracked {
    Tracked(Merge(stored.ids, before.ids, after.ids), Merge(stored.hash, before.hash, after.hash))
  }

  function MergeStatus(stored: Status, before: Status, after: Status): Status {
    Status(Merge(stored.phase, before.phase, after.phase),
           Merge(stored.resourceID, before.resourceID, after.resourceID),
           MergeKept(stored.targets, before.targets, after.targets),
           MergeKept(stored.rules, before.rules, after.rules),
           Merge(stored.observedGeneration, before.observedGeneration, after.observedGeneration),
           Merge(stored.condition, before.condition, after.condition))
  }

  /** The mutation stays in memory even when the patch fails; a served patch refreshes the whole copy. */
  function Patch(s: State, after: Status): Outcome {
    if Halted(s) then Outcome(Halt(s), Err({})) else
    var t := Advance(s, PatchStatus);
    var merged := t.stored.(status := MergeStatus(t.stored.status, s.res.status, after));
    match s.script[0].reply
    case Served(_) => Outcome(t.(stored := merged, res := merged), Ok)
    case Refused(_) => Outcome(t.(res := s.res.(status := after)), Err({}))
    case Lost(_, _) => Outcome(t.(stored := merged, res := s.res.(status := after)), Err({}))
  }

  function Get(s: State): Outcome {
    if Halted(s) then Outcome(Halt(s), Err({})) else
    var t := Advance(s, GetObject);
    if s.script[0].reply.Served? then Outcome(t.(res := t.stored), Ok) else Outcome(t, Err({}))
  }

  /** A full update is refused when the stored object changed since it was read. */
  function SetFinalizer(s: State, present: bool): Outcome {
    if Halted(s) then Outcome(Halt(s), Err({})) else
    var t := Advance(s, if present then AddFinalizer else RemoveFinalizer);
    var changed := t.stored.(finalizer := present);
    if t.stored != s.res || t.stored.Gone() then Outcome(t, Err({})) else
    match s.script[0].reply
    case Served(_) => Outcome(t.(stored := changed, res := changed), Ok)
    case Refused(_) => Outcome(t, Err({}))
    case Lost(_, _) => Outcome(t.(stored := changed), Err({}))
  }

  datatype Listed = Listed(s: State, r: Result, items: seq<ResourceItem>)

  function ApiList(s: State, name: string): Listed {
    if Halted(s) then Listed(Halt(s), Err({}), []) else
    var t := Advance(s, ListResources);
    match s.script[0].reply
    case Served(_) => Listed(t, Ok, Listing(t.remote.resources.live, name, t.remote.resources.next))
    case Refused(f) => Listed(t, Err({f}), [])
    case Lost(_, f) => Listed(t, Err({f}), [])
  }

  function ApiDomains(s: State): Outcome {
    if Halted(s) then Outcome(Halt(s), Err({})) else
    var t := Advance(s, ListDomains);
    match s.script[0].reply
    case Served(_) => Outcome(t, Ok)
    case Refused(f) => Outcome(t, Err({f}))
    case Lost(_, f) => Outcome(t, Err({f}))
  }

  datatype Created = Created(s: State, r: Result, id: nat)

  function ApiCreate(s: State, q: CreateRequest): Created {
    if Halted(s) then Created(Halt(s), Err({}), 0) else
    var t := Advance(s, CreateResource);
    match s.script[0].reply
    case Refused(f) => Created(t, Err({f}), 0)
    case Served(skip) =>
      Created(t.(remote := t.remote.(resources := t.remote.resources.Add(skip, t.remote.NewRow(q)))), Ok,
              t.remote.resources.next + skip)
    case Lost(skip, f) =>
      Created(t.(remote := t.remote.(resources := t.remote.resources.Add(skip, t.remote.NewRow(q)))), Err({f}), 0)
  }

  function ApiUpdate(s: State, id: nat, q: UpdateRequest): Outcome {
    if Halted(s) then Outcome(Halt(s), Err({})) else
    var t := Advance(s, UpdateResource(id));
    if s.script[0].reply.Refused? then Outcome(t, Err({s.script[0].reply.fault})) else
    if id !in t.remote.resources.live then Outcome(t, Err({NotFound})) else
    var u := t.(remote := t.remote.(resources := t.remote.resources.Put(id, Apply(t.remote.resources.live[id], q))));
    if s.script[0].reply.Lost? then Outcome(u, Err({s.script[0].reply.fault})) else Outcome(u, Ok)
  }

  function ApiDelete(s: State, id: nat): Outcome {
    if Halted(s) then Outcome(Halt(s), Err({})) else
    var t := Advance(s, DeleteResource(id));
    if s.script[0].reply.Refused? then Outcome(t, Err({s.script[0].reply.fault})) else
    if id !in t.remote.resources.live then Outcome(t, Err({NotFound})) else
    var u := t.(remote := t.remote.(resources := t.remote.resources.Remove(id)));
    if s.script[0].reply.Lost? then Outcome(u, Err({s.script[0].reply.fault})) else Outcome(u, Ok)
  }

  // ---- Children: targets and rules ----

  /** Rules without a priority get one from their position. */
  function Content(spec: ChildSpec, i: nat): ChildSpec {
    match spec
    case Target(_, _, _) => spec
    case Rule(action, attribute, value, priority) =>
      Rule(Upper(action), Upper(attribute), value, if priority == 0 then (i + 1) * 10 else priority)
  }

  function UpperChar(c: char): char {
    if 'a' <= c <= 'z' then c - 'a' + 'A' else c
  }

  function Upper(t: string): string {
    seq(|t|, i requires 0 <= i < |t| => UpperChar(t[i]))
  }

  function Row(s: State, kind: Kind, resource: nat, spec: ChildSpec, i: nat): Child {
    Child(resource, if kind == Targets then s.siteID else 0, Content(spec, i))
  }

  /** The slots filled so far (0: not created), the error kinds, and whether any call failed. */
  datatype Batch = Batch(s: State, ids: seq<nat>, failed: bool, kinds: set<ErrKind>)

  function Chosen(pending: seq<nat>, pick: nat): nat
    requires pending != []
  {
    if pick < |pending| then pick else 0
  }

  /** The ID of the row that the next request for a child makes, if it makes one. */
  function Handed(s: State, kind: Kind): nat
    requires s.script != []
  {
    if s.script[0].reply.Refused? then 0 else s.remote.Table(kind).next + s.script[0].reply.skip
  }

  /** The server takes one of the parallel requests. */
  function ServeOne(b: Batch, kind: Kind, resource: nat, specs: seq<ChildSpec>, i: nat): (c: Batch)
    requires |b.ids| == |specs| && i < |specs| && !Halted(b.s)
    ensures |c.ids| == |b.ids|
  {
    var reply := b.s.script[0].reply;
    var t := Advance(b.s, CreateChild(kind, resource, Handed(b.s, kind)));
    if reply.Refused? then Batch(t, b.ids, true, b.kinds + {reply.fault}) else
    if resource !in t.remote.resources.live then Batch(t, b.ids, true, b.kinds + {NotFound}) else
    var table := t.remote.Table(kind);
    var u := t.(remote := t.remote.WithTable(kind, table.Add(reply.skip, Row(t, kind, resource, specs[i], i))));
    if reply.Lost? then Batch(u, b.ids, true, b.kinds + {reply.fault})
    else Batch(u, b.ids[i := table.next + reply.skip], b.failed, b.kinds)
  }

  function ServeAll(b: Batch, kind: Kind, resource: nat, specs: seq<ChildSpec>, pending: seq<nat>): (c: Batch)
    requires |b.ids| == |specs| && forall j :: 0 <= j < |pending| ==> pending[j] < |specs|
    ensures |c.ids| == |b.ids|
    decreases |pending|
  {
    if pending == [] then b else
    if Halted(b.s) then Batch(Halt(b.s), b.ids, true, b.kinds) else
    var p := Chosen(pending, b.s.script[0].pick);
    ServeAll(ServeOne(b, kind, resource, specs, pending[p]), kind, resource, specs, pending[..p] + pending[p + 1..])
  }

  function NonZero(ids: seq<nat>): seq<nat> {
    if ids == [] then [] else (if ids[0] != 0 then [ids[0]] else []) + NonZero(ids[1..])
  }

  function Indices(n: nat): (idx: seq<nat>)
    ensures |idx| == n && forall i {:trigger idx[i]} :: 0 <= i < n ==> idx[i] == i
  {
    seq(n, i => i)
  }

  function Zeros(n: nat): (ids: seq<nat>)
    ensures |ids| == n && forall i :: 0 <= i < n ==> ids[i] == 0
  {
    seq(n, _ => 0)
  }

  /** All requests in parallel; on failure the slots that were filled, in order. */
  function CreateChildren(s: State, kind: Kind, resource: nat, specs: seq<ChildSpec>): Batch {
    var b := ServeAll(Batch(s, Zeros(|specs|), false, {}), kind, resource, specs, Indices(|specs|));
    if b.failed then b.(ids := NonZero(b.ids)) else b
  }

  /** Old children are deleted one by one; failures are only logged. */
  function DeleteChildren(s: State, kind: Kind, resource: nat, ids: seq<nat>): State
    decreases |ids|
  {
    if ids == [] then s else DeleteChildren(DeleteOne(s, kind, resource, ids[0]), kind, resource, ids[1..])
  }

  function DeleteOne(s: State, kind: Kind, resource: nat, id: nat): State {
    if Halted(s) then Halt(s) else
    var t := Advance(s, DeleteChild(kind, id));
    var table := t.remote.Table(kind);
    if s.script[0].reply.Refused? || id !in table.live || (kind == Rules && table.live[id].resource != resource) then t
    else t.(remote := t.remote.WithTable(kind, table.Remove(id)))
  }

  // ---- The reconciler ----

  function HTTPRequest(spec: Spec): UpdateRequest {
    UpdateRequest(
      "", spec.enabled, Some(spec.ssl), Some(spec.auth.Auth? && spec.auth.sso), Some(false),
      if spec.auth.Auth? && |spec.auth.whitelist| > 0 then Some(true) else None,
      Some(|spec.rules| > 0),
      if spec.tlsServerName != "" then Some(spec.tlsServerName) else None,
      if spec.hostHeader != "" then Some(spec.hostHeader) else None,
      if spec.auth.Auth? && spec.auth.sso && spec.auth.autoLoginIdp > 0 then Some(spec.auth.autoLoginIdp) else None)
  }

  function BasicRequest(spec: Spec): UpdateRequest {
    UpdateRequest(spec.name, spec.enabled, None, None, None, None, None, None, None, None)
  }

  function PostCreateRequest(spec: Spec): UpdateRequest {
    if spec.protocol == HTTP then HTTPRequest(spec) else BasicRequest(spec)
  }

  function SettingsRequest(spec: Spec): UpdateRequest {
    if spec.protocol == HTTP then HTTPRequest(spec).(name := spec.name) else BasicRequest(spec)
  }

  function ProtocolName(p: Protocol): string {
    match p case HTTP => "tcp" case TCP => "tcp" case UDP => "udp"
  }

  predicate IsMatch(name: string, fullDomain: string, spec: Spec) {
    name == spec.name && (spec.protocol == HTTP && spec.fullDomain != "" ==> fullDomain == spec.fullDomain)
  }

  /** The first listed item that the spec would adopt. */
  function FindResource(items: seq<ResourceItem>, spec: Spec): (m: Option<ResourceItem>)
    ensures m.Some? ==> m.value in items && IsMatch(m.value.name, m.value.fullDomain, spec)
    ensures m.None? ==> forall item :: item in items ==> !IsMatch(item.name, item.fullDomain, spec)
  {
    if items == [] then None
    else if IsMatch(items[0].name, items[0].fullDomain, spec) then Some(items[0])
    else FindResource(items[1..], spec)
  }

  predicate Lists(items: seq<ResourceItem>, id: nat) {
    exists i :: 0 <= i < |items| && items[i].id == id
  }

  datatype DomainChoice = DomainChoice(s: State, r: Result, id: string, subdomain: string)

  function ChooseDomain(s: State): DomainChoice {
    var spec := s.res.spec;
    if spec.protocol != HTTP || spec.fullDomain == "" then DomainChoice(s, Ok, "", "") else
    var d := ApiDomains(s);
    if d.r.Err? then DomainChoice(d.s, d.r, "", "") else
    match Resolve(d.s.remote.domains, spec.fullDomain)
    case Unresolved => DomainChoice(d.s, Err({}), "", "")
    case Resolved(id, subdomain) => DomainChoice(d.s, Ok, id, subdomain)
  }

  function NewRequest(spec: Spec, id: string, subdomain: string): CreateRequest {
    CreateRequest(spec.name, spec.protocol == HTTP, ProtocolName(spec.protocol), spec.proxyPort, id, subdomain)
  }

  /** The patch that records a new resource, with its roll-back. */
  function Persist(s: State, id: nat): Created {
    var q := Patch(s, s.res.status.(resourceID := id, phase := Creating));
    if q.r.Err? then Created(ApiDelete(q.s, id).s, q.r, 0) else Created(q.s, Ok, id)
  }

  function CreateAndPersist(s: State): Created {
    var p := Patch(s, s.res.status.(phase := Creating));
    if p.r.Err? then Created(p.s, p.r, 0) else
    var d := ChooseDomain(p.s);
    if d.r.Err? then Created(d.s, d.r, 0) else
    var c := ApiCreate(d.s, NewRequest(d.s.res.spec, d.id, d.subdomain));
    if c.r.Err? then c else Persist(c.s, c.id)
  }

  /** Both kinds of children of a new resource, and the one patch that records them. */
  function PopulateChildren(s: State, id: nat): Outcome {
    var t := CreateChildren(s, Targets, id, s.res.spec.targets);
    if t.failed then
      Outcome(if |t.ids| > 0 then Patch(t.s, t.s.res.status.(targets := t.s.res.status.targets.(ids := t.ids))).s else t.s,
              Err(t.kinds))
    else
    var r := CreateChildren(t.s, Rules, id, t.s.res.spec.rules);
    var status := r.s.res.status;
    if r.failed then
      Outcome(Patch(r.s, status.(targets := status.targets.(ids := t.ids), rules := status.rules.(ids := r.ids))).s,
              Err(r.kinds))
    else
      Patch(r.s, status.(targets := Tracked(t.ids, HashOf(r.s.res.spec.targets)),
                         rules := Tracked(r.ids, HashOf(r.s.res.spec.rules))))
  }

  /** Settings first, then the children. */
  function Populate(s: State, id: nat): Outcome {
    var g := Get(s);
    if g.r.Err? then g else
    var u := ApiUpdate(g.s, id, PostCreateRequest(g.s.res.spec));
    if u.r.Err? then u else PopulateChildren(u.s, id)
  }

  function Create(s: State): Outcome {
    var c := CreateAndPersist(s);
    if c.r.Err? then Outcome(c.s, c.r) else Populate(c.s, c.id)
  }

  datatype Ensured = Ensured(s: State, r: Result, adopted: bool)

  function Adopted(status: Status, id: nat): Status {
    status.(resourceID := id, phase := Creating, targets := Tracked([], NoHash), rules := Tracked([], NoHash))
  }

  function EnsureExists(s: State): Ensured {
    var l := ApiList(s, s.res.spec.name);
    if l.r.Err? then Ensured(l.s, l.r, false) else
    if l.s.res.status.resourceID != 0 && Lists(l.items, l.s.res.status.resourceID) then Ensured(l.s, Ok, false) else
    match FindResource(l.items, l.s.res.spec)
    case Some(item) =>
      var p := Patch(l.s, Adopted(l.s.res.status, item.id));
      Ensured(p.s, p.r, true)
    case None =>
      var c := Create(l.s);
      Ensured(c.s, c.r, false)
  }

  /** Bring one kind of children up to date: create the new, record them, then delete the old. */
  function Sync(s: State, kind: Kind): Outcome {
    var specs := s.res.spec.Children(kind);
    var kept := s.res.status.Kept(kind);
    var id := s.res.status.resourceID;
    if kept.hash == HashOf(specs) then Outcome(s, Ok) else
    var b := CreateChildren(s, kind, id, specs);
    var status := b.s.res.status;
    if b.failed then
      Outcome(if |b.ids| > 0
              then Patch(b.s, status.WithKept(kind, status.Kept(kind).(ids := status.Kept(kind).ids + b.ids))).s
              else b.s,
              Err(b.kinds))
    else
    var p := Patch(b.s, status.WithKept(kind, Tracked(b.ids, HashOf(specs))));
    if p.r.Err? then p else Outcome(DeleteChildren(p.s, kind, id, kept.ids), Ok)
  }

  function Update(s: State): Outcome {
    var u := ApiUpdate(s, s.res.status.resourceID, SettingsRequest(s.res.spec));
    if u.r.Err? then u else
    var t := Sync(u.s, Targets);
    if t.r.Err? then t else Sync(t.s, Rules)
  }

  function Unready(s: State, reason: Reason): Status {
    s.res.status.(condition := Condition(false, reason, s.res.generation))
  }

  function ReportEnsure(s: State, kinds: set<ErrKind>): State {
    if Conflict in kinds then Patch(s, Unready(s, Pending)).s
    else if BadRequest in kinds then Patch(s, Unready(s, PermanentError).(phase := Failed)).s
    else Patch(s, Unready(s, Erroneous)).s
  }

  function Forgotten(status: Status): Status {
    status.(resourceID := 0, targets := status.targets.(ids := []), rules := status.rules.(ids := []))
  }

  function ReportUpdate(s: State, kinds: set<ErrKind>): State {
    if NotFound in kinds then Patch(s, Forgotten(s.res.status)).s else Patch(s, Unready(s, Erroneous)).s
  }

  function Finish(s: State): State {
    Patch(s, s.res.status.(phase := Ready, observedGeneration := s.res.generation,
                           condition := Condition(true, Reconciled, s.res.generation))).s
  }

  function NeedsUpdate(s: State, hadID: bool, adopted: bool): bool {
    adopted || (hadID && s.res.status.resourceID != 0 && s.res.generation != s.res.status.observedGeneration)
  }

  function UpdateAndFinish(s: State, hadID: bool, adopted: bool): State {
    if !NeedsUpdate(s, hadID, adopted) then Finish(s) else
    var u := Update(s);
    if u.r.Err? then ReportUpdate(u.s, u.r.kinds) else Finish(u.s)
  }

  function ReconcileReady(s: State): State {
    var hadID := s.res.status.resourceID != 0;
    var e := EnsureExists(s);
    if e.r.Err? then ReportEnsure(e.s, e.r.kinds) else
    if hadID && !e.adopted then
      var g := Get(e.s);
      if g.r.Err? then g.s else UpdateAndFinish(g.s, hadID, e.adopted)
    else UpdateAndFinish(e.s, hadID, e.adopted)
  }

  function Cleanup(s: State): State {
    var id := s.res.status.resourceID;
    if id == 0 then SetFinalizer(s, false).s else
    var d := ApiDelete(s, id);
    if d.r.Err? && NotFound !in d.r.kinds then d.s else SetFinalizer(d.s, false).s
  }

  function ReconcileLive(s: State): State {
    if s.site != SiteReady then Patch(s, Unready(s, Pending)).s else ReconcileReady(s)
  }

  /** One activation of the reconciler under a script. */
  function Reconcile(s0: State, script: seq<Event>): State {
    var s := s0.(res := s0.stored, script := script, crashed := false);
    if s.stored.Gone() then s else
    if s.stored.deleting then Cleanup(s) else
    if s.stored.finalizer then ReconcileLive(s) else
    var f := SetFinalizer(s, true);
    if f.r.Err? then f.s else ReconcileLive(f.s)
  }

  // ---- Runs ----

  datatype Step = Act(env: Env) | SetSite(site: Site) | Activate(script: seq<Event>)

  function Do(s: State, step: Step): State {
    match step
    case Act(env) => ApplyEnv(s, env)
    case SetSite(site) => s.(site := site)
    case Activate(script) => Reconcile(s, script)
  }

  /** A run passes through the states of the trace, one step at a time. */
  ghost predicate IsRun(trace: seq<State>, steps: seq<Step>) {
    |trace| == |steps| + 1 && forall k :: 0 <= k < |steps| ==> trace[k + 1] == Do(trace[k], steps[k])
  }
}
