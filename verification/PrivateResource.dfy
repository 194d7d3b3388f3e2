/** The PrivateResource reconciler: the adopt-or-create protocol without children. As in
    PublicResource, the script holds one event for each call, and a script that runs out is a
    process that stops. */
module PrivateResource {
  import opened Shared
  import opened Domains
  import opened Server

  /** `access` stands for the lists of roles, users and clients, which every request carries. */
  datatype Spec = Spec(
    name: string, mode: string, destination: string, fullDomain: string, tcpPorts: string, udpPorts: string,
    disableIcmp: bool, alias: string, access: string, scheme: string, port: nat, ssl: Option<bool>)

  const HTTP_MODE := "http"

  datatype Status = Status(phase: Phase, id: nat, observedGeneration: nat, condition: Condition)

  const NEW_STATUS := Status(NoPhase, 0, 0, NoCondition)

  datatype Object = Object(spec: Spec, generation: nat, finalizer: bool, deleting: bool, status: Status) {
    predicate Gone() {
      deleting && !finalizer
    }
  }

  /** `ours` records who asked for the resource; no request reveals it. */
  datatype Row = Row(
    name: string, mode: string, destination: string, siteID: nat, fullDomain: string, tcpPorts: string, udpPorts: string,
    disableIcmp: bool, alias: string, access: string, scheme: string, port: nat, ssl: Option<bool>, ours: bool)

  datatype Item = Item(id: nat, name: string, mode: string, destination: string, siteID: nat, fullDomain: string)

  datatype Env = Calm | EditSpec(spec: Spec) | RequestDelete | DropRow(id: nat) | AddRow(skip: nat, row: Row)

  datatype Event = Event(env: Env, reply: Reply)

  datatype State = State(
    stored: Object, rows: Store<Row>, domains: seq<Domain>, siteReady: bool, siteID: nat,
    res: Object, script: seq<Event>, crashed: bool)

  function ApplyEnv(s: State, env: Env): State {
    match env
    case Calm => s
    case EditSpec(spec) =>
      if spec == s.stored.spec || s.stored.Gone() then s
      else s.(stored := s.stored.(spec := spec, generation := s.stored.generation + 1))
    case RequestDelete => s.(stored := s.stored.(deleting := true))
    case DropRow(id) => s.(rows := s.rows.Remove(id))
    case AddRow(skip, row) => s.(rows := s.rows.Add(skip, row.(ours := false)))
  }

  predicate Halted(s: State) {
    s.crashed || s.script == []
  }

  function Halt(s: State): State {
    s.(crashed := true)
  }

  function Advance(s: State): State
    requires !Halted(s)
  {
    ApplyEnv(s.(script := s.script[1..]), s.script[0].env)
  }

  // ---- Single calls ----

  datatype Outcome = Outcome(s: State, r: Result)

  function MergeStatus(stored: Status, before: Status, after: Status): Status {
    Status(Merge(stored.phase, before.phase, after.phase), Merge(stored.id, before.id, after.id),
           Merge(stored.observedGeneration, before.observedGeneration, after.observedGeneration),
           Merge(stored.condition, before.condition, after.condition))
  }

  function Patch(s: State, after: Status): Outcome {
    if Halted(s) then Outcome(Halt(s), Err({})) else
    var t := Advance(s);
    var merged := t.stored.(status := MergeStatus(t.stored.status, s.res.status, after));
    match s.script[0].reply
    case Served(_) => Outcome(t.(stored := merged, res := merged), Ok)
    case Refused(_) => Outcome(t.(res := s.res.(status := after)), Err({}))
    case Lost(_, _) => Outcome(t.(stored := merged, res := s.res.(status := after)), Err({}))
  }

  function Get(s: State): Outcome {
    if Halted(s) then Outcome(Halt(s), Err({})) else
    var t := Advance(s);
    if s.script[0].reply.Served? then Outcome(t.(res := t.stored), Ok) else Outcome(t, Err({}))
  }

  function SetFinalizer(s: State, present: bool): Outcome {
    if Halted(s) then Outcome(Halt(s), Err({})) else
    var t := Advance(s);
    var changed := t.stored.(finalizer := present);
    if t.stored != s.res || t.stored.Gone() then Outcome(t, Err({})) else
    match s.script[0].reply
    case Served(_) => Outcome(t.(stored := changed, res := changed), Ok)
    case Refused(_) => Outcome(t, Err({}))
    case Lost(_, _) => Outcome(t.(stored := changed), Err({}))
  }

  /** A call that only reads. */
  function Ask(s: State): Outcome {
    if Halted(s) then Outcome(Halt(s), Err({})) else
    match s.script[0].reply
    case Served(_) => Outcome(Advance(s), Ok)
    case Refused(f) => Outcome(Advance(s), Err({f}))
    case Lost(_, f) => Outcome(Advance(s), Err({f}))
  }

  function ItemOf(id: nat, row: Row): Item {
    Item(id, row.name, row.mode, row.destination, row.siteID, row.fullDomain)
  }

  /** The live rows below n that carry a name, in ID order. */
  function Named(live: map<nat, Row>, name: string, n: nat): (items: seq<Item>)
    ensures forall item :: item in items ==> item.id in live && item == ItemOf(item.id, live[item.id]) && item.name == name
    ensures forall id :: 0 <= id < n && id in live && live[id].name == name ==> ItemOf(id, live[id]) in items
  {
    if n == 0 then [] else
    var before := Named(live, name, n - 1);
    if n - 1 in live && live[n - 1].name == name then before + [ItemOf(n - 1, live[n - 1])] else before
  }

  datatype Listed = Listed(s: State, r: Result, items: seq<Item>)

  function ApiList(s: State, name: string): Listed {
    var a := Ask(s);
    if a.r.Err? then Listed(a.s, a.r, []) else Listed(a.s, Ok, Named(a.s.rows.live, name, a.s.rows.next))
  }

  /** The domain that goes into a request; the other HTTP fields come straight from the spec. */
  datatype Address = NoAddress | Address(domainID: string, subdomain: string)

  function NewRow(s: State, spec: Spec, address: Address): Row {
    var http := address.Address?;
    Row(spec.name, spec.mode, spec.destination, s.siteID, if http then Compose(s.domains, address.domainID, address.subdomain) else "",
        if http then "" else spec.tcpPorts, if http then "" else spec.udpPorts, spec.disableIcmp, spec.alias, spec.access,
        if http then spec.scheme else "", if http then spec.port else 0, if http then spec.ssl else None, true)
  }

  function OrText(v: string, current: string): string {
    if v != "" then v else current
  }

  /** An update leaves out what is empty, false or absent, and then the server keeps its value. */
  function Updated(s: State, row: Row, spec: Spec, address: Address): Row {
    var http := address.Address?;
    row.(name := OrText(spec.name, row.name), mode := OrText(spec.mode, row.mode),
         destination := OrText(spec.destination, row.destination), siteID := if s.siteID != 0 then s.siteID else row.siteID,
         fullDomain := if http then Compose(s.domains, address.domainID, address.subdomain) else row.fullDomain,
         tcpPorts := if http then row.tcpPorts else OrText(spec.tcpPorts, row.tcpPorts),
         udpPorts := if http then row.udpPorts else OrText(spec.udpPorts, row.udpPorts),
         disableIcmp := spec.disableIcmp || row.disableIcmp, alias := OrText(spec.alias, row.alias), access := spec.access,
         scheme := if http then OrText(spec.scheme, row.scheme) else row.scheme,
         port := if http && spec.port != 0 then spec.port else row.port,
         ssl := if http && spec.ssl.Some? then spec.ssl else row.ssl)
  }

  datatype Created = Created(s: State, r: Result, id: nat)

  function ApiCreate(s: State, spec: Spec, address: Address): Created {
    if Halted(s) then Created(Halt(s), Err({}), 0) else
    var t := Advance(s);
    match s.script[0].reply
    case Refused(f) => Created(t, Err({f}), 0)
    case Served(skip) => Created(t.(rows := t.rows.Add(skip, NewRow(t, spec, address))), Ok, t.rows.next + skip)
    case Lost(skip, f) => Created(t.(rows := t.rows.Add(skip, NewRow(t, spec, address))), Err({f}), 0)
  }

  function ApiUpdate(s: State, id: nat, spec: Spec, address: Address): Outcome {
    if Halted(s) then Outcome(Halt(s), Err({})) else
    var t := Advance(s);
    if s.script[0].reply.Refused? then Outcome(t, Err({s.script[0].reply.fault})) else
    if id !in t.rows.live then Outcome(t, Err({NotFound})) else
    var u := t.(rows := t.rows.Put(id, Updated(t, t.rows.live[id], spec, address)));
    if s.script[0].reply.Lost? then Outcome(u, Err({s.script[0].reply.fault})) else Outcome(u, Ok)
  }

  function ApiDelete(s: State, id: nat): Outcome {
    if Halted(s) then Outcome(Halt(s), Err({})) else
    var t := Advance(s);
    if s.script[0].reply.Refused? then Outcome(t, Err({s.script[0].reply.fault})) else
    if id !in t.rows.live then Outcome(t, Err({NotFound})) else
    var u := t.(rows := t.rows.Remove(id));
    if s.script[0].reply.Lost? then Outcome(u, Err({s.script[0].reply.fault})) else Outcome(u, Ok)
  }

  // ---- The reconciler ----

  predicate IsMatch(item: Item, spec: Spec, siteID: nat) {
    && item.name == spec.name && item.mode == spec.mode
    && if spec.mode == HTTP_MODE then spec.fullDomain != "" && item.fullDomain == spec.fullDomain
       else item.destination == spec.destination && item.siteID == siteID
  }

  function FindSiteResource(items: seq<Item>, spec: Spec, siteID: nat): (m: Option<Item>)
    ensures m.Some? ==> m.value in items && IsMatch(m.value, spec, siteID)
    ensures m.None? ==> forall item :: item in items ==> !IsMatch(item, spec, siteID)
  {
    if items == [] then None else if IsMatch(items[0], spec, siteID) then Some(items[0]) else FindSiteResource(items[1..], spec, siteID)
  }

  predicate Lists(items: seq<Item>, id: nat) {
    exists i :: 0 <= i < |items| && items[i].id == id
  }

  datatype Addressed = Addressed(s: State, r: Result, address: Address)

  /** HTTP mode needs a domain; the others are sent without. */
  function FindAddress(s: State): Addressed {
    var spec := s.res.spec;
    if spec.mode != HTTP_MODE then Addressed(s, Ok, NoAddress) else
    if spec.fullDomain == "" then Addressed(s, Err({}), NoAddress) else
    var d := Ask(s);
    if d.r.Err? then Addressed(d.s, d.r, NoAddress) else
    match Resolve(d.s.domains, spec.fullDomain)
    case Unresolved => Addressed(d.s, Err({}), NoAddress)
    case Resolved(id, subdomain) => Addressed(d.s, Ok, Address(id, subdomain))
  }

  /** Record a created resource; if that fails, delete it again. */
  function Record(s: State, id: nat): Outcome {
    var p := Patch(s, s.res.status.(id := id, phase := Creating));
    if p.r.Err? then Outcome(ApiDelete(p.s, id).s, p.r) else p
  }

  function Create(s: State): Outcome {
    var p := Patch(s, s.res.status.(phase := Creating));
    if p.r.Err? then p else
    var a := FindAddress(p.s);
    if a.r.Err? then Outcome(a.s, a.r) else
    var c := ApiCreate(a.s, a.s.res.spec, a.address);
    if c.r.Err? then Outcome(c.s, c.r) else Record(c.s, c.id)
  }

  datatype Ensured = Ensured(s: State, r: Result, adopted: bool)

  function EnsureExists(s: State): Ensured {
    var l := ApiList(s, s.res.spec.name);
    if l.r.Err? then Ensured(l.s, l.r, false) else
    if l.s.res.status.id != 0 && Lists(l.items, l.s.res.status.id) then Ensured(l.s, Ok, false) else
    match FindSiteResource(l.items, l.s.res.spec, l.s.siteID)
    case Some(item) =>
      var p := Patch(l.s, l.s.res.status.(id := item.id, phase := Creating));
      Ensured(p.s, p.r, true)
    case None =>
      var c := Create(l.s);
      Ensured(c.s, c.r, false)
  }

  function Update(s: State): Outcome {
    var a := FindAddress(s);
    if a.r.Err? then Outcome(a.s, a.r) else ApiUpdate(a.s, a.s.res.status.id, a.s.res.spec, a.address)
  }

  function Unready(s: State, reason: Reason): Status {
    s.res.status.(condition := Condition(false, reason, s.res.generation))
  }

  function Finish(s: State): State {
    Patch(s, s.res.status.(phase := Ready, observedGeneration := s.res.generation,
                           condition := Condition(true, Reconciled, s.res.generation))).s
  }

  function UpdateAndFinish(s: State, hadID: bool, adopted: bool): State {
    if !(adopted || (hadID && s.res.status.id != 0 && s.res.generation != s.res.status.observedGeneration)) then Finish(s) else
    var u := Update(s);
    if u.r.Ok? then Finish(u.s)
    else if NotFound in u.r.kinds then Patch(u.s, u.s.res.status.(id := 0)).s
    else Patch(u.s, Unready(u.s, Erroneous)).s
  }

  function ReconcileReady(s: State): State {
    var hadID := s.res.status.id != 0;
    var e := EnsureExists(s);
    if e.r.Err? then
      (if BadRequest in e.r.kinds then Patch(e.s, Unready(e.s, PermanentError).(phase := Failed)).s
       else Patch(e.s, Unready(e.s, Erroneous)).s)
    else if hadID && !e.adopted then
      var g := Get(e.s);
      if g.r.Err? then g.s else UpdateAndFinish(g.s, hadID, e.adopted)
    else UpdateAndFinish(e.s, hadID, e.adopted)
  }

  function ReconcileLive(s: State): State {
    if !s.siteReady then Patch(s, Unready(s, Pending)).s else ReconcileReady(s)
  }

  function Cleanup(s: State): State {
    var id := s.res.status.id;
    if id == 0 then SetFinalizer(s, false).s else
    var d := ApiDelete(s, id);
    if d.r.Err? && NotFound !in d.r.kinds then d.s else SetFinalizer(d.s, false).s
  }

  /** One activation of the reconciler under a script. */
  function Reconcile(s0: State, script: seq<Event>): State {
    var s := s0.(res := s0.stored, script := script, crashed := false);
    if s.stored.Gone() then s else
    if s.stored.deleting then Cleanup(s) else
    if s.stored.finalizer then ReconcileLive(s) else
    var f := SetFinalizer(s, true);
    if f.r.Err? then f.s else ReconcileLive(f.s)
  }

  // ---- Runs ----

  datatype Step = Act(env: Env) | SetSite(ready: bool) | Activate(script: seq<Event>)

  function Do(s: State, step: Step): State {
    match step
    case Act(env) => ApplyEnv(s, env)
    case SetSite(ready) => s.(siteReady := ready)
    case Activate(script) => Reconcile(s, script)
  }

  /** A run passes through the states of the trace, one step at a time. */
  ghost predicate IsRun(trace: seq<State>, steps: seq<Step>) {
    |trace| == |steps| + 1 && forall k :: 0 <= k < |steps| ==> trace[k + 1] == Do(trace[k], steps[k])
  }
}
