/** The remote Pangolin server, as far as the reconcilers can see and change it: numbered rows
    that are created, updated, listed and deleted. Each request is one atomic step. */
module Server {
  import opened Shared
  import opened Domains

  /** A table of rows under server-assigned IDs. IDs are non-zero and never handed out twice. */
  datatype Store<T> = Store(live: map<nat, T>, next: nat) {
    ghost predicate Valid() {
      0 < next && forall id :: id in live ==> 0 < id < next
    }

    function Add(skip: nat, row: T): Store<T> {
      Store(live[next + skip := row], next + skip + 1)
    }

    function Remove(id: nat): Store<T> {
      Store(live - {id}, next)
    }

    function Put(id: nat, row: T): Store<T> {
      Store(live[id := row], next)
    }
  }

  datatype Settings = Settings(
    enabled: bool, ssl: bool, sso: bool, blockAccess: bool, emailWhitelist: bool, applyRules: bool,
    tlsServerName: string, hostHeader: string, skipToIdp: nat)

  /** A resource row. `ours` records who asked for it; no request reveals it. */
  datatype ResourceRow = ResourceRow(
    name: string, http: bool, protocol: string, proxyPort: nat, fullDomain: string,
    settings: Settings, ours: bool)

  /** What a listing shows of a resource. */
  datatype ResourceItem = ResourceItem(id: nat, name: string, fullDomain: string)

  datatype CreateRequest = CreateRequest(
    name: string, http: bool, protocol: string, proxyPort: nat, domainID: string, subdomain: string)

  /** Absent fields leave the server's value alone. */
  datatype UpdateRequest = UpdateRequest(
    name: string, enabled: bool, ssl: Option<bool>, sso: Option<bool>, blockAccess: Option<bool>,
    emailWhitelist: Option<bool>, applyRules: Option<bool>,
    tlsServerName: Option<string>, hostHeader: Option<string>, skipToIdp: Option<nat>)

  function Or<T>(o: Option<T>, current: T): T {
    if o.Some? then o.value else current
  }

  function Apply(row: ResourceRow, q: UpdateRequest): ResourceRow {
    var s := row.settings;
    row.(name := if q.name == "" then row.name else q.name,
         settings := Settings(q.enabled, Or(q.ssl, s.ssl), Or(q.sso, s.sso), Or(q.blockAccess, s.blockAccess),
                              Or(q.emailWhitelist, s.emailWhitelist), Or(q.applyRules, s.applyRules),
                              Or(q.tlsServerName, s.tlsServerName), Or(q.hostHeader, s.hostHeader),
                              Or(q.skipToIdp, s.skipToIdp)))
  }

  /** The two tables of rows that hang off a resource. */
  datatype Kind = Targets | Rules

  datatype ChildSpec =
    | Target(hostname: string, port: nat, extras: string)
    | Rule(action: string, attribute: string, value: string, priority: nat)

  type TargetSpec = c: ChildSpec | c.Target? witness Target("", 1, "")
  type RuleSpec = c: ChildSpec | c.Rule? witness Rule("DROP", "ip", "*", 0)

  /** A child row: the resource it hangs off, the site (targets only) and the requested content. */
  datatype Child = Child(resource: nat, site: nat, content: ChildSpec)

  datatype Remote = Remote(
    resources: Store<ResourceRow>, targets: Store<Child>, rules: Store<Child>,
    domains: seq<Domain>, defaults: Settings)
  {
    ghost predicate Valid() {
      && resources.Valid() && targets.Valid() && rules.Valid()
      && (forall id :: id in targets.live ==> targets.live[id].resource < resources.next)
      && (forall id :: id in rules.live ==> rules.live[id].resource < resources.next)
    }

    function Table(kind: Kind): Store<Child> {
      if kind == Targets then targets else rules
    }

    function WithTable(kind: Kind, table: Store<Child>): Remote {
      if kind == Targets then this.(targets := table) else this.(rules := table)
    }

    function NewRow(q: CreateRequest): ResourceRow {
      ResourceRow(q.name, q.http, q.protocol, q.proxyPort,
                  if q.domainID == "" then "" else Compose(domains, q.domainID, q.subdomain),
                  defaults, true)
    }
  }

  /** The live resources below n that carry a name, in ID order. */
  function Listing(live: map<nat, ResourceRow>, name: string, n: nat): (items: seq<ResourceItem>)
    ensures forall i :: 0 <= i < |items| ==>
      items[i].id < n && items[i].id in live && live[items[i].id].name == name &&
      items[i] == ResourceItem(items[i].id, name, live[items[i].id].fullDomain)
    ensures forall id :: 0 <= id < n && id in live && live[id].name == name ==>
      ResourceItem(id, name, live[id].fullDomain) in items
  {
    if n == 0 then [] else
    var before := Listing(live, name, n - 1);
    if n - 1 in live && live[n - 1].name == name
    then before + [ResourceItem(n - 1, name, live[n - 1].fullDomain)] else before
  }
}
