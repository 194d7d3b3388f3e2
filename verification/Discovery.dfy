/** Auto-discovery: which site a route or service belongs to, and which resources it gets. The event
    path handles one route; the scan path handles, for one site, all the routes it claims. */
module Discovery {
  import opened Shared
  import opened ServicePorts
  import Annotations

  /** Names of Kubernetes objects are never empty. */
  type Name = t: string | t != "" witness "x"

  // ---- Sites and routes ----

  datatype Config = Config(
    prefix: string, httpRoutes: bool, tcpRoutes: bool, services: bool,
    gatewayName: string, gatewayNamespace: string,
    gatewayHostname: string, gatewayPort: nat, gatewayScheme: string, allPorts: bool)
  {
    function Prefix(): string {
      if prefix == "" then "pangolin-operator" else prefix
    }
  }

  datatype Site = Site(name: Name, discover: Option<Config>)

  datatype ParentRef = ParentRef(name: string, namespace: Option<string>)

  datatype BackendRef = BackendRef(name: string, namespace: string, port: Option<nat>)

  datatype OwnerKind = OfHTTPRoute | OfTCPRoute | OfService

  function Tag(kind: OwnerKind): Name {
    match kind case OfHTTPRoute => "httproute" case OfTCPRoute => "tcproute" case OfService => "service"
  }

  datatype Route =
    | HTTPRoute(namespace: Name, name: Name, annotations: map<string, string>, parents: seq<ParentRef>,
                hostnames: seq<string>, backend: Option<BackendRef>)
    | TCPRoute(namespace: Name, name: Name, annotations: map<string, string>, parents: seq<ParentRef>, backend: Option<BackendRef>)
    | Service(namespace: Name, name: Name, annotations: map<string, string>, ports: seq<Port>)
  {
    function Kind(): OwnerKind {
      match this case HTTPRoute(_, _, _, _, _, _) => OfHTTPRoute case TCPRoute(_, _, _, _, _) => OfTCPRoute case Service(_, _, _, _) => OfService
    }

    /** A missing annotation reads as the empty text. */
    function Get(key: string): string {
      if key in annotations then annotations[key] else ""
    }
  }

  predicate Truthy(v: string) {
    v == "true" || v == "1"
  }

  predicate OptsOut(route: Route, prefix: string) {
    prefix + "/enabled" in route.annotations && route.Get(prefix + "/enabled") in {"false", "0"}
  }

  /** Some parent names the gateway, in its namespace if both say one. */
  predicate ParentsMatch(parents: seq<ParentRef>, name: string, namespace: string) {
    exists i :: 0 <= i < |parents| && parents[i].name == name &&
      (namespace == "" || parents[i].namespace.None? || parents[i].namespace.value == namespace)
  }

  predicate ReferencesGateway(cfg: Config, route: Route) {
    !route.Service? && cfg.gatewayName != "" && ParentsMatch(route.parents, cfg.gatewayName, cfg.gatewayNamespace)
  }

  predicate Enabled(cfg: Config, route: Route) {
    match route.Kind() case OfHTTPRoute => cfg.httpRoutes case OfTCPRoute => cfg.tcpRoutes case OfService => cfg.services
  }

  // ---- The event path's choice ----

  predicate Claims(site: Site, route: Route) {
    site.discover.Some? && var cfg := site.discover.value;
    Enabled(cfg, route) && (route.Get(cfg.Prefix() + "/site-ref") == site.name || ReferencesGateway(cfg, route))
  }

  function ResolveSite(sites: seq<Site>, route: Route): (r: Option<Site>)
    ensures r.Some? ==> r.value in sites && Claims(r.value, route)
    ensures r.None? ==> forall site :: site in sites ==> !Claims(site, route)
  {
    if sites == [] then None else if Claims(sites[0], route) then Some(sites[0]) else ResolveSite(sites[1..], route)
  }

  // ---- The scan path's choice ----

  predicate ScanPicks(site: Site, route: Route) {
    site.discover.Some? && var cfg := site.discover.value; var key := cfg.Prefix() + "/site-ref";
    Enabled(cfg, route) && !OptsOut(route, cfg.Prefix()) &&
    if route.Service? then key in route.annotations && route.annotations[key] == site.name
    else route.Get(key) == site.name || (cfg.gatewayName != "" && ParentsMatch(route.parents, cfg.gatewayName, cfg.gatewayNamespace))
  }

  /** A scan picks exactly the routes that the site claims and that are not opted out under its prefix. */
  lemma ScanPicksWhatEventsClaim(site: Site, route: Route)
    ensures ScanPicks(site, route) <==> Claims(site, route) && !OptsOut(route, site.discover.value.Prefix())
  {
    hide ParentsMatch, OptsOut;
  }

  // ---- What a route asks for ----

  datatype Item = Item(name: string, spec: Spec)

  function Named(route: Route, prefix: string, fallback: string): string {
    var v := route.Get(prefix + "/name");
    if v != "" then v else fallback
  }

  function LowerChar(c: char): char {
    if 'A' <= c <= 'Z' then c - 'A' + 'a' else c
  }

  /** The annotation in lower case and without white space around it. */
  function Plain(route: Route, key: string): string {
    var v := Annotations.Trim(route.Get(key));
    seq(|v|, i requires 0 <= i < |v| => LowerChar(v[i]))
  }

  function Scheme(route: Route, prefix: string, fallback: string): string {
    var v := Plain(route, prefix + "/method");
    if v in {"http", "https", "h2c"} then v else fallback
  }

  function InCluster(name: string, namespace: string): string {
    name + "." + namespace + ".svc.cluster.local"
  }

  function BackendHost(b: BackendRef, namespace: string): string {
    InCluster(b.name, if b.namespace != "" then b.namespace else namespace)
  }

  /** Through the gateway if there is one, and to the first backend otherwise. */
  function HTTPTarget(route: Route, cfg: Config): Option<Target>
    requires route.HTTPRoute?
  {
    if cfg.gatewayName != "" then
      if cfg.gatewayHostname == "" && cfg.gatewayNamespace == "" then None
      else Some(Target(if cfg.gatewayHostname == "" then InCluster(cfg.gatewayName, cfg.gatewayNamespace) else cfg.gatewayHostname,
                       if cfg.gatewayPort == 0 then 443 else cfg.gatewayPort,
                       Scheme(route, cfg.Prefix(), if cfg.gatewayScheme == "" then "https" else cfg.gatewayScheme)))
    else if route.backend.None? then None
    else
      var b := route.backend.value;
      Some(Target(BackendHost(b, route.namespace), if b.port.Some? then b.port.value else 80, Scheme(route, cfg.Prefix(), "http")))
  }

  function SiteRef(site: Site, cfg: Config, route: Route): string {
    var v := route.Get(cfg.Prefix() + "/site-ref");
    if v != "" then v else site.name
  }

  /** Dots become dashes, and the whole is cut at the longest name that Kubernetes takes. */
  function HostnameToResourceName(source: string, hostname: string): string {
    var name := source + "-" + Slug(hostname);
    if |name| > 253 then name[..253] else name
  }

  function Slug(hostname: string): (t: string)
    ensures |t| == |hostname|
  {
    seq(|hostname|, i requires 0 <= i < |hostname| => Dashed(hostname[i]))
  }

  function Dashed(c: char): char {
    if c == '.' then '-' else c
  }

  /** How much of a hostname fits into the name of its resource. */
  function Room(source: string): nat {
    if |source| + 1 <= 253 then 253 - (|source| + 1) else 0
  }

  function Visible(source: string, hostname: string): nat {
    if |hostname| <= Room(source) then |hostname| else Room(source)
  }

  /** Two hostnames of one route get one name exactly if what fits of them differs only in dots for
      dashes; the rest of a long hostname does not tell it apart. */
  lemma SameResourceName(source: string, a: string, b: string)
    ensures HostnameToResourceName(source, a) == HostnameToResourceName(source, b) <==>
      && Visible(source, a) == Visible(source, b)
      && forall i :: 0 <= i < Visible(source, a) ==> a[i] == b[i] || (a[i] in {'.', '-'} && b[i] in {'.', '-'})
  {
    var x, y := HostnameToResourceName(source, a), HostnameToResourceName(source, b);
    var n := |source| + 1;
    if n <= 253 {
      var k, m := Visible(source, a), Visible(source, b);
      assert x == source + "-" + Slug(a)[..k];
      assert y == source + "-" + Slug(b)[..m];
      if k == m && forall i :: 0 <= i < k ==> Dashed(a[i]) == Dashed(b[i]) {
        assert Slug(a)[..k] == Slug(b)[..m];
      }
      if x == y {
        forall i | 0 <= i < k ensures Dashed(a[i]) == Dashed(b[i]) {
          assert Slug(a)[i] == x[n + i] && Slug(b)[i] == y[n + i];
        }
      }
    } else {
      assert x == source[..253] && y == source[..253];
    }
  }

  /** One item for each hostname whose spec can be built. */
  function HTTPItems(site: Site, cfg: Config, route: Route, hostnames: seq<string>): seq<Item>
    requires route.HTTPRoute?
  {
    if hostnames == [] then [] else
    var target := HTTPTarget(route, cfg);
    (if target.None? then [] else
     [Item(HostnameToResourceName(route.name, hostnames[0]),
           Spec(SiteRef(site, cfg, route), Named(route, cfg.Prefix(), route.name), "http", hostnames[0], 0, target.value))])
    + HTTPItems(site, cfg, route, hostnames[1..])
  }

  function TCPItems(site: Site, cfg: Config, route: Route, proxyPort: Option<nat>): (items: seq<Item>)
    requires route.TCPRoute?
    ensures |items| <= 1
  {
    if route.backend.None? then [] else
    var b := route.backend.value;
    var port := if b.port.Some? then b.port.value else 0;
    [Item(route.name, Spec(SiteRef(site, cfg, route), Named(route, cfg.Prefix(), route.name), "tcp", "",
                           if proxyPort.Some? then proxyPort.value else port, Target(BackendHost(b, route.namespace), port, "")))]
  }

  /** The annotation's number, if it is a port; a plus sign is accepted. */
  function ProxyPort(route: Route, cfg: Config): Option<nat> {
    var v := route.Get(cfg.Prefix() + "/proxy-port");
    var digits := if v != "" && v[0] == '+' then v[1..] else v;
    if digits != "" && (forall c :: c in digits ==> IsDigit(c)) && 1 <= Atoi(digits) <= 65535 then Some(Atoi(digits)) else None
  }

  function FirstPort(ports: seq<Port>, wanted: string): Option<Port> {
    if ports == [] then None
    else if Itoa(ports[0].number) == wanted || ports[0].name == wanted then Some(ports[0])
    else FirstPort(ports[1..], wanted)
  }

  function FirstNamed(ports: seq<Port>, name: string): Option<Port> {
    if ports == [] then None else if ports[0].name == name then Some(ports[0]) else FirstNamed(ports[1..], name)
  }

  /** The port that the annotation names; otherwise the only port, or the one called http. */
  function SelectPort(route: Route, prefix: string): Option<Port>
    requires route.Service?
  {
    if prefix + "/port" in route.annotations then FirstPort(route.ports, Annotations.Trim(route.Get(prefix + "/port")))
    else if |route.ports| == 1 then Some(route.ports[0])
    else FirstNamed(route.ports, "http")
  }

  function SinglePort(cfg: Config, route: Route, siteRef: string, hostname: string): (items: seq<Item>)
    requires route.Service?
    ensures |items| <= 1
  {
    var p := cfg.Prefix();
    var selected := SelectPort(route, p);
    if selected.None? then [] else
    var port := selected.value;
    var name := Named(route, p, route.name + "-" + DisplayPort(port));
    var fullDomain := Annotations.Trim(route.Get(p + "/full-domain"));
    if fullDomain != "" then
      [Item(HostnameToResourceName(route.name, fullDomain),
            Spec(siteRef, name, "http", fullDomain, 0, Target(hostname, port.number, Scheme(route, p, "http"))))]
    else
      var chosen := Plain(route, p + "/protocol");
      var protocol := if chosen in {"tcp", "udp"} then chosen else Mapped(port.protocol);
      [Item(ResourceName(route.namespace, route.name, Itoa(port.number), protocol),
            Spec(siteRef, name, protocol, "", port.number, Target(hostname, port.number, "")))]
  }

  predicate AllPortsWanted(cfg: Config, route: Route) {
    var key := cfg.Prefix() + "/all-ports";
    if key in route.annotations then Truthy(route.annotations[key]) else cfg.allPorts
  }

  /** A service gets a resource for each port, or for one port. */
  function ServiceItems(cfg: Config, route: Route): seq<Item>
    requires route.Service?
  {
    var p := cfg.Prefix();
    var siteRef := route.Get(p + "/site-ref");
    if !cfg.services || siteRef == "" then [] else
    var hostname := InCluster(route.name, route.namespace);
    if route.Get(p + "/full-domain") == "" && AllPortsWanted(cfg, route)
    then AsItems(route, siteRef, hostname, route.ports)
    else SinglePort(cfg, route, siteRef, hostname)
  }

  /** The entries of AllPorts as a list: a later port takes the place of an earlier one of its key. */
  function AsItems(route: Route, siteRef: string, hostname: string, ports: seq<Port>): seq<Item> {
    if ports == [] then [] else
    var n := |ports| - 1;
    var key := KeyOf(route.namespace, route.name, ports[n]);
    Without(AsItems(route, siteRef, hostname, ports[..n]), key) + [Item(key, SpecOf(route.name, siteRef, hostname, ports[n]))]
  }

  function Without(items: seq<Item>, name: string): (rest: seq<Item>)
    ensures forall item :: item in rest <==> item in items && item.name != name
  {
    if items == [] then [] else (if items[0].name == name then [] else [items[0]]) + Without(items[1..], name)
  }

  function Items(site: Site, cfg: Config, route: Route): seq<Item> {
    match route.Kind()
    case OfHTTPRoute => HTTPItems(site, cfg, route, route.hostnames)
    case OfTCPRoute => TCPItems(site, cfg, route, ProxyPort(route, cfg))
    case OfService => ServiceItems(cfg, route)
  }

  // ---- The owned resources ----

  datatype Key = Key(namespace: string, name: string)

  datatype Owned = Owned(labels: map<string, string>, spec: Spec)

  type Store = map<Key, Owned>

  const OWNER_KIND := "pangolin.home-operations.com/owner-kind"
  const OWNER_NAME := "pangolin.home-operations.com/owner-name"
  const SITE := "pangolin.home-operations.com/site"

  datatype Owner = Owner(kind: OwnerKind, name: Name, site: Name)

  function Stamp(labels: map<string, string>, owner: Owner): map<string, string> {
    labels[OWNER_KIND := Tag(owner.kind)][OWNER_NAME := owner.name][SITE := owner.site]
  }

  predicate Stamped(labels: map<string, string>, owner: Owner) {
    && OWNER_KIND in labels && labels[OWNER_KIND] == Tag(owner.kind)
    && OWNER_NAME in labels && labels[OWNER_NAME] == owner.name
    && SITE in labels && labels[SITE] == owner.site
  }

  function Look(store: Store, key: Key): Option<Owned> {
    if key in store then Some(store[key]) else None
  }

  /** What an owner's resource is after it was ensured: a new one, or the old one relabelled. */
  function Ensured(existing: Option<Owned>, owner: Owner, spec: Spec): Owned {
    Owned(Stamp(if existing.Some? then existing.value.labels else map[], owner), spec)
  }

  predicate UpToDate(existing: Option<Owned>, owner: Owner, spec: Spec) {
    existing.Some? && Stamped(existing.value.labels, owner) && existing.value.spec == spec
  }

  /** The store and the number of writes that led to it. */
  datatype Written = Written(store: Store, writes: nat)

  function Ensure(w: Written, key: Key, owner: Owner, spec: Spec): Written {
    var existing := Look(w.store, key);
    if UpToDate(existing, owner, spec) then w else Written(w.store[key := Ensured(existing, owner, spec)], w.writes + 1)
  }

  function EnsureAll(w: Written, namespace: string, owner: Owner, items: seq<Item>): Written
    decreases |items|
  {
    if items == [] then w else
    var n := |items| - 1;
    Ensure(EnsureAll(w, namespace, owner, items[..n]), Key(namespace, items[n].name), owner, items[n].spec)
  }

  predicate OwnedBy(o: Owned, kind: OwnerKind, name: string) {
    OWNER_KIND in o.labels && o.labels[OWNER_KIND] == Tag(kind) && OWNER_NAME in o.labels && o.labels[OWNER_NAME] == name
  }

  /** Deletion goes by the two labels, in all namespaces. */
  function DeleteOwned(store: Store, kind: OwnerKind, name: string): Store {
    map key | key in store && !OwnedBy(store[key], kind, name) :: store[key]
  }

  // ---- Ensuring ----

  /** Ensuring makes the resource what is wanted, and writes exactly if it was not. */
  lemma EnsureSpec(w: Written, key: Key, owner: Owner, spec: Spec)
    ensures var r := Ensure(w, key, owner, spec);
      && r.store == w.store[key := Ensured(Look(w.store, key), owner, spec)]
      && (r.writes == w.writes <==> r.store == w.store)
      && UpToDate(Look(r.store, key), owner, spec)
  {
    var r := Ensure(w, key, owner, spec);
    var after := Ensured(Look(w.store, key), owner, spec);
    StampedIsStamp(after.labels, owner);
    if UpToDate(Look(w.store, key), owner, spec) {
      StampedIsStamp(w.store[key].labels, owner);
      assert w.store[key := w.store[key]] == w.store;
    } else {
      assert r.store[key] == after;
    }
  }

  lemma StampedIsStamp(labels: map<string, string>, owner: Owner)
    ensures Stamped(labels, owner) ==> Stamp(labels, owner) == labels
    ensures Stamped(Stamp(labels, owner), owner)
  {
    assert OWNER_KIND[35] != OWNER_NAME[35];
    assert |SITE| != |OWNER_KIND|;
  }
}
