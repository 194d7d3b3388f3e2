/** What events and scans come to, in terms of the texts of annotations, gateways, ports and labels: whose
    route it is, whether it is opted out, and which resources it gets. */
module DiscoveryMeaning {
  import opened Shared
  import opened ServicePorts
  import opened Discovery
  import opened DiscoveryRuns
  import Annotations

  // ---- Annotations ----

  function PrefixText(cfg: Config): string {
    if cfg.prefix == "" then "pangolin-operator" else cfg.prefix
  }

  /** The annotation of that name, after the prefix, is there with that value. */
  predicate Annotated(route: Route, cfg: Config, name: string, value: string) {
    PrefixText(cfg) + name in route.annotations && route.annotations[PrefixText(cfg) + name] == value
  }

  predicate HasAnnotation(route: Route, cfg: Config, name: string) {
    PrefixText(cfg) + name in route.annotations
  }

  /** The text of the annotation, if there is one that is not empty, and another text otherwise. */
  predicate Chooses(route: Route, cfg: Config, name: string, text: string, otherwise: string) {
    if HasAnnotation(route, cfg, name) && !Annotated(route, cfg, name, "") then Annotated(route, cfg, name, text) else text == otherwise
  }

  lemma KeyText(cfg: Config)
    ensures cfg.Prefix() == PrefixText(cfg)
  {
  }

  /** The route is opted out for a site with this configuration. */
  predicate OptedOut(route: Route, cfg: Config) {
    Annotated(route, cfg, "/enabled", "false") || Annotated(route, cfg, "/enabled", "0")
  }

  /** A parent names the gateway, and is not in another namespace. */
  predicate IsGateway(parent: ParentRef, cfg: Config) {
    parent.name == cfg.gatewayName && (parent.namespace == None || cfg.gatewayNamespace == "" || parent.namespace == Some(cfg.gatewayNamespace))
  }

  function Parents(route: Route): seq<ParentRef> {
    match route case HTTPRoute(_, _, _, parents, _, _) => parents case TCPRoute(_, _, _, parents, _) => parents case Service(_, _, _, _) => []
  }

  /** The site discovers routes of this kind, and the route names it or hangs off its gateway. */
  predicate Wants(site: Site, route: Route) {
    site.discover.Some? && var cfg := site.discover.value;
    && (route.HTTPRoute? ==> cfg.httpRoutes) && (route.TCPRoute? ==> cfg.tcpRoutes) && (route.Service? ==> cfg.services)
    && (Annotated(route, cfg, "/site-ref", site.name) || (cfg.gatewayName != "" && exists parent :: parent in Parents(route) && IsGateway(parent, cfg)))
  }

  lemma OptsOutMeans(route: Route, cfg: Config)
    ensures OptsOut(route, cfg.Prefix()) <==> OptedOut(route, cfg)
  {
    KeyText(cfg);
  }

  lemma ClaimsMeans(site: Site, route: Route)
    ensures Claims(site, route) <==> Wants(site, route)
  {
    if site.discover.Some? {
      var cfg := site.discover.value;
      KeyText(cfg);
      var parents := Parents(route);
      assert ParentsMatch(parents, cfg.gatewayName, cfg.gatewayNamespace) <==> exists parent :: parent in parents && IsGateway(parent, cfg) by {
        if i :| 0 <= i < |parents| && IsGateway(parents[i], cfg) { assert parents[i] in parents; }
      }
    }
  }

  /** A scan picks exactly the routes that the site wants and that are not opted out. */
  lemma ScanMeans(site: Site, route: Route)
    ensures ScanPicks(site, route) <==> Wants(site, route) && !OptedOut(route, site.discover.value)
  {
    ScanPicksWhatEventsClaim(site, route);
    ClaimsMeans(site, route);
    if site.discover.Some? { OptsOutMeans(route, site.discover.value); }
    hide ScanPicks, Claims, Wants, OptsOut, OptedOut;
  }

  // ---- Events ----

  /** The first site that wants the route. */
  predicate IsFirst(sites: seq<Site>, route: Route, i: nat) {
    i < |sites| && Wants(sites[i], route) && forall j :: 0 <= j < i ==> !Wants(sites[j], route)
  }

  lemma {:induction false} ResolvesFirst(sites: seq<Site>, route: Route, i: nat)
    requires IsFirst(sites, route, i)
    ensures ResolveSite(sites, route) == Some(sites[i])
  {
    hide Claims, Wants;
    ClaimsMeans(sites[0], route);
    if i > 0 {
      forall j | 0 <= j < i - 1 ensures !Wants(sites[1..][j], route) { assert sites[1..][j] == sites[j + 1]; }
      ResolvesFirst(sites[1..], route, i - 1);
    }
  }

  function KindText(route: Route): string {
    match route case HTTPRoute(_, _, _, _, _, _) => "httproute" case TCPRoute(_, _, _, _, _) => "tcproute" case Service(_, _, _, _) => "service"
  }

  predicate HasLabel(o: Owned, tag: string, value: string) {
    tag in o.labels && o.labels[tag] == value
  }

  /** The labels say that the resource is the route's; they do not tell namespaces apart. */
  predicate LabelledFor(o: Owned, route: Route) {
    HasLabel(o, "pangolin.home-operations.com/owner-kind", KindText(route)) && HasLabel(o, "pangolin.home-operations.com/owner-name", route.name)
  }

  /** What a successful event for the route makes of the resources. */
  function AfterEvent(sites: seq<Site>, route: Route, store: Store): Store {
    Perform(store, TaskOf(sites, route))
  }

  /** An opted-out route loses all its resources, and no other resource changes. */
  lemma OptOutRemoves(sites: seq<Site>, route: Route, store: Store, i: nat)
    requires IsFirst(sites, route, i) && OptedOut(route, sites[i].discover.value)
    ensures var after := AfterEvent(sites, route, store);
      && (forall key :: key in after ==> !LabelledFor(after[key], route))
      && (forall key :: key in store && !LabelledFor(store[key], route) ==> key in after && after[key] == store[key])
      && (forall key :: key in after ==> key in store)
  {
    ResolvesFirst(sites, route, i);
    OptsOutMeans(route, sites[i].discover.value);
    hide ResolveSite, OptsOut, OptedOut, Wants;
  }

  /** A route that no site wants changes nothing. */
  lemma {:induction false} UnwantedIsIgnored(sites: seq<Site>, route: Route, store: Store)
    requires forall site :: site in sites ==> !Wants(site, route)
    ensures AfterEvent(sites, route, store) == store
  {
    if ResolveSite(sites, route).Some? { ClaimsMeans(ResolveSite(sites, route).value, route); }
    hide Claims, Wants, ResolveSite, OptsOut;
  }

  /** The labels of a resource that was supplied for the route. */
  predicate Supplied(o: Owned, route: Route, site: Site) {
    LabelledFor(o, route) && HasLabel(o, "pangolin.home-operations.com/site", site.name)
  }

  /** Any other route that is wanted loses nothing: what it asks for is there, as its last item of that
      name says, under its labels, and nothing else changes. */
  lemma EventSupplies(sites: seq<Site>, route: Route, store: Store, i: nat, key: Key)
    requires IsFirst(sites, route, i) && !OptedOut(route, sites[i].discover.value)
    ensures var after, items := AfterEvent(sites, route, store), Items(sites[i], sites[i].discover.value, route);
      && (key in store ==> key in after)
      && (if Names(items, route.namespace, key)
          then key in after && Supplied(after[key], route, sites[i]) && after[key].spec == LastSpec(items, key.name)
          else Look(after, key) == Look(store, key))
  {
    var cfg := sites[i].discover.value;
    var owner, items := Owner(route.Kind(), route.name, sites[i].name), Items(sites[i], cfg, route);
    ResolvesFirst(sites, route, i);
    OptsOutMeans(route, cfg);
    EnsureAllAt(Written(store, 0), route.namespace, owner, items, key);
    if Names(items, route.namespace, key) { EnsuredIsSupplied(Look(store, key), route, sites[i], LastSpec(items, key.name)); }
    hide ResolveSite, OptsOut, OptedOut, Wants, Items, EnsureAll, Names, LastSpec, Ensured, Supplied;
  }

  lemma EnsuredIsSupplied(existing: Option<Owned>, route: Route, site: Site, spec: ServicePorts.Spec)
    ensures var o := Ensured(existing, Owner(route.Kind(), route.name, site.name), spec); Supplied(o, route, site) && o.spec == spec
  {
    StampedIsStamp(if existing.Some? then existing.value.labels else map[], Owner(route.Kind(), route.name, site.name));
    hide Stamp;
  }

  // ---- Scans ----

  /** A scan does nothing for a route that the site does not want or that is opted out. */
  lemma {:induction false} ScanSkips(site: Site, first: seq<Route>, route: Route, rest: seq<Route>, kind: OwnerKind)
    requires !(Wants(site, route) && !OptedOut(route, site.discover.value))
    ensures ScanTasks(site, first + [route] + rest, kind) == ScanTasks(site, first + rest, kind)
    decreases |rest|
  {
    hide ScanPicks, Wants, OptedOut, Supplying;
    ScanMeans(site, route);
    var all := first + [route] + rest;
    if rest == [] {
      assert all[..|all| - 1] == first && first + rest == first;
    } else {
      var n := |rest| - 1;
      ScanSkips(site, first, route, rest[..n], kind);
      assert all[..|all| - 1] == first + [route] + rest[..n] && all[|all| - 1] == rest[n];
      assert (first + rest)[..|first + rest| - 1] == first + rest[..n];
    }
  }

  /** So it leaves the resources as if the route were not there. */
  lemma ScanIgnores(sites: seq<Site>, site: Site, first: seq<Route>, route: Route, rest: seq<Route>, store: Store)
    requires !(Wants(site, route) && !OptedOut(route, site.discover.value))
    ensures Outcome(sites, first + [route] + rest, store, [Scan(site)]) == Outcome(sites, first + rest, store, [Scan(site)])
  {
    ScanSkips(site, first, route, rest, OfHTTPRoute);
    ScanSkips(site, first, route, rest, OfTCPRoute);
    ScanSkips(site, first, route, rest, OfService);
    OneOp(sites, first + [route] + rest, Scan(site));
    OneOp(sites, first + rest, Scan(site));
    hide ScanTasks, Wants, OptedOut, AllTasks;
  }

  lemma OneOp(sites: seq<Site>, routes: seq<Route>, op: Op)
    ensures AllTasks(sites, routes, [op]) == OpTasks(sites, routes, op)
  {
    hide OpTasks;
    assert AllTasks(sites, routes, []) == [];
    assert [op][1..] == [] && OpTasks(sites, routes, op) + [] == OpTasks(sites, routes, op);
  }

  // ---- What HTTP routes get ----

  function Small(c: char): char {
    if 'A' <= c <= 'Z' then (c as int + 32) as char else c
  }

  /** The text is that of the annotation without white space around it, in small letters. */
  predicate Normalised(route: Route, cfg: Config, name: string, text: string) {
    HasAnnotation(route, cfg, name)
    && var raw := Annotations.Trim(route.annotations[PrefixText(cfg) + name]);
    |text| == |raw| && forall i :: 0 <= i < |raw| ==> text[i] == Small(raw[i])
  }

  /** The scheme that the annotation says, if it is one, and another otherwise. */
  predicate SchemeIs(route: Route, cfg: Config, scheme: string, otherwise: string) {
    if Normalised(route, cfg, "/method", "http") then scheme == "http"
    else if Normalised(route, cfg, "/method", "https") then scheme == "https"
    else if Normalised(route, cfg, "/method", "h2c") then scheme == "h2c"
    else scheme == otherwise
  }

  /** The name of a service inside the cluster. */
  predicate ClusterHost(host: string, service: string, namespace: string) {
    host == service + "." + namespace + ".svc.cluster.local"
  }

  predicate BackendIs(host: string, backend: BackendRef, namespace: string) {
    ClusterHost(host, backend.name, if backend.namespace == "" then namespace else backend.namespace)
  }

  /** Through the gateway of the site if there is one, and to the route's first backend otherwise. */
  predicate HTTPTargetIs(route: Route, cfg: Config, target: Target)
    requires route.HTTPRoute?
  {
    if cfg.gatewayName != "" then
      && (if cfg.gatewayHostname != "" then target.hostname == cfg.gatewayHostname else ClusterHost(target.hostname, cfg.gatewayName, cfg.gatewayNamespace))
      && target.port == (if cfg.gatewayPort != 0 then cfg.gatewayPort else 443)
      && SchemeIs(route, cfg, target.scheme, if cfg.gatewayScheme != "" then cfg.gatewayScheme else "https")
    else
      route.backend.Some? && var b := route.backend.value;
      && BackendIs(target.hostname, b, route.namespace)
      && target.port == (if b.port.Some? then b.port.value else 80)
      && SchemeIs(route, cfg, target.scheme, "http")
  }

  /** What the resource for a hostname asks for. */
  predicate HTTPSpecIs(route: Route, cfg: Config, site: Site, host: string, spec: ServicePorts.Spec)
    requires route.HTTPRoute?
  {
    && Chooses(route, cfg, "/site-ref", spec.siteRef, site.name) && Chooses(route, cfg, "/name", spec.name, route.name)
    && spec.protocol == "http" && spec.fullDomain == host && spec.proxyPort == 0 && HTTPTargetIs(route, cfg, spec.target)
  }

  lemma ChoosesMeans(route: Route, cfg: Config, name: string, otherwise: string)
    ensures var v := route.Get(cfg.Prefix() + name); Chooses(route, cfg, name, if v != "" then v else otherwise, otherwise)
  {
    KeyText(cfg);
  }

  lemma PlainMeans(route: Route, cfg: Config, name: string, text: string)
    requires text != ""
    ensures Plain(route, cfg.Prefix() + name) == text <==> Normalised(route, cfg, name, text)
  {
    KeyText(cfg);
    var key := PrefixText(cfg) + name;
    forall c: char ensures LowerChar(c) == Small(c) {}
    if key !in route.annotations { EmptyTrim(); }
    hide Annotations.Trim;
  }

  lemma EmptyTrim()
    ensures Annotations.Trim("") == ""
  {
  }

  lemma SchemeMeans(route: Route, cfg: Config, otherwise: string)
    ensures SchemeIs(route, cfg, Scheme(route, cfg.Prefix(), otherwise), otherwise)
  {
    PlainMeans(route, cfg, "/method", "http");
    PlainMeans(route, cfg, "/method", "https");
    PlainMeans(route, cfg, "/method", "h2c");
    hide Plain, Normalised;
  }

  lemma HTTPTargetMeans(route: Route, cfg: Config)
    requires route.HTTPRoute? && HTTPTarget(route, cfg).Some?
    ensures HTTPTargetIs(route, cfg, HTTPTarget(route, cfg).value)
  {
    SchemeMeans(route, cfg, if cfg.gatewayScheme == "" then "https" else cfg.gatewayScheme);
    SchemeMeans(route, cfg, "http");
    hide Scheme, SchemeIs;
  }

  /** The name of the resource for a hostname: both joined by a dash, with dashes for the dots of the
      hostname, and cut after 253 characters. */
  predicate HostResource(name: string, source: string, host: string) {
    var all := |source| + 1 + |host|;
    && |name| == (if all > 253 then 253 else all)
    && forall i :: 0 <= i < |name| ==>
         name[i] == (if i < |source| then source[i] else if i == |source| || host[i - |source| - 1] == '.' then '-' else host[i - |source| - 1])
  }

  lemma HostResourceMeans(source: string, host: string)
    ensures HostResource(HostnameToResourceName(source, host), source, host)
  {
  }

  /** Somewhere for the traffic to go. */
  predicate Routable(route: Route, cfg: Config)
    requires route.HTTPRoute?
  {
    if cfg.gatewayName != "" then cfg.gatewayHostname != "" || cfg.gatewayNamespace != "" else route.backend.Some?
  }

  /** One item for each hostname of an HTTP route, in order, with everything it asks for. */
  lemma HTTPItemsMean(site: Site, cfg: Config, route: Route)
    requires route.HTTPRoute?
    ensures var items, hosts := Items(site, cfg, route), route.hostnames;
      if !Routable(route, cfg) then items == []
      else |items| == |hosts| && forall i :: 0 <= i < |hosts| ==>
             HostResource(items[i].name, route.name, hosts[i]) && HTTPSpecIs(route, cfg, site, hosts[i], items[i].spec)
  {
    HTTPTargetExists(route, cfg);
    HTTPItemsSpec(site, cfg, route, route.hostnames);
    if Routable(route, cfg) {
      HTTPTargetMeans(route, cfg);
      KeyText(cfg);
      KeyText(cfg);
      ChoosesMeans(route, cfg, "/site-ref", site.name);
      ChoosesMeans(route, cfg, "/name", route.name);
      forall i | 0 <= i < |route.hostnames| ensures HostResource(HostnameToResourceName(route.name, route.hostnames[i]), route.name, route.hostnames[i]) {
        HostResourceMeans(route.name, route.hostnames[i]);
      }
    }
    hide HTTPTarget, HTTPTargetIs, HTTPItems, HostnameToResourceName, HostResource, Chooses, Config.Prefix;
  }

  // ---- What TCP routes get ----

  /** The text is a port number, perhaps with a plus sign. */
  predicate PortText(text: string, n: nat) {
    var digits := if text != "" && text[0] == '+' then text[1..] else text;
    digits != "" && (forall c :: c in digits ==> '0' <= c <= '9') && Atoi(digits) == n && 1 <= n <= 65535
  }

  /** One item named as the route, with the first backend as its target; its proxy port is that of the
      backend, or that of the annotation if that is a port. */
  lemma TCPItemsMean(site: Site, cfg: Config, route: Route)
    requires route.TCPRoute?
    ensures var items := Items(site, cfg, route);
      if route.backend.None? then items == []
      else
        var port := if route.backend.value.port.Some? then route.backend.value.port.value else 0;
        && |items| == 1 && items[0].name == route.name && var spec := items[0].spec;
        && Chooses(route, cfg, "/site-ref", spec.siteRef, site.name) && Chooses(route, cfg, "/name", spec.name, route.name)
        && spec.protocol == "tcp" && spec.fullDomain == ""
        && BackendIs(spec.target.hostname, route.backend.value, route.namespace) && spec.target.port == port && spec.target.scheme == ""
        && (forall n :: HasAnnotation(route, cfg, "/proxy-port") && PortText(route.annotations[PrefixText(cfg) + "/proxy-port"], n) ==> spec.proxyPort == n)
        && ((!HasAnnotation(route, cfg, "/proxy-port") || forall n :: !PortText(route.annotations[PrefixText(cfg) + "/proxy-port"], n)) ==>
              spec.proxyPort == port)
  {
    KeyText(cfg);
    ChoosesMeans(route, cfg, "/site-ref", site.name);
    ChoosesMeans(route, cfg, "/name", route.name);
    ProxyPortMeans(route, cfg);
    hide Config.Prefix, Chooses, ProxyPort, PortText;
  }

  lemma ProxyPortMeans(route: Route, cfg: Config)
    ensures var key := PrefixText(cfg) + "/proxy-port";
      match ProxyPort(route, cfg)
      case Some(n) => key in route.annotations && PortText(route.annotations[key], n) && forall m :: PortText(route.annotations[key], m) ==> m == n
      case None => key in route.annotations ==> forall n :: !PortText(route.annotations[key], n)
  {
    KeyText(cfg);
    hide Config.Prefix;
    var text := route.Get(PrefixText(cfg) + "/proxy-port");
    var digits := if text != "" && text[0] == '+' then text[1..] else text;
    assert (forall c :: c in digits ==> IsDigit(c)) <==> (forall c :: c in digits ==> '0' <= c <= '9');
  }

  // ---- What services get ----

  /** The port whose number or name is the text. */
  predicate Designates(text: string, port: Port) {
    text == port.name || text == Itoa(port.number)
  }

  lemma {:induction false} FirstPortMeans(ports: seq<Port>, text: string)
    ensures var r := FirstPort(ports, text);
      && (r.None? ==> forall p :: p in ports ==> !Designates(text, p))
      && (r.Some? ==> exists i :: 0 <= i < |ports| && ports[i] == r.value && Designates(text, ports[i]) && forall j :: 0 <= j < i ==> !Designates(text, ports[j]))
  {
    if ports != [] && !Designates(text, ports[0]) {
      FirstPortMeans(ports[1..], text);
      assert ports == [ports[0]] + ports[1..];
      if FirstPort(ports, text).Some? {
        var i :| 0 <= i < |ports| - 1 && ports[1..][i] == FirstPort(ports[1..], text).value && Designates(text, ports[1..][i])
          && forall j :: 0 <= j < i ==> !Designates(text, ports[1..][j]);
        assert ports[i + 1] == ports[1..][i];
        forall j | 0 <= j < i + 1 ensures !Designates(text, ports[j]) { if j > 0 { assert ports[j] == ports[1..][j - 1]; } }
      }
    }
    hide Itoa;
  }

  lemma {:induction false} FirstNamedMeans(ports: seq<Port>, name: string)
    ensures var r := FirstNamed(ports, name);
      && (r.None? ==> forall p :: p in ports ==> p.name != name)
      && (r.Some? ==> exists i :: 0 <= i < |ports| && ports[i] == r.value && ports[i].name == name && forall j :: 0 <= j < i ==> ports[j].name != name)
  {
    if ports != [] && ports[0].name != name {
      FirstNamedMeans(ports[1..], name);
      assert ports == [ports[0]] + ports[1..];
      if FirstNamed(ports, name).Some? {
        var i :| 0 <= i < |ports| - 1 && ports[1..][i] == FirstNamed(ports[1..], name).value && ports[1..][i].name == name
          && forall j :: 0 <= j < i ==> ports[1..][j].name != name;
        assert ports[i + 1] == ports[1..][i];
        forall j | 0 <= j < i + 1 ensures ports[j].name != name { if j > 0 { assert ports[j] == ports[1..][j - 1]; } }
      }
    }
  }

  /** The port of a service: the first that the annotation designates; without the annotation the only
      one, or the first that is called http. */
  ghost predicate IsSelected(route: Route, cfg: Config, i: nat)
    requires route.Service? && i < |route.ports|
  {
    if HasAnnotation(route, cfg, "/port") then
      var text := Annotations.Trim(route.annotations[PrefixText(cfg) + "/port"]);
      Designates(text, route.ports[i]) && forall j :: 0 <= j < i ==> !Designates(text, route.ports[j])
    else
      |route.ports| == 1 || (route.ports[i].name == "http" && forall j :: 0 <= j < i ==> route.ports[j].name != "http")
  }

  lemma SelectPortMeans(route: Route, cfg: Config)
    requires route.Service?
    ensures var r := SelectPort(route, cfg.Prefix());
      if r.Some? then exists i :: 0 <= i < |route.ports| && route.ports[i] == r.value && IsSelected(route, cfg, i)
      else forall i :: 0 <= i < |route.ports| ==> !IsSelected(route, cfg, i)
  {
    KeyText(cfg);
    var ports := route.ports;
    if HasAnnotation(route, cfg, "/port") {
      var text := Annotations.Trim(route.annotations[PrefixText(cfg) + "/port"]);
      FirstPortMeans(ports, text);
      if SelectPort(route, cfg.Prefix()).Some? {
        var i :| 0 <= i < |ports| && ports[i] == FirstPort(ports, text).value && Designates(text, ports[i]) && forall j :: 0 <= j < i ==> !Designates(text, ports[j]);
        assert IsSelected(route, cfg, i);
      }
    } else if |ports| == 1 {
      assert IsSelected(route, cfg, 0);
    } else {
      FirstNamedMeans(ports, "http");
      if SelectPort(route, cfg.Prefix()).Some? {
        var i :| 0 <= i < |ports| && ports[i] == FirstNamed(ports, "http").value && ports[i].name == "http" && forall j :: 0 <= j < i ==> ports[j].name != "http";
        assert IsSelected(route, cfg, i);
      }
    }
    hide Annotations.Trim, Designates, Config.Prefix;
  }

  function ProtocolText(p: Port): string {
    match p.protocol case UDP => "udp" case TCP => "tcp" case SCTP => "tcp"
  }

  function PortLabel(p: Port): string {
    if p.name != "" then p.name else Itoa(p.number)
  }

  /** The name of the resource for a port: namespace, service, number and protocol. */
  predicate PortResource(name: string, namespace: string, service: string, number: nat, protocol: string) {
    name == namespace + "-" + service + "-" + Itoa(number) + "-" + protocol
  }

  /** What the resource for a port asks for, when all ports get one. */
  predicate PortSpecIs(spec: ServicePorts.Spec, service: string, siteRef: string, host: string, p: Port) {
    && spec.siteRef == siteRef && spec.name == service + "-" + PortLabel(p) && spec.protocol == ProtocolText(p) && spec.fullDomain == ""
    && spec.proxyPort == p.number && spec.target.hostname == host && spec.target.port == p.number && spec.target.scheme == ""
  }

  /** No later port has the same number and protocol. */
  predicate LastOfItsKind(ports: seq<Port>, i: nat)
    requires i < |ports|
  {
    forall j :: i < j < |ports| ==> ports[j].number != ports[i].number || ProtocolText(ports[j]) != ProtocolText(ports[i])
  }

  /** With all ports wanted, there is a resource for each pair of number and protocol, and it is that of
      the last port of the pair. */
  lemma AllPortsMean(namespace: string, service: string, siteRef: string, host: string, ports: seq<Port>)
    ensures var out := AllPorts(namespace, service, siteRef, host, ports);
      && (forall i :: 0 <= i < |ports| && LastOfItsKind(ports, i) ==>
            exists name :: name in out && PortResource(name, namespace, service, ports[i].number, ProtocolText(ports[i])) && PortSpecIs(out[name], service, siteRef, host, ports[i]))
      && (forall name :: name in out ==>
            exists i :: 0 <= i < |ports| && PortResource(name, namespace, service, ports[i].number, ProtocolText(ports[i])))
  {
    var out := AllPorts(namespace, service, siteRef, host, ports);
    EveryPortListed(namespace, service, siteRef, host, ports);
    forall i | 0 <= i < |ports| && LastOfItsKind(ports, i)
      ensures exists name :: name in out && PortResource(name, namespace, service, ports[i].number, ProtocolText(ports[i])) && PortSpecIs(out[name], service, siteRef, host, ports[i])
    {
      var name := KeyOf(namespace, service, ports[i]);
      forall j | i < j < |ports| ensures KeyOf(namespace, service, ports[j]) != name {
        SameKey(namespace, service, ports[j], ports[i]);
        ProtocolMeans(ports[j]);
        ProtocolMeans(ports[i]);
      }
      PortMeans(namespace, service, siteRef, host, ports[i]);
      assert LastOfItsKey(namespace, service, ports, i);
    }
    forall name | name in out ensures exists i :: 0 <= i < |ports| && PortResource(name, namespace, service, ports[i].number, ProtocolText(ports[i])) {
      var i :| 0 <= i < |ports| && KeyOf(namespace, service, ports[i]) == name;
      PortMeans(namespace, service, siteRef, host, ports[i]);
    }
    hide AllPorts, KeyOf, SpecOf, PortResource, PortSpecIs, Mapped, ProtocolText;
  }

  lemma ProtocolMeans(p: Port)
    ensures ProtocolText(p) == Mapped(p.protocol)
  {
  }

  lemma PortMeans(namespace: string, service: string, siteRef: string, host: string, p: Port)
    ensures PortResource(KeyOf(namespace, service, p), namespace, service, p.number, ProtocolText(p))
    ensures PortSpecIs(SpecOf(service, siteRef, host, p), service, siteRef, host, p)
  {
  }

  /** A service that is to have a resource for each of its ports. */
  predicate WantsAllPorts(route: Route, cfg: Config) {
    && (HasAnnotation(route, cfg, "/full-domain") ==> Annotated(route, cfg, "/full-domain", ""))
    && if HasAnnotation(route, cfg, "/all-ports") then Annotated(route, cfg, "/all-ports", "true") || Annotated(route, cfg, "/all-ports", "1")
       else cfg.allPorts
  }

  /** What the resource for the selected port asks for: HTTP with a domain, or else the protocol of the
      annotation or of the port. */
  predicate SingleIs(item: Item, route: Route, cfg: Config, siteRef: string, host: string, p: Port)
    requires route.Service?
  {
    var spec := item.spec;
    var domain := if HasAnnotation(route, cfg, "/full-domain") then Annotations.Trim(route.annotations[PrefixText(cfg) + "/full-domain"]) else "";
    && spec.siteRef == siteRef && Chooses(route, cfg, "/name", spec.name, route.name + "-" + PortLabel(p))
    && spec.target.hostname == host && spec.target.port == p.number && spec.fullDomain == domain
    && if domain != "" then
         HostResource(item.name, route.name, domain) && spec.protocol == "http" && spec.proxyPort == 0 && SchemeIs(route, cfg, spec.target.scheme, "http")
       else
         && spec.protocol == (if Normalised(route, cfg, "/protocol", "tcp") then "tcp"
                              else if Normalised(route, cfg, "/protocol", "udp") then "udp" else ProtocolText(p))
         && PortResource(item.name, route.namespace, route.name, p.number, spec.protocol) && spec.proxyPort == p.number && spec.target.scheme == ""
  }

  lemma SinglePortMeans(cfg: Config, route: Route, siteRef: string, host: string)
    requires route.Service?
    ensures var items := SinglePort(cfg, route, siteRef, host);
      if items != [] then exists i :: 0 <= i < |route.ports| && IsSelected(route, cfg, i) && SingleIs(items[0], route, cfg, siteRef, host, route.ports[i])
      else forall i :: 0 <= i < |route.ports| ==> !IsSelected(route, cfg, i)
  {
    SelectPortMeans(route, cfg);
    var items := SinglePort(cfg, route, siteRef, host);
    if items != [] {
      var i :| 0 <= i < |route.ports| && route.ports[i] == SelectPort(route, cfg.Prefix()).value && IsSelected(route, cfg, i);
      OneIs(cfg, route, siteRef, host, route.ports[i]);
    }
    hide SelectPort, IsSelected, SingleIs;
  }

  lemma OneIs(cfg: Config, route: Route, siteRef: string, host: string, p: Port)
    requires route.Service? && SelectPort(route, cfg.Prefix()) == Some(p)
    ensures SingleIs(SinglePort(cfg, route, siteRef, host)[0], route, cfg, siteRef, host, p)
  {
    hide SelectPort, Annotations.Trim, Chooses, Scheme, SchemeIs, HostnameToResourceName, HostResource, Plain, Normalised, Config.Prefix, Itoa;
    KeyText(cfg);
    var key := PrefixText(cfg) + "/full-domain";
    if key !in route.annotations { EmptyTrim(); }
    var domain := Annotations.Trim(route.Get(key));
    ChoosesMeans(route, cfg, "/name", route.name + "-" + PortLabel(p));
    SchemeMeans(route, cfg, "http");
    HostResourceMeans(route.name, domain);
    PlainMeans(route, cfg, "/protocol", "tcp");
    PlainMeans(route, cfg, "/protocol", "udp");
    ProtocolMeans(p);
  }

  /** A service gets resources only where services are discovered and it names a site itself: one for each
      port if all are wanted, and otherwise one for the selected port. */
  lemma ServiceItemsMean(site: Site, cfg: Config, route: Route)
    requires route.Service?
    ensures var items := Items(site, cfg, route); var host := route.name + "." + route.namespace + ".svc.cluster.local";
      var silent := !cfg.services || !HasAnnotation(route, cfg, "/site-ref") || Annotated(route, cfg, "/site-ref", "");
      && (silent ==> items == [])
      && (!silent ==> var siteRef := route.annotations[PrefixText(cfg) + "/site-ref"];
            if WantsAllPorts(route, cfg) then
              forall key :: Names(items, route.namespace, key) <==>
                key.namespace == route.namespace && key.name in AllPorts(route.namespace, route.name, siteRef, host, route.ports)
            else items == SinglePort(cfg, route, siteRef, host))
      && (!silent && WantsAllPorts(route, cfg) ==> var siteRef := route.annotations[PrefixText(cfg) + "/site-ref"];
            forall key :: Names(items, route.namespace, key) ==>
              LastSpec(items, key.name) == AllPorts(route.namespace, route.name, siteRef, host, route.ports)[key.name])
  {
    KeyText(cfg);
    var siteRef, host := route.Get(PrefixText(cfg) + "/site-ref"), route.name + "." + route.namespace + ".svc.cluster.local";
    forall key ensures
      var items, specs := AsItems(route, siteRef, host, route.ports), AllPorts(route.namespace, route.name, siteRef, host, route.ports);
      && (Names(items, route.namespace, key) <==> key.namespace == route.namespace && key.name in specs)
      && (Names(items, route.namespace, key) ==> LastSpec(items, key.name) == specs[key.name])
    {
      AsItemsSpec(route, siteRef, host, route.ports, key);
    }
    hide AsItems, AllPorts, SinglePort, Names, LastSpec, Config.Prefix;
  }
}
