/** The resources for the ports of a Service: their names, and which port becomes which resource. */
module ServicePorts {
  import opened Shared

  datatype Protocol = TCP | UDP | SCTP

  datatype Port = Port(name: string, number: nat, protocol: Protocol)

  datatype Target = Target(hostname: string, port: nat, scheme: string)

  /** Everything that is not TCP or UDP counts as TCP. */
  function Mapped(p: Protocol): string {
    if p == UDP then "udp" else "tcp"
  }

  // ---- Decimal numbers ----

  predicate IsDigit(c: char) {
    '0' <= c <= '9'
  }

  function Itoa(n: nat): (t: string)
    ensures t != "" && forall c :: c in t ==> IsDigit(c)
  {
    var last := ['0' + (n % 10) as char];
    if n < 10 then last else Itoa(n / 10) + last
  }

  function Atoi(t: string): nat
    requires forall c :: c in t ==> IsDigit(c)
  {
    if t == "" then 0 else
    var last := t[|t| - 1];
    assert last in t && forall c :: c in t[..|t| - 1] ==> c in t;
    assert IsDigit(last);
    Atoi(t[..|t| - 1]) * 10 + (last - '0') as nat
  }

  lemma {:induction false} AtoiUndoesItoa(n: nat)
    ensures Atoi(Itoa(n)) == n
  {
    var t := Itoa(n);
    if n >= 10 {
      AtoiUndoesItoa(n / 10);
      assert t[..|t| - 1] == Itoa(n / 10);
    }
  }

  /** The digits count as decimal numbers do. */
  lemma AtoiReads(t: string, c: char)
    requires IsDigit(c) && forall d :: d in t ==> IsDigit(d)
    ensures Atoi("") == 0 && Atoi(t + [c]) == 10 * Atoi(t) + (c as int - '0' as int)
  {
    assert (t + [c])[..|t|] == t;
  }

  /** And without zeros in front. */
  lemma {:induction false} ItoaIsShort(n: nat)
    ensures n > 0 ==> Itoa(n)[0] != '0'
    ensures Itoa(0) == "0"
  {
    if n >= 10 { ItoaIsShort(n / 10); }
  }

  // ---- Resource names ----

  function ResourceName(namespace: string, name: string, port: string, protocol: string): string {
    namespace + "-" + name + "-" + port + "-" + protocol
  }

  /** For one service, resource names are as good as pairs of port number and mapped protocol. */
  lemma NamesTellPortsApart(namespace: string, name: string, p: Port, q: Port)
    ensures ResourceName(namespace, name, Itoa(p.number), Mapped(p.protocol)) ==
            ResourceName(namespace, name, Itoa(q.number), Mapped(q.protocol)) <==>
            p.number == q.number && Mapped(p.protocol) == Mapped(q.protocol)
  {
    var front := namespace + "-" + name + "-";
    var a, b := Itoa(p.number), Itoa(q.number);
    var x, y := ResourceName(namespace, name, a, Mapped(p.protocol)), ResourceName(namespace, name, b, Mapped(q.protocol));
    assert x == front + a + "-" + Mapped(p.protocol) && y == front + b + "-" + Mapped(q.protocol);
    if x == y {
      assert |a| == |b|;
      assert a == x[|front|..|front| + |a|] && b == y[|front|..|front| + |b|];
      assert Mapped(p.protocol) == x[|front| + |a| + 1..] && Mapped(q.protocol) == y[|front| + |b| + 1..];
      AtoiUndoesItoa(p.number);
      AtoiUndoesItoa(q.number);
    }
  }

  // ---- All ports ----

  /** What discovery puts into a resource; HTTP resources have a domain, others a proxy port. */
  datatype Spec = Spec(siteRef: string, name: string, protocol: string, fullDomain: string, proxyPort: nat, target: Target)

  function DisplayPort(p: Port): string {
    if p.name == "" then Itoa(p.number) else p.name
  }

  function KeyOf(namespace: string, name: string, p: Port): string {
    ResourceName(namespace, name, Itoa(p.number), Mapped(p.protocol))
  }

  function SpecOf(name: string, siteRef: string, hostname: string, p: Port): Spec {
    Spec(siteRef, name + "-" + DisplayPort(p), Mapped(p.protocol), "", p.number, Target(hostname, p.number, ""))
  }

  /** One entry for each port; a later port replaces an earlier one of the same key. */
  function AllPorts(namespace: string, name: string, siteRef: string, hostname: string, ports: seq<Port>): map<string, Spec> {
    if ports == [] then map[] else
    var n := |ports| - 1;
    AllPorts(namespace, name, siteRef, hostname, ports[..n])
      [KeyOf(namespace, name, ports[n]) := SpecOf(name, siteRef, hostname, ports[n])]
  }

  method BuildAllPortSpecs(namespace: string, name: string, siteRef: string, hostname: string, ports: seq<Port>)
    returns (out: map<string, Spec>)
    ensures out == AllPorts(namespace, name, siteRef, hostname, ports)
  {
    out := map[];
    for i := 0 to |ports|
      invariant out == AllPorts(namespace, name, siteRef, hostname, ports[..i])
    {
      var p := ports[i];
      var portName := p.name;
      if portName == "" {
        portName := Itoa(p.number);
      }
      var protocol := Mapped(p.protocol);
      var key := ResourceName(namespace, name, Itoa(p.number), protocol);
      out := out[key := Spec(siteRef, name + "-" + portName, protocol, "", p.number, Target(hostname, p.number, ""))];
      assert ports[..i + 1][..i] == ports[..i];
    }
    assert ports[..|ports|] == ports;
  }

  /** No two ports share number and mapped protocol. */
  ghost predicate Distinct(ports: seq<Port>) {
    forall i, j :: 0 <= i < j < |ports| ==> ports[i].number != ports[j].number || Mapped(ports[i].protocol) != Mapped(ports[j].protocol)
  }

  ghost function Keys(namespace: string, name: string, ports: seq<Port>): set<string> {
    set i | 0 <= i < |ports| :: KeyOf(namespace, name, ports[i])
  }

  lemma KeysStep(namespace: string, name: string, ports: seq<Port>, n: nat)
    requires |ports| == n + 1
    ensures Keys(namespace, name, ports) == Keys(namespace, name, ports[..n]) + {KeyOf(namespace, name, ports[n])}
  {
    hide KeyOf;
    assert forall i :: 0 <= i < n ==> ports[..n][i] == ports[i];
  }

  lemma NoKeys(namespace: string, name: string)
    ensures Keys(namespace, name, []) == {}
  {
  }

  /** No later port has the same key. */
  ghost predicate LastOfItsKey(namespace: string, name: string, ports: seq<Port>, i: nat)
    requires i < |ports|
  {
    forall j :: i < j < |ports| ==> KeyOf(namespace, name, ports[j]) != KeyOf(namespace, name, ports[i])
  }

  /** Every port has an entry, and only ports have; the last port of a key decides its entry. */
  lemma {:induction false} EveryPortListed(namespace: string, name: string, siteRef: string, hostname: string, ports: seq<Port>)
    ensures var out := AllPorts(namespace, name, siteRef, hostname, ports);
      && out.Keys == Keys(namespace, name, ports)
      && (forall i :: 0 <= i < |ports| && LastOfItsKey(namespace, name, ports, i) ==>
            KeyOf(namespace, name, ports[i]) in out
            && out[KeyOf(namespace, name, ports[i])] == SpecOf(name, siteRef, hostname, ports[i]))
    decreases |ports|
  {
    hide KeyOf, SpecOf, Keys;
    if ports == [] {
      assert Keys(namespace, name, []) == {} by { NoKeys(namespace, name); }
    } else {
      var n := |ports| - 1;
      var before := ports[..n];
      EveryPortListed(namespace, name, siteRef, hostname, before);
      KeysStep(namespace, name, ports, n);
      assert forall i :: 0 <= i < n ==> before[i] == ports[i];
      forall i | 0 <= i < n && LastOfItsKey(namespace, name, ports, i) ensures LastOfItsKey(namespace, name, before, i) {
        assert forall j :: i < j < n ==> before[j] == ports[j];
      }
    }
  }

  /** There are as many keys as ports exactly if no pair of number and mapped protocol repeats. */
  lemma {:induction false} CountKeys(namespace: string, name: string, ports: seq<Port>)
    ensures |Keys(namespace, name, ports)| <= |ports|
    ensures |Keys(namespace, name, ports)| == |ports| <==> Distinct(ports)
    decreases |ports|
  {
    hide KeyOf, Mapped;
    if ports != [] {
      var n := |ports| - 1;
      var before, key := ports[..n], KeyOf(namespace, name, ports[n]);
      CountKeys(namespace, name, before);
      var earlier := Keys(namespace, name, before);
      KeysStep(namespace, name, ports, n);
      forall i | 0 <= i < n
        ensures KeyOf(namespace, name, ports[i]) == key <==>
                ports[i].number == ports[n].number && Mapped(ports[i].protocol) == Mapped(ports[n].protocol)
      {
        SameKey(namespace, name, ports[i], ports[n]);
      }
      DistinctStep(ports, n);
      if key in earlier {
        var i :| 0 <= i < |before| && KeyOf(namespace, name, before[i]) == key;
        assert before[i] == ports[i];
        assert earlier + {key} == earlier;
      } else {
        assert forall i :: 0 <= i < n ==> KeyOf(namespace, name, before[i]) in earlier && before[i] == ports[i];
      }
    }
  }

  lemma SameKey(namespace: string, name: string, p: Port, q: Port)
    ensures KeyOf(namespace, name, p) == KeyOf(namespace, name, q) <==>
            p.number == q.number && Mapped(p.protocol) == Mapped(q.protocol)
  {
    NamesTellPortsApart(namespace, name, p, q);
    hide ResourceName;
  }

  lemma DistinctStep(ports: seq<Port>, n: nat)
    requires |ports| == n + 1
    ensures Distinct(ports) <==>
      Distinct(ports[..n]) &&
      forall i :: 0 <= i < n ==> !(ports[i].number == ports[n].number && Mapped(ports[i].protocol) == Mapped(ports[n].protocol))
  {
    hide Mapped;
    var before := ports[..n];
    assert forall i :: 0 <= i < n ==> before[i] == ports[i];
  }

  /** Nothing is lost: there is one entry for each port, with its number and protocol, exactly if no
      pair of number and mapped protocol repeats. */
  lemma NoPortIsLost(namespace: string, name: string, siteRef: string, hostname: string, ports: seq<Port>)
    ensures var out := AllPorts(namespace, name, siteRef, hostname, ports);
      && (|out| == |ports| <==> Distinct(ports))
      && (Distinct(ports) ==> forall i :: 0 <= i < |ports| ==>
            var key := KeyOf(namespace, name, ports[i]); key in out && out[key] == SpecOf(name, siteRef, hostname, ports[i]))
  {
    EveryPortListed(namespace, name, siteRef, hostname, ports);
    CountKeys(namespace, name, ports);
    var out := AllPorts(namespace, name, siteRef, hostname, ports);
    assert out.Keys == Keys(namespace, name, ports);
    assert |out| == |out.Keys|;
    if Distinct(ports) {
      forall i | 0 <= i < |ports| ensures LastOfItsKey(namespace, name, ports, i) {
        forall j | i < j < |ports| ensures KeyOf(namespace, name, ports[j]) != KeyOf(namespace, name, ports[i]) {
          SameKey(namespace, name, ports[i], ports[j]);
        }
      }
    }
    hide KeyOf, SpecOf, Mapped;
  }

  /** Why the pair has the mapped protocol: an SCTP port and a TCP port of one number collide. */
  lemma SctpCollidesWithTcp(namespace: string, name: string, siteRef: string, hostname: string, number: nat)
    ensures |AllPorts(namespace, name, siteRef, hostname, [Port("a", number, TCP), Port("b", number, SCTP)])| == 1
  {
    var ports := [Port("a", number, TCP), Port("b", number, SCTP)];
    NoPortIsLost(namespace, name, siteRef, hostname, ports);
    assert !(ports[0].number != ports[1].number || Mapped(ports[0].protocol) != Mapped(ports[1].protocol));
    EveryPortListed(namespace, name, siteRef, hostname, ports);
    assert KeyOf(namespace, name, ports[0]) in AllPorts(namespace, name, siteRef, hostname, ports);
    CountKeys(namespace, name, ports);
    hide AllPorts, KeyOf;
  }
}
