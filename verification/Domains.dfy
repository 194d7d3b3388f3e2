/** Resolution of a fully qualified domain against the organisation's base domains:
    longest-suffix match, and the split into base domain and subdomain. */
module Domains {

  datatype Domain = Domain(id: string, base: string)

  /** The outcome of a resolution: no match, or the chosen domain ID and the subdomain. */
  datatype Resolution = Unresolved | Resolved(id: string, subdomain: string)

  predicate EndsWith(s: string, suffix: string) {
    |suffix| <= |s| && s[|s| - |suffix|..] == suffix
  }

  function TrimSuffix(s: string, suffix: string): string {
    if EndsWith(s, suffix) then s[..|s| - |suffix|] else s
  }

  predicate Covers(base: string, fullDomain: string) {
    base == fullDomain || EndsWith(fullDomain, "." + base)
  }

  /** The candidate kept after looking at the first n domains. */
  function Scan(domains: seq<Domain>, fullDomain: string, n: nat): (string, nat)
    requires n <= |domains|
  {
    if n == 0 then ("", 0) else
    var (best, bestLen) := Scan(domains, fullDomain, n - 1);
    var d := domains[n - 1];
    if Covers(d.base, fullDomain) && |d.base| > bestLen then (d.id, |d.base|) else (best, bestLen)
  }

  function ResolveID(domains: seq<Domain>, fullDomain: string): string {
    Scan(domains, fullDomain, |domains|).0
  }

  /** The position of the first domain with the given ID, or |domains|. */
  function IndexOfID(domains: seq<Domain>, id: string): (k: nat)
    ensures k <= |domains|
    ensures k < |domains| ==> domains[k].id == id
    ensures forall j :: 0 <= j < k ==> domains[j].id != id
    ensures forall j :: 0 <= j < |domains| && domains[j].id == id ==> k <= j
  {
    if domains == [] || domains[0].id == id then 0 else 1 + IndexOfID(domains[1..], id)
  }

  /** What is left of fullDomain in front of base; "" when nothing was trimmed. */
  function SubdomainOf(fullDomain: string, base: string): string {
    var sub := TrimSuffix(TrimSuffix(fullDomain, "." + base), base);
    if sub != fullDomain then sub else ""
  }

  function Resolve(domains: seq<Domain>, fullDomain: string): Resolution {
    var id := ResolveID(domains, fullDomain);
    if id == "" then Unresolved else
    var k := IndexOfID(domains, id);
    Resolved(id, if k < |domains| then SubdomainOf(fullDomain, domains[k].base) else "")
  }

  /** The full domain the server forms from a domain ID and a subdomain. */
  function Compose(domains: seq<Domain>, id: string, subdomain: string): string {
    var k := IndexOfID(domains, id);
    if k == |domains| then subdomain
    else if subdomain == "" then domains[k].base
    else subdomain + "." + domains[k].base
  }

  method ResolveDomainID(domains: seq<Domain>, fullDomain: string) returns (best: string, ok: bool)
    ensures best == ResolveID(domains, fullDomain) && ok == (best != "")
    ensures ok <==> exists k :: Wins(domains, fullDomain, k) && domains[k].id != ""
    ensures forall k :: Wins(domains, fullDomain, k) ==> best == domains[k].id
  {
    best := "";
    var bestLen := 0;
    for i := 0 to |domains|
      invariant (best, bestLen) == Scan(domains, fullDomain, i)
    {
      var d := domains[i];
      if d.base == fullDomain || EndsWith(fullDomain, "." + d.base) {
        if |d.base| > bestLen {
          best := d.id;
          bestLen := |d.base|;
        }
      }
    }
    ok := best != "";
    ScanWins(domains, fullDomain);
  }

  method ResolveDomain(domains: seq<Domain>, fullDomain: string)
    returns (domainID: string, subdomain: string, ok: bool)
    ensures ok <==> Resolve(domains, fullDomain).Resolved?
    ensures ok ==> Resolve(domains, fullDomain) == Resolved(domainID, subdomain)
    ensures !ok ==> domainID == "" && subdomain == ""
  {
    domainID, ok := ResolveDomainID(domains, fullDomain);
    subdomain := "";
    if !ok {
      return "", "", false;
    }
    var i := 0;
    while i < |domains| && domains[i].id != domainID
      invariant i <= |domains|
      invariant forall j :: 0 <= j < i ==> domains[j].id != domainID
    {
      i := i + 1;
    }
    if i < |domains| {
      var d := domains[i];
      var sub := TrimSuffix(fullDomain, "." + d.base);
      sub := TrimSuffix(sub, d.base);
      if sub != fullDomain {
        subdomain := sub;
      }
    }
  }

  // ---- What the resolution promises ----

  /** domains[k] is the first of the longest non-empty bases matching on a label boundary. */
  ghost predicate Wins(domains: seq<Domain>, fullDomain: string, k: int) {
    && 0 <= k < |domains|
    && domains[k].base != ""
    && Covers(domains[k].base, fullDomain)
    && (forall j :: 0 <= j < |domains| && Covers(domains[j].base, fullDomain) ==>
          |domains[j].base| <= |domains[k].base|)
    && (forall j :: 0 <= j < k && Covers(domains[j].base, fullDomain) ==>
          |domains[j].base| < |domains[k].base|)
  }

  /** domains[k] is the first of the longest matching bases among the first n. */
  ghost predicate Leads(domains: seq<Domain>, fullDomain: string, n: nat, k: int) {
    && 0 <= k < n <= |domains|
    && domains[k].base != ""
    && Covers(domains[k].base, fullDomain)
    && (forall j :: 0 <= j < n && Covers(domains[j].base, fullDomain) ==> |domains[j].base| <= |domains[k].base|)
    && (forall j :: 0 <= j < k && Covers(domains[j].base, fullDomain) ==> |domains[j].base| < |domains[k].base|)
  }

  /** The scan keeps the leader of the part it has seen, if there is one. */
  lemma {:induction false} ScanLeads(domains: seq<Domain>, fullDomain: string, n: nat) returns (k: int)
    requires n <= |domains|
    ensures var (best, bestLen) := Scan(domains, fullDomain, n);
      if bestLen == 0
      then best == "" && forall j :: 0 <= j < n && Covers(domains[j].base, fullDomain) ==> domains[j].base == ""
      else Leads(domains, fullDomain, n, k) && domains[k].id == best && |domains[k].base| == bestLen
  {
    k := 0;
    if n > 0 {
      k := ScanLeads(domains, fullDomain, n - 1);
      var bestLen := Scan(domains, fullDomain, n - 1).1;
      var d := domains[n - 1];
      if Covers(d.base, fullDomain) && |d.base| > bestLen {
        k := n - 1;
      }
    }
  }

  /** The result is the ID of the winner: the first longest match; "" when nothing matches. */
  lemma ScanWins(domains: seq<Domain>, fullDomain: string)
    ensures forall k :: Wins(domains, fullDomain, k) ==> domains[k].id == ResolveID(domains, fullDomain)
    ensures (forall k :: !Wins(domains, fullDomain, k)) ==> ResolveID(domains, fullDomain) == ""
    ensures (exists j :: 0 <= j < |domains| && domains[j].base != "" && Covers(domains[j].base, fullDomain)) ==>
      exists k :: Wins(domains, fullDomain, k)
  {
    var k := ScanLeads(domains, fullDomain, |domains|);
    if Scan(domains, fullDomain, |domains|).1 != 0 {
      assert Wins(domains, fullDomain, k);
      forall m | Wins(domains, fullDomain, m) ensures m == k {
      }
    }
  }

  /** Two bases of the same length that match the same full domain are the same string. */
  lemma EqualLengthMatchesAgree(a: string, b: string, fullDomain: string)
    requires Covers(a, fullDomain) && Covers(b, fullDomain) && |a| == |b|
    ensures a == b
  {
    assert a == fullDomain[|fullDomain| - |a|..] by {
      if a != fullDomain { assert a == ("." + a)[1..]; }
    }
    assert b == fullDomain[|fullDomain| - |b|..] by {
      if b != fullDomain { assert b == ("." + b)[1..]; }
    }
  }

  ghost predicate DistinctBases(domains: seq<Domain>) {
    forall i, j :: 0 <= i < j < |domains| ==> domains[i].base != domains[j].base
  }

  ghost predicate DistinctIDs(domains: seq<Domain>) {
    forall i, j :: 0 <= i < j < |domains| ==> domains[i].id != domains[j].id
  }

  /** The order in which the server lists the domains does not matter. */
  lemma OrderDoesNotMatter(xs: seq<Domain>, ys: seq<Domain>, fullDomain: string)
    requires multiset(xs) == multiset(ys) && DistinctBases(xs)
    ensures ResolveID(xs, fullDomain) == ResolveID(ys, fullDomain)
  {
    ScanWins(xs, fullDomain);
    ScanWins(ys, fullDomain);
    SameElements(xs, ys);
    if k :| Wins(xs, fullDomain, k) {
      WinnerCarriesOver(xs, ys, fullDomain, k);
    } else if k :| Wins(ys, fullDomain, k) {
      LongestExists(xs, ys, fullDomain, k);
    }
  }

  lemma SameElements<T>(xs: seq<T>, ys: seq<T>)
    requires multiset(xs) == multiset(ys)
    ensures forall d :: d in xs <==> d in ys
  {
    forall d ensures d in xs <==> d in ys {
      assert d in xs <==> d in multiset(xs);
    }
  }

  lemma WinnerCarriesOver(xs: seq<Domain>, ys: seq<Domain>, fullDomain: string, k: int)
    requires forall d :: d in xs <==> d in ys
    requires DistinctBases(xs) && Wins(xs, fullDomain, k)
    ensures exists m :: Wins(ys, fullDomain, m) && ys[m] == xs[k]
  {
    assert xs[k] in ys;
    var m := FirstIndex(ys, xs[k]);
    forall j | 0 <= j < |ys| && Covers(ys[j].base, fullDomain)
      ensures |ys[j].base| <= |ys[m].base| && (j < m ==> |ys[j].base| < |ys[m].base|)
    {
      assert ys[j] in xs;
      var i :| 0 <= i < |xs| && xs[i] == ys[j];
      if |ys[j].base| == |ys[m].base| {
        EqualLengthMatchesAgree(ys[j].base, ys[m].base, fullDomain);
        assert i == k;
      }
    }
    assert Wins(ys, fullDomain, m);
  }

  lemma LongestExists(xs: seq<Domain>, ys: seq<Domain>, fullDomain: string, k: int)
    requires forall d :: d in xs <==> d in ys
    requires Wins(ys, fullDomain, k)
    ensures exists m :: Wins(xs, fullDomain, m)
  {
    assert ys[k] in xs;
    ScanWins(xs, fullDomain);
    var m :| 0 <= m < |xs| && xs[m] == ys[k];
  }

  function FirstIndex<T(==)>(xs: seq<T>, x: T): (k: nat)
    requires x in xs
    ensures k < |xs| && xs[k] == x
    ensures forall j :: 0 <= j < k ==> xs[j] != x
  {
    if xs[0] == x then 0 else 1 + FirstIndex(xs[1..], x)
  }

  /** The part in front of base in fullDomain, when there is one. */
  ghost predicate Splits(fullDomain: string, front: string, base: string) {
    front != "" && fullDomain == front + "." + base
  }

  /** The split gives back the part in front exactly when that part does not itself end with the base. */
  lemma SplitUndoesJoin(front: string, base: string)
    requires front != "" && base != ""
    ensures var sub := SubdomainOf(front + "." + base, base);
      && (sub == front <==> !EndsWith(front, base))
      && (EndsWith(front, base) ==> sub == front[..|front| - |base|])
  {
    var fullDomain := front + "." + base;
    assert fullDomain == front + ("." + base);
    assert fullDomain[|fullDomain| - |"." + base|..] == "." + base;
    assert TrimSuffix(fullDomain, "." + base) == front;
  }

  lemma BaseItselfHasNoSubdomain(base: string)
    requires base != ""
    ensures SubdomainOf(base, base) == ""
  {
  }

  /** Exactly when resolving and recomposing gives the full domain back. */
  lemma ResolutionRoundTrip(domains: seq<Domain>, fullDomain: string, k: int)
    requires DistinctIDs(domains) && Wins(domains, fullDomain, k) && domains[k].id != ""
    ensures var r := Resolve(domains, fullDomain);
      && r.Resolved? && r.id == domains[k].id
      && (Compose(domains, r.id, r.subdomain) == fullDomain <==>
            || fullDomain == domains[k].base
            || (exists front :: Splits(fullDomain, front, domains[k].base) && !EndsWith(front, domains[k].base)))
  {
    ScanWins(domains, fullDomain);
    var base := domains[k].base;
    assert ResolveID(domains, fullDomain) == domains[k].id;
    assert IndexOfID(domains, domains[k].id) == k;
    var sub := SubdomainOf(fullDomain, base);
    if fullDomain == base {
      BaseItselfHasNoSubdomain(base);
    } else {
      var front := fullDomain[..|fullDomain| - |base| - 1];
      assert fullDomain == front + "." + base by {
        assert "." + base == fullDomain[|fullDomain| - |base| - 1..];
      }
      if front == "" {
        assert sub == "";
        assert !exists l :: Splits(fullDomain, l, base);
      } else {
        SplitUndoesJoin(front, base);
        assert Splits(fullDomain, front, base);
        forall l | Splits(fullDomain, l, base) ensures l == front {
          assert l == fullDomain[..|fullDomain| - |base| - 1];
        }
        if EndsWith(front, base) {
          assert |Compose(domains, domains[k].id, sub)| < |fullDomain|;
        }
      }
    }
  }

  /** A full domain that is lost: a part that ends with the base comes back as the base domain. */
  lemma OverTrimmedDomain()
    ensures var ds := [Domain("d1", "a.io")];
      && Resolve(ds, "a.io.a.io") == Resolved("d1", "")
      && Compose(ds, "d1", "") == "a.io"
  {
    var ds := [Domain("d1", "a.io")];
    var fd := "a.io.a.io";
    assert fd == "a.io" + "." + "a.io";
    SplitUndoesJoin("a.io", "a.io");
    assert Covers("a.io", fd) by { assert fd[4..] == ".a.io"; }
    assert Scan(ds, fd, 0) == ("", 0);
    assert Scan(ds, fd, 1) == ("d1", 4);
    assert SubdomainOf(fd, "a.io") == "";
  }
}
