/** Comma-separated annotation values and the access rules built from them. */
module Annotations {
  import opened Shared

  /** White space as Unicode defines it. */
  predicate IsSpace(c: char) {
    || '\t' <= c <= '\r' || c == ' ' || c == '\U{85}' || c == '\U{A0}' || c == '\U{1680}' || '\U{2000}' <= c <= '\U{200A}'
    || c == '\U{2028}' || c == '\U{2029}' || c == '\U{202F}' || c == '\U{205F}' || c == '\U{3000}'
  }

  predicate Trimmed(t: string) {
    t != "" ==> !IsSpace(t[0]) && !IsSpace(t[|t| - 1])
  }

  /** Where the leading white space ends. */
  function Start(t: string): (k: nat)
    ensures k <= |t| && (k < |t| ==> !IsSpace(t[k])) && forall i :: 0 <= i < k ==> IsSpace(t[i])
  {
    if t != "" && IsSpace(t[0]) then
      assert forall i :: 0 < i < |t| ==> t[i] == t[1..][i - 1];
      1 + Start(t[1..])
    else 0
  }

  /** Where the trailing white space begins. */
  function End(t: string): (k: nat)
    ensures k <= |t| && (0 < k ==> !IsSpace(t[k - 1])) && forall i :: k <= i < |t| ==> IsSpace(t[i])
  {
    if t != "" && IsSpace(t[|t| - 1]) then End(t[..|t| - 1]) else |t|
  }

  function Trim(t: string): string {
    var l := t[Start(t)..];
    l[..End(l)]
  }

  /** The fields between the separators; there is always at least one. */
  function Fields(t: string): (fields: seq<string>)
    ensures fields != []
    ensures forall i :: 0 <= i < |fields| ==> ',' !in fields[i]
  {
    if t == "" then [""] else
    var rest := Fields(t[1..]);
    if t[0] == ',' then [""] + rest else [[t[0]] + rest[0]] + rest[1..]
  }

  function Kept(fields: seq<string>): seq<string> {
    if fields == [] then [] else (if Trim(fields[0]) != "" then [Trim(fields[0])] else []) + Kept(fields[1..])
  }

  /** The trimmed fields that are not blank, in order. */
  function Split(t: string): seq<string> {
    Kept(Fields(t))
  }

  function Join(parts: seq<string>): string {
    if parts == [] then "" else if |parts| == 1 then parts[0] else parts[0] + "," + Join(parts[1..])
  }

  method SplitCSV(t: string) returns (out: seq<string>)
    ensures out == Split(t)
  {
    if t == "" { return []; }
    out := [];
    var fields := Fields(t);
    for i := 0 to |fields|
      invariant out + Kept(fields[i..]) == Kept(fields)
    {
      var v := Trim(fields[i]);
      KeptStep(out, fields, i);
      if v != "" {
        out := out + [v];
      }
    }
    assert out + [] == out;
  }

  /** One field of the loop. */
  lemma KeptStep(out: seq<string>, fields: seq<string>, i: nat)
    requires i < |fields|
    ensures var v := Trim(fields[i]);
      out + Kept(fields[i..]) == (if v != "" then out + [v] else out) + Kept(fields[i + 1..])
  {
    assert fields[i..][1..] == fields[i + 1..];
    var v, rest := Trim(fields[i]), Kept(fields[i + 1..]);
    assert (out + [v]) + rest == out + ([v] + rest);
    assert [] + rest == rest;
  }

  // ---- Trimming ----

  /** Trimming takes white space off both ends, and nothing else. */
  lemma TrimSpec(t: string)
    ensures Trimmed(Trim(t)) && (Trimmed(t) ==> Trim(t) == t)
    ensures forall c :: c in Trim(t) ==> c in t
    ensures Trim(t) == "" <==> forall c :: c in t ==> IsSpace(c)
  {
    var k, l := Start(t), t[Start(t)..];
    assert k < |t| ==> l[0] == t[k];
    if Trim(t) == "" {
      assert forall i :: 0 <= i < |t| ==> IsSpace(t[i]);
    } else {
      assert Trim(t)[0] == t[k];
    }
  }

  // ---- Splitting ----

  lemma {:induction false} KeptSpec(fields: seq<string>)
    requires forall i :: 0 <= i < |fields| ==> ',' !in fields[i]
    ensures forall v :: v in Kept(fields) ==> v != "" && Trimmed(v) && ',' !in v
    ensures forall f :: f in fields && Trim(f) != "" ==> Trim(f) in Kept(fields)
  {
    if fields != [] {
      KeptSpec(fields[1..]);
      TrimSpec(fields[0]);
      forall f | f in fields && Trim(f) != "" ensures Trim(f) in Kept(fields) {
        if f != fields[0] { assert f in fields[1..]; }
      }
    }
  }

  /** Every element is non-empty, trimmed and free of commas, and no field with anything in it is lost. */
  lemma SplitSpec(t: string)
    ensures forall v :: v in Split(t) ==> v != "" && Trimmed(v) && ',' !in v
    ensures forall f :: f in Fields(t) && (exists c :: c in f && !IsSpace(c)) ==> Trim(f) in Split(t)
  {
    KeptSpec(Fields(t));
    forall f | f in Fields(t) && (exists c :: c in f && !IsSpace(c)) ensures Trim(f) in Split(t) {
      TrimSpec(f);
    }
  }

  /** Splitting and joining at commas are inverse: the fields joined are the text. */
  lemma {:induction false} JoinUndoesFields(t: string)
    ensures Join(Fields(t)) == t
  {
    if t != "" {
      JoinUndoesFields(t[1..]);
      var rest := Fields(t[1..]);
      if t[0] == ',' {
        assert ([""] + rest)[1..] == rest;
        assert t == "" + "," + t[1..];
      } else if |rest| == 1 {
        assert t == [t[0]] + rest[0];
      } else {
        var fields := [[t[0]] + rest[0]] + rest[1..];
        assert fields[1..] == rest[1..];
        assert t == [t[0]] + (rest[0] + "," + Join(rest[1..]));
      }
    }
  }

  lemma {:induction false} FieldsOfOne(v: string)
    requires ',' !in v
    ensures Fields(v) == [v]
  {
    if v != "" {
      assert v[0] in v && forall c :: c in v[1..] ==> c in v;
      FieldsOfOne(v[1..]);
      assert v == [v[0]] + v[1..];
    }
  }

  lemma {:induction false} FieldsOfTwo(v: string, rest: string)
    requires ',' !in v
    ensures Fields(v + "," + rest) == [v] + Fields(rest)
  {
    var t := v + "," + rest;
    if v == "" {
      assert t[1..] == rest;
    } else {
      assert v[0] in v && forall c :: c in v[1..] ==> c in v;
      assert t[1..] == v[1..] + "," + rest;
      FieldsOfTwo(v[1..], rest);
      assert v == [v[0]] + v[1..];
      assert ([v[1..]] + Fields(rest))[1..] == Fields(rest);
    }
  }

  lemma {:induction false} FieldsUndoJoin(parts: seq<string>)
    requires parts != [] && forall v :: v in parts ==> ',' !in v
    ensures Fields(Join(parts)) == parts
  {
    assert parts[0] in parts;
    if |parts| == 1 {
      FieldsOfOne(parts[0]);
    } else {
      assert forall v :: v in parts[1..] ==> v in parts;
      FieldsUndoJoin(parts[1..]);
      FieldsOfTwo(parts[0], Join(parts[1..]));
      assert parts == [parts[0]] + parts[1..];
    }
  }

  lemma {:induction false} KeptAsTheyAre(parts: seq<string>)
    requires forall v :: v in parts ==> v != "" && Trimmed(v)
    ensures Kept(parts) == parts
  {
    if parts != [] {
      assert parts[0] in parts && forall v :: v in parts[1..] ==> v in parts;
      TrimSpec(parts[0]);
      KeptAsTheyAre(parts[1..]);
      assert parts == [parts[0]] + parts[1..];
    }
  }

  /** A normalised list survives being joined and split again, for every text whatever. */
  lemma SplitJoinSplit(t: string)
    ensures Split(Join(Split(t))) == Split(t)
  {
    SplitSpec(t);
    var parts := Split(t);
    if parts == [] {
      assert Fields("") == [""];
      assert Kept([""]) == [];
    } else {
      FieldsUndoJoin(parts);
      KeptAsTheyAre(parts);
    }
  }

  // ---- Access rules ----

  datatype Rule = Rule(action: string, attribute: string, value: string, priority: int)

  predicate IsValid(r: Rule) {
    && r.action in {"ACCEPT", "DROP", "PASS"} && r.attribute in {"cidr", "ip", "path", "country"} && r.value != ""
    && (r.priority == 0 || 1 <= r.priority <= 1000)
  }

  function Valid(rules: seq<Rule>): (r: seq<Rule>) {
    if rules == [] then [] else (if IsValid(rules[0]) then [rules[0]] else []) + Valid(rules[1..])
  }

  function Deny(countries: seq<string>): (r: seq<Rule>)
    ensures |r| == |countries|
    ensures forall i :: 0 <= i < |r| ==> r[i] == Rule("DROP", "country", countries[i], 0)
  {
    seq(|countries|, i requires 0 <= i < |countries| => Rule("DROP", "country", countries[i], 0))
  }

  /** parsed: the annotation's rules, if the annotation is there and is a JSON list of rules. */
  method BuildRules(parsed: Option<seq<Rule>>, denyCountries: string) returns (rules: seq<Rule>)
    ensures rules == (if parsed.Some? then Valid(parsed.value) else []) + Deny(Split(denyCountries))
  {
    hide Kept, Valid, Deny, Trim, IsValid, Fields;
    rules := [];
    if parsed.Some? {
      for i := 0 to |parsed.value|
        invariant rules + Valid(parsed.value[i..]) == Valid(parsed.value)
      {
        ValidStep(rules, parsed.value, i);
        if IsValid(parsed.value[i]) {
          rules := rules + [parsed.value[i]];
        }
      }
      assert parsed.value[|parsed.value|..] == [];
      NothingLeft(rules);
    }
    ghost var first := rules;
    ghost var countries: seq<string> := [];
    assert first + Deny([]) == first;
    var fields := Fields(denyCountries);
    for i := 0 to |fields|
      invariant rules == first + Deny(countries)
      invariant countries + Kept(fields[i..]) == Kept(fields)
    {
      var country := Trim(fields[i]);
      KeptStep(countries, fields, i);
      if country != "" {
        DenyStep(first, countries, country);
        countries := countries + [country];
        rules := rules + [Rule("DROP", "country", country, 0)];
      }
    }
    assert fields[|fields|..] == [];
    NothingKept(countries);
  }

  lemma NothingLeft(rules: seq<Rule>)
    ensures rules + Valid([]) == rules
  {
  }

  lemma NothingKept(out: seq<string>)
    ensures out + Kept([]) == out
  {
  }

  lemma ValidStep(out: seq<Rule>, rules: seq<Rule>, i: nat)
    requires i < |rules|
    ensures out + Valid(rules[i..]) == (if IsValid(rules[i]) then out + [rules[i]] else out) + Valid(rules[i + 1..])
  {
    hide IsValid;
    assert rules[i..][1..] == rules[i + 1..];
    var rest := Valid(rules[i + 1..]);
    assert (out + [rules[i]]) + rest == out + ([rules[i]] + rest);
    assert [] + rest == rest;
  }

  lemma DenyStep(first: seq<Rule>, countries: seq<string>, country: string)
    ensures (first + Deny(countries)) + [Rule("DROP", "country", country, 0)] == first + Deny(countries + [country])
  {
    assert Deny(countries + [country]) == Deny(countries) + [Rule("DROP", "country", country, 0)];
  }

  lemma {:induction false} ValidSpec(rules: seq<Rule>)
    ensures forall r :: r in Valid(rules) <==> r in rules && IsValid(r)
  {
    if rules != [] {
      ValidSpec(rules[1..]);
      assert rules == [rules[0]] + rules[1..];
    }
  }

  /** What the API takes: the actions, the attributes, and priorities from 1 to 1000 or none. */
  predicate Acceptable(r: Rule) {
    && (r.action == "ACCEPT" || r.action == "DROP" || r.action == "PASS")
    && (r.attribute == "ip" || r.attribute == "cidr" || r.attribute == "path" || r.attribute == "country")
    && r.value != "" && 0 <= r.priority <= 1000
  }

  /** Everything that is built is what the API takes, no rule of the annotation that it takes is missing,
      and every denied country is in. */
  lemma BuiltRulesAreValid(parsed: seq<Rule>, denyCountries: string)
    ensures var rules := Valid(parsed) + Deny(Split(denyCountries));
      && (forall r :: r in rules ==> Acceptable(r))
      && (forall r :: r in parsed && Acceptable(r) ==> r in rules)
      && (forall c :: c in Split(denyCountries) ==> Rule("DROP", "country", c, 0) in rules)
  {
    ValidSpec(parsed);
    SplitSpec(denyCountries);
    forall r ensures IsValid(r) <==> Acceptable(r) {}
    var countries := Split(denyCountries);
    var deny := Deny(countries);
    forall r | r in deny ensures Acceptable(r) {
      var i :| 0 <= i < |deny| && deny[i] == r;
      assert countries[i] in countries;
    }
    forall c | c in countries ensures Rule("DROP", "country", c, 0) in deny {
      var i :| 0 <= i < |countries| && countries[i] == c;
      assert deny[i] == Rule("DROP", "country", c, 0);
    }
    hide IsValid, Acceptable;
  }

  // ---- White space ----

  /** The code points that Unicode calls white space. */
  const SPACES: set<int> := {
    0x9, 0xA, 0xB, 0xC, 0xD, 0x20, 0x85, 0xA0, 0x1680, 0x2000, 0x2001, 0x2002, 0x2003, 0x2004, 0x2005, 0x2006, 0x2007,
    0x2008, 0x2009, 0x200A, 0x2028, 0x2029, 0x202F, 0x205F, 0x3000}

  lemma SpaceIsUnicodes(c: char)
    ensures IsSpace(c) <==> c as int in SPACES
  {
  }
}
