/** What it means at the server that a spec is realised: the settings of its resource and the contents of
    its targets and rules, field by field. */
module PublicMeaning {
  import opened Shared
  import opened Server
  import opened PublicResource
  import opened PublicSafety
  import opened PublicChildren
  import opened PublicSteps
  import opened PublicRuns
  import opened PublicConvergence

  // ---- Targets and rules ----

  /** A row is a target of the resource at the site, with what the item says. */
  predicate TargetRow(child: Child, resource: nat, site: nat, item: TargetSpec) {
    && child.resource == resource && child.site == site && child.content.Target?
    && child.content.hostname == item.hostname && child.content.port == item.port && child.content.extras == item.extras
  }

  /** The text with its small letters raised. */
  predicate Raised(text: string, from: string) {
    && |text| == |from|
    && forall i :: 0 <= i < |from| ==>
         if 'a' <= from[i] <= 'z' then text[i] as int == from[i] as int - 32 else text[i] == from[i]
  }

  /** A row is a rule of the resource with what item i says; without a priority it gets one that keeps the
      order of the list. */
  predicate RuleRow(child: Child, resource: nat, item: RuleSpec, i: nat) {
    && child.resource == resource && child.site == 0 && child.content.Rule?
    && Raised(child.content.action, item.action) && Raised(child.content.attribute, item.attribute)
    && child.content.value == item.value
    && child.content.priority == if item.priority != 0 then item.priority else 10 * (i + 1)
  }

  /** The first of these IDs are live targets with what the list says, in order. */
  ghost predicate TargetsServed(s: State, resource: nat, ids: seq<nat>, list: seq<TargetSpec>) {
    var live := s.remote.targets.live;
    |list| <= |ids| && forall i :: 0 <= i < |list| ==> ids[i] in live && TargetRow(live[ids[i]], resource, s.siteID, list[i])
  }

  ghost predicate RulesServed(s: State, resource: nat, ids: seq<nat>, list: seq<RuleSpec>) {
    var live := s.remote.rules.live;
    |list| <= |ids| && forall i :: 0 <= i < |list| ==> ids[i] in live && RuleRow(live[ids[i]], resource, list[i], i)
  }

  lemma RaisedIsUpper(text: string, from: string)
    ensures Raised(text, from) <==> text == Upper(from)
  {
  }

  lemma RowsMean(s: State, child: Child, resource: nat, spec: ChildSpec, i: nat)
    ensures spec.Target? ==> (child == Row(s, Targets, resource, spec, i) <==> TargetRow(child, resource, s.siteID, spec))
    ensures spec.Rule? ==> (child == Row(s, Rules, resource, spec, i) <==> RuleRow(child, resource, spec, i))
  {
    if child.content.Rule? && spec.Rule? {
      RaisedIsUpper(child.content.action, spec.action);
      RaisedIsUpper(child.content.attribute, spec.attribute);
    }
    hide Upper, Raised;
  }

  /** Realised children are live with the contents that the list asks for. */
  lemma ChildrenMean(s: State, resource: nat, ids: seq<nat>, targets: seq<TargetSpec>, rules: seq<RuleSpec>)
    ensures Realised(s, Targets, resource, targets, ids) <==> TargetsServed(s, resource, ids, targets)
    ensures Realised(s, Rules, resource, rules, ids) <==> RulesServed(s, resource, ids, rules)
  {
    forall i, child | 0 <= i < |targets|
      ensures child == Row(s, Targets, resource, targets[i], i) <==> TargetRow(child, resource, s.siteID, targets[i])
    {
      RowsMean(s, child, resource, targets[i], i);
    }
    forall i, child | 0 <= i < |rules| ensures child == Row(s, Rules, resource, rules[i], i) <==> RuleRow(child, resource, rules[i], i) {
      RowsMean(s, child, resource, rules[i], i);
    }
    hide Row, TargetRow, RuleRow;
  }

  /** When the parallel requests all succeed, ID i is that of a new row which holds what item i says. */
  lemma CreationServes(s: State, resource: nat, targets: seq<TargetSpec>, rules: seq<RuleSpec>)
    requires Sound(s) && resource in s.remote.resources.live
    ensures var b := CreateChildren(s, Targets, resource, targets);
      !b.failed ==> |b.ids| == |targets| && TargetsServed(b.s, resource, b.ids, targets) && b.s.siteID == s.siteID
                    && forall i :: 0 <= i < |targets| ==> b.ids[i] !in s.remote.targets.live
    ensures var b := CreateChildren(s, Rules, resource, rules);
      !b.failed ==> |b.ids| == |rules| && RulesServed(b.s, resource, b.ids, rules)
                    && forall i :: 0 <= i < |rules| ==> b.ids[i] !in s.remote.rules.live
  {
    CreateChildrenKeeps(s, Targets, resource, targets);
    CreateChildrenKeeps(s, Rules, resource, rules);
    var t, r := CreateChildren(s, Targets, resource, targets), CreateChildren(s, Rules, resource, rules);
    ChildrenMean(t.s, resource, t.ids, targets, []);
    ChildrenMean(r.s, resource, r.ids, [], rules);
    assert s.remote.Valid();
    hide CreateChildren, Realised, TargetsServed, RulesServed, Unique, Recomposes;
  }

  // ---- Settings ----

  /** The settings that the spec sets are those of the row. What an HTTP spec leaves out, and what is not
      managed for other protocols, may be anything. */
  predicate SettingsServed(row: ResourceRow, spec: Spec) {
    var at, auth := row.settings, spec.auth;
    && (spec.name != "" ==> row.name == spec.name)
    && at.enabled == spec.enabled
    && (spec.protocol.HTTP? ==>
          && at.ssl == spec.ssl && at.sso == (auth.Auth? && auth.sso) && !at.blockAccess && at.applyRules == (spec.rules != [])
          && (auth.Auth? && auth.whitelist != [] ==> at.emailWhitelist)
          && (spec.tlsServerName != "" ==> at.tlsServerName == spec.tlsServerName)
          && (spec.hostHeader != "" ==> at.hostHeader == spec.hostHeader)
          && (auth.Auth? && auth.sso && auth.autoLoginIdp != 0 ==> at.skipToIdp == auth.autoLoginIdp))
  }

  lemma SettingsMean(row: ResourceRow, spec: Spec)
    ensures Apply(row, SettingsRequest(spec)) == row <==> SettingsServed(row, spec)
  {
  }

  // ---- A realised spec ----

  /** The tracked resource is live with the settings of the spec, and the tracked children are live with
      the contents that it lists, in order. */
  ghost predicate InService(s: State) {
    var st, spec, live := s.stored.status, s.stored.spec, s.remote.resources.live;
    && st.resourceID != 0 && st.resourceID in live && SettingsServed(live[st.resourceID], spec)
    && TargetsServed(s, st.resourceID, st.targets.ids, spec.targets)
    && RulesServed(s, st.resourceID, st.rules.ids, spec.rules)
  }

  lemma RealisedIsServed(s: State)
    ensures SpecRealised(s) <==> InService(s)
  {
    var st, spec, live := s.stored.status, s.stored.spec, s.remote.resources.live;
    if st.resourceID in live { SettingsMean(live[st.resourceID], spec); }
    ChildrenMean(s, st.resourceID, st.targets.ids, spec.targets, []);
    ChildrenMean(s, st.resourceID, st.rules.ids, [], spec.rules);
    hide SettingsRequest, Apply, SettingsServed, Realised, TargetsServed, RulesServed;
  }

  /** So Ready is honest about what is there: in every run in which edits during an activation ask for
      nothing new, a Ready condition that is true of the current generation means that the spec is served. */
  lemma ReadyMeansServed(trace: seq<State>, steps: seq<Step>, t: State)
    requires IsRun(trace, steps) && t in trace && Init(trace[0]) && TameSteps(steps, trace[0].stored.spec)
    requires NoCleanup(trace, steps) && GentleSteps(trace, steps)
    requires var c := t.stored.status.condition; c.Condition? && c.holds && c.generation == t.stored.generation
    ensures InService(t)
  {
    ReadyConditionIsHonest(trace, steps, t);
    RealisedIsServed(t);
    hide IsRun, Init, TameSteps, NoCleanup, GentleSteps, SpecRealised, InService;
  }

  /** And one undisturbed activation after any run serves it. */
  lemma EveryRunServes(trace: seq<State>, steps: seq<Step>, s: State, script: seq<Event>)
    requires IsRun(trace, steps) && s in trace && Init(trace[0]) && TameSteps(steps, trace[0].stored.spec)
    requires NoCleanup(trace, steps) && GentleSteps(trace, steps) && !s.stored.deleting
    requires s.site == SiteReady && Resolvable(s) && Smooth(script) && |script| >= Budget(s)
    ensures var t := Reconcile(s, script); MarkedReady(t.stored) && t.stored.spec == s.stored.spec && InService(t)
  {
    hide IsRun, Init, TameSteps, NoCleanup, GentleSteps, Reconcile, Smooth, SpecRealised, InService, Resolvable, Live;
    InitKeeps(trace[0]);
    var k :| 0 <= k < |trace| && trace[k] == s;
    RunLive(trace, steps, k);
    Converges(s, script);
    RealisedIsServed(Reconcile(s, script));
  }
}
