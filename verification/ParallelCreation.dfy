/** The parallel creation of children with one thread for each: the server takes the requests in any
    order, and in any order later the threads take the lock and record their answers. Whatever the
    schedule, what is recorded in the end is what PublicResource.CreateChildren says. */
module ParallelCreation {
  import opened Shared
  import opened Server
  import opened PublicResource
  import opened PublicSafety
  import opened PublicChildren

  /** A thread waits for its answer, holds it until it gets the lock, and is done. */
  datatype Job = Waiting | Answered(id: nat, failed: bool, kinds: set<ErrKind>) | Done

  datatype Pool = Pool(s: State, pending: seq<nat>, jobs: seq<Job>, ids: seq<nat>, failed: bool, kinds: set<ErrKind>)

  /** The server answers the request that the script picks, or thread i records its answer. */
  datatype Action = Serve | Record(i: nat)

  ghost predicate Sane(p: Pool, specs: seq<ChildSpec>) {
    && |p.jobs| == |p.ids| == |specs|
    && (forall j :: 0 <= j < |p.pending| ==> p.pending[j] < |specs| && p.jobs[p.pending[j]].Waiting?)
    && (forall j, k :: 0 <= j < k < |p.pending| ==> p.pending[j] != p.pending[k])
    && (forall i :: 0 <= i < |p.jobs| && p.jobs[i].Waiting? ==> i in p.pending)
  }

  predicate Enabled(p: Pool, a: Action) {
    match a
    case Serve => p.pending != [] && !Halted(p.s)
    case Record(i) => i < |p.jobs| && p.jobs[i].Answered?
  }

  function Next(p: Pool): (c: nat)
    requires p.pending != [] && !Halted(p.s)
    ensures c < |p.pending|
  {
    Chosen(p.pending, p.s.script[0].pick)
  }

  /** An action of a thread that is not ready does nothing. */
  function Act(p: Pool, kind: Kind, resource: nat, specs: seq<ChildSpec>, a: Action): Pool
    requires Sane(p, specs)
  {
    if !Enabled(p, a) then p else
    match a
    case Serve =>
      var c := Next(p);
      var i := p.pending[c];
      var one := ServeOne(Batch(p.s, Zeros(|specs|), false, {}), kind, resource, specs, i);
      p.(s := one.s, pending := p.pending[..c] + p.pending[c + 1..],
         jobs := p.jobs[i := Answered(one.ids[i], one.failed, one.kinds)])
    case Record(i) =>
      var job := p.jobs[i];
      p.(jobs := p.jobs[i := Done], ids := if job.failed then p.ids else p.ids[i := job.id],
         failed := p.failed || job.failed, kinds := p.kinds + job.kinds)
  }

  lemma ActSane(p: Pool, kind: Kind, resource: nat, specs: seq<ChildSpec>, a: Action)
    requires Sane(p, specs)
    ensures Sane(Act(p, kind, resource, specs, a), specs)
  {
    hide ServeOne;
    if Enabled(p, a) && a.Serve? {
      OneLess(p.pending, Next(p));
    }
  }

  lemma OneLess(pending: seq<nat>, c: nat)
    requires c < |pending| && forall j, k :: 0 <= j < k < |pending| ==> pending[j] != pending[k]
    ensures var rest := pending[..c] + pending[c + 1..];
      && (forall i: nat :: i in rest <==> i in pending && i != pending[c])
      && (forall j, k :: 0 <= j < k < |rest| ==> rest[j] != rest[k])
  {
    var rest := pending[..c] + pending[c + 1..];
    assert forall j :: 0 <= j < |rest| ==> rest[j] == pending[if j < c then j else j + 1];
    forall i | i in pending && i != pending[c] ensures i in rest {
      var k :| 0 <= k < |pending| && pending[k] == i;
      assert rest[if k < c then k else k - 1] == i;
    }
  }

  function Play(p: Pool, kind: Kind, resource: nat, specs: seq<ChildSpec>, actions: seq<Action>): Pool
    requires Sane(p, specs)
    decreases |actions|
  {
    if actions == [] then p else
    ActSane(p, kind, resource, specs, actions[0]);
    Play(Act(p, kind, resource, specs, actions[0]), kind, resource, specs, actions[1..])
  }

  // ---- What has been decided, whether or not it is recorded ----

  function Slot(p: Pool, i: nat): nat
    requires |p.jobs| == |p.ids| && i < |p.jobs|
  {
    if p.jobs[i].Answered? && !p.jobs[i].failed then p.jobs[i].id else p.ids[i]
  }

  ghost function Kinds(p: Pool): set<ErrKind> {
    p.kinds + set i, k | 0 <= i < |p.jobs| && p.jobs[i].Answered? && k in p.jobs[i].kinds :: k
  }

  ghost predicate Failing(p: Pool) {
    p.failed || exists i :: 0 <= i < |p.jobs| && p.jobs[i].Answered? && p.jobs[i].failed
  }

  /** The batch as it would be if all held answers were recorded now. */
  ghost function Settled(p: Pool): (b: Batch)
    requires |p.jobs| == |p.ids|
    ensures |b.ids| == |p.ids|
  {
    Batch(p.s, seq(|p.ids|, i requires 0 <= i < |p.ids| => Slot(p, i)), Failing(p), Kinds(p))
  }

  /** Taking the lock changes nothing that was not decided already. */
  lemma RecordSettles(p: Pool, kind: Kind, resource: nat, specs: seq<ChildSpec>, i: nat)
    requires Sane(p, specs)
    ensures Settled(Act(p, kind, resource, specs, Record(i))) == Settled(p)
  {
    var q := Act(p, kind, resource, specs, Record(i));
    if q != p {
      var job := p.jobs[i];
      assert forall k :: 0 <= k < |p.ids| ==> Slot(q, k) == Slot(p, k);
      SameKinds(p, q, i);
      if Failing(p) && !p.failed {
        var k :| 0 <= k < |p.jobs| && p.jobs[k].Answered? && p.jobs[k].failed;
        assert k == i || q.jobs[k] == p.jobs[k];
      }
      if Failing(q) && !q.failed {
        var k :| 0 <= k < |q.jobs| && q.jobs[k].Answered? && q.jobs[k].failed;
        assert p.jobs[k] == q.jobs[k];
      }
    }
  }

  lemma SameKinds(p: Pool, q: Pool, i: nat)
    requires i < |p.jobs| && p.jobs[i].Answered? && q.jobs == p.jobs[i := Done] && q.kinds == p.kinds + p.jobs[i].kinds
    ensures Kinds(q) == Kinds(p)
  {
    forall k | k in Kinds(p) ensures k in Kinds(q) {
      if k !in q.kinds {
        var j :| 0 <= j < |p.jobs| && p.jobs[j].Answered? && k in p.jobs[j].kinds;
        assert q.jobs[j] == p.jobs[j];
      }
    }
    forall k | k in Kinds(q) ensures k in Kinds(p) {
      if k !in p.kinds && k in q.kinds {
        assert p.jobs[i].Answered? && k in p.jobs[i].kinds;
      } else if k !in p.kinds {
        var j :| 0 <= j < |q.jobs| && q.jobs[j].Answered? && k in q.jobs[j].kinds;
        assert p.jobs[j] == q.jobs[j];
      }
    }
  }

  lemma ServeOneSplits(b: Batch, kind: Kind, resource: nat, specs: seq<ChildSpec>, i: nat)
    requires |b.ids| == |specs| && i < |specs| && !Halted(b.s)
    ensures var one := ServeOne(Batch(b.s, Zeros(|specs|), false, {}), kind, resource, specs, i);
      ServeOne(b, kind, resource, specs, i) ==
        Batch(one.s, if one.failed then b.ids else b.ids[i := one.ids[i]], b.failed || one.failed, b.kinds + one.kinds)
  {
    hide Advance, Row;
  }

  /** The server's answer decides the slot at once. */
  lemma ServeSettles(p: Pool, kind: Kind, resource: nat, specs: seq<ChildSpec>)
    requires Sane(p, specs) && Enabled(p, Serve)
    ensures Settled(Act(p, kind, resource, specs, Serve)) == ServeOne(Settled(p), kind, resource, specs, p.pending[Next(p)])
  {
    hide ServeOne, Chosen;
    var i := p.pending[Next(p)];
    ServeOneSplits(Settled(p), kind, resource, specs, i);
    var one := ServeOne(Batch(p.s, Zeros(|specs|), false, {}), kind, resource, specs, i);
    var q := Act(p, kind, resource, specs, Serve);
    assert p.jobs[i].Waiting? && q.jobs == p.jobs[i := Answered(one.ids[i], one.failed, one.kinds)];
    assert forall k :: 0 <= k < |p.ids| && k != i ==> Slot(q, k) == Slot(p, k);
    var wanted := if one.failed then Settled(p).ids else Settled(p).ids[i := one.ids[i]];
    assert Settled(q).ids == wanted;
    AnsweredKinds(p, q, i, one.kinds);
    AnsweredFailing(p, q, i, one.failed);
  }

  lemma AnsweredKinds(p: Pool, q: Pool, i: nat, kinds: set<ErrKind>)
    requires i < |p.jobs| && p.jobs[i].Waiting? && q.kinds == p.kinds
    requires |q.jobs| == |p.jobs| && q.jobs[i].Answered? && q.jobs[i].kinds == kinds && q.jobs == p.jobs[i := q.jobs[i]]
    ensures Kinds(q) == Kinds(p) + kinds
  {
    forall k | k in Kinds(p) + kinds ensures k in Kinds(q) {
      if k in kinds { assert q.jobs[i].Answered? && k in q.jobs[i].kinds; }
      else if k !in p.kinds {
        var j :| 0 <= j < |p.jobs| && p.jobs[j].Answered? && k in p.jobs[j].kinds;
        assert q.jobs[j] == p.jobs[j];
      }
    }
  }

  lemma AnsweredFailing(p: Pool, q: Pool, i: nat, failed: bool)
    requires i < |p.jobs| && p.jobs[i].Waiting? && q.failed == p.failed
    requires |q.jobs| == |p.jobs| && q.jobs[i].Answered? && q.jobs[i].failed == failed && q.jobs == p.jobs[i := q.jobs[i]]
    ensures Failing(q) == (Failing(p) || failed)
  {
    if Failing(p) && !p.failed {
      var j :| 0 <= j < |p.jobs| && p.jobs[j].Answered? && p.jobs[j].failed;
      assert q.jobs[j] == p.jobs[j];
    }
  }

  /** In every schedule, finished or not, what is decided and what is still to come add up to the
      same batch. */
  lemma {:induction false} ScheduleAgrees(p: Pool, kind: Kind, resource: nat, specs: seq<ChildSpec>, actions: seq<Action>)
    requires Sane(p, specs)
    ensures var q := Play(p, kind, resource, specs, actions);
      && Sane(q, specs)
      && ServeAll(Settled(q), kind, resource, specs, q.pending) == ServeAll(Settled(p), kind, resource, specs, p.pending)
    decreases |actions|
  {
    hide ServeOne, Settled;
    if actions != [] {
      var q := Act(p, kind, resource, specs, actions[0]);
      ActSane(p, kind, resource, specs, actions[0]);
      ScheduleAgrees(q, kind, resource, specs, actions[1..]);
      if Enabled(p, actions[0]) {
        match actions[0]
        case Serve => StepOfServeAll(p, kind, resource, specs);
        case Record(i) => RecordSettles(p, kind, resource, specs, i);
      }
    }
  }

  lemma StepOfServeAll(p: Pool, kind: Kind, resource: nat, specs: seq<ChildSpec>)
    requires Sane(p, specs) && Enabled(p, Serve)
    ensures var q := Act(p, kind, resource, specs, Serve);
      && (forall j :: 0 <= j < |q.pending| ==> q.pending[j] < |specs|) && |Settled(q).ids| == |specs|
      && ServeAll(Settled(q), kind, resource, specs, q.pending) == ServeAll(Settled(p), kind, resource, specs, p.pending)
  {
    hide ServeOne;
    ActSane(p, kind, resource, specs, Serve);
    ServeSettles(p, kind, resource, specs);
  }

  lemma IndicesCover(n: nat)
    ensures forall i :: 0 <= i < n ==> i in Indices(n)
  {
    forall i | 0 <= i < n ensures i in Indices(n) {
      assert Indices(n)[i] == i;
    }
  }

  function Started(s: State, specs: seq<ChildSpec>): (p: Pool)
    ensures Sane(p, specs)
  {
    IndicesCover(|specs|);
    Pool(s, Indices(|specs|), seq(|specs|, _ => Waiting), Zeros(|specs|), false, {})
  }

  /** When the last thread is done, the caller returns this. */
  function Returned(p: Pool): seq<nat> {
    if p.failed then NonZero(p.ids) else p.ids
  }

  ghost predicate AllDone(p: Pool) {
    forall i :: 0 <= i < |p.jobs| ==> p.jobs[i].Done?
  }

  /** Every schedule in which all threads finish returns the same list, in item order, with the same
      errors, and leaves the server the same. */
  lemma AnySchedule(s: State, kind: Kind, resource: nat, specs: seq<ChildSpec>, actions: seq<Action>)
    requires AllDone(Play(Started(s, specs), kind, resource, specs, actions))
    ensures var q := Play(Started(s, specs), kind, resource, specs, actions);
      Batch(q.s, Returned(q), q.failed, q.kinds) == CreateChildren(s, kind, resource, specs)
  {
    hide ServeAll, Play, NonZero;
    var p := Started(s, specs);
    var q := Play(p, kind, resource, specs, actions);
    ScheduleAgrees(p, kind, resource, specs, actions);
    assert Settled(p) == Batch(s, Zeros(|specs|), false, {}) by {
      assert Kinds(p) == {};
      assert Settled(p).ids == Zeros(|specs|);
    }
    DoneSettles(q);
    PendingWait(q, specs);
    ServedAll(Settled(q), kind, resource, specs);
  }

  lemma PendingWait(q: Pool, specs: seq<ChildSpec>)
    requires Sane(q, specs)
    ensures q.pending != [] ==> exists i :: 0 <= i < |q.jobs| && q.jobs[i].Waiting?
  {
    if q.pending != [] {
      assert q.jobs[q.pending[0]].Waiting?;
    }
  }

  lemma DoneSettles(q: Pool)
    requires AllDone(q) && |q.jobs| == |q.ids|
    ensures Settled(q) == Batch(q.s, q.ids, q.failed, q.kinds)
  {
    assert Kinds(q) == q.kinds;
    assert Settled(q).ids == q.ids;
  }

  lemma ServedAll(b: Batch, kind: Kind, resource: nat, specs: seq<ChildSpec>)
    requires |b.ids| == |specs|
    ensures ServeAll(b, kind, resource, specs, []) == b
  {
  }

  // ---- The order of the rules ----

  function PriorityOf(s: State, id: nat): nat
    requires id in s.remote.rules.live && s.remote.rules.live[id].content.Rule?
  {
    s.remote.rules.live[id].content.priority
  }

  ghost predicate AreRules(s: State, ids: seq<nat>) {
    forall k :: 0 <= k < |ids| ==> ids[k] in s.remote.rules.live && s.remote.rules.live[ids[k]].content.Rule?
  }

  ghost predicate Sorted(s: State, ids: seq<nat>)
    requires AreRules(s, ids)
  {
    forall j, k :: 0 <= j < k < |ids| ==> PriorityOf(s, ids[j]) <= PriorityOf(s, ids[k])
  }

  /** Rules without an explicit priority: however they were created, the server's order by priority
      is the order in the spec. */
  lemma RulesKeepTheirOrder(s: State, resource: nat, specs: seq<RuleSpec>, ids: seq<nat>, sorted: seq<nat>)
    requires Realised(s, Rules, resource, specs, ids) && |ids| == |specs|
    requires forall i :: 0 <= i < |specs| ==> specs[i].priority == 0
    requires multiset(sorted) == multiset(ids) && AreRules(s, sorted) && Sorted(s, sorted)
    ensures sorted == ids
  {
    PrioritiesClimb(s, resource, specs, ids);
    var rules := s.remote.rules.live;
    SortedOnce(map id | id in rules && rules[id].content.Rule? :: rules[id].content.priority, ids, sorted);
  }

  lemma PrioritiesClimb(s: State, resource: nat, specs: seq<RuleSpec>, ids: seq<nat>)
    requires Realised(s, Rules, resource, specs, ids) && |ids| == |specs|
    requires forall i :: 0 <= i < |specs| ==> specs[i].priority == 0
    ensures AreRules(s, ids) && forall i :: 0 <= i < |ids| ==> PriorityOf(s, ids[i]) == (i + 1) * 10
  {
    forall i | 0 <= i < |ids| ensures ids[i] in s.remote.rules.live && s.remote.rules.live[ids[i]].content.Rule?
                               && s.remote.rules.live[ids[i]].content.priority == (i + 1) * 10 {
      assert s.remote.rules.live[ids[i]] == Row(s, Rules, resource, specs[i], i);
    }
  }

  ghost predicate Climbs(rank: map<nat, int>, ids: seq<nat>, strictly: bool) {
    && (forall k :: 0 <= k < |ids| ==> ids[k] in rank)
    && (forall j, k :: 0 <= j < k < |ids| ==> rank[ids[j]] < rank[ids[k]] || (!strictly && rank[ids[j]] == rank[ids[k]]))
  }

  /** There is only one way to sort items whose ranks are all different. */
  lemma {:induction false} SortedOnce(rank: map<nat, int>, ids: seq<nat>, sorted: seq<nat>)
    requires multiset(sorted) == multiset(ids)
    requires Climbs(rank, ids, true) && Climbs(rank, sorted, false)
    ensures sorted == ids
    decreases |ids|
  {
    hide Climbs;
    SameLength(ids, sorted);
    if ids != [] {
      var n := |ids| - 1;
      SameLast(rank, ids, sorted, n);
      DropLast(ids, n);
      DropLast(sorted, n);
      ClimbsPrefix(rank, ids, n, true);
      ClimbsPrefix(rank, sorted, n, false);
      SortedOnce(rank, ids[..n], sorted[..n]);
      SameFront(ids, sorted, n);
    }
  }

  lemma SameFront(ids: seq<nat>, sorted: seq<nat>, n: nat)
    requires |ids| == |sorted| == n + 1 && ids[..n] == sorted[..n] && ids[n] == sorted[n]
    ensures ids == sorted
  {
    assert ids == ids[..n] + [ids[n]] && sorted == sorted[..n] + [sorted[n]];
  }

  lemma SameLength(ids: seq<nat>, sorted: seq<nat>)
    requires multiset(sorted) == multiset(ids)
    ensures |sorted| == |ids|
  {
    assert |multiset(sorted)| == |sorted| && |multiset(ids)| == |ids|;
  }

  lemma ClimbsPrefix(rank: map<nat, int>, ids: seq<nat>, n: nat, strictly: bool)
    requires Climbs(rank, ids, strictly) && n <= |ids|
    ensures Climbs(rank, ids[..n], strictly)
  {
  }

  lemma DropLast(ids: seq<nat>, n: nat)
    requires |ids| == n + 1
    ensures multiset(ids[..n]) == multiset(ids) - multiset{ids[n]}
  {
    assert ids == ids[..n] + [ids[n]];
  }

  lemma SameLast(rank: map<nat, int>, ids: seq<nat>, sorted: seq<nat>, n: nat)
    requires |ids| == |sorted| == n + 1 && multiset(sorted) == multiset(ids)
    requires Climbs(rank, ids, true) && Climbs(rank, sorted, false)
    ensures sorted[n] == ids[n]
  {
    assert ids[n] in multiset(sorted) && sorted[n] in multiset(ids);
    var k :| 0 <= k < |sorted| && sorted[k] == ids[n];
    var j :| 0 <= j < |ids| && ids[j] == sorted[n];
    assert rank[ids[n]] <= rank[sorted[n]];
  }

  /** The automatic priorities stay within the API's range exactly for up to a hundred rules. */
  lemma PrioritiesInRange(s: State, resource: nat, specs: seq<RuleSpec>, ids: seq<nat>)
    requires Realised(s, Rules, resource, specs, ids) && |ids| == |specs|
    requires forall i :: 0 <= i < |specs| ==> specs[i].priority == 0
    ensures AreRules(s, ids)
    ensures (forall i :: 0 <= i < |ids| ==> 1 <= PriorityOf(s, ids[i]) <= 1000) <==> |specs| <= 100
  {
    PrioritiesClimb(s, resource, specs, ids);
    if |specs| > 100 {
      assert PriorityOf(s, ids[100]) == 1010;
    }
  }
}
