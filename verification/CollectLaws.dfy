/** What collecting leaves in the state, in which order the jobs are considered, and when a plan is made, told from
    the answers and the state before. */
module CollectLaws {
  import opened Outcomes
  import opened Sequences
  import opened CloudTools
  import opened Priorities
  import opened Lifecycle
  import opened LifecycleInvariant
  import opened NodeLaws
  import opened NodeActionLaws
  import opened RunLaws

  // ----- priorities -----

  /** Entry e is the one for job i: the job is the n-th with its number, and so is the entry. */
  predicate IsEntryOf(jobs: seq<Job>, entries: seq<Entry>, i: nat, e: nat)
    requires i < |jobs|
  {
    && e < |entries| && entries[e].id == jobs[i].id
    && CountEntries(entries[..e], jobs[i].id) == CountJobs(jobs[..i], jobs[i].id)
  }

  /** The job has the priority of its entry, or its default if there is none. */
  ghost predicate CarriesPriority(jobs: seq<Job>, entries: seq<Entry>, i: nat, out: Job)
    requires i < |jobs|
  {
    || (exists e: nat :: IsEntryOf(jobs, entries, i, e) && out == jobs[i].(priority := entries[e].priority))
    || ((forall e: nat :: !IsEntryOf(jobs, entries, i, e)) && out == jobs[i])
  }

  /** The jobs in the order in which they are to be considered: each with the priority of its entry, higher
      priorities first, and jobs of one priority by number. */
  ghost predicate IsPrioritised(jobs: seq<Job>, entries: seq<Entry>, out: seq<Job>) {
    && (exists matched: seq<Job> :: IsMatched(jobs, entries, matched) && multiset(out) == multiset(matched))
    && forall i, j :: 0 <= i < j < |out| ==>
         out[i].priority > out[j].priority || (out[i].priority == out[j].priority && out[i].id <= out[j].id)
  }

  ghost predicate IsMatched(jobs: seq<Job>, entries: seq<Entry>, matched: seq<Job>) {
    |matched| == |jobs| && forall i: nat :: i < |jobs| ==> CarriesPriority(jobs, entries, i, matched[i])
  }

  /** The lookup finds the k-th entry of the number. */
  lemma {:induction false} NthIsEntry(entries: seq<Entry>, id: int, k: nat, n: nat)
    requires n <= |entries| && CountEntries(entries[..n], id) <= k
    ensures match Nth(entries[n..], id, k - CountEntries(entries[..n], id))
            case None =>
              forall e: nat :: n <= e < |entries| && entries[e].id == id ==> CountEntries(entries[..e], id) != k
            case Some(p) => exists e: nat :: n <= e < |entries| && entries[e].id == id
                                             && CountEntries(entries[..e], id) == k && p == entries[e].priority
    decreases |entries| - n
  {
    if n < |entries| {
      EntryStep(entries, n, id);
      assert entries[n..][1..] == entries[n + 1..] && entries[n..][0] == entries[n];
      if entries[n].id == id && CountEntries(entries[..n], id) == k {
        assert Nth(entries[n..], id, 0) == Some(entries[n].priority);
      } else {
        NthIsEntry(entries, id, k, n + 1);
      }
    }
  }

  lemma LookedCarries(jobs: seq<Job>, entries: seq<Entry>, i: nat)
    requires i < |jobs|
    ensures CarriesPriority(jobs, entries, i, Looked(jobs, entries, i))
  {
    var id, k := jobs[i].id, CountJobs(jobs[..i], jobs[i].id);
    NthIsEntry(entries, id, k, 0);
    assert entries[..0] == [] && entries[0..] == entries;
    match Nth(entries, id, k)
    case None =>
      forall e: nat
        ensures !IsEntryOf(jobs, entries, i, e)
      {
      }
    case Some(p) =>
      var e: nat :| e < |entries| && entries[e].id == id && CountEntries(entries[..e], id) == k
                    && p == entries[e].priority;
      assert IsEntryOf(jobs, entries, i, e);
  }

  lemma {:induction false} WithKeyHas(s: seq<Job>, p: int, j: nat)
    requires j < |s| && LowerPriority(s[j]) == p
    ensures s[j] in WithKey(s, LowerPriority, p)
  {
    if j > 0 {
      WithKeyHas(s[1..], p, j - 1);
    }
  }

  /** If the jobs of one priority are in number order, any two of them are. */
  lemma {:induction false} TiesInOrder(s: seq<Job>, p: int, i: nat, j: nat)
    requires i < j < |s| && LowerPriority(s[i]) == p == LowerPriority(s[j])
    requires Sorted(WithKey(s, LowerPriority, p), JobId)
    ensures s[i].id <= s[j].id
  {
    var rest := WithKey(s[1..], LowerPriority, p);
    var head := if LowerPriority(s[0]) == p then [s[0]] else [];
    assert WithKey(s, LowerPriority, p) == head + rest;
    if i == 0 {
      WithKeyHas(s[1..], p, j - 1);
      var k :| 0 <= k < |rest| && rest[k] == s[j];
      assert JobId((head + rest)[0]) <= JobId((head + rest)[k + 1]);
    } else {
      forall a, b | 0 <= a < b < |rest|
        ensures JobId(rest[a]) <= JobId(rest[b])
      {
        assert JobId((head + rest)[a + |head|]) <= JobId((head + rest)[b + |head|]);
      }
      TiesInOrder(s[1..], p, i - 1, j - 1);
    }
  }

  lemma PrioritisedIs(jobs: seq<Job>, entries: seq<Entry>)
    requires Sorted(jobs, JobId)
    ensures IsPrioritised(jobs, entries, Prioritised(jobs, entries))
  {
    var matched, out := Assigned(jobs, entries), Prioritised(jobs, entries);
    forall i: nat | i < |jobs|
      ensures CarriesPriority(jobs, entries, i, matched[i])
    {
      LookedCarries(jobs, entries, i);
    }
    PriorityOrder(jobs, entries, 0);
    assert IsMatched(jobs, entries, matched) && multiset(out) == multiset(matched);
    forall i, j | 0 <= i < j < |out|
      ensures out[i].priority > out[j].priority || (out[i].priority == out[j].priority && out[i].id <= out[j].id)
    {
      if out[i].priority == out[j].priority {
        PriorityOrder(jobs, entries, LowerPriority(out[i]));
        TiesInOrder(out, LowerPriority(out[i]), i, j);
      }
    }
  }

  // ----- collecting -----

  /** What the answers leave in the state, whatever is done then: the jobs in order when qstat and Maui answer, as
      qstat lists them when Maui does not, and the nodes. */
  ghost predicate HoldsAnswers(st: State, s: State, q: Query) {
    && (if q.jobsUp && q.mauiUp then IsPrioritised(q.idle, q.priorities, s.idle) else s.idle == q.idle)
    && s.running == q.running && s.workerNodes == (if q.jobsUp then q.nodes else st.workerNodes)
  }

  lemma QueriedHolds(st: State, q: Query)
    requires Sorted(q.idle, JobId)
    ensures HoldsAnswers(st, Queried(st, q), q)
    ensures var s := Queried(st, q);
            s == st.(idle := s.idle, running := s.running, workerNodes := s.workerNodes)
  {
    PrioritisedIs(q.idle, q.priorities);
  }

  /** Checking the nodes leaves the answers, the requests and the starting VMs alone, and cannot raise the flag. */
  ghost predicate KeepsAnswers(a: State, b: State) {
    && b.idle == a.idle && b.running == a.running && b.workerNodes == a.workerNodes && b.waiting == a.waiting
    && b.starting == a.starting && b.sleeping == a.sleeping && b.deficit == a.deficit
    && (b.provisioning ==> a.provisioning)
  }

  lemma NodeKeepsAnswers(cfg: Config, st: State, wn: WorkerNode, reps: NodeReports)
    ensures KeepsAnswers(st, CheckNode(cfg, st, wn, reps))
  {
    NodeStepExactly(cfg, st, wn, reps);
  }

  lemma {:induction false} NodesKeepAnswers(cfg: Config, states: seq<State>, nodes: seq<WorkerNode>, reps: NodeReports,
                                            n: nat)
    requires |states| == |nodes| + 1 && n <= |nodes|
    requires forall k: nat | k < |nodes| :: NodeAt(cfg, states, nodes, reps, k)
    ensures KeepsAnswers(states[0], states[n])
  {
    if n > 0 {
      NodesKeepAnswers(cfg, states, nodes, reps, n - 1);
      assert NodeAt(cfg, states, nodes, reps, n - 1);
      NodeKeepsAnswers(cfg, states[n - 1], nodes[n - 1], reps);
    }
  }

  lemma CheckKeepsAnswers(cfg: Config, st: State, reps: NodeReports)
    ensures KeepsAnswers(st, CheckExisting(cfg, st, reps))
  {
    var states := NodeStates(cfg, st, reps, 0);
    NodesKeepAnswers(cfg, states, st.workerNodes, reps, |st.workerNodes|);
  }

  /** The controller goes on to check the nodes only if all queries succeed, it does not sleep, and the flag is
      down. */
  predicate GoesOn(st: State, q: Query) {
    q.jobsUp && q.mauiUp && q.nodesUp && !st.sleeping && !st.provisioning
  }

  /** A plan is made exactly if the controller goes on, some resource has fewer dynamic VMs on the books than its
      quota once the nodes are checked, and some job is idle; it is made for the jobs in order. */
  lemma PlansExactlyWhen(cfg: Config, st: State, q: Query, reps: NodeReports)
    requires ConfigOk(cfg) && Inv(cfg, st) && Sorted(q.idle, JobId)
    ensures var t := CheckExisting(cfg, Queried(st, q), reps);
            PlanningState(cfg, st, q, reps)
            == if GoesOn(st, q) && q.idle != [] && (exists r :: r in cfg.quota && |DynamicVms(t, r)| < cfg.quota[r])
               then Some(t) else None
    ensures PlanningState(cfg, st, q, reps).Some? ==>
              HoldsAnswers(st, PlanningState(cfg, st, q, reps).value, q)
  {
    QueriedHolds(st, q);
    if GoesOn(st, q) {
      var s := Queried(st, q);
      var t := CheckExisting(cfg, s, reps);
      CheckKeepsAnswers(cfg, s, reps);
      CheckedQueryKeeps(cfg, st, q, reps);
      PriorityOrder(q.idle, q.priorities, 0);
      SortLength(Assigned(q.idle, q.priorities), LowerPriority);
      forall r | r in cfg.quota
        ensures t.avail[r] == cfg.quota[r] - |DynamicVms(t, r)|
      {
        UsedOnBooks(cfg, t, r);
      }
      assert t.avail.Keys == cfg.quota.Keys;
    }
  }

  /** If the controller does not go on, it only takes the answers over. */
  lemma OnlyLooks(cfg: Config, st: State, q: Query, reps: NodeReports, plan: seq<ProvisionVM>)
    requires Sorted(q.idle, JobId) && !GoesOn(st, q)
    ensures var s := Collect(cfg, st, q, reps, plan);
            HoldsAnswers(st, s, q) && s == st.(idle := s.idle, running := s.running, workerNodes := s.workerNodes)
  {
    QueriedHolds(st, q);
  }

  /** If it does, it checks the nodes, and what it asks for is the plan, if one is made; then the flag goes up. */
  lemma AsksForPlan(cfg: Config, st: State, q: Query, reps: NodeReports, plan: seq<ProvisionVM>)
    requires Sorted(q.idle, JobId) && GoesOn(st, q)
    ensures var s, made := Collect(cfg, st, q, reps, plan), PlanningState(cfg, st, q, reps).Some?;
            && HoldsAnswers(st, s, q)
            && s.waiting == st.waiting + (if made then plan else [])
            && s.provisioning == (made && plan != [])
            && s == CheckExisting(cfg, Queried(st, q), reps).(waiting := s.waiting, provisioning := s.provisioning)
  {
    QueriedHolds(st, q);
    CheckKeepsAnswers(cfg, Queried(st, q), reps);
    assert st.waiting + [] == st.waiting;
  }

  /** Whatever is done, the state holds the answers. */
  lemma CollectHolds(cfg: Config, st: State, q: Query, reps: NodeReports, plan: seq<ProvisionVM>)
    requires Sorted(q.idle, JobId)
    ensures HoldsAnswers(st, Collect(cfg, st, q, reps, plan), q)
  {
    if GoesOn(st, q) {
      AsksForPlan(cfg, st, q, reps, plan);
    } else {
      OnlyLooks(cfg, st, q, reps, plan);
    }
  }
}
