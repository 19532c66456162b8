/** `prioritise_jobs` of res_management.py: a two-index join of the idle jobs with Maui's priorities, both
    ordered by job number, followed by a stable sort on priority. */
module Priorities {
  import opened Outcomes
  import opened Sequences

  /** A queued job: its number, its qstat attributes, and its priority. Unmatched jobs keep priority -1: the
      original stores that default under another key than the one it reads. */
  datatype Job = Job(id: int, attrs: map<string, string>, priority: int)

  datatype Entry = Entry(id: int, priority: int)

  function JobId(j: Job): int { j.id }

  function LowerPriority(j: Job): int { -j.priority }

  function EntryId(e: Entry): int { e.id }

  // ----- what the join means -----

  function CountJobs(jobs: seq<Job>, id: int): nat {
    if jobs == [] then 0
    else CountJobs(jobs[..|jobs| - 1], id) + if jobs[|jobs| - 1].id == id then 1 else 0
  }

  function CountEntries(entries: seq<Entry>, id: int): nat {
    if entries == [] then 0
    else CountEntries(entries[..|entries| - 1], id) + if entries[|entries| - 1].id == id then 1 else 0
  }

  /** The priority of the k-th entry with the given number. */
  function Nth(entries: seq<Entry>, id: int, k: nat): Option<int> {
    if entries == [] then None
    else if entries[0].id != id then Nth(entries[1..], id, k)
    else if k == 0 then Some(entries[0].priority)
    else Nth(entries[1..], id, k - 1)
  }

  /** The job at index i with its looked-up priority: the n-th job with a number takes the n-th entry with it. */
  function Looked(jobs: seq<Job>, entries: seq<Entry>, i: nat): Job
    requires i < |jobs|
  {
    var p := Nth(entries, jobs[i].id, CountJobs(jobs[..i], jobs[i].id));
    if p.Some? then jobs[i].(priority := p.value) else jobs[i]
  }

  function Assigned(jobs: seq<Job>, entries: seq<Entry>): seq<Job> {
    seq(|jobs|, i requires 0 <= i < |jobs| => Looked(jobs, entries, i))
  }

  function Prioritised(jobs: seq<Job>, entries: seq<Entry>): seq<Job> {
    Sort(Assigned(jobs, entries), LowerPriority)
  }

  // ----- counting in ordered lists -----

  lemma {:induction false} NthAfter(entries: seq<Entry>, i: nat, k: nat, id: int)
    requires i <= |entries|
    ensures Nth(entries, id, CountEntries(entries[..i], id) + k) == Nth(entries[i..], id, k)
  {
    if i > 0 {
      assert entries[..i][..i - 1] == entries[..i - 1];
      var e := entries[i - 1];
      var more := if e.id == id then 1 else 0;
      NthAfter(entries, i - 1, k + more, id);
      assert entries[i - 1..][1..] == entries[i..];
    } else {
      assert entries[0..] == entries;
    }
  }

  lemma {:induction false} NthNone(entries: seq<Entry>, id: int, k: nat)
    requires k >= CountEntries(entries, id)
    ensures Nth(entries, id, k) == None
  {
    NthAfter(entries, |entries|, k - CountEntries(entries, id), id);
    assert entries[..|entries|] == entries;
  }

  lemma {:induction false} CountSplits(entries: seq<Entry>, i: nat, id: int)
    requires i <= |entries|
    requires forall j :: i <= j < |entries| ==> entries[j].id != id
    ensures CountEntries(entries, id) == CountEntries(entries[..i], id)
    decreases |entries| - i
  {
    if i < |entries| {
      CountSplits(entries, i + 1, id);
      assert entries[..i + 1][..i] == entries[..i];
    } else {
      assert entries[..i] == entries;
    }
  }

  lemma {:induction false} CountMonotone(entries: seq<Entry>, i: nat, id: int)
    requires i <= |entries|
    ensures CountEntries(entries[..i], id) <= CountEntries(entries, id)
    decreases |entries| - i
  {
    if i < |entries| {
      CountMonotone(entries, i + 1, id);
      assert entries[..i + 1][..i] == entries[..i];
    } else {
      assert entries[..i] == entries;
    }
  }

  /** For every number from `low` on, the entries behind the index are those that the first i jobs used up. */
  ghost predicate UsedUp(jobs: seq<Job>, entries: seq<Entry>, i: nat, idx: nat, low: int)
    requires i <= |jobs| && idx <= |entries|
  {
    forall x | low <= x :: UsedUpBy(jobs[..i], entries, idx, x)
  }

  ghost predicate UsedUpBy(before: seq<Job>, entries: seq<Entry>, idx: nat, x: int)
    requires idx <= |entries|
  {
    CountEntries(entries[..idx], x) == Min(CountEntries(entries, x), CountJobs(before, x))
  }

  lemma SkipSmaller(jobs: seq<Job>, entries: seq<Entry>, i: nat, idx: nat)
    requires i < |jobs| && idx < |entries|
    requires UsedUp(jobs, entries, i, idx, jobs[i].id)
    requires entries[idx].id < jobs[i].id
    ensures UsedUp(jobs, entries, i, idx + 1, jobs[i].id)
  {
    var before, past := jobs[..i], idx + 1;
    forall x | jobs[i].id <= x
      ensures UsedUpBy(before, entries, past, x)
    {
      assert UsedUpBy(jobs[..i], entries, idx, x);
      assert entries[..idx + 1][..idx] == entries[..idx];
    }
  }

  lemma JobStep(jobs: seq<Job>, i: nat, x: int)
    requires i < |jobs|
    ensures CountJobs(jobs[..i + 1], x) == CountJobs(jobs[..i], x) + if jobs[i].id == x then 1 else 0
  {
    assert jobs[..i + 1][..i] == jobs[..i];
  }

  lemma EntryStep(entries: seq<Entry>, idx: nat, x: int)
    requires idx < |entries|
    ensures CountEntries(entries[..idx + 1], x)
         == CountEntries(entries[..idx], x) + if entries[idx].id == x then 1 else 0
  {
    assert entries[..idx + 1][..idx] == entries[..idx];
  }

  /** The entry at the index has the job's number: it is the very entry the lookup gives the job. */
  lemma MatchIsLookup(jobs: seq<Job>, entries: seq<Entry>, i: nat, idx: nat)
    requires i < |jobs| && idx < |entries|
    requires UsedUp(jobs, entries, i, idx, jobs[i].id)
    requires entries[idx].id == jobs[i].id
    ensures Looked(jobs, entries, i) == jobs[i].(priority := entries[idx].priority)
  {
    var x := jobs[i].id;
    assert UsedUpBy(jobs[..i], entries, idx, x);
    EntryStep(entries, idx, x);
    CountMonotone(entries, idx + 1, x);
    NthAfter(entries, idx, 0, x);
  }

  lemma MatchUsesUp(jobs: seq<Job>, entries: seq<Entry>, i: nat, idx: nat)
    requires i < |jobs| && idx < |entries|
    requires UsedUp(jobs, entries, i, idx, jobs[i].id)
    requires entries[idx].id == jobs[i].id
    ensures UsedUp(jobs, entries, i + 1, idx + 1, jobs[i].id)
  {
    var before, past := jobs[..i + 1], idx + 1;
    forall x | jobs[i].id <= x
      ensures UsedUpBy(before, entries, past, x)
    {
      assert UsedUpBy(jobs[..i], entries, idx, x);
      EntryStep(entries, idx, x);
      JobStep(jobs, i, x);
      CountMonotone(entries, idx + 1, x);
    }
  }

  /** No entry from the index on has the job's number: the lookup finds none for it either. */
  lemma MissIsLookup(jobs: seq<Job>, entries: seq<Entry>, i: nat, idx: nat)
    requires i < |jobs| && idx <= |entries|
    requires UsedUp(jobs, entries, i, idx, jobs[i].id)
    requires forall j :: idx <= j < |entries| ==> entries[j].id != jobs[i].id
    ensures Looked(jobs, entries, i) == jobs[i]
    ensures UsedUp(jobs, entries, i + 1, idx, jobs[i].id)
  {
    var x := jobs[i].id;
    assert UsedUpBy(jobs[..i], entries, idx, x);
    CountSplits(entries, idx, x);
    NthNone(entries, x, CountJobs(jobs[..i], x));
    var before := jobs[..i + 1];
    forall y | x <= y
      ensures UsedUpBy(before, entries, idx, y)
    {
      assert UsedUpBy(jobs[..i], entries, idx, y);
      JobStep(jobs, i, y);
    }
  }

  /** After an early break no later job has an entry. */
  lemma {:induction false} RestUnmatched(jobs: seq<Job>, entries: seq<Entry>, i: nat, k: nat)
    requires 0 < i <= k <= |jobs| && Sorted(jobs, JobId)
    requires UsedUp(jobs, entries, i, |entries|, jobs[i - 1].id)
    ensures forall j :: i <= j < k ==> Looked(jobs, entries, j) == jobs[j]
    ensures UsedUp(jobs, entries, k, |entries|, jobs[k - 1].id)
  {
    if i < k {
      RestUnmatched(jobs, entries, i, k - 1);
      assert JobId(jobs[k - 2]) <= JobId(jobs[k - 1]);
      MissIsLookup(jobs, entries, k - 1, |entries|);
    }
  }

  // ----- the loop -----

  /** Advances the index past the entries of smaller jobs, but never off the list. */
  method Advance(jobs: seq<Job>, entries: seq<Entry>, i: nat, start: nat) returns (idx: nat)
    requires i < |jobs| && start < |entries|
    requires UsedUp(jobs, entries, i, start, jobs[i].id)
    ensures start <= idx < |entries| && UsedUp(jobs, entries, i, idx, jobs[i].id)
    ensures jobs[i].id > entries[idx].id ==> idx == |entries| - 1
  {
    idx := start;
    while jobs[i].id > entries[idx].id && idx < |entries| - 1
      invariant start <= idx < |entries|
      invariant UsedUp(jobs, entries, i, idx, jobs[i].id)
      decreases |entries| - idx
    {
      SkipSmaller(jobs, entries, i, idx);
      idx := idx + 1;
    }
  }

  method MatchPriorities(jobs: seq<Job>, entries: seq<Entry>) returns (matched: seq<Job>)
    requires Sorted(jobs, JobId) && Sorted(entries, EntryId)
    ensures matched == Assigned(jobs, entries)
  {
    matched := jobs;
    if |entries| > 0 {
      var idx, i := 0, 0;
      while i < |jobs|
        invariant i <= |jobs| && idx < |entries| && |matched| == |jobs|
        invariant i == 0 ==> idx == 0
        invariant i > 0 ==> UsedUp(jobs, entries, i, idx, jobs[i - 1].id)
        invariant forall j :: 0 <= j < i ==> matched[j] == Looked(jobs, entries, j)
        invariant forall j :: i <= j < |jobs| ==> matched[j] == jobs[j]
      {
        NothingSkipped(jobs, entries, i, idx);
        idx := Advance(jobs, entries, i, idx);
        if jobs[i].id == entries[idx].id {
          MatchIsLookup(jobs, entries, i, idx);
          MatchUsesUp(jobs, entries, i, idx);
          matched := matched[i := jobs[i].(priority := entries[idx].priority)];
          idx := idx + 1;
        } else if jobs[i].id > entries[idx].id && idx == |entries| - 1 {
          SkipSmaller(jobs, entries, i, idx);
          MissIsLookup(jobs, entries, i, idx + 1);
          RestUnmatched(jobs, entries, i + 1, |jobs|);
          break;
        } else {
          LaterEntriesLarger(entries, idx, jobs[i].id);
          MissIsLookup(jobs, entries, i, idx);
        }
        i := i + 1;
        if idx >= |entries| {
          RestUnmatched(jobs, entries, i, |jobs|);
          break;
        }
      }
    } else {
      NoEntries(jobs);
    }
  }

  lemma NothingSkipped(jobs: seq<Job>, entries: seq<Entry>, i: nat, idx: nat)
    requires i < |jobs| && idx < |entries| && Sorted(jobs, JobId)
    requires if i == 0 then idx == 0 else UsedUp(jobs, entries, i, idx, jobs[i - 1].id)
    ensures UsedUp(jobs, entries, i, idx, jobs[i].id)
  {
    assert i > 0 ==> JobId(jobs[i - 1]) <= JobId(jobs[i]);
    if i == 0 {
      assert entries[..0] == [] && jobs[..0] == [];
    }
  }

  lemma LaterEntriesLarger(entries: seq<Entry>, idx: nat, id: int)
    requires idx < |entries| && Sorted(entries, EntryId) && id < entries[idx].id
    ensures forall j :: idx <= j < |entries| ==> entries[j].id != id
  {
    assert forall j :: idx <= j < |entries| ==> EntryId(entries[idx]) <= EntryId(entries[j]);
  }

  lemma NoEntries(jobs: seq<Job>)
    ensures Assigned(jobs, []) == jobs
  {
  }

  /** Matches the priorities and puts the jobs in the order in which they are considered. */
  method PrioritiseJobs(jobs: seq<Job>, entries: seq<Entry>) returns (ordered: seq<Job>)
    requires Sorted(jobs, JobId) && Sorted(entries, EntryId)
    ensures ordered == Prioritised(jobs, entries)
  {
    var matched := MatchPriorities(jobs, entries);
    ordered := Sort(matched, LowerPriority);
  }

  // ----- what the order promises -----

  lemma {:induction false} WithKeySorted(s: seq<Job>, p: int)
    requires Sorted(s, JobId)
    ensures Sorted(WithKey(s, LowerPriority, p), JobId)
    ensures forall j | j in WithKey(s, LowerPriority, p) :: j in s
  {
    if s != [] {
      assert forall j | j in s[1..] :: JobId(s[0]) <= JobId(j);
      WithKeySorted(s[1..], p);
    }
  }

  /** The final order is a permutation of the matched jobs, of non-increasing priority; among equal
      priorities the order is the original one, by job number. */
  lemma PriorityOrder(jobs: seq<Job>, entries: seq<Entry>, p: int)
    requires Sorted(jobs, JobId)
    ensures var out := Prioritised(jobs, entries);
            && multiset(out) == multiset(Assigned(jobs, entries))
            && (forall i, j :: 0 <= i < j < |out| ==> out[i].priority >= out[j].priority)
            && WithKey(out, LowerPriority, p) == WithKey(Assigned(jobs, entries), LowerPriority, p)
            && Sorted(WithKey(out, LowerPriority, p), JobId)
  {
    var a := Assigned(jobs, entries);
    SortPermutes(a, LowerPriority);
    SortSorts(a, LowerPriority);
    SortIsStable(a, LowerPriority, p);
    forall i, j | 0 <= i < j < |a|
      ensures JobId(a[i]) <= JobId(a[j])
    {
      assert JobId(jobs[i]) <= JobId(jobs[j]);
    }
    WithKeySorted(a, p);
    var out := Prioritised(jobs, entries);
    forall i, j | 0 <= i < j < |out|
      ensures out[i].priority >= out[j].priority
    {
      assert LowerPriority(out[i]) <= LowerPriority(out[j]);
    }
  }
}
