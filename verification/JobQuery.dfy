/** The job lists that _qstat_to_job_list and _get_job_priorities of local_commands.py build from parsed output. */
module JobQuery {
  import opened Outcomes
  import opened Sequences
  import opened Priorities

  /** A qstat record; what the record does not have, or what is no number, is None. */
  datatype RawJob = RawJob(id: Option<int>, state: Option<string>, queue: Option<string>, attrs: map<string, string>)

  predicate IsIdle(r: RawJob, monitored: seq<string>) {
    r.state == Some("Q") && (monitored == [] || (r.queue.Some? && r.queue.value in monitored))
  }

  /** The record has what is looked up in it: a state, and a queue if only some queues are monitored. */
  predicate CanBeSorted(r: RawJob, monitored: seq<string>) {
    r.state.Some? && (r.state == Some("Q") && monitored != [] ==> r.queue.Some?)
  }

  function IdleOf(raw: seq<RawJob>, monitored: seq<string>): seq<RawJob> {
    if raw == [] then []
    else
      var r := raw[|raw| - 1];
      IdleOf(raw[..|raw| - 1], monitored) + if IsIdle(r, monitored) then [r] else []
  }

  function RunningOf(raw: seq<RawJob>): seq<RawJob> {
    if raw == [] then []
    else
      var r := raw[|raw| - 1];
      RunningOf(raw[..|raw| - 1]) + if r.state == Some("R") then [r] else []
  }

  /** Without a positive limit all idle jobs are read, else at most that many. */
  function Limited(jobs: seq<RawJob>, limit: int): seq<RawJob> {
    if limit < 1 || |jobs| <= limit then jobs else jobs[..limit]
  }

  predicate Numbered(jobs: seq<RawJob>) {
    forall i :: 0 <= i < |jobs| ==> jobs[i].id.Some?
  }

  /** An idle job starts with priority -1. */
  function ToJobs(jobs: seq<RawJob>): seq<Job>
    requires Numbered(jobs)
  {
    seq(|jobs|, i requires 0 <= i < |jobs| => Job(jobs[i].id.value, jobs[i].attrs, -1))
  }

  /** The output can be parsed: every record can be sorted out, and every idle job that is read has a number. */
  predicate Parsable(raw: seq<RawJob>, monitored: seq<string>, limit: int) {
    && (forall i :: 0 <= i < |raw| ==> CanBeSorted(raw[i], monitored))
    && Numbered(Limited(IdleOf(raw, monitored), limit))
  }

  /** What is read of the output, None if it is no XML: all idle jobs of the monitored queues are counted, those
      within the limit come ordered by number, jobs of one number in their order, and the running ones are listed.
      One record that cannot be parsed empties all of it. */
  ghost predicate IsReading(raw: Option<seq<RawJob>>, monitored: seq<string>, limit: int, total: nat, idle: seq<Job>,
                            running: seq<RawJob>)
  {
    if raw.Some? && Parsable(raw.value, monitored, limit) then
      var jobs := ToJobs(Limited(IdleOf(raw.value, monitored), limit));
      && total == |IdleOf(raw.value, monitored)| && running == RunningOf(raw.value)
      && Sorted(idle, JobId) && multiset(idle) == multiset(jobs)
      && forall k :: WithKey(idle, JobId, k) == WithKey(jobs, JobId, k)
    else total == 0 && idle == [] && running == []
  }

  /** Goes through the records as far as they can be sorted out. */
  method SortOut(raw: seq<RawJob>, monitored: seq<string>, limit: int)
    returns (ok: bool, total: nat, idle: seq<RawJob>, running: seq<RawJob>)
    ensures ok <==> forall i :: 0 <= i < |raw| ==> CanBeSorted(raw[i], monitored)
    ensures ok ==> total == |IdleOf(raw, monitored)| && idle == Limited(IdleOf(raw, monitored), limit)
                   && running == RunningOf(raw)
  {
    ok, total, idle, running := true, 0, [], [];
    var read := 0;
    for i := 0 to |raw|
      invariant ok && forall j :: 0 <= j < i ==> CanBeSorted(raw[j], monitored)
      invariant total == |IdleOf(raw[..i], monitored)| && read == |idle|
      invariant idle == Limited(IdleOf(raw[..i], monitored), limit)
      invariant running == RunningOf(raw[..i])
    {
      assert raw[..i + 1][..i] == raw[..i];
      if !CanBeSorted(raw[i], monitored) {
        return false, 0, [], [];
      }
      if IsIdle(raw[i], monitored) {
        total := total + 1;
        if limit < 1 || (limit > 0 && read < limit) {
          idle := idle + [raw[i]];
          read := read + 1;
        }
      } else if raw[i].state == Some("R") {
        running := running + [raw[i]];
      }
    }
    assert raw[..|raw|] == raw;
  }

  lemma SortedStably<T>(s: seq<T>, key: T -> int)
    ensures Sorted(Sort(s, key), key) && multiset(Sort(s, key)) == multiset(s)
    ensures forall k :: WithKey(Sort(s, key), key, k) == WithKey(s, key, k)
  {
    SortSorts(s, key);
    SortPermutes(s, key);
    forall k
      ensures WithKey(Sort(s, key), key, k) == WithKey(s, key, k)
    {
      SortIsStable(s, key, k);
    }
  }

  method QstatToJobList(raw: Option<seq<RawJob>>, monitored: seq<string>, limit: int)
    returns (total: nat, idle: seq<Job>, running: seq<RawJob>)
    ensures IsReading(raw, monitored, limit, total, idle, running)
  {
    total, idle, running := 0, [], [];
    if raw.Some? {
      var ok, count, read, run := SortOut(raw.value, monitored, limit);
      if ok && Numbered(read) {
        SortedStably(ToJobs(read), JobId);
        total, idle, running := count, Sort(ToJobs(read), JobId), run;
      }
    }
  }

  /** The priorities ordered by job number, entries of one number in their order. */
  method GetJobPriorities(parsed: seq<Entry>) returns (entries: seq<Entry>)
    ensures Sorted(entries, EntryId) && multiset(entries) == multiset(parsed)
    ensures forall k :: WithKey(entries, EntryId, k) == WithKey(parsed, EntryId, k)
  {
    SortedStably(parsed, EntryId);
    entries := Sort(parsed, EntryId);
  }

  /** One record without a state is enough to hide all jobs. */
  lemma OneRecordHidesAll(raw: seq<RawJob>, monitored: seq<string>, limit: int, i: nat, total: nat, idle: seq<Job>,
                          running: seq<RawJob>)
    requires i < |raw| && raw[i].state.None? && IsReading(Some(raw), monitored, limit, total, idle, running)
    ensures total == 0 && idle == [] && running == []
  {
    assert !CanBeSorted(raw[i], monitored);
  }

  // ----- which jobs are read -----

  /** The queued jobs of the monitored queues; without such queues, all queued jobs. */
  function QueuedIn(raw: seq<RawJob>, monitored: seq<string>): set<RawJob> {
    set r | r in raw && r.state == Some("Q") && (monitored == [] || (exists q | q in monitored :: r.queue == Some(q)))
  }

  function RunningIn(raw: seq<RawJob>): set<RawJob> {
    set r | r in raw && r.state == Some("R")
  }

  lemma {:induction false} SortedOutExactly(raw: seq<RawJob>, monitored: seq<string>, n: nat)
    requires n <= |raw|
    ensures IdleOf(raw[..n], monitored) == Keep(raw[..n], QueuedIn(raw, monitored))
    ensures RunningOf(raw[..n]) == Keep(raw[..n], RunningIn(raw))
  {
    if n > 0 {
      SortedOutExactly(raw, monitored, n - 1);
      KeepPrefix(raw, QueuedIn(raw, monitored), n - 1);
      KeepPrefix(raw, RunningIn(raw), n - 1);
      assert raw[..n][..n - 1] == raw[..n - 1] && raw[n - 1] in raw;
    }
  }

  /** Of complete records, the queued ones of the monitored queues are counted and read from the front, up to the
      limit if it is positive, and the running ones are listed, in order. */
  lemma ReadsExactly(raw: seq<RawJob>, monitored: seq<string>, limit: int, total: nat, idle: seq<Job>,
                     running: seq<RawJob>)
    requires IsReading(Some(raw), monitored, limit, total, idle, running)
    requires forall r | r in raw :: r.id.Some? && r.state.Some? && r.queue.Some?
    ensures var queued := Keep(raw, QueuedIn(raw, monitored));
            && total == |queued| && running == Keep(raw, RunningIn(raw))
            && |idle| == (if limit < 1 then total else Min(total, limit))
            && Numbered(queued[..|idle|]) && multiset(idle) == multiset(ToJobs(queued[..|idle|]))
  {
    var queued := Keep(raw, QueuedIn(raw, monitored));
    assert raw[..|raw|] == raw;
    SortedOutExactly(raw, monitored, |raw|);
    forall i | 0 <= i < |queued|
      ensures queued[i].id.Some?
    {
      KeepMembers(raw, QueuedIn(raw, monitored), queued[i]);
    }
    var jobs := ToJobs(Limited(queued, limit));
    assert |multiset(idle)| == |multiset(jobs)|;
    assert queued[..|idle|] == Limited(queued, limit);
  }
}
