/** Which jobs the planner can read. One that it cannot read ends the planning of all. */
module JobRequests {
  import opened Outcomes
  import opened Strings
  import opened CloudTools
  import opened Priorities
  import opened JobScheduler

  /** What int() accepts: digits, perhaps with a sign, perhaps in white space. */
  predicate IsInt(s: string) {
    var t := Strip(s);
    IsDigit(t) || (t != [] && (t[0] == '-' || t[0] == '+') && IsDigit(t[1..]))
  }

  predicate HasAccount(job: Job) {
    "Account_Name" in job.attrs || "queue" in job.attrs
  }

  /** The job is passed over, or it has an account or a queue and its request can be read: nodes and cores, or no
      total, or a total that is a number. */
  predicate Readable(job: Job, workerNodes: nat) {
    || (job.priority == -1 && workerNodes > 0)
    || (HasAccount(job)
        && ((NEEDNODES in job.attrs && NCPUS in job.attrs) || NODES !in job.attrs || IsInt(job.attrs[NODES])))
  }

  predicate AllReadable(jobs: seq<Job>, workerNodes: nat, k: nat)
    requires k <= |jobs|
  {
    forall j :: 0 <= j < k ==> Readable(jobs[j], workerNodes)
  }

  lemma IntIsRead(s: string)
    ensures ToInt(s).Ok? <==> IsInt(s)
    ensures ToInt(s).Raised? ==> ToInt(s) == Raised(ValueError)
  {
    var t := Strip(s);
    if t != [] && (t[0] == '-' || t[0] == '+') {
      assert !AllDigits(t);
    }
  }

  /** The request of a job is read exactly if the job is readable; else the exception says what is missing. */
  lemma ReadExactly(job: Job, workerNodes: nat)
    ensures AskOf(job, workerNodes).Ok? <==> Readable(job, workerNodes)
    ensures !Readable(job, workerNodes) ==>
              AskOf(job, workerNodes) == Raised(if HasAccount(job) then ValueError else KeyError)
  {
    if NODES in job.attrs {
      IntIsRead(job.attrs[NODES]);
    }
  }

  // ----- what a job asks for, by its attributes -----

  /** The number in a text that int() accepts. */
  function IntValue(s: string): int
    requires IsInt(s)
  {
    var t := Strip(s);
    if t[0] == '-' then -(DigitsValue(t[1..]) as int)
    else if t[0] == '+' then DigitsValue(t[1..])
    else DigitsValue(t)
  }

  /** How many nodes: what neednodes says if the cores are given too, else one; none if the request is not
      understood. */
  function NodesAsked(job: Job): nat {
    if NEEDNODES in job.attrs && NCPUS in job.attrs then
      if IsDigit(job.attrs[NEEDNODES]) then DigitsValue(job.attrs[NEEDNODES]) else 1
    else if NODES in job.attrs || (NEEDNODES !in job.attrs && NCPUS !in job.attrs) then 1
    else 0
  }

  /** How many cores on each: what ncpus says if the nodes are given too, else the total, else one. */
  function CoresAsked(job: Job): int {
    if NEEDNODES in job.attrs && NCPUS in job.attrs then
      if IsDigit(job.attrs[NCPUS]) then DigitsValue(job.attrs[NCPUS]) else 1
    else if NODES in job.attrs && IsInt(job.attrs[NODES]) then IntValue(job.attrs[NODES])
    else 1
  }

  /** The account, else the queue. */
  function AccountAsked(job: Job): string
    requires HasAccount(job)
  {
    if "Account_Name" in job.attrs then job.attrs["Account_Name"] else job.attrs["queue"]
  }

  /** No priority while there are worker nodes, or no nodes. */
  predicate IsPassedOver(job: Job, workerNodes: nat) {
    (job.priority == -1 && workerNodes > 0) || NodesAsked(job) == 0
  }

  lemma ReadsValue(s: string)
    requires IsInt(s)
    ensures ToInt(s) == Ok(IntValue(s))
  {
    var t := Strip(s);
    if t[0] == '-' || t[0] == '+' {
      assert !AllDigits(t);
    }
  }

  /** What the planner makes of a job it can read: the pieces are as many as the nodes asked for, each has the cores
      asked for, and they go to the account's resource. */
  lemma AsksExactly(job: Job, workerNodes: nat)
    requires Readable(job, workerNodes)
    ensures var a := AskOf(job, workerNodes);
            && a.Ok? && (a.value.PassOver? <==> IsPassedOver(job, workerNodes))
            && (a.value.Ask? ==>
                  && HasAccount(job) && a.value.account == AccountAsked(job)
                  && |a.value.vcpus| == NodesAsked(job)
                  && forall i :: 0 <= i < NodesAsked(job) ==> a.value.vcpus[i] == CoresAsked(job))
  {
    ReadExactly(job, workerNodes);
    if NEEDNODES in job.attrs && NCPUS in job.attrs {
      RepeatIsConstant<int>(CountOr1(job.attrs[NCPUS]), CountOr1(job.attrs[NEEDNODES]));
    } else if NODES in job.attrs && IsInt(job.attrs[NODES]) {
      ReadsValue(job.attrs[NODES]);
    }
  }

  lemma {:induction false} DigitsAreRead(n: nat)
    ensures IsDigit(Digits(n)) && DigitsValue(Digits(n)) == n
  {
    if n >= 10 {
      DigitsAreRead(n / 10);
      var s := Digits(n);
      assert s[..|s| - 1] == Digits(n / 10);
    } else {
      assert Digits(n)[..0] == [];
    }
  }

  lemma DigitsAreBare(s: string)
    requires IsDigit(s)
    ensures Strip(s) == s && ToInt(s) == Ok(DigitsValue(s))
  {
    assert !IsSpace(s[0]) && !IsSpace(s[|s| - 1]);
  }

  /** int(str(n)) is n, for negative numbers too. */
  lemma DecimalIsRead(n: int)
    ensures ToInt(Decimal(n)) == Ok(n)
  {
    if n >= 0 {
      DigitsAreRead(n);
      DigitsAreBare(Digits(n));
    } else {
      var d := Digits(-n);
      DigitsAreRead(-n);
      var s := "-" + d;
      assert s[0] == '-' && s[|s| - 1] == d[|d| - 1] && s[1..] == d;
      assert !IsSpace(s[0]) && !IsSpace(s[|s| - 1]);
      assert Strip(s) == s;
    }
  }

  /** With the guard, no job that was read makes the planner fail. */
  lemma GuardedGoesOn(plan: Plan, sites: map<string, Site>, ask: Ask, location: Option<string>)
    requires "default" in sites
    ensures Considered(plan, sites, ask, location, true).Ok?
  {
  }

  /** The guarded planner succeeds exactly if it can read every job. */
  lemma {:induction false} PlanningSucceeds(jobs: seq<Job>, workerNodes: nat, sites: map<string, Site>,
                                            places: nat -> Option<string>, k: nat)
    requires "default" in sites && k <= |jobs|
    ensures Planned(jobs, workerNodes, sites, places, true, k).Ok? <==> AllReadable(jobs, workerNodes, k)
  {
    if k > 0 {
      PlanningSucceeds(jobs, workerNodes, sites, places, k - 1);
      ReadExactly(jobs[k - 1], workerNodes);
      var before := Planned(jobs, workerNodes, sites, places, true, k - 1);
      var ask := AskOf(jobs[k - 1], workerNodes);
      if before.Ok? && ask.Ok? {
        GuardedGoesOn(before.value, sites, ask.value, places(k - 1));
      }
    }
  }

  /** The plan for the first k jobs, all of them readable. */
  ghost function PlanAfter(jobs: seq<Job>, workerNodes: nat, sites: map<string, Site>,
                           places: nat -> Option<string>, k: nat): (plan: Plan)
    requires "default" in sites && k <= |jobs| && AllReadable(jobs, workerNodes, k)
    ensures Planned(jobs, workerNodes, sites, places, true, k) == Ok(plan)
  {
    PlanningSucceeds(jobs, workerNodes, sites, places, k);
    Planned(jobs, workerNodes, sites, places, true, k).value
  }

  /** Else the first job that it cannot read decides the exception, whatever the others are. */
  lemma FirstUnreadableDecides(jobs: seq<Job>, workerNodes: nat, sites: map<string, Site>,
                               places: nat -> Option<string>, j: nat, k: nat)
    requires "default" in sites && j < k <= |jobs|
    requires AllReadable(jobs, workerNodes, j) && !Readable(jobs[j], workerNodes)
    ensures Planned(jobs, workerNodes, sites, places, true, k)
         == Raised(if HasAccount(jobs[j]) then ValueError else KeyError)
  {
    PlanningSucceeds(jobs, workerNodes, sites, places, j);
    ReadExactly(jobs[j], workerNodes);
    RaisedStays(jobs, workerNodes, sites, places, true, j + 1, k);
  }

  /** A job that asks for nodes as the submission filter allows, without a number of cores. */
  function PpnJob(): Job {
    Job(7, map["queue" := "long", NODES := "1:ppn=2", NEEDNODES := "1:ppn=2"], 5)
  }

  /** Such a job cannot be read, so while it is idle and has a priority nothing is planned for any other job. */
  lemma PpnEndsPlanning(jobs: seq<Job>, workerNodes: nat, sites: map<string, Site>, places: nat -> Option<string>)
    requires "default" in sites && PpnJob() in jobs
    ensures VcpuRequirement(PpnJob().attrs) == Raised(ValueError)
    ensures Planned(jobs, workerNodes, sites, places, true, |jobs|).Raised?
  {
    var s := "1:ppn=2";
    assert Strip(s) == s by {
      assert LStrip(s) == s;
    }
    assert s[1] == ':';
    IntIsRead(s);
    ReadExactly(PpnJob(), workerNodes);
    var j :| 0 <= j < |jobs| && jobs[j] == PpnJob();
    assert !Readable(jobs[j], workerNodes);
    PlanningSucceeds(jobs, workerNodes, sites, places, |jobs|);
  }
}
