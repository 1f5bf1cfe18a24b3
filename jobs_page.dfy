/**
 * The admin jobs screen: the search filter over the job list, the pipeline
 * grouping of jobs by stage, and the optimistic stage change (drag and drop).
 */
module JobsPage {
  import opened Wrappers
  import opened Text
  import Seqs
  import opened OfflineSwr

  /** The SWR key the job list is cached under. */
  const JobsKey: string := "admin-jobs"

  datatype Stage = Stage(id: string, name: string, color: string, sortOrder: int, isFieldVisible: bool)

  datatype JobCustomer = JobCustomer(id: string, name: string, company: Option<string>, phone: Option<string>)

  datatype Job = Job(
    id: string, name: string, city: Option<string>, stageId: string,
    stage: Option<Stage>, customer: Option<JobCustomer>)

  /** The search test of one job against an already lower-cased query. */
  predicate JobMatches(job: Job, query: string) {
    || Includes(Lower(job.name), query)
    || (job.customer.Some? && Includes(Lower(job.customer.value.name), query))
    || (job.customer.Some? && FieldIncludes(job.customer.value.company, query))
    || FieldIncludes(job.city, query)
  }

  function JobMatcher(query: string): Job -> bool {
    (job: Job) => JobMatches(job, query)
  }

  /** `filteredJobs`: no list yields none, an empty query yields the list, otherwise the matching jobs. */
  function FilteredJobs(jobs: Option<seq<Job>>, searchQuery: string): seq<Job> {
    if jobs.None? then []
    else if searchQuery == "" then jobs.value
    else Seqs.Filter(JobMatcher(Lower(searchQuery)), jobs.value)
  }

  /**
   * The filtered list keeps, in order, exactly the jobs that match the lower-cased
   * query; with an empty query every job matches, so nothing is dropped.
   */
  lemma FilteredJobsSpec(jobs: Option<seq<Job>>, searchQuery: string)
    ensures jobs.None? ==> FilteredJobs(jobs, searchQuery) == []
    ensures jobs.Some? && searchQuery == "" ==> FilteredJobs(jobs, searchQuery) == jobs.value
    ensures jobs.Some? ==> Seqs.IsSubsequence(FilteredJobs(jobs, searchQuery), jobs.value)
    ensures jobs.Some? ==> forall job ::
              job in FilteredJobs(jobs, searchQuery) <==> job in jobs.value && JobMatches(job, Lower(searchQuery))
  {
    if jobs.Some? {
      var q := Lower(searchQuery);
      Seqs.FilterIsSubsequence(JobMatcher(q), jobs.value);
      Seqs.FilterMembers(JobMatcher(q), jobs.value);
      if searchQuery == "" {
        SubsequenceRefl(jobs.value);
        forall job | job in jobs.value ensures JobMatches(job, q) {
          IncludesEmpty(Lower(job.name));
        }
      }
    }
  }

  lemma {:induction false} SubsequenceRefl(s: seq<Job>)
    ensures Seqs.IsSubsequence(s, s)
  {
    if s != [] {
      SubsequenceRefl(s[1..]);
    }
  }

  // ----- pipeline grouping -----

  function StageMatcher(stageId: string): Job -> bool {
    (job: Job) => job.stageId == stageId
  }

  /** The ids of the loaded stages; none while they are loading. */
  function StageIds(stages: Option<seq<Stage>>): set<string> {
    if stages.None? then {} else set i | 0 <= i < |stages.value| :: stages.value[i].id
  }

  /** `jobsByStage`: one entry per stage id, holding the filtered jobs in that stage. */
  function Grouped(filtered: seq<Job>, stages: Option<seq<Stage>>): map<string, seq<Job>> {
    map id | id in StageIds(stages) :: Seqs.Filter(StageMatcher(id), filtered)
  }

  /** The `forEach` over the stages that fills the `grouped` record. */
  method JobsByStage(filtered: seq<Job>, stages: Option<seq<Stage>>) returns (grouped: map<string, seq<Job>>)
    ensures grouped == Grouped(filtered, stages)
  {
    grouped := map[];
    if stages.Some? {
      var all := stages.value;
      var i := 0;
      while i < |all|
        invariant 0 <= i <= |all|
        invariant grouped.Keys == set j | 0 <= j < i :: all[j].id
        invariant forall id :: id in grouped ==> grouped[id] == Seqs.Filter(StageMatcher(id), filtered)
      {
        grouped := grouped[all[i].id := Seqs.Filter(StageMatcher(all[i].id), filtered)];
        i := i + 1;
      }
    }
  }

  /**
   * Every stage has a group; a group holds, in order, exactly the filtered jobs
   * in that stage; so groups of distinct stages are disjoint and a job whose
   * stage is not loaded is in no group.
   */
  lemma GroupedSpec(filtered: seq<Job>, stages: Option<seq<Stage>>)
    ensures stages.Some? ==> forall i :: 0 <= i < |stages.value| ==> stages.value[i].id in Grouped(filtered, stages)
    ensures stages.None? ==> Grouped(filtered, stages) == map[]
    ensures forall id, job :: id in Grouped(filtered, stages) ==>
              (job in Grouped(filtered, stages)[id] <==> job in filtered && job.stageId == id)
    ensures forall id :: id in Grouped(filtered, stages) ==> Seqs.IsSubsequence(Grouped(filtered, stages)[id], filtered)
    ensures forall id1, id2, job :: id1 in Grouped(filtered, stages) && id2 in Grouped(filtered, stages) && id1 != id2 ==>
              !(job in Grouped(filtered, stages)[id1] && job in Grouped(filtered, stages)[id2])
    ensures forall id, job: Job :: id in Grouped(filtered, stages) && job.stageId !in StageIds(stages) ==>
              job !in Grouped(filtered, stages)[id]
  {
    var g := Grouped(filtered, stages);
    forall id | id in g
      ensures forall job :: job in g[id] <==> job in filtered && job.stageId == id
      ensures Seqs.IsSubsequence(g[id], filtered)
    {
      Seqs.FilterMembers(StageMatcher(id), filtered);
      Seqs.FilterIsSubsequence(StageMatcher(id), filtered);
    }
  }

  // ----- optimistic stage change -----

  /** `stages?.find(s => s.id === id)`: the first stage with that id. */
  function FindStage(stages: Option<seq<Stage>>, id: string): (r: Option<Stage>)
    ensures r.None? <==> id !in StageIds(stages)
    ensures r.Some? ==> r.value.id == id
    ensures r.Some? ==> exists i :: 0 <= i < |stages.value| && stages.value[i] == r.value
                                    && forall j :: 0 <= j < i ==> stages.value[j].id != id
  {
    if stages.None? then None else FindFirst(stages.value, id)
  }

  function FindFirst(stages: seq<Stage>, id: string): (r: Option<Stage>)
    ensures r.None? <==> forall i :: 0 <= i < |stages| ==> stages[i].id != id
    ensures r.Some? ==> r.value.id == id
    ensures r.Some? ==> exists i :: 0 <= i < |stages| && stages[i] == r.value
                                    && forall j :: 0 <= j < i ==> stages[j].id != id
  {
    if stages == [] then None
    else if stages[0].id == id then Some(stages[0])
    else
      var r := FindFirst(stages[1..], id);
      assert r.Some? ==> exists i :: 0 <= i < |stages[1..]| && stages[1..][i] == r.value
                                     && forall j :: 0 <= j < i ==> stages[1..][j].id != id;
      if r.Some? then
        var i :| 0 <= i < |stages[1..]| && stages[1..][i] == r.value && forall j :: 0 <= j < i ==> stages[1..][j].id != id;
        assert stages[i + 1] == r.value;
        assert forall j :: 0 <= j < i + 1 ==> stages[j].id != id by {
          forall j | 0 <= j < i + 1 ensures stages[j].id != id {
            if j > 0 { assert stages[j] == stages[1..][j - 1]; }
          }
        }
        r
      else r
  }

  /**
   * `jobs?.map(...)`: the optimistic list. It has the same length; only the job
   * with id jobId changes, and only its stage, which becomes the new one.
   */
  function MoveJob(jobs: Option<seq<Job>>, jobId: string, newStageId: string, stages: Option<seq<Stage>>): (r: Option<seq<Job>>)
    ensures r.Some? <==> jobs.Some?
    ensures jobs.Some? ==> |r.value| == |jobs.value|
    ensures jobs.Some? ==> forall i :: 0 <= i < |jobs.value| && jobs.value[i].id != jobId ==> r.value[i] == jobs.value[i]
    ensures jobs.Some? ==> forall i :: 0 <= i < |jobs.value| && jobs.value[i].id == jobId ==>
              && r.value[i].stageId == newStageId
              && r.value[i].stage == FindStage(stages, newStageId)
              && (r.value[i].stage.Some? ==> r.value[i].stage.value.id == newStageId)
              && r.value[i].(stageId := jobs.value[i].stageId, stage := jobs.value[i].stage) == jobs.value[i]
  {
    if jobs.None? then None
    else
      var js := jobs.value;
      Some(seq(|js|, i requires 0 <= i < |js| =>
        if js[i].id == jobId then js[i].(stageId := newStageId, stage := FindStage(stages, newStageId)) else js[i]))
  }

  /**
   * `handleStageChange(jobId, newStageId)`: write the optimistic list without
   * revalidating, send the update (whose outcome is remote), and revalidate only
   * when it failed; refetched is what the revalidation returns.
   */
  method HandleStageChange<E>(cache: SwrCache<seq<Job>>, stages: Option<seq<Stage>>, jobId: string, newStageId: string,
                              remote: Outcome<E>, refetched: seq<Job>)
    modifies cache
    ensures var optimistic := MoveJob(Get(old(cache.data), JobsKey), jobId, newStageId, stages);
            && (remote.Pass? ==> cache.log == old(cache.log) + [Written(JobsKey, optimistic)])
            && (remote.Fail? ==> cache.log == old(cache.log) + [Written(JobsKey, optimistic), Revalidated(JobsKey, refetched)])
            && (remote.Pass? && optimistic.Some? ==> cache.data == old(cache.data)[JobsKey := optimistic.value])
            && (remote.Pass? && optimistic.None? ==> cache.data == old(cache.data) - {JobsKey})
            && (remote.Fail? ==> cache.data == old(cache.data)[JobsKey := refetched])
  {
    var jobs := Get(cache.data, JobsKey);
    cache.Mutate(JobsKey, MoveJob(jobs, jobId, newStageId, stages));
    if remote.Fail? {
      cache.Revalidate(JobsKey, refetched);
    }
  }
}
