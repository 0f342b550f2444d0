/** The in-memory storage: the job table, the attempt history and the filtered, paged
    listing loop. */
module MemoryStorage {
  import opened Domain
  import opened JobEntity

  datatype Filter = Filter(
    status: Option<Status>,
    jobType: Option<string>,
    priority: Option<int>,
    limit: int,
    offset: int)

  predicate Matches(f: Filter, j: JobRecord) {
    && (f.status.Some? ==> j.status == f.status.value)
    && (f.jobType.Some? ==> j.jobType == f.jobType.value)
    && (f.priority.Some? ==> j.priority == f.priority.value)
  }

  /** The matching jobs of a table, in the order visited. */
  function Matching(jobs: map<Id, JobRecord>, f: Filter, visited: seq<Id>): (r: seq<Id>)
    ensures |r| <= |visited|
  {
    if visited == [] then []
    else
      var n := |visited| - 1;
      Matching(jobs, f, visited[..n]) +
      if visited[n] in jobs && Matches(f, jobs[visited[n]]) then [visited[n]] else []
  }

  function DropFirst(s: seq<Id>, n: int): seq<Id> {
    if n <= 0 then s else if n >= |s| then [] else s[n..]
  }

  /** No limit when it is not positive. */
  function TakeFirst(s: seq<Id>, n: int): seq<Id> {
    if n <= 0 || n >= |s| then s else s[..n]
  }

  /** A page: filter, then drop the offset, then take the limit. */
  function Page(jobs: map<Id, JobRecord>, f: Filter, visited: seq<Id>): seq<Id> {
    TakeFirst(DropFirst(Matching(jobs, f, visited), f.offset), f.limit)
  }

  class Storage {
    var jobs: map<Id, Job>
    var history: map<Id, seq<HistoryRecord>>

    ghost predicate Valid()
      reads this
    {
      forall id :: id in jobs ==> jobs[id].id == id
    }

    /** The job table by value. */
    ghost function Table(): map<Id, JobRecord>
      reads this, jobs.Values
    {
      map id | id in jobs :: jobs[id].Value()
    }

    function Records(id: Id): seq<HistoryRecord>
      reads this
    {
      if id in history then history[id] else []
    }

    constructor ()
      ensures Valid() && jobs == map[] && history == map[]
    {
      jobs, history := map[], map[];
    }

    method SaveJob(job: Job)
      requires Valid()
      modifies this
      ensures Valid() && jobs == old(jobs)[job.id := job] && history == old(history)
    {
      jobs := jobs[job.id := job];
    }

    /** Fails for an unknown id; otherwise stamps the shared object and files it. */
    method UpdateJob(job: Job, now: Time) returns (ok: bool)
      requires Valid()
      modifies this, job
      ensures Valid() && history == old(history)
      ensures ok == (job.id in old(jobs))
      ensures ok ==> jobs == old(jobs)[job.id := job] && job.Value() == old(job.Value()).(updatedAt := now)
      ensures !ok ==> jobs == old(jobs) && job.Value() == old(job.Value())
    {
      ok := job.id in jobs;
      if ok {
        job.updatedAt := now;
        jobs := jobs[job.id := job];
      }
    }

    method SaveJobHistory(h: HistoryRecord)
      modifies this
      ensures jobs == old(jobs) && history == old(history)[h.jobId := old(Records(h.jobId)) + [h]]
    {
      var before := if h.jobId in history then history[h.jobId] else [];
      history := history[h.jobId := before + [h]];
    }

    /** For any order in which the table is visited, the loop returns the page: of the
        visits `hits`, which are just those to a job with the status, type and priority
        asked for, in visiting order, those from the offset on, up to the limit. */
    method ListJobs(f: Filter, visited: seq<Id>) returns (page: seq<Job>, ghost hits: seq<nat>)
      requires Valid() && forall id :: id in visited ==> id in jobs
      ensures forall i, j :: 0 <= i < j < |hits| ==> hits[i] < hits[j]
      ensures forall i :: 0 <= i < |hits| ==> hits[i] < |visited| && visited[hits[i]] in jobs
      ensures forall i :: i in hits <==>
                && 0 <= i < |visited| && visited[i] in jobs
                && var job := jobs[visited[i]];
                   && (f.status == None || f.status == Some(job.status))
                   && (f.jobType == None || f.jobType == Some(job.jobType))
                   && (f.priority == None || f.priority == Some(job.priority))
      ensures var start := if f.offset > 0 then f.offset else 0;
              var rest := if |hits| > start then |hits| - start else 0;
              && |page| == (if 0 < f.limit < rest then f.limit else rest)
              && forall i :: 0 <= i < |page| ==> page[i] == jobs[visited[hits[start + i]]]
      ensures |page| == |Page(Table(), f, visited)|
      ensures forall i :: 0 <= i < |page| ==>
                page[i].id == Page(Table(), f, visited)[i] && page[i].id in jobs && page[i] == jobs[page[i].id]
    {
      page := Listing(f, visited);
      hits := PageVisits(f, visited, page);
    }

    /** The loop of ListJobs. */
    method Listing(f: Filter, visited: seq<Id>) returns (page: seq<Job>)
      requires Valid() && forall id :: id in visited ==> id in jobs
      ensures Shows(page, Page(Table(), f, visited))
    {
      page := [];
      var count, skipped := 0, 0;
      ghost var table, matching, ids: seq<Id> := Table(), [], [];
      var i := 0;
      while i < |visited|
        invariant 0 <= i <= |visited|
        invariant matching == Matching(table, f, visited[..i]) && ids == Page(table, f, visited[..i])
        invariant skipped == if f.offset <= 0 then 0 else if |matching| < f.offset then |matching| else f.offset
        invariant count == |page| && (f.limit > 0 ==> count <= f.limit) && Shows(page, ids)
      {
        var id := visited[i];
        var job := jobs[id];
        NextVisited(table, f, visited, i);
        if Matches(f, job.Value()) {
          matching := matching + [id];
          if skipped < f.offset {
            skipped := skipped + 1;
          } else if f.limit > 0 && count >= f.limit {
            PageFull(table, f, visited, i);
            break;
          } else {
            page := page + [job];
            ids := ids + [id];
            count := count + 1;
          }
        }
        i := i + 1;
      }
      assert i == |visited| ==> visited[..i] == visited;
    }

    /** The jobs filed under these ids. */
    ghost predicate Shows(page: seq<Job>, ids: seq<Id>)
      reads this
    {
      && |page| == |ids|
      && forall n :: 0 <= n < |page| ==> page[n].id == ids[n] && ids[n] in jobs && page[n] == jobs[ids[n]]
    }

    /** The page in terms of the jobs' fields. */
    lemma PageVisits(f: Filter, visited: seq<Id>, page: seq<Job>) returns (hits: seq<nat>)
      requires Shows(page, Page(Table(), f, visited))
      ensures forall i, j :: 0 <= i < j < |hits| ==> hits[i] < hits[j]
      ensures forall i :: 0 <= i < |hits| ==> hits[i] < |visited| && visited[hits[i]] in jobs
      ensures forall i :: i in hits <==>
                && 0 <= i < |visited| && visited[i] in jobs
                && var job := jobs[visited[i]];
                   && (f.status == None || f.status == Some(job.status))
                   && (f.jobType == None || f.jobType == Some(job.jobType))
                   && (f.priority == None || f.priority == Some(job.priority))
      ensures var start := if f.offset > 0 then f.offset else 0;
              var rest := if |hits| > start then |hits| - start else 0;
              && |page| == (if 0 < f.limit < rest then f.limit else rest)
              && forall i :: 0 <= i < |page| ==> page[i] == jobs[visited[hits[start + i]]]
    {
      hits := PageHits(Table(), f, visited);
      forall i | 0 <= i < |hits|
        ensures hits[i] < |visited| && visited[hits[i]] in jobs
      {
        assert hits[i] in hits;
      }
      forall i
        ensures i in hits <==>
                  && 0 <= i < |visited| && visited[i] in jobs
                  && var job := jobs[visited[i]];
                     && (f.status == None || f.status == Some(job.status))
                     && (f.jobType == None || f.jobType == Some(job.jobType))
                     && (f.priority == None || f.priority == Some(job.priority))
      {
        assert 0 <= i < |visited| && visited[i] in jobs ==> Table()[visited[i]] == jobs[visited[i]].Value();
      }
      var start := if f.offset > 0 then f.offset else 0;
      forall i | 0 <= i < |page|
        ensures page[i] == jobs[visited[hits[start + i]]]
      {
        assert page[i].id == Page(Table(), f, visited)[i] == visited[hits[start + i]];
      }
    }
  }

  /** The visits to jobs that match, by their place in `visited`. */
  ghost function Hits(jobs: map<Id, JobRecord>, f: Filter, visited: seq<Id>): (r: seq<nat>)
    ensures forall i :: i in r <==> 0 <= i < |visited| && visited[i] in jobs && Matches(f, jobs[visited[i]])
    ensures forall i, j :: 0 <= i < j < |r| ==> r[i] < r[j]
  {
    if visited == [] then []
    else
      var n := |visited| - 1;
      var before := Hits(jobs, f, visited[..n]);
      assert forall i :: 0 <= i < |before| ==> before[i] in before;
      before + if visited[n] in jobs && Matches(f, jobs[visited[n]]) then [n] else []
  }

  /** The matching jobs are those of these visits. */
  lemma {:induction false} HitsListed(jobs: map<Id, JobRecord>, f: Filter, visited: seq<Id>)
    ensures var hits := Hits(jobs, f, visited);
            && |hits| == |Matching(jobs, f, visited)|
            && forall i :: 0 <= i < |hits| ==>
                 hits[i] < |visited| && Matching(jobs, f, visited)[i] == visited[hits[i]]
  {
    if visited != [] {
      HitsListed(jobs, f, visited[..|visited| - 1]);
    }
  }

  /** A page, said of the filter's fields and the places of the visits. */
  lemma PageHits(jobs: map<Id, JobRecord>, f: Filter, visited: seq<Id>) returns (hits: seq<nat>)
    ensures forall i, j :: 0 <= i < j < |hits| ==> hits[i] < hits[j]
    ensures forall i :: i in hits <==>
              && 0 <= i < |visited| && visited[i] in jobs
              && var job := jobs[visited[i]];
                 && (f.status == None || f.status == Some(job.status))
                 && (f.jobType == None || f.jobType == Some(job.jobType))
                 && (f.priority == None || f.priority == Some(job.priority))
    ensures PageOfHits(hits, visited, f.offset, f.limit, Page(jobs, f, visited))
  {
    hits := Hits(jobs, f, visited);
    forall j
      ensures Matches(f, j) <==> (f.status == None || f.status == Some(j.status))
                                 && (f.jobType == None || f.jobType == Some(j.jobType))
                                 && (f.priority == None || f.priority == Some(j.priority))
    {}
    HitsListed(jobs, f, visited);
    HitsPage(hits, visited, Matching(jobs, f, visited), f.offset, f.limit);
  }

  /** The ids visited at `hits`, from the offset on, up to the limit. */
  ghost predicate PageOfHits(hits: seq<nat>, visited: seq<Id>, offset: int, limit: int, page: seq<Id>) {
    var start := if offset > 0 then offset else 0;
    var rest := if |hits| > start then |hits| - start else 0;
    && |page| == (if 0 < limit < rest then limit else rest)
    && forall i :: 0 <= i < |page| ==> hits[start + i] < |visited| && page[i] == visited[hits[start + i]]
  }

  lemma HitsPage(hits: seq<nat>, visited: seq<Id>, matching: seq<Id>, offset: int, limit: int)
    requires |hits| == |matching|
    requires forall i :: 0 <= i < |hits| ==> hits[i] < |visited| && matching[i] == visited[hits[i]]
    ensures PageOfHits(hits, visited, offset, limit, TakeFirst(DropFirst(matching, offset), limit))
  {}

  /** What one more visited job adds to the page. */
  lemma NextVisited(jobs: map<Id, JobRecord>, f: Filter, visited: seq<Id>, i: nat)
    requires i < |visited|
    ensures var matching := Matching(jobs, f, visited[..i]);
            var (page, next) := (Page(jobs, f, visited[..i]), Page(jobs, f, visited[..i + 1]));
            if visited[i] !in jobs || !Matches(f, jobs[visited[i]])
            then Matching(jobs, f, visited[..i + 1]) == matching && next == page
            else
              && Matching(jobs, f, visited[..i + 1]) == matching + [visited[i]]
              && (f.limit > 0 ==> |page| <= f.limit)
              && next == if |matching| < f.offset || 0 < f.limit <= |page| then page else page + [visited[i]]
  {
    assert visited[..i + 1][..i] == visited[..i];
  }

  /** Visiting more only adds matches at the end. */
  lemma {:induction false} MatchingGrows(jobs: map<Id, JobRecord>, f: Filter, visited: seq<Id>, i: nat)
    requires i <= |visited|
    ensures Matching(jobs, f, visited[..i]) <= Matching(jobs, f, visited)
    decreases |visited|
  {
    if i == |visited| {
      assert visited[..i] == visited;
    } else {
      var n := |visited| - 1;
      MatchingGrows(jobs, f, visited[..n], i);
      assert visited[..n][..i] == visited[..i];
    }
  }

  /** Once the limit is reached, the rest of the table does not matter. */
  lemma PageFull(jobs: map<Id, JobRecord>, f: Filter, visited: seq<Id>, i: nat)
    requires i <= |visited| && f.limit > 0 && |Page(jobs, f, visited[..i])| == f.limit
    ensures Page(jobs, f, visited) == Page(jobs, f, visited[..i])
  {
    MatchingGrows(jobs, f, visited, i);
  }

  /** The offset of page `n`, counted from 0. */
  function PageStart(n: nat, limit: nat): (offset: nat)
    ensures limit > 0 ==> offset >= n
  {
    if n == 0 then 0 else PageStart(n - 1, limit) + limit
  }

  function FirstOf(s: seq<Id>, n: int): seq<Id> {
    if n <= 0 then [] else if n >= |s| then s else s[..n]
  }

  lemma OneMorePage(all: seq<Id>, offset: int, limit: int)
    requires offset >= 0 && limit > 0
    ensures FirstOf(all, offset) + TakeFirst(DropFirst(all, offset), limit) == FirstOf(all, offset + limit)
  {}

  function Concat(pages: seq<seq<Id>>): seq<Id> {
    if pages == [] then [] else Concat(pages[..|pages| - 1]) + pages[|pages| - 1]
  }

  /** Page `i` of a list. */
  function PageOf(all: seq<Id>, limit: nat, i: nat): seq<Id> {
    TakeFirst(DropFirst(all, PageStart(i, limit)), limit)
  }

  ghost predicate ArePages(all: seq<Id>, limit: nat, pages: seq<seq<Id>>) {
    forall i {:trigger pages[i]} :: 0 <= i < |pages| ==> pages[i] == PageOf(all, limit, i)
  }

  lemma {:induction false} PagesArePrefix(all: seq<Id>, limit: nat, pages: seq<seq<Id>>)
    requires limit > 0 && ArePages(all, limit, pages)
    ensures Concat(pages) == FirstOf(all, PageStart(|pages|, limit))
  {
    if pages != [] {
      var n := |pages| - 1;
      PagesArePrefix(all, limit, pages[..n]);
      OneMorePage(all, PageStart(n, limit), limit);
    }
  }

  lemma EnoughPages(all: seq<Id>, limit: nat, pages: seq<seq<Id>>)
    requires limit > 0 && ArePages(all, limit, pages)
    ensures Concat(pages) <= all && (|pages| >= |all| ==> Concat(pages) == all)
  {
    PagesArePrefix(all, limit, pages);
  }

  lemma {:induction false} SameMatching(jobs: map<Id, JobRecord>, f: Filter, offset: int, visited: seq<Id>)
    ensures Matching(jobs, f.(offset := offset), visited) == Matching(jobs, f, visited)
  {
    if visited != [] {
      SameMatching(jobs, f, offset, visited[..|visited| - 1]);
    }
  }

  lemma PageAt(jobs: map<Id, JobRecord>, f: Filter, visited: seq<Id>, i: nat)
    requires f.limit > 0
    ensures Page(jobs, f.(offset := PageStart(i, f.limit)), visited) == PageOf(Matching(jobs, f, visited), f.limit, i)
  {
    SameMatching(jobs, f, PageStart(i, f.limit), visited);
  }

  /** Consecutive pages over the same visiting order concatenate to a prefix of the
      filtered list, and enough of them to all of it: nothing twice, nothing missing. */
  lemma PagesConcatenate(jobs: map<Id, JobRecord>, f: Filter, visited: seq<Id>, pages: seq<seq<Id>>)
    requires f.limit > 0
    requires forall i {:trigger pages[i]} :: 0 <= i < |pages| ==>
               pages[i] == Page(jobs, f.(offset := PageStart(i, f.limit)), visited)
    ensures Concat(pages) <= Matching(jobs, f, visited)
    ensures |pages| >= |Matching(jobs, f, visited)| ==> Concat(pages) == Matching(jobs, f, visited)
  {
    var all := Matching(jobs, f, visited);
    assert ArePages(all, f.limit, pages) by {
      forall i {:trigger pages[i]} | 0 <= i < |pages|
        ensures pages[i] == PageOf(all, f.limit, i)
      {
        PageAt(jobs, f, visited, i);
      }
    }
    EnoughPages(all, f.limit, pages);
  }
}
