/** The handlers' in-memory state and the handlers themselves: `JOBS`, `_RATE_BUCKETS`
    and `_IDEMP_MAP`, the rate check, `/session/start`, `/session/next`, the snapshot
    and event-subscription entry points, and one sweep of the TTL cleanup loop. */
module Sessions {
  import opened Base
  import opened Settings
  import opened RateLimit
  import opened Idempotency
  import opened Urls
  import opened Jobs
  import Text

  /** A ledger entry: the job a request key created, and when the entry stops counting. */
  datatype IdemEntry = IdemEntry(jobId: string, resetAt: int)

  datatype AdPlan = AdPlan(kind: string, durationHint: int)

  /** The body returned by `/session/start` and `/session/next`. */
  datatype StartResponse = StartResponse(
    jobId: string,
    uploadMode: string,
    pages: seq<PresignedPut>,
    statusSse: string,
    audioUrlTemplate: string,
    adPlan: AdPlan)

  /** `[_make_presigned_put(job_id, i) for i in range(n)]`. */
  function UploadPages(jobId: string, n: nat): (pages: seq<PresignedPut>)
    ensures |pages| == n
    ensures forall i :: 0 <= i < n ==>
      pages[i].index == i && pages[i].contentType == "image/png" && pages[i].maxBytes == 3000000
  {
    seq(n, i requires 0 <= i < n => MakePresignedPut(jobId, i))
  }

  /** The upload plan lists pages 0..n-1 in order, each a PNG upload with its own URL. */
  lemma UploadPagesDistinct(jobId: string, n: nat)
    ensures var pages := UploadPages(jobId, n);
      && (forall i :: 0 <= i < n ==> pages[i].index == i && pages[i].contentType == "image/png")
      && (forall i, j :: 0 <= i < n && 0 <= j < n && i != j ==> pages[i].putUrl != pages[j].putUrl)
  {
    var pages := UploadPages(jobId, n);
    forall i, j | 0 <= i < n && 0 <= j < n && i != j
      ensures pages[i].putUrl != pages[j].putUrl
    {
      PresignedPutDistinct(jobId, i, j);
    }
  }

  /** The response for job `jobId` with a window of `size` pages. */
  function SessionResponse(cfg: Config, jobId: string, size: nat): (r: StartResponse)
    ensures r.jobId == jobId && |r.pages| == size
    ensures forall i :: 0 <= i < size ==>
      r.pages[i].index == i && r.pages[i].contentType == "image/png" && r.pages[i].maxBytes == 3000000
    ensures forall i, j :: 0 <= i < size && 0 <= j < size && i != j ==> r.pages[i].putUrl != r.pages[j].putUrl
    ensures Text.HasPrefix(r.statusSse, cfg.apiBase + "/v1/narration/jobs/" + jobId)
  {
    UploadPagesDistinct(jobId, size);
    StartResponse(
      jobId,
      "presigned",
      UploadPages(jobId, size),
      cfg.apiBase + "/v1/narration/jobs/" + jobId + "/events",
      AudioUrl(cfg.cdnBase, jobId, "{index}"),
      AdPlan("placeholder", 3))
  }

  /** The job a ledger lookup reuses: the entry for `key` exists, `now` is before its
      reset time, and the job it names is still registered. */
  function LiveJob(idemp: map<string, IdemEntry>, jobIds: set<string>, key: string, now: int): Option<string> {
    if key in idemp && now < idemp[key].resetAt && idemp[key].jobId in jobIds
    then Some(idemp[key].jobId)
    else None
  }

  /** Recording a new job under `key` at time `now` makes later lookups of that key
      find the job exactly until `now + ttl`, and leaves the lookups of every other key
      as they were. A job that is no longer registered is never found again. */
  lemma LedgerRecordThenLookup(idemp: map<string, IdemEntry>, jobIds: set<string>, key: string,
                               id: string, now: int, ttl: int, t: int)
    requires id in jobIds
    ensures var recorded := idemp[key := IdemEntry(id, now + ttl)];
      && (LiveJob(recorded, jobIds, key, t) == Some(id) <==> t < now + ttl)
      && (LiveJob(recorded, jobIds, key, t).None? <==> now + ttl <= t)
      && forall k :: k != key ==> LiveJob(recorded, jobIds, k, t) == LiveJob(idemp, jobIds, k, t)
    ensures forall k :: LiveJob(idemp, jobIds - {id}, k, t) != Some(id)
  {
  }

  /** `JobState(job_id=..., total=...)` followed by `job.pages[i] = PageState(index=i)`
      for every page: a fresh job with every page queued. */
  method CreateJob(jobId: string, total: nat, now: int) returns (job: JobState)
    ensures fresh(job) && job.Valid()
    ensures job.jobId == jobId && job.total == total && job.done == 0
    ensures job.pages == QueuedPages(total) && job.events == []
    ensures job.createdAt == now && job.updatedAt == now
  {
    job := new JobState(jobId, total, now);
    for i := 0 to total
      modifies job
      invariant job.pages == map k | 0 <= k < i :: NewPage(k)
      invariant job.done == 0 && job.events == []
      invariant job.createdAt == now && job.updatedAt == now
    {
      job.pages := job.pages[i := NewPage(i)];
    }
  }

  /** The module-level state of the backend. */
  class Backend {
    const cfg: Config
    var jobs: map<string, JobState>
    var rateBuckets: map<string, Bucket>
    var idemp: map<string, IdemEntry>

    /** Every registered job is filed under its own id and has a well-formed page table. */
    ghost predicate Valid()
      reads this, jobs.Values
    {
      forall k :: k in jobs ==> jobs[k].jobId == k && jobs[k].Valid()
    }

    /** The state at import time: no jobs, no buckets, no ledger entries. */
    constructor (cfg: Config)
      ensures this.cfg == cfg && jobs == map[] && rateBuckets == map[] && idemp == map[]
      ensures Valid()
    {
      this.cfg := cfg;
      jobs := map[];
      rateBuckets := map[];
      idemp := map[];
    }

    /** `_check_rate_limit(request, kind)` on the in-memory table: charge the bucket of
        (kind, client address) and say whether the call may proceed. The body updates the
        table in place as the handler does; `Charge` is the rule it is proved to follow. */
    method CheckRateLimit(kind: Kind, client: Option<string>, now: int) returns (admitted: bool)
      modifies this`rateBuckets
      ensures var c := Charge(old(rateBuckets), BucketKey(kind, ClientHost(client)), MaxAllowed(cfg, kind), cfg.rateWindow, now);
        rateBuckets == c.buckets && admitted == c.admitted
    {
      var ip := ClientHost(client);
      var maxAllowed := MaxAllowed(cfg, kind);
      var key := BucketKey(kind, ip);
      if key !in rateBuckets || now > rateBuckets[key].resetAt {
        rateBuckets := rateBuckets[key := Bucket(1, now + cfg.rateWindow)];
        admitted := true;
      } else {
        var bucket := rateBuckets[key];
        bucket := bucket.(count := bucket.count + 1);
        rateBuckets := rateBuckets[key := bucket];
        admitted := bucket.count <= maxAllowed;
      }
    }

    /** The effect of `session_start` once the rate table stood at `buckets0`: the
        `start` bucket is charged; a rejected call answers 429 and a window other than
        20 pages answers 400, both leaving jobs and ledger alone; a live ledger entry
        whose job is still registered answers that job and changes nothing else;
        otherwise exactly one new job `freshId` is registered, with every page queued,
        and the ledger maps the key to it until `now` plus the job TTL. */
    twostate predicate StartEffect(
      buckets0: map<string, Bucket>, req: StartRequest, client: Option<string>,
      now: int, freshId: string, sha256: CanonicalPayload -> string, new r: Result<StartResponse>)
      reads this, jobs.Values
    {
      var c := Charge(buckets0, BucketKey(Start, ClientHost(client)), cfg.startMax, cfg.rateWindow, now);
      var key := IdempotencyKey(sha256, req);
      var hit := LiveJob(old(idemp), old(jobs).Keys, key, now);
      && rateBuckets == c.buckets
      && if !c.admitted then
           r == Failure(RateLimited) && jobs == old(jobs) && idemp == old(idemp)
         else if req.window.size != 20 then
           r == Failure(BadWindowSize) && jobs == old(jobs) && idemp == old(idemp)
         else if hit.Some? then
           r == Success(SessionResponse(cfg, hit.value, 20)) && jobs == old(jobs) && idemp == old(idemp)
         else
           && r == Success(SessionResponse(cfg, freshId, 20))
           && freshId in jobs
           && fresh(jobs[freshId])
           && jobs == old(jobs)[freshId := jobs[freshId]]
           && idemp == old(idemp)[key := IdemEntry(freshId, now + cfg.jobTtl)]
           && jobs[freshId].jobId == freshId
           && jobs[freshId].total == 20
           && jobs[freshId].done == 0
           && jobs[freshId].pages == QueuedPages(20)
           && jobs[freshId].events == []
           && jobs[freshId].createdAt == now
           && jobs[freshId].updatedAt == now
    }

    /** `POST /v1/narration/session/start` with the in-memory ledger. `now` is the
        clock, `freshId` the id `job_{uuid4 hex[:8]}` a new job gets, and `sha256` the
        digest of the canonical payload. */
    method SessionStart(req: StartRequest, client: Option<string>, now: int, freshId: string,
                        sha256: CanonicalPayload -> string)
      returns (r: Result<StartResponse>)
      requires Valid() && WellFormed(req)
      modifies this`rateBuckets, this`jobs, this`idemp
      ensures Valid()
      ensures StartEffect(old(rateBuckets), req, client, now, freshId, sha256, r)
    {
      var admitted := CheckRateLimit(Start, client, now);
      if !admitted {
        return Failure(RateLimited);
      }
      if req.window.size != 20 {
        return Failure(BadWindowSize);
      }
      var key := IdempotencyKey(sha256, req);
      if key in idemp && now < idemp[key].resetAt {
        var existing := idemp[key].jobId;
        if existing in jobs {
          return Success(SessionResponse(cfg, existing, req.window.size));
        }
      }
      var job := CreateJob(freshId, req.window.size, now);
      jobs := jobs[freshId := job];
      idemp := idemp[key := IdemEntry(freshId, now + cfg.jobTtl)];
      r := Success(SessionResponse(cfg, freshId, req.window.size));
    }

    /** `POST /v1/narration/session/next`: charge the `next` bucket, answer 429 if that
        rejects, and otherwise behave as `/session/start`, which charges the `start`
        bucket of the same client as well. */
    method SessionNext(req: StartRequest, client: Option<string>, now: int, freshId: string,
                       sha256: CanonicalPayload -> string)
      returns (r: Result<StartResponse>)
      requires Valid() && WellFormed(req)
      modifies this`rateBuckets, this`jobs, this`idemp
      ensures Valid()
      ensures var c := Charge(old(rateBuckets), BucketKey(Next, ClientHost(client)), cfg.nextMax, cfg.rateWindow, now);
        if !c.admitted then
          r == Failure(RateLimited) && rateBuckets == c.buckets && jobs == old(jobs) && idemp == old(idemp)
        else
          StartEffect(c.buckets, req, client, now, freshId, sha256, r)
    {
      var admitted := CheckRateLimit(Next, client, now);
      if !admitted {
        return Failure(RateLimited);
      }
      r := SessionStart(req, client, now, freshId, sha256);
    }

    /** The background task `session_start` starts for a new job, run to completion
        with `clock[i]` the time after page i: only that job's state changes. */
    method ProcessJob(jobId: string, clock: seq<int>)
      requires Valid() && jobId in jobs && |clock| == jobs[jobId].total
      requires jobs[jobId].done == 0
      modifies jobs[jobId]
      ensures Valid()
      ensures var job := jobs[jobId];
        && job.events == old(job.events) + ProcessingLog(cfg.cdnBase, jobId, job.total, old(job.done))
        && job.done == old(job.done) + job.total
        && (forall i :: 0 <= i < job.total ==> job.pages[i] == Finished(cfg.cdnBase, jobId, i, old(job.pages)[i]))
        && job.updatedAt == (if job.total == 0 then old(job.updatedAt) else clock[job.total - 1])
        && job.createdAt == old(job.createdAt)
    {
      jobs[jobId].SimulateProcessing(cfg.cdnBase, clock);
    }

    /** `GET /v1/narration/jobs/{job_id}/snapshot` without the external store: 404 for
        an unknown or evicted job, else the composed snapshot. */
    method JobSnapshot(jobId: string) returns (r: Result<Snapshot>)
      requires Valid()
      ensures jobId !in jobs ==> r == Failure(JobNotFound)
      ensures jobId in jobs ==>
        r == Success(SnapshotOf(jobId, jobs[jobId].total, jobs[jobId].done, jobs[jobId].pages))
      ensures jobId in jobs ==>
        && 0 <= r.value.progress.done <= r.value.progress.total
        && r.value.progress.done == |ReadyPages(jobs[jobId].pages, jobs[jobId].total)|
    {
      if jobId !in jobs {
        return Failure(JobNotFound);
      }
      ReadyCount(jobs[jobId].pages, jobs[jobId].total, jobs[jobId].done);
      var s := ComposeSnapshot(jobs[jobId]);
      r := Success(s);
    }

    /** `GET /v1/narration/jobs/{job_id}/events` up to the end of the replay burst:
        404 for an unknown job, else the burst built from the job's snapshot. */
    method JobEvents(jobId: string) returns (r: Result<seq<Event>>)
      requires Valid()
      ensures jobId !in jobs ==> r == Failure(JobNotFound)
      ensures jobId in jobs ==>
        r == Success(ReplayBurst(SnapshotOf(jobId, jobs[jobId].total, jobs[jobId].done, jobs[jobId].pages)))
    {
      var job := if jobId in jobs then Some(jobs[jobId]) else None;
      if job.None? {
        return Failure(JobNotFound);
      }
      var initial := ComposeSnapshot(job.value);
      r := Success(ReplayBurst(initial));
    }

    /** A subscriber that connects and a client that asks for the snapshot, at the same
        state, agree: both find the job or both get 404, and the burst rebuilds exactly
        the snapshot's pages and progress. */
    method ReconnectMatchesSnapshot(jobId: string) returns (snap: Result<Snapshot>, burst: Result<seq<Event>>)
      requires Valid()
      ensures snap.Success? <==> burst.Success?
      ensures snap.Success? <==> jobId in jobs
      ensures snap.Success? ==>
        ReadBurst(burst.value) == Some(Restored(snap.value.pages, snap.value.progress))
    {
      snap := JobSnapshot(jobId);
      burst := JobEvents(jobId);
      if snap.Success? {
        ReplayBurstRestoresSnapshot(snap.value);
      }
    }

    /** One pass of `_cleanup_jobs_loop` at time `now`: every job idle for more than the
        TTL (`now - updated_at > JOB_TTL_SECONDS`) is dropped, the others stay as they
        were; the ledger and the rate table are not touched. */
    method SweepExpired(now: int)
      requires Valid()
      modifies this`jobs
      ensures Valid()
      ensures forall k :: k in jobs <==> k in old(jobs) && now - old(jobs)[k].updatedAt <= cfg.jobTtl
      ensures forall k :: k in jobs ==> jobs[k] == old(jobs)[k]
    {
      var expired: seq<string> := [];
      var unseen := jobs.Keys;
      while unseen != {}
        invariant unseen <= jobs.Keys
        invariant forall k :: k in expired <==> k in jobs && k !in unseen && now - jobs[k].updatedAt > cfg.jobTtl
        decreases unseen
      {
        var k :| k in unseen;
        if now - jobs[k].updatedAt > cfg.jobTtl {
          expired := expired + [k];
        }
        unseen := unseen - {k};
      }
      ghost var before := jobs;
      for i := 0 to |expired|
        invariant jobs == map k | k in before && k !in expired[..i] :: before[k]
      {
        jobs := jobs - {expired[i]};
        assert expired[..i + 1] == expired[..i] + [expired[i]];
      }
      assert expired[..|expired|] == expired;
    }
  }

  /** The same start request repeated within the job TTL, with no sweep in between,
      resolves to the job the first call created: the second call creates nothing. */
  method RepeatedStartReusesJob(b: Backend, req: StartRequest, client: Option<string>,
                                t1: int, t2: int, id1: string, id2: string,
                                sha256: CanonicalPayload -> string)
    returns (r1: Result<StartResponse>, r2: Result<StartResponse>)
    requires b.Valid() && WellFormed(req)
    requires id1 !in b.jobs
    requires t1 <= t2 < t1 + b.cfg.jobTtl
    modifies b`rateBuckets, b`jobs, b`idemp
    ensures b.Valid()
    ensures r1.Success? && r1.value.jobId == id1 ==> b.jobs.Keys == old(b.jobs.Keys) + {id1}
    ensures r1.Success? && r1.value.jobId == id1 && r2.Success? ==> r2.value.jobId == id1
  {
    r1 := b.SessionStart(req, client, t1, id1, sha256);
    r2 := b.SessionStart(req, client, t2, id2, sha256);
  }

  /** A job with every page queued, processed to completion and then read back: the
      snapshot lists every page `ready` with the audio URL of that page. */
  method ProcessThenSnapshot(b: Backend, jobId: string, clock: seq<int>) returns (snap: Result<Snapshot>)
    requires b.Valid() && jobId in b.jobs
    requires b.jobs[jobId].pages == QueuedPages(|clock|)
    requires b.jobs[jobId].total == |clock| && b.jobs[jobId].done == 0
    modifies b.jobs[jobId]
    ensures b.Valid()
    ensures snap.Success?
    ensures |snap.value.pages| == |clock|
    ensures snap.value.progress == Progress(|clock|, |clock|)
    ensures forall i :: 0 <= i < |clock| ==>
      snap.value.pages[i] == PageEntry(i, Ready, Some(PageAudioUrl(b.cfg.cdnBase, jobId, i)), None)
  {
    b.ProcessJob(jobId, clock);
    FinishedJobSnapshot(b.cfg.cdnBase, jobId, |clock|, b.jobs[jobId].pages);
    snap := b.JobSnapshot(jobId);
  }

  /** A first request for a chapter window, its processing to completion, then a
      snapshot: the client uploads to the 20 distinct page URLs of the new job, and the
      snapshot lists every page `ready` with the audio URL of that page. */
  method NewSessionPlaysThrough(b: Backend, req: StartRequest, client: Option<string>, now: int,
                                freshId: string, sha256: CanonicalPayload -> string, clock: seq<int>)
    returns (r: Result<StartResponse>, snap: Result<Snapshot>)
    requires b.Valid() && WellFormed(req)
    requires freshId !in b.jobs && |clock| == 20
    modifies b`rateBuckets, b`jobs, b`idemp
    ensures b.Valid()
    ensures r.Success? ==> r.value.jobId == freshId || r.value.jobId in old(b.jobs)
    ensures r.Success? && r.value.jobId == freshId ==>
      && |r.value.pages| == 20
      && (forall i, j :: 0 <= i < 20 && 0 <= j < 20 && i != j ==> r.value.pages[i].putUrl != r.value.pages[j].putUrl)
      && snap.Success?
      && |snap.value.pages| == 20
      && snap.value.progress == Progress(20, 20)
      && forall i :: 0 <= i < 20 ==>
        snap.value.pages[i] == PageEntry(i, Ready, Some(PageAudioUrl(b.cfg.cdnBase, freshId, i)), None)
  {
    r := b.SessionStart(req, client, now, freshId, sha256);
    if r.Success? && r.value.jobId == freshId {
      snap := ProcessThenSnapshot(b, freshId, clock);
    } else {
      snap := b.JobSnapshot(freshId);
    }
  }
}
