/** The in-memory job and page state: `PageState`, `JobState`, the snapshot composed
    from a job, the burst replayed to a new event subscriber, and the simulated page
    pipeline that drives every page to `ready`. */
module Jobs {
  import opened Base
  import Urls

  /** `PageState.state`. The backend never moves a page to `error`. */
  datatype PageStatus = Queued | Extracting | Tts | Ready | Error

  /** One page of a job. Only its job refers to it, so it is kept as a value in the
      job's page table and "updated in place" by replacing its entry. */
  datatype PageState = PageState(index: int, state: PageStatus, audio: Option<string>, reason: Option<string>)

  /** `PageState(index=i)`: queued, no audio, no reason. */
  function NewPage(i: int): PageState {
    PageState(i, Queued, None, None)
  }

  /** The page table of a freshly created job of `n` pages. */
  function QueuedPages(n: nat): map<int, PageState> {
    map i | 0 <= i < n :: NewPage(i)
  }

  /** The page table holds exactly the indexes 0..total-1, each under its own index. */
  ghost predicate WellFormedPages(pages: map<int, PageState>, total: nat) {
    && (forall i :: i in pages <==> 0 <= i < total)
    && (forall i :: i in pages ==> pages[i].index == i)
  }

  /** `done` counts the finished pages: it lies in 0..total, and a page is `ready`
      exactly when its index is below `done` (pages finish in index order). */
  ghost predicate DoneCountsReady(pages: map<int, PageState>, total: nat, done: int) {
    && 0 <= done <= total
    && forall i :: i in pages && 0 <= i < total ==> (pages[i].state == Ready <==> i < done)
  }

  /** The indexes of the pages that are `ready`. */
  ghost function ReadyPages(pages: map<int, PageState>, total: nat): set<int> {
    set i | 0 <= i < total && i in pages && pages[i].state == Ready
  }

  /** The indexes 0..n-1, as a set of exactly n elements. */
  ghost function Below(n: nat): (s: set<int>)
    ensures forall i :: i in s <==> 0 <= i < n
    ensures |s| == n
  {
    if n == 0 then {} else Below(n - 1) + {n - 1}
  }

  /** Under the job invariant, `done` is the number of `ready` pages. */
  lemma ReadyCount(pages: map<int, PageState>, total: nat, done: int)
    requires WellFormedPages(pages, total) && DoneCountsReady(pages, total, done)
    ensures done == |ReadyPages(pages, total)|
  {
    assert ReadyPages(pages, total) == Below(done);
  }

  /** One page as a snapshot lists it; `audio` and `reason` are omitted unless set. */
  datatype PageEntry = PageEntry(index: int, state: PageStatus, audio: Option<string>, reason: Option<string>)

  datatype Progress = Progress(done: int, total: int)

  datatype Snapshot = Snapshot(jobId: string, pages: seq<PageEntry>, progress: Progress)

  /** The events a job's queue carries, and the replay burst sends, without their
      text framing. */
  datatype Event =
    | PageStatusEvent(entry: PageEntry)
    | PageReadyEvent(index: int, audio: string)
    | ProgressEvent(progress: Progress)
    | JobDoneEvent(ok: bool)

  /** Python's `if p.audio:` — a field counts as set when it holds a non-empty string. */
  function Present(field: Option<string>): Option<string> {
    if field.Some? && field.value != "" then field else None
  }

  function Entry(p: PageState): PageEntry {
    PageEntry(p.index, p.state, Present(p.audio), Present(p.reason))
  }

  /** The value `_compose_snapshot` builds from a job's fields. */
  function SnapshotOf(jobId: string, total: nat, done: int, pages: map<int, PageState>): Snapshot
    requires forall i :: 0 <= i < total ==> i in pages
  {
    Snapshot(jobId, seq(total, i requires 0 <= i < total => Entry(pages[i])), Progress(done, total))
  }

  /** A snapshot of a well-formed job lists exactly `total` pages in index order, each
      with its state, with `audio` and `reason` only where the page has them set, and
      reports the job's progress. */
  lemma SnapshotReflectsJob(jobId: string, total: nat, done: int, pages: map<int, PageState>)
    requires WellFormedPages(pages, total)
    ensures var s := SnapshotOf(jobId, total, done, pages);
      && s.jobId == jobId
      && |s.pages| == total
      && s.progress == Progress(done, total)
      && forall i :: 0 <= i < total ==>
        && s.pages[i].index == i
        && s.pages[i].state == pages[i].state
        && (s.pages[i].audio.Some? <==> pages[i].audio.Some? && pages[i].audio.value != "")
        && (s.pages[i].audio.Some? ==> s.pages[i].audio == pages[i].audio)
        && (s.pages[i].reason.Some? <==> pages[i].reason.Some? && pages[i].reason.value != "")
        && (s.pages[i].reason.Some? ==> s.pages[i].reason == pages[i].reason)
  {
  }

  /** A new job's snapshot: every page queued with neither audio nor reason, nothing done. */
  lemma NewJobSnapshot(jobId: string, total: nat)
    ensures var s := SnapshotOf(jobId, total, 0, QueuedPages(total));
      && |s.pages| == total
      && s.progress == Progress(0, total)
      && forall i :: 0 <= i < total ==> s.pages[i] == PageEntry(i, Queued, None, None)
  {
  }

  /** Page i once the pipeline is through with it: `ready`, with its audio URL. */
  function Finished(cdnBase: string, jobId: string, i: nat, p: PageState): PageState {
    p.(state := Ready, audio := Some(Urls.PageAudioUrl(cdnBase, jobId, i)))
  }

  /** The page table once pages 0..n-1 are finished. */
  function FinishedUpTo(cdnBase: string, jobId: string, pages: map<int, PageState>, n: nat): map<int, PageState> {
    map k | k in pages :: if 0 <= k < n then Finished(cdnBase, jobId, k, pages[k]) else pages[k]
  }

  lemma FinishedUpToValid(cdnBase: string, jobId: string, pages: map<int, PageState>, total: nat, n: nat)
    requires WellFormedPages(pages, total)
    ensures WellFormedPages(FinishedUpTo(cdnBase, jobId, pages, n), total)
  {
  }

  lemma FinishedUpToStep(cdnBase: string, jobId: string, pages: map<int, PageState>, n: nat)
    requires n in pages
    ensures FinishedUpTo(cdnBase, jobId, pages, n)[n := Finished(cdnBase, jobId, n, pages[n])]
      == FinishedUpTo(cdnBase, jobId, pages, n + 1)
  {
  }

  /** Once the pipeline has finished every page of a new job, its snapshot lists every
      page `ready` with its own audio URL and no reason, and reports all pages done. */
  lemma FinishedJobSnapshot(cdnBase: string, jobId: string, total: nat, pages: map<int, PageState>)
    requires forall i :: 0 <= i < total ==> i in pages && pages[i] == Finished(cdnBase, jobId, i, NewPage(i))
    ensures var s := SnapshotOf(jobId, total, total, pages);
      && |s.pages| == total
      && s.progress == Progress(total, total)
      && forall i :: 0 <= i < total ==>
        s.pages[i] == PageEntry(i, Ready, Some(Urls.PageAudioUrl(cdnBase, jobId, i)), None)
  {
    var s := SnapshotOf(jobId, total, total, pages);
    forall i | 0 <= i < total
      ensures s.pages[i] == PageEntry(i, Ready, Some(Urls.PageAudioUrl(cdnBase, jobId, i)), None)
    {
      assert Urls.PageAudioUrl(cdnBase, jobId, i) != "";
    }
  }

  /** `_simulate_processing` and `job.events`: a job, its pages and its event log. */
  class JobState {
    const jobId: string
    const total: nat
    var done: int
    var pages: map<int, PageState>
    var events: seq<Event>
    var createdAt: int
    var updatedAt: int

    /** The page table holds pages 0..total-1 under their own indexes, and `done`
        counts the pages that are `ready`. */
    ghost predicate Valid()
      reads this
    {
      WellFormedPages(pages, total) && DoneCountsReady(pages, total, done)
    }

    /** `JobState(job_id=..., total=...)` at time `now`: no pages yet, nothing done. */
    constructor (jobId: string, total: nat, now: int)
      ensures this.jobId == jobId && this.total == total
      ensures done == 0 && pages == map[] && events == []
      ensures createdAt == now && updatedAt == now
    {
      this.jobId := jobId;
      this.total := total;
      done := 0;
      pages := map[];
      events := [];
      createdAt := now;
      updatedAt := now;
    }

    /** The pipeline stub, run to completion: queue a `queued` status for every page,
        then take each page in ascending order through `extracting` and `tts` to
        `ready` with its audio URL, counting it done and stamping the job with
        `clock[i]`, the time read after page i; finally report the job done. The task
        is started once, on a job that has nothing done yet. */
    method SimulateProcessing(cdnBase: string, clock: seq<int>)
      requires Valid() && done == 0
      requires |clock| == total
      modifies this
      ensures Valid()
      ensures events == old(events) + ProcessingLog(cdnBase, jobId, total, old(done))
      ensures done == old(done) + total
      ensures forall i :: 0 <= i < total ==> pages[i] == Finished(cdnBase, jobId, i, old(pages)[i])
      ensures updatedAt == if total == 0 then old(updatedAt) else clock[total - 1]
      ensures createdAt == old(createdAt)
    {
      QueueInitialStatuses();
      AdvanceAllPages(cdnBase, clock);
      events := events + [JobDoneEvent(true)];
      assert events == old(events) + ProcessingLog(cdnBase, jobId, total, old(done));
      assert forall i :: 0 <= i < total ==> pages[i].state == Ready;
    }

    /** The page loop: pages 0..total-1 in ascending order, each advanced to `ready`. */
    method AdvanceAllPages(cdnBase: string, clock: seq<int>)
      requires WellFormedPages(pages, total)
      requires |clock| == total
      modifies this
      ensures WellFormedPages(pages, total)
      ensures pages == FinishedUpTo(cdnBase, jobId, old(pages), total)
      ensures events == old(events) + StepEvents(cdnBase, jobId, total, old(done), total)
      ensures done == old(done) + total
      ensures updatedAt == if total == 0 then old(updatedAt) else clock[total - 1]
      ensures createdAt == old(createdAt)
    {
      for i := 0 to total
        invariant pages == FinishedUpTo(cdnBase, jobId, old(pages), i)
        invariant done == old(done) + i
        invariant events == old(events) + StepEvents(cdnBase, jobId, total, old(done), i)
        invariant updatedAt == if i == 0 then old(updatedAt) else clock[i - 1]
        invariant createdAt == old(createdAt)
      {
        FinishedUpToValid(cdnBase, jobId, old(pages), total, i);
        ghost var before := events;
        AdvancePage(cdnBase, i, clock[i]);
        ghost var steps := PageSteps(cdnBase, jobId, total, old(done), i);
        assert events == before + steps;
        assert StepEvents(cdnBase, jobId, total, old(done), i + 1)
          == StepEvents(cdnBase, jobId, total, old(done), i) + steps;
        FinishedUpToStep(cdnBase, jobId, old(pages), i);
      }
      FinishedUpToValid(cdnBase, jobId, old(pages), total, total);
    }

    /** The initial burst of the pipeline: a `queued` status for every page, in order. */
    method QueueInitialStatuses()
      modifies this`events
      ensures events == old(events) + QueuedEvents(total)
    {
      for i := 0 to total
        invariant events == old(events) + QueuedEvents(i)
      {
        events := events + [PageStatusEvent(PageEntry(i, Queued, None, None))];
        assert QueuedEvents(i + 1) == QueuedEvents(i) + [PageStatusEvent(PageEntry(i, Queued, None, None))];
      }
    }

    /** One pass of the page loop: page i goes `extracting`, `tts`, then `ready` with
        its audio URL; `done` goes up by one and the job is stamped with `now`. */
    method AdvancePage(cdnBase: string, i: nat, now: int)
      requires WellFormedPages(pages, total) && i < total
      modifies this
      ensures WellFormedPages(pages, total)
      ensures pages == old(pages)[i := Finished(cdnBase, jobId, i, old(pages)[i])]
      ensures done == old(done) + 1
      ensures events == old(events) + PageSteps(cdnBase, jobId, total, old(done) - i, i)
      ensures updatedAt == now && createdAt == old(createdAt)
    {
      var page := pages[i];
      page := page.(state := Extracting);
      pages := pages[i := page];
      events := events + [PageStatusEvent(PageEntry(i, Extracting, None, None))];

      page := page.(state := Tts);
      pages := pages[i := page];
      events := events + [PageStatusEvent(PageEntry(i, Tts, None, None))];

      page := page.(state := Ready, audio := Some(Urls.PageAudioUrl(cdnBase, jobId, i)));
      pages := pages[i := page];
      done := done + 1;
      updatedAt := now;

      events := events + [PageReadyEvent(i, page.audio.value)];
      events := events + [ProgressEvent(Progress(done, total))];
    }
  }

  /** `_compose_snapshot(job)`: one entry per page, in index order, then the progress. */
  method ComposeSnapshot(job: JobState) returns (s: Snapshot)
    requires job.Valid()
    ensures s == SnapshotOf(job.jobId, job.total, job.done, job.pages)
  {
    var entries: seq<PageEntry> := [];
    for i := 0 to job.total
      invariant |entries| == i
      invariant forall k :: 0 <= k < i ==> entries[k] == Entry(job.pages[k])
    {
      var p := job.pages[i];
      var d := PageEntry(p.index, p.state, None, None);
      if p.audio.Some? && p.audio.value != "" {
        d := d.(audio := p.audio);
      }
      if p.reason.Some? && p.reason.value != "" {
        d := d.(reason := p.reason);
      }
      entries := entries + [d];
    }
    s := Snapshot(job.jobId, entries, Progress(job.done, job.total));
  }

  /** The `page_status` events for the given entries, in order. */
  function PageStatusBurst(entries: seq<PageEntry>): seq<Event> {
    if entries == [] then [] else [PageStatusEvent(entries[0])] + PageStatusBurst(entries[1..])
  }

  /** What a new subscriber of `/jobs/{id}/events` is sent before any live event: one
      `page_status` per snapshot page, then the snapshot's progress. */
  function ReplayBurst(s: Snapshot): seq<Event> {
    PageStatusBurst(s.pages) + [ProgressEvent(s.progress)]
  }

  lemma {:induction false} PageStatusBurstAt(entries: seq<PageEntry>)
    ensures |PageStatusBurst(entries)| == |entries|
    ensures forall i :: 0 <= i < |entries| ==> PageStatusBurst(entries)[i] == PageStatusEvent(entries[i])
  {
    if entries != [] {
      PageStatusBurstAt(entries[1..]);
    }
  }

  /** The burst is one `page_status` per snapshot page, in order, followed by exactly
      one `progress` equal to the snapshot's. */
  lemma ReplayBurstShape(s: Snapshot)
    ensures |ReplayBurst(s)| == |s.pages| + 1
    ensures forall i :: 0 <= i < |s.pages| ==> ReplayBurst(s)[i] == PageStatusEvent(s.pages[i])
    ensures ReplayBurst(s)[|s.pages|] == ProgressEvent(s.progress)
  {
    PageStatusBurstAt(s.pages);
  }

  /** The page list and progress a client rebuilds from a replay burst. */
  datatype Restored = Restored(pages: seq<PageEntry>, progress: Progress)

  /** A client reading a burst: `page_status` events collect pages, and a single final
      `progress` event ends it; anything else is not a burst. */
  function ReadBurst(burst: seq<Event>): Option<Restored> {
    if burst == [] then None
    else match burst[0]
      case PageStatusEvent(e) =>
        (match ReadBurst(burst[1..])
         case None => None
         case Some(r) => Some(Restored([e] + r.pages, r.progress)))
      case ProgressEvent(p) => if |burst| == 1 then Some(Restored([], p)) else None
      case _ => None
  }

  lemma {:induction false} ReadPageStatusBurst(entries: seq<PageEntry>, p: Progress)
    ensures ReadBurst(PageStatusBurst(entries) + [ProgressEvent(p)]) == Some(Restored(entries, p))
  {
    if entries != [] {
      ReadPageStatusBurst(entries[1..], p);
      var burst := PageStatusBurst(entries) + [ProgressEvent(p)];
      assert burst[1..] == PageStatusBurst(entries[1..]) + [ProgressEvent(p)];
      assert entries == [entries[0]] + entries[1..];
    }
  }

  /** A reconnecting client rebuilds exactly the snapshot's pages and progress from the
      burst. */
  lemma ReplayBurstRestoresSnapshot(s: Snapshot)
    ensures ReadBurst(ReplayBurst(s)) == Some(Restored(s.pages, s.progress))
  {
    ReadPageStatusBurst(s.pages, s.progress);
  }

  /** The first part of the processing log: page i queued, for every page. */
  function QueuedEvents(n: nat): seq<Event> {
    seq(n, i => PageStatusEvent(PageEntry(i, Queued, None, None)))
  }

  /** The four events for page i when `done` started at `done0`. */
  function PageSteps(cdnBase: string, jobId: string, total: nat, done0: int, i: nat): seq<Event> {
    [ PageStatusEvent(PageEntry(i, Extracting, None, None)),
      PageStatusEvent(PageEntry(i, Tts, None, None)),
      PageReadyEvent(i, Urls.PageAudioUrl(cdnBase, jobId, i)),
      ProgressEvent(Progress(done0 + i + 1, total)) ]
  }

  /** The events of pages 0..n-1, in order. */
  function StepEvents(cdnBase: string, jobId: string, total: nat, done0: int, n: nat): seq<Event> {
    if n == 0 then [] else StepEvents(cdnBase, jobId, total, done0, n - 1) + PageSteps(cdnBase, jobId, total, done0, n - 1)
  }

  /** Everything `_simulate_processing` puts on the job's queue. */
  function ProcessingLog(cdnBase: string, jobId: string, total: nat, done0: int): seq<Event> {
    QueuedEvents(total) + StepEvents(cdnBase, jobId, total, done0, total) + [JobDoneEvent(true)]
  }

  lemma {:induction false} StepEventsAt(cdnBase: string, jobId: string, total: nat, done0: int, n: nat)
    ensures |StepEvents(cdnBase, jobId, total, done0, n)| == 4 * n
    ensures forall i :: 0 <= i < n ==>
      StepEvents(cdnBase, jobId, total, done0, n)[4 * i .. 4 * i + 4] == PageSteps(cdnBase, jobId, total, done0, i)
  {
    if n > 0 {
      StepEventsAt(cdnBase, jobId, total, done0, n - 1);
      var prev := StepEvents(cdnBase, jobId, total, done0, n - 1);
      var all := StepEvents(cdnBase, jobId, total, done0, n);
      assert all == prev + PageSteps(cdnBase, jobId, total, done0, n - 1);
      forall i | 0 <= i < n
        ensures all[4 * i .. 4 * i + 4] == PageSteps(cdnBase, jobId, total, done0, i)
      {
        if i < n - 1 {
          assert all[4 * i .. 4 * i + 4] == prev[4 * i .. 4 * i + 4];
        } else {
          assert all[4 * i .. 4 * i + 4] == all[|prev|..];
        }
      }
    }
  }

  /** The processing log: first `total` queued statuses in index order; then for page i,
      in ascending order, `extracting`, `tts`, `page_ready` with the page's audio URL and
      `progress` with `done` one higher than after the previous page; then one
      `job_done`. */
  lemma ProcessingLogShape(cdnBase: string, jobId: string, total: nat, done0: int)
    ensures var log := ProcessingLog(cdnBase, jobId, total, done0);
      && |log| == 5 * total + 1
      && (forall i :: 0 <= i < total ==> log[i] == PageStatusEvent(PageEntry(i, Queued, None, None)))
      && (forall i :: 0 <= i < total ==>
            log[total + 4 * i .. total + 4 * i + 4] == PageSteps(cdnBase, jobId, total, done0, i))
      && log[5 * total] == JobDoneEvent(true)
  {
    StepEventsAt(cdnBase, jobId, total, done0, total);
    var log := ProcessingLog(cdnBase, jobId, total, done0);
    var steps := StepEvents(cdnBase, jobId, total, done0, total);
    forall i | 0 <= i < total
      ensures log[total + 4 * i .. total + 4 * i + 4] == PageSteps(cdnBase, jobId, total, done0, i)
    {
      assert log[total + 4 * i .. total + 4 * i + 4] == steps[4 * i .. 4 * i + 4];
    }
  }
}
