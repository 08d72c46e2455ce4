# Tanoshi narration backend — verified model of the in-memory core

The narration API (`backend/modal_app.py`) accepts a reading session for a window of
manga pages. It hands back presigned upload URLs, registers a job, and drives every
page of the job through a simulated extraction and text-to-speech pipeline. Clients
follow progress through a snapshot endpoint and an event stream. When no Redis store is
configured, all of this state lives in process memory:

- `JOBS`, the job table;
- `_RATE_BUCKETS`, the per-client fixed-window rate limiter;
- `_IDEMP_MAP`, the idempotency ledger that maps a request key to the job it created.

This project models that in-memory core in Dafny and proves its rules.

- `Base`: an option type, a result type, and the three HTTP errors (429, 400, 404).
- `Settings`: the environment-driven settings (job TTL, rate window, per-kind maximums,
  CDN and API base URLs), with the defaults the code falls back to.
- `Text`: the string primitives the handlers rely on. These are decimal formatting with
  and without padding to three digits, Python's string order, and ASCII lower-casing.
- `RateLimit`: the bucket key, and one charge against the bucket table as a pure
  function. Lemmas cover runs of calls within one window.
- `Idempotency`: the request body, its canonical payload (voice pack sorted by
  speaker label), and the ledger key. The key is a hash of the canonical payload.
- `Urls`: the presigned page uploads, the audio URLs on the CDN, and the voice
  registration plan with its derived voice identifier.
- `Jobs`: `PageState` as a value, and `JobState` as a class whose page table, `done`
  counter, event log and timestamps the pipeline updates in place, under the invariant
  that `done` counts the ready pages. It also holds the
  snapshot composed from a job, and the replay burst sent to a new event subscriber.
- `Sessions`: the `Backend` class holding the three tables. Its methods are the
  handlers: rate check, `/session/start`, `/session/next`, snapshot, event replay,
  background processing of a job, and one pass of the TTL sweep.

Time is a parameter in whole seconds, one reading per request. The id given to a new job
is a parameter. The SHA-256 digest is a function parameter of the canonical payload.

## Model

| member | source | states |
|---|---|---|
| Text.Decimal | backend/modal_app.py:251 | the decimal text of a page number is a non-empty string of digits with no leading zero |
| Text.DecimalInjective | backend/modal_app.py:251 | two page numbers print the same exactly when they are equal |
| Text.ZeroPad3 | backend/modal_app.py:243 | the padded index is all digits, three long or as long as the unpadded number if longer, and reads back as the index |
| RateLimit.BucketKeyInjective | backend/modal_app.py:211-213 | two `rl:{kind}:{ip}` keys are equal exactly when kind and address are, so no two clients or kinds share a bucket |
| RateLimit.Charge | backend/modal_app.py:224-231 | a missing or elapsed bucket restarts at count 1 with reset time now plus the window and admits. Otherwise the count rises by one, is kept even when rejected, and the call is admitted exactly when the new count is within the maximum. No other bucket changes |
| RateLimit.ChargeWithinWindow | backend/modal_app.py:228-231 | inside a running window, the j-th further call is admitted exactly when the old count plus j+1 is within the maximum. The count ends raised by the number of calls, and the reset time and all other buckets are unchanged |
| RateLimit.NthCallInWindow | backend/modal_app.py:224-231 | from no live window, calls that all fall within the window opened by the first admit the first call always and the n-th (n >= 2) exactly when n <= the maximum. The bucket ends at the number of calls and other buckets are untouched |
| RateLimit.DefaultStartLimit | backend/modal_app.py:206-231 | with the default settings, a client opening a `start` window is admitted on ten calls within 60 seconds and rejected on the eleventh |
| Idempotency.SortByKey | backend/modal_app.py:278 | sorting the voice pack keeps exactly its entries (same multiset) |
| Idempotency.SortAscending | backend/modal_app.py:278 | a voice pack with distinct speaker labels sorts into strictly ascending label order |
| Idempotency.AscendingUnique | backend/modal_app.py:277-278 | two strictly key-sorted packs with the same entries are identical, which makes the sorted form canonical |
| Idempotency.Canonical | backend/modal_app.py:274-279 | the canonical payload keeps the chapter, start index and size, holds exactly the voice-pack entries, in strictly ascending label order when the labels are distinct, and leaves out the client |
| Idempotency.CanonicalIff | backend/modal_app.py:272-279 | two requests have the same canonical payload exactly when chapter, window and voice-pack entries agree, in whatever order; the client information plays no part |
| Idempotency.KeyIgnoresOrderAndClient | backend/modal_app.py:272-281 | the `narration:idemp:` key of two requests with the same chapter, window and voice-pack entries is the same whatever the entry order or client |
| Urls.MakePresignedPut | backend/modal_app.py:239-246 | the upload entry carries the page index, content type `image/png` and a 3,000,000-byte limit |
| Urls.PresignedPutDistinct | backend/modal_app.py:243 | two pages of one job get the same upload URL exactly when they are the same page |
| Urls.AudioUrlParts | backend/modal_app.py:249-251 | the playlist URL reads back as the CDN base, `/audio/`, the job id, `/page-`, the page part and `/index.m3u8`, each at its fixed offset |
| Urls.PageAudioUrlDistinct | backend/modal_app.py:249-251 | two pages of one job get the same audio URL exactly when they are the same page |
| Urls.VoiceSlug | backend/modal_app.py:457 | position by position, a space becomes `-` and every other character is lower-cased |
| Urls.VoiceSlugNormalises | backend/modal_app.py:457 | a slug has no spaces and no upper-case letters, a name that has none is its own slug, and deriving twice equals deriving once |
| Urls.VoiceRegister | backend/modal_app.py:455-478 | the registration names the voice `sovits:` plus the slug and carries a dataset upload plan exactly when the mode is `few_shot`. Every upload URL lies under `https://uploads.tanoshi.app/voices/` plus the voice id, and the status stream under the API base's `/v1/voices/` plus the voice id |
| Jobs.SnapshotReflectsJob | backend/modal_app.py:253-263 | a snapshot lists exactly `total` pages in index order, each with its state, audio and reason only where set, and progress `{done, total}` |
| Jobs.NewJobSnapshot | backend/modal_app.py:369-371 | a new job's snapshot has every page queued with neither audio nor reason, and progress 0 of total |
| Jobs.FinishedJobSnapshot | backend/modal_app.py:304-306 | once every page of a new job is through the pipeline, its snapshot lists every page ready with its own audio URL and reports all pages done |
| Jobs.JobState.constructor | backend/modal_app.py:155-163 | a new job has no pages, nothing done, an empty event queue and both timestamps at the creation time |
| Jobs.ReadyCount | backend/modal_app.py:304-306 | under the job invariant (`0 <= done <= total`, and page i is ready exactly when i < done, as marking a page ready and counting it happen together), `done` equals the number of ready pages |
| Jobs.JobState.SimulateProcessing | backend/modal_app.py:284-315 | started once, on a job with nothing done, it keeps the job invariant, and the job's log grows by exactly the processing log, `done` rises by `total`, every page is ready with its audio URL and otherwise unchanged, `updated_at` is the time read after the last page, and `created_at` is untouched |
| Jobs.JobState.QueueInitialStatuses | backend/modal_app.py:289-290 | one `page_status queued` event is appended per page, in index order |
| Jobs.JobState.AdvanceAllPages | backend/modal_app.py:293-313 | pages are finished in ascending order; each adds its four events, one to `done`, and stamps the job |
| Jobs.JobState.AdvancePage | backend/modal_app.py:294-312 | page i goes through extracting and tts to ready with its audio URL. The job's log gains `extracting`, `tts`, `page_ready{i, audio}` and `progress{done+1, total}`, and `done` rises by one |
| Jobs.ComposeSnapshot | backend/modal_app.py:253-263 | the snapshot built by the loop is the snapshot of the job's fields |
| Jobs.ProcessingLogShape | backend/modal_app.py:289-315 | the processing log has `5*total+1` events: `total` queued statuses, then for each page i in order the four events of page i with progress `i+1`, then one `job_done` |
| Jobs.StepEventsAt | backend/modal_app.py:293-312 | the per-page part of the log is four events per page, page i's at positions `4i..4i+3` |
| Jobs.ReplayBurstShape | backend/modal_app.py:417-420 | the reconnect burst is one `page_status` per snapshot page, in order, followed by exactly one `progress` equal to the snapshot's |
| Jobs.ReplayBurstRestoresSnapshot | backend/modal_app.py:413-420 | reading the burst back yields exactly the snapshot's pages and progress |
| Sessions.UploadPages | backend/modal_app.py:384 | the upload plan holds one entry per page: entry i has index i, content type `image/png` and the 3,000,000-byte limit |
| Sessions.UploadPagesDistinct | backend/modal_app.py:384 | the upload plan lists pages 0..n-1 in order, all PNG, with pairwise different URLs |
| Sessions.SessionResponse | backend/modal_app.py:384-391 | the response names the job and holds one upload entry per page of the window: entry i is page i's PNG upload with the 3,000,000-byte limit, all entries have different URLs, and the status stream lies under the API base's `/v1/narration/jobs/` plus the job id |
| Sessions.LedgerRecordThenLookup | backend/modal_app.py:350-379 | after the ledger records a registered job under a key at time `now`, lookups of that key find the job exactly before `now + TTL` and miss from then on. Lookups of every other key are unchanged, and a job no longer registered is never found |
| Sessions.CreateJob | backend/modal_app.py:369-371 | the new job is fresh, with total `window.size`, nothing done, an empty log and pages 0..total-1 all queued with no audio and no reason |
| Sessions.Backend.constructor | backend/modal_app.py:166-236 | the backend starts with no jobs, no rate buckets and no ledger entries |
| Sessions.Backend.CheckRateLimit | backend/modal_app.py:210-231 | the bucket of the kind and client address (`unknown` without one) is charged against the kind's maximum, and the result is that charge's admission |
| Sessions.Backend.SessionStart | backend/modal_app.py:318-390 | the start bucket is always charged first. A rejection answers 429 and leaves jobs and ledger alone. So does a window size other than 20, which answers 400. A live ledger hit answers the recorded job and creates nothing. Otherwise a fresh job with all pages queued is registered under the new id, every other entry of the job table stays, and the ledger maps the key to the new id until now plus the TTL |
| Sessions.Backend.SessionNext | backend/modal_app.py:395-400 | the next bucket is charged first; if that rejects, 429 and nothing else changes; otherwise the start behaviour follows, charging the start bucket too |
| Sessions.Backend.ProcessJob | backend/modal_app.py:382 | the background processing, started once on a job with nothing done, changes only that job, as the pipeline specifies, and keeps every job's invariant |
| Sessions.Backend.JobSnapshot | backend/modal_app.py:440-451 | an unregistered job answers 404; a registered one answers the snapshot of its fields, whose progress has `0 <= done <= total` and `done` equal to the number of ready pages |
| Sessions.Backend.JobEvents | backend/modal_app.py:402-420 | an unregistered job answers 404; a registered one answers the replay burst of its snapshot |
| Sessions.Backend.ReconnectMatchesSnapshot | backend/modal_app.py:413-420 | at the same state, the snapshot and the event subscription both find the job or both answer 404, and the burst restores exactly the snapshot's pages and progress |
| Sessions.Backend.SweepExpired | backend/modal_app.py:187-193 | one sweep keeps exactly the jobs with `now - updated_at <= TTL`, leaves those objects as they were, and touches neither ledger nor rate table |
| Sessions.RepeatedStartReusesJob | backend/modal_app.py:350-364 | a request repeated within the TTL after it created a job answers that job again and registers nothing further |
| Sessions.ProcessThenSnapshot | backend/modal_app.py:284-315 | a queued job processed to completion reads back with every page ready with its own audio URL and all pages done |
| Sessions.NewSessionPlaysThrough | backend/modal_app.py:318-390 | a start that answers the new id gives 20 distinct upload URLs, and after processing the snapshot shows all 20 pages ready with their audio URLs |

## Left out

- Redis: every branch that uses the Redis store (`get_redis`, the Redis rate counter, snapshot persistence, the Redis ledger and the Redis snapshot read) is network I/O to an external store; only the in-memory fallbacks are modelled, and `_persist_snapshot` is a no-op there.
- asyncio: `create_task`, `sleep`, the `asyncio.Queue` and the SSE streaming loop with its heartbeats and disconnect checks are concurrency and I/O. The queue is a sequence of events. Background processing runs atomically as `Backend.ProcessJob`, so its interleaving with other requests is not modelled.
- Event text: events are a datatype; the `event:`/`data:` framing and `json.dumps` are not modelled, and neither is the constant `duration` of 12.3 seconds in `page_ready` (a float).
- Modal deployment stubs (image, volume, GPU classes, model download, `synth`) and the FastAPI/CORS wiring are configuration and foreign calls.
- Request validation by pydantic: `Window`'s bounds `start_index >= 0` and `size >= 1` are preconditions (`WellFormed`), as is the fact that `voice_pack`, being a dict, has distinct keys.
- `voice_get` returns a constant and is not modelled. Neither are the `engine` and `lang_hint` fields of a voice registration, which the code ignores.
- Time: `time.time()` returns a float read several times per request; the model takes one integer `now` per request, so the ledger's reset time uses the same reading as the lookup. With integer time, the ledger's `isinstance(reset_at, float)` test is always passed and is dropped.
- `uuid.uuid4()` and SHA-256 over `json.dumps(..., sort_keys=True)` are parameters: the job id is passed in, and the digest is an arbitrary function of the canonical payload (so key equality follows from payload equality, not conversely).
- Environment variables are read into `Settings.Config`, and `Settings.Defaults` holds the defaults. The model does not read the environment. `CDN_BASE_URL` and `API_BASE_URL` are read on every call in the code, but the model takes the environment as fixed once the process has started.
- Urls.VoiceSlug: lower-cases ASCII letters only; Python's `str.lower` also folds non-ASCII letters.
- Dict iteration order in the sweep: the model collects expired ids in an arbitrary order, which does not matter because removal commutes.
- The `error` page state exists but nothing in this code moves a page to it.
