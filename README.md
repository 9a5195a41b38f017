# piapi job tracking, modelled in Dafny

piapi runs `you-get` downloads in the background and tracks them in Redis. Its core, in
`app/main.py`, is the job table: a list `piapi.youget.jobs` of job ids (newest first, by `LPUSH`)
and five string keys per job, `piapi.youget.job.<id>.status|video_name|url|pid|metadata`. The
status strings are `ready`, `downloading` and `finish`. `RedisConn` creates a job, sets single
fields, reads a job back (with or without its metadata), finds a job by url, and reconciles
statuses against the operating system's process table. A daily janitor (`job()`) prunes the
queue, and the request handlers `get_info`, `download`, `list_all` and `list` combine these steps.

The model:

- `keys.dfy` (module `Keys`) holds the key layout. It proves that no two (job, field) pairs share
  a key, whatever the id contains, and that no per-job key is the queue's key.
- `records.dfy` (module `Records`) holds the readers as functions of the store's contents. A
  read of an absent key is a `KeyMissing` failure: Python's `None.decode()` raises there. It also
  holds the key updates of the writers and the create/read round trip.
- `reconcile.dfy` (module `Reconcile`) holds the single-job and whole-queue reconcile rules. The
  whole-queue sweep is proved equal to a closed form in which every decision is taken on the
  original store. That closed form gives the sweep's frame and its idempotence.
- `store.dfy` (module `Store`) holds class `JobStore`, whose fields `kv` (string keys) and `jobs`
  (the list) the `RedisConn` methods update in place. `get_jobs_uuids` (`LRANGE 0 -1`) is a read
  of `jobs`. The `MULTI` pipeline of `set_job_with_ready` is one step.
- `janitor.dfy` (module `Janitor`) holds the sweep `job()` as a loop of `LREM key 0 id`, proved
  to leave exactly the started jobs, in order.
- `endpoints.dfy` (module `Endpoints`) holds the store-level steps of the four handlers. That
  includes the default-format loop of `download`.
- `lifecycle.dfy` (module `Lifecycle`) proves two invariants: every queued job has a record, and
  a job's pid is set exactly when it has left `ready`. Each is proved for every operation that
  writes the store: create, download, the single-job and whole-queue reconcile, and the
  janitor's prune. It also proves the create, download, finish scenario end to end.

External inputs become parameters. These are the set of live pids (`psutil.process_iter`), the
launched pid (`run_command_no_wait`), the probe's standard output (`run_command`), the new job id
(`uuid.uuid4`), and the JSON decoding of probe output and stored metadata (a function argument).

The model follows the code as written, also where it behaves differently from what a reader
would expect of a download tracker:

- The finished status is the string `finish`. A client expecting `finished` never sees it.
- The url lookup compares only the head of the queue, the newest job. An older job with the same
  url is never found (`Records.DedupMissesOlderMatch`), where a lookup would be expected to scan
  the whole queue (`Records.FirstJobWithUrl`).
- `get_info` looks up the url of the request but stores the url the probe reports
  (app/main.py:220 against 229-235). A repeated request is answered from the store only when
  the two are equal and the job id is non-empty (`Endpoints.RepeatedGetInfo`). Otherwise the
  probe runs again and a second job is created (`Records.DedupMissesWhenProbeUrlDiffers`).
- The janitor prunes every job whose pid key is absent or empty. That includes jobs in `ready`
  that wait for a download, not only jobs with a missing record (`Janitor.NewJobIsPruned`). It
  removes every occurrence of such an id, not one.
- `download` writes `downloading` whatever the previous status was, so a `finish` job goes back
  to `downloading` (`Records.DownloadTransition`). Status is therefore not monotonic.
- A sweep that meets an unreadable record raises and keeps the writes it already made.

## Model

| member | source | states |
|---|---|---|
| Keys.FieldName | app/main.py:44-49 | each field's key suffix is non-empty and has no dot |
| Keys.FieldKeyLayout | app/main.py:44-49 | a per-job key is `piapi.youget.job.`, then the id, then a dot and the field's name |
| Keys.FieldKeyInjective | app/main.py:44-49 | two per-job keys are equal only for the same job id and field, for any id |
| Keys.QueueKeyIsNoFieldKey | app/main.py:44-49 | the queue's key `piapi.youget.jobs` is never a per-job key, so keeping the list apart from the string keys loses nothing |
| Records.GetJobWithUuid | app/main.py:64-77 | succeeds iff all five keys of the job are present, returning their values; otherwise fails naming an absent key of that job |
| Records.GetJobWithUuidNoMetadata | app/main.py:79-90 | succeeds iff the four non-metadata keys are present, returning their values and no metadata; otherwise fails naming one of those four absent keys |
| Records.NoMetadataReadIgnoresMetadataKey | app/main.py:64-90 | writing or deleting the metadata key never changes the four-key read; with metadata absent the five-key read fails on it |
| Records.ReadsDependOnOwnKeys | app/main.py:64-90 | both reads of a job depend only on that job's five keys |
| Records.GetJobsToInteDict | app/main.py:98-106 | drained, yields every queued id with its record in queue order, and fails iff some queued record is unreadable |
| Records.GetJobUuidWithUrl | app/main.py:108-115 | None on an empty queue; fails iff the head job is unreadable; a truthy answer iff the head id is non-empty and the head job's url equals the url, and the answer is then the head id |
| Records.DedupIsHeadOnly | app/main.py:108-115 | the answer is the same for any two queues with the same head: no later entry is examined |
| Records.FirstJobWithUrl | app/main.py:108-115 | reference full scan the lookup stops short of: the first queued position whose stored url matches, or none |
| Records.DedupFoundAgreesWithScan | app/main.py:108-115 | a truthy answer is the job the full scan finds first |
| Records.DedupMissesOlderMatch | app/main.py:108-115 | when the first match is not the head and the head is readable, the lookup answers "" |
| Records.GetJobMetadataRaw | app/main.py:117-119 | succeeds iff the metadata key is present, with its value; otherwise fails naming that key; agrees with the metadata of the full read whenever that succeeds |
| Records.Created | app/main.py:45-49 | the pipeline's five SETs add exactly the job's five keys and change no key outside them |
| Records.SetField | app/main.py:52-62 | a single SET adds only its key, which then holds the value, and changes no other key |
| Records.MarkDownloading | app/main.py:265-266 | the two writes of a download leave status `downloading` and the new pid, and change no other key |
| Records.CreateRoundTrip | app/main.py:41-50 | reading a just-created job returns the given name, url and metadata, status `ready` and pid "" |
| Records.CreateLeavesOthers | app/main.py:41-50 | creating a job changes no other job's reads |
| Records.SetFieldFrame | app/main.py:52-62 | a single-field write changes no other (job, field) key |
| Records.SetFieldRead | app/main.py:52-62 | after a single-field write the job reads back with exactly that field replaced, and other jobs read as before |
| Records.DownloadTransition | app/main.py:265-266 | after the status and pid writes the job reads back `downloading` with the new pid, whatever its status was, with its other fields and all other jobs unchanged |
| Records.DedupFindsNewestJob | app/main.py:108-119 | after a job is created, the lookup by the url it was stored with answers its id (a truthy answer only when the id is non-empty), and its metadata reads back as stored |
| Records.DedupMissesWhenProbeUrlDiffers | app/main.py:220-235 | when the stored url differs from the requested one, the lookup right after the create answers "": the new job is not found |
| Reconcile.ReconcileJob | app/main.py:132-138 | succeeds iff the full read succeeds, with its error otherwise; keeps the key set and every key but the job's status, which changes only to `finish` and only when the pid is stale (`Stale`: non-empty, as the `if pid:` test, and not among the live process ids) |
| Reconcile.ReconcileAll | app/main.py:124-130 | the sweep keeps the set of keys |
| Reconcile.ReconcileJobRule | app/main.py:132-138 | unreadable job: fails and changes nothing; empty or live pid: store unchanged; stale pid: the job reads back with status `finish`, other jobs unchanged, same keys |
| Reconcile.ReconcileJobIdempotent | app/main.py:132-138 | reconciling a job twice against the same live set equals reconciling it once |
| Reconcile.NoMetadataReadIgnoresStatus | app/main.py:124-130 | whether a four-key read succeeds, and the pid it returns, do not depend on status values, so earlier writes of the sweep do not change later decisions |
| Reconcile.ReconcileAllClosedForm | app/main.py:124-130 | the step-by-step sweep equals the original store with the status of exactly the stale jobs of the readable queue prefix set to `finish`, stopping with the first unreadable record's error |
| Reconcile.ReconcileAllFrame | app/main.py:124-130 | the sweep keeps every key and every pid, url, video_name and metadata value |
| Reconcile.ReconcileAllOnlyFinishes | app/main.py:124-130 | a status changes only to `finish`, and only for a queued job whose pid is stale |
| Reconcile.StaleIdsComplete | app/main.py:124-130 | when no record stops the sweep, every queued job is readable and every one with a stale pid is marked |
| Reconcile.ReconcileAllFinishesStale | app/main.py:124-130 | when no record stops the sweep, every queued job with a stale pid ends with status `finish` |
| Reconcile.ReconcileAllIdempotent | app/main.py:124-130 | sweeping twice against the same live set equals sweeping once, including the error |
| Store.JobStore.constructor | app/main.py:32-39 | a connection sees the store's current keys and queue |
| Store.JobStore.SetJobWithReady | app/main.py:41-50 | pushes the id at the front of the queue and writes the five keys in one step |
| Store.JobStore.SetJobWithDownloading | app/main.py:52-54 | writes only the job's status key, to `downloading`; queue unchanged |
| Store.JobStore.SetJobWithFinish | app/main.py:56-58 | writes only the job's status key, to `finish`; queue unchanged |
| Store.JobStore.SetJobPid | app/main.py:60-62 | writes only the job's pid key; queue unchanged |
| Store.JobStore.UpdateJobStatus | app/main.py:132-138 | leaves the store as the single-job rule says, and reports its failure with the store untouched |
| Store.JobStore.UpdateJobsStatus | app/main.py:124-130 | walks a snapshot of the queue and leaves the store and error the sweep function gives; queue unchanged |
| Janitor.Unstarted | app/main.py:147 | for a readable job, pruned iff its pid reads "" |
| Janitor.Without | app/main.py:148 | LREM with count 0: the result holds exactly the elements not removed |
| Janitor.Pruned | app/main.py:141-148 | the pruned queue holds exactly the queued ids whose pid key is present and non-empty |
| Janitor.PrunedKeepsOrder | app/main.py:141-148 | the pruned queue is a subsequence of the queue: relative order is kept |
| Janitor.PrunedCount | app/main.py:141-148 | every occurrence of an unstarted id is removed and every occurrence of a started one kept |
| Janitor.PrunedIdempotent | app/main.py:141-148 | a second sweep over the same keys removes nothing |
| Janitor.NewJobIsPruned | app/main.py:141-148 | a job just created in `ready`, whose pid is "", is removed by the next sweep |
| Janitor.Sweep | app/main.py:141-148 | the janitor's loop leaves the queue pruned and deletes or changes no key |
| Endpoints.Accumulated | app/main.py:250-254 | the loop's running `size` never goes below zero |
| Endpoints.PickedIffPositive | app/main.py:250-254 | the loop assigns a format iff some stream has positive size, and only from a stream with positive size |
| Endpoints.ChosenFormatIsPositiveStream | app/main.py:250-254 | the chosen format is left as it was when no stream has positive size, and is otherwise the format of such a stream |
| Endpoints.SelectDefaultFormat | app/main.py:248-254 | returns the format of the last stream whose size exceeded the running accumulator, or the initial value when none did |
| Endpoints.GetInfo | app/main.py:217-238 | lookup failure: fails, store unchanged; job found: answers its stored metadata, store unchanged; otherwise decodes the probe output and creates a `ready` job from it, or fails unchanged |
| Endpoints.RepeatedGetInfo | app/main.py:219-236 | two requests for the same url, the probe reporting that url and a non-empty id: the first creates the job, the second answers the stored metadata, and the store holds one new job |
| Endpoints.ResolveUuid | app/main.py:245-246 | a truthy request uuid is kept; otherwise it fails iff the queue is non-empty and its head unreadable, a truthy answer is the head id whose stored url matches, and a miss answers None on an empty queue and "" on a mismatch, naming the job `None` or `""` that download then reads |
| Endpoints.Download | app/main.py:241-272 | succeeds iff the job resolves, a format is given or the stored metadata decodes, and the job is readable; then writes `downloading` and the launched pid and returns the stored record with them; every failure leaves the store unchanged |
| Endpoints.DictOf | app/main.py:279-281 | the dict has exactly the listed ids as keys, each mapped to a record listed for it |
| Endpoints.DictOfLastPairWins | app/main.py:279-281 | an id maps to the job of its last pair: a later pair for the same id overwrites an earlier one |
| Endpoints.ReconciledQueueReadable | app/main.py:275-281 | after a sweep that met no unreadable record, every queued record is readable |
| Endpoints.ListAll | app/main.py:275-281 | reconciles all jobs, then fails iff the sweep failed, and otherwise maps each queued id to its reconciled record |
| Endpoints.ListOne | app/main.py:284-289 | reconciles the job, then returns its record, with status `finish` iff its pid was stale; fails iff the job was unreadable |
| Lifecycle.CreateKeepsComplete | app/main.py:41-50 | creating a job keeps every queued id backed by a full record |
| Lifecycle.SweepKeepsComplete | app/main.py:124-130 | the sweep keeps every queued id backed by a full record |
| Lifecycle.ReconcileJobKeepsComplete | app/main.py:132-138 | reconciling one job keeps every queued id backed by a full record |
| Lifecycle.DownloadKeepsComplete | app/main.py:265-266 | starting a download keeps every queued id backed by a full record |
| Lifecycle.PruneKeepsComplete | app/main.py:141-148 | pruning keeps every queued id backed by a full record |
| Lifecycle.CompleteSweepNeverFails | app/main.py:108-130 | on such a table the sweep meets no error and the url lookup never fails |
| Lifecycle.CreateKeepsConsistent | app/main.py:41-50 | creating a job keeps every queued job's pid empty exactly while its status is `ready` |
| Lifecycle.DownloadKeepsConsistent | app/main.py:265-266 | starting a download with a non-empty pid keeps that consistency |
| Lifecycle.ReconcileJobKeepsConsistent | app/main.py:132-138 | reconciling one job keeps that consistency: it marks `finish` only a job whose pid is set |
| Lifecycle.SweepKeepsConsistent | app/main.py:124-130 | the sweep keeps that consistency: it marks `finish` only jobs whose pid is set |
| Lifecycle.PruneKeepsConsistent | app/main.py:141-148 | pruning keeps that consistency |
| Lifecycle.EndToEnd | app/main.py:233-281 | a created job reads `ready` with pid ""; after the download it reads `downloading` with the pid; once that pid is no longer live, the next listing's sweep succeeds and reads it as `finish` with its other fields intact |

## Left out

- The HTTP layer is not modelled: FastAPI routing, pydantic validation of requests and responses, and the redirect at `/`.
- Process launching is not modelled: `run_command` and `run_command_no_wait` start external processes. The probe's output and the launched pid are inputs, and no timeout exists to model.
- Download: a launch that fails is not modelled. `create_subprocess_exec` (app/main.py:166) can raise before either write, and the model's success condition assumes the launch succeeds.
- `psutil.process_iter()` is a call into the operating system. The set of live pids is a parameter.
- The Redis client is not modelled: the connection pool, bytes decoding and pipelining. A pipeline is applied as one atomic update.
- Concurrency is not modelled: requests and the janitor's 24-hour `BackgroundScheduler` timer run concurrently in the source. Each operation here runs alone, so queue snapshots never go stale.
- Environment variables and the command vectors are not modelled: `REDIS_*`, `DOWNLOAD_DIR`, `COOKIE_FILE`, and the `you-get` arguments.
- JSON decoding of the probe output and of stored metadata (`json.loads`, `VideoInfo(**...)`, `get_job_metadata_dict`) goes through a library. It is a function argument, so metadata is an opaque string.
- `uuid.uuid4()` is randomness. The new job id is a parameter.
- GetJobsToInteDict: always yields (id, record) pairs. The `retuuid=False` form, which yields records alone, has no caller and is not modelled.
- GetInfo: returns the metadata text the response is decoded from, not the decoded `VideoInfo`, because decoding is not modelled.
- GetInfo: a probe without a title fails with nothing written. This follows the Redis client, which refuses to encode None and so sends no command of the pipeline.
- Download: the pydantic check of the response, which fails after the writes when no format was chosen, is not modelled.
