/** The store-level steps of the request handlers get_info, download, list_all and list. Their
    HTTP side, the JSON decoding and the external processes are abstracted: the probe's output
    and the launched pid are inputs, and decoding is a function passed in. */
module Endpoints {
  import opened Wrappers
  import opened Keys
  import opened Records
  import opened Reconcile
  import opened Store

  /** One entry of the probed stream table: the format name that keys it and its size. */
  datatype Stream = Stream(format: string, size: int)

  /** What a probe's description gives the core: the url it reports and its title, if any. */
  datatype VideoInfo = VideoInfo(url: string, title: Option<string>)

  /** The response of download: the request merged with the stored record, then the new status and pid. */
  datatype JobOut = JobOut(uuid: Option<string>, url: string, pid: string, format: Option<string>,
                           status: string, videoName: string, metadata: string)

  // ---- the default-format loop of download ----

  /** The loop's running `size` after its first n streams. It never goes below zero. */
  function Accumulated(streams: seq<Stream>, n: nat): (size: int)
    requires n <= |streams|
    ensures size >= 0
  {
    if n == 0 then 0
    else
      var prev := Accumulated(streams, n - 1);
      if streams[n - 1].size > prev then prev + streams[n - 1].size else prev
  }

  /** Stream j is assigned to the format: its size exceeds the running `size`. */
  predicate Picked(streams: seq<Stream>, j: nat)
    requires j < |streams|
  {
    streams[j].size > Accumulated(streams, j)
  }

  /** The format the loop leaves: the last picked stream's, or the value it started with when no
      stream was picked. */
  predicate ChosenFormat(streams: seq<Stream>, format0: Option<string>, format: Option<string>) {
    ((forall j :: 0 <= j < |streams| ==> !Picked(streams, j)) ==> format == format0) &&
    ((exists j :: 0 <= j < |streams| && Picked(streams, j)) ==>
       exists j :: 0 <= j < |streams| && Picked(streams, j) && format == Some(streams[j].format) &&
                   forall m :: j < m < |streams| ==> !Picked(streams, m))
  }

  lemma {:induction false} AccumulatedPositiveHasPick(streams: seq<Stream>, n: nat)
    requires n <= |streams| && Accumulated(streams, n) > 0
    ensures exists j :: 0 <= j < n && Picked(streams, j)
  {
    if !Picked(streams, n - 1) {
      AccumulatedPositiveHasPick(streams, n - 1);
    }
  }

  /** A stream is picked iff some stream has positive size, and every picked stream has positive size. */
  lemma PickedIffPositive(streams: seq<Stream>)
    ensures forall j :: 0 <= j < |streams| && Picked(streams, j) ==> streams[j].size > 0
    ensures (exists j :: 0 <= j < |streams| && Picked(streams, j)) <==>
            (exists j :: 0 <= j < |streams| && streams[j].size > 0)
  {
    if j :| 0 <= j < |streams| && streams[j].size > 0 {
      if !Picked(streams, j) {
        AccumulatedPositiveHasPick(streams, j);
      }
    }
  }

  /** What the loop promises: a format is set iff some stream has a positive size, and the one
      set is then the format of such a stream. */
  lemma ChosenFormatIsPositiveStream(streams: seq<Stream>, format0: Option<string>, format: Option<string>)
    requires ChosenFormat(streams, format0, format)
    ensures (forall j :: 0 <= j < |streams| ==> streams[j].size <= 0) ==> format == format0
    ensures (exists j :: 0 <= j < |streams| && streams[j].size > 0) ==>
              exists j :: 0 <= j < |streams| && streams[j].size > 0 && format == Some(streams[j].format)
  {
    PickedIffPositive(streams);
  }

  /** download's loop over the stream table when no format was requested. */
  method SelectDefaultFormat(streams: seq<Stream>, format0: Option<string>) returns (format: Option<string>)
    ensures ChosenFormat(streams, format0, format)
    ensures (exists j :: 0 <= j < |streams| && streams[j].size > 0) ==>
              exists j :: 0 <= j < |streams| && streams[j].size > 0 && format == Some(streams[j].format)
  {
    format := format0;
    var size := 0;
    ghost var last := -1;  // the last picked stream, -1 while none is
    for i := 0 to |streams|
      invariant size == Accumulated(streams, i)
      invariant -1 <= last < i
      invariant last == -1 ==> format == format0
      invariant last >= 0 ==> Picked(streams, last) && format == Some(streams[last].format)
      invariant forall m :: last < m < i ==> !Picked(streams, m)
    {
      if streams[i].size > size {
        format := Some(streams[i].format);
        size := size + streams[i].size;
        last := i;
      }
    }
    ChosenFormatIsPositiveStream(streams, format0, format);
  }

  // ---- get_info ----

  /** get_info: a job found for the url answers from its stored metadata; otherwise the probe's
      output is decoded and stored as a new "ready" job under `newId`. */
  method GetInfo(s: JobStore, url: string, newId: string, stdout: string,
                 parseInfo: string -> Option<VideoInfo>)
    returns (r: Result<string, Error>)
    modifies s
    ensures GetJobUuidWithUrl(old(s.kv), old(s.jobs), url).Failure? ==>
              r == Failure(GetJobUuidWithUrl(old(s.kv), old(s.jobs), url).error) && unchanged(s)
    ensures GetJobUuidWithUrl(old(s.kv), old(s.jobs), url).Success? &&
            Truthy(GetJobUuidWithUrl(old(s.kv), old(s.jobs), url).value) ==>
              r == GetJobMetadataRaw(old(s.kv), GetJobUuidWithUrl(old(s.kv), old(s.jobs), url).value.value) &&
              unchanged(s)
    ensures GetJobUuidWithUrl(old(s.kv), old(s.jobs), url).Success? &&
            !Truthy(GetJobUuidWithUrl(old(s.kv), old(s.jobs), url).value) ==>
              match parseInfo(stdout)
              case None => r == Failure(ProbeUnparsable) && unchanged(s)
              case Some(info) =>
                if info.title.None? then r == Failure(TitleMissing) && unchanged(s)
                else r == Success(stdout) && s.jobs == [newId] + old(s.jobs) &&
                     s.kv == Created(old(s.kv), newId, info.title.value, info.url, stdout)
  {
    var found := GetJobUuidWithUrl(s.kv, s.jobs, url);
    if found.Failure? {
      return Failure(found.error);
    }
    if Truthy(found.value) {
      return GetJobMetadataRaw(s.kv, found.value.value);
    }
    var info := parseInfo(stdout);
    if info.None? {
      return Failure(ProbeUnparsable);
    }
    if info.value.title.None? {
      return Failure(TitleMissing);
    }
    s.SetJobWithReady(newId, info.value.title.value, info.value.url, stdout);
    return Success(stdout);
  }

  /** get_info asked twice for the same url, between which nothing else touches the store. When
      the probe reports the url it was asked about and the new id is non-empty, the first call
      creates the job and the second answers from the store: the probe's second output and id
      are never used, and no second job is created. */
  method RepeatedGetInfo(s: JobStore, url: string, newId: string, stdout: string,
                         newId2: string, stdout2: string, parseInfo: string -> Option<VideoInfo>)
    returns (r1: Result<string, Error>, r2: Result<string, Error>)
    requires GetJobUuidWithUrl(s.kv, s.jobs, url).Success? && !Truthy(GetJobUuidWithUrl(s.kv, s.jobs, url).value)
    requires parseInfo(stdout).Some? && parseInfo(stdout).value.url == url && parseInfo(stdout).value.title.Some?
    requires newId != ""
    modifies s
    ensures r1 == Success(stdout) && r2 == Success(stdout)
    ensures s.jobs == [newId] + old(s.jobs)
    ensures s.kv == Created(old(s.kv), newId, parseInfo(stdout).value.title.value, url, stdout)
  {
    r1 := GetInfo(s, url, newId, stdout, parseInfo);
    DedupFindsNewestJob(old(s.kv), old(s.jobs), newId, parseInfo(stdout).value.title.value, url, stdout);
    r2 := GetInfo(s, url, newId2, stdout2, parseInfo);
  }

  // ---- download ----

  /** The job a download request names: its own uuid when truthy, else the url lookup's answer. */
  function ResolveUuid(kv: KV, queue: seq<string>, uuid0: Option<string>, url: string): (r: Result<Option<string>, Error>)
    ensures Truthy(uuid0) ==> r == Success(uuid0)
    ensures r.Failure? <==> !Truthy(uuid0) && queue != [] && GetJobWithUuidNoMetadata(kv, queue[0]).Failure?
    ensures !Truthy(uuid0) && r.Success? && !Truthy(r.value) ==> r.value == (if queue == [] then None else Some(""))
    ensures !Truthy(uuid0) && r.Success? && Truthy(r.value) ==>
              queue != [] && r.value == Some(queue[0]) && GetJobWithUuidNoMetadata(kv, queue[0]).Success? &&
              kv[FieldKey(queue[0], Url)] == url
  {
    if Truthy(uuid0) then Success(uuid0) else GetJobUuidWithUrl(kv, queue, url)
  }

  /** Every check download makes before it launches anything passes. */
  predicate DownloadCanStart(kv: KV, queue: seq<string>, uuid0: Option<string>, url: string,
                             format0: Option<string>, parseStreams: string -> Option<seq<Stream>>)
  {
    ResolveUuid(kv, queue, uuid0, url).Success? &&
    var id := Formatted(ResolveUuid(kv, queue, uuid0, url).value);
    (Truthy(format0) ||
     (GetJobMetadataRaw(kv, id).Success? && parseStreams(GetJobMetadataRaw(kv, id).value).Some?)) &&
    GetJobWithUuid(kv, id).Success?
  }

  /** download: resolve the job, choose a format when none was requested, read the record, launch
      the download (its pid is `launchedPid`), then write status "downloading" and the pid. Every
      failure happens before the writes. */
  method Download(s: JobStore, uuid0: Option<string>, url: string, format0: Option<string>,
                  parseStreams: string -> Option<seq<Stream>>, launchedPid: string)
    returns (r: Result<JobOut, Error>)
    modifies s
    ensures s.jobs == old(s.jobs)
    ensures r.Success? <==> DownloadCanStart(old(s.kv), old(s.jobs), uuid0, url, format0, parseStreams)
    ensures r.Failure? ==> s.kv == old(s.kv)
    ensures r.Success? ==> Success(r.value.uuid) == ResolveUuid(old(s.kv), old(s.jobs), uuid0, url)
    ensures r.Success? ==> s.kv == MarkDownloading(old(s.kv), Formatted(r.value.uuid), launchedPid)
    ensures r.Success? ==>
              var job := GetJobWithUuid(old(s.kv), Formatted(r.value.uuid)).value;
              r.value.status == Downloading && r.value.pid == launchedPid && r.value.url == job.url &&
              r.value.videoName == job.videoName && job.metadata == Some(r.value.metadata)
    ensures r.Success? && Truthy(format0) ==> r.value.format == format0
    ensures r.Success? && !Truthy(format0) ==>
              var streams := parseStreams(GetJobMetadataRaw(old(s.kv), Formatted(r.value.uuid)).value).value;
              ChosenFormat(streams, format0, r.value.format)
  {
    var uuid := uuid0;
    if !Truthy(uuid) {
      var found := GetJobUuidWithUrl(s.kv, s.jobs, url);
      if found.Failure? {
        return Failure(found.error);
      }
      uuid := found.value;
    }
    var id := Formatted(uuid);
    var format := format0;
    if !Truthy(format) {
      var metadata := GetJobMetadataRaw(s.kv, id);
      if metadata.Failure? {
        return Failure(metadata.error);
      }
      var streams := parseStreams(metadata.value);
      if streams.None? {
        return Failure(MetadataUnparsable);
      }
      format := SelectDefaultFormat(streams.value, format);
    }
    var job := GetJobWithUuid(s.kv, id);
    if job.Failure? {
      return Failure(job.error);
    }
    var pid := launchedPid;
    s.SetJobWithDownloading(id);
    s.SetJobPid(id, pid);
    return Success(JobOut(uuid, job.value.url, pid, format, Downloading, job.value.videoName, job.value.metadata.value));
  }

  // ---- list_all and list ----

  /** The dict built from (id, job) pairs; a later pair for the same id wins. */
  function DictOf(pairs: seq<(string, Job)>): (m: map<string, Job>)
    ensures m.Keys == set i | 0 <= i < |pairs| :: pairs[i].0
    ensures forall k :: k in m ==> exists i :: 0 <= i < |pairs| && pairs[i] == (k, m[k])
    decreases |pairs|
  {
    if pairs == [] then map[]
    else
      var last := pairs[|pairs| - 1];
      var m := DictOf(pairs[..|pairs| - 1]);
      m[last.0 := last.1]
  }

  /** The dict comprehension keeps, for each id, the value of its last pair. */
  lemma {:induction false} DictOfLastPairWins(pairs: seq<(string, Job)>, i: nat)
    requires i < |pairs|
    requires forall j :: i < j < |pairs| ==> pairs[j].0 != pairs[i].0
    ensures DictOf(pairs)[pairs[i].0] == pairs[i].1
    decreases |pairs|
  {
    if i < |pairs| - 1 {
      var init := pairs[..|pairs| - 1];
      assert init[i] == pairs[i];
      forall j | i < j < |init|
        ensures init[j].0 != init[i].0
      {
        assert init[j] == pairs[j];
      }
      DictOfLastPairWins(init, i);
    }
  }

  /** A sweep that met no unreadable record leaves every queued record readable. */
  lemma ReconciledQueueReadable(kv: KV, queue: seq<string>, live: set<string>)
    requires ReconcileAll(kv, queue, live).1.None?
    ensures forall i :: 0 <= i < |queue| ==>
              GetJobWithUuidNoMetadata(ReconcileAll(kv, queue, live).0, queue[i]).Success?
  {
    ReconcileAllClosedForm(kv, queue, live);
    StaleIdsComplete(kv, queue, live);
    ReconcileAllFrame(kv, queue, live);
    forall i | 0 <= i < |queue|
      ensures GetJobWithUuidNoMetadata(ReconcileAll(kv, queue, live).0, queue[i]).Success?
    {
      NoMetadataReadIgnoresStatus(kv, ReconcileAll(kv, queue, live).0, queue[i]);
    }
  }

  /** list_all: reconcile every queued job, then return each queued id with its record (no metadata). */
  method ListAll(s: JobStore, live: set<string>) returns (r: Result<map<string, Job>, Error>)
    modifies s
    ensures s.jobs == old(s.jobs)
    ensures s.kv == ReconcileAll(old(s.kv), old(s.jobs), live).0
    ensures r.Failure? <==> ReconcileAll(old(s.kv), old(s.jobs), live).1.Some?
    ensures r.Success? ==> r.value.Keys == set i | 0 <= i < |s.jobs| :: s.jobs[i]
    ensures r.Success? ==> forall id :: id in r.value ==> GetJobWithUuidNoMetadata(s.kv, id) == Success(r.value[id])
  {
    var err := s.UpdateJobsStatus(live);
    if err.Some? {
      return Failure(err.value);
    }
    ReconciledQueueReadable(old(s.kv), old(s.jobs), live);
    var pairs := GetJobsToInteDict(s.kv, s.jobs, true);
    r := Success(DictOf(pairs.value));
  }

  /** list: reconcile the one job, then read its whole record. */
  method ListOne(s: JobStore, id: string, live: set<string>) returns (r: Result<Job, Error>)
    modifies s
    ensures s.jobs == old(s.jobs)
    ensures r.Success? <==> GetJobWithUuid(old(s.kv), id).Success?
    ensures r.Failure? ==> s.kv == old(s.kv) && r == Failure(GetJobWithUuid(old(s.kv), id).error)
    ensures r.Success? ==> Success(s.kv) == ReconcileJob(old(s.kv), id, live)
    ensures r.Success? ==>
              r.value == GetJobWithUuid(old(s.kv), id).value.(status :=
                if Stale(old(s.kv)[FieldKey(id, Pid)], live) then Finish else old(s.kv)[FieldKey(id, Status)])
  {
    ReconcileJobRule(s.kv, id, live);
    var err := s.UpdateJobStatus(id, live);
    if err.Some? {
      return Failure(err.value);
    }
    r := GetJobWithUuid(s.kv, id);
  }
}
