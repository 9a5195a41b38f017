/** Jobs as the store holds them: the status strings, the record a read returns, the
    readers of RedisConn (get_job_with_uuid, its _nometadata variant, get_job_metadata_raw,
    get_jobs_to_inte_dict, get_job_uuid_with_url) as functions of the store's contents, and
    the key updates its writers perform. */
module Records {
  import opened Wrappers
  import opened Keys

  /** The three status strings; note that the last one is "finish". */
  const Ready: string := "ready"
  const Downloading: string := "downloading"
  const Finish: string := "finish"

  /** The string keys of the store and their values. */
  type KV = map<string, string>

  /** Failures surfaced by the core. A read of an absent key yields None, and decoding it raises. */
  datatype Error =
    | KeyMissing(key: string)
    | MetadataUnparsable   // the stored metadata does not decode to a stream table
    | ProbeUnparsable      // the probe's output does not decode to a video description
    | TitleMissing         // the store client refuses to write None as a video name

  /** A job as read back; `metadata` is None for the reads that leave it out. */
  datatype Job = Job(videoName: string, url: string, status: string, pid: string, metadata: Option<string>)

  /** Python truthiness of a value that is either None or a string. */
  predicate Truthy(o: Option<string>) {
    o.Some? && o.value != ""
  }

  /** What an f-string makes of a value that is either None or a string. */
  function Formatted(o: Option<string>): string {
    if o.None? then "None" else o.value
  }

  /** GET of one key, decoded. */
  function Get(kv: KV, key: string): Result<string, Error> {
    if key in kv then Success(kv[key]) else Failure(KeyMissing(key))
  }

  /** get_job_with_uuid: MGET of the five keys; decoding stops at the first absent one. */
  function GetJobWithUuid(kv: KV, id: string): (r: Result<Job, Error>)
    ensures r.Success? <==> forall f: Field :: FieldKey(id, f) in kv
    ensures r.Success? ==> r.value == Job(kv[FieldKey(id, VideoName)], kv[FieldKey(id, Url)],
                                          kv[FieldKey(id, Status)], kv[FieldKey(id, Pid)],
                                          Some(kv[FieldKey(id, Metadata)]))
    ensures r.Failure? ==> r.error.KeyMissing? && r.error.key !in kv &&
                           exists f: Field :: r.error.key == FieldKey(id, f)
  {
    var name :- Get(kv, FieldKey(id, VideoName));
    var url :- Get(kv, FieldKey(id, Url));
    var status :- Get(kv, FieldKey(id, Status));
    var pid :- Get(kv, FieldKey(id, Pid));
    var metadata :- Get(kv, FieldKey(id, Metadata));
    Success(Job(name, url, status, pid, Some(metadata)))
  }

  /** get_job_with_uuid_nometadata: the same read without the metadata key. */
  function GetJobWithUuidNoMetadata(kv: KV, id: string): (r: Result<Job, Error>)
    ensures r.Success? <==> forall f: Field :: f != Metadata ==> FieldKey(id, f) in kv
    ensures r.Success? ==> r.value == Job(kv[FieldKey(id, VideoName)], kv[FieldKey(id, Url)],
                                          kv[FieldKey(id, Status)], kv[FieldKey(id, Pid)], None)
    ensures r.Failure? ==> r.error.KeyMissing? && r.error.key !in kv &&
                           exists f: Field :: f != Metadata && r.error.key == FieldKey(id, f)
  {
    var name :- Get(kv, FieldKey(id, VideoName));
    var url :- Get(kv, FieldKey(id, Url));
    var status :- Get(kv, FieldKey(id, Status));
    var pid :- Get(kv, FieldKey(id, Pid));
    Success(Job(name, url, status, pid, None))
  }

  /** get_job_metadata_raw. */
  function GetJobMetadataRaw(kv: KV, id: string): (r: Result<string, Error>)
    ensures r.Success? <==> FieldKey(id, Metadata) in kv
    ensures r.Success? ==> r.value == kv[FieldKey(id, Metadata)]
    ensures r.Failure? ==> r.error == KeyMissing(FieldKey(id, Metadata))
    ensures GetJobWithUuid(kv, id).Success? ==> r == Success(GetJobWithUuid(kv, id).value.metadata.value)
  {
    Get(kv, FieldKey(id, Metadata))
  }

  /** get_jobs_to_inte_dict(retuuid=True, ...) drained: each queued id with its record, in queue
      order; the first record that cannot be read raises. */
  function GetJobsToInteDict(kv: KV, queue: seq<string>, nometadata: bool): (r: Result<seq<(string, Job)>, Error>)
    ensures r.Success? <==> forall i :: 0 <= i < |queue| ==> ReadJob(kv, queue[i], nometadata).Success?
    ensures r.Success? ==> |r.value| == |queue|
    ensures r.Success? ==> forall i :: 0 <= i < |queue| ==>
              r.value[i] == (queue[i], ReadJob(kv, queue[i], nometadata).value)
    decreases |queue|
  {
    if queue == [] then Success([])
    else
      var job :- ReadJob(kv, queue[0], nometadata);
      var rest :- GetJobsToInteDict(kv, queue[1..], nometadata);
      Success([(queue[0], job)] + rest)
  }

  function ReadJob(kv: KV, id: string, nometadata: bool): Result<Job, Error> {
    if nometadata then GetJobWithUuidNoMetadata(kv, id) else GetJobWithUuid(kv, id)
  }

  /** get_job_uuid_with_url as written: the loop returns on its first iteration in both branches,
      so only the head of the queue (the newest job) is compared. An empty queue falls off the loop
      and yields None; a mismatch yields "". */
  function GetJobUuidWithUrl(kv: KV, queue: seq<string>, url: string): (r: Result<Option<string>, Error>)
    ensures queue == [] ==> r == Success(None)
    ensures r.Failure? <==> queue != [] && GetJobWithUuidNoMetadata(kv, queue[0]).Failure?
    ensures r.Success? && r.value.Some? ==> r.value.value in {"", queue[0]}
    ensures (r.Success? && Truthy(r.value)) <==>
            (queue != [] && queue[0] != "" && GetJobWithUuidNoMetadata(kv, queue[0]).Success? &&
             kv[FieldKey(queue[0], Url)] == url)
  {
    if queue == [] then Success(None)
    else
      var job :- GetJobWithUuidNoMetadata(kv, queue[0]);
      if url == job.url then Success(Some(queue[0])) else Success(Some(""))
  }

  /** A full scan, the reference the lookup falls short of: the position of the first queued
      job whose stored url is `url`. */
  function FirstJobWithUrl(kv: KV, queue: seq<string>, url: string): (r: Option<nat>)
    ensures r.Some? ==> r.value < |queue| && FieldKey(queue[r.value], Url) in kv &&
                        kv[FieldKey(queue[r.value], Url)] == url
    ensures r.Some? ==> forall j :: 0 <= j < r.value ==>
                          !(FieldKey(queue[j], Url) in kv && kv[FieldKey(queue[j], Url)] == url)
    ensures r.None? ==> forall j :: 0 <= j < |queue| ==>
                          !(FieldKey(queue[j], Url) in kv && kv[FieldKey(queue[j], Url)] == url)
    decreases |queue|
  {
    if queue == [] then None
    else if FieldKey(queue[0], Url) in kv && kv[FieldKey(queue[0], Url)] == url then Some(0)
    else match FirstJobWithUrl(kv, queue[1..], url)
         case None => None
         case Some(i) => Some(i + 1)
  }

  /** The lookup never looks past the head: two queues with the same newest job give the same answer. */
  lemma DedupIsHeadOnly(kv: KV, q1: seq<string>, q2: seq<string>, url: string)
    requires q1 != [] && q2 != [] && q1[0] == q2[0]
    ensures GetJobUuidWithUrl(kv, q1, url) == GetJobUuidWithUrl(kv, q2, url)
  {
  }

  /** When the lookup finds a job, it is the one a full scan finds first. */
  lemma DedupFoundAgreesWithScan(kv: KV, queue: seq<string>, url: string)
    requires GetJobUuidWithUrl(kv, queue, url).Success? && Truthy(GetJobUuidWithUrl(kv, queue, url).value)
    ensures FirstJobWithUrl(kv, queue, url) == Some(0)
  {
  }

  /** ... but a matching job that is not the newest is never found: the lookup answers "". */
  lemma DedupMissesOlderMatch(kv: KV, queue: seq<string>, url: string)
    requires FirstJobWithUrl(kv, queue, url).Some? && FirstJobWithUrl(kv, queue, url).value > 0
    requires GetJobWithUuidNoMetadata(kv, queue[0]).Success?
    ensures GetJobUuidWithUrl(kv, queue, url) == Success(Some(""))
  {
  }

  /** The five writes of set_job_with_ready's pipeline, applied at once. */
  function Created(kv: KV, id: string, videoName: string, url: string, metadata: string): (r: KV)
    ensures r.Keys == kv.Keys + set f: Field :: FieldKey(id, f)
    ensures forall k :: k in kv && (forall f: Field :: k != FieldKey(id, f)) ==> r[k] == kv[k]
  {
    kv[FieldKey(id, Status) := Ready]
      [FieldKey(id, VideoName) := videoName]
      [FieldKey(id, Url) := url]
      [FieldKey(id, Pid) := ""]
      [FieldKey(id, Metadata) := metadata]
  }

  /** A single SET of one field of one job (set_job_with_downloading, set_job_with_finish, set_job_pid). */
  function SetField(kv: KV, id: string, f: Field, v: string): (r: KV)
    ensures r.Keys == kv.Keys + {FieldKey(id, f)}
    ensures r[FieldKey(id, f)] == v
    ensures forall k :: k in kv && k != FieldKey(id, f) ==> r[k] == kv[k]
  {
    kv[FieldKey(id, f) := v]
  }

  /** The two writes that start a download: status, then pid. */
  function MarkDownloading(kv: KV, id: string, pid: string): (r: KV)
    ensures r.Keys == kv.Keys + {FieldKey(id, Status), FieldKey(id, Pid)}
    ensures r[FieldKey(id, Status)] == Downloading && r[FieldKey(id, Pid)] == pid
    ensures forall k :: k in kv && k != FieldKey(id, Status) && k != FieldKey(id, Pid) ==> r[k] == kv[k]
  {
    SetField(SetField(kv, id, Status, Downloading), id, Pid, pid)
  }

  /** The record `j` with field `f` replaced by `v`. */
  function WithField(j: Job, f: Field, v: string): Job {
    match f
    case Status => j.(status := v)
    case VideoName => j.(videoName := v)
    case Url => j.(url := v)
    case Pid => j.(pid := v)
    case Metadata => j.(metadata := Some(v))
  }

  /** Creating a job and reading it back returns exactly what was written, with status
      "ready" and an empty pid. */
  lemma CreateRoundTrip(kv: KV, id: string, videoName: string, url: string, metadata: string)
    ensures GetJobWithUuid(Created(kv, id, videoName, url, metadata), id)
            == Success(Job(videoName, url, Ready, "", Some(metadata)))
    ensures GetJobWithUuidNoMetadata(Created(kv, id, videoName, url, metadata), id)
            == Success(Job(videoName, url, Ready, "", None))
  {
    forall f1: Field, f2: Field | f1 != f2
      ensures FieldKey(id, f1) != FieldKey(id, f2)
    {
      if FieldKey(id, f1) == FieldKey(id, f2) {
        FieldKeyInjective(id, f1, id, f2);
      }
    }
  }

  /** Two stores that agree on the five keys of job `id`. */
  predicate SameJobKeys(kv1: KV, kv2: KV, id: string) {
    forall f: Field :: (FieldKey(id, f) in kv1 <==> FieldKey(id, f) in kv2) &&
                       (FieldKey(id, f) in kv1 ==> kv1[FieldKey(id, f)] == kv2[FieldKey(id, f)])
  }

  /** A read of job `id` depends on that job's own keys only. */
  lemma ReadsDependOnOwnKeys(kv1: KV, kv2: KV, id: string)
    requires SameJobKeys(kv1, kv2, id)
    ensures GetJobWithUuid(kv1, id) == GetJobWithUuid(kv2, id)
    ensures GetJobWithUuidNoMetadata(kv1, id) == GetJobWithUuidNoMetadata(kv2, id)
  {
  }

  /** Creating a job leaves every other job's record as it was. */
  lemma CreateLeavesOthers(kv: KV, id: string, videoName: string, url: string, metadata: string, other: string)
    requires other != id
    ensures GetJobWithUuid(Created(kv, id, videoName, url, metadata), other) == GetJobWithUuid(kv, other)
    ensures GetJobWithUuidNoMetadata(Created(kv, id, videoName, url, metadata), other)
            == GetJobWithUuidNoMetadata(kv, other)
  {
    forall f1: Field, f2: Field
      ensures FieldKey(other, f1) != FieldKey(id, f2)
    {
      if FieldKey(other, f1) == FieldKey(id, f2) {
        FieldKeyInjective(other, f1, id, f2);
      }
    }
    ReadsDependOnOwnKeys(Created(kv, id, videoName, url, metadata), kv, other);
  }

  /** A single-field write changes that one key and no other field of any job. */
  lemma SetFieldFrame(kv: KV, id: string, f: Field, v: string, id2: string, f2: Field)
    requires id2 != id || f2 != f
    ensures FieldKey(id2, f2) in SetField(kv, id, f, v) <==> FieldKey(id2, f2) in kv
    ensures FieldKey(id2, f2) in kv ==> SetField(kv, id, f, v)[FieldKey(id2, f2)] == kv[FieldKey(id2, f2)]
  {
    if FieldKey(id2, f2) == FieldKey(id, f) {
      FieldKeyInjective(id2, f2, id, f);
    }
  }

  /** Reading a job after a single-field write: the written job reads back with that field
      replaced; every other job reads as before. */
  lemma SetFieldRead(kv: KV, id: string, f: Field, v: string, id2: string)
    ensures id2 != id ==> GetJobWithUuid(SetField(kv, id, f, v), id2) == GetJobWithUuid(kv, id2)
    ensures id2 != id ==> GetJobWithUuidNoMetadata(SetField(kv, id, f, v), id2) == GetJobWithUuidNoMetadata(kv, id2)
    ensures id2 == id && GetJobWithUuid(kv, id).Success? ==>
              GetJobWithUuid(SetField(kv, id, f, v), id) == Success(WithField(GetJobWithUuid(kv, id).value, f, v))
  {
    forall g: Field | id2 != id || g != f
      ensures FieldKey(id2, g) in SetField(kv, id, f, v) <==> FieldKey(id2, g) in kv
      ensures FieldKey(id2, g) in kv ==> SetField(kv, id, f, v)[FieldKey(id2, g)] == kv[FieldKey(id2, g)]
    {
      SetFieldFrame(kv, id, f, v, id2, g);
    }
  }

  /** Starting a download overwrites status and pid whatever the job's previous status was,
      "finish" included, and leaves the other three fields and every other job untouched. */
  lemma DownloadTransition(kv: KV, id: string, pid: string)
    requires GetJobWithUuid(kv, id).Success?
    ensures GetJobWithUuid(MarkDownloading(kv, id, pid), id)
            == Success(GetJobWithUuid(kv, id).value.(status := Downloading, pid := pid))
    ensures forall other :: other != id ==>
              GetJobWithUuid(MarkDownloading(kv, id, pid), other) == GetJobWithUuid(kv, other)
  {
    var kv1 := SetField(kv, id, Status, Downloading);
    SetFieldRead(kv, id, Status, Downloading, id);
    SetFieldRead(kv1, id, Pid, pid, id);
    forall other | other != id
      ensures GetJobWithUuid(MarkDownloading(kv, id, pid), other) == GetJobWithUuid(kv, other)
    {
      SetFieldRead(kv, id, Status, Downloading, other);
      SetFieldRead(kv1, id, Pid, pid, other);
    }
  }

  /** Looked up by the url it was stored with, a freshly created job is the lookup's answer
      (a truthy one only when its id is non-empty), and its metadata reads back as stored. */
  lemma DedupFindsNewestJob(kv: KV, queue: seq<string>, id: string, videoName: string, url: string, metadata: string)
    ensures GetJobUuidWithUrl(Created(kv, id, videoName, url, metadata), [id] + queue, url) == Success(Some(id))
    ensures GetJobMetadataRaw(Created(kv, id, videoName, url, metadata), id) == Success(metadata)
  {
    CreateRoundTrip(kv, id, videoName, url, metadata);
  }

  /** get_info stores the url the probe reports, but looks up the url it was asked about: when
      the two differ, the job just created is not found for the requested url. */
  lemma DedupMissesWhenProbeUrlDiffers(kv: KV, queue: seq<string>, id: string, videoName: string,
                                       storedUrl: string, url: string, metadata: string)
    requires storedUrl != url
    ensures GetJobUuidWithUrl(Created(kv, id, videoName, storedUrl, metadata), [id] + queue, url) == Success(Some(""))
  {
    CreateRoundTrip(kv, id, videoName, storedUrl, metadata);
  }

  /** The read without metadata never looks at the metadata key: writing or deleting it changes
      nothing, while the full read fails exactly when it is absent and the other four are present. */
  lemma NoMetadataReadIgnoresMetadataKey(kv: KV, id: string, v: string)
    ensures GetJobWithUuidNoMetadata(kv[FieldKey(id, Metadata) := v], id) == GetJobWithUuidNoMetadata(kv, id)
    ensures GetJobWithUuidNoMetadata(kv - {FieldKey(id, Metadata)}, id) == GetJobWithUuidNoMetadata(kv, id)
    ensures GetJobWithUuidNoMetadata(kv, id).Success? ==>
              GetJobWithUuid(kv - {FieldKey(id, Metadata)}, id) == Failure(KeyMissing(FieldKey(id, Metadata)))
  {
    forall f: Field | f != Metadata
      ensures FieldKey(id, f) != FieldKey(id, Metadata)
    {
      if FieldKey(id, f) == FieldKey(id, Metadata) {
        FieldKeyInjective(id, f, id, Metadata);
      }
    }
  }
}
