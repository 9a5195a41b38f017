/** The store as RedisConn drives it: an object whose string keys and job queue its writers
    update in place. Each writer is proved against the key updates of module Records, and the
    two reconcile methods against the functions of module Reconcile. */
module Store {
  import opened Wrappers
  import opened Keys
  import opened Records
  import opened Reconcile

  class JobStore {
    /** The string keys (GET/SET/MGET). */
    var kv: KV
    /** The list under QueueKey (LPUSH/LRANGE/LREM), newest job first. */
    var jobs: seq<string>

    constructor (kv0: KV, jobs0: seq<string>)
      ensures kv == kv0 && jobs == jobs0
    {
      kv := kv0;
      jobs := jobs0;
    }

    /** set_job_with_ready: one pipeline, so the queue push and the five writes land together. */
    method SetJobWithReady(id: string, videoName: string, url: string, metadata: string)
      modifies this
      ensures jobs == [id] + old(jobs)
      ensures kv == Created(old(kv), id, videoName, url, metadata)
    {
      jobs := [id] + jobs;
      kv := kv[FieldKey(id, Status) := Ready];
      kv := kv[FieldKey(id, VideoName) := videoName];
      kv := kv[FieldKey(id, Url) := url];
      kv := kv[FieldKey(id, Pid) := ""];
      kv := kv[FieldKey(id, Metadata) := metadata];
    }

    method SetJobWithDownloading(id: string)
      modifies this
      ensures jobs == old(jobs)
      ensures kv == SetField(old(kv), id, Status, Downloading)
    {
      kv := kv[FieldKey(id, Status) := Downloading];
    }

    method SetJobWithFinish(id: string)
      modifies this
      ensures jobs == old(jobs)
      ensures kv == SetField(old(kv), id, Status, Finish)
    {
      kv := kv[FieldKey(id, Status) := Finish];
    }

    method SetJobPid(id: string, pid: string)
      modifies this
      ensures jobs == old(jobs)
      ensures kv == SetField(old(kv), id, Pid, pid)
    {
      kv := kv[FieldKey(id, Pid) := pid];
    }

    /** update_job_status, with the process table given as the set of live pids. A failed read
        raises before anything is written. */
    method UpdateJobStatus(id: string, live: set<string>) returns (err: Option<Error>)
      modifies this
      ensures jobs == old(jobs)
      ensures err.Some? ==> ReconcileJob(old(kv), id, live) == Failure(err.value) && kv == old(kv)
      ensures err.None? ==> ReconcileJob(old(kv), id, live) == Success(kv)
    {
      var job := GetJobWithUuid(kv, id);
      if job.Failure? {
        return Some(job.error);
      }
      var pid := job.value.pid;
      if pid != "" {
        var running := pid in live;
        if !running {
          SetJobWithFinish(id);
        }
      }
      return None;
    }

    /** update_jobs_status: walk a snapshot of the queue, reading each job as the previous
        steps left it; an unreadable record raises and keeps the writes already made. */
    method UpdateJobsStatus(live: set<string>) returns (err: Option<Error>)
      modifies this
      ensures jobs == old(jobs)
      ensures (kv, err) == ReconcileAll(old(kv), old(jobs), live)
    {
      var ids := jobs;
      var i := 0;
      while i < |ids|
        invariant i <= |ids|
        invariant jobs == ids == old(jobs)
        invariant ReconcileAll(kv, ids[i..], live) == ReconcileAll(old(kv), ids, live)
      {
        assert ids[i..][0] == ids[i] && ids[i..][1..] == ids[i + 1..];
        var job := GetJobWithUuidNoMetadata(kv, ids[i]);
        if job.Failure? {
          return Some(job.error);
        }
        var pid := job.value.pid;
        if pid != "" {
          var running := pid in live;
          if !running {
            SetJobWithFinish(ids[i]);
          }
        }
        i := i + 1;
      }
      return None;
    }
  }
}
