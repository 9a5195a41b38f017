/** Invariants of the job table that the operations keep, and the probe, download, finish
    lifecycle of one job end to end. */
module Lifecycle {
  import opened Wrappers
  import opened Keys
  import opened Records
  import opened Reconcile
  import opened Janitor

  /** Every queued id has all five keys: a queued job has a record. */
  ghost predicate Complete(kv: KV, queue: seq<string>) {
    forall i, f: Field :: 0 <= i < |queue| ==> FieldKey(queue[i], f) in kv
  }

  /** A readable job whose status is one of the three, and whose pid is empty exactly while it is "ready". */
  ghost predicate JobConsistent(kv: KV, id: string) {
    var r := GetJobWithUuidNoMetadata(kv, id);
    r.Success? && r.value.status in {Ready, Downloading, Finish} && (r.value.status == Ready <==> r.value.pid == "")
  }

  ghost predicate Consistent(kv: KV, queue: seq<string>) {
    forall i :: 0 <= i < |queue| ==> JobConsistent(kv, queue[i])
  }

  // ---- a queued job has a record ----

  lemma CreateKeepsComplete(kv: KV, queue: seq<string>, id: string, videoName: string, url: string, metadata: string)
    requires Complete(kv, queue)
    ensures Complete(Created(kv, id, videoName, url, metadata), [id] + queue)
  {
    var kv1 := Created(kv, id, videoName, url, metadata);
    CreateRoundTrip(kv, id, videoName, url, metadata);
    forall i, f: Field | 0 <= i < |[id] + queue|
      ensures FieldKey(([id] + queue)[i], f) in kv1
    {
      if i > 0 {
        assert ([id] + queue)[i] == queue[i - 1];
      }
    }
  }

  lemma SweepKeepsComplete(kv: KV, queue: seq<string>, live: set<string>)
    requires Complete(kv, queue)
    ensures Complete(ReconcileAll(kv, queue, live).0, queue)
  {
  }

  lemma ReconcileJobKeepsComplete(kv: KV, queue: seq<string>, id: string, live: set<string>)
    requires Complete(kv, queue) && ReconcileJob(kv, id, live).Success?
    ensures Complete(ReconcileJob(kv, id, live).value, queue)
  {
  }

  lemma DownloadKeepsComplete(kv: KV, queue: seq<string>, id: string, pid: string)
    requires Complete(kv, queue)
    ensures Complete(MarkDownloading(kv, id, pid), queue)
  {
  }

  lemma PruneKeepsComplete(kv: KV, queue: seq<string>)
    requires Complete(kv, queue)
    ensures Complete(kv, Pruned(kv, queue))
  {
    var p := Pruned(kv, queue);
    forall i, f: Field | 0 <= i < |p|
      ensures FieldKey(p[i], f) in kv
    {
      assert p[i] in queue;
      var j :| 0 <= j < |queue| && queue[j] == p[i];
    }
  }

  /** On a complete table no reader fails: the sweep finishes and the url lookup answers. */
  lemma {:induction false} CompleteSweepNeverFails(kv: KV, queue: seq<string>, live: set<string>)
    requires Complete(kv, queue)
    ensures ReconcileAll(kv, queue, live).1 == None
    ensures forall url :: GetJobUuidWithUrl(kv, queue, url).Success?
    decreases |queue|
  {
    if queue != [] {
      var id := queue[0];
      assert forall f: Field :: FieldKey(id, f) in kv;
      var job := GetJobWithUuidNoMetadata(kv, id).value;
      var kv1 := if Stale(job.pid, live) then SetField(kv, id, Status, Finish) else kv;
      assert Complete(kv1, queue[1..]) by {
        forall i, f: Field | 0 <= i < |queue[1..]|
          ensures FieldKey(queue[1..][i], f) in kv1
        {
          assert queue[1..][i] == queue[i + 1];
        }
      }
      CompleteSweepNeverFails(kv1, queue[1..], live);
    }
  }

  // ---- the pid is set exactly when the job has left "ready" ----

  lemma CreateKeepsConsistent(kv: KV, queue: seq<string>, id: string, videoName: string, url: string, metadata: string)
    requires Consistent(kv, queue)
    ensures Consistent(Created(kv, id, videoName, url, metadata), [id] + queue)
  {
    var kv1 := Created(kv, id, videoName, url, metadata);
    CreateRoundTrip(kv, id, videoName, url, metadata);
    forall i | 0 <= i < |[id] + queue|
      ensures JobConsistent(kv1, ([id] + queue)[i])
    {
      var x := ([id] + queue)[i];
      if x != id {
        assert x == queue[i - 1];
        CreateLeavesOthers(kv, id, videoName, url, metadata, x);
      }
    }
  }

  /** Starting a download with a real (non-empty) pid keeps the table consistent, even when the
      job had already finished. */
  lemma DownloadKeepsConsistent(kv: KV, queue: seq<string>, id: string, pid: string)
    requires Consistent(kv, queue)
    requires GetJobWithUuid(kv, id).Success? && pid != ""
    ensures Consistent(MarkDownloading(kv, id, pid), queue)
  {
    var kv1 := MarkDownloading(kv, id, pid);
    DownloadTransition(kv, id, pid);
    forall i | 0 <= i < |queue|
      ensures JobConsistent(kv1, queue[i])
    {
      var x := queue[i];
      if x != id {
        SetFieldRead(kv, id, Status, Downloading, x);
        SetFieldRead(SetField(kv, id, Status, Downloading), id, Pid, pid, x);
      }
    }
  }

  /** Reconciling one job marks it finished only when its pid is set, so consistency survives it. */
  lemma ReconcileJobKeepsConsistent(kv: KV, queue: seq<string>, id: string, live: set<string>)
    requires Consistent(kv, queue) && ReconcileJob(kv, id, live).Success?
    ensures Consistent(ReconcileJob(kv, id, live).value, queue)
  {
    var kv1 := ReconcileJob(kv, id, live).value;
    ReconcileJobRule(kv, id, live);
    forall i | 0 <= i < |queue|
      ensures JobConsistent(kv1, queue[i])
    {
      var x := queue[i];
      if kv1 != kv {
        SetFieldRead(kv, id, Status, Finish, x);
      }
    }
  }

  /** The sweep marks a job finished only when its pid is set, so consistency survives it. */
  lemma SweepKeepsConsistent(kv: KV, queue: seq<string>, live: set<string>)
    requires Consistent(kv, queue)
    ensures Consistent(ReconcileAll(kv, queue, live).0, queue)
  {
    var kv1 := ReconcileAll(kv, queue, live).0;
    ReconcileAllFrame(kv, queue, live);
    forall i | 0 <= i < |queue|
      ensures JobConsistent(kv1, queue[i])
    {
      var x := queue[i];
      NoMetadataReadIgnoresStatus(kv, kv1, x);
      ReconcileAllOnlyFinishes(kv, queue, live, x);
    }
  }

  lemma PruneKeepsConsistent(kv: KV, queue: seq<string>)
    requires Consistent(kv, queue)
    ensures Consistent(kv, Pruned(kv, queue))
  {
    var p := Pruned(kv, queue);
    forall i | 0 <= i < |p|
      ensures JobConsistent(kv, p[i])
    {
      assert p[i] in queue;
    }
  }

  /** The lifecycle of one job: created "ready" with no pid; "downloading" with the launched pid
      once started; and, once that pid is gone from the process table, "finish" at the next
      listing, with every other field as it was. */
  lemma EndToEnd(kv: KV, queue: seq<string>, id: string, videoName: string, url: string, metadata: string,
                 pid: string, live: set<string>)
    requires Complete(kv, queue)
    requires pid != "" && pid !in live
    ensures GetJobWithUuid(Created(kv, id, videoName, url, metadata), id)
            == Success(Job(videoName, url, Ready, "", Some(metadata)))
    ensures GetJobWithUuid(MarkDownloading(Created(kv, id, videoName, url, metadata), id, pid), id)
            == Success(Job(videoName, url, Downloading, pid, Some(metadata)))
    ensures var listed := ReconcileAll(MarkDownloading(Created(kv, id, videoName, url, metadata), id, pid), [id] + queue, live);
            listed.1 == None &&
            GetJobWithUuid(listed.0, id) == Success(Job(videoName, url, Finish, pid, Some(metadata)))
  {
    var kv1 := Created(kv, id, videoName, url, metadata);
    var kv2 := MarkDownloading(kv1, id, pid);
    var q := [id] + queue;
    CreateRoundTrip(kv, id, videoName, url, metadata);
    DownloadTransition(kv1, id, pid);
    CreateKeepsComplete(kv, queue, id, videoName, url, metadata);
    assert Complete(kv2, q);
    CompleteSweepNeverFails(kv2, q, live);
    var kv3 := ReconcileAll(kv2, q, live).0;
    ReconcileAllFinishesStale(kv2, q, live, 0);
    ReconcileAllFrame(kv2, q, live);
    assert forall f: Field :: f != Status ==> kv3[FieldKey(id, f)] == kv2[FieldKey(id, f)];
  }
}
