/** The liveness reconciler (RedisConn.update_job_status and update_jobs_status) as functions of
    the store's contents and the set of live process ids, with the rules they obey. The methods
    that run them against the store are in module Store. */
module Reconcile {
  import opened Wrappers
  import opened Keys
  import opened Records

  /** A recorded pid that is set but no longer among the live process ids. */
  predicate Stale(pid: string, live: set<string>) {
    pid != "" && pid !in live
  }

  /** update_job_status: read the whole record (metadata included), then mark the job finished
      when its pid is stale. */
  function ReconcileJob(kv: KV, id: string, live: set<string>): (r: Result<KV, Error>)
    ensures r.Success? <==> GetJobWithUuid(kv, id).Success?
    ensures r.Failure? ==> r.error == GetJobWithUuid(kv, id).error
    ensures r.Success? ==> r.value.Keys == kv.Keys
    ensures r.Success? ==> forall k :: k in kv && k != FieldKey(id, Status) ==> r.value[k] == kv[k]
    ensures r.Success? && r.value[FieldKey(id, Status)] != kv[FieldKey(id, Status)] ==>
              r.value[FieldKey(id, Status)] == Finish && Stale(kv[FieldKey(id, Pid)], live)
  {
    var job :- GetJobWithUuid(kv, id);
    if Stale(job.pid, live) then Success(SetField(kv, id, Status, Finish)) else Success(kv)
  }

  /** update_jobs_status, one queued id after the other, each read seeing the writes before it;
      the first record that cannot be read (metadata is not read) stops the sweep with the writes
      made so far kept. */
  function ReconcileAll(kv: KV, queue: seq<string>, live: set<string>): (r: (KV, Option<Error>))
    ensures r.0.Keys == kv.Keys
    decreases |queue|
  {
    if queue == [] then (kv, None)
    else match GetJobWithUuidNoMetadata(kv, queue[0])
         case Failure(e) => (kv, Some(e))
         case Success(job) =>
           var kv1 := if Stale(job.pid, live) then SetField(kv, queue[0], Status, Finish) else kv;
           ReconcileAll(kv1, queue[1..], live)
  }

  /** The single-job rule: a read failure changes nothing; an empty or live pid changes nothing;
      a stale pid sets that job's status to "finish" and nothing else. */
  lemma ReconcileJobRule(kv: KV, id: string, live: set<string>)
    ensures GetJobWithUuid(kv, id).Failure? ==> ReconcileJob(kv, id, live) == Failure(GetJobWithUuid(kv, id).error)
    ensures GetJobWithUuid(kv, id).Success? && !Stale(kv[FieldKey(id, Pid)], live) ==>
              ReconcileJob(kv, id, live) == Success(kv)
    ensures GetJobWithUuid(kv, id).Success? && Stale(kv[FieldKey(id, Pid)], live) ==>
              ReconcileJob(kv, id, live).Success? &&
              GetJobWithUuid(ReconcileJob(kv, id, live).value, id)
                == Success(GetJobWithUuid(kv, id).value.(status := Finish)) &&
              (forall other :: other != id ==>
                 GetJobWithUuid(ReconcileJob(kv, id, live).value, other) == GetJobWithUuid(kv, other)) &&
              ReconcileJob(kv, id, live).value.Keys == kv.Keys
  {
    if GetJobWithUuid(kv, id).Success? && Stale(kv[FieldKey(id, Pid)], live) {
      SetFieldRead(kv, id, Status, Finish, id);
      forall other | other != id
        ensures GetJobWithUuid(SetField(kv, id, Status, Finish), other) == GetJobWithUuid(kv, other)
      {
        SetFieldRead(kv, id, Status, Finish, other);
      }
    }
  }

  /** Reconciling a job twice against the same live set is reconciling it once. */
  lemma ReconcileJobIdempotent(kv: KV, id: string, live: set<string>)
    requires ReconcileJob(kv, id, live).Success?
    ensures ReconcileJob(ReconcileJob(kv, id, live).value, id, live) == ReconcileJob(kv, id, live)
  {
    var kv1 := SetField(kv, id, Status, Finish);
    SetFieldRead(kv, id, Status, Finish, id);
    assert SetField(kv1, id, Status, Finish) == kv1;
  }

  /** Two stores with the same keys that agree on every field but status. */
  ghost predicate SameExceptStatus(kv1: KV, kv2: KV) {
    kv1.Keys == kv2.Keys &&
    forall id, f: Field :: f != Status && FieldKey(id, f) in kv1 ==> kv1[FieldKey(id, f)] == kv2[FieldKey(id, f)]
  }

  /** Overwriting a present status key keeps the store the same except for status. */
  lemma SetStatusSameExceptStatus(kv: KV, id: string, v: string)
    requires FieldKey(id, Status) in kv
    ensures SameExceptStatus(kv, SetField(kv, id, Status, v))
  {
    forall id2, f: Field | f != Status && FieldKey(id2, f) in kv
      ensures kv[FieldKey(id2, f)] == SetField(kv, id, Status, v)[FieldKey(id2, f)]
    {
      SetFieldFrame(kv, id, Status, v, id2, f);
    }
  }

  /** Whether a four-key read succeeds, and the pid it yields, do not depend on status values. */
  lemma NoMetadataReadIgnoresStatus(kv1: KV, kv2: KV, id: string)
    requires SameExceptStatus(kv1, kv2)
    ensures GetJobWithUuidNoMetadata(kv1, id).Failure? ==>
              GetJobWithUuidNoMetadata(kv2, id) == GetJobWithUuidNoMetadata(kv1, id)
    ensures GetJobWithUuidNoMetadata(kv1, id).Success? ==>
              GetJobWithUuidNoMetadata(kv2, id).Success? &&
              GetJobWithUuidNoMetadata(kv2, id).value.pid == GetJobWithUuidNoMetadata(kv1, id).value.pid
  {
  }

  /** Status keys of the given jobs. */
  function StatusKeys(ids: set<string>): set<string> {
    set id | id in ids :: FieldKey(id, Status)
  }

  /** `kv` with the status of every job in `ids` set to "finish". */
  function Override(kv: KV, ids: set<string>): KV {
    map k | k in kv :: if k in StatusKeys(ids) then Finish else kv[k]
  }

  /** The closed form of the sweep, every decision taken on the ORIGINAL store: the jobs among the
      readable prefix of the queue whose pid is stale, and the error that stops the sweep. */
  function StaleIds(kv: KV, queue: seq<string>, live: set<string>): (set<string>, Option<Error>)
    decreases |queue|
  {
    if queue == [] then ({}, None)
    else match GetJobWithUuidNoMetadata(kv, queue[0])
         case Failure(e) => ({}, Some(e))
         case Success(job) =>
           var rest := StaleIds(kv, queue[1..], live);
           ((if Stale(job.pid, live) then {queue[0]} else {}) + rest.0, rest.1)
  }

  lemma {:induction false} StaleIdsIgnoresStatus(kv1: KV, kv2: KV, queue: seq<string>, live: set<string>)
    requires SameExceptStatus(kv1, kv2)
    ensures StaleIds(kv1, queue, live) == StaleIds(kv2, queue, live)
    decreases |queue|
  {
    if queue != [] {
      NoMetadataReadIgnoresStatus(kv1, kv2, queue[0]);
      StaleIdsIgnoresStatus(kv1, kv2, queue[1..], live);
    }
  }

  lemma StatusKeysMember(ids: set<string>, id: string, f: Field)
    ensures FieldKey(id, f) in StatusKeys(ids) <==> f == Status && id in ids
  {
    if FieldKey(id, f) in StatusKeys(ids) {
      var x :| x in ids && FieldKey(x, Status) == FieldKey(id, f);
      FieldKeyInjective(x, Status, id, f);
    }
  }

  lemma OverrideSameExceptStatus(kv: KV, ids: set<string>)
    ensures SameExceptStatus(kv, Override(kv, ids))
  {
    forall id, f: Field | f != Status && FieldKey(id, f) in kv
      ensures kv[FieldKey(id, f)] == Override(kv, ids)[FieldKey(id, f)]
    {
      StatusKeysMember(ids, id, f);
    }
  }

  /** Every id the closed form marks was read successfully, so its status key is present. */
  lemma {:induction false} StaleIdsReadable(kv: KV, queue: seq<string>, live: set<string>)
    ensures forall id :: id in StaleIds(kv, queue, live).0 ==>
              id in queue && GetJobWithUuidNoMetadata(kv, id).Success? && Stale(kv[FieldKey(id, Pid)], live)
    decreases |queue|
  {
    if queue != [] {
      StaleIdsReadable(kv, queue[1..], live);
    }
  }

  /** Marking one job finished and then overriding the rest is overriding them all. */
  lemma OverrideAbsorbsWrite(kv: KV, id: string, rest: set<string>)
    requires FieldKey(id, Status) in kv
    ensures Override(SetField(kv, id, Status, Finish), rest) == Override(kv, {id} + rest)
  {
    assert StatusKeys({id} + rest) == {FieldKey(id, Status)} + StatusKeys(rest);
  }

  /** The sweep, run step by step, equals the closed form: the result is the original store with
      the status of exactly the stale jobs of the readable prefix set to "finish". */
  lemma {:induction false} ReconcileAllClosedForm(kv: KV, queue: seq<string>, live: set<string>)
    ensures ReconcileAll(kv, queue, live).0 == Override(kv, StaleIds(kv, queue, live).0)
    ensures ReconcileAll(kv, queue, live).1 == StaleIds(kv, queue, live).1
    decreases |queue|
  {
    if queue == [] {
      assert Override(kv, {}) == kv;
    } else {
      var id := queue[0];
      match GetJobWithUuidNoMetadata(kv, id)
      case Failure(e) =>
        assert Override(kv, {}) == kv;
      case Success(job) =>
        var kv1 := if Stale(job.pid, live) then SetField(kv, id, Status, Finish) else kv;
        SetStatusSameExceptStatus(kv, id, Finish);
        StaleIdsIgnoresStatus(kv, kv1, queue[1..], live);
        ReconcileAllClosedForm(kv1, queue[1..], live);
        if Stale(job.pid, live) {
          OverrideAbsorbsWrite(kv, id, StaleIds(kv, queue[1..], live).0);
        } else {
          assert {} + StaleIds(kv, queue[1..], live).0 == StaleIds(kv, queue[1..], live).0;
        }
    }
  }

  /** The sweep keeps every key and every pid, url, video_name and metadata value. */
  lemma ReconcileAllFrame(kv: KV, queue: seq<string>, live: set<string>)
    ensures SameExceptStatus(kv, ReconcileAll(kv, queue, live).0)
  {
    ReconcileAllClosedForm(kv, queue, live);
    OverrideSameExceptStatus(kv, StaleIds(kv, queue, live).0);
  }

  /** A status changes only to "finish", and only for a queued job whose pid is stale. */
  lemma ReconcileAllOnlyFinishes(kv: KV, queue: seq<string>, live: set<string>, id: string)
    requires FieldKey(id, Status) in kv
    ensures ReconcileAll(kv, queue, live).0[FieldKey(id, Status)] == kv[FieldKey(id, Status)] ||
            (ReconcileAll(kv, queue, live).0[FieldKey(id, Status)] == Finish && id in queue &&
             FieldKey(id, Pid) in kv && Stale(kv[FieldKey(id, Pid)], live))
  {
    ReconcileAllClosedForm(kv, queue, live);
    StaleIdsReadable(kv, queue, live);
    StatusKeysMember(StaleIds(kv, queue, live).0, id, Status);
  }

  /** When the sweep meets no unreadable record, every queued job with a stale pid ends "finish". */
  lemma {:induction false} StaleIdsComplete(kv: KV, queue: seq<string>, live: set<string>)
    requires StaleIds(kv, queue, live).1.None?
    ensures forall i :: 0 <= i < |queue| ==> GetJobWithUuidNoMetadata(kv, queue[i]).Success?
    ensures forall i :: 0 <= i < |queue| && FieldKey(queue[i], Pid) in kv && Stale(kv[FieldKey(queue[i], Pid)], live) ==>
              queue[i] in StaleIds(kv, queue, live).0
    decreases |queue|
  {
    if queue != [] {
      StaleIdsComplete(kv, queue[1..], live);
      assert forall i :: 1 <= i < |queue| ==> queue[i] == queue[1..][i - 1];
    }
  }

  lemma ReconcileAllFinishesStale(kv: KV, queue: seq<string>, live: set<string>, i: nat)
    requires ReconcileAll(kv, queue, live).1.None?
    requires i < |queue| && FieldKey(queue[i], Pid) in kv && Stale(kv[FieldKey(queue[i], Pid)], live)
    ensures FieldKey(queue[i], Status) in ReconcileAll(kv, queue, live).0 &&
            ReconcileAll(kv, queue, live).0[FieldKey(queue[i], Status)] == Finish
  {
    ReconcileAllClosedForm(kv, queue, live);
    StaleIdsComplete(kv, queue, live);
    StatusKeysMember(StaleIds(kv, queue, live).0, queue[i], Status);
  }

  /** Running the sweep twice against the same live set is running it once. */
  lemma ReconcileAllIdempotent(kv: KV, queue: seq<string>, live: set<string>)
    ensures ReconcileAll(ReconcileAll(kv, queue, live).0, queue, live) == ReconcileAll(kv, queue, live)
  {
    var s := StaleIds(kv, queue, live);
    var kv1 := ReconcileAll(kv, queue, live).0;
    ReconcileAllClosedForm(kv, queue, live);
    OverrideSameExceptStatus(kv, s.0);
    StaleIdsIgnoresStatus(kv, kv1, queue, live);
    ReconcileAllClosedForm(kv1, queue, live);
    assert Override(kv1, s.0) == kv1;
  }
}
