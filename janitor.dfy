/** The queue janitor, app/main.py's `job()`: run on a timer (not modelled), it drops from the
    queue every job whose pid key is absent or empty, and deletes no per-job key. */
module Janitor {
  import opened Keys
  import opened Records
  import opened Store

  /** A queued job the janitor prunes: its pid key is missing or holds "". This includes every
      job still in status "ready", whose pid was written as "". */
  predicate Unstarted(kv: KV, id: string): (b: bool)
    ensures GetJobWithUuidNoMetadata(kv, id).Success? ==> (b <==> GetJobWithUuidNoMetadata(kv, id).value.pid == "")
  {
    FieldKey(id, Pid) !in kv || kv[FieldKey(id, Pid)] == ""
  }

  /** `q` without any occurrence of the ids in `gone`; LREM with count 0 is Without(q, {id}). */
  function Without(q: seq<string>, gone: set<string>): (r: seq<string>)
    ensures forall x :: x in r <==> x in q && x !in gone
    decreases |q|
  {
    if q == [] then []
    else (if q[0] in gone then [] else [q[0]]) + Without(q[1..], gone)
  }

  /** The queue the janitor leaves: the started jobs, in their original order. */
  function Pruned(kv: KV, q: seq<string>): (r: seq<string>)
    ensures forall x :: x in r <==> x in q && !Unstarted(kv, x)
    decreases |q|
  {
    if q == [] then []
    else (if Unstarted(kv, q[0]) then [] else [q[0]]) + Pruned(kv, q[1..])
  }

  /** The unstarted ids among `p`. */
  function UnstartedAmong(kv: KV, p: seq<string>): set<string> {
    set x | x in p && Unstarted(kv, x)
  }

  lemma WithoutCons(x: string, r: seq<string>, gone: set<string>)
    ensures Without([x] + r, gone) == (if x in gone then [] else [x]) + Without(r, gone)
  {
    assert ([x] + r)[1..] == r;
  }

  lemma PrunedCons(kv: KV, x: string, r: seq<string>)
    ensures Pruned(kv, [x] + r) == (if Unstarted(kv, x) then [] else [x]) + Pruned(kv, r)
  {
    assert ([x] + r)[1..] == r;
  }

  lemma {:induction false} WithoutNothing(q: seq<string>)
    ensures Without(q, {}) == q
    decreases |q|
  {
    if q != [] {
      WithoutNothing(q[1..]);
      assert q == [q[0]] + q[1..];
    }
  }

  lemma {:induction false} WithoutWithout(q: seq<string>, a: set<string>, b: set<string>)
    ensures Without(Without(q, a), b) == Without(q, a + b)
    decreases |q|
  {
    if q != [] {
      WithoutWithout(q[1..], a, b);
      if q[0] in a {
        assert Without(q, a) == Without(q[1..], a);
      } else {
        assert Without(q, a) == [q[0]] + Without(q[1..], a);
        WithoutCons(q[0], Without(q[1..], a), b);
      }
    }
  }

  lemma {:induction false} WithoutUnstartedIsPruned(kv: KV, q: seq<string>, gone: set<string>)
    requires forall x :: x in q ==> (x in gone <==> Unstarted(kv, x))
    ensures Without(q, gone) == Pruned(kv, q)
    decreases |q|
  {
    if q != [] {
      WithoutUnstartedIsPruned(kv, q[1..], gone);
    }
  }

  /** `a` is `b` with some elements deleted, the rest in the same order. */
  predicate Subsequence(a: seq<string>, b: seq<string>)
    decreases |b|
  {
    a == [] || (b != [] && ((a[0] == b[0] && Subsequence(a[1..], b[1..])) || Subsequence(a, b[1..])))
  }

  /** Pruning keeps the relative order of the jobs it keeps. */
  lemma {:induction false} PrunedKeepsOrder(kv: KV, q: seq<string>)
    ensures Subsequence(Pruned(kv, q), q)
    decreases |q|
  {
    if q != [] {
      PrunedKeepsOrder(kv, q[1..]);
      var p := Pruned(kv, q);
      if !Unstarted(kv, q[0]) {
        assert p[0] == q[0] && p[1..] == Pruned(kv, q[1..]);
      } else {
        assert p == Pruned(kv, q[1..]);
      }
    }
  }

  /** Every occurrence of an unstarted job goes; every occurrence of a started one stays. */
  lemma {:induction false} PrunedCount(kv: KV, q: seq<string>, x: string)
    ensures multiset(Pruned(kv, q))[x] == if Unstarted(kv, x) then 0 else multiset(q)[x]
    decreases |q|
  {
    if q != [] {
      PrunedCount(kv, q[1..], x);
      assert q == [q[0]] + q[1..];
    }
  }

  /** A second sweep over the same keys removes nothing more. */
  lemma {:induction false} PrunedIdempotent(kv: KV, q: seq<string>)
    ensures Pruned(kv, Pruned(kv, q)) == Pruned(kv, q)
    decreases |q|
  {
    if q != [] {
      PrunedIdempotent(kv, q[1..]);
      if Unstarted(kv, q[0]) {
        assert Pruned(kv, q) == Pruned(kv, q[1..]);
      } else {
        assert Pruned(kv, q) == [q[0]] + Pruned(kv, q[1..]);
        PrunedCons(kv, q[0], Pruned(kv, q[1..]));
      }
    }
  }

  /** A job just created by set_job_with_ready, not yet downloading, is pruned by the next sweep. */
  lemma NewJobIsPruned(kv: KV, q: seq<string>, id: string, videoName: string, url: string, metadata: string)
    ensures id !in Pruned(Created(kv, id, videoName, url, metadata), [id] + q)
  {
    CreateRoundTrip(kv, id, videoName, url, metadata);
  }

  /** job(): a snapshot of the queue, then LREM of every occurrence of each unstarted id. */
  method Sweep(s: JobStore)
    modifies s
    ensures s.kv == old(s.kv)
    ensures s.jobs == Pruned(old(s.kv), old(s.jobs))
  {
    var ids := s.jobs;
    WithoutNothing(ids);
    assert UnstartedAmong(s.kv, ids[..0]) == {};
    for i := 0 to |ids|
      invariant s.kv == old(s.kv)
      invariant s.jobs == Without(ids, UnstartedAmong(s.kv, ids[..i]))
    {
      var id := ids[i];
      assert ids[..i + 1] == ids[..i] + [id];
      if FieldKey(id, Pid) !in s.kv || s.kv[FieldKey(id, Pid)] == "" {
        WithoutWithout(ids, UnstartedAmong(s.kv, ids[..i]), {id});
        assert UnstartedAmong(s.kv, ids[..i + 1]) == UnstartedAmong(s.kv, ids[..i]) + {id};
        s.jobs := Without(s.jobs, {id});
      } else {
        assert UnstartedAmong(s.kv, ids[..i + 1]) == UnstartedAmong(s.kv, ids[..i]);
      }
    }
    assert ids[..|ids|] == ids;
    WithoutUnstartedIsPruned(s.kv, ids, UnstartedAmong(s.kv, ids));
  }
}
