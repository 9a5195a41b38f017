/** The key layout of the job store (app/main.py, class RedisConn): one list holding the
    job ids and five string keys per job, all under the namespace "piapi.youget". */
module Keys {

  /** The namespace shared by every key (RedisConn.PREFIX). */
  const Prefix: string := "piapi.youget"

  /** The list of job ids, newest first. The janitor spells it out as a literal; it is the same key. */
  const QueueKey: string := Prefix + ".jobs"

  /** The five per-job fields. */
  datatype Field = Status | VideoName | Url | Pid | Metadata

  /** The last component of a per-job key. */
  function FieldName(f: Field): (name: string)
    ensures name != "" && '.' !in name
  {
    match f
    case Status => "status"
    case VideoName => "video_name"
    case Url => "url"
    case Pid => "pid"
    case Metadata => "metadata"
  }

  /** The key of field `f` of job `id`: "piapi.youget.job.<id>.<field>". */
  function FieldKey(id: string, f: Field): string
  {
    Prefix + ".job." + id + "." + FieldName(f)
  }

  /** Index of the last '.' of `s`, or -1 when there is none. */
  function LastDot(s: string): (i: int)
    ensures -1 <= i < |s|
    ensures 0 <= i ==> s[i] == '.'
  {
    if s == [] then -1
    else if s[|s| - 1] == '.' then |s| - 1
    else LastDot(s[..|s| - 1])
  }

  lemma {:induction false} LastDotBeforeSuffix(a: string, n: string)
    requires '.' !in n
    ensures LastDot(a + "." + n) == |a|
    decreases |n|
  {
    var s := a + "." + n;
    if n == [] {
      assert s[|s| - 1] == '.';
    } else {
      assert s[|s| - 1] == n[|n| - 1];
      assert s[..|s| - 1] == a + "." + n[..|n| - 1];
      LastDotBeforeSuffix(a, n[..|n| - 1]);
    }
  }

  /** A dotted name whose last component has no dot splits in exactly one way. */
  lemma SplitAtLastDot(a1: string, n1: string, a2: string, n2: string)
    requires a1 + "." + n1 == a2 + "." + n2
    requires '.' !in n1 && '.' !in n2
    ensures a1 == a2 && n1 == n2
  {
    var s := a1 + "." + n1;
    LastDotBeforeSuffix(a1, n1);
    LastDotBeforeSuffix(a2, n2);
    assert a1 == s[..|a1|] == a2;
    assert n1 == s[|a1| + 1..] == n2;
  }

  lemma FieldNameInjective(f1: Field, f2: Field)
    requires FieldName(f1) == FieldName(f2)
    ensures f1 == f2
  {
    match f1
    case Status =>
      assert FieldName(f2)[0] == 's';
    case VideoName =>
      assert |FieldName(f2)| == 10;
    case Url =>
      assert FieldName(f2)[0] == 'u';
    case Pid =>
      assert FieldName(f2)[0] == 'p';
    case Metadata =>
      assert |FieldName(f2)| == 8;
  }

  /** Distinct (job, field) pairs never share a key, whatever characters the job id holds:
      the field name is the text after the last dot, and the id is what precedes it. */
  lemma FieldKeyInjective(id1: string, f1: Field, id2: string, f2: Field)
    requires FieldKey(id1, f1) == FieldKey(id2, f2)
    ensures id1 == id2 && f1 == f2
  {
    var ns := Prefix + ".job.";
    SplitAtLastDot(ns + id1, FieldName(f1), ns + id2, FieldName(f2));
    assert id1 == (ns + id1)[|ns|..] == (ns + id2)[|ns|..] == id2;
    FieldNameInjective(f1, f2);
  }

  /** A per-job key is the common prefix, then the job id, then a dot and the field's name. */
  lemma FieldKeyLayout(id: string, f: Field)
    ensures |FieldKey(id, f)| == |Prefix| + 6 + |id| + |FieldName(f)|
    ensures FieldKey(id, f)[..|Prefix| + 5] == Prefix + ".job."
    ensures FieldKey(id, f)[|Prefix| + 5..|Prefix| + 5 + |id|] == id
    ensures FieldKey(id, f)[|Prefix| + 5 + |id|..] == "." + FieldName(f)
  {
  }

  /** Keeping the queue apart from the string keys loses nothing: no per-job key is the queue's key. */
  lemma QueueKeyIsNoFieldKey(id: string, f: Field)
    ensures FieldKey(id, f) != QueueKey
  {
    var ns := Prefix + ".job.";
    assert FieldKey(id, f) == ns + (id + "." + FieldName(f));
    assert FieldKey(id, f)[16] == ns[16] == '.';
    assert QueueKey[16] == 's';
  }
}
