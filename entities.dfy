/**
 * The data the metrics pipeline works on: the build report, its custom property bags and
 * the closed union of values a flattened metric can carry.
 */
module Entities {
  import opened Wrappers

  /** A flattened metric value: Kotlin String, Long, Boolean or Double. */
  datatype Value = Str(s: string) | Long(n: int) | Bool(b: bool) | Double(d: real)

  /** One `(key, value)` pair of a flattened metric stream. */
  type Entry = (string, Value)

  /**
   * A Kotlin `MutableMap<String, String>` (a `LinkedHashMap`): its entries in iteration
   * (insertion) order. Keys are distinct in every bag the operations below build.
   */
  type Bag = seq<(string, string)>

  predicate DistinctKeys(b: Bag) {
    forall i, j :: 0 <= i < j < |b| ==> b[i].0 != b[j].0
  }

  /** `b[k]`: the value stored under `k`, or `null`. */
  function Lookup(b: Bag, k: string): (r: Option<string>)
    ensures r.Some? <==> exists i :: 0 <= i < |b| && b[i].0 == k
    ensures DistinctKeys(b) ==> forall i :: 0 <= i < |b| && b[i].0 == k ==> r == Some(b[i].1)
  {
    if b == [] then None
    else if b[0].0 == k then Some(b[0].1)
    else
      var r := Lookup(b[1..], k);
      assert forall i :: 1 <= i < |b| ==> b[i] == b[1..][i - 1];
      r
  }

  /**
   * `b[k] = v` on a `LinkedHashMap`: an existing key keeps its position and takes the new
   * value (last write wins), a new key is appended at the end.
   */
  function Put(b: Bag, k: string, v: string): Bag {
    if b == [] then [(k, v)]
    else if b[0].0 == k then [(k, v)] + b[1..]
    else [b[0]] + Put(b[1..], k, v)
  }

  lemma LookupCons(x: (string, string), rest: Bag, k: string)
    ensures Lookup([x] + rest, k) == if x.0 == k then Some(x.1) else Lookup(rest, k)
  {
    assert ([x] + rest)[1..] == rest;
  }

  /** After `b[k] = v`, `k` maps to `v` and every other key maps to what it mapped to before. */
  lemma {:induction false} PutLookup(b: Bag, k: string, v: string)
    ensures Lookup(Put(b, k, v), k) == Some(v)
    ensures forall k' :: k' != k ==> Lookup(Put(b, k, v), k') == Lookup(b, k')
  {
    if b == [] {
    } else if b[0].0 == k {
      forall k' | k' != k ensures Lookup(Put(b, k, v), k') == Lookup(b, k') {
        LookupCons((k, v), b[1..], k');
        LookupCons(b[0], b[1..], k');
        assert b == [b[0]] + b[1..];
      }
    } else {
      PutLookup(b[1..], k, v);
      LookupCons(b[0], Put(b[1..], k, v), k);
      forall k' | k' != k ensures Lookup(Put(b, k, v), k') == Lookup(b, k') {
        LookupCons(b[0], Put(b[1..], k, v), k');
        LookupCons(b[0], b[1..], k');
        assert b == [b[0]] + b[1..];
      }
    }
  }

  /**
   * `b[k] = v` keeps every key in its position; a key already present keeps the size, and a
   * new key is appended at the end with nothing else changed.
   */
  lemma {:induction false} PutShape(b: Bag, k: string, v: string)
    ensures |Put(b, k, v)| == if Lookup(b, k).Some? then |b| else |b| + 1
    ensures forall i :: 0 <= i < |b| ==> Put(b, k, v)[i].0 == b[i].0
    ensures Lookup(b, k).None? ==> Put(b, k, v) == b + [(k, v)]
  {
    if b != [] && b[0].0 != k {
      PutShape(b[1..], k, v);
      assert b == [b[0]] + b[1..];
      LookupCons(b[0], b[1..], k);
    }
  }

  /** `b[k] = v` keeps the keys distinct. */
  lemma {:induction false} PutDistinct(b: Bag, k: string, v: string)
    requires DistinctKeys(b)
    ensures DistinctKeys(Put(b, k, v))
  {
    if b != [] && b[0].0 != k {
      var t := Put(b[1..], k, v);
      PutDistinct(b[1..], k, v);
      PutShape(b[1..], k, v);
      var r := [b[0]] + t;
      assert r == Put(b, k, v);
      forall j | 1 <= j < |r| ensures r[0].0 != r[j].0 {
        if j < |b| {
          assert r[j].0 == b[j].0;
        } else {
          assert r[j] == (k, v);
        }
      }
    }
  }

  /** The report's two open bags of user-defined properties. */
  datatype CustomProperties = CustomProperties(buildProperties: Bag, taskProperties: Bag)

  const NoCustomProperties := CustomProperties([], [])

  /**
   * The environment snapshot: every fact is optional, and the numeric ones are stored as
   * the decimal text the probes produced.
   */
  datatype Environment = Environment(
    osVersion: Option<string>,
    maxWorkers: Option<string>,
    javaRuntime: Option<string>,
    javaVmName: Option<string>,
    javaXmsBytes: Option<string>,
    javaXmxBytes: Option<string>,
    javaMaxPermSize: Option<string>,
    totalRamAvailableBytes: Option<string>,
    cpuCount: Option<string>,
    locale: Option<string>,
    username: Option<string>,
    publicIp: Option<string>,
    defaultChartset: Option<string>,
    ideVersion: Option<string>,
    gradleVersion: Option<string>,
    gitBranch: Option<string>,
    gitUser: Option<string>,
    hostname: Option<string>,
    osManufacturer: Option<string>)

  /** One executed task of the build; `state` is the name of its Gradle task state, `moduleName` its `module`. */
  datatype TaskLength = TaskLength(
    ms: int,
    taskName: string,
    taskPath: string,
    state: string,
    critical: bool,
    moduleName: string,
    rootNode: bool,
    workerId: string)

  /**
   * The build record. `buildEnv` stands for what `flattenBuildEnv()` yields for this report:
   * its pairs, in order.
   */
  datatype ExecutionReport = ExecutionReport(
    buildEnv: seq<Entry>,
    requestedTasks: Option<string>,
    rootProject: Option<string>,
    scanLink: Option<string>,
    beginMs: Option<int>,
    durationMs: Option<int>,
    configurationDurationMs: Option<int>,
    success: bool,
    cacheRatio: Option<real>,
    environment: Environment,
    customProperties: CustomProperties,
    tasks: Option<seq<TaskLength>>)
}
