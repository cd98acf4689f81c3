/**
 * The flattening provider: turns an execution report into the ordered `(key, value)` stream
 * that the publishers write as one build row.
 */
module MetricsProvider {
  import opened Wrappers
  import opened Entities
  import opened LongParsing

  /** How a present optional field is emitted: verbatim text, text parsed to a Long, or a Double. */
  datatype Raw = Text(text: string) | Numeric(text: string) | Decimal(x: real)

  /** One optional field of the report, under the key it is emitted with; `None` when null. */
  datatype Field = Field(key: string, raw: Option<Raw>)

  /** The `NumberFormatException` that `toLong()` throws on a non-numeric stored value. */
  datatype FlattenError = NumberFormat(key: string, text: string)

  function TextField(key: string, o: Option<string>): Field {
    Field(key, if o.Some? then Some(Text(o.value)) else None)
  }

  function NumericField(key: string, o: Option<string>): Field {
    Field(key, if o.Some? then Some(Numeric(o.value)) else None)
  }

  function DecimalField(key: string, o: Option<real>): Field {
    Field(key, if o.Some? then Some(Decimal(o.value)) else None)
  }

  /**
   * The optional fields `get()` emits after the build properties, in its order. `publicIp`
   * is listed twice (positions 11 and 19) because `get()` emits it twice; `start` is
   * `beginMs` converted to a Double.
   */
  function OptionalFields(r: ExecutionReport): (fs: seq<Field>)
    ensures |fs| == 25
    ensures forall i :: 0 <= i < 25 ==> fs[i] == OptionalField(r, i)
  {
    seq(25, i requires 0 <= i < 25 => OptionalField(r, i))
  }

  /** The optional field at position `i` of `get()`'s order. */
  function OptionalField(r: ExecutionReport, i: nat): Field
    requires i < 25
  {
    var e := r.environment;
    match i
    case 0 => TextField("osVersion", e.osVersion)
    case 1 => NumericField("maxWorkers", e.maxWorkers)
    case 2 => TextField("javaRuntime", e.javaRuntime)
    case 3 => TextField("javaVmName", e.javaVmName)
    case 4 => NumericField("javaXmsBytes", e.javaXmsBytes)
    case 5 => NumericField("javaXmxBytes", e.javaXmxBytes)
    case 6 => NumericField("javaMaxPermSize", e.javaMaxPermSize)
    case 7 => NumericField("totalRamAvailableBytes", e.totalRamAvailableBytes)
    case 8 => NumericField("cpuCount", e.cpuCount)
    case 9 => TextField("locale", e.locale)
    case 10 => TextField("username", e.username)
    case 11 => TextField("publicIp", e.publicIp)
    case 12 => TextField("defaultCharset", e.defaultChartset)
    case 13 => TextField("ideVersion", e.ideVersion)
    case 14 => TextField("gradleVersion", e.gradleVersion)
    case 15 => TextField("gitBranch", e.gitBranch)
    case 16 => TextField("gitUser", e.gitUser)
    case 17 => TextField("hostname", e.hostname)
    case 18 => TextField("osManufacturer", e.osManufacturer)
    case 19 => TextField("publicIp", e.publicIp)
    case 20 => DecimalField("cacheRatio", r.cacheRatio)
    case 21 => DecimalField("start", if r.beginMs.Some? then Some(r.beginMs.value as real) else None)
    case 22 => TextField("rootProject", r.rootProject)
    case 23 => TextField("requestedTasks", r.requestedTasks)
    case _ => TextField("scanLink", r.scanLink)
  }

  predicate Present(f: Field) {
    f.raw.Some?
  }

  /** A present numeric field whose text `toLong()` rejects. */
  predicate Malformed(f: Field) {
    f.raw.Some? && f.raw.value.Numeric? && ParseLong(f.raw.value.text).None?
  }

  /** The pair a present, well-formed field is emitted as. */
  function Emitted(f: Field): (e: Entry)
    requires Present(f) && !Malformed(f)
    ensures e.0 == f.key
  {
    match f.raw.value
    case Text(s) => (f.key, Str(s))
    case Numeric(s) => (f.key, Long(ParseLong(s).value))
    case Decimal(x) => (f.key, Double(x))
  }

  function CountPresent(fs: seq<Field>): (n: nat)
    ensures n <= |fs|
  {
    if fs == [] then 0 else CountPresent(fs[..|fs| - 1]) + (if Present(fs[|fs| - 1]) then 1 else 0)
  }

  /**
   * The `?.let { add(...) }` sequence over the fields: absent ones are skipped, present ones
   * appended in order; the first malformed numeric field aborts with its exception.
   */
  function Emit(fs: seq<Field>): (r: Result<seq<Entry>, FlattenError>)
    ensures r.Ok? <==> forall i :: 0 <= i < |fs| ==> !Malformed(fs[i])
    ensures r.Ok? ==> |r.value| == CountPresent(fs)
    ensures r.Err? ==> exists i :: 0 <= i < |fs| && Malformed(fs[i])
                                && r.error == NumberFormat(fs[i].key, fs[i].raw.value.text)
                                && forall j :: 0 <= j < i ==> !Malformed(fs[j])
  {
    if fs == [] then Ok([])
    else
      var init := fs[..|fs| - 1];
      var f := fs[|fs| - 1];
      assert forall i :: 0 <= i < |init| ==> init[i] == fs[i];
      match Emit(init)
      case Err(e) => Err(e)
      case Ok(t) =>
        if Malformed(f) then Err(NumberFormat(f.key, f.raw.value.text))
        else if Present(f) then Ok(t + [Emitted(f)])
        else Ok(t)
  }

  /** The three core pairs; both durations default to 0 when absent. */
  function CoreEntries(r: ExecutionReport): seq<Entry> {
    [ ("duration", Long(r.durationMs.GetOr(0))),
      ("configuration", Long(r.configurationDurationMs.GetOr(0))),
      ("success", Bool(r.success)) ]
  }

  /** A string bag as pairs with string values, in its iteration order. */
  function BagEntries(b: Bag): (r: seq<Entry>)
    ensures |r| == |b|
    ensures forall j :: 0 <= j < |b| ==> r[j] == (b[j].0, Str(b[j].1))
  {
    if b == [] then [] else BagEntries(b[..|b| - 1]) + [(b[|b| - 1].0, Str(b[|b| - 1].1))]
  }

  /**
   * What `MetricsProviderImpl(report).get()` returns: the build environment pairs, the three
   * core pairs, the custom build properties, then the present optional fields; or the
   * exception the first malformed numeric field raises.
   */
  function Flatten(r: ExecutionReport): Result<seq<Entry>, FlattenError> {
    match Emit(OptionalFields(r))
    case Err(e) => Err(e)
    case Ok(tail) => Ok(r.buildEnv + CoreEntries(r) + BagEntries(r.customProperties.buildProperties) + tail)
  }

  /** An error in a prefix of the fields is the error of all of them. */
  lemma {:induction false} EmitErrorPrefix(fs: seq<Field>, i: nat)
    requires i <= |fs| && Emit(fs[..i]).Err?
    ensures Emit(fs) == Emit(fs[..i])
    decreases |fs| - i
  {
    if i < |fs| {
      assert fs[..i + 1][..i] == fs[..i];
      EmitErrorPrefix(fs, i + 1);
    } else {
      assert fs[..i] == fs;
    }
  }

  /** The `?.let { add(...) }` statements of `get()`, one iteration per optional field. */
  method EmitFields(fields: seq<Field>) returns (result: Result<seq<Entry>, FlattenError>)
    ensures result == Emit(fields)
  {
    var metrics: seq<Entry> := [];
    assert fields[..0] == [];
    var i := 0;
    while i < |fields|
      invariant 0 <= i <= |fields|
      invariant Emit(fields[..i]) == Ok(metrics)
    {
      var f := fields[i];
      ghost var upto := fields[..i + 1];
      assert upto[..i] == fields[..i] && upto[i] == f;
      if f.raw.Some? {
        match f.raw.value
        case Text(s) =>
          metrics := metrics + [(f.key, Str(s))];
        case Numeric(s) =>
          var n := ParseLong(s);
          if n.None? {
            assert Emit(upto) == Err(NumberFormat(f.key, s));
            EmitErrorPrefix(fields, i + 1);
            return Err(NumberFormat(f.key, s));
          }
          metrics := metrics + [(f.key, Long(n.value))];
        case Decimal(x) =>
          metrics := metrics + [(f.key, Double(x))];
      }
      assert Emit(upto) == Ok(metrics);
      i := i + 1;
    }
    assert fields[..i] == fields;
    result := Ok(metrics);
  }

  /** `get()`: list building by sequential `add`s and `forEach` loops. */
  method Get(report: ExecutionReport) returns (result: Result<seq<Entry>, FlattenError>)
    ensures result == Flatten(report)
  {
    var metrics: seq<Entry> := [];
    var buildMeta := report.buildEnv;
    var i := 0;
    while i < |buildMeta|
      invariant 0 <= i <= |buildMeta|
      invariant metrics == buildMeta[..i]
    {
      metrics := metrics + [buildMeta[i]];
      i := i + 1;
    }
    assert buildMeta[..i] == buildMeta;
    metrics := metrics + [("duration", Long(report.durationMs.GetOr(0)))];
    metrics := metrics + [("configuration", Long(report.configurationDurationMs.GetOr(0)))];
    metrics := metrics + [("success", Bool(report.success))];

    var props := report.customProperties.buildProperties;
    var head := metrics;
    i := 0;
    while i < |props|
      invariant 0 <= i <= |props|
      invariant metrics == head + BagEntries(props[..i])
    {
      assert props[..i + 1][..i] == props[..i];
      metrics := metrics + [(props[i].0, Str(props[i].1))];
      i := i + 1;
    }
    assert props[..i] == props;
    assert metrics == report.buildEnv + CoreEntries(report) + BagEntries(props);

    var optional := EmitFields(OptionalFields(report));
    if optional.Err? {
      return Err(optional.error);
    }
    result := Ok(metrics + optional.value);
  }

  /** Where each part of a successful flattening sits, and how long it is. */
  lemma FlattenLayout(r: ExecutionReport)
    requires Flatten(r).Ok?
    ensures var out, env, bag := Flatten(r).value, r.buildEnv, r.customProperties.buildProperties;
            && |out| == |env| + 3 + |bag| + CountPresent(OptionalFields(r))
            && out[..|env|] == env
            && out[|env|] == ("duration", Long(if r.durationMs.Some? then r.durationMs.value else 0))
            && out[|env| + 1] == ("configuration", Long(if r.configurationDurationMs.Some? then r.configurationDurationMs.value else 0))
            && out[|env| + 2] == ("success", Bool(r.success))
            && forall j :: 0 <= j < |bag| ==> out[|env| + 3 + j] == (bag[j].0, Str(bag[j].1))
  {
  }

  /** Index of the first entry after the build properties. */
  function TailStart(r: ExecutionReport): nat {
    |r.buildEnv| + 3 + |r.customProperties.buildProperties|
  }

  lemma {:induction false} CountPresentMonotone(fs: seq<Field>, i: nat, j: nat)
    requires i < j <= |fs|
    ensures CountPresent(fs[..j]) >= CountPresent(fs[..i]) + (if Present(fs[i]) then 1 else 0)
    decreases j - i
  {
    assert fs[..j][..j - 1] == fs[..j - 1];
    if i < j - 1 {
      CountPresentMonotone(fs, i, j - 1);
    } else {
      assert fs[..j][j - 1] == fs[i];
    }
  }

  lemma {:induction false} CountPresentAppend(a: seq<Field>, b: seq<Field>)
    ensures CountPresent(a + b) == CountPresent(a) + CountPresent(b)
    decreases |b|
  {
    if b != [] {
      var init := b[..|b| - 1];
      assert (a + b)[..|a + b| - 1] == a + init;
      CountPresentAppend(a, init);
    } else {
      assert a + b == a;
    }
  }

  /** A present field lands at the position counted by the present fields before it. */
  lemma {:induction false} EmitAt(fs: seq<Field>, i: nat)
    requires Emit(fs).Ok? && i < |fs| && Present(fs[i])
    ensures !Malformed(fs[i])
    ensures CountPresent(fs[..i]) < |Emit(fs).value|
    ensures Emit(fs).value[CountPresent(fs[..i])] == Emitted(fs[i])
    decreases |fs|
  {
    var init := fs[..|fs| - 1];
    assert forall j :: 0 <= j < |init| ==> init[j] == fs[j];
    if i == |fs| - 1 {
      assert fs[..i] == init;
    } else {
      assert init[..i] == fs[..i];
      EmitAt(init, i);
    }
  }

  /** Every emitted pair comes from a present, well-formed field. */
  lemma {:induction false} EmitFrom(fs: seq<Field>, j: nat)
    requires Emit(fs).Ok? && j < |Emit(fs).value|
    ensures exists i :: 0 <= i < |fs| && Present(fs[i]) && !Malformed(fs[i]) && Emit(fs).value[j] == Emitted(fs[i])
    decreases |fs|
  {
    var init := fs[..|fs| - 1];
    assert forall k :: 0 <= k < |init| ==> init[k] == fs[k];
    if j < |Emit(init).value| {
      EmitFrom(init, j);
      var i :| 0 <= i < |init| && Present(init[i]) && !Malformed(init[i]) && Emit(init).value[j] == Emitted(init[i]);
      assert fs[i] == init[i];
    } else {
      assert Emit(fs).value[j] == Emitted(fs[|fs| - 1]);
    }
  }

  /** Each present optional field is emitted, under its key, at its place in source order. */
  lemma FlattenEmitsField(r: ExecutionReport, i: nat)
    requires Flatten(r).Ok? && i < 25 && Present(OptionalFields(r)[i])
    ensures TailStart(r) + CountPresent(OptionalFields(r)[..i]) < |Flatten(r).value|
    ensures Flatten(r).value[TailStart(r) + CountPresent(OptionalFields(r)[..i])] == Emitted(OptionalFields(r)[i])
  {
    EmitAt(OptionalFields(r), i);
  }

  /** After the build properties, every pair is the emission of a present optional field. */
  lemma FlattenTailFromFields(r: ExecutionReport, j: nat)
    requires Flatten(r).Ok? && TailStart(r) <= j < |Flatten(r).value|
    ensures exists i :: 0 <= i < 25 && Present(OptionalFields(r)[i]) && !Malformed(OptionalFields(r)[i])
                        && Flatten(r).value[j] == Emitted(OptionalFields(r)[i])
  {
    EmitFrom(OptionalFields(r), j - TailStart(r));
  }

  /** A null optional field produces no pair under its key. */
  lemma FlattenOmitsAbsent(r: ExecutionReport, k: string)
    requires Flatten(r).Ok?
    requires forall i :: 0 <= i < 25 && OptionalFields(r)[i].key == k ==> !Present(OptionalFields(r)[i])
    ensures forall j :: TailStart(r) <= j < |Flatten(r).value| ==> Flatten(r).value[j].0 != k
  {
    forall j | TailStart(r) <= j < |Flatten(r).value|
      ensures Flatten(r).value[j].0 != k
    {
      FlattenTailFromFields(r, j);
    }
  }

  /** A present `publicIp` is emitted twice, at two distinct positions after the build properties. */
  lemma PublicIpEmittedTwice(r: ExecutionReport, ip: string)
    requires Flatten(r).Ok? && r.environment.publicIp == Some(ip)
    ensures exists j1, j2 :: TailStart(r) <= j1 < j2 < |Flatten(r).value|
                             && Flatten(r).value[j1] == ("publicIp", Str(ip))
                             && Flatten(r).value[j2] == ("publicIp", Str(ip))
  {
    var fs := OptionalFields(r);
    FlattenEmitsField(r, 11);
    FlattenEmitsField(r, 19);
    CountPresentMonotone(fs, 11, 19);
    var j1 := TailStart(r) + CountPresent(fs[..11]);
    var j2 := TailStart(r) + CountPresent(fs[..19]);
    assert Flatten(r).value[j1] == ("publicIp", Str(ip)) && Flatten(r).value[j2] == ("publicIp", Str(ip));
  }

  /** The optional fields with the second `publicIp` left out: one per report field. */
  function DistinctFields(r: ExecutionReport): seq<Field> {
    OptionalFields(r)[..19] + OptionalFields(r)[20..]
  }

  /**
   * The output length: environment pairs, three core pairs, the build properties, one pair
   * per non-null optional field, and one more when `publicIp` is present.
   */
  lemma FlattenLength(r: ExecutionReport)
    requires Flatten(r).Ok?
    ensures |Flatten(r).value| == TailStart(r) + CountPresent(DistinctFields(r))
                                  + (if r.environment.publicIp.Some? then 1 else 0)
  {
    var fs := OptionalFields(r);
    assert fs == fs[..19] + [fs[19]] + fs[20..];
    CountPresentAppend(fs[..19] + [fs[19]], fs[20..]);
    CountPresentAppend(fs[..19], [fs[19]]);
    CountPresentAppend(fs[..19], fs[20..]);
    assert CountPresent([fs[19]]) == if Present(fs[19]) then 1 else 0 by {
      assert [fs[19]][..0] == [];
    }
  }

  /** Whether `toLong()` accepts a stored numeric value, or it is null. */
  predicate Parses(o: Option<string>) {
    o.None? || ParseLong(o.value).Some?
  }

  /** Flattening fails exactly when a present numeric environment value is not a decimal Long. */
  lemma FlattenFailsIffMalformed(r: ExecutionReport)
    ensures Flatten(r).Err? <==>
            !(&& Parses(r.environment.maxWorkers)
              && Parses(r.environment.javaXmsBytes)
              && Parses(r.environment.javaXmxBytes)
              && Parses(r.environment.javaMaxPermSize)
              && Parses(r.environment.totalRamAvailableBytes)
              && Parses(r.environment.cpuCount))
  {
    var fs := OptionalFields(r);
    if Flatten(r).Err? {
      var i :| 0 <= i < |fs| && Malformed(fs[i]);
      MalformedIsNumeric(r, i);
    } else {
      assert !Malformed(fs[1]) && !Malformed(fs[4]) && !Malformed(fs[5]);
      assert !Malformed(fs[6]) && !Malformed(fs[7]) && !Malformed(fs[8]);
    }
  }

  /** Only the six numeric environment fields can be malformed. */
  lemma MalformedIsNumeric(r: ExecutionReport, i: nat)
    requires i < 25 && Malformed(OptionalFields(r)[i])
    ensures i == 1 ==> !Parses(r.environment.maxWorkers)
    ensures i == 4 ==> !Parses(r.environment.javaXmsBytes)
    ensures i == 5 ==> !Parses(r.environment.javaXmxBytes)
    ensures i == 6 ==> !Parses(r.environment.javaMaxPermSize)
    ensures i == 7 ==> !Parses(r.environment.totalRamAvailableBytes)
    ensures i == 8 ==> !Parses(r.environment.cpuCount)
    ensures i in {1, 4, 5, 6, 7, 8}
  {
    if i !in {1, 4, 5, 6, 7, 8} {
      assert false;
    }
  }

  /**
   * A stored `cpuCount` that is the decimal text of a Long is emitted as that Long, and no
   * pair after the build properties carries it as text.
   */
  lemma CpuCountEmittedAsLong(r: ExecutionReport, n: int)
    requires LONG_MIN <= n <= LONG_MAX
    requires r.environment.cpuCount == Some(LongToString(n))
    requires Flatten(r).Ok?
    ensures exists j :: TailStart(r) <= j < |Flatten(r).value| && Flatten(r).value[j] == ("cpuCount", Long(n))
    ensures forall j, s :: TailStart(r) <= j < |Flatten(r).value| ==> Flatten(r).value[j] != ("cpuCount", Str(s))
  {
    var fs := OptionalFields(r);
    ParseLongToString(n);
    FlattenEmitsField(r, 8);
    forall j, s | TailStart(r) <= j < |Flatten(r).value|
      ensures Flatten(r).value[j] != ("cpuCount", Str(s))
    {
      FlattenTailFromFields(r, j);
      forall i | 0 <= i < 25 && Present(fs[i]) && !Malformed(fs[i])
        ensures Emitted(fs[i]) != ("cpuCount", Str(s))
      {
        OnlyNumericCpuCount(r, i);
      }
    }
  }

  /** The only optional field keyed `cpuCount` is the numeric one. */
  lemma OnlyNumericCpuCount(r: ExecutionReport, i: nat)
    requires i < 25
    ensures OptionalField(r, i).key == "cpuCount" ==> i == 8
  {
  }
}
