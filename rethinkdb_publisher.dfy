/**
 * The RethinkDB publisher's decision logic, run against an in-memory fake of the server:
 * configuration validation, the credential choice, check-then-create of the database and
 * tables, the task entry list, and the gating of the two batches.
 */
module RethinkDb {
  import opened Wrappers
  import opened Entities
  import opened MetricsProvider

  /** The publisher's settings. */
  datatype RethinkDbPublisherConfiguration = RethinkDbPublisherConfiguration(
    url: string,
    dbName: string,
    taskTableName: string,
    buildTableName: string,
    username: string,
    password: string,
    publishBuildMetrics: bool,
    publishTaskMetrics: bool)

  /** `publish` refuses to run unless the URL, database and both table names are all non-empty. */
  predicate ValidConfiguration(c: RethinkDbPublisherConfiguration) {
    |c.url| > 0 && |c.dbName| > 0 && |c.taskTableName| > 0 && |c.buildTableName| > 0
  }

  /** The whitespace characters `isBlank()` skips, restricted to ASCII and the separators U+001C-U+001F. */
  predicate IsWhitespace(ch: char) {
    ch == ' ' || ('\t' <= ch <= '\r') || ('\U{1C}' <= ch <= '\U{1F}')
  }

  /** Kotlin `isBlank()`: empty or whitespace only. */
  predicate IsBlank(s: string) {
    forall i :: 0 <= i < |s| ==> IsWhitespace(s[i])
  }

  /** A connection request: the server URL and, when given, the `user(username, password)` credentials. */
  datatype Connection = Connection(url: string, credentials: Option<(string, string)>)

  /** The connection `publish` opens: with credentials unless both username and password are blank. */
  function ConnectionFor(c: RethinkDbPublisherConfiguration): (conn: Connection)
    ensures conn.url == c.url
    ensures conn.credentials.Some? <==> !IsBlank(c.username) || !IsBlank(c.password)
    ensures conn.credentials.Some? ==> conn.credentials.value == (c.username, c.password)
  {
    if IsBlank(c.username) && IsBlank(c.password) then Connection(c.url, None)
    else Connection(c.url, Some((c.username, c.password)))
  }

  /** One `insert` call: the rows written to a table. */
  datatype Batch = Batch(db: string, table: string, entries: seq<Entry>)

  /**
   * The fake server's observable state: its databases, each database's tables, every
   * batch inserted so far and every connection attempted, in order.
   */
  datatype Store = Store(
    dbs: set<string>,
    tables: map<string, set<string>>,
    batches: seq<Batch>,
    connections: seq<Connection>)

  /** Every database has a table set, and only databases do. */
  predicate WellFormed(s: Store) {
    s.tables.Keys == s.dbs
  }

  /** `checkDb`: the database is created when, and only when, it is missing. */
  function DbChecked(s: Store, db: string): (r: Store)
    requires WellFormed(s)
    ensures WellFormed(r)
    ensures r.dbs == s.dbs + {db}
    ensures forall d :: d in s.dbs ==> r.tables[d] == s.tables[d]
    ensures db !in s.dbs ==> r.tables[db] == {}
    ensures r.batches == s.batches && r.connections == s.connections
  {
    if db in s.dbs then s else s.(dbs := s.dbs + {db}, tables := s.tables[db := {}])
  }

  /** `checkTable`: the table is created in its database when, and only when, it is missing. */
  function TableChecked(s: Store, db: string, table: string): (r: Store)
    requires WellFormed(s) && db in s.dbs
    ensures WellFormed(r) && r.dbs == s.dbs
    ensures r.tables[db] == s.tables[db] + {table}
    ensures forall d :: d in s.dbs && d != db ==> r.tables[d] == s.tables[d]
    ensures r.batches == s.batches && r.connections == s.connections
  {
    if table in s.tables[db] then s else s.(tables := s.tables[db := s.tables[db] + {table}])
  }

  function Inserted(s: Store, db: string, table: string, entries: seq<Entry>): Store {
    s.(batches := s.batches + [Batch(db, table, entries)])
  }

  /** Checking a database or a table a second time changes nothing. */
  lemma SchemaChecksIdempotent(s: Store, db: string, table: string)
    requires WellFormed(s)
    ensures DbChecked(DbChecked(s, db), db) == DbChecked(s, db)
    ensures db in s.dbs ==> TableChecked(TableChecked(s, db, table), db, table) == TableChecked(s, db, table)
  {
  }

  /**
   * An in-memory stand-in for the RethinkDB server and driver. Operations the real server
   * rejects (creating what exists, touching a missing database or table) are preconditions
   * here, so every caller is proved never to issue them.
   */
  class FakeBackend {
    var dbs: set<string>
    var tables: map<string, set<string>>
    var batches: seq<Batch>
    var connections: seq<Connection>
    /** Whether connecting succeeds; when it does not, `connect()` throws. */
    const reachable: bool

    ghost predicate Valid()
      reads this
    {
      WellFormed(State())
    }

    function State(): Store
      reads this
    {
      Store(dbs, tables, batches, connections)
    }

    constructor (reachable: bool, initial: Store)
      requires WellFormed(initial)
      ensures Valid() && State() == initial && this.reachable == reachable
    {
      this.reachable := reachable;
      dbs := initial.dbs;
      tables := initial.tables;
      batches := initial.batches;
      connections := initial.connections;
    }

    /** `connect()`: the attempt is recorded; it succeeds exactly when the server is reachable. */
    method Connect(conn: Connection) returns (ok: bool)
      modifies this`connections
      ensures ok == reachable
      ensures State() == old(State()).(connections := old(connections) + [conn])
    {
      connections := connections + [conn];
      ok := reachable;
    }

    /** `dbList().contains(db)`. */
    method DbExists(db: string) returns (exists_: bool)
      ensures exists_ <==> db in dbs
    {
      exists_ := db in dbs;
    }

    /** `dbCreate(db)`. */
    method DbCreate(db: string)
      requires Valid() && db !in dbs
      modifies this`dbs, this`tables
      ensures Valid()
      ensures State() == old(State()).(dbs := old(dbs) + {db}, tables := old(tables)[db := {}])
    {
      dbs := dbs + {db};
      tables := tables[db := {}];
    }

    /** `db(db).tableList().contains(table)`. */
    method TableExists(db: string, table: string) returns (exists_: bool)
      requires Valid() && db in dbs
      ensures exists_ <==> table in tables[db]
    {
      exists_ := table in tables[db];
    }

    /** `db(db).tableCreate(table)`. */
    method TableCreate(db: string, table: string)
      requires Valid() && db in dbs && table !in tables[db]
      modifies this`tables
      ensures Valid()
      ensures State() == old(State()).(tables := old(tables)[db := old(tables)[db] + {table}])
    {
      tables := tables[db := tables[db] + {table}];
    }

    /** `db(db).table(table).insert(entries)`. */
    method Insert(db: string, table: string, entries: seq<Entry>)
      requires Valid() && db in dbs && table in tables[db]
      modifies this`batches
      ensures Valid()
      ensures State() == Inserted(old(State()), db, table, entries)
    {
      batches := batches + [Batch(db, table, entries)];
    }
  }

  /** `"true"` or `"false"`, as Kotlin's `Boolean.toString()`. */
  function BoolString(b: bool): string {
    if b then "true" else "false"
  }

  /** The eight pairs written for one task; `now` is the clock reading taken for `time`. */
  function TaskRow(t: TaskLength, now: int): (row: seq<Entry>)
    ensures |row| == 8
  {
    [ ("state", Str(t.state)),
      ("module", Str(t.moduleName)),
      ("time", Long(now)),
      ("rootNode", Str(BoolString(t.rootNode))),
      ("task", Str(t.taskPath)),
      ("workerId", Str(t.workerId)),
      ("value", Long(t.ms)),
      ("critical", Str(BoolString(t.critical))) ]
  }

  function TaskRows(ts: seq<TaskLength>, now: int): (rows: seq<Entry>)
    ensures |rows| == 8 * |ts|
  {
    if ts == [] then [] else TaskRows(ts[..|ts| - 1], now) + TaskRow(ts[|ts| - 1], now)
  }

  /** What `createTaskEntries` returns: the task custom properties, then eight pairs per task. */
  function TaskEntries(report: ExecutionReport, now: int): seq<Entry> {
    BagEntries(report.customProperties.taskProperties) + TaskRows(report.tasks.GetOr([]), now)
  }

  /** `getCustomProperties`: one single-entry map per task property, in order. */
  function GetCustomProperties(taskProperties: Bag): (r: seq<map<string, string>>)
    ensures |r| == |taskProperties|
    ensures forall i :: 0 <= i < |r| ==> r[i].Keys == {taskProperties[i].0}
                                         && r[i][taskProperties[i].0] == taskProperties[i].1
  {
    if taskProperties == [] then []
    else [map[taskProperties[0].0 := taskProperties[0].1]] + GetCustomProperties(taskProperties[1..])
  }

  lemma BagEntriesStep(props: Bag, i: nat)
    requires i < |props|
    ensures BagEntries(props[..i + 1]) == BagEntries(props[..i]) + [(props[i].0, Str(props[i].1))]
  {
    assert props[..i + 1][..i] == props[..i];
  }

  lemma TaskRowsStep(tasks: seq<TaskLength>, now: int, t: nat)
    requires t < |tasks|
    ensures TaskRows(tasks[..t + 1], now) == TaskRows(tasks[..t], now) + TaskRow(tasks[t], now)
  {
    assert tasks[..t + 1][..t] == tasks[..t];
  }

  /** Pair `j` of task `i`'s row sits at `8 * i + j` of the task rows. */
  lemma {:induction false} TaskRowsAt(ts: seq<TaskLength>, now: int, i: nat, j: nat)
    requires i < |ts| && j < 8
    ensures 8 * i + j < |TaskRows(ts, now)|
    ensures TaskRows(ts, now)[8 * i + j] == TaskRow(ts[i], now)[j]
  {
    var init := ts[..|ts| - 1];
    if i < |ts| - 1 {
      assert init[i] == ts[i];
      TaskRowsAt(init, now, i, j);
    }
  }

  /**
   * The task entry list: the task custom properties verbatim first, then exactly eight
   * pairs per task, in task order: |taskProperties| + 8 * |tasks| entries.
   */
  lemma TaskEntriesLayout(report: ExecutionReport, now: int)
    ensures var props, tasks, e := report.customProperties.taskProperties, report.tasks.GetOr([]), TaskEntries(report, now);
            && |e| == |props| + 8 * |tasks|
            && (forall k :: 0 <= k < |props| ==> e[k] == (props[k].0, Str(props[k].1)))
            && forall i, j :: 0 <= i < |tasks| && 0 <= j < 8 ==> e[|props| + 8 * i + j] == TaskRow(tasks[i], now)[j]
  {
    var props, tasks := report.customProperties.taskProperties, report.tasks.GetOr([]);
    forall i, j | 0 <= i < |tasks| && 0 <= j < 8
      ensures TaskEntries(report, now)[|props| + 8 * i + j] == TaskRow(tasks[i], now)[j]
    {
      TaskRowsAt(tasks, now, i, j);
    }
  }

  /** What a publish call ends in. `Rejected` is the exception `publish` throws to its caller. */
  datatype PublishOutcome = Rejected | Completed | Failed(error: PublishError)

  /** A failure caught and logged inside the background unit. */
  datatype PublishError = ConnectionRefused | BuildEntryFailed(cause: FlattenError)

  /** The task batch is written only when task publishing is on and there is something to write. */
  predicate WritesTasks(c: RethinkDbPublisherConfiguration, taskEntries: seq<Entry>) {
    c.publishTaskMetrics && |taskEntries| > 0
  }

  /** The build batch is written only when build publishing is on and a non-empty entry list was built. */
  predicate WritesBuild(c: RethinkDbPublisherConfiguration, buildEntries: Result<seq<Entry>, FlattenError>) {
    c.publishBuildMetrics && buildEntries.Ok? && |buildEntries.value| > 0
  }

  /**
   * The background unit, given the task entry list and the build entry list (or the
   * exception building it threw): connect, check the database, then the two gated batches,
   * each after the check of its own table.
   */
  function RunSpec(c: RethinkDbPublisherConfiguration, reachable: bool, s: Store,
                   taskEntries: seq<Entry>, buildEntries: Result<seq<Entry>, FlattenError>): (Store, PublishOutcome)
    requires WellFormed(s)
  {
    var connected := s.(connections := s.connections + [ConnectionFor(c)]);
    if !reachable then (connected, Failed(ConnectionRefused))
    else
      var withDb := DbChecked(connected, c.dbName);
      var afterTasks :=
        if WritesTasks(c, taskEntries)
        then Inserted(TableChecked(withDb, c.dbName, c.taskTableName), c.dbName, c.taskTableName, taskEntries)
        else withDb;
      if !c.publishBuildMetrics then (afterTasks, Completed)
      else if buildEntries.Err? then (afterTasks, Failed(BuildEntryFailed(buildEntries.error)))
      else if |buildEntries.value| > 0
      then (Inserted(TableChecked(afterTasks, c.dbName, c.buildTableName), c.dbName, c.buildTableName, buildEntries.value), Completed)
      else (afterTasks, Completed)
  }

  /** `publish`: validation, then the background unit, here run to completion in place. */
  function PublishSpec(c: RethinkDbPublisherConfiguration, reachable: bool, s: Store, report: ExecutionReport, now: int): (Store, PublishOutcome)
    requires WellFormed(s)
  {
    if !ValidConfiguration(c) then (s, Rejected)
    else RunSpec(c, reachable, s, TaskEntries(report, now), Flatten(report))
  }

  /**
   * What the background unit does to the schema: exactly one connection attempt, carrying
   * credentials as the configuration decides; once connected, the database exists and holds
   * the tables of the batches written, and no other database appears or changes.
   */
  lemma RunSchema(c: RethinkDbPublisherConfiguration, reachable: bool, s: Store,
                  taskEntries: seq<Entry>, buildEntries: Result<seq<Entry>, FlattenError>)
    requires WellFormed(s)
    ensures var after := RunSpec(c, reachable, s, taskEntries, buildEntries).0;
            && WellFormed(after)
            && after.connections == s.connections + [ConnectionFor(c)]
            && after.dbs == (if reachable then s.dbs + {c.dbName} else s.dbs)
            && (forall d :: d in s.dbs && d != c.dbName ==> after.tables[d] == s.tables[d])
            && (forall d :: d in s.dbs ==> s.tables[d] <= after.tables[d])
            && (!reachable ==> after == s.(connections := s.connections + [ConnectionFor(c)]))
            && (reachable ==>
                  after.tables[c.dbName] ==
                    (if c.dbName in s.dbs then s.tables[c.dbName] else {})
                    + (if WritesTasks(c, taskEntries) then {c.taskTableName} else {})
                    + (if WritesBuild(c, buildEntries) then {c.buildTableName} else {}))
  {
    var after := RunSpec(c, reachable, s, taskEntries, buildEntries).0;
    if reachable {
      var withDb := DbChecked(s.(connections := s.connections + [ConnectionFor(c)]), c.dbName);
      var afterTasks :=
        if WritesTasks(c, taskEntries)
        then Inserted(TableChecked(withDb, c.dbName, c.taskTableName), c.dbName, c.taskTableName, taskEntries)
        else withDb;
      assert WellFormed(afterTasks) && afterTasks.dbs == s.dbs + {c.dbName};
      if WritesBuild(c, buildEntries) {
        assert after == Inserted(TableChecked(afterTasks, c.dbName, c.buildTableName), c.dbName, c.buildTableName, buildEntries.value);
      } else {
        assert after == afterTasks;
      }
    }
  }

  /**
   * The batches the background unit appends, after all earlier ones: the gated task batch,
   * then the gated build batch. A build-side failure keeps the task batch already written.
   */
  lemma RunBatches(c: RethinkDbPublisherConfiguration, reachable: bool, s: Store,
                   taskEntries: seq<Entry>, buildEntries: Result<seq<Entry>, FlattenError>)
    requires WellFormed(s)
    ensures RunSpec(c, reachable, s, taskEntries, buildEntries).0.batches == s.batches
              + (if reachable && WritesTasks(c, taskEntries) then [Batch(c.dbName, c.taskTableName, taskEntries)] else [])
              + (if reachable && WritesBuild(c, buildEntries) then [Batch(c.dbName, c.buildTableName, buildEntries.value)] else [])
  {
    if reachable {
      var withDb := DbChecked(s.(connections := s.connections + [ConnectionFor(c)]), c.dbName);
      var afterTasks :=
        if WritesTasks(c, taskEntries)
        then Inserted(TableChecked(withDb, c.dbName, c.taskTableName), c.dbName, c.taskTableName, taskEntries)
        else withDb;
      assert afterTasks.batches == s.batches
        + (if WritesTasks(c, taskEntries) then [Batch(c.dbName, c.taskTableName, taskEntries)] else []);
    }
  }

  /** Which terminal state the background unit reaches. */
  lemma RunOutcome(c: RethinkDbPublisherConfiguration, reachable: bool, s: Store,
                   taskEntries: seq<Entry>, buildEntries: Result<seq<Entry>, FlattenError>)
    requires WellFormed(s)
    ensures var outcome := RunSpec(c, reachable, s, taskEntries, buildEntries).1;
            && outcome != Rejected
            && (outcome == Failed(ConnectionRefused) <==> !reachable)
            && (outcome.Failed? && outcome.error.BuildEntryFailed? <==>
                  reachable && c.publishBuildMetrics && buildEntries.Err?)
            && (outcome.Failed? && outcome.error.BuildEntryFailed? ==>
                  buildEntries.Err? && outcome.error.cause == buildEntries.error)
            && (outcome == Completed <==> reachable && (!c.publishBuildMetrics || buildEntries.Ok?))
  {
  }

  /** A successful flattening is never empty, so the build batch's emptiness guard never skips it. */
  lemma FlattenNeverEmpty(report: ExecutionReport)
    requires Flatten(report).Ok?
    ensures |Flatten(report).value| >= 3
  {
    FlattenLayout(report);
  }

  /**
   * The batches one publish call writes, after all earlier ones: with a valid configuration
   * and a reachable server, the task entries when task publishing is on and the list is
   * non-empty, then the flattened build metrics, unchanged, when build publishing is on and
   * flattening succeeds. An invalid configuration touches nothing, not even a connection.
   */
  lemma PublishBatches(c: RethinkDbPublisherConfiguration, reachable: bool, s: Store, report: ExecutionReport, now: int)
    requires WellFormed(s)
    ensures !ValidConfiguration(c) ==> PublishSpec(c, reachable, s, report, now) == (s, Rejected)
    ensures var after := PublishSpec(c, reachable, s, report, now).0;
            var runs := ValidConfiguration(c) && reachable;
            after.batches == s.batches
              + (if runs && WritesTasks(c, TaskEntries(report, now))
                 then [Batch(c.dbName, c.taskTableName, TaskEntries(report, now))] else [])
              + (if runs && c.publishBuildMetrics && Flatten(report).Ok?
                 then [Batch(c.dbName, c.buildTableName, Flatten(report).value)] else [])
  {
    if Flatten(report).Ok? {
      FlattenNeverEmpty(report);
    }
    RunBatches(c, reachable, s, TaskEntries(report, now), Flatten(report));
  }

  /** Which terminal state a publish call reaches. */
  lemma PublishOutcomes(c: RethinkDbPublisherConfiguration, reachable: bool, s: Store, report: ExecutionReport, now: int)
    requires WellFormed(s)
    ensures var outcome := PublishSpec(c, reachable, s, report, now).1;
            && (outcome == Rejected <==> !ValidConfiguration(c))
            && (outcome == Failed(ConnectionRefused) <==> ValidConfiguration(c) && !reachable)
            && (outcome.Failed? && outcome.error.BuildEntryFailed? <==>
                  ValidConfiguration(c) && reachable && c.publishBuildMetrics && Flatten(report).Err?)
            && (outcome.Failed? && outcome.error.BuildEntryFailed? ==> outcome.error.cause == Flatten(report).error)
  {
    if ValidConfiguration(c) {
      RunOutcome(c, reachable, s, TaskEntries(report, now), Flatten(report));
    }
  }

  /**
   * Running the background unit again with entry lists of the same shape finds the database
   * and tables in place and creates nothing: the schema after the second run is the schema
   * after the first.
   */
  lemma RerunKeepsSchema(c: RethinkDbPublisherConfiguration, reachable: bool, s: Store,
                         taskEntries1: seq<Entry>, taskEntries2: seq<Entry>, buildEntries: Result<seq<Entry>, FlattenError>)
    requires WellFormed(s) && |taskEntries1| == |taskEntries2|
    ensures var first := RunSpec(c, reachable, s, taskEntries1, buildEntries).0;
            var second := RunSpec(c, reachable, first, taskEntries2, buildEntries).0;
            second.dbs == first.dbs && second.tables == first.tables
  {
    var first := RunSpec(c, reachable, s, taskEntries1, buildEntries).0;
    RunSchema(c, reachable, s, taskEntries1, buildEntries);
    RunSchema(c, reachable, first, taskEntries2, buildEntries);
  }

  /** Publishing the same report twice never creates a database or table the first call did not. */
  lemma RepublishKeepsSchema(c: RethinkDbPublisherConfiguration, reachable: bool, s: Store, report: ExecutionReport, now1: int, now2: int)
    requires WellFormed(s)
    ensures var first := PublishSpec(c, reachable, s, report, now1).0;
            var second := PublishSpec(c, reachable, first, report, now2).0;
            second.dbs == first.dbs && second.tables == first.tables
  {
    if ValidConfiguration(c) {
      TaskEntriesLayout(report, now1);
      TaskEntriesLayout(report, now2);
      RerunKeepsSchema(c, reachable, s, TaskEntries(report, now1), TaskEntries(report, now2), Flatten(report));
    }
  }

  /** The publisher; `backend` stands for the server its connections reach. */
  class RethinkDbPublisher {
    const configuration: RethinkDbPublisherConfiguration
    const backend: FakeBackend

    constructor (configuration: RethinkDbPublisherConfiguration, backend: FakeBackend)
      ensures this.configuration == configuration && this.backend == backend
    {
      this.configuration := configuration;
      this.backend := backend;
    }

    /**
     * Validates the configuration synchronously, then runs the background unit. Every
     * failure inside the unit is caught and ends in `Failed`; only an invalid configuration
     * reaches the caller, as `Rejected`, before anything touches the server.
     */
    method Publish(report: ExecutionReport, now: int) returns (outcome: PublishOutcome)
      requires backend.Valid()
      modifies backend
      ensures backend.Valid()
      ensures (backend.State(), outcome) == PublishSpec(configuration, backend.reachable, old(backend.State()), report, now)
    {
      if |configuration.url| == 0 || |configuration.dbName| == 0
         || |configuration.taskTableName| == 0 || |configuration.buildTableName| == 0 {
        return Rejected;
      }
      outcome := Run(report, now);
    }

    /** The runnable handed to the executor. */
    method Run(report: ExecutionReport, now: int) returns (outcome: PublishOutcome)
      requires backend.Valid()
      modifies backend
      ensures backend.Valid()
      ensures (backend.State(), outcome) ==
              RunSpec(configuration, backend.reachable, old(backend.State()), TaskEntries(report, now), Flatten(report))
    {
      var ok := backend.Connect(ConnectionFor(configuration));
      if !ok {
        return Failed(ConnectionRefused);
      }
      CheckDb(configuration.dbName);
      if configuration.publishTaskMetrics {
        var entries := CreateTaskEntries(report, now);
        if |entries| > 0 {
          CheckTable(configuration.dbName, configuration.taskTableName);
          backend.Insert(configuration.dbName, configuration.taskTableName, entries);
        }
      }
      if configuration.publishBuildMetrics {
        var entries := CreateBuildEntry(report);
        if entries.Err? {
          return Failed(BuildEntryFailed(entries.error));
        }
        if |entries.value| > 0 {
          CheckTable(configuration.dbName, configuration.buildTableName);
          backend.Insert(configuration.dbName, configuration.buildTableName, entries.value);
        }
      }
      outcome := Completed;
    }

    method CheckDb(db: string)
      requires backend.Valid()
      modifies backend`dbs, backend`tables
      ensures backend.Valid()
      ensures backend.State() == DbChecked(old(backend.State()), db)
    {
      var exist := backend.DbExists(db);
      if !exist {
        backend.DbCreate(db);
      }
    }

    method CheckTable(db: string, table: string)
      requires backend.Valid() && db in backend.dbs
      modifies backend`tables
      ensures backend.Valid()
      ensures backend.State() == TableChecked(old(backend.State()), db, table)
    {
      var exist := backend.TableExists(db, table);
      if !exist {
        backend.TableCreate(db, table);
      }
    }

    /** `createTaskEntries`: appends the task properties, then eight pairs per task. */
    method CreateTaskEntries(report: ExecutionReport, now: int) returns (list: seq<Entry>)
      ensures list == TaskEntries(report, now)
    {
      var taskCustomProperties := GetCustomProperties(report.customProperties.taskProperties);
      list := AddCustomProperties(taskCustomProperties, report.customProperties.taskProperties);
      list := AddTasks(list, report.tasks.GetOr([]), now);
    }

    /** The first `forEach` of `createTaskEntries`: every entry of every single-entry map. */
    method AddCustomProperties(taskCustomProperties: seq<map<string, string>>, ghost props: Bag) returns (list: seq<Entry>)
      requires taskCustomProperties == GetCustomProperties(props)
      ensures list == BagEntries(props)
    {
      list := [];
      var i := 0;
      while i < |taskCustomProperties|
        invariant 0 <= i <= |taskCustomProperties|
        invariant list == BagEntries(props[..i])
      {
        BagEntriesStep(props, i);
        list := AddMapEntries(list, taskCustomProperties[i], props[i].0);
        i := i + 1;
      }
      assert props[..i] == props;
    }

    /** The inner `forEach` over one single-entry map. */
    method AddMapEntries(head: seq<Entry>, m: map<string, string>, ghost key: string) returns (list: seq<Entry>)
      requires m.Keys == {key}
      ensures list == head + [(key, Str(m[key]))]
    {
      list := head;
      var keys := m.Keys;
      while keys != {}
        invariant keys == {} || keys == {key}
        invariant keys != {} ==> list == head
        invariant keys == {} ==> list == head + [(key, Str(m[key]))]
        decreases |keys|
      {
        var k :| k in keys;
        list := list + [(k, Str(m[k]))];
        keys := keys - {k};
      }
    }

    /** The second `forEach` of `createTaskEntries`: eight pairs per task, in task order. */
    method AddTasks(head: seq<Entry>, tasks: seq<TaskLength>, now: int) returns (list: seq<Entry>)
      ensures list == head + TaskRows(tasks, now)
    {
      list := head;
      var t := 0;
      while t < |tasks|
        invariant 0 <= t <= |tasks|
        invariant list == head + TaskRows(tasks[..t], now)
      {
        var task := tasks[t];
        TaskRowsStep(tasks, now, t);
        // the eight `add`s of state, module, time, rootNode, task, workerId, value and critical
        list := list + TaskRow(task, now);
        t := t + 1;
      }
      assert tasks[..t] == tasks;
    }

    /** `createBuildEntry`: the flattening provider's output for the report. */
    method CreateBuildEntry(report: ExecutionReport) returns (entries: Result<seq<Entry>, FlattenError>)
      ensures entries == Flatten(report)
    {
      entries := Get(report);
    }
  }
}
