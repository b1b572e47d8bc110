/** The coordinator (Coordinator.swift): one connection shared by its
    callers, the signals it publishes around saves, deletes and committed
    blocks, and the live queries that refetch when those signals say their
    objects may be stale. Signals are handed to a live query one at a time,
    one method call each, in the order they were sent. */
module Coordinators {
  import opened Errors
  import opened Values
  import opened Engine
  import opened Results
  import opened Connections
  import opened Databases
  import opened Savepoints
  import opened Records
  import opened Validators
  import opened Schemas
  import Models
  import Queries
  import Operations

  /** What the coordinator publishes: the four record subjects, the commit
      subject, and the invalidation notification. */
  datatype Signal =
    | WillSave(model: Record)
    | DidSave(model: Record)
    | WillDelete(model: Record)
    | DidDelete(model: Record)
    | DidCommit
    | Invalidate

  /** The coordinator: the connection (unset until an open succeeds) and the
      signals sent so far. */
  class Coordinator {
    var connection: Connection?
    var signals: seq<Signal>

    /** `init()`: no connection yet, nothing sent. */
    constructor ()
      ensures connection == null && signals == []
    {
      connection := null;
      signals := [];
    }

    /** `open(_:)`, with `status` the answer of sqlite3_open_v2: a new
        connection is opened with the default flags and kept only if the
        open succeeds; otherwise the coordinator keeps the connection it had. */
    method Open(source: Source, sqlite: Sqlite, status: int) returns (r: Outcome<()>)
      modifies this
      ensures signals == old(signals)
      ensures status != SQLITE_OK ==> r == Fail(OpenFailure(status)) && connection == old(connection)
      ensures status == SQLITE_OK ==>
        && r == Ok(()) && connection != null && fresh(connection)
        && connection.source == source && connection.sqlite == sqlite
        && connection.handle != null && connection.handle.applied == sqlite.stored(PathOf(source))
        && connection.handle.savepoints == [] && connection.spCounter == 0
    {
      var conn := new Connection(source, sqlite);
      r := conn.Open(DefaultFlags, status);
      if r.Fail? {
        return;
      }
      connection := conn;
    }

    /** `close()`: the connection's own close; the connection must have
        been set. */
    method Close(status: int) returns (r: Outcome<()>)
      requires connection != null
      modifies connection
      ensures old(connection.handle) == null ==>
        && r == Ok(()) && connection.handle == null && connection.calls == old(connection.calls)
        && connection.events == old(connection.events) + [Closed]
      ensures old(connection.handle) != null ==> connection.calls == old(connection.calls) + [CloseCall]
      ensures old(connection.handle) != null && status != SQLITE_OK ==>
        && r == Fail(CloseFailure(status)) && connection.handle == old(connection.handle)
        && connection.events == old(connection.events)
      ensures old(connection.handle) != null && status == SQLITE_OK ==>
        r == Ok(()) && connection.handle == null && connection.events == old(connection.events) + [Closed]
      ensures connection.spCounter == old(connection.spCounter)
    {
      r := connection.Close(status);
    }

    /** `apply(schema:)` on the connection. */
    method ApplySchema(tables: seq<TableSchema>) returns (r: Outcome<()>)
      requires connection != null
      modifies connection, connection.handle
      ensures connection.handle == old(connection.handle)
      ensures connection.handle == null ==> r == (if tables == [] then Ok(()) else Fail(Unopened))
      ensures connection.handle != null ==>
        Operations.Follows(connection, r,
          Operations.ApplySpec(connection.handle.sqlite, old(connection.handle.Snapshot()), old(connection.spCounter),
                               old(Operations.MigrationsOf(tables))),
          old(connection.events))
    {
      r := Operations.Apply(connection, tables);
    }

    /** `run(_:)`: perform one migration on the connection. */
    method RunOperation(m: Operations.Migration) returns (r: Outcome<()>)
      requires connection != null
      modifies connection, connection.handle
      ensures connection.handle == old(connection.handle)
      ensures connection.handle == null ==> r == Fail(Unopened)
      ensures connection.handle != null ==>
        Operations.Follows(connection, r,
          Operations.ConnectionPerformSpec(connection.handle.sqlite, old(connection.handle.Snapshot()),
                                           old(connection.spCounter), m),
          old(connection.events))
    {
      r := Operations.ConnectionPerform(connection, m);
    }

    /** The opening half of `perform(block:)`: the connection's save-point is
        begun and the block is handed a coordinated view of it. No signal is
        sent here, so a save-point that never begins sends none. */
    method Begin() returns (r: Outcome<Coordinated>)
      requires connection != null
      modifies connection, connection.handle
      ensures signals == old(signals)
      ensures connection.handle == old(connection.handle)
      ensures connection.handle == null ==>
        r == Fail(Unopened) && connection.spCounter == old(connection.spCounter) && connection.events == old(connection.events)
      ensures connection.handle != null ==>
        && connection.spCounter == old(connection.spCounter) + 1
        && var name := SavepointName(connection.spCounter);
           var (b, st) := PrepareExecute(connection.handle.sqlite, old(connection.handle.Snapshot()), BeginText(name));
           && connection.handle.Snapshot() == st
           && connection.events == old(connection.events) + (if b.Ok? then [Updated, SavepointBegin] else [])
           && (b.Fail? ==> r == Fail(b.error))
           && (b.Ok? ==>
                 && r.Ok? && r.value.coordinator == this && r.value.scope.connection == connection
                 && fresh(r.value.scope) && r.value.scope.name == name && !r.value.scope.isCompleted)
    {
      var entered := Enter(connection);
      if entered.Fail? {
        return Fail(entered.error);
      }
      r := Ok(Coordinated(this, entered.value));
    }

    /** The closing half of `perform(block:)`, given what the block produced:
        the deferred commit signal is sent inside the block, so before the
        save-point is released or rolled back, and then the save-point is
        finished as `_savepoint` does. */
    method Commit<T>(c: Coordinated, body: Outcome<T>) returns (r: Outcome<T>)
      requires c.coordinator == this
      modifies this, c.scope, c.scope.connection, c.scope.connection.handle
      ensures connection == old(connection)
      ensures signals == old(signals) + [DidCommit]
      ensures c.scope.connection.handle == old(c.scope.connection.handle)
      ensures c.scope.connection.spCounter == old(c.scope.connection.spCounter)
      ensures c.scope.connection.handle == null ==>
        && r == (if old(c.scope.isCompleted) then body else Fail(Unopened))
        && c.scope.connection.events == old(c.scope.connection.events)
      ensures c.scope.connection.handle != null ==>
        var (out, st, ev, done) := ExitSpec(c.scope.connection.handle.sqlite, old(c.scope.connection.handle.Snapshot()),
                                            old(c.scope.isCompleted), c.scope.name, body);
        && r == out && c.scope.connection.handle.Snapshot() == st && c.scope.isCompleted == done
        && c.scope.connection.events == old(c.scope.connection.events) + ev
    {
      signals := signals + [DidCommit];
      r := Exit(c.scope, body);
    }

    /** `perform(block:)` for a block that makes no call of its own and
        ends with `body`: exactly one commit signal when the save-point
        begins, none when it does not. */
    method Perform<T>(body: Outcome<T>) returns (r: Outcome<T>)
      requires connection != null
      modifies this, connection, connection.handle
      ensures connection == old(connection) && connection.handle == old(connection.handle)
      ensures connection.handle == null ==> r == Fail(Unopened) && signals == old(signals)
      ensures connection.handle != null ==> connection.spCounter == old(connection.spCounter) + 1
      ensures connection.handle != null ==>
        var name := SavepointName(old(connection.spCounter) + 1);
        var (b, st) := PrepareExecute(connection.handle.sqlite, old(connection.handle.Snapshot()), BeginText(name));
        && (b.Fail? ==> r == Fail(b.error) && signals == old(signals) && connection.handle.Snapshot() == st)
        && (b.Ok? ==>
              var (out, st', ev, _) := ExitSpec(connection.handle.sqlite, st, false, name, body);
              && signals == old(signals) + [DidCommit]
              && r == out && connection.handle.Snapshot() == st'
              && connection.events == old(connection.events) + [Updated, SavepointBegin] + ev)
    {
      var begun := Begin();
      if begun.Fail? {
        return Fail(begun.error);
      }
      ghost var begunEvents := connection.events;
      r := Commit(begun.value, body);
      Operations.EventsAssoc(old(connection.events), [Updated, SavepointBegin], connection.events[|begunEvents|..]);
    }

    /** `invalidate()`: post the invalidation notification. */
    method Invalidate()
      modifies this
      ensures signals == old(signals) + [Signal.Invalidate]
      ensures connection == old(connection)
    {
      signals := signals + [Signal.Invalidate];
    }

    /** `query(_:)`: a new live query for `q`, listening to this
        coordinator. */
    method Query(q: Queries.Query) returns (live: CoordinatedQuery)
      ensures fresh(live) && live.coordinator == this && live.query == q
      ensures live.Current() == View([], false, [])
      ensures forall t: Topic :: live.Listens(t)
    {
      live := new CoordinatedQuery(this, q);
    }
  }

  /** `Coordinated`: what a block of `perform(block:)` is handed, the
      coordinator and the block's save-point. */
  datatype Coordinated = Coordinated(coordinator: Coordinator, scope: Scope) {
    /** `save(_:)`: willSave, then the save through the save-point, then
        didSave only if the save succeeded. */
    method Save(record: Record, extra: seq<Rule>, now: Value) returns (r: Outcome<()>)
      modifies coordinator, scope.connection, scope.connection.handle, record
      ensures coordinator.connection == old(coordinator.connection)
      ensures coordinator.signals == old(coordinator.signals) + [WillSave(record)] + (if r.Ok? then [DidSave(record)] else [])
      ensures scope.connection.handle == old(scope.connection.handle)
    {
      coordinator.signals := coordinator.signals + [WillSave(record)];
      ghost var columns: seq<string>, values: seq<Value>;
      r, columns, values := Models.Save(scope.connection, record, extra, now);
      if r.Ok? {
        coordinator.signals := coordinator.signals + [DidSave(record)];
      }
    }

    /** `delete(_:)`: willDelete, then the delete through the save-point,
        then didDelete only if the delete succeeded. */
    method Delete(record: Record) returns (r: Outcome<()>)
      modifies coordinator, scope.connection, scope.connection.handle
      ensures coordinator.connection == old(coordinator.connection)
      ensures coordinator.signals == old(coordinator.signals) + [WillDelete(record)] + (if r.Ok? then [DidDelete(record)] else [])
      ensures scope.connection.handle == old(scope.connection.handle)
      ensures record.PrimaryKey() <= 0 ==> r == Ok(())
    {
      coordinator.signals := coordinator.signals + [WillDelete(record)];
      r := Models.Delete(scope.connection, record);
      if r.Ok? {
        coordinator.signals := coordinator.signals + [DidDelete(record)];
      }
    }

    /** `run(_:parameters:)`, either form: `execute(sql:parameters:)` through
        the save-point, with no signal. */
    method Run(sql: string, p: Params) returns (r: Outcome<()>)
      modifies scope.connection, scope.connection.handle
      ensures scope.connection.handle == old(scope.connection.handle)
      ensures scope.connection.handle == null ==> r == Fail(Unopened)
      ensures scope.connection.handle != null ==>
        && (r, scope.connection.handle.Snapshot()) ==
             ExecuteSqlSpec(scope.connection.handle.sqlite, old(scope.connection.handle.Snapshot()), sql, p)
        && scope.connection.events == old(scope.connection.events) + (if r.Ok? then [Updated] else [])
    {
      r := ExecuteSql(scope.connection, sql, p);
    }
  }

  /** The four subscriptions a live query holds. */
  datatype Topic = Saves | Deletes | Commits | Invalidations

  /** The subscription a signal is delivered through, if the live query
      holds one for it; it does not listen to willSave and willDelete. */
  function TopicOf(s: Signal): Option<Topic> {
    match s
    case DidSave(_) => Some(Saves)
    case DidDelete(_) => Some(Deletes)
    case DidCommit => Some(Commits)
    case Invalidate => Some(Invalidations)
    case _ => None
  }

  /** An `AnyCancellable` sink. */
  class Subscription {
    const topic: Topic
    var cancelled: bool

    constructor (topic: Topic)
      ensures this.topic == topic && !cancelled
    {
      this.topic := topic;
      cancelled := false;
    }

    /** `cancel()`. */
    method Cancel()
      modifies this
      ensures cancelled
    {
      cancelled := true;
    }
  }

  /** `Set<AnyCancellable>.cancelAll()`: cancel every subscription of the
      set, then empty it. */
  method CancelAll(subs: set<Subscription>) returns (rest: set<Subscription>)
    modifies subs
    ensures rest == {}
    ensures forall o :: o in subs ==> o.cancelled
  {
    var left := subs;
    while left != {}
      invariant left <= subs
      invariant forall o :: o in subs && o !in left ==> o.cancelled
      decreases left
    {
      var o :| o in left;
      o.Cancel();
      left := left - {o};
    }
    rest := {};
  }

  /** What a live query shows: its objects, whether they may be stale, and
      the errors it has reported on its error subject. */
  datatype View = View(objects: seq<Record>, hasChanges: bool, errors: seq<Error>)

  /** A fetch whose outcome is `f`, as the handlers run it: success replaces
      the objects and clears the flag; failure reports the error. */
  function AfterFetch(v: View, f: Outcome<seq<Record>>): View {
    if f.Ok? then View(f.value, false, v.errors) else v.(errors := v.errors + [f.error])
  }

  /** `model is ModelType`: the record is of the live query's type. */
  predicate OfKind(model: Record, kind: string) {
    model.kind == kind
  }

  /** How a live query for `kind` answers a signal it receives, `f` being
      what a fetch run at that point produces. */
  function React(v: View, kind: string, s: Signal, f: Outcome<seq<Record>>): View {
    match s
    case DidSave(m) => if OfKind(m, kind) then v.(hasChanges := true) else v
    case DidDelete(m) => if OfKind(m, kind) then v.(hasChanges := true) else v
    case DidCommit => if v.hasChanges then AfterFetch(v, f) else v
    case Invalidate => AfterFetch(v, f)
    case _ => v
  }

  /** Whether answering `s` in view `v` runs a fetch. */
  predicate Fetching(v: View, s: Signal) {
    s.Invalidate? || (s.DidCommit? && v.hasChanges)
  }

  /** A save or delete of a record of the query's type. */
  predicate Marks(s: Signal, kind: string) {
    (s.DidSave? || s.DidDelete?) && OfKind(s.model, kind)
  }

  /** A save or delete sets the flag exactly when the record is of the
      query's type, and touches nothing else. */
  lemma MarkSetsFlag(v: View, kind: string, s: Signal, f: Outcome<seq<Record>>)
    requires s.DidSave? || s.DidDelete?
    ensures var w := React(v, kind, s, f);
      && (w.hasChanges <==> v.hasChanges || OfKind(s.model, kind))
      && w.objects == v.objects && w.errors == v.errors
  {
  }

  /** A commit with no pending change does nothing. */
  lemma QuietCommit(v: View, kind: string, f: Outcome<seq<Record>>)
    requires !v.hasChanges
    ensures React(v, kind, DidCommit, f) == v
  {
  }

  /** When a signal runs a fetch, a successful one replaces the objects and
      clears the flag; a failed one reports its error and leaves the objects
      and the flag as they were. */
  lemma FetchOutcome(v: View, kind: string, s: Signal, f: Outcome<seq<Record>>)
    requires Fetching(v, s)
    ensures var w := React(v, kind, s, f);
      && (f.Ok? ==> w.objects == f.value && !w.hasChanges && w.errors == v.errors)
      && (f.Fail? ==> w.objects == v.objects && w.hasChanges == v.hasChanges && w.errors == v.errors + [f.error])
  {
  }

  /** The view after answering `ss` in order, `fs[i]` being what a fetch
      run while answering `ss[i]` produces. */
  function Replay(v: View, kind: string, ss: seq<Signal>, fs: seq<Outcome<seq<Record>>>): View
    requires |fs| == |ss|
    decreases |ss|
  {
    if ss == [] then v else Replay(React(v, kind, ss[0], fs[0]), kind, ss[1..], fs[1..])
  }

  /** Answering one more signal after a run of them. */
  lemma {:induction false} ReplaySnoc(v: View, kind: string, ss: seq<Signal>, fs: seq<Outcome<seq<Record>>>,
                                      s: Signal, f: Outcome<seq<Record>>)
    requires |fs| == |ss|
    ensures Replay(v, kind, ss + [s], fs + [f]) == React(Replay(v, kind, ss, fs), kind, s, f)
    decreases |ss|
  {
    if ss == [] {
      assert ss + [s] == [s] && fs + [f] == [f];
    } else {
      assert (ss + [s])[1..] == ss[1..] + [s];
      assert (fs + [f])[1..] == fs[1..] + [f];
      ReplaySnoc(React(v, kind, ss[0], fs[0]), kind, ss[1..], fs[1..], s, f);
    }
  }

  /** Between commits and invalidations, the flag ends up set exactly when
      it was set already or some save or delete was of the query's type, and
      the objects and errors do not change. */
  lemma {:induction false} FlagTracksMarks(v: View, kind: string, ss: seq<Signal>, fs: seq<Outcome<seq<Record>>>)
    requires |fs| == |ss|
    requires forall i :: 0 <= i < |ss| ==> !ss[i].DidCommit? && !ss[i].Invalidate?
    ensures var w := Replay(v, kind, ss, fs);
      && (w.hasChanges <==> v.hasChanges || exists i :: 0 <= i < |ss| && Marks(ss[i], kind))
      && w.objects == v.objects && w.errors == v.errors
    decreases |ss|
  {
    if ss != [] {
      var u := React(v, kind, ss[0], fs[0]);
      FlagTracksMarks(u, kind, ss[1..], fs[1..]);
      if exists i :: 0 <= i < |ss[1..]| && Marks(ss[1..][i], kind) {
        var i :| 0 <= i < |ss[1..]| && Marks(ss[1..][i], kind);
        assert Marks(ss[i + 1], kind);
      }
      if exists i :: 0 <= i < |ss| && Marks(ss[i], kind) {
        var i :| 0 <= i < |ss| && Marks(ss[i], kind);
        if i > 0 {
          assert Marks(ss[1..][i - 1], kind);
        }
      }
    }
  }

  /** A live query with no pending change that receives no invalidation and
      no save or delete of its type never fetches: whatever the fetches
      would have produced, its view does not change. */
  lemma {:induction false} Unconcerned(v: View, kind: string, ss: seq<Signal>, fs: seq<Outcome<seq<Record>>>)
    requires |fs| == |ss| && !v.hasChanges
    requires forall i :: 0 <= i < |ss| ==> !ss[i].Invalidate? && !Marks(ss[i], kind)
    ensures Replay(v, kind, ss, fs) == v
    decreases |ss|
  {
    if ss != [] {
      assert React(v, kind, ss[0], fs[0]) == v;
      Unconcerned(v, kind, ss[1..], fs[1..]);
    }
  }

  /** A save or delete of the query's type followed, before any commit, by
      more saves and deletes and then a commit whose fetch succeeds leaves
      the fetched objects on show and no pending change. */
  lemma MarkThenCommit(v: View, kind: string, ss: seq<Signal>, fs: seq<Outcome<seq<Record>>>, f: Outcome<seq<Record>>)
    requires |fs| == |ss| && f.Ok?
    requires forall i :: 0 <= i < |ss| ==> !ss[i].DidCommit? && !ss[i].Invalidate?
    requires exists i :: 0 <= i < |ss| && Marks(ss[i], kind)
    ensures var w := Replay(v, kind, ss + [DidCommit], fs + [f]);
      w.objects == f.value && !w.hasChanges && w.errors == v.errors
  {
    FlagTracksMarks(v, kind, ss, fs);
    ReplaySnoc(v, kind, ss, fs, DidCommit, f);
  }

  /** The rows `query` reads on an engine holding `applied`. */
  function FetchRows(sqlite: Sqlite, applied: seq<Exec>, query: Queries.Query): Outcome<seq<Row>>
    requires query.Valid()
    reads query
  {
    var sql := Queries.SelectSql(query.select, query.kind, query.wheres, query.orders, query.limit);
    var q := Models.QueryReplies(sqlite, applied, sql, ByName(Queries.QueryValues(query.wheres)));
    if q.Fail? then Fail(q.error) else RowsOf(q.value.0, q.value.1, sqlite.diagnose)
  }

  /** The records `rs` are one per row of `rows`, in order, each of type
      `kind` and holding its row. */
  predicate Holds(rs: seq<Record>, rows: seq<Row>, kind: string)
    reads set r | r in rs
  {
    |rs| == |rows| && forall i :: 0 <= i < |rs| ==> rs[i].kind == kind && rs[i].storage == rows[i]
  }

  /** `f` is what running `query` on `conn` produces. */
  predicate Fetches(conn: Connection, query: Queries.Query, f: Outcome<seq<Record>>)
    requires query.Valid()
    reads conn, conn.handle, query, set r | f.Ok? && r in f.value
  {
    if conn.handle == null then f == Fail(Unopened)
    else
      var rows := FetchRows(conn.handle.sqlite, conn.handle.applied, query);
      && (rows.Fail? ==> f == Fail(rows.error))
      && (rows.Ok? ==> f.Ok? && Holds(f.value, rows.value, query.kind))
  }

  /** `CoordinatedQuery`: a live query, its view, and its subscriptions. */
  class CoordinatedQuery {
    const coordinator: Coordinator
    const query: Queries.Query
    var objects: seq<Record>
    var hasChanges: bool
    var errors: seq<Error>
    var observers: set<Subscription>

    function Current(): View
      reads this
    {
      View(objects, hasChanges, errors)
    }

    /** Whether a subscription for `topic` is still live. */
    predicate Listens(topic: Topic)
      reads this, observers
    {
      exists o :: o in observers && o.topic == topic && !o.cancelled
    }

    /** `init`: nothing fetched, no pending change, and a live subscription
        for each of didSave, didDelete, didCommit and the invalidation
        notification. */
    constructor (coordinator: Coordinator, query: Queries.Query)
      ensures this.coordinator == coordinator && this.query == query
      ensures Current() == View([], false, [])
      ensures fresh(observers)
      ensures forall t: Topic :: Listens(t)
    {
      this.coordinator := coordinator;
      this.query := query;
      objects := [];
      hasChanges := false;
      errors := [];
      var saves := new Subscription(Saves);
      var deletes := new Subscription(Deletes);
      var commits := new Subscription(Commits);
      var invalidations := new Subscription(Invalidations);
      observers := {saves, deletes, commits, invalidations};
      new;
      assert saves in observers && deletes in observers && commits in observers && invalidations in observers;
    }

    /** `fetch()` / `_fetch()`: run the query on the coordinator's
        connection; success replaces the objects and clears the flag, and a
        failure is returned with the view left as it was. */
    method Fetch() returns (r: Outcome<()>, ghost f: Outcome<seq<Record>>)
      requires coordinator.connection != null && query.Valid()
      modifies this
      ensures Fetches(coordinator.connection, query, f)
      ensures f.Ok? ==> r == Ok(()) && (forall i :: 0 <= i < |f.value| ==> fresh(f.value[i]))
      ensures f.Fail? ==> r == Fail(f.error)
      ensures Current() == (if f.Ok? then View(f.value, false, old(errors)) else old(Current()))
      ensures observers == old(observers)
    {
      var got := Queries.Run(coordinator.connection, query);
      f := got;
      if got.Fail? {
        r := Fail(got.error);
        return;
      }
      objects := got.value;
      hasChanges := false;
      r := Ok(());
    }

    /** The fetch a handler runs: a failure goes to the error subject. */
    method Refresh() returns (ghost f: Outcome<seq<Record>>)
      requires coordinator.connection != null && query.Valid()
      modifies this
      ensures Fetches(coordinator.connection, query, f)
      ensures f.Ok? ==> forall i :: 0 <= i < |f.value| ==> fresh(f.value[i])
      ensures Current() == AfterFetch(old(Current()), f)
      ensures observers == old(observers)
    {
      var r;
      r, f := Fetch();
      if r.Fail? {
        errors := errors + [r.error];
      }
    }

    /** `didSave(_:)` and `didDelete(_:)`: a record of the query's type
        marks the objects stale; any other record changes nothing. */
    method OnChange(model: Record)
      modifies this
      ensures hasChanges == (old(hasChanges) || OfKind(model, query.kind))
      ensures objects == old(objects) && errors == old(errors) && observers == old(observers)
    {
      if !OfKind(model, query.kind) {
        return;
      }
      hasChanges := true;
    }

    /** `didCommit()`: refetch only when something changed. */
    method OnCommit() returns (ghost f: Outcome<seq<Record>>)
      requires hasChanges ==> coordinator.connection != null && query.Valid()
      modifies this
      ensures old(hasChanges) ==> Fetches(coordinator.connection, query, f)
      ensures Current() == React(old(Current()), query.kind, DidCommit, f)
      ensures observers == old(observers)
    {
      if !hasChanges {
        return Fail(Unopened);
      }
      f := Refresh();
    }

    /** The invalidation notification: refetch whatever the flag says. */
    method OnInvalidate() returns (ghost f: Outcome<seq<Record>>)
      requires coordinator.connection != null && query.Valid()
      modifies this
      ensures Fetches(coordinator.connection, query, f)
      ensures Current() == React(old(Current()), query.kind, Invalidate, f)
      ensures observers == old(observers)
    {
      f := Refresh();
    }

    /** A signal arriving at the live query: the sink subscribed to it, if
        still live, calls its handler; otherwise nothing happens. */
    method Receive(s: Signal) returns (ghost f: Outcome<seq<Record>>)
      requires Fetching(Current(), s) ==> coordinator.connection != null && query.Valid()
      modifies this
      ensures observers == old(observers)
      ensures TopicOf(s).Some? && old(Listens(TopicOf(s).value)) ==>
        && Current() == React(old(Current()), query.kind, s, f)
        && (Fetching(old(Current()), s) ==> Fetches(coordinator.connection, query, f))
      ensures !(TopicOf(s).Some? && old(Listens(TopicOf(s).value))) ==> Current() == old(Current())
    {
      f := Fail(Unopened);
      var topic := TopicOf(s);
      if topic.None? {
        return;
      }
      var live := Listening(topic.value);
      if !live {
        return;
      }
      match s
      case DidSave(m) => OnChange(m);
      case DidDelete(m) => OnChange(m);
      case DidCommit => f := OnCommit();
      case Invalidate => f := OnInvalidate();
      case _ =>
    }

    /** Whether a live subscription for `topic` is held, as a caller of the
        sinks finds out. */
    method Listening(topic: Topic) returns (b: bool)
      ensures b == Listens(topic)
    {
      b := exists o :: o in observers && o.topic == topic && !o.cancelled;
    }

    /** `cancel()`: every subscription is cancelled and the set emptied, so
        no later signal reaches the query. */
    method Cancel()
      modifies this, observers
      ensures observers == {} && forall o :: o in old(observers) ==> o.cancelled
      ensures Current() == old(Current())
      ensures forall t: Topic :: !Listens(t)
    {
      observers := CancelAll(observers);
    }
  }
}
