/** Save-point scopes (Savepoint.swift) and the connection's `_savepoint`
    (Connection.swift): a uniquely named SAVEPOINT is opened, the caller's
    block runs, and the scope is released when the block succeeds or rolled
    back when it throws. A scope completes at most once. */
module Savepoints {
  import opened Errors
  import opened Values
  import opened Text
  import opened Engine
  import opened Statements
  import opened Connections
  import opened Databases

  // The texts a scope executes, each with its trailing ';'.
  function BeginText(name: string): string { BeginSql(name) + ";" }
  function ReleaseText(name: string): string { ReleaseSql(name) + ";" }
  function RollbackText(name: string): string { RollbackSql(name) + ";" }

  /** The engine compiles every save-point text to a statement without
      parameters. */
  ghost predicate AcceptsSavepoints(sqlite: Sqlite) {
    && (forall name :: sqlite.compile(BeginText(name)).status == SQLITE_OK && sqlite.compile(BeginText(name)).hasStatement)
    && (forall name :: sqlite.compile(ReleaseText(name)).status == SQLITE_OK && sqlite.compile(ReleaseText(name)).hasStatement)
    && (forall name :: sqlite.compile(RollbackText(name)).status == SQLITE_OK && sqlite.compile(RollbackText(name)).hasStatement)
  }

  /** `"SP_0\(counter)"`. */
  function SavepointName(counter: nat): (name: string)
    ensures |name| >= 5 && name[..4] == "SP_0" && IsDigit(name[|name| - 1])
  {
    "SP_0" + NatToString(counter)
  }

  /** Different counter values name different save-points. */
  lemma SavepointNamesDistinct(a: nat, b: nat)
    ensures SavepointName(a) == SavepointName(b) ==> a == b
  {
    if SavepointName(a) == SavepointName(b) {
      assert SavepointName(a)[4..] == NatToString(a);
      assert SavepointName(b)[4..] == NatToString(b);
      NatToStringInjective(a, b);
    }
  }

  /** A save-point name the statement trimming leaves alone. */
  predicate PlainName(name: string) {
    name != [] && name[|name| - 1] !in Cleanup
  }

  lemma GeneratedNamesArePlain(counter: nat)
    ensures PlainName(SavepointName(counter))
  {
  }

  /** The kept text of a save-point statement is its SQL without the ';'. */
  lemma SavepointTextsTrim(name: string)
    requires PlainName(name)
    ensures Trim(BeginText(name), Cleanup) == BeginSql(name)
    ensures Trim(ReleaseText(name), Cleanup) == ReleaseSql(name)
    ensures Trim(RollbackText(name), Cleanup) == RollbackSql(name)
  {
    assert BeginSql(name)[|BeginSql(name)| - 1] == name[|name| - 1];
    assert ReleaseSql(name)[|ReleaseSql(name)| - 1] == name[|name| - 1];
    assert RollbackSql(name)[|RollbackSql(name)| - 1] == name[|name| - 1];
    TrimDropsTail(BeginSql(name), ";", Cleanup);
    TrimDropsTail(ReleaseSql(name), ";", Cleanup);
    TrimDropsTail(RollbackSql(name), ";", Cleanup);
  }

  /** `begin()` opens a save-point on top of the stack and keeps the
      contents. */
  lemma BeginPushes(sqlite: Sqlite, st: State, name: string)
    requires AcceptsSavepoints(sqlite) && PlainName(name)
    ensures PrepareExecute(sqlite, st, BeginText(name)) == (Ok(()), State(st.applied, st.savepoints + [Frame(name, st.applied)]))
  {
    SavepointTextsTrim(name);
    ClassifySavepointSql(name);
  }

  /** `release()` of an open save-point keeps the contents and closes it and
      every save-point opened after it. */
  lemma ReleasePops(sqlite: Sqlite, st: State, name: string)
    requires AcceptsSavepoints(sqlite) && PlainName(name) && Find(st.savepoints, name).Some?
    ensures PrepareExecute(sqlite, st, ReleaseText(name)) ==
      (Ok(()), State(st.applied, st.savepoints[..Find(st.savepoints, name).value]))
  {
    SavepointTextsTrim(name);
    ReleaseKeeps(st, name, map[], sqlite.verdict);
  }

  /** `rollback()` of an open save-point restores the contents it saw and
      leaves it open. */
  lemma RollbackReturns(sqlite: Sqlite, st: State, name: string)
    requires AcceptsSavepoints(sqlite) && PlainName(name) && Find(st.savepoints, name).Some?
    ensures var k := Find(st.savepoints, name).value;
      PrepareExecute(sqlite, st, RollbackText(name)) ==
        (Ok(()), State(st.savepoints[k].snapshot, st.savepoints[..k + 1]))
  {
    SavepointTextsTrim(name);
    RollbackRestores(st, name, map[], sqlite.verdict);
  }

  /** `release()` or `rollback()` of a scope on an open handle: nothing at all
      once the scope is completed; otherwise the text runs, and only its
      success completes the scope and publishes `event` after `updated`.
      Returns the outcome, the new state, the events and the new flag. */
  function FinishSpec(sqlite: Sqlite, st: State, completed: bool, text: string, event: EventName)
    : (Outcome<()>, State, seq<EventName>, bool)
  {
    if completed then (Ok(()), st, [], true)
    else
      var (r, st') := PrepareExecute(sqlite, st, text);
      (r, st', if r.Ok? then [Updated, event] else [], r.Ok?)
  }

  /** Once completed, neither release nor rollback has any effect; before
      that, a failed attempt leaves the scope open and the state as it was. */
  lemma FinishAtMostOnce(sqlite: Sqlite, st: State, completed: bool, text: string, event: EventName)
    ensures completed ==> FinishSpec(sqlite, st, completed, text, event) == (Ok(()), st, [], true)
    ensures var (r, st', ev, done) := FinishSpec(sqlite, st, completed, text, event);
      !completed && r.Fail? ==> st' == st && ev == [] && !done
  {
    if !completed {
      var prep := PrepareOutcome(sqlite, text);
      if prep.Ok? {
        StepSpecShape(st, Exec(Trim(text, Cleanup), map[]), sqlite.verdict);
      }
    }
  }

  /** What `_savepoint` does after the block: release on success, returning
      the block's value; on failure of the block or of the release, roll back
      and rethrow, unless the rollback fails, whose error then wins. */
  function ExitSpec<T>(sqlite: Sqlite, st: State, completed: bool, name: string, body: Outcome<T>)
    : (Outcome<T>, State, seq<EventName>, bool)
  {
    var (rel, st1, ev1, c1) :=
      if body.Ok? then FinishSpec(sqlite, st, completed, ReleaseText(name), SavepointRelease)
      else (Fail(body.error), st, [], completed);
    if rel.Ok? then (body, st1, ev1, c1)
    else
      var (rb, st2, ev2, c2) := FinishSpec(sqlite, st1, c1, RollbackText(name), SavepointRollback);
      (if rb.Fail? then Fail(rb.error) else Fail(rel.error), st2, ev1 + ev2, c2)
  }

  /** The caller sees the block's value only when the block succeeded, and
      sees the block's error whenever the block failed and the rollback did
      not. */
  lemma ExitOutcome<T>(sqlite: Sqlite, st: State, completed: bool, name: string, body: Outcome<T>)
    ensures var (r, _, _, _) := ExitSpec(sqlite, st, completed, name, body);
      && (r.Ok? ==> body.Ok? && r == body)
      && (body.Fail? ==> r.Fail?)
      && (body.Fail? && completed ==> r == body)
      && (body.Ok? && completed ==> r == body)
  {
  }

  /** `_Savepoint`: a named scope on a connection. */
  class Scope {
    const name: string
    const connection: Connection
    var isCompleted: bool

    /** A new scope is not completed. */
    constructor (connection: Connection, name: string)
      ensures this.connection == connection && this.name == name && !isCompleted
    {
      this.connection := connection;
      this.name := name;
      isCompleted := false;
    }

    /** `begin()`: run SAVEPOINT and publish `savepointBegin`. */
    method Begin() returns (r: Outcome<()>)
      modifies connection, connection.handle
      ensures connection.handle == old(connection.handle) && connection.spCounter == old(connection.spCounter)
      ensures connection.handle == null ==> r == Fail(Unopened) && connection.events == old(connection.events)
      ensures connection.handle != null ==>
        && (r, connection.handle.Snapshot()) == PrepareExecute(connection.handle.sqlite, old(connection.handle.Snapshot()), BeginText(name))
        && connection.events == old(connection.events) + (if r.Ok? then [Updated, SavepointBegin] else [])
    {
      r := PrepareAndExecute(connection, BeginText(name));
      if r.Ok? {
        connection.events := connection.events + [SavepointBegin];
      }
    }

    /** `release()`. */
    method Release() returns (r: Outcome<()>)
      modifies this, connection, connection.handle
      ensures connection.handle == old(connection.handle) && connection.spCounter == old(connection.spCounter)
      ensures connection.handle == null ==>
        && r == (if old(isCompleted) then Ok(()) else Fail(Unopened))
        && connection.events == old(connection.events) && isCompleted == old(isCompleted)
      ensures connection.handle != null ==>
        var (out, st, ev, done) := FinishSpec(connection.handle.sqlite, old(connection.handle.Snapshot()), old(isCompleted), ReleaseText(name), SavepointRelease);
        r == out && connection.handle.Snapshot() == st && connection.events == old(connection.events) + ev && isCompleted == done
    {
      if isCompleted {
        return Ok(());
      }
      r := PrepareAndExecute(connection, ReleaseText(name));
      if r.Ok? {
        isCompleted := true;
        connection.events := connection.events + [SavepointRelease];
      }
    }

    /** `rollback()`. */
    method Rollback() returns (r: Outcome<()>)
      modifies this, connection, connection.handle
      ensures connection.handle == old(connection.handle) && connection.spCounter == old(connection.spCounter)
      ensures connection.handle == null ==>
        && r == (if old(isCompleted) then Ok(()) else Fail(Unopened))
        && connection.events == old(connection.events) && isCompleted == old(isCompleted)
      ensures connection.handle != null ==>
        var (out, st, ev, done) := FinishSpec(connection.handle.sqlite, old(connection.handle.Snapshot()), old(isCompleted), RollbackText(name), SavepointRollback);
        r == out && connection.handle.Snapshot() == st && connection.events == old(connection.events) + ev && isCompleted == done
    {
      if isCompleted {
        return Ok(());
      }
      r := PrepareAndExecute(connection, RollbackText(name));
      if r.Ok? {
        isCompleted := true;
        connection.events := connection.events + [SavepointRollback];
      }
    }
  }

  /** The first half of `_savepoint`: unopened before anything else; then the
      counter is bumped (even if the begin fails) and the scope named after
      it is begun. */
  method Enter(conn: Connection) returns (r: Outcome<Scope>)
    modifies conn, conn.handle
    ensures conn.handle == old(conn.handle)
    ensures conn.handle == null ==>
      r == Fail(Unopened) && conn.spCounter == old(conn.spCounter) && conn.events == old(conn.events)
    ensures conn.handle != null ==>
      && conn.spCounter == old(conn.spCounter) + 1
      && var name := SavepointName(conn.spCounter);
         var (b, st) := PrepareExecute(conn.handle.sqlite, old(conn.handle.Snapshot()), BeginText(name));
         && conn.handle.Snapshot() == st
         && conn.events == old(conn.events) + (if b.Ok? then [Updated, SavepointBegin] else [])
         && (b.Fail? ==> r == Fail(b.error))
         && (b.Ok? ==> r.Ok? && fresh(r.value) && r.value.name == name && r.value.connection == conn && !r.value.isCompleted)
  {
    if conn.handle == null {
      return Fail(Unopened);
    }
    conn.spCounter := conn.spCounter + 1;
    var scope := new Scope(conn, SavepointName(conn.spCounter));
    var begun := scope.Begin();
    if begun.Fail? {
      return Fail(begun.error);
    }
    r := Ok(scope);
  }

  /** The second half of `_savepoint`, given what the block produced. */
  method Exit<T>(scope: Scope, body: Outcome<T>) returns (r: Outcome<T>)
    modifies scope, scope.connection, scope.connection.handle
    ensures scope.connection.handle == old(scope.connection.handle)
    ensures scope.connection.spCounter == old(scope.connection.spCounter)
    ensures scope.connection.handle == null ==>
      && r == (if old(scope.isCompleted) then body else Fail(Unopened))
      && scope.connection.events == old(scope.connection.events)
    ensures scope.connection.handle != null ==>
      var (out, st, ev, done) := ExitSpec(scope.connection.handle.sqlite, old(scope.connection.handle.Snapshot()), old(scope.isCompleted), scope.name, body);
      r == out && scope.connection.handle.Snapshot() == st
      && scope.connection.events == old(scope.connection.events) + ev && scope.isCompleted == done
  {
    var failure: Error;
    if body.Ok? {
      var released := scope.Release();
      if released.Ok? {
        return body;
      }
      failure := released.error;
    } else {
      failure := body.error;
    }
    var rolled := scope.Rollback();
    if rolled.Fail? {
      return Fail(rolled.error);
    }
    r := Fail(failure);
  }

  /** A plain statement whose step answers DONE is appended to the contents. */
  lemma PlainStepApplies(st: State, e: Exec, verdict: (seq<Exec>, Exec) -> int)
    requires Classify(e.sql).Plain? && verdict(st.applied, e) == SQLITE_DONE
    ensures StepSpec(st, e, verdict) == (SQLITE_DONE, State(st.applied + [e], st.savepoints))
  {
  }

  /** What a caller does on an open handle: open, release or roll back a
      scope by name, or run a plain statement to completion. */
  datatype Action = OpenScope(name: string) | ReleaseScope(name: string)
                  | RollbackScope(name: string) | Run(e: Exec)

  /** The statement the engine steps for an action. */
  function ExecOf(a: Action): Exec {
    match a
    case OpenScope(n) => Exec(BeginSql(n), map[])
    case ReleaseScope(n) => Exec(ReleaseSql(n), map[])
    case RollbackScope(n) => Exec(RollbackSql(n), map[])
    case Run(e) => e
  }

  /** The engine state after one action. */
  function Perform(verdict: (seq<Exec>, Exec) -> int, st: State, a: Action): State {
    StepSpec(st, ExecOf(a), verdict).1
  }

  /** A scope's text, prepared and executed, leaves the engine in the state
      its action describes, whether or not it succeeds. */
  lemma BeginTextPerforms(sqlite: Sqlite, st: State, name: string)
    requires AcceptsSavepoints(sqlite) && PlainName(name)
    ensures PrepareExecute(sqlite, st, BeginText(name)).1 == Perform(sqlite.verdict, st, OpenScope(name))
  {
    SavepointTextsTrim(name);
  }

  lemma ReleaseTextPerforms(sqlite: Sqlite, st: State, name: string)
    requires AcceptsSavepoints(sqlite) && PlainName(name)
    ensures PrepareExecute(sqlite, st, ReleaseText(name)).1 == Perform(sqlite.verdict, st, ReleaseScope(name))
  {
    SavepointTextsTrim(name);
  }

  lemma RollbackTextPerforms(sqlite: Sqlite, st: State, name: string)
    requires AcceptsSavepoints(sqlite) && PlainName(name)
    ensures PrepareExecute(sqlite, st, RollbackText(name)).1 == Perform(sqlite.verdict, st, RollbackScope(name))
  {
    SavepointTextsTrim(name);
  }

  /** The engine state after a sequence of actions, first to last. */
  function Replay(verdict: (seq<Exec>, Exec) -> int, st: State, actions: seq<Action>): State
    decreases |actions|
  {
    if actions == [] then st else Replay(verdict, Perform(verdict, st, actions[0]), actions[1..])
  }

  /** Replaying two sequences one after the other is replaying their
      concatenation. */
  lemma {:induction false} ReplayAppend(verdict: (seq<Exec>, Exec) -> int, st: State, first: seq<Action>, second: seq<Action>)
    ensures Replay(verdict, st, first + second) == Replay(verdict, Replay(verdict, st, first), second)
    decreases |first|
  {
    if first == [] {
      assert first + second == second;
    } else {
      assert (first + second)[1..] == first[1..] + second;
      ReplayAppend(verdict, Perform(verdict, st, first[0]), first[1..], second);
    }
  }

  /** Opening a scope and running a plain statement that completes: the
      statement is applied and the scope remembers the contents before it. */
  lemma OpenThenRun(verdict: (seq<Exec>, Exec) -> int, st: State, name: string, e: Exec)
    requires Classify(e.sql).Plain? && verdict(st.applied, e) == SQLITE_DONE
    ensures Replay(verdict, st, [OpenScope(name), Run(e)])
            == State(st.applied + [e], st.savepoints + [Frame(name, st.applied)])
  {
    ClassifySavepointSql(name);
    var pushed := State(st.applied, st.savepoints + [Frame(name, st.applied)]);
    assert Perform(verdict, st, OpenScope(name)) == pushed;
    var after := State(st.applied + [e], pushed.savepoints);
    assert Perform(verdict, pushed, Run(e)) == after;
    assert [Run(e)][1..] == [];
    assert Replay(verdict, pushed, [Run(e)]) == after;
    assert [OpenScope(name), Run(e)][1..] == [Run(e)];
  }

  /** Rolling back the top scope restores its contents and keeps it open. */
  lemma RollbackTop(verdict: (seq<Exec>, Exec) -> int, applied: seq<Exec>, below: seq<Frame>, top: Frame)
    ensures Replay(verdict, State(applied, below + [top]), [RollbackScope(top.name)])
            == State(top.snapshot, below + [top])
  {
    var stack := below + [top];
    assert Find(stack, top.name) == Some(|below|);
    RollbackRestores(State(applied, stack), top.name, map[], verdict);
    assert stack[..|below| + 1] == stack;
    assert [RollbackScope(top.name)][1..] == [];
  }

  /** Releasing the scope at position `k` closes it and those above it. */
  lemma ReleaseAt(verdict: (seq<Exec>, Exec) -> int, st: State, name: string, k: nat)
    requires Find(st.savepoints, name) == Some(k)
    ensures Replay(verdict, st, [ReleaseScope(name)]) == State(st.applied, st.savepoints[..k])
  {
    ReleaseKeeps(st, name, map[], verdict);
    assert [ReleaseScope(name)][1..] == [];
  }

  /** The first half of NestedIsolation: scope n1 creates the table, scope
      n2 inserts a row and is rolled back; the row is gone and both scopes
      are still open. */
  lemma RolledBackInsertIsUndone(verdict: (seq<Exec>, Exec) -> int, contents: seq<Exec>, create: Exec, insert: Exec,
                                 n1: string, n2: string)
    requires Classify(create.sql).Plain? && Classify(insert.sql).Plain?
    requires verdict(contents, create) == SQLITE_DONE
    requires verdict(contents + [create], insert) == SQLITE_DONE
    ensures Replay(verdict, State(contents, []), [OpenScope(n1), Run(create), OpenScope(n2), Run(insert)])
            == State(contents + [create, insert], [Frame(n1, contents), Frame(n2, contents + [create])])
    ensures Replay(verdict, State(contents, []),
                   [OpenScope(n1), Run(create), OpenScope(n2), Run(insert), RollbackScope(n2)])
            == State(contents + [create], [Frame(n1, contents), Frame(n2, contents + [create])])
  {
    var s0 := State(contents, []);
    var p1 := [OpenScope(n1), Run(create)];
    var p2 := [OpenScope(n2), Run(insert)];
    OpenThenRun(verdict, s0, n1, create);
    assert [] + [Frame(n1, contents)] == [Frame(n1, contents)];
    assert Replay(verdict, s0, p1) == State(contents + [create], [Frame(n1, contents)]);
    OpenThenRun(verdict, State(contents + [create], [Frame(n1, contents)]), n2, insert);
    assert [Frame(n1, contents)] + [Frame(n2, contents + [create])] == [Frame(n1, contents), Frame(n2, contents + [create])];
    assert contents + [create] + [insert] == contents + [create, insert];
    ReplayAppend(verdict, s0, p1, p2);
    assert p1 + p2 == [OpenScope(n1), Run(create), OpenScope(n2), Run(insert)];
    RollbackTop(verdict, contents + [create, insert], [Frame(n1, contents)], Frame(n2, contents + [create]));
    ReplayAppend(verdict, s0, p1 + p2, [RollbackScope(n2)]);
    assert p1 + p2 + [RollbackScope(n2)] == [OpenScope(n1), Run(create), OpenScope(n2), Run(insert), RollbackScope(n2)];
  }

  /** The second half of NestedIsolation: on top of the two open scopes,
      scope n3 inserts the row and is released, then scope n1 is released;
      the row stays and no save-point is left open. */
  lemma ReleasedInsertIsKept(verdict: (seq<Exec>, Exec) -> int, applied: seq<Exec>, f1: Frame, f2: Frame,
                             insert: Exec, n3: string)
    requires f1.name != f2.name
    requires Classify(insert.sql).Plain? && verdict(applied, insert) == SQLITE_DONE
    ensures Replay(verdict, State(applied, [f1, f2]), [OpenScope(n3), Run(insert), ReleaseScope(n3), ReleaseScope(f1.name)])
            == State(applied + [insert], [])
  {
    var s5 := State(applied, [f1, f2]);
    var s7 := State(applied + [insert], [f1, f2, Frame(n3, applied)]);
    var s8 := State(applied + [insert], [f1, f2]);
    OpenThenRun(verdict, s5, n3, insert);
    assert Find(s7.savepoints, n3) == Some(2);
    ReleaseAt(verdict, s7, n3, 2);
    assert s7.savepoints[..2] == s8.savepoints;
    assert Find(s8.savepoints, f1.name) == Some(0);
    ReleaseAt(verdict, s8, f1.name, 0);
    var p4 := [OpenScope(n3), Run(insert)];
    ReplayAppend(verdict, s5, p4, [ReleaseScope(n3)]);
    ReplayAppend(verdict, s5, p4 + [ReleaseScope(n3)], [ReleaseScope(f1.name)]);
    assert p4 + [ReleaseScope(n3)] + [ReleaseScope(f1.name)]
      == [OpenScope(n3), Run(insert), ReleaseScope(n3), ReleaseScope(f1.name)];
  }

  /** The nested save-points of the connection tests, as the engine steps
      them (BeginTextPerforms, ReleaseTextPerforms and RollbackTextPerforms
      carry it over to the scopes' own texts): inside scope n1 a table is
      created; scope n2 inserts a row and is rolled back, so n1 sees no row,
      and n2 stays open because ROLLBACK TO does not close it (the automatic
      release that follows is a no-op on the completed scope); scope n3
      inserts a row and is released, so n1 sees it; releasing n1 keeps the
      table and exactly the second row and leaves no save-point open. */
  lemma NestedIsolation(verdict: (seq<Exec>, Exec) -> int, contents: seq<Exec>, create: Exec, insert: Exec,
                        n1: string, n2: string, n3: string)
    requires n1 != n2
    requires Classify(create.sql).Plain? && Classify(insert.sql).Plain?
    requires forall c :: verdict(c, create) == SQLITE_DONE
    requires forall c :: verdict(c, insert) == SQLITE_DONE
    ensures Replay(verdict, State(contents, []),
                   [OpenScope(n1), Run(create), OpenScope(n2), Run(insert)])
            .applied == contents + [create, insert]
    ensures Replay(verdict, State(contents, []),
                   [OpenScope(n1), Run(create), OpenScope(n2), Run(insert), RollbackScope(n2)])
            .applied == contents + [create]
    ensures Replay(verdict, State(contents, []),
                   [OpenScope(n1), Run(create), OpenScope(n2), Run(insert), RollbackScope(n2),
                    OpenScope(n3), Run(insert), ReleaseScope(n3), ReleaseScope(n1)])
            == State(contents + [create, insert], [])
  {
    var early := [OpenScope(n1), Run(create), OpenScope(n2), Run(insert), RollbackScope(n2)];
    var late := [OpenScope(n3), Run(insert), ReleaseScope(n3), ReleaseScope(n1)];
    RolledBackInsertIsUndone(verdict, contents, create, insert, n1, n2);
    ReleasedInsertIsKept(verdict, contents + [create], Frame(n1, contents), Frame(n2, contents + [create]), insert, n3);
    ReplayAppend(verdict, State(contents, []), early, late);
    assert early + late ==
      [OpenScope(n1), Run(create), OpenScope(n2), Run(insert), RollbackScope(n2),
       OpenScope(n3), Run(insert), ReleaseScope(n3), ReleaseScope(n1)];
    assert contents + [create] + [insert] == contents + [create, insert];
  }

  /** The names `_savepoint` generates for the first three scopes of a
      connection meet the scenario's conditions. */
  lemma FirstThreeNames()
    ensures PlainName(SavepointName(1)) && PlainName(SavepointName(2)) && PlainName(SavepointName(3))
    ensures SavepointName(1) != SavepointName(2) && SavepointName(1) != SavepointName(3)
    ensures SavepointName(2) != SavepointName(3)
  {
    SavepointNamesDistinct(1, 2);
    SavepointNamesDistinct(1, 3);
    SavepointNamesDistinct(2, 3);
  }
}
