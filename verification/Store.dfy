/** The event-sourced store: internal/state/state.go and internal/state/mission.go.
    A transaction is one atomic step that commits or leaves everything as it was; JSON columns
    and payloads are kept as the values they encode. */
module EventStore {
  import opened Common
  import Text

  const MAX_FACTS: nat := 100

  datatype Task = Task(name: string, cron: string, prompt: string, tools: seq<string>, enabled: bool, updatedAt: int)

  datatype Status = Running | Completed | Failed | Canceled | Timeout | OtherStatus(text: string)

  predicate IsTerminal(s: Status) { s.Completed? || s.Failed? || s.Canceled? || s.Timeout? }

  /** A run as callers hand it over and as the started event carries it; startedAt None is Go's zero time. */
  datatype TaskRun = TaskRun(id: string, taskName: string, trigger: string, startedAt: Option<int>,
                             status: Status, summary: string, toolCalls: int, costMicro: int, error: string)

  /** A task_runs row; None is SQL NULL. */
  datatype RunRow = RunRow(taskName: string, trigger: string, startedAt: int, endedAt: Option<int>,
                           status: Status, summary: Option<string>, toolCalls: int, error: Option<string>)

  datatype Fact = Fact(ts: int, source: string, text: string)

  datatype Payload =
    | TaskUpserted(task: Task)
    | RunStarted(run: TaskRun)
    | RunFinished(id: string, status: Status, summary: string, error: string, toolCalls: int)
    | StatementSet(statement: string)
    | FactAdded(source: string, text: string)
    | Custom(typ: string, body: string)

  datatype Event = Event(seqNo: nat, ts: int, payload: Payload)

  datatype Tables = Tables(tasks: map<string, Task>, runs: map<string, RunRow>,
                           statement: string, facts: seq<Fact>, missionAt: int)

  /** The database: domain tables, the events table in seq order, and SQLite's AUTOINCREMENT counter. */
  datatype Db = Db(tables: Tables, log: seq<Event>, lastSeq: nat)

  /** What migrate leaves behind: empty tables and the singleton mission row. */
  function Seeded(at: int): Tables { Tables(map[], map[], "", [], at) }

  // ---- Replication: what a replica does with one event ----------------------

  function ApplyEvent(t: Tables, e: Event): Tables {
    match e.payload
    case TaskUpserted(task) => t.(tasks := t.tasks[task.name := task])
    case RunStarted(run) =>
      t.(runs := t.runs[run.id := RunRow(run.taskName, run.trigger,
                                               if run.startedAt.Some? then run.startedAt.value else e.ts,
                                         None, run.status, None, 0, None)])
    case RunFinished(id, status, summary, error, toolCalls) =>
      if id !in t.runs then t
      else t.(runs := t.runs[id := t.runs[id].(endedAt := Some(e.ts), status := status, summary := Some(summary),
                                               toolCalls := toolCalls, error := Some(error))])
    case StatementSet(statement) => t.(statement := statement, missionAt := e.ts)
    case FactAdded(source, text) =>
      t.(facts := Last(MAX_FACTS, t.facts + [Fact(e.ts, source, text)]), missionAt := e.ts)
    case Custom(_, _) => t
  }

  function Replay(t: Tables, log: seq<Event>): Tables {
    if log == [] then t else ApplyEvent(Replay(t, log[..|log| - 1]), log[|log| - 1])
  }

  // ---- The mutators, as what a call does to the database ---------------------

  datatype Op =
    | UpsertTask(task: Task)
    | StartRun(run: TaskRun)
    | FinishRun(id: string, status: Status, summary: string, error: string, toolCalls: int)
    | SetStatement(statement: string)
    | AddFact(source: string, text: string)
    | Append(typ: string, body: string)   // any event type the other calls do not use

  /** Whether the call gets as far as committing. */
  predicate Accepts(db: Db, op: Op) {
    match op
    case UpsertTask(task) => task.name != ""
    case StartRun(run) => run.id != "" && run.taskName != "" && run.id !in db.tables.runs
    case FinishRun(id, status, _, _, _) =>
      IsTerminal(status) && id in db.tables.runs && db.tables.runs[id].status == Running
    case SetStatement(_) => true
    case AddFact(_, text) => Text.TrimSpace(text) != ""
    case Append(typ, _) => typ != ""
  }

  function SourceOrAuto(source: string): string { if source == "" then "auto" else source }

  /** The event a committed call logs at time now. */
  function Logged(op: Op, now: int): Payload {
    match op
    case UpsertTask(task) => TaskUpserted(task.(updatedAt := now))
    case StartRun(run) => RunStarted(Stamped(run, now))
    case FinishRun(id, status, summary, error, toolCalls) => RunFinished(id, status, summary, error, toolCalls)
    case SetStatement(statement) => StatementSet(statement)
    case AddFact(source, text) => FactAdded(SourceOrAuto(source), Text.TrimSpace(text))
    case Append(typ, body) => Custom(typ, body)
  }

  /** StartRun fills in the start time and forces the running status. */
  function Stamped(run: TaskRun, now: int): TaskRun {
    run.(startedAt := Some(if run.startedAt.Some? then run.startedAt.value else now), status := Running)
  }

  /** The started event is stamped with the run's own start time, every other event with now. */
  function LoggedAt(op: Op, now: int): int {
    if op.StartRun? then Stamped(op.run, now).startedAt.value else now
  }

  /** Effect of a call; commits says whether its transaction went through. */
  function Exec(db: Db, op: Op, now: int, commits: bool): Db {
    if !commits || !Accepts(db, op) then db
    else
      var e := Event(db.lastSeq + 1, LoggedAt(op, now), Logged(op, now));
      Db(Rows(db.tables, op, now), db.log + [e], db.lastSeq + 1)
  }

  /** The row changes the SQL statements make. */
  function Rows(t: Tables, op: Op, now: int): Tables {
    match op
    case UpsertTask(task) => t.(tasks := t.tasks[task.name := task.(updatedAt := now)])
    case StartRun(run) =>
      var r := Stamped(run, now);
      t.(runs := t.runs[run.id := RunRow(run.taskName, run.trigger, r.startedAt.value, None, Running, None, 0, None)])
    case FinishRun(id, status, summary, error, toolCalls) =>
      t.(runs := map k | k in t.runs :: if k == id && t.runs[k].status == Running
                                        then RunRow(t.runs[k].taskName, t.runs[k].trigger, t.runs[k].startedAt,
                                                    Some(now), status, Some(summary), toolCalls, Some(error))
                                        else t.runs[k])
    case SetStatement(statement) => t.(statement := statement, missionAt := now)
    case AddFact(source, text) =>
      var facts := t.facts + [Fact(now, SourceOrAuto(source), Text.TrimSpace(text))];
      t.(facts := if |facts| > MAX_FACTS then facts[|facts| - MAX_FACTS..] else facts, missionAt := now)
    case Append(_, _) => t
  }

  /** The one event a committed call adds to the log. */
  predicate Adds(db: Db, after: Db, ts: int, payload: Payload) {
    after.lastSeq == db.lastSeq + 1 && after.log == db.log + [Event(after.lastSeq, ts, payload)]
  }

  /** Nothing but the named tables changed. */
  predicate Keeps(t: Tables, after: Tables, tasks: bool, runs: bool, mission: bool) {
    && (tasks ==> after.tasks == t.tasks) && (runs ==> after.runs == t.runs)
    && (mission ==> after.statement == t.statement && after.facts == t.facts && after.missionAt == t.missionAt)
  }

  lemma UpsertTaskIs(db: Db, task: Task, now: int)
    requires task.name != ""
    ensures var after := Exec(db, Op.UpsertTask(task), now, true);
            && Adds(db, after, now, TaskUpserted(task.(updatedAt := now)))
            && Keeps(db.tables, after.tables, false, true, true)
            && after.tables.tasks == db.tables.tasks[task.name := task.(updatedAt := now)]
  {
  }

  lemma StartRunIs(db: Db, run: TaskRun, now: int)
    requires run.id != "" && run.taskName != "" && run.id !in db.tables.runs
    ensures var after := Exec(db, Op.StartRun(run), now, true);
            var at := if run.startedAt.None? then now else run.startedAt.value;
            && Adds(db, after, at, RunStarted(run.(startedAt := Some(at), status := Running)))
            && Keeps(db.tables, after.tables, true, false, true)
            && after.tables.runs == db.tables.runs[run.id := RunRow(run.taskName, run.trigger, at, None, Running,
                                                                    None, 0, None)]
  {
  }

  lemma FinishRunIs(db: Db, id: string, status: Status, summary: string, error: string, toolCalls: int, now: int)
    requires IsTerminal(status) && id in db.tables.runs && db.tables.runs[id].status == Running
    ensures var after := Exec(db, Op.FinishRun(id, status, summary, error, toolCalls), now, true);
            var row := db.tables.runs[id];
            && Adds(db, after, now, RunFinished(id, status, summary, error, toolCalls))
            && Keeps(db.tables, after.tables, true, false, true)
            && after.tables.runs == db.tables.runs[id := RunRow(row.taskName, row.trigger, row.startedAt, Some(now),
                                                                status, Some(summary), toolCalls, Some(error))]
  {
    FinishRows(db.tables, id, status, summary, error, toolCalls, now);
  }

  lemma SetStatementIs(db: Db, text: string, now: int)
    ensures var after := Exec(db, Op.SetStatement(text), now, true);
            && Adds(db, after, now, StatementSet(text))
            && Keeps(db.tables, after.tables, true, true, false)
            && after.tables.statement == text && after.tables.missionAt == now && after.tables.facts == db.tables.facts
  {
  }

  lemma AddFactIs(db: Db, source: string, text: string, now: int)
    requires Text.TrimSpace(text) != ""
    ensures var after := Exec(db, Op.AddFact(source, text), now, true);
            var src := if source == "" then "auto" else source;
            && Adds(db, after, now, FactAdded(src, Text.TrimSpace(text)))
            && Keeps(db.tables, after.tables, true, true, false)
            && after.tables.statement == db.tables.statement && after.tables.missionAt == now
            && after.tables.facts == Last(100, db.tables.facts + [Fact(now, src, Text.TrimSpace(text))])
  {
  }

  /** A call that is not acceptable, or does not commit, changes nothing. */
  lemma RefusedIs(db: Db, op: Op, now: int, commits: bool)
    requires !commits || !Accepts(db, op)
    ensures Exec(db, op, now, commits) == db
  {
  }

  // ---- The invariant -----------------------------------------------------------

  /** Sequence numbers are positive, strictly increasing and at most last. */
  predicate Ordered(log: seq<Event>, last: nat) {
    if log == [] then true
    else
      var e := log[|log| - 1];
      1 <= e.seqNo <= last && Ordered(log[..|log| - 1], e.seqNo - 1)
  }

  /** Folding the log from the seeded state gives the tables, and seq numbers only grow. */
  ghost predicate Consistent(seed: Tables, db: Db) {
    db.tables == Replay(seed, db.log) && Ordered(db.log, db.lastSeq)
  }

  ghost predicate Increasing(log: seq<Event>) {
    forall i, j :: 0 <= i < j < |log| ==> log[i].seqNo < log[j].seqNo
  }

  lemma {:induction false} OrderedIncreases(log: seq<Event>, last: nat)
    requires Ordered(log, last)
    ensures Increasing(log)
    ensures forall e :: e in log ==> 1 <= e.seqNo <= last
  {
    if log != [] {
      var rest, e := log[..|log| - 1], log[|log| - 1];
      OrderedIncreases(rest, e.seqNo - 1);
      assert log == rest + [e];
      assert forall i :: 0 <= i < |rest| ==> log[i] == rest[i] && rest[i] in rest;
    }
  }

  lemma ReplayStep(t: Tables, log: seq<Event>, e: Event)
    ensures Replay(t, log + [e]) == ApplyEvent(Replay(t, log), e)
  {
    assert (log + [e])[..|log|] == log;
  }

  lemma {:induction false} ReplayConcat(t: Tables, a: seq<Event>, b: seq<Event>)
    ensures Replay(t, a + b) == Replay(Replay(t, a), b)
  {
    if b == [] {
      assert a + b == a;
    } else {
      var b' := b[..|b| - 1];
      ReplayConcat(t, a, b');
      ReplayStep(t, a + b', b[|b| - 1]);
      assert a + b == a + b' + [b[|b| - 1]];
    }
  }

  lemma AppendOrdered(log: seq<Event>, last: nat, e: Event)
    requires Ordered(log, last) && e.seqNo == last + 1
    ensures Ordered(log + [e], e.seqNo)
  {
    assert (log + [e])[..|log|] == log;
  }

  lemma ExecConsistent(seed: Tables, db: Db, op: Op, now: int, commits: bool)
    requires Consistent(seed, db)
    ensures Consistent(seed, Exec(db, op, now, commits))
  {
    if commits && Accepts(db, op) {
      var e := Event(db.lastSeq + 1, LoggedAt(op, now), Logged(op, now));
      AppendOrdered(db.log, db.lastSeq, e);
      ReplayStep(seed, db.log, e);
      RowsAreReplay(db, op, now, e);
    }
  }

  /** The SQL row changes and the replica's reading of the logged event agree. */
  lemma RowsAreReplay(db: Db, op: Op, now: int, e: Event)
    requires Accepts(db, op)
    requires e.ts == LoggedAt(op, now) && e.payload == Logged(op, now)
    ensures Rows(db.tables, op, now) == ApplyEvent(db.tables, e)
  {
    if op.FinishRun? {
      assert Rows(db.tables, op, now).runs == ApplyEvent(db.tables, e).runs;
    }
  }

  /** A bare Append under a type name one of the mutators uses writes the log without the table:
      replay then agrees exactly when the event happens to change nothing. */
  lemma ReservedAppend(seed: Tables, db: Db, e: Event)
    requires Consistent(seed, db) && e.seqNo == db.lastSeq + 1
    ensures Consistent(seed, Db(db.tables, db.log + [e], e.seqNo)) <==> ApplyEvent(db.tables, e) == db.tables
  {
    AppendOrdered(db.log, db.lastSeq, e);
    ReplayStep(seed, db.log, e);
  }

  datatype Call = Call(op: Op, now: int, commits: bool)

  function ExecAll(db: Db, calls: seq<Call>): Db {
    if calls == [] then db
    else
      var c := calls[|calls| - 1];
      Exec(ExecAll(db, calls[..|calls| - 1]), c.op, c.now, c.commits)
  }

  function Fresh(at: int): Db { Db(Seeded(at), [], 0) }

  /** At every reachable state the log alone reproduces every table. */
  lemma {:induction false} LogReproducesTables(at: int, calls: seq<Call>)
    ensures Consistent(Seeded(at), ExecAll(Fresh(at), calls))
  {
    if calls != [] {
      var c := calls[|calls| - 1];
      LogReproducesTables(at, calls[..|calls| - 1]);
      ExecConsistent(Seeded(at), ExecAll(Fresh(at), calls[..|calls| - 1]), c.op, c.now, c.commits);
    }
  }

  // ---- The bounded fact journal --------------------------------------------------

  function FactsEver(log: seq<Event>): seq<Fact> {
    if log == [] then []
    else
      var e := log[|log| - 1];
      FactsEver(log[..|log| - 1])
      + (if e.payload.FactAdded? then [Fact(e.ts, e.payload.source, e.payload.text)] else [])
  }

  lemma {:induction false} FactsAreLast(at: int, log: seq<Event>)
    ensures Replay(Seeded(at), log).facts == Last(MAX_FACTS, FactsEver(log))
  {
    if log != [] {
      var rest, e := log[..|log| - 1], log[|log| - 1];
      FactsAreLast(at, rest);
      if e.payload.FactAdded? {
        LastAppend(MAX_FACTS, MAX_FACTS, FactsEver(rest), [Fact(e.ts, e.payload.source, e.payload.text)]);
      } else {
        assert FactsEver(log) == FactsEver(rest);
      }
    }
  }

  /** The stored facts are exactly the last min(100, n) of the n facts ever added. */
  lemma FactsBounded(at: int, calls: seq<Call>)
    ensures var db := ExecAll(Fresh(at), calls);
            db.tables.facts == Last(MAX_FACTS, FactsEver(db.log))
  {
    LogReproducesTables(at, calls);
    FactsAreLast(at, ExecAll(Fresh(at), calls).log);
  }

  // ---- Run lifecycle ---------------------------------------------------------------

  predicate StartsRun(e: Event, id: string) { e.payload.RunStarted? && e.payload.run.id == id }
  predicate FinishesRun(e: Event, id: string) { e.payload.RunFinished? && e.payload.id == id }

  /** The life of one run id as the log tells it: none, started, or started then finished. */
  function Life(log: seq<Event>, id: string): seq<Payload> {
    if log == [] then []
    else
      var e := log[|log| - 1];
      Life(log[..|log| - 1], id) + (if StartsRun(e, id) || FinishesRun(e, id) then [e.payload] else [])
  }

  /** The log tells the same life as the row shows: started at most once, finished at most once and last. */
  ghost predicate LifeMatches(db: Db, id: string) {
    var life := Life(db.log, id);
    if id !in db.tables.runs then life == []
    else
      && |life| >= 1 && life[0].RunStarted? && life[0].run.taskName == db.tables.runs[id].taskName
      && if db.tables.runs[id].status == Running then |life| == 1
         else IsTerminal(db.tables.runs[id].status) && |life| == 2 && life[1].RunFinished?
              && life[1].status == db.tables.runs[id].status
  }

  lemma LifeStep(db: Db, op: Op, now: int, commits: bool, id: string)
    requires LifeMatches(db, id)
    ensures LifeMatches(Exec(db, op, now, commits), id)
  {
    if commits && Accepts(db, op) {
      var e := Event(db.lastSeq + 1, LoggedAt(op, now), Logged(op, now));
      assert (db.log + [e])[..|db.log|] == db.log;
    }
  }

  lemma {:induction false} LifeAlways(at: int, calls: seq<Call>, id: string)
    ensures LifeMatches(ExecAll(Fresh(at), calls), id)
  {
    if calls != [] {
      var c := calls[|calls| - 1];
      LifeAlways(at, calls[..|calls| - 1], id);
      LifeStep(ExecAll(Fresh(at), calls[..|calls| - 1]), c.op, c.now, c.commits, id);
    }
  }

  /** Terminal status is absorbing: no further call changes the row of a finished run. */
  lemma {:induction false} TerminalAbsorbing(db: Db, calls: seq<Call>, id: string)
    requires id in db.tables.runs && IsTerminal(db.tables.runs[id].status)
    ensures var t := ExecAll(db, calls).tables; id in t.runs && t.runs[id] == db.tables.runs[id]
  {
    if calls != [] {
      TerminalAbsorbing(db, calls[..|calls| - 1], id);
    }
  }

  // ---- The Store object ----------------------------------------------------------------

  /** The guarded UPDATE touches the one row it names. */
  lemma FinishRows(t: Tables, id: string, status: Status, summary: string, error: string, toolCalls: int, now: int)
    requires id in t.runs && t.runs[id].status == Running
    ensures Rows(t, Op.FinishRun(id, status, summary, error, toolCalls), now) ==
              t.(runs := t.runs[id := RunRow(t.runs[id].taskName, t.runs[id].trigger, t.runs[id].startedAt,
                                             Some(now), status, Some(summary), toolCalls, Some(error))])
  {
    assert Rows(t, Op.FinishRun(id, status, summary, error, toolCalls), now).runs ==
             t.runs[id := RunRow(t.runs[id].taskName, t.runs[id].trigger, t.runs[id].startedAt,
                                 Some(now), status, Some(summary), toolCalls, Some(error))];
  }

  /** The staged tables of AddFact are those its call leaves. */
  lemma AddFactExec(db: Db, source: string, text: string, now: int, tx: Tables, src: string, trimmed: string)
    requires trimmed == Text.TrimSpace(text) != "" && src == SourceOrAuto(source)
    requires tx == db.tables.(facts := Last(MAX_FACTS, db.tables.facts + [Fact(now, src, trimmed)]), missionAt := now)
    ensures Exec(db, Op.AddFact(source, text), now, true) ==
              Db(tx, db.log + [Event(db.lastSeq + 1, now, FactAdded(src, trimmed))], db.lastSeq + 1)
  {
    AddFactIs(db, source, text, now);
  }

  datatype Err = BadArgument | NotRunning | TxFailed

  class Store {
    var tasks: map<string, Task>
    var runs: map<string, RunRow>
    var statement: string
    var facts: seq<Fact>
    var missionAt: int
    var events: seq<Event>
    var lastSeq: nat
    ghost const seed: Tables

    function Now(): Db
      reads this
    {
      Db(Tables(tasks, runs, statement, facts, missionAt), events, lastSeq)
    }

    ghost predicate Valid()
      reads this
    {
      Consistent(seed, Now())
    }

    constructor (at: int)
      ensures Valid() && Now() == Fresh(at) && seed == Seeded(at)
    {
      tasks, runs, statement, facts, missionAt := map[], map[], "", [], at;
      events, lastSeq := [], 0;
      seed := Seeded(at);
    }

    /** COMMIT: the staged tables and the one staged event become visible together. */
    method Commit(t: Tables, ts: int, payload: Payload, ghost after: Db)
      requires Consistent(seed, after)
      requires after == Db(t, events + [Event(lastSeq + 1, ts, payload)], lastSeq + 1)
      modifies this
      ensures Valid() && Now() == after
    {
      tasks, runs, statement, facts, missionAt := t.tasks, t.runs, t.statement, t.facts, t.missionAt;
      lastSeq := lastSeq + 1;
      events := events + [Event(lastSeq, ts, payload)];
      assert Now() == after;
    }

    method UpsertTask(task: Task, now: int, commits: bool) returns (err: Option<Err>)
      requires Valid()
      modifies this
      ensures Valid()
      ensures Now() == Exec(old(Now()), Op.UpsertTask(task), now, commits)
      ensures err == if task.name == "" then Some(BadArgument) else if commits then None else Some(TxFailed)
    {
      ExecConsistent(seed, Now(), Op.UpsertTask(task), now, commits);
      if task.name == "" {
        return Some(BadArgument);
      }
      var stamped := task.(updatedAt := now);
      var tx := Now().tables;
      tx := tx.(tasks := tx.tasks[task.name := stamped]);
      if !commits {
        return Some(TxFailed);
      }
      Commit(tx, now, TaskUpserted(stamped), Exec(Now(), Op.UpsertTask(task), now, true));
      return None;
    }

    method StartRun(run: TaskRun, now: int, commits: bool) returns (err: Option<Err>)
      requires Valid()
      modifies this
      ensures Valid()
      ensures Now() == Exec(old(Now()), Op.StartRun(run), now, commits)
      ensures err == if run.id == "" || run.taskName == "" then Some(BadArgument)
                     else if run.id in old(runs) || !commits then Some(TxFailed) else None
    {
      ExecConsistent(seed, Now(), Op.StartRun(run), now, commits);
      if run.id == "" || run.taskName == "" {
        return Some(BadArgument);
      }
      var started := if run.startedAt.Some? then run.startedAt.value else now;
      var stamped := run.(startedAt := Some(started), status := Running);
      if run.id in runs || !commits {
        return Some(TxFailed);            // the id is the primary key
      }
      var tx := Now().tables;
      tx := tx.(runs := tx.runs[run.id := RunRow(run.taskName, run.trigger, started, None, Running, None, 0, None)]);
      StartRunIs(Now(), run, now);
      Commit(tx, started, RunStarted(stamped), Exec(Now(), Op.StartRun(run), now, true));
      return None;
    }

    method FinishRun(id: string, status: Status, summary: string, error: string, toolCalls: int, now: int,
                     commits: bool)
      returns (err: Option<Err>)
      requires Valid()
      modifies this
      ensures Valid()
      ensures Now() == Exec(old(Now()), Op.FinishRun(id, status, summary, error, toolCalls), now, commits)
      ensures err == if !IsTerminal(status) then Some(BadArgument)
                     else if id !in old(runs) || old(runs)[id].status != Running then Some(NotRunning)
                     else if commits then None else Some(TxFailed)
    {
      var op := Op.FinishRun(id, status, summary, error, toolCalls);
      ExecConsistent(seed, Now(), op, now, commits);
      if !IsTerminal(status) {
        return Some(BadArgument);
      }
      if id !in runs || runs[id].status != Running {
        return Some(NotRunning);          // no row affected
      }
      if !commits {
        return Some(TxFailed);
      }
      var row := runs[id];
      row := row.(endedAt := Some(now), status := status, summary := Some(summary), error := Some(error),
                  toolCalls := toolCalls);
      var tx := Now().tables;
      tx := tx.(runs := tx.runs[id := row]);
      FinishRows(Now().tables, id, status, summary, error, toolCalls, now);
      Commit(tx, now, RunFinished(id, status, summary, error, toolCalls), Exec(Now(), op, now, true));
      return None;
    }

    method SetStatement(text: string, now: int, commits: bool) returns (err: Option<Err>)
      requires Valid()
      modifies this
      ensures Valid()
      ensures Now() == Exec(old(Now()), Op.SetStatement(text), now, commits)
      ensures err.None? <==> commits
    {
      ExecConsistent(seed, Now(), Op.SetStatement(text), now, commits);
      if !commits {
        return Some(TxFailed);
      }
      var tx := Now().tables;
      tx := tx.(statement := text, missionAt := now);
      Commit(tx, now, StatementSet(text), Exec(Now(), Op.SetStatement(text), now, true));
      return None;
    }

    /** The journal with one more fact, its front cut when it gets too long. */
    method Bounded(fact: Fact) returns (list: seq<Fact>)
      ensures list == Last(MAX_FACTS, facts + [fact])
    {
      list := facts;
      list := list + [fact];
      if |list| > MAX_FACTS {
        list := list[|list| - MAX_FACTS..];
      }
    }

    /** The transaction of AddFact. */
    method KeepFact(source: string, trimmed: string, ghost text: string, now: int) returns (list: seq<Fact>)
      requires Valid() && trimmed == Text.TrimSpace(text) != ""
      modifies this
      ensures Valid() && Now() == Exec(old(Now()), Op.AddFact(source, text), now, true)
      ensures list == facts
    {
      ExecConsistent(seed, Now(), Op.AddFact(source, text), now, true);
      var src := source;
      if src == "" {
        src := "auto";
      }
      list := Bounded(Fact(now, src, trimmed));
      var tx := Now().tables;
      tx := tx.(facts := list, missionAt := now);
      AddFactExec(Now(), source, text, now, tx, src, trimmed);
      Commit(tx, now, FactAdded(src, trimmed), Exec(Now(), Op.AddFact(source, text), now, true));
    }

    /** Returns the bounded list that is now stored. */
    method AddFact(source: string, text: string, now: int, commits: bool) returns (list: seq<Fact>, err: Option<Err>)
      requires Valid()
      modifies this
      ensures Valid()
      ensures Now() == Exec(old(Now()), Op.AddFact(source, text), now, commits)
      ensures err == if Text.TrimSpace(text) == "" then Some(BadArgument) else if commits then None else Some(TxFailed)
      ensures err.None? ==> list == facts
    {
      var trimmed := Text.TrimSpace(text);
      if trimmed == "" {
        return [], Some(BadArgument);
      }
      if !commits {
        return [], Some(TxFailed);
      }
      list := KeepFact(source, trimmed, text, now);
      return list, None;
    }

    /** Reads one page: the row loop over SELECT ... WHERE seq > from ORDER BY seq LIMIT limit. */
    method EventsSince(from: int, limit: int) returns (page: seq<Event>)
      requires Valid()
      ensures page == First(PageSize(limit), After(events, from))
      ensures |page| == if |After(events, from)| < (if 1 <= limit <= 10_000 then limit else 1000)
                        then |After(events, from)| else if 1 <= limit <= 10_000 then limit else 1000
    {
      var n := limit;
      if n <= 0 || n > 10_000 {
        n := 1000;
      }
      page := [];
      var i := 0;
      while i < |events| && |page| < n
        invariant 0 <= i <= |events| && |page| <= n
        invariant page + After(events[i..], from) == After(events, from)
      {
        AfterHead(events[i..], from);
        assert events[i..][1..] == events[i + 1..];
        if events[i].seqNo > from {
          page := page + [events[i]];
        }
        i := i + 1;
      }
      PageIsPrefix(page, After(events[i..], from), n);
    }
  }

  // ---- Paged catch-up -------------------------------------------------------------------

  function PageSize(limit: int): nat { if limit <= 0 || limit > 10_000 then 1000 else limit }

  /** The events with seq > from, in log order. */
  function After(log: seq<Event>, from: int): seq<Event> {
    if log == [] then []
    else (if log[0].seqNo > from then [log[0]] else []) + After(log[1..], from)
  }

  lemma AfterHead(log: seq<Event>, from: int)
    requires log != []
    ensures forall page: seq<Event> ::
              page + After(log, from) == (if log[0].seqNo > from then page + [log[0]] else page) + After(log[1..], from)
  {
  }

  lemma PageIsPrefix(page: seq<Event>, more: seq<Event>, n: nat)
    requires |page| == n || (|page| < n && more == [])
    ensures page == First(n, page + more)
  {
  }

  function UpTo(log: seq<Event>, w: int): seq<Event> {
    if log == [] then []
    else (if log[0].seqNo <= w then [log[0]] else []) + UpTo(log[1..], w)
  }
}
