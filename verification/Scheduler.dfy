/** The cron registry: internal/scheduler/scheduler.go:80-188 and 221-243. Cron syntax is a predicate,
    the cron library a table of live entries with ids that are never reused. */
module CronScheduler {
  import opened Common
  import opened EventStore

  type CronSyntax = string -> bool

  datatype Job = Job(name: string, cron: string)

  /** entries is the scheduler's own map from task to entry id, live the cron table. */
  datatype Registry = Registry(entries: map<string, nat>, live: map<nat, Job>, next: nat)

  function Unregister(r: Registry, name: string): Registry {
    if name in r.entries then r.(live := r.live - {r.entries[name]}, entries := r.entries - {name}) else r
  }

  /** Replace the entry of a task; with a bad cron string the old entry is gone and none takes its place. */
  function Register(r: Registry, task: Task, cronOk: CronSyntax): Registry {
    var r1 := Unregister(r, task.name);
    if cronOk(task.cron) then
      Registry(r1.entries[task.name := r1.next], r1.live[r1.next := Job(task.name, task.cron)], r1.next + 1)
    else r1
  }

  /** The live cron entries are exactly the values of entries, one per name, none leaked or doubled. */
  ghost predicate Coupled(r: Registry) {
    && (forall name :: name in r.entries ==> r.entries[name] in r.live && r.live[r.entries[name]].name == name)
    && (forall id :: id in r.live ==> id < r.next && r.live[id].name in r.entries && r.entries[r.live[id].name] == id)
  }

  lemma UnregisterCoupled(r: Registry, name: string)
    requires Coupled(r)
    ensures Coupled(Unregister(r, name)) && Unregister(r, name).entries.Keys == r.entries.Keys - {name}
  {
  }

  lemma RegisterCoupled(r: Registry, task: Task, cronOk: CronSyntax)
    requires Coupled(r)
    ensures Coupled(Register(r, task, cronOk))
    ensures Register(r, task, cronOk).entries.Keys
         == if cronOk(task.cron) then r.entries.Keys + {task.name} else r.entries.Keys - {task.name}
    ensures cronOk(task.cron) ==> var r' := Register(r, task, cronOk);
                                  r'.live[r'.entries[task.name]] == Job(task.name, task.cron)
  {
    UnregisterCoupled(r, task.name);
  }

  // ---- Interleaved SetTask, Hydrate and ticks ------------------------------------

  /** A call on the runner: by which job, in which step, with which row. */
  datatype RunnerCall = RunnerCall(job: nat, at: nat, row: Task)

  /** jobs are the closures the cron loop has started, by task name; looked those that have read their row. */
  datatype State = State(db: Db, reg: Registry, hasRunner: bool, jobs: seq<string>, looked: set<nat>,
                         calls: seq<RunnerCall>, steps: nat)

  /** The atomic steps: a store transaction, a registry update under the scheduler's mutex, the cron loop
      starting a live entry's closure, and that closure reading its row and acting on it. */
  datatype Action = Save(task: Task, now: int, commits: bool) | Apply(task: Task) | Tick(id: nat) | Look(job: nat)

  /** What a closure hands to the runner, given the row it has just read. */
  function Fire(row: Option<Task>, hasRunner: bool): Option<Task> {
    if row.None? || !row.value.enabled || !hasRunner then None else row
  }

  function RowOf(db: Db, name: string): Option<Task> {
    if name in db.tables.tasks then Some(db.tables.tasks[name]) else None
  }

  function Do(s: State, a: Action, cronOk: CronSyntax): State {
    match a
    case Save(task, now, commits) => s.(db := Exec(s.db, Op.UpsertTask(task), now, commits))
    case Apply(task) => s.(reg := if task.enabled then Register(s.reg, task, cronOk) else Unregister(s.reg, task.name))
    case Tick(id) => if id in s.reg.live then s.(jobs := s.jobs + [s.reg.live[id].name]) else s
    case Look(job) =>
      if job >= |s.jobs| || job in s.looked then s
      else
        var fired := Fire(RowOf(s.db, s.jobs[job]), s.hasRunner);
        s.(looked := s.looked + {job},
           calls := if fired.Some? then s.calls + [RunnerCall(job, s.steps, fired.value)] else s.calls)
  }

  function Step(s: State, a: Action, cronOk: CronSyntax): State { Do(s, a, cronOk).(steps := s.steps + 1) }

  function Start(db: Db, reg: Registry, hasRunner: bool): State { State(db, reg, hasRunner, [], {}, [], 0) }

  function Run(s: State, acts: seq<Action>, cronOk: CronSyntax): State {
    if acts == [] then s else Step(Run(s, acts[..|acts| - 1], cronOk), acts[|acts| - 1], cronOk)
  }

  /** In every interleaving of any number of Hydrate and SetTask calls and ticks, bad cron strings included,
      the live entries and the registry stay in one-to-one correspondence. */
  lemma {:induction false} AlwaysCoupled(s: State, acts: seq<Action>, cronOk: CronSyntax)
    requires Coupled(s.reg)
    ensures Coupled(Run(s, acts, cronOk).reg)
  {
    if acts != [] {
      AlwaysCoupled(s, acts[..|acts| - 1], cronOk);
      var r := Run(s, acts[..|acts| - 1], cronOk).reg;
      match acts[|acts| - 1]
      case Apply(task) =>
        RegisterCoupled(r, task, cronOk);
        UnregisterCoupled(r, task.name);
      case _ =>
    }
  }

  // ---- Ticks ------------------------------------------------------------------------

  /** When the call was made, its closure read this row from the store, and the row was enabled. */
  ghost predicate ReadEnabled(s: State, acts: seq<Action>, cronOk: CronSyntax, c: RunnerCall) {
    && c.at < |acts| && acts[c.at] == Look(c.job)
    && var seen := Run(s, acts[..c.at], cronOk);
       && c.job < |seen.jobs|
       && RowOf(seen.db, seen.jobs[c.job]) == Some(c.row) && c.row.enabled && seen.hasRunner
  }

  lemma {:induction false} CountsSteps(s: State, acts: seq<Action>, cronOk: CronSyntax)
    ensures Run(s, acts, cronOk).steps == s.steps + |acts|
  {
    if acts != [] { CountsSteps(s, acts[..|acts| - 1], cronOk); }
  }

  lemma ReadEnabledLater(s: State, acts: seq<Action>, a: Action, cronOk: CronSyntax, c: RunnerCall)
    requires ReadEnabled(s, acts, cronOk, c)
    ensures ReadEnabled(s, acts + [a], cronOk, c)
  {
    assert (acts + [a])[..c.at] == acts[..c.at];
  }

  /** In every interleaving, each call that reaches the runner carries a row that the closure read at that
      very step, and that row was enabled. */
  lemma {:induction false} CallsReadEnabled(db: Db, reg: Registry, hasRunner: bool, acts: seq<Action>,
                                            cronOk: CronSyntax)
    ensures forall c :: c in Run(Start(db, reg, hasRunner), acts, cronOk).calls ==>
              ReadEnabled(Start(db, reg, hasRunner), acts, cronOk, c)
  {
    var s0 := Start(db, reg, hasRunner);
    if acts != [] {
      var rest, a := acts[..|acts| - 1], acts[|acts| - 1];
      var s := Run(s0, rest, cronOk);
      assert acts == rest + [a] && acts[..|rest|] == rest;
      CallsReadEnabled(db, reg, hasRunner, rest, cronOk);
      CountsSteps(s0, rest, cronOk);
      forall c | c in Run(s0, acts, cronOk).calls ensures ReadEnabled(s0, acts, cronOk, c) {
        if c in s.calls { ReadEnabledLater(s0, rest, a, cronOk, c); }
      }
    }
  }

  /** A closure that has not read its row yet makes a call exactly when the row is enabled and there is a
      runner, whatever has become of the entry that started it. */
  lemma LookCallsIff(s: State, job: nat, cronOk: CronSyntax)
    requires job < |s.jobs| && job !in s.looked
    ensures var row, t := RowOf(s.db, s.jobs[job]), Step(s, Look(job), cronOk);
            && (t.calls != s.calls <==> row.Some? && row.value.enabled && s.hasRunner)
            && (t.calls != s.calls ==> t.calls == s.calls + [RunnerCall(job, s.steps, row.value)])
  {
    var t := Step(s, Look(job), cronOk);
    assert t.calls == s.calls || |t.calls| == |s.calls| + 1;
  }

  // ---- Agreement with the store ----------------------------------------------------------

  /** The registered names are the enabled tasks of the store. */
  ghost predicate InSync(tasks: map<string, Task>, reg: Registry) { forall name :: Agrees(tasks, reg, name) }

  predicate Agrees(tasks: map<string, Task>, reg: Registry, name: string) {
    name in reg.entries <==> name in tasks && tasks[name].enabled
  }

  /** The task of the last committed store of a name. */
  function LastSave(acts: seq<Action>, name: string): Option<Task> {
    if acts == [] then None
    else
      var a := acts[|acts| - 1];
      if a.Save? && a.commits && a.task.name == name then Some(a.task) else LastSave(acts[..|acts| - 1], name)
  }

  /** The task of the last registry update of a name. */
  function LastApply(acts: seq<Action>, name: string): Option<Task> {
    if acts == [] then None
    else
      var a := acts[|acts| - 1];
      if a.Apply? && a.task.name == name then Some(a.task) else LastApply(acts[..|acts| - 1], name)
  }

  lemma {:induction false} StoredIs(s: State, acts: seq<Action>, cronOk: CronSyntax, name: string)
    requires name != ""
    ensures var row, last := RowOf(Run(s, acts, cronOk).db, name), LastSave(acts, name);
            if last.None? then row == RowOf(s.db, name)
            else row.Some? && row.value == last.value.(updatedAt := row.value.updatedAt)
  {
    if acts != [] { StoredIs(s, acts[..|acts| - 1], cronOk, name); }
  }

  lemma {:induction false} EntryIs(s: State, acts: seq<Action>, cronOk: CronSyntax, name: string)
    requires Coupled(s.reg)
    ensures var last := LastApply(acts, name);
            name in Run(s, acts, cronOk).reg.entries <==>
              if last.None? then name in s.reg.entries else last.value.enabled && cronOk(last.value.cron)
  {
    if acts != [] {
      var rest, a := acts[..|acts| - 1], acts[|acts| - 1];
      EntryIs(s, rest, cronOk, name);
      AlwaysCoupled(s, rest, cronOk);
      if a.Apply? {
        RegisterCoupled(Run(s, rest, cronOk).reg, a.task, cronOk);
        UnregisterCoupled(Run(s, rest, cronOk).reg, a.task.name);
        assert name in Run(s, acts, cronOk).reg.entries.Keys <==> name in Run(s, acts, cronOk).reg.entries;
      }
    }
  }

  /** In every interleaving, for a task that has been stored and applied: registry and store agree on it if
      and only if the last committed store enables it exactly when the last update of the registry does so
      with a cron string that parses. */
  lemma AgreesIff(s: State, acts: seq<Action>, cronOk: CronSyntax, name: string)
    requires name != "" && Coupled(s.reg) && LastSave(acts, name).Some? && LastApply(acts, name).Some?
    ensures var t := Run(s, acts, cronOk);
            Agrees(t.db.tables.tasks, t.reg, name) <==>
              (LastSave(acts, name).value.enabled <==>
                 LastApply(acts, name).value.enabled && cronOk(LastApply(acts, name).value.cron))
  {
    StoredIs(s, acts, cronOk, name);
    EntryIs(s, acts, cronOk, name);
  }

  // ---- A task that is stored and registered gets its calls -----------------------------------

  /** The task has a live entry with this cron string. */
  predicate HasJob(reg: Registry, name: string, cron: string) {
    name in reg.entries && reg.entries[name] in reg.live && reg.live[reg.entries[name]] == Job(name, cron)
  }

  lemma RegisterKeepsJob(r: Registry, task: Task, cronOk: CronSyntax, name: string, cron: string)
    requires Coupled(r) && HasJob(r, name, cron) && task.name != name
    ensures HasJob(Register(r, task, cronOk), name, cron) && HasJob(Unregister(r, task.name), name, cron)
  {
  }

  lemma {:induction false} JobIs(s: State, acts: seq<Action>, cronOk: CronSyntax, name: string)
    requires Coupled(s.reg)
    ensures var last := LastApply(acts, name);
            last.Some? && last.value.enabled && cronOk(last.value.cron) ==>
              HasJob(Run(s, acts, cronOk).reg, name, last.value.cron)
  {
    if acts != [] {
      var rest, a := acts[..|acts| - 1], acts[|acts| - 1];
      var r := Run(s, rest, cronOk).reg;
      JobIs(s, rest, cronOk, name);
      AlwaysCoupled(s, rest, cronOk);
      if a.Apply? {
        var last := LastApply(rest, name);
        RegisterCoupled(r, a.task, cronOk);
        if a.task.name != name && last.Some? && HasJob(r, name, last.value.cron) {
          RegisterKeepsJob(r, a.task, cronOk, name, last.value.cron);
        }
      }
    }
  }

  /** Only closures that were started have read their row, and the runner stays. */
  ghost predicate Started(s: State, hasRunner: bool) {
    s.hasRunner == hasRunner && forall job :: job in s.looked ==> job < |s.jobs|
  }

  lemma {:induction false} AlwaysStarted(s: State, acts: seq<Action>, cronOk: CronSyntax)
    requires Started(s, s.hasRunner)
    ensures Started(Run(s, acts, cronOk), s.hasRunner)
  {
    if acts != [] { AlwaysStarted(s, acts[..|acts| - 1], cronOk); }
  }

  /** A live entry's tick starts a closure of its task, and its look makes the call. */
  lemma TickAndLook(t: State, id: nat, cronOk: CronSyntax)
    requires Started(t, true) && id in t.reg.live
    requires var row := RowOf(t.db, t.reg.live[id].name); row.Some? && row.value.enabled
    ensures Step(Step(t, Tick(id), cronOk), Look(|t.jobs|), cronOk).calls
         == t.calls + [RunnerCall(|t.jobs|, t.steps + 1, RowOf(t.db, t.reg.live[id].name).value)]
  {
  }

  /** In every interleaving, a task whose last committed store and last registry update both enable it, with a
      cron string that parses, has a live entry with that cron string; and when that entry ticks and its
      closure looks, the runner gets the row that was last stored. */
  lemma EnabledTaskTicks(db: Db, reg: Registry, acts: seq<Action>, cronOk: CronSyntax, name: string)
    returns (id: nat)
    requires name != "" && Coupled(reg) && LastSave(acts, name).Some? && LastApply(acts, name).Some?
    requires LastSave(acts, name).value.enabled && LastApply(acts, name).value.enabled
    requires cronOk(LastApply(acts, name).value.cron)
    ensures var t := Run(Start(db, reg, true), acts, cronOk);
            && id in t.reg.live && t.reg.live[id] == Job(name, LastApply(acts, name).value.cron)
            && var calls := Step(Step(t, Tick(id), cronOk), Look(|t.jobs|), cronOk).calls;
               && |calls| == |t.calls| + 1 && calls[..|t.calls|] == t.calls
               && calls[|t.calls|].row.(updatedAt := 0) == LastSave(acts, name).value.(updatedAt := 0)
  {
    var s := Start(db, reg, true);
    var t := Run(s, acts, cronOk);
    JobIs(s, acts, cronOk, name);
    StoredIs(s, acts, cronOk, name);
    AlwaysStarted(s, acts, cronOk);
    id := t.reg.entries[name];
    TickAndLook(t, id, cronOk);
  }

  function Swapped(first: Task, second: Task, now: int): seq<Action> {
    [Save(first, now, true), Save(second, now, true), Apply(second), Apply(first)]
  }

  lemma SwappedLast(first: Task, second: Task, now: int)
    requires first.name == second.name
    ensures LastSave(Swapped(first, second, now), first.name) == Some(second)
    ensures LastApply(Swapped(first, second, now), first.name) == Some(first)
  {
    var acts := Swapped(first, second, now);
    assert acts[..3][..2] == acts[..2] && acts[..2][1] == Save(second, now, true);
    assert LastSave(acts[..2], first.name) == Some(second);
    assert LastSave(acts[..3], first.name) == LastSave(acts[..2], first.name);
    assert acts[|acts| - 1] == Apply(first) && LastSave(acts, first.name) == LastSave(acts[..3], first.name);
  }

  /** Two SetTask calls for one task, interleaved: the enabling one applies last although the disabling
      one was stored last. The stale entry stays live, and its ticks are skipped. */
  lemma StaleEntryIsHarmless(s: State, on: Task, off: Task, now: int, cronOk: CronSyntax)
    requires on.name == off.name != "" && on.enabled && !off.enabled && cronOk(on.cron) && Coupled(s.reg)
    ensures var t := Run(s, Swapped(on, off, now), cronOk);
            && on.name in t.reg.entries && !Agrees(t.db.tables.tasks, t.reg, on.name)
            && Fire(RowOf(t.db, on.name), true).None?
  {
    SwappedLast(on, off, now);
    StoredIs(s, Swapped(on, off, now), cronOk, on.name);
    EntryIs(s, Swapped(on, off, now), cronOk, on.name);
  }

  /** The other order is not harmless: the row is enabled and no live entry is left to tick for it. */
  lemma EnabledTaskNeverTicks(s: State, on: Task, off: Task, now: int, cronOk: CronSyntax)
    requires on.name == off.name != "" && on.enabled && !off.enabled && Coupled(s.reg)
    ensures var t := Run(s, Swapped(off, on, now), cronOk);
            && on.name in t.db.tables.tasks && t.db.tables.tasks[on.name].enabled
            && (forall id :: id in t.reg.live ==> t.reg.live[id].name != on.name)
  {
    SwappedLast(off, on, now);
    StoredIs(s, Swapped(off, on, now), cronOk, on.name);
    EntryIs(s, Swapped(off, on, now), cronOk, on.name);
    AlwaysCoupled(s, Swapped(off, on, now), cronOk);
  }

  /** Storing the row and then updating the registry restores agreement unless the cron string is bad. */
  lemma SetTaskSync(tasks: map<string, Task>, reg: Registry, task: Task, cronOk: CronSyntax)
    requires Coupled(reg)
    ensures var tasks' := tasks[task.name := task];
            var reg' := if task.enabled then Register(reg, task, cronOk) else Unregister(reg, task.name);
            InSync(tasks, reg) ==> (InSync(tasks', reg') <==> (task.enabled ==> cronOk(task.cron)))
  {
    var reg' := if task.enabled then Register(reg, task, cronOk) else Unregister(reg, task.name);
    RegisterCoupled(reg, task, cronOk);
    UnregisterCoupled(reg, task.name);
    assert task.name in reg'.entries <==> task.enabled && cronOk(task.cron);
    var tasks' := tasks[task.name := task];
    forall name | name != task.name ensures Agrees(tasks', reg', name) <==> Agrees(tasks, reg, name) {
      assert name in reg'.entries.Keys <==> name in reg.entries.Keys;
    }
    assert Agrees(tasks', reg', task.name) <==> (task.enabled ==> cronOk(task.cron));
  }

  lemma RegisterReadsCron(reg: Registry, a: Task, b: Task, cronOk: CronSyntax)
    requires a.name == b.name && a.cron == b.cron
    ensures Register(reg, a, cronOk) == Register(reg, b, cronOk)
  {
  }

  datatype Err = NameRequired | CronRequired | StoreFailed | BadCron

  predicate Storable(task: Task, commits: bool) { task.name != "" && commits }

  class Scheduler {
    const store: Store
    var entries: map<string, nat>
    var live: map<nat, Job>
    var next: nat

    function Now(): Registry
      reads this
    {
      Registry(entries, live, next)
    }

    ghost predicate Valid()
      reads this, store
    {
      && store.Valid()
      && Coupled(Now())
      && forall name :: name in store.tasks ==> name != "" && store.tasks[name].name == name
    }

    constructor (store: Store)
      requires store.Valid() && store.tasks == map[]
      ensures Valid() && this.store == store && entries == map[]
    {
      this.store := store;
      entries, live, next := map[], map[], 0;
    }

    method RemoveEntry(name: string)
      requires Coupled(Now())
      modifies this
      ensures Now() == Unregister(old(Now()), name) && Coupled(Now())
    {
      UnregisterCoupled(Now(), name);
      if name in entries {
        live := live - {entries[name]};
        entries := entries - {name};
      }
    }

    method RegisterTask(task: Task, cronOk: CronSyntax) returns (err: Option<Err>)
      requires Coupled(Now())
      modifies this
      ensures Now() == Register(old(Now()), task, cronOk) && Coupled(Now())
      ensures err.None? <==> cronOk(task.cron)
      ensures err.Some? ==> err == Some(BadCron)
    {
      RegisterCoupled(Now(), task, cronOk);
      RemoveEntry(task.name);
      if !cronOk(task.cron) {
        return Some(BadCron);
      }
      live := live[next := Job(task.name, task.cron)];
      entries := entries[task.name := next];
      next := next + 1;
      return None;
    }

    method SaveTask(task: Task, now: int, commits: bool) returns (ok: bool)
      requires Valid()
      modifies store
      ensures Valid() && Now() == old(Now())
      ensures ok <==> Storable(task, commits)
      ensures if ok then store.tasks == old(store.tasks)[task.name := task.(updatedAt := now)]
              else store.Now() == old(store.Now())
    {
      var err := store.UpsertTask(task, now, commits);
      return err.None?;
    }

    /** The registry half of SetTask. */
    method ApplyTask(task: Task, cronOk: CronSyntax) returns (err: Option<Err>)
      requires Coupled(Now())
      modifies this
      ensures Now() == (if task.enabled then Register(old(Now()), task, cronOk) else Unregister(old(Now()), task.name))
      ensures Coupled(Now())
      ensures err == if task.enabled && !cronOk(task.cron) then Some(BadCron) else None
    {
      if !task.enabled {
        RemoveEntry(task.name);
        return None;
      }
      err := RegisterTask(task, cronOk);
    }

    /** The row is stored before the cron string is looked at. Starting in agreement, a committed call ends
        in agreement exactly when it disables the task or its cron string parses. */
    method SetTask(task: Task, now: int, commits: bool, cronOk: CronSyntax) returns (err: Option<Err>)
      requires Valid()
      modifies this, store
      ensures Valid()
      ensures err == if task.name == "" then Some(NameRequired)
                     else if task.enabled && task.cron == "" then Some(CronRequired)
                     else if !commits then Some(StoreFailed)
                     else if task.enabled && !cronOk(task.cron) then Some(BadCron) else None
      ensures err.Some? && err != Some(BadCron) ==> Now() == old(Now()) && store.Now() == old(store.Now())
      ensures err.None? || err == Some(BadCron) ==>
                store.tasks == old(store.tasks)[task.name := task.(updatedAt := now)]
      ensures (err.None? || err == Some(BadCron)) && old(InSync(store.tasks, Now())) ==>
                (InSync(store.tasks, Now()) <==> err.None?)
    {
      if task.name == "" {
        return Some(NameRequired);
      }
      if task.enabled && task.cron == "" {
        return Some(CronRequired);
      }
      var saved := SaveTask(task, now, commits);
      if !saved {
        return Some(StoreFailed);
      }
      var stamped := task.(updatedAt := now);
      SetTaskSync(old(store.tasks), Now(), stamped, cronOk);
      RegisterReadsCron(Now(), task, stamped, cronOk);
      err := ApplyTask(task, cronOk);
    }

    /** The closure of a cron entry: reads the task afresh, and returns what it hands to the runner. */
    method RunJob(name: string, hasRunner: bool) returns (call: Option<Task>)
      ensures call == Fire(if name in store.tasks then Some(store.tasks[name]) else None, hasRunner)
    {
      if name !in store.tasks {
        return None;
      }
      var cur := store.tasks[name];
      if !cur.enabled {
        return None;
      }
      if !hasRunner {
        return None;
      }
      return Some(cur);
    }

    /** Stores the schedules of the configuration in order, each in its own transaction, and stops at the
        first that fails; byName is the merged view, config winning. */
    method StoreSchedules(schedules: seq<Task>, now: int, commits: nat -> bool)
      returns (err: Option<Err>, byName: map<string, Task>, ghost stored: nat)
      requires Valid()
      modifies store
      ensures Valid() && Now() == old(Now())
      ensures stored <= |schedules| && forall i :: 0 <= i < stored ==> Storable(schedules[i], commits(i))
      ensures stored < |schedules| ==> err == Some(StoreFailed) && !Storable(schedules[stored], commits(stored))
      ensures stored == |schedules| ==> err.None? && SameJobs(byName, store.tasks)
      ensures RowsAfter(old(store.tasks), schedules, stored, now, store.tasks)
    {
      ghost var before := store.tasks;
      byName := store.tasks;
      stored := 0;
      for i := 0 to |schedules|
        invariant Valid() && Now() == old(Now()) && stored == i
        invariant SameJobs(byName, store.tasks)
        invariant forall j :: 0 <= j < i ==> Storable(schedules[j], commits(j))
        invariant RowsAfter(before, schedules, i, now, store.tasks)
      {
        var t := schedules[i];
        StoreOneMore(before, schedules, i, now, store.tasks);
        SameJobsPut(byName, store.tasks, t, now);
        var saved := SaveTask(t, now, commits(i));
        if !saved {
          return Some(StoreFailed), byName, i;
        }
        byName := byName[t.name := t];
        stored := stored + 1;
      }
      return None, byName, |schedules|;
    }

    /** Registers every enabled task of the merged view, in no fixed order, until one has a bad cron string. */
    method RegisterEnabled(byName: map<string, Task>, cronOk: CronSyntax) returns (err: Option<Err>)
      requires Coupled(Now()) && forall name :: name in byName ==> byName[name].name == name
      modifies this
      ensures Coupled(Now())
      ensures err.None? || err == Some(BadCron)
      ensures err.None? <==> forall name :: name in byName && byName[name].enabled ==> cronOk(byName[name].cron)
      ensures err.None? ==> forall name :: name in entries <==>
                name in old(entries) || (name in byName && byName[name].enabled)
      ensures err.None? ==> JobsFor(byName, byName.Keys, Now())
    {
      var rest := byName.Keys;
      while rest != {}
        invariant rest <= byName.Keys && Coupled(Now())
        invariant forall name :: name in byName.Keys - rest && byName[name].enabled ==> cronOk(byName[name].cron)
        invariant forall name :: name in entries <==>
                    name in old(entries) || (name in byName.Keys - rest && byName[name].enabled)
        invariant JobsFor(byName, byName.Keys - rest, Now())
        decreases rest
      {
        var name :| name in rest;
        rest := rest - {name};
        var t := byName[name];
        if t.enabled {
          RegisterCoupled(Now(), t, cronOk);
          if cronOk(t.cron) { RegisterAddsJob(Now(), byName, byName.Keys - rest - {name}, name, cronOk); }
          err := RegisterTask(t, cronOk);
          if err.Some? {
            return;
          }
        }
      }
      return None;
    }

    /** Boot. It succeeds exactly when every row is stored and every enabled task, stored or configured, has a
        cron string that parses: one bad row persisted by SetTask makes every later boot fail. When a row
        cannot be stored, the rows before it are in the store and the registry is untouched. */
    method Hydrate(schedules: seq<Task>, now: int, commits: nat -> bool, cronOk: CronSyntax)
      returns (err: Option<Err>, ghost stored: nat)
      requires Valid()
      modifies this, store
      ensures Valid()
      ensures stored <= |schedules| && forall i :: 0 <= i < stored ==> Storable(schedules[i], commits(i))
      ensures RowsAfter(old(store.tasks), schedules, stored, now, store.tasks)
      ensures err == Some(StoreFailed) <==> stored < |schedules|
      ensures err == Some(StoreFailed) ==> !Storable(schedules[stored], commits(stored)) && Now() == old(Now())
      ensures err != Some(StoreFailed) ==> (err.None? <==> CronsParse(store.tasks, cronOk))
      ensures err.None? ==> forall name :: name in entries <==>
                || name in old(entries)
                || (var row := RowAfter(old(store.tasks), schedules, |schedules|, now, name);
                    row.Some? && row.value.enabled)
      ensures err.None? ==> JobsFor(store.tasks, store.tasks.Keys, Now())
      ensures err.None? && old(entries) == map[] ==> InSync(store.tasks, Now())
    {
      var byName;
      err, byName, stored := StoreSchedules(schedules, now, commits);
      if err.Some? {
        return;
      }
      err := RegisterEnabled(byName, cronOk);
    }
  }

  ghost predicate CronsParse(tasks: map<string, Task>, cronOk: CronSyntax) {
    forall name :: name in tasks && tasks[name].enabled ==> cronOk(tasks[name].cron)
  }

  /** The last of the first n schedules that goes by this name. */
  function LastNamed(schedules: seq<Task>, n: nat, name: string): (r: Option<nat>)
    requires n <= |schedules|
    ensures r.Some? ==> r.value < n && schedules[r.value].name == name
    ensures forall j :: (if r.Some? then r.value + 1 else 0) <= j < n ==> schedules[j].name != name
  {
    if n == 0 then None
    else if schedules[n - 1].name == name then Some(n - 1)
    else LastNamed(schedules, n - 1, name)
  }

  /** The row of this name after the first n schedules have been stored at this time: the last schedule of
      the name, stamped, or the row there was. */
  function RowAfter(before: map<string, Task>, schedules: seq<Task>, n: nat, stamp: int, name: string): Option<Task>
    requires n <= |schedules|
  {
    match LastNamed(schedules, n, name)
    case Some(i) => Some(schedules[i].(updatedAt := stamp))
    case None => if name in before then Some(before[name]) else None
  }

  /** The tables hold exactly these rows. */
  ghost predicate RowsAfter(before: map<string, Task>, schedules: seq<Task>, n: nat, stamp: int,
                            now: map<string, Task>)
    requires n <= |schedules|
  {
    forall name :: RowAfter(before, schedules, n, stamp, name) == if name in now then Some(now[name]) else None
  }

  lemma StoreOneMore(before: map<string, Task>, schedules: seq<Task>, n: nat, stamp: int, mid: map<string, Task>)
    requires n < |schedules| && RowsAfter(before, schedules, n, stamp, mid)
    ensures RowsAfter(before, schedules, n + 1, stamp, mid[schedules[n].name := schedules[n].(updatedAt := stamp)])
  {
    var now := mid[schedules[n].name := schedules[n].(updatedAt := stamp)];
    forall name
      ensures RowAfter(before, schedules, n + 1, stamp, name) == if name in now then Some(now[name]) else None
    {
      assert RowAfter(before, schedules, n, stamp, name) == if name in mid then Some(mid[name]) else None;
    }
  }

  /** Each enabled task of these names has an entry with its own cron string. */
  ghost predicate JobsFor(tasks: map<string, Task>, names: set<string>, reg: Registry) {
    forall name :: name in names && name in tasks && tasks[name].enabled ==> HasJob(reg, name, tasks[name].cron)
  }

  lemma RegisterAddsJob(r: Registry, tasks: map<string, Task>, names: set<string>, name: string, cronOk: CronSyntax)
    requires Coupled(r) && JobsFor(tasks, names, r)
    requires name in tasks && tasks[name].name == name && cronOk(tasks[name].cron)
    ensures JobsFor(tasks, names + {name}, Register(r, tasks[name], cronOk))
  {
    RegisterCoupled(r, tasks[name], cronOk);
    forall other | other in names && other != name && other in tasks && tasks[other].enabled
      ensures HasJob(Register(r, tasks[name], cronOk), other, tasks[other].cron)
    {
      assert HasJob(r, other, tasks[other].cron);
    }
  }

  /** The same tasks with the same schedules; only the update stamps may differ. */
  ghost predicate SameJobs(a: map<string, Task>, b: map<string, Task>) {
    && a.Keys == b.Keys
    && forall name :: name in a ==>
         && a[name].name == name && b[name].name == name
         && a[name].enabled == b[name].enabled && a[name].cron == b[name].cron
  }

  lemma SameJobsPut(a: map<string, Task>, b: map<string, Task>, t: Task, stamp: int)
    requires SameJobs(a, b)
    ensures SameJobs(a[t.name := t], b[t.name := t.(updatedAt := stamp)])
  {
  }
}
