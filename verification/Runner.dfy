/** The single-flight task runner: internal/task/runner.go:183-344.
    Concurrent Run calls interleave at their critical sections and store calls. */
module Runner {
  import opened Common
  import opened EventStore

  // ---- Final status ------------------------------------------------------------

  datatype CtxErr = NoErr | DeadlineExceeded | CtxCanceled

  /** What the driver call left: the run context's error, the caller's, the driver's error and the
      partial failure it reports. */
  datatype Driven = Driven(runCtx: CtxErr, callerCtx: CtxErr, err: Option<string>, partial: string)

  /** Context states beat driver errors. */
  function FinalStatus(d: Driven): (Status, string) {
    if d.runCtx.DeadlineExceeded? then (Timeout, "task exceeded configured timeout")
    else if d.callerCtx.CtxCanceled? || d.runCtx.CtxCanceled? then (Canceled, "task canceled")
    else if d.err.Some? then (Failed, d.err.value)
    else if d.partial != "" then (Failed, d.partial)
    else (Completed, "")
  }

  predicate ContextFails(d: Driven) { d.runCtx.DeadlineExceeded? || d.runCtx.CtxCanceled? || d.callerCtx.CtxCanceled? }

  /** Every outcome is a terminal status, so the store never refuses it: a passed deadline is a timeout, else a
      cancellation of the run or of its caller cancels it, else an error of the driver or a reported partial
      failure fails it with that text, and completed means nothing at all went wrong. */
  lemma FinalStatusTerminal(d: Driven)
    ensures IsTerminal(FinalStatus(d).0)
    ensures FinalStatus(d).0 == Timeout <==> d.runCtx.DeadlineExceeded?
    ensures FinalStatus(d).0 == Canceled <==>
              (d.callerCtx.CtxCanceled? || d.runCtx.CtxCanceled?) && !d.runCtx.DeadlineExceeded?
    ensures FinalStatus(d).0 == Failed <==> !ContextFails(d) && (d.err.Some? || d.partial != "")
    ensures FinalStatus(d).0 == Completed <==> !ContextFails(d) && d.err.None? && d.partial == ""
    ensures FinalStatus(d).0 == Failed ==> FinalStatus(d).1 == if d.err.None? then d.partial else d.err.value
    ensures FinalStatus(d).0 == Completed ==> FinalStatus(d).1 == ""
  {
  }

  // ---- The in-flight set -----------------------------------------------------------

  class Inflight {
    var names: set<string>

    constructor ()
      ensures names == {}
    {
      names := {};
    }

    method Mark(name: string) returns (ok: bool)
      modifies this
      ensures ok <==> name !in old(names)
      ensures names == old(names) + {name}
    {
      if name in names {
        return false;
      }
      names := names + {name};
      return true;
    }

    method Release(name: string)
      modifies this
      ensures names == old(names) - {name}
    {
      names := names - {name};
    }
  }

  // ---- Interleaved runs ---------------------------------------------------------------

  type Thread = nat

  datatype Phase =
    | Marked(name: string)
    | Started(name: string, id: string)
    | Decided(name: string, id: string, d: Driven)
    | Leaving(name: string, done: Option<Closed>)
    | Returned(done: Option<Closed>)

  /** A run that returns without error: its id, and what its driver left. */
  datatype Closed = Closed(id: string, d: Driven)

  /** owner remembers which thread started which run. */
  datatype State = State(db: Db, inflight: set<string>, threads: map<Thread, Phase>, owner: map<string, Thread>)

  datatype Action =
    | Begin(t: Thread, name: string)
    | Start(t: Thread, id: string, trigger: string, now: int, commits: bool)
    | Drive(t: Thread, d: Driven)
    | Finish(t: Thread, summary: string, toolCalls: int, now: int, commits: bool)
    | Release(t: Thread)
    | Other(call: Call)                                  // any store call that is not about runs

  predicate Enabled(s: State, a: Action) {
    match a
    case Begin(t, name) => t !in s.threads && name != ""
    case Start(t, _, _, _, _) => t in s.threads && s.threads[t].Marked?
    case Drive(t, _) => t in s.threads && s.threads[t].Started?
    case Finish(t, _, _, _, _) => t in s.threads && s.threads[t].Decided?
    case Release(t) => t in s.threads && s.threads[t].Leaving?
    case Other(c) => !c.op.StartRun? && !c.op.FinishRun?
  }

  function Move(s: State, t: Thread, p: Phase): State { s.(threads := s.threads[t := p]) }

  function StartOp(name: string, id: string, trigger: string, now: int): Op {
    Op.StartRun(TaskRun(id, name, trigger, Some(now), OtherStatus(""), "", 0, 0, ""))
  }

  function FinishOp(p: Phase, summary: string, toolCalls: int): Op
    requires p.Decided?
  {
    Op.FinishRun(p.id, FinalStatus(p.d).0, summary, FinalStatus(p.d).1, toolCalls)
  }

  function Do(s: State, a: Action): State
    requires Enabled(s, a)
  {
    match a
    case Begin(t, name) =>
      if name in s.inflight then Move(s, t, Returned(None))
      else Move(s, t, Marked(name)).(inflight := s.inflight + {name})
    case Start(t, id, trigger, now, commits) =>
      var name := s.threads[t].name;
      var op := StartOp(name, id, trigger, now);
      if commits && Accepts(s.db, op) then
        Move(s, t, Started(name, id)).(db := Exec(s.db, op, now, true), owner := s.owner[id := t])
      else Move(s, t, Leaving(name, None))
    case Drive(t, d) => Move(s, t, Decided(s.threads[t].name, s.threads[t].id, d))
    case Finish(t, summary, toolCalls, now, commits) =>
      var p := s.threads[t];
      var op := FinishOp(p, summary, toolCalls);
      var done := if commits && Accepts(s.db, op) then Some(Closed(p.id, p.d)) else None;
      Move(s, t, Leaving(p.name, done)).(db := Exec(s.db, op, now, commits))
    case Release(t) =>
      Move(s, t, Returned(s.threads[t].done)).(inflight := s.inflight - {s.threads[t].name})
    case Other(c) => s.(db := Exec(s.db, c.op, c.now, c.commits))
  }

  function Step(s: State, a: Action): State { if Enabled(s, a) then Do(s, a) else s }

  function Init(at: int): State { State(Fresh(at), {}, map[], map[]) }

  function Run(at: int, acts: seq<Action>): State {
    if acts == [] then Init(at) else Step(Run(at, acts[..|acts| - 1]), acts[|acts| - 1])
  }

  /** The row of a run that starts: under the task's name, with its trigger, running since now. */
  lemma StartRow(s: State, t: Thread, id: string, trigger: string, now: int)
    requires Enabled(s, Start(t, id, trigger, now, true)) && id != "" && s.threads[t].name != ""
    requires id !in s.db.tables.runs
    ensures var s' := Do(s, Start(t, id, trigger, now, true));
            && s'.threads == s.threads[t := Started(s.threads[t].name, id)]
            && s'.db.tables.runs
               == s.db.tables.runs[id := RunRow(s.threads[t].name, trigger, now, None, Running, None, 0, None)]
  {
  }

  /** The row of a run that is closed: it ended now, with what its driver left. */
  lemma FinishRow(s: State, t: Thread, summary: string, toolCalls: int, now: int)
    requires Enabled(s, Finish(t, summary, toolCalls, now, true))
    requires s.threads[t].id in s.db.tables.runs && s.db.tables.runs[s.threads[t].id].status == Running
    ensures var s', p := Do(s, Finish(t, summary, toolCalls, now, true)), s.threads[t];
            var row := s.db.tables.runs[p.id];
            && s'.threads == s.threads[t := Leaving(p.name, Some(Closed(p.id, p.d)))]
            && s'.db.tables.runs
               == s.db.tables.runs[p.id := RunRow(row.taskName, row.trigger, row.startedAt, Some(now),
                                                  FinalStatus(p.d).0, Some(summary), toolCalls,
                                                  Some(FinalStatus(p.d).1))]
  {
    var p := s.threads[t];
    FinalStatusTerminal(p.d);
    FinishRows(s.db.tables, p.id, FinalStatus(p.d).0, summary, FinalStatus(p.d).1, toolCalls, now);
  }

  // ---- The invariant -----------------------------------------------------------------------

  predicate Active(p: Phase) { !p.Returned? }

  /** A thread that is inside Run holds its task name, and its open run is recorded as running. */
  predicate ThreadOk(s: State, t: Thread) {
    t in s.threads ==>
      var p := s.threads[t];
      && (Active(p) ==> p.name in s.inflight)
      && (p.Started? || p.Decided? ==> OpenRun(s, t, p.name, p.id))
  }

  predicate OpenRun(s: State, t: Thread, name: string, id: string) {
    RunningAs(s.db.tables.runs, id) == Some(name) && id in s.owner && s.owner[id] == t
  }

  /** The task a run is running for, if its row is in running. */
  function RunningAs(runs: map<string, RunRow>, id: string): Option<string> {
    if id in runs && runs[id].status == Running then Some(runs[id].taskName) else None
  }

  /** No two threads inside Run share a task name. */
  predicate ApartOk(s: State, t: Thread, u: Thread) {
    t != u && t in s.threads && u in s.threads && Active(s.threads[t]) && Active(s.threads[u]) ==>
      s.threads[t].name != s.threads[u].name
  }

  ghost predicate Inv(s: State) { (forall t :: ThreadOk(s, t)) && (forall t, u :: ApartOk(s, t, u)) }

  /** The thread that acts, if a thread does. */
  function ActorOr(a: Action, t: Thread): Thread { if a.Other? then t else a.t }

  lemma StepThread(s: State, a: Action, t: Thread)
    requires Enabled(s, a) && ThreadOk(s, t) && ThreadOk(s, ActorOr(a, t)) && ApartOk(s, ActorOr(a, t), t)
    ensures ThreadOk(Do(s, a), t)
  {
  }

  lemma StepApart(s: State, a: Action, t: Thread, u: Thread)
    requires Enabled(s, a) && ThreadOk(s, t) && ThreadOk(s, u) && ApartOk(s, t, u)
    ensures ApartOk(Do(s, a), t, u)
  {
  }

  lemma {:induction false} AlwaysInv(at: int, acts: seq<Action>)
    ensures Inv(Run(at, acts))
  {
    if acts != [] {
      var s, a := Run(at, acts[..|acts| - 1]), acts[|acts| - 1];
      AlwaysInv(at, acts[..|acts| - 1]);
      if Enabled(s, a) {
        forall t ensures ThreadOk(Do(s, a), t) {
          assert ThreadOk(s, t) && ThreadOk(s, ActorOr(a, t)) && ApartOk(s, ActorOr(a, t), t);
          StepThread(s, a, t);
        }
        forall t, u ensures ApartOk(Do(s, a), t, u) {
          assert ThreadOk(s, t) && ThreadOk(s, u) && ApartOk(s, t, u);
          StepApart(s, a, t, u);
        }
      }
    }
  }

  // ---- Rows left in running ---------------------------------------------------------------

  /** Some thread is between the start and the finish of this run. */
  predicate Held(s: State, id: string) {
    && id in s.owner && s.owner[id] in s.threads
    && var p := s.threads[s.owner[id]]; (p.Started? || p.Decided?) && p.id == id
  }

  /** The row is in running and nobody is going to close it. */
  predicate Leaked(s: State, id: string) { RunningAs(s.db.tables.runs, id).Some? && !Held(s, id) }

  /** The action is the closing store call of this run, and it does not commit. */
  predicate LosesClose(s: State, a: Action, id: string) {
    Enabled(s, a) && a.Finish? && !a.commits && s.threads[a.t].id == id
  }

  lemma StepLeaked(s: State, a: Action, id: string)
    requires Enabled(s, a) && ThreadOk(s, ActorOr(a, 0))
    ensures Leaked(Do(s, a), id) <==> Leaked(s, id) || LosesClose(s, a, id)
  {
    if a.Finish? { FinalStatusTerminal(s.threads[a.t].d); }
  }

  ghost predicate CloseLost(at: int, acts: seq<Action>, id: string) {
    exists k :: 0 <= k < |acts| && LosesClose(Run(at, acts[..k]), acts[k], id)
  }

  /** In every interleaving a row is left in running exactly when a closing store call for it failed; so
      once it is, it stays there. */
  lemma {:induction false} LeakedIff(at: int, acts: seq<Action>, id: string)
    ensures Leaked(Run(at, acts), id) <==> CloseLost(at, acts, id)
  {
    if acts != [] {
      var rest, a := acts[..|acts| - 1], acts[|acts| - 1];
      var s := Run(at, rest);
      LeakedIff(at, rest, id);
      AlwaysInv(at, rest);
      assert ThreadOk(s, ActorOr(a, 0));
      if Enabled(s, a) { StepLeaked(s, a, id); }
      LostSnoc(at, rest, a, id);
      assert acts == rest + [a];
    }
  }

  lemma LostSnoc(at: int, rest: seq<Action>, a: Action, id: string)
    ensures CloseLost(at, rest + [a], id) <==> CloseLost(at, rest, id) || LosesClose(Run(at, rest), a, id)
  {
    var acts := rest + [a];
    assert acts[..|rest|] == rest && acts[|rest|] == a;
    forall k | 0 <= k < |rest| ensures acts[..k] == rest[..k] && acts[k] == rest[k] {}
    if CloseLost(at, rest, id) {
      var k :| 0 <= k < |rest| && LosesClose(Run(at, rest[..k]), rest[k], id);
      assert LosesClose(Run(at, acts[..k]), acts[k], id);
    }
    if LosesClose(Run(at, rest), a, id) { assert LosesClose(Run(at, acts[..|rest|]), acts[|rest|], id); }
  }

  lemma {:induction false} LeakStays(at: int, acts: seq<Action>, more: seq<Action>, id: string)
    requires Leaked(Run(at, acts), id)
    ensures Leaked(Run(at, acts + more), id)
  {
    if more == [] {
      assert acts + more == acts;
    } else {
      var fewer := more[..|more| - 1];
      LeakStays(at, acts, fewer, id);
      assert acts + more == acts + fewer + [more[|more| - 1]];
      LeakedIff(at, acts + fewer, id);
      LeakedIff(at, acts + more, id);
      LostSnoc(at, acts + fewer, more[|more| - 1], id);
    }
  }

  /** Two rows of one task in running need a failed closing call of one of these two runs, whatever happens
      to other tasks. */
  lemma AtMostOneRunning(at: int, acts: seq<Action>, id1: string, id2: string)
    ensures var runs := Run(at, acts).db.tables.runs;
            id1 != id2 && RunningAs(runs, id1) == RunningAs(runs, id2) && RunningAs(runs, id1).Some? ==>
              CloseLost(at, acts, id1) || CloseLost(at, acts, id2)
  {
    AlwaysInv(at, acts);
    var s := Run(at, acts);
    LeakedIff(at, acts, id1);
    LeakedIff(at, acts, id2);
    if Held(s, id1) && Held(s, id2) {
      assert ThreadOk(s, s.owner[id1]) && ThreadOk(s, s.owner[id2]);
      assert ApartOk(s, s.owner[id1], s.owner[id2]);
    }
  }

  /** The next Start of a task that goes through makes a second row in running if and only if the closing
      call of an earlier run of that task has failed. */
  lemma StartDoublesIff(at: int, acts: seq<Action>, t: Thread, id: string, trigger: string, now: int)
    requires var s, a := Run(at, acts), Start(t, id, trigger, now, true);
             Enabled(s, a) && Accepts(s.db, StartOp(s.threads[t].name, id, trigger, now))
    ensures var s := Run(at, acts);
            var name := s.threads[t].name;
            var after := Do(s, Start(t, id, trigger, now, true)).db.tables.runs;
            && RunningAs(after, id) == Some(name)
            && ((exists other :: other != id && RunningAs(after, other) == Some(name)) <==>
                (exists other :: CloseLost(at, acts, other) && RunningAs(s.db.tables.runs, other) == Some(name)))
  {
    var s := Run(at, acts);
    var name := s.threads[t].name;
    var after := Do(s, Start(t, id, trigger, now, true)).db.tables.runs;
    AlwaysInv(at, acts);
    forall other ensures other != id && RunningAs(after, other) == Some(name) <==>
                           CloseLost(at, acts, other) && RunningAs(s.db.tables.runs, other) == Some(name)
    {
      LeakedIff(at, acts, other);
      if Held(s, other) {
        assert ThreadOk(s, s.owner[other]) && ApartOk(s, t, s.owner[other]);
      }
    }
  }

  // ---- What the log says ------------------------------------------------------------------

  lemma StepLife(s: State, a: Action, id: string)
    requires Enabled(s, a) && LifeMatches(s.db, id)
    ensures LifeMatches(Do(s, a).db, id)
  {
    match a
    case Start(t, id', trigger, now, _) => LifeStep(s.db, StartOp(s.threads[t].name, id', trigger, now), now, true, id);
    case Finish(t, summary, toolCalls, now, commits) =>
      LifeStep(s.db, FinishOp(s.threads[t], summary, toolCalls), now, commits, id);
    case Other(c) => LifeStep(s.db, c.op, c.now, c.commits, id);
    case _ =>
  }

  lemma {:induction false} LifeInRuns(at: int, acts: seq<Action>, id: string)
    ensures LifeMatches(Run(at, acts).db, id)
  {
    if acts != [] {
      var s, a := Run(at, acts[..|acts| - 1]), acts[|acts| - 1];
      LifeInRuns(at, acts[..|acts| - 1], id);
      if Enabled(s, a) { StepLife(s, a, id); }
    }
  }

  /** The row carries the status and the error text that the outcome maps to. */
  predicate ClosedRun(db: Db, run: Closed) {
    && run.id in db.tables.runs
    && db.tables.runs[run.id].status == FinalStatus(run.d).0
    && db.tables.runs[run.id].error == Some(FinalStatus(run.d).1)
  }

  /** A run a thread reports as done is closed. */
  predicate DoneOk(s: State, t: Thread) {
    t in s.threads && (s.threads[t].Leaving? || s.threads[t].Returned?) && s.threads[t].done.Some? ==>
      ClosedRun(s.db, s.threads[t].done.value)
  }

  lemma StepDone(s: State, a: Action, t: Thread)
    requires Enabled(s, a) && DoneOk(s, t)
    ensures DoneOk(Do(s, a), t)
  {
    if a.Finish? { FinalStatusTerminal(s.threads[a.t].d); }
    if t in s.threads && (s.threads[t].Leaving? || s.threads[t].Returned?) && s.threads[t].done.Some? {
      FinalStatusTerminal(s.threads[t].done.value.d);
    }
  }

  lemma {:induction false} AlwaysDone(at: int, acts: seq<Action>, t: Thread)
    ensures DoneOk(Run(at, acts), t)
  {
    if acts != [] {
      var s, a := Run(at, acts[..|acts| - 1]), acts[|acts| - 1];
      AlwaysDone(at, acts[..|acts| - 1], t);
      if Enabled(s, a) { StepDone(s, a, t); }
    }
  }

  /** A call that returned without error has exactly one started event followed by exactly one finished
      event for its id, and its row and that event carry the status its driver's outcome maps to. */
  lemma ReturnedRunsAreLogged(at: int, acts: seq<Action>, t: Thread)
    ensures var s := Run(at, acts);
            t in s.threads && s.threads[t].Returned? && s.threads[t].done.Some? ==>
              var run := s.threads[t].done.value;
              var life := Life(s.db.log, run.id);
              && |life| == 2 && life[0].RunStarted? && life[1].RunFinished?
              && life[1].status == FinalStatus(run.d).0
              && ClosedRun(s.db, run)
  {
    AlwaysDone(at, acts, t);
    var s := Run(at, acts);
    if t in s.threads && s.threads[t].Returned? && s.threads[t].done.Some? {
      LifeInRuns(at, acts, s.threads[t].done.value.id);
      FinalStatusTerminal(s.threads[t].done.value.d);
    }
  }

  function Steps(s: State, acts: seq<Action>): State
    decreases |acts|
  {
    if acts == [] then s else Steps(Step(s, acts[0]), acts[1..])
  }

  lemma {:induction false} RunSteps(at: int, before: seq<Action>, acts: seq<Action>)
    ensures Run(at, before + acts) == Steps(Run(at, before), acts)
    decreases |acts|
  {
    if acts == [] {
      assert before + acts == before;
    } else {
      var sooner := before + [acts[0]];
      assert sooner[..|sooner| - 1] == before;
      assert before + acts == sooner + acts[1..];
      RunSteps(at, sooner, acts[1..]);
    }
  }

  /** A run whose closing store call fails. */
  function FailedClose(t: Thread, name: string, id: string, d: Driven): seq<Action> {
    [Begin(t, name), Start(t, id, "", 0, true), Drive(t, d), Finish(t, "", 0, 0, false), Release(t)]
  }

  lemma StartedRun(s: State, t: Thread, name: string, id: string)
    requires name != "" && id != "" && id !in s.db.tables.runs && t !in s.threads && name !in s.inflight
    ensures var s2 := Step(Step(s, Begin(t, name)), Start(t, id, "", 0, true));
            && s2.threads == s.threads[t := Started(name, id)] && s2.inflight == s.inflight + {name}
            && RunningAs(s2.db.tables.runs, id) == Some(name)
            && forall other :: other != id ==> RunningAs(s2.db.tables.runs, other) == RunningAs(s.db.tables.runs, other)
  {
  }

  lemma FailedCloseLeaves(s: State, t: Thread, name: string, id: string, d: Driven)
    requires t in s.threads && s.threads[t] == Started(name, id)
    ensures var s3 := Step(Step(Step(s, Drive(t, d)), Finish(t, "", 0, 0, false)), Release(t));
            s3.db == s.db && s3.inflight == s.inflight - {name} && s3.threads == s.threads[t := Returned(None)]
  {
  }

  /** If closing a run fails in the store, its row stays in running although the name is released, and
      the next run of the same task makes it two. */
  lemma FailedFinishDoubles(at: int, name: string, id1: string, id2: string, d: Driven)
    requires name != "" && id1 != "" && id2 != "" && id1 != id2
    ensures var acts := FailedClose(0, name, id1, d) + [Begin(1, name), Start(1, id2, "", 0, true)];
            var runs := Run(at, acts).db.tables.runs;
            RunningAs(runs, id1) == Some(name) && RunningAs(runs, id2) == Some(name)
  {
    var first, second := FailedClose(0, name, id1, d), [Begin(1, name), Start(1, id2, "", 0, true)];
    RunSteps(at, first, second);
    RunSteps(at, [], first);
    assert [] + first == first;
    StartedRun(Init(at), 0, name, id1);
    var s2 := Step(Step(Init(at), first[0]), first[1]);
    FailedCloseLeaves(s2, 0, name, id1, d);
    var s5 := Step(Step(Step(s2, first[2]), first[3]), first[4]);
    FiveSteps(Init(at), first);
    assert s5 == Run(at, first);
    StartedRun(s5, 1, name, id2);
    TwoSteps(s5, second);
  }

  lemma NextOf(s: State, acts: seq<Action>, k: nat)
    requires k < |acts|
    ensures Steps(s, acts[k..]) == Steps(Step(s, acts[k]), acts[k + 1..])
  {
    assert acts[k..][0] == acts[k] && acts[k..][1..] == acts[k + 1..];
  }

  lemma TwoSteps(s: State, acts: seq<Action>)
    requires |acts| == 2
    ensures Steps(s, acts) == Step(Step(s, acts[0]), acts[1])
  {
    assert acts[0..] == acts;
    NextOf(s, acts, 0);
    NextOf(Step(s, acts[0]), acts, 1);
  }

  lemma FiveSteps(s: State, acts: seq<Action>)
    requires |acts| == 5
    ensures Steps(s, acts) == Step(Step(Step(Step(Step(s, acts[0]), acts[1]), acts[2]), acts[3]), acts[4])
  {
    assert acts[0..] == acts;
    NextOf(s, acts, 0);
    var s1 := Step(s, acts[0]);
    NextOf(s1, acts, 1);
    var s2 := Step(s1, acts[1]);
    NextOf(s2, acts, 2);
    var s3 := Step(s2, acts[2]);
    NextOf(s3, acts, 3);
    NextOf(Step(s3, acts[3]), acts, 4);
  }
}
