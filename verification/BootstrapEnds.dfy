/** When a bootstrap succeeds, and what each attempt was given: internal/bootstrap/agent_script.go:404-569. */
module BootstrapEnds {
  import opened Common
  import Text
  import opened Supervise
  import opened Bootstrap

  /** The attempt's script ran and was found done, without an error. */
  predicate DoneRun(l: IterLog) { l.ran && l.run.verdict == "done" && l.run.err.None? }

  /** Attempt n, made when this much had been spent: it ran exactly when the planner left a script, then under
      what remained of the budget after the plan was paid for. */
  predicate AttemptIs(s: Settings, it: Iter, spent: int, l: IterLog) {
    && l.planCost == it.plan.cost
    && (l.ran <==> !it.plan.fails && it.plan.scriptWritten)
    && (!l.ran ==> l.run == BLANK && l.exit == -1)
    && (l.ran ==>
          && l.exit == (if it.startOk then it.exit else -1)
          && l.run == Script(Config(s.maxTurns, s.port, if s.budget == 0 then -1 else s.budget - spent - l.planCost,
                                    it.startOk, s.decode), it.turns, it.last))
  }

  /** Nothing kept attempt n from being made when this much had been spent. */
  predicate MayStart(s: Settings, o: Iters, n: nat, spent: int) {
    n <= s.maxIter && !o(n).ctxDone && (s.budget == 0 || spent < s.budget)
  }

  predicate EntryOk(s: Settings, o: Iters, log: seq<IterLog>, i: nat)
    requires i < |log|
  {
    MayStart(s, o, i + 1, Spent(log[..i])) && AttemptIs(s, o(i + 1), Spent(log[..i]), log[i])
  }

  ghost predicate LogOk(s: Settings, o: Iters, log: seq<IterLog>) {
    forall i :: 0 <= i < |log| ==> EntryOk(s, o, log, i)
  }

  /** The verdict of the last attempt that ran. */
  function LastVerdict(log: seq<IterLog>): string {
    if log == [] then ""
    else if log[|log| - 1].ran then log[|log| - 1].run.verdict
    else LastVerdict(log[..|log| - 1])
  }

  /** The last attempt that failed otherwise than by being given up; if there is none, that attempts were
      given up. */
  function LastCause(o: Iters, log: seq<IterLog>): Option<Cause> {
    if log == [] then None
    else
      var n, l := |log|, log[|log| - 1];
      if o(n).plan.fails then Some(PlannerFailed)
      else if !o(n).plan.scriptWritten then Some(NoScript)
      else if l.run.err.Some? then Some(RunFailed(l.run.err.value))
      else if n == 1 then Some(Intervened)
      else LastCause(o, log[..n - 1])
  }

  /** The loop before an attempt: everything so far is in the log, and nothing was done. */
  ghost predicate Between(s: Settings, o: Iters, a: Acc) {
    && Accounted(a) && LogOk(s, o, a.log)
    && (forall i :: 0 <= i < |a.log| ==> !DoneRun(a.log[i]))
    && a.verdict == LastVerdict(a.log) && a.cause == LastCause(o, a.log)
  }

  /** How the loop ended, read off its log. */
  ghost predicate Ending(s: Settings, o: Iters, out: Outcome, log: seq<IterLog>) {
    && LogOk(s, o, log)
    && (forall i :: 0 <= i < |log| && DoneRun(log[i]) ==> i == |log| - 1)
    && (out.Succeeded? <==> log != [] && DoneRun(log[|log| - 1]))
    && (!out.Succeeded? ==> !MayStart(s, o, |log| + 1, Spent(log)))
    && (match out
        case ContextCancelled(at) => at == |log| + 1 <= s.maxIter && o(at).ctxDone
        case Succeeded(status) => status.success && status.verdict == LastVerdict(log)
        case Exhausted(status, cause) =>
          && !status.success && status.verdict == LastVerdict(log)
          && cause == (if |log| < s.maxIter then Some(BudgetGate) else LastCause(o, log)))
  }

  lemma NewEntry(s: Settings, o: Iters, a: Acc)
    requires Accounted(a) && LogOk(s, o, a.log) && MayStart(s, o, |a.log| + 1, a.cost)
    ensures LogOk(s, o, OneIteration(s, o(|a.log| + 1), a).0.log)
  {
    var log := OneIteration(s, o(|a.log| + 1), a).0.log;
    assert log[..|a.log|] == a.log;
    forall i | 0 <= i < |log| ensures EntryOk(s, o, log, i) {
      if i < |a.log| {
        assert EntryOk(s, o, a.log, i) && log[..i] == a.log[..i];
      }
    }
  }

  /** What one attempt adds; done tells whether the bootstrap ends with it. */
  lemma AttemptAdds(s: Settings, o: Iters, a: Acc)
    requires Between(s, o, a) && MayStart(s, o, |a.log| + 1, a.cost)
    ensures var (b, done) := OneIteration(s, o(|a.log| + 1), a);
            && Accounted(b) && LogOk(s, o, b.log) && |b.log| == |a.log| + 1
            && (done <==> DoneRun(b.log[|a.log|]))
            && (!done ==> Between(s, o, b))
            && (forall i :: 0 <= i < |b.log| && DoneRun(b.log[i]) ==> i == |a.log|)
            && b.verdict == LastVerdict(b.log)
  {
    var (b, done) := OneIteration(s, o(|a.log| + 1), a);
    IterationAccounted(s, o(|a.log| + 1), a);
    NewEntry(s, o, a);
    assert b.log[..|a.log|] == a.log;
    forall i | 0 <= i < |a.log| ensures b.log[i] == a.log[i] {}
    CauseKnown(o, a.log);
  }

  lemma {:induction false} CauseKnown(o: Iters, log: seq<IterLog>)
    ensures LastCause(o, log).None? <==> log == []
  {
    if |log| > 1 { CauseKnown(o, log[..|log| - 1]); }
  }

  lemma {:induction false} IterateEnds(s: Settings, o: Iters, n: nat, a: Acc)
    requires Between(s, o, a) && |a.log| == n - 1 && n <= s.maxIter + 1
    ensures Ending(s, o, Iterate(s, o, n, a).0, Iterate(s, o, n, a).1.log)
    decreases s.maxIter + 1 - n
  {
    if MayStart(s, o, n, a.cost) {
      AttemptAdds(s, o, a);
      var (b, done) := OneIteration(s, o(n), a);
      if !done { IterateEnds(s, o, n + 1, b); }
    }
  }

  lemma EndsFrom(s: Settings, o: Iters, a: Acc)
    requires a == Acc(0, 0, a.ctx, None, "", [])
    ensures Ending(s, o, Iterate(s, o, 1, a).0, Iterate(s, o, 1, a).1.log)
  {
    IterateEnds(s, o, 1, a);
  }

  /** The run ended well exactly when its last attempt was done, and no earlier one was. */
  ghost predicate SucceedsRight(out: Outcome, log: seq<IterLog>) {
    && (out.Succeeded? <==> exists i :: 0 <= i < |log| && DoneRun(log[i]))
    && (forall i :: 0 <= i < |log| && DoneRun(log[i]) ==> i == |log| - 1)
    && (!out.ContextCancelled? ==>
          (out.status.success <==> out.Succeeded?) && out.status.verdict == LastVerdict(log))
  }

  lemma EndingSucceeds(s: Settings, o: Iters, out: Outcome, log: seq<IterLog>)
    requires Ending(s, o, out, log)
    ensures SucceedsRight(out, log)
  {
  }

  /** A bootstrap succeeds if and only if some attempt ran and was found done without an error. That attempt is
      the last one made, and the written status says success exactly then, with the verdict of the last attempt
      that ran. Each attempt was made because nothing forbade it, under what was left of the budget; an
      unsuccessful bootstrap stopped only where no further attempt could start, and says why. */
  lemma SucceedsIff(s: Settings, o: Iters)
    ensures SucceedsRight(Bootstrap.Bootstrap(s, o).0, Bootstrap.Bootstrap(s, o).1.log)
    ensures Ending(s, o, Bootstrap.Bootstrap(s, o).0, Bootstrap.Bootstrap(s, o).1.log)
  {
    EndsFrom(s, o, START);
    EndingSucceeds(s, o, Bootstrap.Bootstrap(s, o).0, Bootstrap.Bootstrap(s, o).1.log);
  }

  // ---- What the planner is told --------------------------------------------------------------

  /** What attempt n and its log entry leave for the next planner call. */
  function Lesson(it: Iter, l: IterLog): Context {
    if it.plan.fails then Context(-1, PlannerFailure)
    else if !it.plan.scriptWritten then Context(-1, NoScriptFile)
    else Context(l.exit, l.run.reason)
  }

  /** What the planner of attempt i + 1 is told after these attempts. */
  function Told(o: Iters, log: seq<IterLog>, i: nat): Context
    requires i <= |log|
  {
    if i == 0 then Context(0, NoReason) else Lesson(o(i), log[i - 1])
  }

  predicate ToldAt(o: Iters, log: seq<IterLog>, i: nat)
    requires i < |log|
  { log[i].told == Told(o, log, i) }

  ghost predicate AllTold(o: Iters, log: seq<IterLog>) { forall i :: 0 <= i < |log| ==> ToldAt(o, log, i) }

  lemma ToldLater(o: Iters, log: seq<IterLog>, l: IterLog)
    requires AllTold(o, log) && l.told == Told(o, log, |log|)
    ensures AllTold(o, log + [l]) && Told(o, log + [l], |log| + 1) == Lesson(o(|log| + 1), l)
  {
    forall i | 0 <= i < |log + [l]| ensures ToldAt(o, log + [l], i) {
      assert i < |log| ==> ToldAt(o, log, i);
    }
  }

  lemma {:induction false} IterateTells(s: Settings, o: Iters, n: nat, a: Acc)
    requires |a.log| == n - 1 && AllTold(o, a.log) && a.ctx == Told(o, a.log, n - 1)
    ensures AllTold(o, Iterate(s, o, n, a).1.log)
    decreases s.maxIter + 1 - n
  {
    if n <= s.maxIter && !o(n).ctxDone && !GateClosed(s, a) {
      var (b, done) := OneIteration(s, o(n), a);
      ToldLater(o, a.log, b.log[n - 1]);
      assert b.log == a.log + [b.log[n - 1]];
      if !done { IterateTells(s, o, n + 1, b); }
    }
  }

  /** The first planner is told nothing; every later one is told the exit code and reason of the attempt just
      before it, or that it had no plan or no script. */
  lemma PlannerIsTold(s: Settings, o: Iters)
    ensures AllTold(o, Bootstrap.Bootstrap(s, o).1.log)
  {
    ToldFrom(s, o, START);
  }

  lemma ToldFrom(s: Settings, o: Iters, a: Acc)
    requires a.log == [] && a.ctx == Context(0, NoReason)
    ensures AllTold(o, Iterate(s, o, 1, a).1.log)
  {
    IterateTells(s, o, 1, a);
  }

  // ---- The limits ------------------------------------------------------------------------------

  /** The variable holds this positive 64-bit number, spaces around it aside. */
  predicate Sets(env: Env, key: string, n: int) {
    key in env && Text.TrimSpace(env[key]) != "" && Text.Atoi(Text.TrimSpace(env[key])) == Some(n) && n > 0
  }

  lemma VarIs(env: Env, key: string)
    ensures var r := PositiveVar(env, key); if r.Some? then Sets(env, key, r.value) else forall n :: !Sets(env, key, n)
    ensures forall n :: Sets(env, key, n) ==> PositiveVar(env, key) == Some(n)
  {
  }

  function Clamp(n: int, low: int, high: int): int { if n < low then low else if n > high then high else n }

  /** A limit is its default unless the variable holds a positive number, and then that number brought within
      its bounds; a port out of bounds counts as none. */
  lemma LimitsAre(env: Env, n: int)
    ensures var key := "AGENT_OPS_BOOTSTRAP_MAX_ITERATIONS";
            && (Sets(env, key, n) ==> MaxIterations(env) == Clamp(n, 1, 10))
            && ((forall x :: !Sets(env, key, x)) ==> MaxIterations(env) == 5)
    ensures var key := "AGENT_OPS_BOOTSTRAP_MAX_SUPERVISOR_TURNS";
            && (Sets(env, key, n) ==> MaxSupervisorTurns(env) == Clamp(n, 1, 600))
            && ((forall x :: !Sets(env, key, x)) ==> MaxSupervisorTurns(env) == 60)
    ensures var key := "AGENT_OPS_BOOTSTRAP_CHECK_INTERVAL_S";
            && (Sets(env, key, n) ==> CheckInterval(env) == Clamp(n, 5, 300))
            && ((forall x :: !Sets(env, key, x)) ==> CheckInterval(env) == 30)
    ensures var key := "AGENT_OPS_BOOTSTRAP_VERIFY_PORT";
            && (Sets(env, key, n) ==> VerifyPort(env) == if n <= 65535 then n else 0)
            && ((forall x :: !Sets(env, key, x)) ==> VerifyPort(env) == 0)
  {
    VarIs(env, "AGENT_OPS_BOOTSTRAP_MAX_ITERATIONS");
    VarIs(env, "AGENT_OPS_BOOTSTRAP_MAX_SUPERVISOR_TURNS");
    VarIs(env, "AGENT_OPS_BOOTSTRAP_CHECK_INTERVAL_S");
    VarIs(env, "AGENT_OPS_BOOTSTRAP_VERIFY_PORT");
  }
}
