/** The plan / supervise / intervene loop: internal/bootstrap/agent_script.go:333-569 and 1019-1096. */
module Bootstrap {
  import opened Common
  import Text
  import opened Supervise

  // ---- Limits read from the environment -------------------------------------

  type Env = map<string, string>

  /** A trimmed, non-empty, positive 64-bit integer, if the variable holds one. */
  function PositiveVar(env: Env, key: string): (r: Option<int>)
    ensures r.Some? ==> r.value > 0
  {
    var v := if key in env then Text.TrimSpace(env[key]) else "";
    if v == "" then None
    else match Text.Atoi(v)
      case Some(n) => if n > 0 then Some(n) else None
      case None => None
  }

  function MaxIterations(env: Env): (n: nat)
    ensures 1 <= n <= 10
  {
    match PositiveVar(env, "AGENT_OPS_BOOTSTRAP_MAX_ITERATIONS")
    case Some(n) => if n > 10 then 10 else n
    case None => 5
  }

  function MaxSupervisorTurns(env: Env): (n: nat)
    ensures 1 <= n <= 600
  {
    match PositiveVar(env, "AGENT_OPS_BOOTSTRAP_MAX_SUPERVISOR_TURNS")
    case Some(n) => if n > 600 then 600 else n
    case None => 60
  }

  /** Seconds between two polls. */
  function CheckInterval(env: Env): (n: nat)
    ensures 5 <= n <= 300
  {
    match PositiveVar(env, "AGENT_OPS_BOOTSTRAP_CHECK_INTERVAL_S")
    case Some(n) => if n < 5 then 5 else if n > 300 then 300 else n
    case None => 30
  }

  function VerifyPort(env: Env): (n: nat)
    ensures n < 65536
  {
    match PositiveVar(env, "AGENT_OPS_BOOTSTRAP_VERIFY_PORT")
    case Some(n) => if n < 65536 then n else 0
    case None => 0
  }

  // ---- Oracles ------------------------------------------------------------------

  datatype Plan = Plan(cost: int, fails: bool, scriptWritten: bool)

  /** Everything one iteration meets. startOk covers the log files and starting bash; exit is the
      code read when the run is reaped. */
  datatype Iter = Iter(ctxDone: bool, plan: Plan, startOk: bool, turns: Turns, last: Turn, exit: int)

  type Iters = nat -> Iter

  // ---- What the loop leaves behind ----------------------------------------------------

  /** What the planner was told about the previous attempt. */
  datatype Context = Context(prevExit: int, prevReason: Reason)

  datatype IterLog = IterLog(told: Context, planCost: int, ran: bool, exit: int, run: Result)

  datatype Status = Status(success: bool, iterations: nat, turns: nat, cost: int, verdict: string)

  datatype Cause = PlannerFailed | NoScript | RunFailed(f: Failure) | Intervened | BudgetGate

  datatype Outcome =
    | Succeeded(status: Status)
    | Exhausted(status: Status, cause: Option<Cause>)
    | ContextCancelled(at: nat)

  /** budget 0 switches the gate off. */
  datatype Settings = Settings(maxIter: nat, maxTurns: nat, port: int, budget: nat, decode: Decoder)

  /** Loop variables: total cost and turns so far, retry context, last error, last verdict, log. */
  datatype Acc = Acc(cost: int, turns: nat, ctx: Context, cause: Option<Cause>, verdict: string, log: seq<IterLog>)

  const START := Acc(0, 0, Context(0, NoReason), None, "", [])

  function RunConfig(s: Settings, totalCost: int, it: Iter): Config {
    Config(s.maxTurns, s.port, if s.budget <= 0 then -1 else s.budget - totalCost, it.startOk, s.decode)
  }

  /** How one iteration transforms the loop variables; the flag says the bootstrap succeeded. */
  function OneIteration(s: Settings, it: Iter, a: Acc): (Acc, bool) {
    var cost := a.cost + it.plan.cost;
    if it.plan.fails then
      (Acc(cost, a.turns, Context(-1, PlannerFailure), Some(PlannerFailed), a.verdict,
           a.log + [IterLog(a.ctx, it.plan.cost, false, -1, BLANK)]), false)
    else if !it.plan.scriptWritten then
      (Acc(cost, a.turns, Context(-1, NoScriptFile), Some(NoScript), a.verdict,
           a.log + [IterLog(a.ctx, it.plan.cost, false, -1, BLANK)]), false)
    else
      var r := Script(RunConfig(s, cost, it), it.turns, it.last);
      var exit := if it.startOk then it.exit else -1;
      var cause := if r.err.Some? then Some(RunFailed(r.err.value))
                   else if a.cause.None? then Some(Intervened)
                   else a.cause;
      (Acc(cost + r.cost, a.turns + r.turns, Context(exit, r.reason), cause, r.verdict,
           a.log + [IterLog(a.ctx, it.plan.cost, true, exit, r)]),
       r.err.None? && r.verdict == "done")
  }

  predicate GateClosed(s: Settings, a: Acc) { s.budget > 0 && a.cost >= s.budget }

  /** The loop from iteration n on, with its outcome and final log. */
  function Iterate(s: Settings, o: Iters, n: nat, a: Acc): (Outcome, Acc)
    decreases s.maxIter + 1 - n
  {
    if n > s.maxIter then (Exhausted(Status(false, s.maxIter, a.turns, a.cost, a.verdict), a.cause), a)
    else if o(n).ctxDone then (ContextCancelled(n), a)
    else if GateClosed(s, a) then
      (Exhausted(Status(false, s.maxIter, a.turns, a.cost, a.verdict), Some(BudgetGate)), a)
    else
      var (b, done) := OneIteration(s, o(n), a);
      if done then (Succeeded(Status(true, n, b.turns, b.cost, "done")), b)
      else Iterate(s, o, n + 1, b)
  }

  function Bootstrap(s: Settings, o: Iters): (Outcome, Acc) { Iterate(s, o, 1, START) }

  // ---- The loop as the source runs it ---------------------------------------------------

  method RunAgentScriptBootstrap(s: Settings, o: Iters) returns (out: Outcome, log: seq<IterLog>)
    ensures (out, log) == (Bootstrap(s, o).0, Bootstrap(s, o).1.log)
  {
    log := [];
    var prevExit, prevReason := 0, NoReason;
    var totalCost: int, totalTurns: nat := 0, 0;
    var lastError: Option<Cause> := None;
    var finalVerdict := "";
    var iter := 1;
    while iter <= s.maxIter
      invariant 1 <= iter <= s.maxIter + 1
      invariant Bootstrap(s, o)
             == Iterate(s, o, iter, Acc(totalCost, totalTurns, Context(prevExit, prevReason),
                                        lastError, finalVerdict, log))
    {
      var it := o(iter);
      if it.ctxDone {
        return ContextCancelled(iter), log;
      }
      if s.budget > 0 && totalCost >= s.budget {
        lastError := Some(BudgetGate);
        break;
      }
      var told := Context(prevExit, prevReason);
      totalCost := totalCost + it.plan.cost;
      if it.plan.fails {
        lastError := Some(PlannerFailed);
        prevExit := -1;
        prevReason := PlannerFailure;
        log := log + [IterLog(told, it.plan.cost, false, -1, BLANK)];
        iter := iter + 1;
        continue;
      }
      if !it.plan.scriptWritten {
        lastError := Some(NoScript);
        prevExit := -1;
        prevReason := NoScriptFile;
        log := log + [IterLog(told, it.plan.cost, false, -1, BLANK)];
        iter := iter + 1;
        continue;
      }
      var res := SuperviseScript(RunConfig(s, totalCost, it), it.turns, it.last);
      var exit := -1;
      if it.startOk {
        exit := it.exit;
      }
      totalCost := totalCost + res.cost;
      totalTurns := totalTurns + res.turns;
      finalVerdict := res.verdict;
      log := log + [IterLog(told, it.plan.cost, true, exit, res)];
      if res.err.None? && res.verdict == "done" {
        return Succeeded(Status(true, iter, totalTurns, totalCost, "done")), log;
      }
      if res.err.Some? {
        lastError := Some(RunFailed(res.err.value));
      }
      prevExit := exit;
      prevReason := res.reason;
      if lastError.None? {
        lastError := Some(Intervened);
      }
      iter := iter + 1;
    }
    out := Exhausted(Status(false, s.maxIter, totalTurns, totalCost, finalVerdict), lastError);
  }

  // ---- Conservation ------------------------------------------------------------------------

  function PlanCosts(log: seq<IterLog>): int {
    if log == [] then 0 else PlanCosts(log[..|log| - 1]) + log[|log| - 1].planCost
  }

  function AuditCosts(log: seq<IterLog>): int {
    if log == [] then 0 else AuditCosts(log[..|log| - 1]) + AuditCost(log[|log| - 1].run.audit)
  }

  function AuditLines(log: seq<IterLog>): nat {
    if log == [] then 0 else AuditLines(log[..|log| - 1]) + |log[|log| - 1].run.audit|
  }

  /** What the planner of the next attempt must hear about this one. */
  predicate Aftermath(l: IterLog, told: Context) {
    if l.ran then told == Context(l.exit, l.run.reason)
    else told.prevExit == -1 && (told.prevReason.PlannerFailure? || told.prevReason.NoScriptFile?)
  }

  /** The context handed to the planner after attempt i. */
  function ToldAfter(log: seq<IterLog>, next: Context, i: nat): Context
    requires i < |log|
  {
    if i + 1 < |log| then log[i + 1].told else next
  }

  ghost predicate Chained(log: seq<IterLog>, next: Context) {
    forall i :: 0 <= i < |log| ==> Aftermath(log[i], ToldAfter(log, next, i))
  }

  /** Every dollar and every turn is in the audit files, and every retry heard why the last attempt ended. */
  ghost predicate Accounted(a: Acc) {
    && a.cost == PlanCosts(a.log) + AuditCosts(a.log)
    && a.turns == AuditLines(a.log)
    && Chained(a.log, a.ctx)
  }

  lemma ScriptBooked(c: Config, o: Turns, last: Turn)
    ensures Booked(Script(c, o, last)) && |Script(c, o, last).audit| <= c.maxTurns
  {
    if c.startOk { RunIsSound(c, o, last); }
  }

  lemma ChainExtends(log: seq<IterLog>, now: Context, l: IterLog, next: Context)
    requires Chained(log, now) && l.told == now && Aftermath(l, next)
    ensures Chained(log + [l], next)
  {
    var all := log + [l];
    forall i | 0 <= i < |all| ensures Aftermath(all[i], ToldAfter(all, next, i)) {
      if i < |log| {
        assert ToldAfter(all, next, i) == ToldAfter(log, now, i);
      }
    }
  }

  lemma IterationAccounted(s: Settings, it: Iter, a: Acc)
    requires Accounted(a)
    ensures Accounted(OneIteration(s, it, a).0)
    ensures |OneIteration(s, it, a).0.log| == |a.log| + 1
  {
    var b := OneIteration(s, it, a).0;
    var l := b.log[|a.log|];
    assert b.log == a.log + [l];
    assert b.log[..|b.log| - 1] == a.log;
    if l.ran {
      ScriptBooked(RunConfig(s, a.cost + it.plan.cost, it), it.turns, it.last);
    }
    ChainExtends(a.log, a.ctx, l, b.ctx);
  }

  predicate GatedOut(out: Outcome) { out.Exhausted? && out.cause == Some(BudgetGate) }

  /** What the final status says about the log. */
  ghost predicate Reported(s: Settings, out: Outcome, b: Acc) {
    && Accounted(b) && |b.log| <= s.maxIter
    && (!out.ContextCancelled? ==> out.status.cost == b.cost && out.status.turns == b.turns)
    && (out.Succeeded? ==> out.status.iterations == |b.log|)
    && (out.Exhausted? ==> out.status.iterations == s.maxIter)
    && (out.Exhausted? ==> (|b.log| == s.maxIter <==> out.cause != Some(BudgetGate)))
    && (GatedOut(out) ==> 0 < s.budget <= b.cost)
  }

  lemma {:induction false} IterateAccounted(s: Settings, o: Iters, n: nat, a: Acc)
    requires Accounted(a) && |a.log| == n - 1 && n <= s.maxIter + 1 && a.cause != Some(BudgetGate)
    ensures Reported(s, Iterate(s, o, n, a).0, Iterate(s, o, n, a).1)
    decreases s.maxIter + 1 - n
  {
    if n <= s.maxIter && !o(n).ctxDone && !GateClosed(s, a) {
      IterationAccounted(s, o(n), a);
      var (b, done) := OneIteration(s, o(n), a);
      if !done { IterateAccounted(s, o, n + 1, b); }
    }
  }

  lemma BootstrapReported(s: Settings, o: Iters)
    ensures Reported(s, Bootstrap(s, o).0, Bootstrap(s, o).1)
  {
    IterateReported(s, o, START);
  }

  lemma IterateReported(s: Settings, o: Iters, a: Acc)
    requires a.cost == 0 && a.turns == 0 && a.log == [] && a.cause.None?
    ensures Reported(s, Iterate(s, o, 1, a).0, Iterate(s, o, 1, a).1)
  {
    IterateAccounted(s, o, 1, a);
  }

  /** Cost and turns of a written status are those of the audit files. */
  ghost predicate Conserved(out: Outcome, b: Acc) {
    && Chained(b.log, b.ctx)
    && (!out.ContextCancelled? ==>
          out.status.cost == PlanCosts(b.log) + AuditCosts(b.log) && out.status.turns == AuditLines(b.log))
  }

  /** Whenever a final status is written, its cost is all planner costs plus all audited supervisor
      costs, its turn count is the number of audit lines, and every retry was told the exit code and
      reason of the attempt just before it. */
  lemma Conservation(s: Settings, o: Iters)
    ensures Conserved(Bootstrap(s, o).0, Bootstrap(s, o).1)
  {
    BootstrapReported(s, o);
  }

  /** The status reports the number of attempts actually made exactly when the budget gate did not cut
      the loop short; when it did, the budget is spent and the configured maximum is reported instead. */
  lemma IterationsReported(s: Settings, o: Iters)
    requires !Bootstrap(s, o).0.ContextCancelled?
    ensures Bootstrap(s, o).0.status.iterations == |Bootstrap(s, o).1.log| <==> !GatedOut(Bootstrap(s, o).0)
    ensures GatedOut(Bootstrap(s, o).0) ==> Bootstrap(s, o).0.status.iterations == s.maxIter > |Bootstrap(s, o).1.log|
    ensures GatedOut(Bootstrap(s, o).0) ==> 0 < s.budget <= Bootstrap(s, o).0.status.cost
  {
    BootstrapReported(s, o);
    ReportedCounts(s, Bootstrap(s, o).0, Bootstrap(s, o).1);
  }

  lemma ReportedCounts(s: Settings, out: Outcome, b: Acc)
    requires Reported(s, out, b) && !out.ContextCancelled?
    ensures out.status.iterations == |b.log| <==> !GatedOut(out)
    ensures GatedOut(out) ==> out.status.iterations == s.maxIter > |b.log| && 0 < s.budget <= out.status.cost
  {
  }

  ghost predicate PollsWithin(log: seq<IterLog>, max: nat) { forall l :: l in log ==> |l.run.audit| <= max }

  /** Work is bounded by the clamps: at most ten plans, at most 600 polls in each attempt. */
  lemma WorkBounded(env: Env, s: Settings, o: Iters)
    requires s.maxIter == MaxIterations(env) && s.maxTurns == MaxSupervisorTurns(env)
    ensures |Bootstrap(s, o).1.log| <= 10 && PollsWithin(Bootstrap(s, o).1.log, 600)
  {
    BootstrapReported(s, o);
    LogsBounded(s, o, 1, START);
    assert PollsWithin(Bootstrap(s, o).1.log, s.maxTurns);
  }

  lemma {:induction false} LogsBounded(s: Settings, o: Iters, n: nat, a: Acc)
    requires PollsWithin(a.log, s.maxTurns)
    ensures PollsWithin(Iterate(s, o, n, a).1.log, s.maxTurns)
    decreases s.maxIter + 1 - n
  {
    if n <= s.maxIter && !o(n).ctxDone && !GateClosed(s, a) {
      var it := o(n);
      ScriptBooked(RunConfig(s, a.cost + it.plan.cost, it), it.turns, it.last);
      var (b, done) := OneIteration(s, it, a);
      if !done { LogsBounded(s, o, n + 1, b); }
    }
  }

  // ---- The spend budget --------------------------------------------------------------------

  ghost predicate CostsCapped(o: Iters, plan: nat, turn: nat) {
    forall n :: 0 <= o(n).plan.cost <= plan && CostsWithin(o(n).turns, turn)
  }

  function Spent(log: seq<IterLog>): int { PlanCosts(log) + AuditCosts(log) }

  /** Every attempt began with less than the budget spent. */
  ghost predicate StartedWithin(log: seq<IterLog>, budget: nat) {
    forall i :: 0 <= i < |log| ==> Spent(log[..i]) < budget
  }

  lemma IterationCost(s: Settings, it: Iter, a: Acc, plan: nat, turn: nat)
    requires 0 <= it.plan.cost <= plan && CostsWithin(it.turns, turn)
    ensures a.cost <= OneIteration(s, it, a).0.cost <= a.cost + plan + s.maxTurns * turn
  {
    ScriptCost(RunConfig(s, a.cost + it.plan.cost, it), it.turns, it.last, turn);
  }

  /** Every attempt began within the budget, and the total exceeds it by less than one attempt may cost. */
  ghost predicate SpendOk(a: Acc, budget: nat, attempt: nat) {
    Accounted(a) && StartedWithin(a.log, budget) && a.cost <= budget - 1 + attempt
  }

  lemma IterationSpend(s: Settings, it: Iter, a: Acc, plan: nat, turn: nat, attempt: nat)
    requires 0 <= it.plan.cost <= plan && CostsWithin(it.turns, turn) && attempt == plan + s.maxTurns * turn
    requires SpendOk(a, s.budget, attempt) && a.cost < s.budget
    ensures SpendOk(OneIteration(s, it, a).0, s.budget, attempt)
  {
    IterationAccounted(s, it, a);
    IterationCost(s, it, a, plan, turn);
    var log := OneIteration(s, it, a).0.log;
    assert log[..|a.log|] == a.log;
    forall i | 0 <= i < |log| ensures Spent(log[..i]) < s.budget {
      assert i < |a.log| ==> log[..i] == a.log[..i];
    }
  }

  lemma {:induction false} IterateSpend(s: Settings, o: Iters, n: nat, a: Acc, plan: nat, turn: nat, attempt: nat)
    requires s.budget > 0 && CostsCapped(o, plan, turn) && attempt == plan + s.maxTurns * turn
    requires SpendOk(a, s.budget, attempt)
    ensures SpendOk(Iterate(s, o, n, a).1, s.budget, attempt)
    decreases s.maxIter + 1 - n
  {
    if n <= s.maxIter && !o(n).ctxDone && !GateClosed(s, a) {
      IterationSpend(s, o(n), a, plan, turn, attempt);
      var (b, done) := OneIteration(s, o(n), a);
      if !done { IterateSpend(s, o, n + 1, b, plan, turn, attempt); }
    }
  }

  /** With a budget B and non-negative costs, no attempt starts once B is spent and the total never
      exceeds (B-1) plus one planner call plus one attempt's worth of supervisor calls. */
  lemma SpendBound(s: Settings, o: Iters, plan: nat, turn: nat)
    requires s.budget > 0 && CostsCapped(o, plan, turn)
    ensures Spent(Bootstrap(s, o).1.log) <= s.budget - 1 + plan + s.maxTurns * turn
    ensures StartedWithin(Bootstrap(s, o).1.log, s.budget)
  {
    assert 0 <= s.maxTurns * turn;
    var attempt := plan + s.maxTurns * turn;
    IterateSpend(s, o, 1, START, plan, turn, attempt);
    assert SpendOk(Bootstrap(s, o).1, s.budget, attempt);
  }
}
