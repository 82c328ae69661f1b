/** How much a bootstrap can really overspend: internal/bootstrap/agent_script.go:404-443 and 754-763.
    The worst case allowed by the caps is reached by some run exactly under the condition below. */
module SpendLimit {
  import opened Common
  import opened Supervise
  import opened Bootstrap

  /** The most one attempt can cost. */
  function Attempt(s: Settings, plan: nat, turn: nat): nat { Product(s.maxTurns, turn) + plan }

  function Product(a: nat, b: nat): (p: nat)
    ensures p == a * b
  {
    var p := a * b;
    assert 0 <= p;
    p
  }

  function Limit(s: Settings, plan: nat, turn: nat): int { s.budget - 1 + Attempt(s, plan, turn) }

  /** With one micro-dollar left, an attempt can still cost all it may: the mid-run guard, which looks for a
      remainder of exactly zero, never sees one. */
  predicate LastInFull(s: Settings, plan: nat, turn: nat) {
    plan >= 2 || Product(s.maxTurns, turn) == 0 || (plan == 0 && (turn >= 2 || s.maxTurns == 1))
  }

  /** The attempts before the last can spend all but that one micro-dollar. */
  predicate ReachesBrink(s: Settings, plan: nat, turn: nat) { s.budget - 1 <= (s.maxIter - 1) * Attempt(s, plan, turn) }

  // ---- No other settings reach it -----------------------------------------------------

  lemma WatchStopsAtZero(c: Config, o: Turns, last: Turn, n: nat, r: Result)
    requires n <= c.maxTurns && c.remaining == r.cost
    ensures Watch(c, o, last, n, r).cost == r.cost
  {
  }

  /** With one micro-dollar left, turns of one micro-dollar each stop after the first. */
  lemma OneLeft(c: Config, o: Turns, last: Turn)
    requires CostsWithin(o, 1) && c.startOk && c.remaining == 1 && c.maxTurns >= 2
    ensures Script(c, o, last).cost < c.maxTurns
  {
    match OneTurn(c, o(1), 1, BLANK)
    case Stop(r) => assert r.cost <= 1;
    case Go(r) =>
      if r.cost == 1 {
        WatchStopsAtZero(c, o, last, 2, r);
      } else {
        WatchCost(c, o, last, 2, r, 1);
      }
  }

  lemma FullRun(s: Settings, it: Iter, a: Acc, plan: nat, turn: nat)
    requires s.budget > 0 && 0 <= it.plan.cost <= plan && CostsWithin(it.turns, turn) && a.cost == s.budget - 1
    requires OneIteration(s, it, a).0.cost == a.cost + Attempt(s, plan, turn)
    ensures LastInFull(s, plan, turn)
  {
    var c := RunConfig(s, a.cost + it.plan.cost, it);
    ScriptCost(c, it.turns, it.last, turn);
    if plan == 1 && Product(s.maxTurns, turn) > 0 && it.startOk {
      assert s.maxTurns >= 1;
      WatchStopsAtZero(c, it.turns, it.last, 1, BLANK);
    }
    if plan == 0 && turn == 1 && s.maxTurns >= 2 && it.startOk {
      OneLeft(c, it.turns, it.last);
    }
  }

  lemma AttemptBelow(s: Settings, it: Iter, n: nat, a: Acc, plan: nat, turn: nat)
    requires s.budget > 0 && 0 <= it.plan.cost <= plan && CostsWithin(it.turns, turn) && 1 <= n <= s.maxIter
    requires 0 <= a.cost <= (n - 1) * Attempt(s, plan, turn) && a.cost < s.budget
    ensures var cost := OneIteration(s, it, a).0.cost;
            && a.cost <= cost <= n * Attempt(s, plan, turn) && cost <= Limit(s, plan, turn)
            && (cost == Limit(s, plan, turn) ==> ReachesBrink(s, plan, turn) && LastInFull(s, plan, turn))
  {
    var cap := Attempt(s, plan, turn);
    IterationCost(s, it, a, plan, turn);
    assert n * cap == (n - 1) * cap + cap;
    if OneIteration(s, it, a).0.cost == Limit(s, plan, turn) {
      FullRun(s, it, a, plan, turn);
      assert (n - 1) * cap <= (s.maxIter - 1) * cap;
    }
  }

  lemma {:induction false} IterateBelow(s: Settings, o: Iters, n: nat, a: Acc, plan: nat, turn: nat)
    requires s.budget > 0 && CostsCapped(o, plan, turn) && n >= 1
    requires 0 <= a.cost <= (n - 1) * Attempt(s, plan, turn) && a.cost < Limit(s, plan, turn)
    ensures Iterate(s, o, n, a).1.cost == Limit(s, plan, turn) ==>
              ReachesBrink(s, plan, turn) && LastInFull(s, plan, turn)
    decreases s.maxIter + 1 - n
  {
    if n <= s.maxIter && !o(n).ctxDone && !GateClosed(s, a) {
      var (b, done) := OneIteration(s, o(n), a);
      AttemptBelow(s, o(n), n, a, plan, turn);
      if b.cost < Limit(s, plan, turn) && !done { IterateBelow(s, o, n + 1, b, plan, turn); }
    }
  }

  // ---- These do -----------------------------------------------------------------------

  /** The cost of turn j when a run is to cost rest in turns of at most turn each. */
  function Slice(rest: nat, turn: nat, j: nat): (c: nat)
    ensures c <= turn
  {
    var before := (j - 1) * turn;
    if j == 0 || rest <= before then 0 else if rest - before <= turn then rest - before else turn
  }

  function Undecided(cost: nat): Turn {
    Turn(IntervalOver, Alive, None, 0, CliError(cost), true)
  }

  /** What the first n turns of such a run cost. */
  function Upto(rest: nat, turn: nat, n: nat): nat {
    if rest <= Product(n, turn) then rest else Product(n, turn)
  }

  lemma SliceStep(rest: nat, turn: nat, n: nat)
    requires n >= 1
    ensures Upto(rest, turn, n) == Upto(rest, turn, n - 1) + Slice(rest, turn, n)
  {
    assert n * turn == (n - 1) * turn + turn;
  }

  /** The turns of such a run never leave a remainder of zero. */
  ghost predicate AvoidsZero(c: Config, rest: nat, turn: nat) {
    forall k: nat :: k < c.maxTurns ==> c.remaining != Upto(rest, turn, k)
  }

  lemma {:induction false} WatchSlices(c: Config, rest: nat, turn: nat, last: Turn, n: nat, r: Result)
    requires 1 <= n <= c.maxTurns + 1 && r.cost == Upto(rest, turn, n - 1)
    requires AvoidsZero(c, rest, turn)
    ensures var w := Watch(c, (j: nat) => Undecided(Slice(rest, turn, j)), last, n, r);
            w.cost == Upto(rest, turn, c.maxTurns) && w.verdict == "intervene"
    decreases c.maxTurns + 1 - n
  {
    if n <= c.maxTurns {
      var o: Turns := (j: nat) => Undecided(Slice(rest, turn, j));
      SliceStep(rest, turn, n);
      assert c.remaining != Upto(rest, turn, n - 1);
      WatchSlices(c, rest, turn, last, n + 1, OneTurn(c, o(n), n, r).r);
    }
  }

  /** An attempt that costs want: first the planner up to its cap, then the turns. */
  function Spending(want: nat, plan: nat, turn: nat): Iter {
    var p := if want <= plan then want else plan;
    Iter(false, Plan(p, false, true), true, (j: nat) => Undecided(Slice(want - p, turn, j)), Undecided(0), 0)
  }

  lemma SpendingCapped(want: nat, plan: nat, turn: nat)
    ensures Spending(want, plan, turn).plan.cost <= plan && CostsWithin(Spending(want, plan, turn).turns, turn)
  {
    var it := Spending(want, plan, turn);
    forall n | !it.turns(n).reply.CheckError? ensures 0 <= it.turns(n).reply.cost <= turn {
      assert it.turns(n) == Undecided(Slice(want - it.plan.cost, turn, n));
    }
  }

  /** A run whose turns are to cost rest costs just that, unless the budget is gone before: if it is gone
      exactly then, the guard stops the run on the spot. */
  lemma {:induction false} WatchReaches(c: Config, rest: nat, turn: nat, last: Turn, n: nat, r: Result)
    requires 1 <= n <= c.maxTurns + 1 && r.cost == Upto(rest, turn, n - 1)
    requires rest <= c.remaining && rest <= Product(c.maxTurns, turn)
    ensures var w := Watch(c, (j: nat) => Undecided(Slice(rest, turn, j)), last, n, r);
            w.cost == rest && w.verdict == "intervene"
    decreases c.maxTurns + 1 - n
  {
    if n <= c.maxTurns {
      var o: Turns := (j: nat) => Undecided(Slice(rest, turn, j));
      SliceStep(rest, turn, n);
      match OneTurn(c, o(n), n, r)
      case Stop(_) =>
      case Go(r') => WatchReaches(c, rest, turn, last, n + 1, r');
    }
  }

  lemma SpendingCosts(s: Settings, a: Acc, want: nat, plan: nat, turn: nat)
    requires s.budget > 0 && 0 <= a.cost && want <= Attempt(s, plan, turn) && a.cost + want <= s.budget
    ensures var (b, done) := OneIteration(s, Spending(want, plan, turn), a); b.cost == a.cost + want && !done
  {
    var it := Spending(want, plan, turn);
    var p := it.plan.cost;
    var c := RunConfig(s, a.cost + p, it);
    WatchReaches(c, want - p, turn, it.last, 1, BLANK);
  }

  lemma NoZero(s: Settings, plan: nat, turn: nat, k: nat)
    requires LastInFull(s, plan, turn) && Product(s.maxTurns, turn) > 0 && k < s.maxTurns
    ensures 1 - plan != Upto(Product(s.maxTurns, turn), turn, k)
  {
    assert k * turn <= s.maxTurns * turn;
    assert k >= 1 ==> k * turn >= turn;
  }

  lemma LastCosts(s: Settings, a: Acc, plan: nat, turn: nat)
    requires s.budget > 0 && a.cost == s.budget - 1 && LastInFull(s, plan, turn)
    ensures OneIteration(s, Spending(Attempt(s, plan, turn), plan, turn), a).0.cost == Limit(s, plan, turn)
  {
    var it := Spending(Attempt(s, plan, turn), plan, turn);
    var c := RunConfig(s, a.cost + plan, it);
    if Product(s.maxTurns, turn) == 0 {
      SpendingCapped(Attempt(s, plan, turn), plan, turn);
      ScriptCost(c, it.turns, it.last, turn);
    } else {
      forall k: nat | k < s.maxTurns ensures c.remaining != Upto(Product(s.maxTurns, turn), turn, k) {
        NoZero(s, plan, turn, k);
      }
      WatchSlices(c, Product(s.maxTurns, turn), turn, it.last, 1, BLANK);
    }
  }

  /** Spends up to the goal in attempts as costly as they may be, then whole attempts. */
  function Spender(s: Settings, goal: nat, plan: nat, turn: nat): Iters {
    (n: nat) => Spending(Want(s, goal, plan, turn, n), plan, turn)
  }

  function Want(s: Settings, goal: nat, plan: nat, turn: nat, n: nat): (w: nat)
    ensures w <= Attempt(s, plan, turn)
  {
    var cap := Attempt(s, plan, turn);
    var left := goal - (n - 1) * cap;
    if n >= 1 && 0 < left <= cap then left else cap
  }

  lemma SpenderCapped(s: Settings, goal: nat, plan: nat, turn: nat)
    ensures CostsCapped(Spender(s, goal, plan, turn), plan, turn)
  {
    var o := Spender(s, goal, plan, turn);
    forall n: nat ensures 0 <= o(n).plan.cost <= plan && CostsWithin(o(n).turns, turn) {
      SpendingCapped(Want(s, goal, plan, turn, n), plan, turn);
    }
  }

  /** What it has spent before attempt n. */
  function Before(s: Settings, goal: nat, plan: nat, turn: nat, n: nat): int {
    var spent := (n - 1) * Attempt(s, plan, turn);
    if spent <= goal then spent else goal
  }

  lemma SpenderStep(s: Settings, goal: nat, plan: nat, turn: nat, n: nat, a: Acc)
    requires s.budget > 0 && goal <= s.budget && goal <= (s.maxIter - 1) * Attempt(s, plan, turn) && 1 <= n <= s.maxIter
    requires a.cost == Before(s, goal, plan, turn, n) < goal
    ensures var (b, done) := OneIteration(s, Spender(s, goal, plan, turn)(n), a);
            b.cost == Before(s, goal, plan, turn, n + 1) && !done && n < s.maxIter
  {
    var cap := Attempt(s, plan, turn);
    assert n * cap == (n - 1) * cap + cap;
    assert 0 <= (n - 1) * cap;
    SpendingCosts(s, a, Want(s, goal, plan, turn, n), plan, turn);
    assert n == s.maxIter ==> (n - 1) * cap == (s.maxIter - 1) * cap;
  }

  lemma {:induction false} SpenderReaches(s: Settings, plan: nat, turn: nat, n: nat, a: Acc)
    requires s.budget > 0 && ReachesBrink(s, plan, turn) && LastInFull(s, plan, turn) && Attempt(s, plan, turn) > 0
    requires 1 <= n <= s.maxIter && a.cost == Before(s, s.budget - 1, plan, turn, n)
    ensures Iterate(s, Spender(s, s.budget - 1, plan, turn), n, a).1.cost == Limit(s, plan, turn)
    decreases s.maxIter + 1 - n
  {
    var o := Spender(s, s.budget - 1, plan, turn);
    var (b, done) := OneIteration(s, o(n), a);
    if a.cost == s.budget - 1 {
      WantInFull(s, s.budget - 1, plan, turn, n);
      LastCosts(s, a, plan, turn);
      assert done || Iterate(s, o, n + 1, b).1 == b;
    } else {
      SpenderStep(s, s.budget - 1, plan, turn, n, a);
      SpenderReaches(s, plan, turn, n + 1, b);
    }
  }

  lemma WantInFull(s: Settings, goal: nat, plan: nat, turn: nat, n: nat)
    requires Before(s, goal, plan, turn, n) == goal
    ensures Want(s, goal, plan, turn, n) == Attempt(s, plan, turn)
  {
  }

  /** The total of a bootstrap with the given oracle. */
  function Total(s: Settings, o: Iters): int { Spent(Bootstrap.Bootstrap(s, o).1.log) }

  lemma TotalIsCost(s: Settings, o: Iters)
    ensures Total(s, o) == Bootstrap.Bootstrap(s, o).1.cost
  {
    BootstrapReported(s, o);
  }

  /** Some run with planner calls of at most plan and supervisor calls of at most turn overspends by all that
      one attempt may cost, if and only if the earlier attempts can spend all but one micro-dollar of the budget
      and the mid-run guard does not meet a remainder of exactly zero in the last one. */
  lemma BoundAttainedIff(s: Settings, plan: nat, turn: nat)
    requires s.budget > 0
    ensures (exists o :: CostsCapped(o, plan, turn) && Total(s, o) == Limit(s, plan, turn)) <==>
              ReachesBrink(s, plan, turn) && LastInFull(s, plan, turn)
  {
    if ReachesBrink(s, plan, turn) && LastInFull(s, plan, turn) {
      SpenderCapped(s, s.budget - 1, plan, turn);
      SpenderTotal(s, plan, turn);
    }
    forall o | CostsCapped(o, plan, turn) && Total(s, o) == Limit(s, plan, turn)
      ensures ReachesBrink(s, plan, turn) && LastInFull(s, plan, turn)
    {
      TotalIsCost(s, o);
      OnlyIf(s, o, plan, turn);
    }
  }

  lemma FactorNotNegative(m: int, cap: int)
    requires cap > 0 && 0 <= m * cap
    ensures m >= 0
  {
    assert m < 0 ==> m * cap <= -cap;
  }

  lemma SpenderTotal(s: Settings, plan: nat, turn: nat)
    requires s.budget > 0 && ReachesBrink(s, plan, turn) && LastInFull(s, plan, turn)
    ensures Total(s, Spender(s, s.budget - 1, plan, turn)) == Limit(s, plan, turn)
  {
    var o, cap := Spender(s, s.budget - 1, plan, turn), Attempt(s, plan, turn);
    TotalIsCost(s, o);
    if cap == 0 {
      SpenderCapped(s, s.budget - 1, plan, turn);
      NothingSpent(s, o, 1, START, turn);
    } else {
      FactorNotNegative(s.maxIter - 1, cap);
      SpenderReaches(s, plan, turn, 1, START);
    }
  }

  lemma {:induction false} NothingSpent(s: Settings, o: Iters, n: nat, a: Acc, turn: nat)
    requires CostsCapped(o, 0, turn) && Attempt(s, 0, turn) == 0
    ensures Iterate(s, o, n, a).1.cost == a.cost
    decreases s.maxIter + 1 - n
  {
    if n <= s.maxIter && !o(n).ctxDone && !GateClosed(s, a) {
      IterationCost(s, o(n), a, 0, turn);
      var (b, done) := OneIteration(s, o(n), a);
      if !done { NothingSpent(s, o, n + 1, b, turn); }
    }
  }

  lemma OnlyIf(s: Settings, o: Iters, plan: nat, turn: nat)
    requires s.budget > 0 && CostsCapped(o, plan, turn) && Bootstrap.Bootstrap(s, o).1.cost == Limit(s, plan, turn)
    ensures ReachesBrink(s, plan, turn) && LastInFull(s, plan, turn)
  {
    if Limit(s, plan, turn) > 0 {
      IterateBelow(s, o, 1, START, plan, turn);
    } else {
      assert Attempt(s, plan, turn) == 0;
    }
  }

  // ---- When the budget gate cuts the loop short -------------------------------------------

  lemma {:induction false} GateNeeds(s: Settings, o: Iters, n: nat, a: Acc, plan: nat, turn: nat)
    requires s.budget > 0 && CostsCapped(o, plan, turn) && n >= 1 && a.cause != Some(BudgetGate)
    requires 0 <= a.cost <= (n - 1) * Attempt(s, plan, turn)
    ensures GatedOut(Iterate(s, o, n, a).0) ==> s.budget <= (s.maxIter - 1) * Attempt(s, plan, turn)
    decreases s.maxIter + 1 - n
  {
    if n <= s.maxIter && !o(n).ctxDone {
      if GateClosed(s, a) {
        assert (n - 1) * Attempt(s, plan, turn) <= (s.maxIter - 1) * Attempt(s, plan, turn);
      } else {
        var (b, done) := OneIteration(s, o(n), a);
        AttemptBelow(s, o(n), n, a, plan, turn);
        if !done { GateNeeds(s, o, n + 1, b, plan, turn); }
      }
    }
  }

  lemma {:induction false} GateReached(s: Settings, plan: nat, turn: nat, n: nat, a: Acc)
    requires s.budget > 0 && s.budget <= (s.maxIter - 1) * Attempt(s, plan, turn) && 1 <= n <= s.maxIter
    requires a.cost == Before(s, s.budget, plan, turn, n)
    ensures GatedOut(Iterate(s, Spender(s, s.budget, plan, turn), n, a).0)
    decreases s.maxIter + 1 - n
  {
    if a.cost < s.budget {
      SpenderStep(s, s.budget, plan, turn, n, a);
      var (b, done) := OneIteration(s, Spender(s, s.budget, plan, turn)(n), a);
      GateReached(s, plan, turn, n + 1, b);
    }
  }

  /** The budget gate can cut the loop short, and the reported number of attempts then be too large, in some
      run within the caps if and only if all attempts but the last can spend the budget. */
  lemma MiscountIff(s: Settings, plan: nat, turn: nat)
    requires s.budget > 0
    ensures (exists o :: CostsCapped(o, plan, turn) && GatedOut(Bootstrap.Bootstrap(s, o).0)) <==>
              s.budget <= (s.maxIter - 1) * Attempt(s, plan, turn)
  {
    forall o | CostsCapped(o, plan, turn) && GatedOut(Bootstrap.Bootstrap(s, o).0)
      ensures s.budget <= (s.maxIter - 1) * Attempt(s, plan, turn)
    {
      GateNeeds(s, o, 1, START, plan, turn);
    }
    if s.budget <= (s.maxIter - 1) * Attempt(s, plan, turn) {
      GateSpender(s, plan, turn);
    }
  }

  lemma GateSpender(s: Settings, plan: nat, turn: nat)
    requires s.budget > 0 && s.budget <= (s.maxIter - 1) * Attempt(s, plan, turn)
    ensures var o := Spender(s, s.budget, plan, turn);
            CostsCapped(o, plan, turn) && GatedOut(Bootstrap.Bootstrap(s, o).0)
  {
    SpenderCapped(s, s.budget, plan, turn);
    SomeAttempts(s.maxIter - 1, Attempt(s, plan, turn));
    GateReached(s, plan, turn, 1, START);
  }

  lemma SomeAttempts(m: int, cap: nat)
    requires 0 < m * cap
    ensures m > 0
  {
    assert m <= 0 ==> m * cap <= 0;
  }
}
