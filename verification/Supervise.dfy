/** One supervised run of an install script: internal/bootstrap/agent_script.go:603-982.
    The process, the clock, the port probe and the supervisor model are oracles; everything
    below holds for every oracle. Costs are micro-dollars. */
module Supervise {
  import opened Common
  import Text
  import JsonSpan

  // ---- Verdict parsing ----------------------------------------------------

  datatype Verdict = Verdict(verdict: string, note: string, reason: string)

  const VERDICTS := ["done", "continue", "intervene"]

  type Decoder = string -> Option<Verdict>

  /** What every reply that cannot be understood counts as; the wording of its note is left out. */
  const KEEP_WATCHING := Verdict("continue", "", "")

  /** decode is encoding/json into the verdict struct. The flag is the returned error. */
  function ParseVerdict(s: string, decode: Decoder): (Verdict, bool) {
    match JsonSpan.Extract(s)
    case None => (KEEP_WATCHING, false)
    case Some(raw) =>
      match decode(raw)
      case None => (KEEP_WATCHING, false)
      case Some(v) =>
        var word := Text.Lower(Text.TrimSpace(v.verdict));
        if word in VERDICTS then (v.(verdict := word), true) else (KEEP_WATCHING, false)
  }

  /** raw is the balanced object at the first brace of s, and it decodes to this word up to case and spaces. */
  ghost predicate WordObject(s: string, raw: string, word: string, decode: Decoder) {
    && JsonSpan.IsSpan(s, raw) && decode(raw).Some?
    && Text.Lower(Text.TrimSpace(decode(raw).value.verdict)) == word
  }

  ghost predicate DoneObject(s: string, raw: string, decode: Decoder) { WordObject(s, raw, "done", decode) }

  lemma SpanIsExtracted(s: string)
    ensures forall raw :: JsonSpan.Extract(s) == Some(raw) <==> JsonSpan.IsSpan(s, raw)
  {
    forall raw ensures JsonSpan.Extract(s) == Some(raw) <==> JsonSpan.IsSpan(s, raw) {
      JsonSpan.ExtractExact(s, raw);
    }
  }

  /** A reply is read as one of the three words exactly when its first balanced object decodes to it, and then
      with the note and reason of that object. Prose, broken JSON and unknown words mean "keep watching". */
  lemma VerdictIff(s: string, decode: Decoder, word: string)
    requires word == "done" || word == "continue" || word == "intervene"
    ensures var r := ParseVerdict(s, decode);
            && (r.1 && r.0.verdict == word <==> exists raw :: WordObject(s, raw, word, decode))
            && (forall raw :: WordObject(s, raw, word, decode) ==>
                  r.0.note == decode(raw).value.note && r.0.reason == decode(raw).value.reason)
            && (!r.1 ==> r.0 == KEEP_WATCHING)
  {
    SpanIsExtracted(s);
    assert VERDICTS[0] == "done" && VERDICTS[1] == "continue" && VERDICTS[2] == "intervene";
    assert word in VERDICTS;
    var r := ParseVerdict(s, decode);
    if r.1 && r.0.verdict == word { assert WordObject(s, JsonSpan.Extract(s).value, word, decode); }
  }

  /** Only a reply whose first balanced object decodes to "done" (up to case and spaces) is a done. */
  lemma DoneNeedsDoneObject(s: string, decode: Decoder)
    ensures var r := ParseVerdict(s, decode);
            && r.0.verdict in VERDICTS
            && (!r.1 ==> r.0.verdict == "continue")
            && (r.0.verdict == "done" <==> exists raw :: DoneObject(s, raw, decode))
  {
    VerdictIff(s, decode, "done");
    SpanIsExtracted(s);
    forall raw ensures DoneObject(s, raw, decode) <==> WordObject(s, raw, "done", decode) {}
  }

  // ---- Oracles ---------------------------------------------------------------

  datatype Wake = CtxDone | ProcessExited | IntervalOver

  /** The status snapshot; a process whose state could not be collected has no exit code. */
  datatype Proc = Alive | Exited(code: Option<int>)

  /** A supervisor call: no answer, an error reported by its command line, or the text it wrote. */
  datatype Reply = CheckError | CliError(cost: int) | Said(text: string, cost: int)

  /** What Check makes of an answer. */
  function VerdictOf(reply: Reply, decode: Decoder): Verdict {
    if reply.Said? then ParseVerdict(reply.text, decode).0 else KEEP_WATCHING
  }

  /** Everything the loop sees in one turn. termWorks: the group is gone within 5s of SIGTERM. */
  datatype Turn = Turn(wake: Wake, proc: Proc, code: Option<int>, probe: int, reply: Reply, termWorks: bool)

  type Turns = nat -> Turn

  /** If the loop woke because the process exited, the snapshot sees it exited. */
  function Snapshot(t: Turn): Proc { if t.wake.ProcessExited? then Exited(t.code) else t.proc }

  // ---- Result -------------------------------------------------------------------

  datatype Signal = Term | Kill

  /** One line of the supervisor-turns audit file. */
  datatype AuditLine = AuditLine(turn: nat, cost: int)

  datatype Failure = StartFailed | CtxError | BudgetExhausted | SupervisorError

  /** Why a run was given up, in the words of the supervisor or of the loop; the fixed wording is left out. */
  datatype Reason =
    | NoReason | Cancelled | BudgetSpent | Unreachable | NeverDone | TurnCap | Given(text: string)
    | PlannerFailure | NoScriptFile

  datatype Result = Result(verdict: string, reason: Reason, turns: nat, cost: int,
                           audit: seq<AuditLine>, signals: seq<Signal>, err: Option<Failure>)

  /** startOk: the log files opened and bash started. remaining: budget left when the run begins,
      -1 when budgets are off, as BudgetRemainingFn returns it. */
  datatype Config = Config(maxTurns: nat, port: int, remaining: int, startOk: bool, decode: Decoder)

  const BLANK := Result("", NoReason, 0, 0, [], [], None)

  /** SIGTERM to the group, and SIGKILL unless the process is gone within five seconds. */
  function KillGroup(t: Turn): seq<Signal> { if t.termWorks then [Term] else [Term, Kill] }

  function Serving(c: Config, t: Turn): bool {
    Snapshot(t) == Exited(Some(0)) && c.port > 0 && 200 <= t.probe < 500
  }

  function ReasonOf(v: Verdict): Reason { Given(if v.reason == "" then v.note else v.reason) }

  // ---- One turn --------------------------------------------------------------------

  datatype Next = Stop(r: Result) | Go(r: Result)

  function OneTurn(c: Config, t: Turn, n: nat, r: Result): Next {
    if t.wake.CtxDone? then
      Stop(r.(verdict := "intervene", reason := Cancelled, signals := KillGroup(t), err := Some(CtxError)))
    else if c.remaining - r.cost == 0 then
      Stop(r.(verdict := "intervene", reason := BudgetSpent,
              signals := KillGroup(t), err := Some(BudgetExhausted)))
    else if Serving(c, t) then
      Stop(r.(verdict := "done"))
    else if t.reply.CheckError? then
      var r1 := r.(audit := r.audit + [AuditLine(n, 0)], turns := n);
      if Snapshot(t).Exited? then
        Stop(r1.(verdict := "intervene", reason := Unreachable, err := Some(SupervisorError)))
      else Go(r1)
    else
      var v := VerdictOf(t.reply, c.decode);
      var r1 := r.(cost := r.cost + t.reply.cost, turns := n, audit := r.audit + [AuditLine(n, t.reply.cost)]);
      if v.verdict == "done" then Stop(r1.(verdict := "done"))
      else if v.verdict == "intervene" then
        Stop(r1.(verdict := "intervene", reason := ReasonOf(v), signals := KillGroup(t)))
      else if Snapshot(t).Exited? && n >= c.maxTurns then
        Stop(r1.(verdict := "intervene", reason := NeverDone))
      else Go(r1)
  }

  /** The loop from turn n on. */
  function Watch(c: Config, o: Turns, last: Turn, n: nat, r: Result): Result
    decreases c.maxTurns + 1 - n
  {
    if n > c.maxTurns then
      r.(verdict := "intervene", reason := TurnCap, signals := KillGroup(last))
    else match OneTurn(c, o(n), n, r)
      case Stop(r') => r'
      case Go(r') => Watch(c, o, last, n + 1, r')
  }

  /** last tells whether SIGTERM works when the turn cap is hit. */
  function Script(c: Config, o: Turns, last: Turn): Result {
    if !c.startOk then BLANK.(err := Some(StartFailed)) else Watch(c, o, last, 1, BLANK)
  }

  // ---- The loop as the source runs it -----------------------------------------------

  /** The supervisor's side of one call that came back. */
  method Check(reply: Reply, decode: Decoder) returns (v: Verdict)
    requires !reply.CheckError?
    ensures v == VerdictOf(reply, decode)
  {
    if reply.CliError? {
      return KEEP_WATCHING;
    }
    var raw, ok := JsonSpan.ExtractJSONObject(reply.text);
    if !ok {
      return KEEP_WATCHING;
    }
    JsonSpan.SpanFound(reply.text, raw);
    var decoded := decode(raw);
    if decoded.None? {
      return KEEP_WATCHING;
    }
    var word := Text.Lower(Text.TrimSpace(decoded.value.verdict));
    if word in VERDICTS {
      return decoded.value.(verdict := word);
    }
    return KEEP_WATCHING;
  }

  method SuperviseScript(c: Config, o: Turns, last: Turn) returns (res: Result)
    ensures res == Script(c, o, last)
  {
    res := BLANK;
    if !c.startOk {
      res := res.(err := Some(StartFailed));
      return;
    }
    var turn := 1;
    while turn <= c.maxTurns
      invariant 1 <= turn <= c.maxTurns + 1
      invariant Script(c, o, last) == Watch(c, o, last, turn, res)
    {
      var t := o(turn);
      if t.wake == CtxDone {
        res := res.(verdict := "intervene", reason := Cancelled, signals := KillGroup(t), err := Some(CtxError));
        return;
      }
      var rem := c.remaining - res.cost;
      if rem >= 0 && rem <= 0 {
        res := res.(verdict := "intervene", reason := BudgetSpent,
                    signals := KillGroup(t), err := Some(BudgetExhausted));
        return;
      }
      var status := Snapshot(t);
      if status.Exited? && status.code == Some(0) && c.port > 0 {
        if t.probe >= 200 && t.probe < 500 {
          res := res.(verdict := "done");
          return;
        }
      }
      if t.reply.CheckError? {
        res := res.(audit := res.audit + [AuditLine(turn, 0)]);
        res := res.(turns := turn);
        if status.Exited? {
          res := res.(verdict := "intervene", reason := Unreachable, err := Some(SupervisorError));
          return;
        }
        turn := turn + 1;
        continue;
      }
      var v := Check(t.reply, c.decode);
      res := res.(cost := res.cost + t.reply.cost);
      res := res.(turns := turn);
      res := res.(audit := res.audit + [AuditLine(turn, t.reply.cost)]);
      if v.verdict == "done" {
        res := res.(verdict := "done");
        return;
      } else if v.verdict == "intervene" {
        var reason := v.reason;
        if reason == "" {
          reason := v.note;
        }
        res := res.(verdict := "intervene", reason := Given(reason));
        res := res.(signals := KillGroup(t));
        return;
      }
      if status.Exited? && turn >= c.maxTurns {
        res := res.(verdict := "intervene", reason := NeverDone);
        return;
      }
      turn := turn + 1;
    }
    res := res.(signals := KillGroup(last));
    res := res.(verdict := "intervene", reason := TurnCap);
  }

  // ---- What every run guarantees --------------------------------------------------------

  function AuditCost(audit: seq<AuditLine>): int {
    if audit == [] then 0 else AuditCost(audit[..|audit| - 1]) + audit[|audit| - 1].cost
  }

  /** Cost and turn count are those of the audit file, whose lines are numbered 1, 2, 3, ... */
  ghost predicate Booked(r: Result) {
    && r.cost == AuditCost(r.audit)
    && r.turns == |r.audit|
    && forall i :: 0 <= i < |r.audit| ==> r.audit[i].turn == i + 1
  }

  lemma BookLine(r: Result, n: nat, cost: int)
    requires Booked(r) && n == |r.audit| + 1
    ensures Booked(r.(cost := r.cost + cost, turns := n, audit := r.audit + [AuditLine(n, cost)]))
  {
    var a := r.audit + [AuditLine(n, cost)];
    assert a[..|a| - 1] == r.audit;
  }

  /** A done run: the probe answered in the turn after the last audited one, or the last audited turn's
      reply holds a done object. */
  ghost predicate DoneBy(c: Config, o: Turns, r: Result) {
    || (r.turns < c.maxTurns && Serving(c, o(r.turns + 1)))
    || (r.turns >= 1 && SaidDone(c, o(r.turns)))
  }

  ghost predicate SaidDone(c: Config, t: Turn) {
    t.reply.Said? && exists raw :: DoneObject(t.reply.text, raw, c.decode)
  }

  ghost predicate SoundEnd(c: Config, o: Turns, r: Result) {
    && Booked(r)
    && r.turns <= c.maxTurns
    && (r.verdict == "done" || r.verdict == "intervene")
    && (r.verdict == "done" ==> r.signals == [] && r.err.None? && DoneBy(c, o, r))
    && (r.verdict == "intervene" ==>
          || r.signals == [Term] || r.signals == [Term, Kill]
          || (r.signals == [] && r.turns >= 1 && GoneAt(o(r.turns))))
  }

  predicate GoneAt(t: Turn) { Snapshot(t).Exited? }

  /** The state of the result between turns: booked, undecided and no signal sent. */
  ghost predicate Watching(r: Result, n: nat) {
    Booked(r) && |r.audit| == n - 1 && r.verdict == "" && r.signals == [] && r.err.None?
  }

  /** A turn that stops the run did so for a reason visible in that very turn. */
  lemma TurnSound(c: Config, t: Turn, n: nat, r: Result)
    requires n >= 1 && Watching(r, n)
    ensures match OneTurn(c, t, n, r)
            case Go(r') => Watching(r', n + 1)
            case Stop(r') =>
              && Booked(r') && n - 1 <= r'.turns <= n
              && (r'.verdict == "done" || r'.verdict == "intervene")
              && (r'.verdict == "done" ==> r'.signals == [] && r'.err.None?)
              && (r'.verdict == "done" ==> if r'.turns == n then SaidDone(c, t) else Serving(c, t))
              && (r'.verdict == "intervene" ==>
                    r'.signals == KillGroup(t) || (r'.signals == [] && GoneAt(t) && r'.turns == n))
  {
    BookLine(r, n, if t.reply.CheckError? then 0 else t.reply.cost);
    if t.reply.Said? { DoneNeedsDoneObject(t.reply.text, c.decode); }
  }

  lemma {:induction false} WatchSound(c: Config, o: Turns, last: Turn, n: nat, r: Result)
    requires 1 <= n <= c.maxTurns + 1 && Watching(r, n)
    ensures SoundEnd(c, o, Watch(c, o, last, n, r))
    decreases c.maxTurns + 1 - n
  {
    if n <= c.maxTurns {
      TurnSound(c, o(n), n, r);
      match OneTurn(c, o(n), n, r)
      case Stop(_) =>
      case Go(r') => WatchSound(c, o, last, n + 1, r');
    }
  }

  /** A run that starts the process ends in done or intervene; done needs, in its last turn, a reply with a
      done object or exit 0 with a serving port, and never signals the group; intervene signalled it,
      SIGTERM first, or had seen it exit; spend and turn count are exactly what the audit file says. */
  lemma RunIsSound(c: Config, o: Turns, last: Turn)
    requires c.startOk
    ensures SoundEnd(c, o, Script(c, o, last))
  {
    WatchSound(c, o, last, 1, BLANK);
  }

  // ---- Waiting for the process ------------------------------------------------------------

  /** The process was neither seen to exit nor signalled when the loop ended. The deferred reaping then waits
      until it exits of its own accord. */
  predicate LeftAlone(c: Config, o: Turns, n: nat, r: Result)
    decreases c.maxTurns + 1 - n
  {
    n <= c.maxTurns &&
    match OneTurn(c, o(n), n, r)
    case Stop(r') => r'.signals == [] && Snapshot(o(n)).Alive?
    case Go(r') => LeftAlone(c, o, n + 1, r')
  }

  /** The last audited reply held a done object while the process was still alive. */
  ghost predicate DoneWhileAlive(c: Config, o: Turns, r: Result) {
    r.turns >= 1 && SaidDone(c, o(r.turns)) && Snapshot(o(r.turns)).Alive?
  }

  /** The replies of the turns before n were no done. */
  ghost predicate NotDoneYet(c: Config, o: Turns, n: nat) { n >= 2 ==> !SaidDone(c, o(n - 1)) }

  lemma GoesOnUnlessDone(c: Config, t: Turn, n: nat, r: Result)
    ensures OneTurn(c, t, n, r).Go? ==> !SaidDone(c, t)
    ensures OneTurn(c, t, n, r).Stop? && r.signals == [] && OneTurn(c, t, n, r).r.signals == []
            && Snapshot(t).Alive? ==>
              SaidDone(c, t) && OneTurn(c, t, n, r).r.turns == n
  {
    if t.reply.Said? { DoneNeedsDoneObject(t.reply.text, c.decode); }
  }

  lemma {:induction false} WatchLeavesAlone(c: Config, o: Turns, last: Turn, n: nat, r: Result)
    requires 1 <= n <= c.maxTurns + 1 && Watching(r, n) && NotDoneYet(c, o, n)
    ensures LeftAlone(c, o, n, r) <==> DoneWhileAlive(c, o, Watch(c, o, last, n, r))
    decreases c.maxTurns + 1 - n
  {
    if n <= c.maxTurns {
      TurnSound(c, o(n), n, r);
      GoesOnUnlessDone(c, o(n), n, r);
      match OneTurn(c, o(n), n, r)
      case Stop(r') => StopLeavesAlone(c, o, n, r);
      case Go(r') => WatchLeavesAlone(c, o, last, n + 1, r');
    }
  }

  lemma StopLeavesAlone(c: Config, o: Turns, n: nat, r: Result)
    requires n >= 1 && Watching(r, n) && NotDoneYet(c, o, n) && OneTurn(c, o(n), n, r).Stop?
    ensures var r' := OneTurn(c, o(n), n, r).r;
            r'.signals == [] && Snapshot(o(n)).Alive? <==> DoneWhileAlive(c, o, r')
  {
    var r' := OneTurn(c, o(n), n, r).r;
    TurnSound(c, o(n), n, r);
    GoesOnUnlessDone(c, o(n), n, r);
    if SaidDone(c, o(n)) && r'.turns == n { SaidDoneIsDone(c, o(n), n, r); }
  }

  lemma SaidDoneIsDone(c: Config, t: Turn, n: nat, r: Result)
    requires SaidDone(c, t) && r.turns < n && OneTurn(c, t, n, r).Stop? && OneTurn(c, t, n, r).r.turns == n
    ensures OneTurn(c, t, n, r).r.verdict == "done"
  {
    DoneNeedsDoneObject(t.reply.text, c.decode);
  }

  /** A started run returns without waiting for the script to end of its own accord if and only if it was not
      declared done by a reply that found the process alive. */
  lemma ReturnsAtOnceIff(c: Config, o: Turns, last: Turn)
    requires c.startOk
    ensures !LeftAlone(c, o, 1, BLANK) <==> !DoneWhileAlive(c, o, Script(c, o, last))
  {
    WatchLeavesAlone(c, o, last, 1, BLANK);
  }

  /** A run that could not start spent nothing, logged nothing, signalled nothing and has no verdict. */
  lemma StartFailureIsClean(c: Config, o: Turns, last: Turn)
    ensures Script(c, o, last).err == Some(StartFailed) <==> !c.startOk
    ensures !c.startOk ==> Script(c, o, last) == BLANK.(err := Some(StartFailed))
  {
    if c.startOk { WatchNeverStartFails(c, o, last, 1, BLANK); }
  }

  lemma {:induction false} WatchNeverStartFails(c: Config, o: Turns, last: Turn, n: nat, r: Result)
    requires r.err.None?
    ensures Watch(c, o, last, n, r).err != Some(StartFailed)
    decreases c.maxTurns + 1 - n
  {
    if n <= c.maxTurns {
      match OneTurn(c, o(n), n, r)
      case Stop(_) =>
      case Go(r') => WatchNeverStartFails(c, o, last, n + 1, r');
    }
  }

  // ---- The mid-run budget guard ----------------------------------------------------------

  /** The guard looks at equality only: a turn is stopped for budget exactly when the
      remainder is zero, so a remainder that has jumped below zero is polled on. */
  lemma BudgetGuardIsEquality(c: Config, t: Turn, n: nat, r: Result)
    requires r.err.None? && !t.wake.CtxDone?
    ensures var x := OneTurn(c, t, n, r);
            (x.Stop? && x.r.err == Some(BudgetExhausted)) <==> c.remaining == r.cost
  {
  }

  ghost predicate CostsWithin(o: Turns, cap: int) {
    forall n :: !o(n).reply.CheckError? ==> 0 <= o(n).reply.cost <= cap
  }

  lemma {:induction false} WatchCost(c: Config, o: Turns, last: Turn, n: nat, r: Result, cap: nat)
    requires CostsWithin(o, cap) && 1 <= n <= c.maxTurns + 1 && 0 <= r.cost
    ensures r.cost <= Watch(c, o, last, n, r).cost <= r.cost + (c.maxTurns + 1 - n) * cap
    decreases c.maxTurns + 1 - n
  {
    var left := c.maxTurns + 1 - n;
    if n <= c.maxTurns {
      assert left * cap == (left - 1) * cap + cap;
      assert 0 <= (left - 1) * cap;
      match OneTurn(c, o(n), n, r)
      case Stop(_) =>
      case Go(r') => WatchCost(c, o, last, n + 1, r', cap);
    }
  }

  lemma ScriptCost(c: Config, o: Turns, last: Turn, cap: nat)
    requires CostsWithin(o, cap)
    ensures 0 <= Script(c, o, last).cost <= c.maxTurns * cap
  {
    if c.startOk { WatchCost(c, o, last, 1, BLANK, cap); }
  }
}
