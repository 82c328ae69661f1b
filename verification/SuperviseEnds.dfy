/** Where and how a supervised run ends: internal/bootstrap/agent_script.go:739-909. */
module SuperviseEnds {
  import opened Common
  import JsonSpan
  import opened Supervise

  /** The reply's first balanced object decodes to this word. */
  ghost predicate Says(c: Config, t: Turn, word: string) {
    t.reply.Said? && exists raw :: WordObject(t.reply.text, raw, word, c.decode)
  }

  predicate Gone(t: Turn) { t.wake.ProcessExited? || t.proc.Exited? }

  /** The script has exited with code 0 and the port it was to serve answers with a status from 200 to 499. */
  predicate Serves(c: Config, t: Turn) {
    && (if t.wake.ProcessExited? then t.code == Some(0) else t.proc == Exited(Some(0)))
    && c.port > 0 && 200 <= t.probe <= 499
  }

  function CostOf(reply: Reply): int { if reply.CheckError? then 0 else reply.cost }

  /** What the supervisor calls of the turns before n cost. */
  function SpentBefore(o: Turns, n: nat): int { if n <= 1 then 0 else SpentBefore(o, n - 1) + CostOf(o(n - 1).reply) }

  /** A reason to stop in turn n, with this much spent before it. */
  ghost predicate StopReason(c: Config, t: Turn, n: nat, spent: int) {
    || t.wake.CtxDone? || c.remaining == spent || Serves(c, t)
    || Says(c, t, "done") || Says(c, t, "intervene")
    || (Gone(t) && (t.reply.CheckError? || n >= c.maxTurns))
  }

  function Signals(termWorks: bool): seq<Signal> { [Term] + (if termWorks then [] else [Kill]) }

  /** The result r of a run says that it ended with this verdict, reason, signals and failure. */
  predicate Shows(r: Result, verdict: string, reason: Reason, signals: seq<Signal>, err: Option<Failure>) {
    r.verdict == verdict && r.reason == reason && r.signals == signals && r.err == err
  }

  /** The run ended in turn n: before the supervisor was asked, or on what it answered. */
  ghost predicate EndsHere(c: Config, t: Turn, n: nat, spent: int, r: Result) {
    if t.wake.CtxDone? || c.remaining == spent || Serves(c, t) then
      && r.turns + 1 == n && r.cost == spent
      && (if t.wake.CtxDone? then Shows(r, "intervene", Cancelled, Signals(t.termWorks), Some(CtxError))
          else if c.remaining == spent then
            Shows(r, "intervene", BudgetSpent, Signals(t.termWorks), Some(BudgetExhausted))
          else Shows(r, "done", NoReason, [], None))
    else
      && r.turns == n && r.cost == spent + CostOf(t.reply)
      && (if Says(c, t, "done") then Shows(r, "done", NoReason, [], None)
          else if Says(c, t, "intervene") then
            exists raw :: WordObject(t.reply.text, raw, "intervene", c.decode) && GivesUp(c, t, raw, r)
          else if t.reply.CheckError? then Shows(r, "intervene", Unreachable, [], Some(SupervisorError))
          else Shows(r, "intervene", NeverDone, [], None))
  }

  /** Given up for the reason of the decoded object, or its note if that is empty. */
  predicate GivesUp(c: Config, t: Turn, raw: string, r: Result) {
    c.decode(raw).Some? &&
    var v := c.decode(raw).value;
    Shows(r, "intervene", Given(if v.reason == "" then v.note else v.reason), Signals(t.termWorks), None)
  }

  /** The result as it stands while the run goes on. */
  predicate Ongoing(r: Result, n: nat, spent: int) {
    r.turns + 1 == n && r.cost == spent && Shows(r, "", NoReason, [], None)
  }

  lemma SnapshotIs(c: Config, t: Turn)
    ensures Snapshot(t).Exited? <==> Gone(t)
    ensures Serving(c, t) <==> Serves(c, t)
  {
  }

  lemma VerdictIs(c: Config, t: Turn)
    requires !t.reply.CheckError?
    ensures VerdictOf(t.reply, c.decode).verdict == "done" <==> Says(c, t, "done")
    ensures VerdictOf(t.reply, c.decode).verdict == "intervene" <==> Says(c, t, "intervene")
    ensures forall raw :: t.reply.Said? && WordObject(t.reply.text, raw, "intervene", c.decode) ==>
              VerdictOf(t.reply, c.decode).reason == c.decode(raw).value.reason
              && VerdictOf(t.reply, c.decode).note == c.decode(raw).value.note
  {
    if t.reply.Said? {
      VerdictIff(t.reply.text, c.decode, "done");
      VerdictIff(t.reply.text, c.decode, "intervene");
    }
  }

  /** One turn stops the run exactly when it holds a reason to, and shows which one. */
  lemma TurnEnds(c: Config, t: Turn, n: nat, r: Result, spent: int)
    requires n >= 1 && Ongoing(r, n, spent)
    ensures OneTurn(c, t, n, r).Stop? <==> StopReason(c, t, n, spent)
    ensures OneTurn(c, t, n, r).Stop? ==> EndsHere(c, t, n, spent, OneTurn(c, t, n, r).r)
    ensures OneTurn(c, t, n, r).Go? ==> Ongoing(OneTurn(c, t, n, r).r, n + 1, spent + CostOf(t.reply))
  {
    SnapshotIs(c, t);
    if !t.reply.CheckError? { VerdictIs(c, t); }
    if Says(c, t, "intervene") && OneTurn(c, t, n, r).Stop? && OneTurn(c, t, n, r).r.turns == n {
      var raw :| WordObject(t.reply.text, raw, "intervene", c.decode);
      assert GivesUp(c, t, raw, OneTurn(c, t, n, r).r) || Says(c, t, "done");
    }
  }

  ghost predicate StopsIn(c: Config, o: Turns, n: nat) { StopReason(c, o(n), n, SpentBefore(o, n)) }

  /** No turn before n holds a reason to stop. */
  ghost predicate GoesOnTo(c: Config, o: Turns, n: nat) { n <= 1 || (GoesOnTo(c, o, n - 1) && !StopsIn(c, o, n - 1)) }

  /** Turn n is the first that holds a reason to stop. */
  ghost predicate FirstStop(c: Config, o: Turns, n: nat) {
    1 <= n <= c.maxTurns && GoesOnTo(c, o, n) && StopsIn(c, o, n)
  }

  /** The first turn that holds a reason to stop ends the run; without one the turn cap does. */
  ghost predicate EndsRight(c: Config, o: Turns, last: Turn, r: Result) {
    && (forall n :: FirstStop(c, o, n) ==> EndsHere(c, o(n), n, SpentBefore(o, n), r))
    && (GoesOnTo(c, o, c.maxTurns + 1) ==>
          && r.turns == c.maxTurns && r.cost == SpentBefore(o, c.maxTurns + 1)
          && Shows(r, "intervene", TurnCap, Signals(last.termWorks), None))
  }

  lemma {:induction false} NoneBefore(c: Config, o: Turns, n: nat, m: nat)
    requires 1 <= n < m && GoesOnTo(c, o, m)
    ensures !StopsIn(c, o, n)
  {
    if n < m - 1 { NoneBefore(c, o, n, m - 1); }
  }

  lemma OneFirstStop(c: Config, o: Turns, n: nat, m: nat)
    requires FirstStop(c, o, n)
    ensures FirstStop(c, o, m) ==> m == n
    ensures !GoesOnTo(c, o, c.maxTurns + 1)
  {
    if FirstStop(c, o, m) && n < m { NoneBefore(c, o, n, m); }
    if FirstStop(c, o, m) && m < n { NoneBefore(c, o, m, n); }
    if GoesOnTo(c, o, c.maxTurns + 1) { NoneBefore(c, o, n, c.maxTurns + 1); }
  }

  lemma CapEnds(c: Config, o: Turns, last: Turn, r: Result)
    requires GoesOnTo(c, o, c.maxTurns + 1) && Ongoing(r, c.maxTurns + 1, SpentBefore(o, c.maxTurns + 1))
    ensures EndsRight(c, o, last, Watch(c, o, last, c.maxTurns + 1, r))
  {
    forall n ensures !FirstStop(c, o, n) { if FirstStop(c, o, n) { OneFirstStop(c, o, n, n); } }
  }

  lemma {:induction false} WatchEnds(c: Config, o: Turns, last: Turn, n: nat, r: Result)
    requires 1 <= n <= c.maxTurns + 1 && GoesOnTo(c, o, n) && Ongoing(r, n, SpentBefore(o, n))
    ensures EndsRight(c, o, last, Watch(c, o, last, n, r))
    decreases c.maxTurns + 1 - n
  {
    if n > c.maxTurns {
      CapEnds(c, o, last, r);
    } else {
      TurnEnds(c, o(n), n, r, SpentBefore(o, n));
      if OneTurn(c, o(n), n, r).Go? {
        GoesOnTurn(c, o, n);
        WatchEnds(c, o, last, n + 1, OneTurn(c, o(n), n, r).r);
      } else {
        StopEnds(c, o, last, n, OneTurn(c, o(n), n, r).r);
      }
    }
  }

  lemma GoesOnTurn(c: Config, o: Turns, n: nat)
    requires n >= 1 && GoesOnTo(c, o, n) && !StopsIn(c, o, n)
    ensures GoesOnTo(c, o, n + 1)
    ensures SpentBefore(o, n + 1) == SpentBefore(o, n) + CostOf(o(n).reply)
  {
  }

  lemma StopEnds(c: Config, o: Turns, last: Turn, n: nat, r: Result)
    requires FirstStop(c, o, n) && EndsHere(c, o(n), n, SpentBefore(o, n), r)
    ensures EndsRight(c, o, last, r)
  {
    forall m | FirstStop(c, o, m) ensures EndsHere(c, o(m), m, SpentBefore(o, m), r) { OneFirstStop(c, o, n, m); }
    OneFirstStop(c, o, n, n);
  }

  /** A started run ends in the very first turn that holds a reason to stop, with the verdict, reason, signals
      and failure of that reason; if no turn does it ends at the turn cap. */
  lemma RunEndsAtFirstStop(c: Config, o: Turns, last: Turn)
    requires c.startOk
    ensures EndsRight(c, o, last, Script(c, o, last))
  {
    WatchEnds(c, o, last, 1, BLANK);
  }

  /** The first turn with a reason to stop, when it is neither cancelled nor out of budget nor serving and its
      reply holds an intervene object, gives the script up for the decoded reason, or the note if that is
      empty, with SIGTERM to the group, and SIGKILL exactly when that does not work. */
  lemma InterveneEndsRun(c: Config, o: Turns, last: Turn, n: nat, raw: string)
    requires c.startOk && 1 <= n <= c.maxTurns && GoesOnTo(c, o, n)
    requires !o(n).wake.CtxDone? && c.remaining != SpentBefore(o, n) && !Serves(c, o(n))
    requires o(n).reply.Said? && WordObject(o(n).reply.text, raw, "intervene", c.decode)
    ensures var r := Script(c, o, last);
            && r.turns == n && r.verdict == "intervene" && r.err.None?
            && r.reason == Given(if c.decode(raw).value.reason != "" then c.decode(raw).value.reason
                                 else c.decode(raw).value.note)
            && r.signals == if o(n).termWorks then [Term] else [Term, Kill]
  {
    var t := o(n);
    RunEndsAtFirstStop(c, o, last);
    assert Says(c, t, "intervene");
    assert FirstStop(c, o, n);
    OneObject(t.reply.text);
    assert !Says(c, t, "done");
  }

  lemma OneObject(s: string)
    ensures forall a, b :: JsonSpan.IsSpan(s, a) && JsonSpan.IsSpan(s, b) ==> a == b
  {
    SpanIsExtracted(s);
  }

  /** One line for each turn that asked the supervisor, with what the answer cost. */
  predicate Audits(o: Turns, audit: seq<AuditLine>) {
    forall i :: 0 <= i < |audit| ==> audit[i] == AuditLine(i + 1, CostOf(o(i + 1).reply))
  }

  lemma {:induction false} WatchAudits(c: Config, o: Turns, last: Turn, n: nat, r: Result)
    requires n >= 1 && |r.audit| == n - 1 && Audits(o, r.audit)
    ensures Audits(o, Watch(c, o, last, n, r).audit)
    decreases c.maxTurns + 1 - n
  {
    if n <= c.maxTurns && OneTurn(c, o(n), n, r).Go? {
      WatchAudits(c, o, last, n + 1, OneTurn(c, o(n), n, r).r);
    }
  }

  /** Line i of the audit file carries the cost of the i-th answer. */
  lemma AuditIs(c: Config, o: Turns, last: Turn)
    ensures Audits(o, Script(c, o, last).audit)
  {
    if c.startOk { WatchAudits(c, o, last, 1, BLANK); }
  }
}
