/** Concurrent Add and Remove calls under the config lock: internal/integrate/integrate.go:505-565.
    Each thread runs one call; threads live in processes. The lock is a mutex per process and,
    where the file system supports it, an exclusive flock shared by all processes. */
module ConfigLock {
  import opened Common
  import opened Integrate
  import DaemonConfig

  type Thread = nat

  datatype Phase =
    | Idle
    | HasMutex                       // holds its process's mutex, trying the flock
    | Inside                         // holds the lock, nothing read yet
    | Planned(plan: Plan)            // has read the config and decided
    | Configured(plan: Plan)         // has replaced the config file
    | Done(res: Result)              // files final, lock still held
    | Out(res: Result)               // returned

  /** The fixed part: which call each thread makes and in which process. */
  datatype Setup = Setup(w: World, init: Files, flockWorks: bool, call: Thread -> Call, proc: Thread -> nat)

  /** history lists the calls in the order in which they released the lock. */
  datatype State = State(files: Files, mutex: map<nat, Thread>, flock: Option<Thread>,
                         phases: map<Thread, Phase>, history: seq<Thread>)

  function Phases(s: State, t: Thread): Phase { if t in s.phases then s.phases[t] else Idle }

  datatype Action =
    Reject(t: Thread) | TakeMutex(t: Thread) | Flock(t: Thread) | TimeOut(t: Thread) | Read(t: Thread)
    | WriteConfig(t: Thread) | FinishEnv(t: Thread) | Release(t: Thread)

  predicate Enabled(c: Setup, s: State, a: Action) {
    match a
    case Reject(t) => Phases(s, t).Idle? && BadCall(c.call(t))
    case TakeMutex(t) => Phases(s, t).Idle? && !BadCall(c.call(t)) && c.proc(t) !in s.mutex
    case Flock(t) => Phases(s, t).HasMutex? && (c.flockWorks ==> s.flock.None?)
    case TimeOut(t) => Phases(s, t).HasMutex?
    case Read(t) => Phases(s, t).Inside?
    case WriteConfig(t) => Phases(s, t).Planned?
    case FinishEnv(t) => Phases(s, t).Configured? && Phases(s, t).plan.Write?
    case Release(t) => Phases(s, t).Done?
  }

  function Move(s: State, t: Thread, p: Phase): State { s.(phases := s.phases[t := p]) }

  ghost function Do(c: Setup, s: State, a: Action): State
    requires Enabled(c, s, a)
  {
    match a
    case Reject(t) => Move(s, t, Out(Some(Invalid)))
    case TakeMutex(t) => Move(s, t, HasMutex).(mutex := s.mutex[c.proc(t) := t])
    case Flock(t) => Move(s, t, Inside).(flock := if c.flockWorks then Some(t) else s.flock)
    case TimeOut(t) => Move(s, t, Out(Some(LockTimeout))).(mutex := s.mutex - {c.proc(t)})
    case Read(t) => Move(s, t, Planned(Decide(c.w, s.files.config, c.call(t))))
    case WriteConfig(t) =>
      (match Phases(s, t).plan
       case Refuse(e) => Move(s, t, Done(Some(e)))
       case Write(bytes, _, _, _) =>
         if c.call(t).o.configFails then Move(s, t, Done(Some(ConfigWrite)))
         else Move(s, t, Configured(Phases(s, t).plan)).(files := s.files.(config := Some(bytes))))
    case FinishEnv(t) =>
      var (fs, r) := EnvStage(s.files, Phases(s, t).plan, c.call(t).o);
      Move(s, t, Done(r)).(files := fs)
    case Release(t) =>
      Move(s, t, Out(Phases(s, t).res)).(mutex := s.mutex - {c.proc(t)},
                                         flock := if c.flockWorks then None else s.flock,
                                         history := s.history + [t])
  }

  ghost function Run(c: Setup, acts: seq<Action>): State {
    if acts == [] then State(c.init, map[], None, map[], [])
    else
      var s, a := Run(c, acts[..|acts| - 1]), acts[|acts| - 1];
      if Enabled(c, s, a) then Do(c, s, a) else s
  }

  // ---- Mutual exclusion -----------------------------------------------------------

  predicate Locked(p: Phase) { !p.Idle? && !p.Out? }

  predicate Busy(s: State, t: Thread) {
    var p := Phases(s, t);
    p.Inside? || p.Planned? || p.Configured? || p.Done?
  }

  predicate HoldsMutex(c: Setup, s: State, t: Thread) { c.proc(t) in s.mutex && s.mutex[c.proc(t)] == t }

  predicate ThreadOk(c: Setup, s: State, t: Thread) {
    && (Locked(Phases(s, t)) <==> HoldsMutex(c, s, t))
    && (Locked(Phases(s, t)) ==> !BadCall(c.call(t)))
    && (c.flockWorks ==> (Busy(s, t) <==> s.flock == Some(t)))
  }

  lemma StepThreadOk(c: Setup, s: State, a: Action, t: Thread)
    requires Enabled(c, s, a) && ThreadOk(c, s, t) && ThreadOk(c, s, a.t)
    ensures ThreadOk(c, Do(c, s, a), t)
  {
  }

  /** flock works across processes, or all calls that ask for the lock come from one process. */
  ghost predicate OneLock(c: Setup) {
    c.flockWorks || forall t, u :: !BadCall(c.call(t)) && !BadCall(c.call(u)) ==> c.proc(t) == c.proc(u)
  }

  lemma OneBusy(c: Setup, s: State, t: Thread, u: Thread)
    requires OneLock(c) && ThreadOk(c, s, t) && ThreadOk(c, s, u) && Busy(s, t) && Busy(s, u)
    ensures t == u
  {
    if !c.flockWorks { assert c.proc(t) == c.proc(u); }
  }

  // ---- Serial executions -------------------------------------------------------------

  ghost function Serial(c: Setup, order: seq<Thread>): Files {
    if order == [] then c.init
    else Effect(c.w, Serial(c, order[..|order| - 1]), c.call(order[|order| - 1])).0
  }

  /** What the i-th call of the order returns when the calls run one after another. */
  ghost function SerialResult(c: Setup, order: seq<Thread>, i: nat): Result
    requires i < |order|
  {
    Effect(c.w, Serial(c, order[..i]), c.call(order[i])).1
  }

  /** Phase p with these files is a stage of this call started on base. */
  ghost predicate Stage(w: World, base: Files, files: Files, p: Phase, call: Call) {
    match p
    case Inside => files == base
    case Planned(plan) => files == base && plan == Decide(w, base.config, call)
    case Configured(plan) =>
      && plan == Decide(w, base.config, call) && plan.Write? && !call.o.configFails
      && files == base.(config := Some(plan.bytes))
    case Done(r) => (files, r) == Effect(w, base, call)
    case _ => true
  }

  /** The files are those of the serial run of the history, plus the stages of whoever is inside. */
  ghost predicate FilesOk(c: Setup, s: State) {
    && (forall t :: Busy(s, t) ==> Stage(c.w, Serial(c, s.history), s.files, Phases(s, t), c.call(t)))
    && ((forall t :: !Busy(s, t)) ==> s.files == Serial(c, s.history))
  }

  ghost predicate ResultsOk(c: Setup, s: State) {
    && (forall i :: 0 <= i < |s.history| ==> Phases(s, s.history[i]) == Out(SerialResult(c, s.history, i)))
    && Distinct(s.history)
    && (forall t :: Phases(s, t).Out? ==> t in s.history || NeverInside(c, t, Phases(s, t).res))
  }

  /** The call was refused for its arguments or gave up waiting. */
  predicate NeverInside(c: Setup, t: Thread, r: Result) {
    r == Some(LockTimeout) || (r == Some(Invalid) && BadCall(c.call(t)))
  }

  ghost predicate Inv(c: Setup, s: State) {
    (forall t :: ThreadOk(c, s, t)) && FilesOk(c, s) && ResultsOk(c, s)
  }

  /** A step of the thread inside moves it to the next stage on the same base. */
  lemma StepStage(c: Setup, s: State, a: Action, base: Files)
    requires Enabled(c, s, a) && (a.Read? || a.WriteConfig? || a.FinishEnv?)
    requires Stage(c.w, base, s.files, Phases(s, a.t), c.call(a.t))
    ensures Stage(c.w, base, Do(c, s, a).files, Phases(Do(c, s, a), a.t), c.call(a.t))
    ensures Busy(Do(c, s, a), a.t) && Do(c, s, a).history == s.history
  {
  }

  lemma StepFilesOk(c: Setup, s: State, a: Action)
    requires OneLock(c) && Inv(c, s) && Enabled(c, s, a)
    ensures FilesOk(c, Do(c, s, a))
  {
    var s' := Do(c, s, a);
    assert ThreadOk(c, s, a.t);
    forall t | Busy(s', t) && t != a.t
      ensures !Busy(s, a.t) && !a.Flock? && Busy(s, t) && Phases(s', t) == Phases(s, t)
    {
      assert ThreadOk(c, s, t);
      StepThreadOk(c, s, a, t);
      StepThreadOk(c, s, a, a.t);
      if Busy(s, a.t) { OneBusy(c, s, t, a.t); }
      if a.Flock? { OneBusy(c, s', t, a.t); }
    }
    if a.Read? || a.WriteConfig? || a.FinishEnv? {
      StepStage(c, s, a, Serial(c, s.history));
    } else if a.Release? {
      assert s'.history[..|s.history|] == s.history;
    } else {
      QuietBefore(c, s, a);
    }
  }

  /** Refusing, waiting, taking the mutex and timing out touch neither the files nor the history; whoever gets
      the lock finds nobody inside. */
  lemma QuietBefore(c: Setup, s: State, a: Action)
    requires OneLock(c) && Inv(c, s) && Enabled(c, s, a) && (a.Reject? || a.TakeMutex? || a.Flock? || a.TimeOut?)
    ensures Do(c, s, a).files == s.files && Do(c, s, a).history == s.history
    ensures a.Flock? ==> s.files == Serial(c, s.history)
    ensures !a.Flock? ==> forall t :: Busy(Do(c, s, a), t) <==> Busy(s, t)
  {
    if a.Flock? {
      forall t ensures !Busy(s, t) {
        assert ThreadOk(c, s, t) && ThreadOk(c, s, a.t);
        assert !c.flockWorks && Busy(s, t) ==> c.proc(t) == c.proc(a.t);
      }
    }
  }

  lemma HistoryGrows(c: Setup, s: State, a: Action)
    requires Enabled(c, s, a)
    ensures Do(c, s, a).history == if a.Release? then s.history + [a.t] else s.history
    ensures Phases(Do(c, s, a), a.t).Out? ==> a.Release? || NeverInside(c, a.t, Phases(Do(c, s, a), a.t).res)
    ensures forall t :: t != a.t ==> Phases(Do(c, s, a), t) == Phases(s, t)
  {
  }

  lemma ResultStays(c: Setup, order: seq<Thread>, t: Thread, i: nat)
    requires i < |order|
    ensures SerialResult(c, order + [t], i) == SerialResult(c, order, i)
  {
    assert (order + [t])[..i] == order[..i];
  }

  /** A returned call keeps its place and its result: it takes no further step. */
  lemma OldResultKept(c: Setup, s: State, a: Action, i: nat)
    requires ResultsOk(c, s) && Enabled(c, s, a) && i < |s.history|
    ensures var s' := Do(c, s, a);
            && s.history[i] != a.t && i < |s'.history| && s'.history[i] == s.history[i]
            && Phases(s', s'.history[i]) == Out(SerialResult(c, s'.history, i))
  {
    assert Phases(s, s.history[i]) == Out(SerialResult(c, s.history, i));
    HistoryGrows(c, s, a);
    ResultStays(c, s.history, a.t, i);
  }

  /** The releasing call returns what the serial run returns at its place. */
  lemma NewResult(c: Setup, s: State, t: Thread)
    requires FilesOk(c, s) && Phases(s, t).Done?
    ensures Phases(Do(c, s, Release(t)), t) == Out(SerialResult(c, s.history + [t], |s.history|))
  {
    assert Busy(s, t);
    assert (s.history + [t])[..|s.history|] == s.history;
  }

  lemma StepResultsOk(c: Setup, s: State, a: Action)
    requires FilesOk(c, s) && ResultsOk(c, s) && Enabled(c, s, a)
    ensures ResultsOk(c, Do(c, s, a))
  {
    var s' := Do(c, s, a);
    HistoryGrows(c, s, a);
    forall i | 0 <= i < |s'.history| ensures Phases(s', s'.history[i]) == Out(SerialResult(c, s'.history, i)) {
      if i < |s.history| { OldResultKept(c, s, a, i); } else { NewResult(c, s, a.t); }
    }
    forall i, j | 0 <= i < j < |s'.history| ensures s'.history[i] != s'.history[j] {
      OldResultKept(c, s, a, i);
    }
    forall t | Phases(s', t).Out? ensures t in s'.history || NeverInside(c, t, Phases(s', t).res) {
      if t == a.t && a.Release? { assert s'.history[|s.history|] == t; }
    }
  }

  lemma {:induction false} AlwaysThreads(c: Setup, acts: seq<Action>)
    ensures forall t :: ThreadOk(c, Run(c, acts), t)
  {
    if acts != [] {
      var s, a := Run(c, acts[..|acts| - 1]), acts[|acts| - 1];
      AlwaysThreads(c, acts[..|acts| - 1]);
      if Enabled(c, s, a) {
        forall t ensures ThreadOk(c, Do(c, s, a), t) {
          assert ThreadOk(c, s, t) && ThreadOk(c, s, a.t);
          StepThreadOk(c, s, a, t);
        }
      }
    }
  }

  lemma {:induction false} AlwaysInv(c: Setup, acts: seq<Action>)
    requires OneLock(c)
    ensures Inv(c, Run(c, acts))
  {
    AlwaysThreads(c, acts);
    if acts != [] {
      var s, a := Run(c, acts[..|acts| - 1]), acts[|acts| - 1];
      AlwaysInv(c, acts[..|acts| - 1]);
      if Enabled(c, s, a) {
        StepFilesOk(c, s, a);
        StepResultsOk(c, s, a);
      }
    }
  }

  /** Whatever the interleaving, the calls that got the lock behave as if run one after another in the
      order they released it: the files are those of the serial run and every call returned what it
      returns there; a call that was refused or timed out is in no order and changed nothing. */
  lemma Serializable(c: Setup, acts: seq<Action>)
    requires OneLock(c)
    ensures var s := Run(c, acts);
            && ((forall t :: !Busy(s, t)) ==> s.files == Serial(c, s.history))
            && Distinct(s.history)
            && (forall i :: 0 <= i < |s.history| ==> Phases(s, s.history[i]) == Out(SerialResult(c, s.history, i)))
            && (forall t :: Phases(s, t).Out? ==> t in s.history || NeverInside(c, t, Phases(s, t).res))
  {
    AlwaysInv(c, acts);
  }

  /** Rollback writes succeed and the starting config loads. */
  ghost predicate Sane(c: Setup) {
    && Lawful(c.w) && Loaded(c.w, c.init.config).Some?
    && forall t :: c.call(t).o.rollback.Restored?
  }

  /** The starting integrations with every successful call of the order applied, and no other. */
  ghost function Applied(c: Setup, order: seq<Thread>): seq<DaemonConfig.Client>
    requires Loaded(c.w, c.init.config).Some?
  {
    if order == [] then Loaded(c.w, c.init.config).value.clients
    else
      var rest, t := order[..|order| - 1], order[|order| - 1];
      if Effect(c.w, Serial(c, rest), c.call(t)).1.None? then After(c.call(t), Applied(c, rest)) else Applied(c, rest)
  }

  lemma {:induction false} SerialLoads(c: Setup, order: seq<Thread>)
    requires Sane(c)
    ensures Loaded(c.w, Serial(c, order).config).Some?
    ensures Loaded(c.w, Serial(c, order).config).value.clients == Applied(c, order)
  {
    if order != [] {
      var rest, t := order[..|order| - 1], order[|order| - 1];
      SerialLoads(c, rest);
      ErrorChangesNothing(c.w, Serial(c, rest), c.call(t));
      CallStaysLoadable(c.w, Serial(c, rest), c.call(t));
    }
  }

  /** No update is lost: with nobody inside, the daemon accepts the file, its integrations are the starting
      ones with exactly the successful calls applied, in the order they released the lock, and integration
      names are pairwise distinct. */
  lemma ConfigStaysUsable(c: Setup, acts: seq<Action>)
    requires OneLock(c) && Sane(c) && forall t :: !Busy(Run(c, acts), t)
    ensures Loaded(c.w, Run(c, acts).files.config).Some?
    ensures Loaded(c.w, Run(c, acts).files.config).value.clients == Applied(c, Run(c, acts).history)
    ensures forall i, j :: var cs := Loaded(c.w, Run(c, acts).files.config).value.clients;
                           0 <= i < j < |cs| ==> cs[i].name != cs[j].name
  {
    Serializable(c, acts);
    SerialLoads(c, Run(c, acts).history);
    LoadedClientsOk(c.w, Run(c, acts).files.config);
  }

  /** Without a working flock two processes can be inside together: the mutexes do not exclude them. */
  lemma TwoInsideWithoutFlock(c: Setup, t: Thread, u: Thread)
    requires !c.flockWorks && c.proc(t) != c.proc(u) && !BadCall(c.call(t)) && !BadCall(c.call(u))
    ensures var s := Run(c, [TakeMutex(t), Flock(t), TakeMutex(u), Flock(u)]); Busy(s, t) && Busy(s, u)
  {
    var acts := [TakeMutex(t), Flock(t), TakeMutex(u), Flock(u)];
    assert acts[..3] == [TakeMutex(t), Flock(t), TakeMutex(u)];
    assert acts[..3][..2] == [TakeMutex(t), Flock(t)];
    assert acts[..3][..2][..1] == [TakeMutex(t)];
    assert [TakeMutex(t)][..0] == [];
    var s0 := Run(c, []);
    assert Phases(s0, t) == Idle && Enabled(c, s0, TakeMutex(t));
    var s1 := Run(c, [TakeMutex(t)]);
    assert s1 == Do(c, s0, TakeMutex(t));
    assert Phases(s1, t) == HasMutex && s1.mutex == map[c.proc(t) := t];
    var s2 := Run(c, [TakeMutex(t), Flock(t)]);
    assert Phases(s2, t) == Inside && s2.mutex == s1.mutex;
  }

  ghost predicate BothInside(c: Setup, acts: seq<Action>, t: Thread, u: Thread) {
    t != u && Busy(Run(c, acts), t) && Busy(Run(c, acts), u)
  }

  /** Two calls can be inside together if and only if flock does not work and two acceptable calls come from
      different processes. */
  lemma TwoInsideIff(c: Setup)
    ensures (exists acts, t, u :: BothInside(c, acts, t, u)) <==> !OneLock(c)
  {
    if OneLock(c) {
      forall acts, t, u ensures !BothInside(c, acts, t, u) {
        AlwaysThreads(c, acts);
        if BothInside(c, acts, t, u) { OneBusy(c, Run(c, acts), t, u); }
      }
    } else {
      var t, u :| !BadCall(c.call(t)) && !BadCall(c.call(u)) && c.proc(t) != c.proc(u);
      TwoInsideWithoutFlock(c, t, u);
      assert BothInside(c, [TakeMutex(t), Flock(t), TakeMutex(u), Flock(u)], t, u);
    }
  }

  // ---- Steps taken one after another ------------------------------------------------------

  ghost function Go(c: Setup, s: State, acts: seq<Action>): State
    decreases |acts|
  {
    if acts == [] then s else Go(c, if Enabled(c, s, acts[0]) then Do(c, s, acts[0]) else s, acts[1..])
  }

  lemma {:induction false} RunGo(c: Setup, before: seq<Action>, acts: seq<Action>)
    ensures Run(c, before + acts) == Go(c, Run(c, before), acts)
    decreases |acts|
  {
    if acts == [] {
      assert before + acts == before;
    } else {
      var sooner := before + [acts[0]];
      assert sooner[..|sooner| - 1] == before;
      assert before + acts == sooner + acts[1..];
      RunGo(c, sooner, acts[1..]);
    }
  }

  lemma GoNext(c: Setup, s: State, a: Action, acts: seq<Action>)
    requires Enabled(c, s, a)
    ensures Go(c, s, [a] + acts) == Go(c, Do(c, s, a), acts)
  {
    assert ([a] + acts)[1..] == acts;
  }

  // ---- Every serial order is a run ----------------------------------------------------------

  /** Steps left to a call that holds the lock. */
  function Left(p: Phase): nat {
    match p
    case Inside => 4
    case Planned(_) => 3
    case Configured(_) => 2
    case Done(_) => 1
    case _ => 0
  }

  function NextStep(p: Phase, t: Thread): Action
    requires Left(p) > 0
  {
    match p
    case Inside => Read(t)
    case Planned(_) => WriteConfig(t)
    case Configured(_) => FinishEnv(t)
    case Done(_) => Release(t)
  }

  /** s' is s after a step of t that leaves the other threads and, until t is out, the locks alone. */
  ghost predicate OwnStep(c: Setup, s: State, s': State, t: Thread) {
    && (forall u :: u != t ==> Phases(s', u) == Phases(s, u))
    && (if Phases(s', t).Out? then
          && s'.history == s.history + [t] && s'.mutex == s.mutex - {c.proc(t)}
          && s'.flock == (if c.flockWorks then None else s.flock)
        else s'.history == s.history && s'.mutex == s.mutex && s'.flock == s.flock)
  }

  predicate WritesWhenConfigured(p: Phase) { p.Configured? ==> p.plan.Write? }

  lemma StepsOn(c: Setup, s: State, t: Thread)
    requires Left(Phases(s, t)) > 0 && WritesWhenConfigured(Phases(s, t))
    ensures var a := NextStep(Phases(s, t), t);
            && Enabled(c, s, a) && OwnStep(c, s, Do(c, s, a), t) && Left(Phases(Do(c, s, a), t)) < Left(Phases(s, t))
            && WritesWhenConfigured(Phases(Do(c, s, a), t))
            && (Left(Phases(Do(c, s, a), t)) == 0 ==> Phases(Do(c, s, a), t).Out?)
  {
  }

  /** A call that holds the lock can return by its own steps alone. */
  lemma {:induction false} HolderReturns(c: Setup, s: State, t: Thread) returns (acts: seq<Action>)
    requires Left(Phases(s, t)) > 0 && WritesWhenConfigured(Phases(s, t))
    ensures OwnStep(c, s, Go(c, s, acts), t) && Phases(Go(c, s, acts), t).Out?
    decreases Left(Phases(s, t))
  {
    var a := NextStep(Phases(s, t), t);
    StepsOn(c, s, t);
    var s' := Do(c, s, a);
    if Phases(s', t).Out? {
      acts := [a];
      assert [a] + [] == [a];
      GoNext(c, s, a, []);
    } else {
      var rest := HolderReturns(c, s', t);
      GoNext(c, s, a, rest);
      acts := [a] + rest;
    }
  }

  /** Nobody holds or waits for a lock; exactly these calls have returned. */
  ghost predicate Rest(c: Setup, s: State, order: seq<Thread>) {
    && s.mutex == map[] && (c.flockWorks ==> s.flock.None?) && s.history == order
    && forall t :: if t in order then Phases(s, t).Out? else Phases(s, t).Idle?
  }

  lemma Enters(c: Setup, s: State, order: seq<Thread>, t: Thread)
    requires Rest(c, s, order) && t !in order && !BadCall(c.call(t))
    ensures Enabled(c, s, TakeMutex(t)) && Enabled(c, Do(c, s, TakeMutex(t)), Flock(t))
    ensures var s2 := Do(c, Do(c, s, TakeMutex(t)), Flock(t));
            && Phases(s2, t).Inside? && s2.history == order && s2.mutex == map[c.proc(t) := t]
            && forall u :: u != t ==> Phases(s2, u) == Phases(s, u)
  {
  }

  lemma OneCall(c: Setup, s: State, order: seq<Thread>, t: Thread) returns (acts: seq<Action>)
    requires Rest(c, s, order) && t !in order && !BadCall(c.call(t))
    ensures Rest(c, Go(c, s, acts), order + [t])
  {
    Enters(c, s, order, t);
    var s1 := Do(c, s, TakeMutex(t));
    var s2 := Do(c, s1, Flock(t));
    var rest := HolderReturns(c, s2, t);
    GoNext(c, s1, Flock(t), rest);
    GoNext(c, s, TakeMutex(t), [Flock(t)] + rest);
    acts := [TakeMutex(t)] + ([Flock(t)] + rest);
    assert Go(c, s, acts) == Go(c, s2, rest);
    assert map[c.proc(t) := t] - {c.proc(t)} == map[];
  }

  /** Any calls with acceptable arguments can be made in any order, one after another: no call waits for ever on
      a lock nobody holds, and each one made with exclusive locks returns what it returns in that serial run. */
  lemma {:induction false} EveryOrderRuns(c: Setup, order: seq<Thread>) returns (acts: seq<Action>)
    requires Distinct(order) && forall t :: t in order ==> !BadCall(c.call(t))
    ensures Rest(c, Run(c, acts), order)
  {
    if order == [] {
      acts := [];
    } else {
      var rest, t := order[..|order| - 1], order[|order| - 1];
      assert order == rest + [t] && t in order;
      var before := EveryOrderRuns(c, rest);
      var more := OneCall(c, Run(c, before), rest, t);
      RunGo(c, before, more);
      acts := before + more;
    }
  }

  // ---- What that costs ----------------------------------------------------------------

  lemma GoTwo(c: Setup, s: State, a: Action, b: Action)
    requires Enabled(c, s, a) && Enabled(c, Do(c, s, a), b)
    ensures Go(c, s, [a, b]) == Do(c, Do(c, s, a), b)
  {
    var s1 := Do(c, s, a);
    assert [a, b][1..] == [b] && [b][1..] == [];
    assert Go(c, s, [a, b]) == Go(c, s1, [b]);
    assert Go(c, s1, [b]) == Go(c, Do(c, s1, b), []);
  }

  /** Both calls go as far as writing the config, without an env edit or a failure. */
  ghost predicate BothWrite(c: Setup, t: Thread, u: Thread) {
    && !c.flockWorks && c.proc(t) != c.proc(u) && !BadCall(c.call(t)) && !BadCall(c.call(u))
    && OnlyConfig(Decide(c.w, c.init.config, c.call(t))) && !c.call(t).o.configFails
    && OnlyConfig(Decide(c.w, c.init.config, c.call(u))) && !c.call(u).o.configFails
  }

  predicate OnlyConfig(p: Plan) { p.Write? && p.kv == map[] && p.del == {} }

  /** The two threads are in these phases, and this is the config file. */
  ghost predicate BothAt(s: State, t: Thread, u: Thread, config: Option<string>, p: Phase, q: Phase) {
    Phases(s, t) == p && Phases(s, u) == q && s.files.config == config
  }

  lemma FlockEnters(c: Setup, s: State, t: Thread)
    requires !c.flockWorks && Phases(s, t).HasMutex?
    ensures Enabled(c, s, Flock(t)) && Phases(Do(c, s, Flock(t)), t) == Inside && Do(c, s, Flock(t)).files == s.files
  {
  }

  lemma ReadPlans(c: Setup, s: State, t: Thread)
    requires Phases(s, t).Inside?
    ensures Enabled(c, s, Read(t)) && Do(c, s, Read(t)).files == s.files
    ensures Phases(Do(c, s, Read(t)), t) == Planned(Decide(c.w, s.files.config, c.call(t)))
  {
  }

  lemma WriteReplaces(c: Setup, s: State, t: Thread, p: Plan)
    requires Phases(s, t) == Planned(p) && OnlyConfig(p) && !c.call(t).o.configFails
    ensures Enabled(c, s, WriteConfig(t)) && Phases(Do(c, s, WriteConfig(t)), t) == Configured(p)
    ensures Do(c, s, WriteConfig(t)).files.config == Some(p.bytes)
  {
  }

  lemma FinishKeeps(c: Setup, s: State, t: Thread, p: Plan)
    requires Phases(s, t) == Configured(p) && OnlyConfig(p)
    ensures Enabled(c, s, FinishEnv(t)) && Phases(Do(c, s, FinishEnv(t)), t) == Done(None)
    ensures Do(c, s, FinishEnv(t)).files == s.files
  {
  }

  lemma ReleaseReturns(c: Setup, s: State, t: Thread)
    requires Phases(s, t) == Done(None)
    ensures Enabled(c, s, Release(t)) && Phases(Do(c, s, Release(t)), t) == Out(None)
    ensures Do(c, s, Release(t)).files == s.files
  {
  }

  lemma BothEnter(c: Setup, t: Thread, u: Thread)
    requires BothWrite(c, t, u)
    ensures BothAt(Go(c, Run(c, []), [TakeMutex(t), TakeMutex(u)]), t, u, c.init.config, HasMutex, HasMutex)
  {
    var s := Run(c, []);
    HistoryGrows(c, s, TakeMutex(t));
    HistoryGrows(c, Do(c, s, TakeMutex(t)), TakeMutex(u));
    GoTwo(c, s, TakeMutex(t), TakeMutex(u));
  }

  lemma BothLock(c: Setup, s: State, t: Thread, u: Thread)
    requires BothWrite(c, t, u) && BothAt(s, t, u, c.init.config, HasMutex, HasMutex)
    ensures BothAt(Go(c, s, [Flock(t), Flock(u)]), t, u, c.init.config, Inside, Inside)
  {
    FlockEnters(c, s, t);
    var s1 := Do(c, s, Flock(t));
    HistoryGrows(c, s, Flock(t));
    FlockEnters(c, s1, u);
    HistoryGrows(c, s1, Flock(u));
    GoTwo(c, s, Flock(t), Flock(u));
  }

  lemma BothRead(c: Setup, s: State, t: Thread, u: Thread, p: Plan, q: Plan)
    requires BothWrite(c, t, u)
    requires p == Decide(c.w, c.init.config, c.call(t)) && q == Decide(c.w, c.init.config, c.call(u))
    requires BothAt(s, t, u, c.init.config, Inside, Inside)
    ensures BothAt(Go(c, s, [Read(t), Read(u)]), t, u, c.init.config, Planned(p), Planned(q))
  {
    ReadPlans(c, s, t);
    var s1 := Do(c, s, Read(t));
    HistoryGrows(c, s, Read(t));
    ReadPlans(c, s1, u);
    HistoryGrows(c, s1, Read(u));
    GoTwo(c, s, Read(t), Read(u));
  }

  lemma BothReplace(c: Setup, s: State, t: Thread, u: Thread, p: Plan, q: Plan)
    requires t != u && !c.call(t).o.configFails && !c.call(u).o.configFails && OnlyConfig(p) && OnlyConfig(q)
    requires BothAt(s, t, u, c.init.config, Planned(p), Planned(q))
    ensures BothAt(Go(c, s, [WriteConfig(t), WriteConfig(u)]), t, u, Some(q.bytes), Configured(p), Configured(q))
  {
    WriteReplaces(c, s, t, p);
    var s1 := Do(c, s, WriteConfig(t));
    HistoryGrows(c, s, WriteConfig(t));
    WriteReplaces(c, s1, u, q);
    HistoryGrows(c, s1, WriteConfig(u));
    GoTwo(c, s, WriteConfig(t), WriteConfig(u));
  }

  lemma BothFinish(c: Setup, s: State, t: Thread, u: Thread, p: Plan, q: Plan, config: Option<string>)
    requires t != u && OnlyConfig(p) && OnlyConfig(q) && BothAt(s, t, u, config, Configured(p), Configured(q))
    ensures BothAt(Go(c, s, [FinishEnv(t), FinishEnv(u)]), t, u, config, Done(None), Done(None))
  {
    FinishKeeps(c, s, t, p);
    var s1 := Do(c, s, FinishEnv(t));
    HistoryGrows(c, s, FinishEnv(t));
    FinishKeeps(c, s1, u, q);
    HistoryGrows(c, s1, FinishEnv(u));
    GoTwo(c, s, FinishEnv(t), FinishEnv(u));
  }

  lemma BothLeave(c: Setup, s: State, t: Thread, u: Thread, config: Option<string>)
    requires t != u && BothAt(s, t, u, config, Done(None), Done(None))
    ensures BothAt(Go(c, s, [Release(t), Release(u)]), t, u, config, Out(None), Out(None))
  {
    ReleaseReturns(c, s, t);
    var s1 := Do(c, s, Release(t));
    HistoryGrows(c, s, Release(t));
    ReleaseReturns(c, s1, u);
    HistoryGrows(c, s1, Release(u));
    GoTwo(c, s, Release(t), Release(u));
  }

  const ROUND: nat := 6

  function Pair(t: Thread, u: Thread, k: nat): seq<Action>
    requires k < ROUND
  {
    match k
    case 0 => [TakeMutex(t), TakeMutex(u)]
    case 1 => [Flock(t), Flock(u)]
    case 2 => [Read(t), Read(u)]
    case 3 => [WriteConfig(t), WriteConfig(u)]
    case 4 => [FinishEnv(t), FinishEnv(u)]
    case _ => [Release(t), Release(u)]
  }

  /** The first k pairs of steps. */
  function InStep(t: Thread, u: Thread, k: nat): seq<Action>
    requires k <= ROUND
  {
    if k == 0 then [] else InStep(t, u, k - 1) + Pair(t, u, k - 1)
  }

  lemma NextPair(c: Setup, t: Thread, u: Thread, k: nat)
    requires k < ROUND
    ensures Run(c, InStep(t, u, k + 1)) == Go(c, Run(c, InStep(t, u, k)), Pair(t, u, k))
  {
    RunGo(c, InStep(t, u, k), Pair(t, u, k));
  }

  lemma UpToRead(c: Setup, t: Thread, u: Thread)
    requires BothWrite(c, t, u)
    ensures BothAt(Run(c, InStep(t, u, 3)), t, u, c.init.config,
                   Planned(Decide(c.w, c.init.config, c.call(t))), Planned(Decide(c.w, c.init.config, c.call(u))))
  {
    NextPair(c, t, u, 0);
    BothEnter(c, t, u);
    NextPair(c, t, u, 1);
    BothLock(c, Run(c, InStep(t, u, 1)), t, u);
    NextPair(c, t, u, 2);
    BothRead(c, Run(c, InStep(t, u, 2)), t, u,
             Decide(c.w, c.init.config, c.call(t)), Decide(c.w, c.init.config, c.call(u)));
  }

  lemma UpToEnd(c: Setup, t: Thread, u: Thread, p: Plan, q: Plan)
    requires t != u && !c.call(t).o.configFails && !c.call(u).o.configFails && OnlyConfig(p) && OnlyConfig(q)
    requires BothAt(Run(c, InStep(t, u, 3)), t, u, c.init.config, Planned(p), Planned(q))
    ensures BothAt(Run(c, InStep(t, u, ROUND)), t, u, Some(q.bytes), Out(None), Out(None))
  {
    NextPair(c, t, u, 3);
    BothReplace(c, Run(c, InStep(t, u, 3)), t, u, p, q);
    UpToRelease(c, t, u, p, q);
    NextPair(c, t, u, 5);
    BothLeave(c, Run(c, InStep(t, u, 5)), t, u, Some(q.bytes));
  }

  lemma UpToRelease(c: Setup, t: Thread, u: Thread, p: Plan, q: Plan)
    requires t != u && OnlyConfig(p) && OnlyConfig(q)
    requires BothAt(Run(c, InStep(t, u, 4)), t, u, Some(q.bytes), Configured(p), Configured(q))
    ensures BothAt(Run(c, InStep(t, u, 5)), t, u, Some(q.bytes), Done(None), Done(None))
  {
    NextPair(c, t, u, 4);
    BothFinish(c, Run(c, InStep(t, u, 4)), t, u, p, q, Some(q.bytes));
  }

  /** Two calls in different processes without flock both report success, and the config file is what the
      second writer made of the file both had read: the first update is lost. */
  lemma LostUpdate(c: Setup, t: Thread, u: Thread)
    requires BothWrite(c, t, u)
    ensures BothAt(Run(c, InStep(t, u, ROUND)), t, u, Some(Decide(c.w, c.init.config, c.call(u)).bytes),
                   Out(None), Out(None))
  {
    UpToRead(c, t, u);
    UpToEnd(c, t, u, Decide(c.w, c.init.config, c.call(t)), Decide(c.w, c.init.config, c.call(u)));
  }

  /** Two Adds of different integrations: both succeed, and the first one is in no config. */
  lemma LostAdd(c: Setup, t: Thread, u: Thread)
    requires BothWrite(c, t, u) && c.call(t).Add? && c.call(u).Add? && Lawful(c.w)
    requires c.call(t).spec.name != c.call(u).spec.name
    ensures var s := Run(c, InStep(t, u, ROUND));
            Phases(s, t) == Out(None) && Phases(s, u) == Out(None)
    ensures var config := Run(c, InStep(t, u, ROUND)).files.config;
            Loaded(c.w, config).Some? && !HasName(Loaded(c.w, config).value.clients, c.call(t).spec.name)
  {
    LostUpdate(c, t, u);
    AddedLoads(c.w, c.init, c.call(u), c.call(t).spec.name);
    assert !HasName(Loaded(c.w, c.init.config).value.clients, c.call(t).spec.name);
  }

  lemma AddedLoads(w: World, fs: Files, call: Call, other: string)
    requires Lawful(w) && call.Add? && OnlyConfig(Decide(w, fs.config, call)) && call.spec.name != other
    ensures Loaded(w, fs.config).Some?
    ensures var config := Some(Decide(w, fs.config, call).bytes);
            && Loaded(w, config).Some?
            && (HasName(Loaded(w, config).value.clients, other) ==> HasName(Loaded(w, fs.config).value.clients, other))
  {
    var cs := Loaded(w, fs.config).value.clients;
    LoadedClientsOk(w, fs.config);
    ExtendedOk(cs, call.spec);
    WrittenReloads(w, fs.config, cs + [NewClient(call.spec)]);
  }
}
