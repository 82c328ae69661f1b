/** The stdio JSON-RPC client with its restarting subprocess: internal/mcpclient/stdio.go,
    client.go:158-171 and manager.go:96-164.

    Goroutines interleave at their critical sections and channel operations, so the client is a
    state machine over those atomic actions; an action that is not enabled changes nothing.
    Subprocesses are numbered by start (epoch 1, 2, ...). */
module StdioClient {
  import opened Common

  /** A response line; origin is the epoch of the subprocess that printed it. */
  datatype Frame = Frame(id: nat, origin: nat, body: string)

  datatype Outcome = Got(f: Frame) | ChanClosed | CtxCancelled | ExitedMidCall | WriteFailed | NotStarted | ClientClosed

  /** Where one call() is. */
  datatype Phase =
    | Numbered                    // has its id
    | Registered                  // its channel is in the pending map
    | Captured(epoch: nat)        // has read writer and doneCh of this epoch
    | Waiting(epoch: nat)         // request written, in select
    | Leaving(res: Outcome)       // result known, deferred delete still to run
    | Returned(res: Outcome)

  /** A capacity-one channel. */
  datatype Chan = Chan(buf: Option<Frame>, closed: bool)

  /** A reader goroutine, holding a frame between the map lookup and the channel send. */
  datatype Reader = Scanning | Sending(f: Frame)

  /** The manager's stop channel: Close closes it, then sets the field to nil. */
  datatype Stop = Open | Shut | Nil

  /** stoppable: the stop channel was not yet nil when the select was entered, so it can still fire. */
  datatype Supervisor =
    | Unsupervised
    | Selecting(stoppable: bool)
    | BackingOff(stoppable: bool)
    | Starting
    | Initializing
    | Stopped

  /** The calls and their channels: the pending map, the request ids, and for the proofs to which subprocess
      each request was written, with or without an error, and which ids have been printed. */
  datatype Book = Book(lastId: nat, calls: map<nat, Phase>, pend: set<nat>, chans: map<nat, Chan>,
                       asked: map<nat, nat>, answered: set<nat>)

  /** The subprocesses; live is the epoch whose pipe and done channel the client's fields hold. */
  datatype Procs = Procs(epoch: nat, live: Option<nat>, exited: set<nat>, readers: map<nat, Reader>,
                         closed: bool, closing: Option<Option<nat>>, panicked: bool)

  /** The manager's side. */
  datatype Boss = Boss(sup: Supervisor, stop: Stop, backoff: nat)

  datatype State = State(b: Book, p: Procs, m: Boss)

  function Init(): State {
    State(Book(0, map[], {}, map[], map[], {}), Procs(0, None, {}, map[], false, None, false),
          Boss(Unsupervised, Open, 1))
  }

  datatype Action =
    | NewCall | Register(id: nat) | Capture(id: nat) | Write(id: nat, ok: bool)
    | Receive(id: nat) | Cancel(id: nat) | SeeExit(id: nat) | Leave(id: nat)
    | Lookup(e: nat, f: Frame) | Send(e: nat)
    | Exit(e: nat) | CloseBegin | CloseFlush
    | BootStart | Supervise | SupExit | SupReset | SupStart(ok: bool) | SupInit(ok: bool) | SupStop
    | StopShut | StopNil

  predicate At(s: State, id: nat, p: Phase) { id in s.b.calls && s.b.calls[id] == p }

  predicate Enabled(s: State, a: Action) {
    match a
    case NewCall => true
    case Register(id) => At(s, id, Numbered)
    case Capture(id) => At(s, id, Registered)
    case Write(id, _) => id in s.b.calls && s.b.calls[id].Captured?
    case Receive(id) =>
      id in s.b.calls && s.b.calls[id].Waiting? && id in s.b.chans && (s.b.chans[id].buf.Some? || s.b.chans[id].closed)
    case Cancel(id) => id in s.b.calls && s.b.calls[id].Waiting?
    case SeeExit(id) => id in s.b.calls && s.b.calls[id].Waiting? && s.b.calls[id].epoch in s.p.exited
    case Leave(id) => id in s.b.calls && s.b.calls[id].Leaving?
    case Lookup(e, f) => e in s.p.readers && s.p.readers[e].Scanning? && f.origin == e
    case Send(e) => e in s.p.readers && s.p.readers[e].Sending? && s.p.readers[e].f.id in s.b.chans && !Blocked(s, e)
    case Exit(e) => 1 <= e <= s.p.epoch && e !in s.p.exited
    case CloseBegin => true
    case CloseFlush => s.p.closing.Some? && (s.p.closing.value.None? || s.p.closing.value.value in s.p.exited)
    case BootStart => s.p.epoch == 0 && !s.p.closed
    case Supervise => s.m.sup.Unsupervised? && s.p.epoch == 1
    case SupExit => s.m.sup.Selecting? && s.p.live.Some? && s.p.live.value in s.p.exited
    case SupReset => s.m.sup.BackingOff?
    case SupStart(ok) => s.m.sup.Starting? && (s.p.closed ==> !ok)
    case SupInit(_) => s.m.sup.Initializing?
    case SupStop => (s.m.sup.Selecting? || s.m.sup.BackingOff?) && s.m.sup.stoppable && !s.m.stop.Open?
    case StopShut => s.m.stop.Open?
    case StopNil => s.m.stop.Shut?
  }

  /** The reader's send would block: its channel is full. */
  predicate Blocked(s: State, e: nat) {
    && e in s.p.readers && s.p.readers[e].Sending? && s.p.readers[e].f.id in s.b.chans
    && s.b.chans[s.p.readers[e].f.id].buf.Some? && !s.b.chans[s.p.readers[e].f.id].closed
  }

  function Move(b: Book, id: nat, p: Phase): Book { b.(calls := b.calls[id := p]) }

  /** What an action does to the calls. */
  function DoBook(s: State, a: Action): Book
    requires Enabled(s, a)
  {
    var b := s.b;
    match a
    case NewCall => Move(b, b.lastId + 1, Numbered).(lastId := b.lastId + 1)
    case Register(id) => Move(b, id, Registered).(pend := b.pend + {id}, chans := b.chans[id := Chan(None, false)])
    case Capture(id) =>
      Move(b, id, if s.p.closed then Leaving(ClientClosed)
                  else if s.p.live.None? then Leaving(NotStarted)
                  else Captured(s.p.live.value))
    case Write(id, ok) =>
      var epoch := b.calls[id].epoch;
      Move(b, id, if ok then Waiting(epoch) else Leaving(WriteFailed)).(asked := b.asked[id := epoch])
    case Receive(id) =>
      if b.chans[id].buf.Some? then
        Move(b, id, Leaving(Got(b.chans[id].buf.value))).(chans := b.chans[id := b.chans[id].(buf := None)])
      else Move(b, id, Leaving(ChanClosed))
    case Cancel(id) => Move(b, id, Leaving(CtxCancelled))
    case SeeExit(id) => Move(b, id, Leaving(ExitedMidCall))
    case Leave(id) => Move(b, id, Returned(b.calls[id].res)).(pend := b.pend - {id})
    case Lookup(_, f) => b.(answered := b.answered + {f.id})
    case Send(e) =>
      var f := s.p.readers[e].f;
      if b.chans[f.id].closed then b else b.(chans := b.chans[f.id := Chan(Some(f), false)])
    case CloseFlush =>
      b.(pend := {},
         chans := map id | id in b.chans :: if id in b.pend then b.chans[id].(closed := true) else b.chans[id])
    case _ => b
  }

  /** What it does to the subprocesses and their readers. */
  function DoProcs(s: State, a: Action): Procs
    requires Enabled(s, a)
  {
    var p := s.p;
    match a
    case Lookup(e, f) => if f.id != 0 && f.id in s.b.pend then p.(readers := p.readers[e := Sending(f)]) else p
    case Send(e) =>
      if s.b.chans[p.readers[e].f.id].closed then p.(panicked := true) else p.(readers := p.readers[e := Scanning])
    case Exit(e) => p.(exited := p.exited + {e})
    case CloseBegin => p.(closed := true, closing := Some(p.live))
    case BootStart => Started(p)
    case SupReset => p.(live := None)
    case SupStart(ok) => if ok then Started(p) else p
    case _ => p
  }

  /** A new subprocess with its own pipes, done channel and reader. */
  function Started(p: Procs): Procs {
    p.(epoch := p.epoch + 1, live := Some(p.epoch + 1), readers := p.readers[p.epoch + 1 := Scanning])
  }

  /** The top of the supervisor's loop. */
  function Enter(m: Boss): Supervisor { Selecting(!m.stop.Nil?) }

  /** What it does to the manager and its supervisor. */
  function DoBoss(s: State, a: Action, max: nat): Boss
    requires Enabled(s, a)
  {
    var m := s.m;
    match a
    case Supervise => m.(sup := Enter(m))
    case SupExit => m.(sup := if s.p.closed then Stopped else BackingOff(!m.stop.Nil?))
    case SupReset => m.(sup := Starting)
    case SupStart(ok) =>
      if ok then m.(sup := Initializing) else m.(sup := Enter(m), backoff := NextBackoff(m.backoff, max))
    case SupInit(ok) => m.(sup := Enter(m), backoff := if ok then 1 else NextBackoff(m.backoff, max))
    case SupStop => m.(sup := Stopped)
    case StopShut => m.(stop := Shut)
    case StopNil => m.(stop := Nil)
    case _ => m
  }

  function Do(s: State, a: Action, max: nat): State
    requires Enabled(s, a)
  {
    State(DoBook(s, a), DoProcs(s, a), DoBoss(s, a, max))
  }

  /** Delays in seconds. */
  function NextBackoff(b: nat, max: nat): nat { if 2 * b > max then max else 2 * b }

  function Step(s: State, a: Action, max: nat): State { if Enabled(s, a) then Do(s, a, max) else s }

  function Run(s: State, acts: seq<Action>, max: nat): State {
    if acts == [] then s else Step(Run(s, acts[..|acts| - 1], max), acts[|acts| - 1], max)
  }

  // ---- Safety against any server ---------------------------------------------

  predicate OwnResult(id: nat, p: Phase) {
    (p.Leaving? || p.Returned?) && p.res.Got? ==> p.res.f.id == id
  }

  /** Call id is in the pending map at most from registration until it leaves, its channel
      only ever holds frames with its own id, and so does its result. */
  predicate CallOk(s: State, id: nat) {
    && (id in s.b.calls ==> 1 <= id <= s.b.lastId && OwnResult(id, s.b.calls[id]))
    && (id in s.b.pend ==> id in s.b.calls && !s.b.calls[id].Numbered? && !s.b.calls[id].Returned?)
    && (id in s.b.chans <==> id in s.b.calls && !s.b.calls[id].Numbered?)
    && (Buffered(s, id) ==> s.b.chans[id].buf.value.id == id)
  }

  predicate ReaderOk(s: State, e: nat) {
    e in s.p.readers && s.p.readers[e].Sending? ==> s.p.readers[e].f.id in s.b.chans
  }

  ghost predicate Safe(s: State) {
    (forall id :: CallOk(s, id)) && (forall e :: ReaderOk(s, e))
  }

  lemma StepCallOk(s: State, a: Action, id: nat, max: nat)
    requires CallOk(s, id) && Enabled(s, a)
    ensures CallOk(Do(s, a, max), id)
  {
  }

  lemma StepReaderOk(s: State, a: Action, e: nat, max: nat)
    requires ReaderOk(s, e) && Enabled(s, a)
    requires a.Lookup? ==> CallOk(s, a.f.id)
    ensures ReaderOk(Do(s, a, max), e)
  {
  }

  lemma StepSafe(s: State, a: Action, max: nat)
    requires Safe(s)
    ensures Safe(Step(s, a, max))
  {
    if Enabled(s, a) {
      forall id ensures CallOk(Do(s, a, max), id) { StepCallOk(s, a, id, max); }
      forall e ensures ReaderOk(Do(s, a, max), e) {
        assert a.Lookup? ==> CallOk(s, a.f.id);
        StepReaderOk(s, a, e, max);
      }
    }
  }

  lemma {:induction false} AlwaysSafe(acts: seq<Action>, max: nat)
    ensures Safe(Run(Init(), acts, max))
  {
    if acts != [] {
      AlwaysSafe(acts[..|acts| - 1], max);
      StepSafe(Run(Init(), acts[..|acts| - 1], max), acts[|acts| - 1], max);
    }
  }

  /** Whatever the server prints: a returned call is no longer pending, a call that completes with a
      frame got one with its own id, and each call keeps the one result it returned for ever. */
  lemma CallsGetTheirOwn(acts: seq<Action>, more: seq<Action>, id: nat, max: nat)
    ensures var s := Run(Init(), acts, max);
            id in s.b.calls && s.b.calls[id].Returned? ==>
              && id !in s.b.pend
              && (s.b.calls[id].res.Got? ==> s.b.calls[id].res.f.id == id)
              && At(Run(s, more, max), id, s.b.calls[id])
  {
    AlwaysSafe(acts, max);
    var s := Run(Init(), acts, max);
    if id in s.b.calls && s.b.calls[id].Returned? {
      ResultKept(s, more, id, max);
    }
  }

  lemma ReturnedStays(s: State, a: Action, id: nat, max: nat)
    requires CallOk(s, id) && id in s.b.calls && s.b.calls[id].Returned? && Enabled(s, a)
    ensures At(Do(s, a, max), id, s.b.calls[id])
  {
  }

  lemma {:induction false} ResultKept(s: State, more: seq<Action>, id: nat, max: nat)
    requires CallOk(s, id) && id in s.b.calls && s.b.calls[id].Returned?
    ensures CallOk(Run(s, more, max), id) && At(Run(s, more, max), id, s.b.calls[id])
  {
    if more != [] {
      var t, a := Run(s, more[..|more| - 1], max), more[|more| - 1];
      ResultKept(s, more[..|more| - 1], id, max);
      if Enabled(t, a) {
        StepCallOk(t, a, id, max);
        ReturnedStays(t, a, id, max);
      }
    }
  }

  predicate SendingId(s: State, e: nat, id: nat) {
    e in s.p.readers && s.p.readers[e].Sending? && s.p.readers[e].f.id == id
  }

  predicate Consumed(s: State, id: nat) {
    id in s.b.calls && (s.b.calls[id].Leaving? || s.b.calls[id].Returned?) && s.b.calls[id].res.Got?
  }

  predicate Buffered(s: State, id: nat) { id in s.b.chans && s.b.chans[id].buf.Some? }

  // ---- With a server that answers each id at most once ---------------------------------

  /** Notifications have id 0 and may come at any time; any other id is printed once. */
  predicate Once(s: State, a: Action) { a.Lookup? && a.f.id != 0 ==> a.f.id !in s.b.answered }

  ghost predicate OnceRun(acts: seq<Action>, max: nat) {
    forall k :: 0 <= k < |acts| && Enabled(Run(Init(), acts[..k], max), acts[k])
                ==> Once(Run(Init(), acts[..k], max), acts[k])
  }

  /** A printed id is in at most one place: in one reader's hand or in the channel. */
  predicate Spent(s: State, id: nat) { Buffered(s, id) ==> id in s.b.answered }

  predicate HandFree(s: State, e: nat, id: nat) {
    SendingId(s, e, id) ==> id != 0 && id in s.b.answered && !Buffered(s, id)
  }

  predicate HandAlone(s: State, e: nat, u: nat, id: nat) { e != u ==> !(SendingId(s, e, id) && SendingId(s, u, id)) }

  ghost predicate Free(s: State) {
    && (forall id :: Spent(s, id)) && (forall e, id :: HandFree(s, e, id))
    && (forall e, u, id :: HandAlone(s, e, u, id))
  }

  lemma StepSpent(s: State, a: Action, id: nat, max: nat)
    requires Spent(s, id) && Enabled(s, a) && (a.Send? ==> HandFree(s, a.e, id))
    ensures Spent(Do(s, a, max), id)
  {
  }

  lemma StepHandFree(s: State, a: Action, e: nat, id: nat, max: nat)
    requires Spent(s, id) && HandFree(s, e, id) && Enabled(s, a) && Once(s, a)
    requires a.Send? ==> HandAlone(s, a.e, e, id)
    ensures HandFree(Do(s, a, max), e, id)
  {
  }

  lemma StepHandAlone(s: State, a: Action, e: nat, u: nat, id: nat, max: nat)
    requires HandFree(s, e, id) && HandFree(s, u, id) && HandAlone(s, e, u, id) && Enabled(s, a) && Once(s, a)
    ensures HandAlone(Do(s, a, max), e, u, id)
  {
  }

  lemma StepFree(s: State, a: Action, max: nat)
    requires Free(s) && Enabled(s, a) && Once(s, a)
    ensures Free(Do(s, a, max))
  {
    forall id ensures Spent(Do(s, a, max), id) {
      assert Spent(s, id) && (a.Send? ==> HandFree(s, a.e, id));
      StepSpent(s, a, id, max);
    }
    forall e, id ensures HandFree(Do(s, a, max), e, id) {
      assert Spent(s, id) && HandFree(s, e, id) && (a.Send? ==> HandAlone(s, a.e, e, id));
      StepHandFree(s, a, e, id, max);
    }
    forall e, u, id ensures HandAlone(Do(s, a, max), e, u, id) {
      assert HandFree(s, e, id) && HandFree(s, u, id) && HandAlone(s, e, u, id);
      StepHandAlone(s, a, e, u, id, max);
    }
  }

  lemma {:induction false} AlwaysFree(acts: seq<Action>, max: nat)
    requires OnceRun(acts, max)
    ensures Free(Run(Init(), acts, max))
  {
    if acts != [] {
      var rest := acts[..|acts| - 1];
      forall k | 0 <= k < |rest| && Enabled(Run(Init(), rest[..k], max), rest[k])
        ensures Once(Run(Init(), rest[..k], max), rest[k])
      {
        assert rest[..k] == acts[..k];
      }
      AlwaysFree(rest, max);
      if Enabled(Run(Init(), rest, max), acts[|acts| - 1]) {
        StepFree(Run(Init(), rest, max), acts[|acts| - 1], max);
      }
    }
  }

  /** If no id is printed twice, whoever it was meant for and whatever notifications come between, the
      reader's send never blocks. */
  lemma ReaderNeverBlocks(acts: seq<Action>, max: nat)
    requires OnceRun(acts, max)
    ensures forall e :: !Blocked(Run(Init(), acts, max), e)
  {
    AlwaysFree(acts, max);
    var s := Run(Init(), acts, max);
    forall e ensures !Blocked(s, e) {
      if e in s.p.readers && s.p.readers[e].Sending? { assert HandFree(s, e, s.p.readers[e].f.id); }
    }
  }

  // ---- With servers that answer only what they were asked ------------------------------

  /** A frame that is not a notification answers a request written to that very subprocess. */
  predicate Solicited(s: State, a: Action) {
    a.Lookup? && a.f.id != 0 ==> a.f.id in s.b.asked && s.b.asked[a.f.id] == a.e
  }

  ghost predicate SolicitedRun(acts: seq<Action>, max: nat) {
    forall k :: 0 <= k < |acts| && Enabled(Run(Init(), acts[..k], max), acts[k])
                ==> Solicited(Run(Init(), acts[..k], max), acts[k])
  }

  predicate FromAsked(s: State, id: nat, f: Frame) { id in s.b.asked && s.b.asked[id] == f.origin }

  predicate Asked(p: Phase) { p.Waiting? || p.Leaving? || p.Returned? }

  predicate AnswerOk(s: State, id: nat) {
    && (Buffered(s, id) ==> FromAsked(s, id, s.b.chans[id].buf.value))
    && (Consumed(s, id) ==> FromAsked(s, id, s.b.calls[id].res.f))
    && (id in s.b.asked ==> id in s.b.calls && Asked(s.b.calls[id]))
  }

  predicate InHandOk(s: State, e: nat, id: nat) { SendingId(s, e, id) ==> FromAsked(s, id, s.p.readers[e].f) }

  ghost predicate Traced(s: State) { (forall id :: AnswerOk(s, id)) && (forall e, id :: InHandOk(s, e, id)) }

  lemma StepAnswerOk(s: State, a: Action, id: nat, max: nat)
    requires CallOk(s, id) && AnswerOk(s, id) && Enabled(s, a) && (a.Send? ==> InHandOk(s, a.e, id))
    ensures AnswerOk(Do(s, a, max), id)
  {
  }

  lemma StepInHandOk(s: State, a: Action, e: nat, id: nat, max: nat)
    requires AnswerOk(s, id) && InHandOk(s, e, id) && Enabled(s, a) && Solicited(s, a)
    ensures InHandOk(Do(s, a, max), e, id)
  {
  }

  lemma StepTraced(s: State, a: Action, max: nat)
    requires Safe(s) && Traced(s) && Enabled(s, a) && Solicited(s, a)
    ensures Traced(Do(s, a, max))
  {
    forall id ensures AnswerOk(Do(s, a, max), id) {
      assert CallOk(s, id) && AnswerOk(s, id) && (a.Send? ==> InHandOk(s, a.e, id));
      StepAnswerOk(s, a, id, max);
    }
    forall e, id ensures InHandOk(Do(s, a, max), e, id) {
      assert AnswerOk(s, id) && InHandOk(s, e, id);
      StepInHandOk(s, a, e, id, max);
    }
  }

  lemma {:induction false} AlwaysTraced(acts: seq<Action>, max: nat)
    requires SolicitedRun(acts, max)
    ensures Traced(Run(Init(), acts, max))
  {
    if acts != [] {
      var rest := acts[..|acts| - 1];
      forall k | 0 <= k < |rest| && Enabled(Run(Init(), rest[..k], max), rest[k])
        ensures Solicited(Run(Init(), rest[..k], max), rest[k])
      {
        assert rest[..k] == acts[..k];
      }
      AlwaysTraced(rest, max);
      AlwaysSafe(rest, max);
      if Enabled(Run(Init(), rest, max), acts[|acts| - 1]) {
        StepTraced(Run(Init(), rest, max), acts[|acts| - 1], max);
      }
    }
  }

  /** A frame that completes a call was printed by the very subprocess to which that call's request was
      written, however often servers answer and whatever notifications they send. */
  lemma AnswersReachTheirCall(acts: seq<Action>, max: nat, id: nat)
    requires SolicitedRun(acts, max)
    ensures var s := Run(Init(), acts, max);
            Consumed(s, id) ==> id in s.b.asked && s.b.calls[id].res.f.origin == s.b.asked[id]
  {
    AlwaysTraced(acts, max);
    assert AnswerOk(Run(Init(), acts, max), id);
  }

  // ---- Close against a reader in mid-send ----------------------------------------------

  /** Close is about to close a channel on which some reader has already decided to send. */
  ghost predicate Race(s: State, a: Action) {
    a.CloseFlush? && Enabled(s, a) && exists e, id :: SendingId(s, e, id) && id in s.b.pend
  }

  ghost predicate Raceless(s: State, acts: seq<Action>, max: nat) {
    forall k :: 0 <= k < |acts| ==> !Race(Run(s, acts[..k], max), acts[k])
  }

  /** A closed channel is out of the map, and no reader is about to send on it. */
  predicate ClosedOk(s: State, id: nat) { id in s.b.chans && s.b.chans[id].closed ==> id !in s.b.pend }

  predicate OpenInHand(s: State, e: nat, id: nat) { SendingId(s, e, id) && id in s.b.chans ==> !s.b.chans[id].closed }

  ghost predicate Quiet(s: State) {
    !s.p.panicked && (forall id :: ClosedOk(s, id)) && (forall e, id :: OpenInHand(s, e, id))
  }

  lemma StepClosedOk(s: State, a: Action, id: nat, max: nat)
    requires CallOk(s, id) && ClosedOk(s, id) && Enabled(s, a)
    ensures ClosedOk(Do(s, a, max), id)
  {
  }

  lemma StepOpenInHand(s: State, a: Action, e: nat, id: nat, max: nat)
    requires CallOk(s, id) && ClosedOk(s, id) && OpenInHand(s, e, id) && Enabled(s, a)
    requires a.CloseFlush? && SendingId(s, e, id) ==> id !in s.b.pend
    ensures OpenInHand(Do(s, a, max), e, id)
  {
  }

  lemma StepQuiet(s: State, a: Action, max: nat)
    requires Safe(s) && Quiet(s) && Enabled(s, a) && !Race(s, a)
    ensures Quiet(Do(s, a, max))
  {
    forall id ensures ClosedOk(Do(s, a, max), id) {
      assert CallOk(s, id) && ClosedOk(s, id);
      StepClosedOk(s, a, id, max);
    }
    forall e, id ensures OpenInHand(Do(s, a, max), e, id) {
      assert CallOk(s, id) && ClosedOk(s, id) && OpenInHand(s, e, id);
      StepOpenInHand(s, a, e, id, max);
    }
    if a.Send? {
      assert OpenInHand(s, a.e, s.p.readers[a.e].f.id);
    }
  }

  lemma {:induction false} AlwaysQuiet(acts: seq<Action>, max: nat)
    requires Raceless(Init(), acts, max)
    ensures Quiet(Run(Init(), acts, max))
  {
    if acts != [] {
      var rest, a := acts[..|acts| - 1], acts[|acts| - 1];
      forall k | 0 <= k < |rest| ensures !Race(Run(Init(), rest[..k], max), rest[k]) {
        assert rest[..k] == acts[..k];
      }
      AlwaysQuiet(rest, max);
      AlwaysSafe(rest, max);
      if Enabled(Run(Init(), rest, max), a) {
        StepQuiet(Run(Init(), rest, max), a, max);
      }
    }
  }

  /** The lookup and the send are separate steps, so Close can come between them. Sending on a closed
      channel happens in no run without that race, and right after it in every run with it. */
  lemma PanicIsTheCloseRace(acts: seq<Action>, e: nat, id: nat, max: nat)
    ensures var s := Run(Init(), acts, max);
            && (s.p.panicked ==> !Raceless(Init(), acts, max))
            && (SendingId(s, e, id) && id in s.b.pend && Enabled(s, CloseFlush) ==>
                  Step(Step(s, CloseFlush, max), Send(e), max).p.panicked)
  {
    if Raceless(Init(), acts, max) { AlwaysQuiet(acts, max); }
    AlwaysSafe(acts, max);
    assert CallOk(Run(Init(), acts, max), id);
  }

  const REPLY := Frame(1, 1, "")
  const CALL: seq<Action> := [BootStart, NewCall, Register(1)]
  const ASK: seq<Action> := [Capture(1), Write(1, true), Lookup(1, REPLY)]
  const SHUT: seq<Action> := [CloseBegin, Exit(1)]

  /** One subprocess with one reader, and a call with the id 1. */
  function OneCall(phase: Phase, reader: Reader, asked: map<nat, nat>, answered: set<nat>): State {
    State(Book(1, map[1 := phase], {1}, map[1 := Chan(None, false)], asked, answered),
          Procs(1, Some(1), {}, map[1 := reader], false, None, false), Boss(Unsupervised, Open, 1))
  }

  function AfterCall(): State { OneCall(Registered, Scanning, map[], {}) }

  function AfterAsk(): State { OneCall(Waiting(1), Sending(REPLY), map[1 := 1], {1}) }

  function AfterShut(): State {
    AfterAsk().(p := AfterAsk().p.(closed := true, closing := Some(Some(1)), exited := {1}))
  }

  lemma RunCall(max: nat)
    ensures Run(Init(), CALL, max) == AfterCall()
  {
    RunThree(Init(), CALL, max);
    var s1 := Step(Init(), BootStart, max);
    assert s1 == Init().(p := Started(Init().p));
    assert Step(s1, NewCall, max).b == Move(s1.b, 1, Numbered).(lastId := 1);
  }

  lemma RunAsk(max: nat)
    ensures Run(AfterCall(), ASK, max) == AfterAsk()
  {
    RunThree(AfterCall(), ASK, max);
    var s := AfterCall();
    assert Step(s, Capture(1), max) == s.(b := Move(s.b, 1, Captured(1)));
  }

  lemma RunClose(max: nat)
    ensures Run(AfterAsk(), SHUT, max) == AfterShut()
  {
    RunTwo(AfterAsk(), SHUT, max);
    assert Step(AfterAsk(), CloseBegin, max).p == AfterAsk().p.(closed := true, closing := Some(Some(1)));
  }

  lemma RunPieces(a: seq<Action>, b: seq<Action>, c: seq<Action>, max: nat)
    ensures Run(Init(), a + b + c, max) == Run(Run(Run(Init(), a, max), b, max), c, max)
  {
    RunSplit(Init(), a, b, max);
    RunSplit(Init(), a + b, c, max);
  }

  lemma RunShut(max: nat)
    ensures Run(Init(), CALL + ASK + SHUT, max) == AfterShut()
  {
    RunPieces(CALL, ASK, SHUT, max);
    RunCall(max);
    RunAsk(max);
    RunClose(max);
  }

  /** The race is reachable with a server whose only output is the answer to a request it has received. */
  lemma RaceReachable(max: nat)
    ensures Run(Init(), CALL + ASK + SHUT + [CloseFlush, Send(1)], max).p.panicked
  {
    var acts := CALL + ASK + SHUT;
    RunShut(max);
    PanicIsTheCloseRace(acts, 1, 1, max);
    RunSplit(Init(), acts, [CloseFlush, Send(1)], max);
    RunTwo(Run(Init(), acts, max), [CloseFlush, Send(1)], max);
  }

  lemma RunTwo(s: State, acts: seq<Action>, max: nat)
    requires |acts| == 2
    ensures Run(s, acts, max) == Step(Step(s, acts[0], max), acts[1], max)
  {
    assert acts[..1][..0] == [];
    assert Run(s, acts[..1], max) == Step(s, acts[0], max);
  }

  lemma RunThree(s: State, acts: seq<Action>, max: nat)
    requires |acts| == 3
    ensures Run(s, acts, max) == Step(Step(Step(s, acts[0], max), acts[1], max), acts[2], max)
  {
    assert acts[..2][..1] == acts[..1] && acts[..1][..0] == [];
    assert Run(s, acts[..1], max) == Step(s, acts[0], max);
    assert Run(s, acts[..2], max) == Step(Step(s, acts[0], max), acts[1], max);
  }

  lemma {:induction false} RunSplit(s: State, a: seq<Action>, b: seq<Action>, max: nat)
    ensures Run(s, a + b, max) == Run(Run(s, a, max), b, max)
  {
    if b == [] {
      assert a + b == a;
    } else {
      RunSplit(s, a, b[..|b| - 1], max);
      assert (a + b)[..|a + b| - 1] == a + b[..|b| - 1];
    }
  }

  // ---- The supervisor ---------------------------------------------------------------------

  /** Between restarts: selecting on a nil done channel, or stopped. */
  predicate Stranded(s: State) { s.p.live.None? && s.p.epoch >= 1 && (s.m.sup.Selecting? || s.m.sup.Stopped?) }

  /** The supervisor's phase fits the client's fields. */
  predicate SupOk(s: State) {
    && (s.p.live.Some? ==> 1 <= s.p.live.value <= s.p.epoch)
    && (s.m.sup.Starting? ==> s.p.live.None?)
    && (s.m.sup.Initializing? ==> s.p.live.Some?)
    && (s.p.epoch == 0 ==> s.m.sup.Unsupervised? && s.p.live.None?)
  }

  lemma StepSupOk(s: State, a: Action, max: nat)
    requires SupOk(s) && Enabled(s, a)
    ensures SupOk(Do(s, a, max))
  {
  }

  lemma {:induction false} AlwaysSupOk(acts: seq<Action>, max: nat)
    ensures SupOk(Run(Init(), acts, max))
  {
    if acts != [] {
      AlwaysSupOk(acts[..|acts| - 1], max);
      var s, a := Run(Init(), acts[..|acts| - 1], max), acts[|acts| - 1];
      if Enabled(s, a) { StepSupOk(s, a, max); }
    }
  }

  lemma StepStranded(s: State, a: Action, max: nat)
    requires Stranded(s) && Enabled(s, a)
    ensures Stranded(Do(s, a, max)) && Do(s, a, max).p.epoch == s.p.epoch && Do(s, a, max).m.backoff == s.m.backoff
  {
  }

  /** A supervisor waiting on a nil done channel never starts another subprocess, whatever happens. */
  lemma {:induction false} FailedRestartIsFinal(s: State, acts: seq<Action>, max: nat)
    requires Stranded(s)
    ensures var t := Run(s, acts, max);
            Stranded(t) && t.p.epoch == s.p.epoch && t.m.backoff == s.m.backoff
  {
    if acts != [] {
      var t, a := Run(s, acts[..|acts| - 1], max), acts[|acts| - 1];
      FailedRestartIsFinal(s, acts[..|acts| - 1], max);
      if Enabled(t, a) { StepStranded(t, a, max); }
    }
  }

  /** In every run, a Start that fails leaves the supervisor waiting on a nil done channel. */
  lemma FailedRestartStrands(acts: seq<Action>, max: nat)
    requires Run(Init(), acts, max).m.sup.Starting?
    ensures Stranded(Run(Init(), acts + [SupStart(false)], max))
  {
    AlwaysSupOk(acts, max);
    assert (acts + [SupStart(false)])[..|acts|] == acts;
  }

  /** What brings a selecting supervisor to the next subprocess. */
  function Restart(s: State): seq<Action>
    requires s.p.live.Some?
  {
    (if s.p.live.value in s.p.exited then [] else [Exit(s.p.live.value)]) + [SupExit, SupReset, SupStart(true)]
  }

  const REDO: seq<Action> := [SupExit, SupReset, SupStart(true)]

  lemma RedoStarts(s: State, max: nat)
    requires s.m.sup.Selecting? && !s.p.closed && s.p.live.Some? && s.p.live.value in s.p.exited
    ensures Run(s, REDO, max).p.epoch == s.p.epoch + 1
  {
    RunThree(s, REDO, max);
    var s1 := Step(s, SupExit, max);
    assert s1.m.sup.BackingOff? && s1.p == s.p;
    var s2 := Step(s1, SupReset, max);
    assert s2.m.sup.Starting? && s2.p == s.p.(live := None);
  }

  lemma RestartStarts(s: State, max: nat)
    requires SupOk(s) && s.m.sup.Selecting? && !s.p.closed && s.p.live.Some?
    ensures Run(s, Restart(s), max).p.epoch == s.p.epoch + 1
  {
    var e := s.p.live.value;
    if e in s.p.exited {
      assert [] + REDO == REDO;
      RedoStarts(s, max);
    } else {
      var t := Step(s, Exit(e), max);
      assert t.m == s.m && t.p == s.p.(exited := s.p.exited + {e});
      RedoStarts(t, max);
      RunSplit(s, [Exit(e)], REDO, max);
      assert [Exit(e)][..0] == [];
    }
  }

  /** In every run, a supervisor that is waiting, with the client not closed, can come to start another
      subprocess if and only if the client still holds a subprocess, so never after a failed Start. */
  lemma RestartsIff(acts: seq<Action>, max: nat)
    requires Run(Init(), acts, max).m.sup.Selecting? && !Run(Init(), acts, max).p.closed
    ensures var s := Run(Init(), acts, max);
            s.p.live.Some? <==> exists more :: Run(s, more, max).p.epoch > s.p.epoch
  {
    var s := Run(Init(), acts, max);
    AlwaysSupOk(acts, max);
    if s.p.live.Some? {
      RestartStarts(s, max);
      assert Run(s, Restart(s), max).p.epoch > s.p.epoch;
    } else {
      forall more ensures Run(s, more, max).p.epoch <= s.p.epoch { FailedRestartIsFinal(s, more, max); }
    }
  }

  const CRASH: seq<Action> := [BootStart, Supervise, Exit(1)]
  const REENTER: seq<Action> := [SupExit, SupReset]

  function AfterCrash(sup: Supervisor, live: Option<nat>): State {
    State(Init().b, Procs(1, live, {1}, map[1 := Scanning], false, None, false), Boss(sup, Open, 1))
  }

  lemma RunFirst(max: nat)
    ensures Run(Init(), CRASH, max) == AfterCrash(Selecting(true), Some(1))
  {
    RunThree(Init(), CRASH, max);
    var s1 := Step(Init(), BootStart, max);
    assert s1 == Init().(p := Started(Init().p));
    assert Step(s1, Supervise, max) == s1.(m := Boss(Selecting(true), Open, 1));
  }

  lemma RunReenter(max: nat)
    ensures Run(AfterCrash(Selecting(true), Some(1)), REENTER, max) == AfterCrash(Starting, None)
  {
    RunTwo(AfterCrash(Selecting(true), Some(1)), REENTER, max);
    assert Step(AfterCrash(Selecting(true), Some(1)), SupExit, max) == AfterCrash(BackingOff(true), Some(1));
  }

  lemma RunCrash(max: nat)
    ensures Run(Init(), CRASH + REENTER, max) == AfterCrash(Starting, None)
  {
    RunFirst(max);
    RunReenter(max);
    RunSplit(Init(), CRASH, REENTER, max);
  }

  /** A run that gets there: the first subprocess exits and its restart fails. */
  lemma StrandedReachable(max: nat)
    ensures Stranded(Run(Init(), CRASH + REENTER + [SupStart(false)], max))
  {
    RunCrash(max);
    FailedRestartStrands(CRASH + REENTER, max);
  }

  // ---- When Close ends -----------------------------------------------------------------------

  /** The manager and the client are closed; what is left of Close is waiting for the supervisor. */
  predicate Closing(s: State) { s.m.stop.Nil? && s.p.closed }

  /** On its way to a refused Start, or already waiting on two nil channels. */
  predicate Doomed(s: State) {
    || s.m.sup.Starting?
    || s.m.sup == BackingOff(false)
    || (s.m.sup == Selecting(false) && s.p.live.None?)
  }

  lemma StepDoomed(s: State, a: Action, max: nat)
    requires SupOk(s) && Closing(s) && Doomed(s) && Enabled(s, a)
    ensures Closing(Do(s, a, max)) && Doomed(Do(s, a, max))
  {
  }

  lemma {:induction false} DoomedForEver(s: State, more: seq<Action>, max: nat)
    requires SupOk(s) && Closing(s) && Doomed(s)
    ensures SupOk(Run(s, more, max)) && Closing(Run(s, more, max)) && Doomed(Run(s, more, max))
  {
    if more != [] {
      var t, a := Run(s, more[..|more| - 1], max), more[|more| - 1];
      DoomedForEver(s, more[..|more| - 1], max);
      if Enabled(t, a) {
        StepSupOk(t, a, max);
        StepDoomed(t, a, max);
      }
    }
  }

  lemma RunOne(s: State, a: Action, max: nat)
    ensures Run(s, [a], max) == Step(s, a, max)
  {
    assert [a][..0] == [];
  }

  /** A selecting supervisor that still holds a subprocess sees it exit and stops. */
  lemma ExitStops(s: State, max: nat) returns (more: seq<Action>)
    requires SupOk(s) && Closing(s) && s.m.sup.Selecting? && s.p.live.Some?
    ensures Run(s, more, max).m.sup.Stopped?
  {
    var e := s.p.live.value;
    if e in s.p.exited {
      more := [SupExit];
      RunOne(s, SupExit, max);
    } else {
      more := [Exit(e), SupExit];
      RunTwo(s, more, max);
      assert Step(s, Exit(e), max) == s.(p := s.p.(exited := s.p.exited + {e}));
    }
  }

  lemma CanStop(s: State, max: nat) returns (more: seq<Action>)
    requires SupOk(s) && Closing(s) && !Doomed(s) && !s.m.sup.Unsupervised?
    ensures Run(s, more, max).m.sup.Stopped?
  {
    match s.m.sup
    case Stopped => more := [];
    case BackingOff(_) => more := [SupStop]; RunOne(s, SupStop, max);
    case Selecting(true) => more := [SupStop]; RunOne(s, SupStop, max);
    case Selecting(false) => more := ExitStops(s, max);
    case Initializing =>
      var t := Step(s, SupInit(true), max);
      StepSupOk(s, SupInit(true), max);
      var rest := ExitStops(t, max);
      more := [SupInit(true)] + rest;
      RunOne(s, SupInit(true), max);
      RunSplit(s, [SupInit(true)], rest, max);
  }

  /** In every run in which the manager and the client have been closed, the supervisor, on which Close waits,
      can still stop if and only if it is not doomed: it is not about to call Start, not in a delay it entered
      after the stop channel had become nil, and not selecting on two nil channels. */
  lemma CloseEndsIff(acts: seq<Action>, max: nat)
    requires Closing(Run(Init(), acts, max)) && !Run(Init(), acts, max).m.sup.Unsupervised?
    ensures var s := Run(Init(), acts, max);
            (exists more :: Run(s, more, max).m.sup.Stopped?) <==> !Doomed(s)
  {
    var s := Run(Init(), acts, max);
    AlwaysSupOk(acts, max);
    if Doomed(s) {
      forall more ensures !Run(s, more, max).m.sup.Stopped? { DoomedForEver(s, more, max); }
    } else {
      var more := CanStop(s, max);
      assert Run(s, more, max).m.sup.Stopped?;
    }
  }

  const SHUTDOWN: seq<Action> := [StopShut, StopNil, CloseBegin]

  /** Closing changes nothing the supervisor has already entered. */
  lemma RunShutdown(s: State, max: nat)
    requires s.m.stop.Open?
    ensures var t := Run(s, SHUTDOWN, max);
            Closing(t) && t.m.sup == s.m.sup && t.p.live == s.p.live && t.p.epoch == s.p.epoch
  {
    RunThree(s, SHUTDOWN, max);
    var s1 := Step(s, StopShut, max);
    assert s1 == s.(m := s.m.(stop := Shut));
    var s2 := Step(s1, StopNil, max);
    assert s2 == s.(m := s.m.(stop := Nil));
    assert Step(s2, CloseBegin, max) == s2.(p := s.p.(closed := true, closing := Some(s.p.live)));
  }

  /** The manager closes while the supervisor is about to call Start: it never stops, and Close waits for it
      for ever. */
  lemma CloseCanHang(max: nat, more: seq<Action>)
    ensures !Run(Run(Init(), CRASH + REENTER + SHUTDOWN, max), more, max).m.sup.Stopped?
  {
    RunCrash(max);
    RunShutdown(AfterCrash(Starting, None), max);
    RunSplit(Init(), CRASH + REENTER, SHUTDOWN, max);
    AlwaysSupOk(CRASH + REENTER + SHUTDOWN, max);
    DoomedForEver(Run(Init(), CRASH + REENTER + SHUTDOWN, max), more, max);
  }

  const LATE_EXIT: seq<Action> := [StopNil, SupExit, CloseBegin]

  lemma RunLateExit(s: State, max: nat)
    requires s.m.stop.Shut? && s.m.sup.Selecting? && s.p.live.Some? && s.p.live.value in s.p.exited && !s.p.closed
    ensures Closing(Run(s, LATE_EXIT, max)) && Run(s, LATE_EXIT, max).m.sup == BackingOff(false)
  {
    RunThree(s, LATE_EXIT, max);
    var s1 := Step(s, StopNil, max);
    assert s1 == s.(m := s.m.(stop := Nil));
    assert Step(s1, SupExit, max) == s.(m := s.m.(stop := Nil, sup := BackingOff(false)));
  }

  /** The other way in: the supervisor sees its subprocess exit after the stop channel has become nil and
      before the client is closed. */
  lemma CloseCanHangLate(max: nat, more: seq<Action>)
    ensures !Run(Run(Init(), CRASH + [StopShut] + LATE_EXIT, max), more, max).m.sup.Stopped?
  {
    var acts := CRASH + [StopShut];
    RunFirst(max);
    RunSplit(Init(), CRASH, [StopShut], max);
    RunOne(AfterCrash(Selecting(true), Some(1)), StopShut, max);
    RunLateExit(Run(Init(), acts, max), max);
    RunSplit(Init(), acts, LATE_EXIT, max);
    AlwaysSupOk(acts + LATE_EXIT, max);
    DoomedForEver(Run(Init(), acts + LATE_EXIT, max), more, max);
  }

  // ---- Backoff ----------------------------------------------------------------------------

  function Power2(k: nat): nat { if k == 0 then 1 else 2 * Power2(k - 1) }

  /** 2^k seconds, capped at the maximum. */
  function Delay(k: nat, max: nat): nat { if Power2(k) > max then max else Power2(k) }

  lemma NextDelay(k: nat, max: nat)
    ensures NextBackoff(Delay(k, max), max) == Delay(k + 1, max)
  {
  }

  /** Failed restarts since the last one that succeeded, when one more action is taken in s. */
  function CountFailure(s: State, a: Action, before: nat): nat {
    if !Enabled(s, a) then before
    else match a
      case SupStart(ok) => if ok then before else before + 1
      case SupInit(ok) => if ok then 0 else before + 1
      case _ => before
  }

  function Failures(acts: seq<Action>, max: nat): nat {
    if acts == [] then 0
    else CountFailure(Run(Init(), acts[..|acts| - 1], max), acts[|acts| - 1], Failures(acts[..|acts| - 1], max))
  }

  lemma StepBackoff(s: State, a: Action, k: nat, max: nat)
    requires s.m.backoff == Delay(k, max) && max >= 1
    ensures Step(s, a, max).m.backoff == Delay(CountFailure(s, a, k), max)
  {
    NextDelay(k, max);
    assert Delay(0, max) == 1;
  }

  /** In every run the delay is 2^k seconds after k failures in a row, capped at the maximum. */
  lemma {:induction false} BackoffDoubles(acts: seq<Action>, max: nat)
    requires max >= 1
    ensures Run(Init(), acts, max).m.backoff == Delay(Failures(acts, max), max)
  {
    if acts == [] {
      assert Delay(0, max) == 1;
    } else {
      var rest := acts[..|acts| - 1];
      BackoffDoubles(rest, max);
      StepBackoff(Run(Init(), rest, max), acts[|acts| - 1], Failures(rest, max), max);
    }
  }
}
