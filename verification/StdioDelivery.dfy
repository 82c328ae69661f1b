/** What becomes of a response line of a stdio server: internal/mcpclient/stdio.go:195-267. */
module StdioDelivery {
  import opened Common
  import opened StdioClient

  predicate Scans(s: State, e: nat) { e in s.p.readers && s.p.readers[e].Scanning? }
  predicate InHand(s: State, e: nat, f: Frame) { e in s.p.readers && s.p.readers[e] == Sending(f) }
  predicate InChan(s: State, id: nat, f: Frame) { id in s.b.chans && s.b.chans[id].buf == Some(f) }
  predicate Waits(s: State, id: nat) { id in s.b.calls && s.b.calls[id].Waiting? }

  predicate Took(s: State, id: nat, f: Frame) {
    id in s.b.calls && (s.b.calls[id].Leaving? || s.b.calls[id].Returned?) && s.b.calls[id].res == Got(f)
  }

  // ---- A frame that is sent arrives ---------------------------------------------------

  lemma StepInChan(s: State, a: Action, id: nat, f: Frame, max: nat)
    requires CallOk(s, id) && InChan(s, id, f) && Enabled(s, a)
    ensures if a == Receive(id) then At(Do(s, a, max), id, Leaving(Got(f))) else InChan(Do(s, a, max), id, f)
  {
  }

  lemma StepTook(s: State, a: Action, id: nat, f: Frame, max: nat)
    requires CallOk(s, id) && Took(s, id, f) && Enabled(s, a)
    ensures Took(Do(s, a, max), id, f)
  {
  }

  lemma {:induction false} FrameKept(s: State, more: seq<Action>, id: nat, f: Frame, max: nat)
    requires CallOk(s, id) && InChan(s, id, f)
    ensures var u := Run(s, more, max);
            && CallOk(u, id)
            && (InChan(u, id, f) || Took(u, id, f))
            && (Receive(id) !in more ==> InChan(u, id, f))
  {
    if more != [] {
      var rest, a := more[..|more| - 1], more[|more| - 1];
      var t := Run(s, rest, max);
      FrameKept(s, rest, id, f, max);
      if Enabled(t, a) {
        StepCallOk(t, a, id, max);
        if InChan(t, id, f) { StepInChan(t, a, id, f, max); } else { StepTook(t, a, id, f, max); }
      }
    }
  }

  lemma SendFills(s: State, e: nat, max: nat)
    requires Enabled(s, Send(e)) && !s.b.chans[s.p.readers[e].f.id].closed
    ensures var f, t := s.p.readers[e].f, Step(s, Send(e), max);
            && t.b == s.b.(chans := s.b.chans[f.id := Chan(Some(f), false)])
            && t.p == s.p.(readers := s.p.readers[e := Scanning])
  {
  }

  /** In every run, once a reader has sent the frame it holds on an open channel, the channel of the call
      with that id holds exactly that frame. It stays there until the call receives it, and then it is,
      body included, the call's result for ever: in every continuation it is in one of these places. */
  lemma SentFrameArrives(acts: seq<Action>, e: nat, more: seq<Action>, max: nat)
    requires var s := Run(Init(), acts, max);
             Enabled(s, Send(e)) && !s.b.chans[s.p.readers[e].f.id].closed
    ensures var s := Run(Init(), acts, max);
            var f := s.p.readers[e].f;
            var t := Step(s, Send(e), max);
            var u := Run(t, more, max);
            && t.b.chans[f.id] == Chan(Some(f), false)
            && (Receive(f.id) !in more ==> InChan(u, f.id, f))
            && (InChan(u, f.id, f) || Took(u, f.id, f))
            && (InChan(u, f.id, f) && Waits(u, f.id) ==> At(Step(u, Receive(f.id), max), f.id, Leaving(Got(f))))
  {
    var s := Run(Init(), acts, max);
    var f := s.p.readers[e].f;
    AlwaysSafe(acts, max);
    SendFills(s, e, max);
    StepSafe(s, Send(e), max);
    var t := Step(s, Send(e), max);
    assert CallOk(t, f.id);
    FrameKept(t, more, f.id, f, max);
    var u := Run(t, more, max);
    if InChan(u, f.id, f) && Waits(u, f.id) { StepInChan(u, Receive(f.id), f.id, f, max); }
  }

  lemma StepInHand(s: State, a: Action, e: nat, f: Frame, max: nat)
    requires e <= s.p.epoch && InHand(s, e, f) && Enabled(s, a) && a != Send(e)
    ensures InHand(Do(s, a, max), e, f) && e <= Do(s, a, max).p.epoch
  {
  }

  /** In every run, a scanning reader picks up a frame exactly when it carries the id of a pending call, and
      then holds that very frame until it sends it. */
  lemma LookedUpIsHeld(acts: seq<Action>, e: nat, f: Frame, more: seq<Action>, max: nat)
    requires Scans(Run(Init(), acts, max), e) && f.origin == e && Send(e) !in more
    ensures var s := Run(Init(), acts, max);
            var t := Step(s, Lookup(e, f), max);
            && (Scans(t, e) <==> f.id == 0 || f.id !in s.b.pend)
            && (!Scans(t, e) ==> InHand(Run(t, more, max), e, f))
  {
    var s := Run(Init(), acts, max);
    AlwaysWired(acts, max);
    assert ReaderFits(s, e);
    var t := Step(s, Lookup(e, f), max);
    if !Scans(t, e) { HandKept(t, more, e, f, max); }
  }

  lemma {:induction false} HandKept(s: State, more: seq<Action>, e: nat, f: Frame, max: nat)
    requires e <= s.p.epoch && InHand(s, e, f) && Send(e) !in more
    ensures e <= Run(s, more, max).p.epoch && InHand(Run(s, more, max), e, f)
  {
    if more != [] {
      var rest, a := more[..|more| - 1], more[|more| - 1];
      HandKept(s, rest, e, f, max);
      assert a in more;
      if Enabled(Run(s, rest, max), a) { StepInHand(Run(s, rest, max), a, e, f, max); }
    }
  }

  // ---- How the pieces of the client hang together ------------------------------------

  /** Each subprocess ever started has a reader, which holds only its own frames. */
  predicate ReaderFits(s: State, e: nat) {
    && (e in s.p.readers <==> 1 <= e <= s.p.epoch)
    && (e in s.p.readers && s.p.readers[e].Sending? ==>
          s.p.readers[e].f.origin == e && s.p.readers[e].f.id != 0)
  }

  /** A call whose channel is open is in the pending map until it returns. */
  predicate PendFits(s: State, id: nat) {
    id in s.b.chans && !s.b.chans[id].closed && id in s.b.calls && !s.b.calls[id].Returned? ==> id in s.b.pend
  }

  predicate SupFits(s: State) {
    && SupOk(s)
    && (s.m.sup.BackingOff? ==> s.p.live.Some?)
    && (s.m.sup.Unsupervised? ==> s.p.epoch <= 1 && (s.p.epoch == 1 ==> s.p.live.Some?))
  }

  ghost predicate Wired(s: State) {
    Safe(s) && SupFits(s) && (forall e :: ReaderFits(s, e)) && (forall id :: PendFits(s, id))
  }

  lemma StepReaderFits(s: State, a: Action, e: nat, max: nat)
    requires ReaderFits(s, e) && Enabled(s, a)
    ensures ReaderFits(Do(s, a, max), e)
  {
  }

  lemma StepPendFits(s: State, a: Action, id: nat, max: nat)
    requires CallOk(s, id) && PendFits(s, id) && Enabled(s, a)
    ensures PendFits(Do(s, a, max), id)
  {
  }

  lemma StepSupFits(s: State, a: Action, max: nat)
    requires SupFits(s) && Enabled(s, a)
    ensures SupFits(Do(s, a, max))
  {
  }

  lemma StepWired(s: State, a: Action, max: nat)
    requires Wired(s)
    ensures Wired(Step(s, a, max))
  {
    StepSafe(s, a, max);
    if Enabled(s, a) {
      StepSupFits(s, a, max);
      forall e ensures ReaderFits(Do(s, a, max), e) {
        assert ReaderFits(s, e);
        StepReaderFits(s, a, e, max);
      }
      forall id ensures PendFits(Do(s, a, max), id) {
        assert CallOk(s, id) && PendFits(s, id);
        StepPendFits(s, a, id, max);
      }
    }
  }

  lemma {:induction false} RunWired(s: State, more: seq<Action>, max: nat)
    requires Wired(s)
    ensures Wired(Run(s, more, max))
  {
    if more != [] {
      RunWired(s, more[..|more| - 1], max);
      StepWired(Run(s, more[..|more| - 1], max), more[|more| - 1], max);
    }
  }

  lemma AlwaysWired(acts: seq<Action>, max: nat)
    ensures Wired(Run(Init(), acts, max))
  {
    RunWired(Init(), acts, max);
  }

  // ---- When a waiting call can still get a frame -----------------------------------------

  predicate Empty(s: State, id: nat) { id in s.b.chans && s.b.chans[id] == Chan(None, false) }

  /** Call id has not left and can still come to receive. */
  predicate CanTake(s: State, id: nat) {
    id in s.b.calls &&
    match s.b.calls[id]
    case Registered => !s.p.closed && (s.p.live.Some? || s.m.sup.Starting?)
    case Captured(_) => true
    case Waiting(_) => true
    case _ => false
  }

  /** The reader can get rid of the frame in its hand: its channel is open, and empty or still to be emptied. */
  predicate Unsticks(s: State, id: nat) {
    id in s.b.chans && !s.b.chans[id].closed && (s.b.chans[id].buf.None? || CanTake(s, id))
  }

  /** The supervisor can still start a subprocess. */
  predicate CanRestart(s: State) {
    !s.p.closed && !s.m.sup.Stopped? && !(s.m.sup.Selecting? && s.p.live.None?)
  }

  /** The reader of subprocess e can come to read another line without filling the channel of call id. */
  predicate CanRead(s: State, e: nat, id: nat) {
    if e in s.p.readers then
      s.p.readers[e].Scanning? || (s.p.readers[e].f.id != id && Unsticks(s, s.p.readers[e].f.id))
    else e > s.p.epoch && CanRestart(s)
  }

  /** The frame is in the call's channel; or the channel is open and empty, and the frame is in its reader's
      hand or its reader can still read it. */
  predicate CanGet(s: State, id: nat, f: Frame) {
    InChan(s, id, f) || (f.id == id && Empty(s, id) && (InHand(s, f.origin, f) || CanRead(s, f.origin, id)))
  }

  // ---- Only if --------------------------------------------------------------------------

  lemma BackEmpty(s: State, a: Action, id: nat, max: nat)
    requires CallOk(s, id) && Waits(s, id) && Enabled(s, a) && Waits(Do(s, a, max), id)
    ensures Empty(Do(s, a, max), id) ==> Empty(s, id)
  {
  }

  lemma BackChan(s: State, a: Action, id: nat, f: Frame, max: nat)
    requires CallOk(s, id) && Waits(s, id) && Enabled(s, a) && InChan(Do(s, a, max), id, f)
    requires a.Send? ==> ReaderFits(s, a.e)
    ensures InChan(s, id, f) || (f.id == id && Empty(s, id) && InHand(s, f.origin, f))
  {
  }

  lemma BackHand(s: State, a: Action, f: Frame, max: nat)
    requires Enabled(s, a) && InHand(Do(s, a, max), f.origin, f)
    ensures InHand(s, f.origin, f) || Scans(s, f.origin)
  {
  }

  lemma BackTake(s: State, a: Action, id: nat, max: nat)
    requires SupFits(s) && s.p.epoch >= 1 && id in s.b.calls && !s.b.calls[id].Numbered? && Enabled(s, a)
    ensures CanTake(Do(s, a, max), id) ==> CanTake(s, id)
  {
  }

  lemma BackUnsticks(s: State, a: Action, id: nat, max: nat)
    requires SupFits(s) && s.p.epoch >= 1 && CallOk(s, id) && id in s.b.chans && Enabled(s, a)
    ensures Unsticks(Do(s, a, max), id) ==> Unsticks(s, id)
  {
    BackTake(s, a, id, max);
  }

  lemma BackRestart(s: State, a: Action, max: nat)
    requires SupFits(s) && Enabled(s, a)
    ensures CanRestart(Do(s, a, max)) ==> CanRestart(s)
    ensures Do(s, a, max).p.epoch >= s.p.epoch
    ensures Do(s, a, max).p.epoch > s.p.epoch ==> CanRestart(s)
  {
  }

  /** What a reader that holds g after a step held before it. */
  lemma BackReader(s: State, a: Action, e: nat, max: nat)
    requires Enabled(s, a) && ReaderFits(s, e) && e in Do(s, a, max).p.readers
    ensures var r := Do(s, a, max).p.readers[e];
            || e > s.p.epoch
            || (e in s.p.readers && (s.p.readers[e] == r || s.p.readers[e].Scanning?))
            || (e in s.p.readers && a == Send(e) && r.Scanning? && !s.b.chans[s.p.readers[e].f.id].closed)
  {
  }

  lemma BackRead(s: State, a: Action, e: nat, id: nat, max: nat)
    requires Wired(s) && Enabled(s, a) && Empty(Do(s, a, max), id) && CanRead(Do(s, a, max), e, id)
    ensures CanRead(s, e, id)
  {
    assert ReaderFits(s, e);
    StepReaderFits(s, a, e, max);
    BackRestart(s, a, max);
    if e in Do(s, a, max).p.readers {
      BackReader(s, a, e, max);
      if e in s.p.readers && s.p.readers[e].Sending? {
        var j := s.p.readers[e].f.id;
        assert ReaderOk(s, e) && CallOk(s, j);
        BackUnsticks(s, a, j, max);
        if a == Send(e) && !s.b.chans[j].closed { SendFills(s, e, max); }
      }
    }
  }

  /** The call waits in vain for f, or has left without it. */
  predicate Hopeless(s: State, id: nat, f: Frame) {
    id in s.b.calls &&
    match s.b.calls[id]
    case Waiting(_) => !CanGet(s, id, f)
    case Leaving(res) => res != Got(f)
    case Returned(res) => res != Got(f)
    case _ => false
  }

  lemma LeavesWithout(s: State, a: Action, id: nat, f: Frame, max: nat)
    requires CallOk(s, id) && Hopeless(s, id, f) && Enabled(s, a)
    ensures Waits(Do(s, a, max), id) ==> Waits(s, id)
    ensures Waits(Do(s, a, max), id) || Hopeless(Do(s, a, max), id, f)
  {
  }

  lemma StepHopeless(s: State, a: Action, id: nat, f: Frame, max: nat)
    requires Wired(s) && Hopeless(s, id, f) && Enabled(s, a)
    ensures Hopeless(Do(s, a, max), id, f)
  {
    var t := Do(s, a, max);
    assert CallOk(s, id);
    LeavesWithout(s, a, id, f, max);
    if Waits(t, id) && CanGet(t, id, f) {
      BackEmpty(s, a, id, max);
      if InChan(t, id, f) {
        assert a.Send? ==> ReaderFits(s, a.e);
        BackChan(s, a, id, f, max);
      } else if InHand(t, f.origin, f) {
        BackHand(s, a, f, max);
      } else {
        BackRead(s, a, f.origin, id, max);
      }
      assert CanGet(s, id, f);
    }
  }

  lemma {:induction false} HopelessForEver(s: State, more: seq<Action>, id: nat, f: Frame, max: nat)
    requires Wired(s) && Hopeless(s, id, f)
    ensures Hopeless(Run(s, more, max), id, f)
  {
    if more != [] {
      var rest, a := more[..|more| - 1], more[|more| - 1];
      HopelessForEver(s, rest, id, f, max);
      RunWired(s, rest, max);
      if Enabled(Run(s, rest, max), a) { StepHopeless(Run(s, rest, max), a, id, f, max); }
    }
  }

  // ---- If ---------------------------------------------------------------------------------

  /** Some continuation that does not panic lets call id return f. */
  ghost predicate Gets(s: State, id: nat, f: Frame, max: nat) {
    exists more :: !Run(s, more, max).p.panicked && At(Run(s, more, max), id, Returned(Got(f)))
  }

  lemma GetsAfter(s: State, first: seq<Action>, id: nat, f: Frame, max: nat)
    requires Gets(Run(s, first, max), id, f, max)
    ensures Gets(s, id, f, max)
  {
    var t := Run(s, first, max);
    var more :| !Run(t, more, max).p.panicked && At(Run(t, more, max), id, Returned(Got(f)));
    RunSplit(s, first, more, max);
    assert At(Run(s, first + more, max), id, Returned(Got(f)));
  }

  lemma GetsNext(s: State, a: Action, id: nat, f: Frame, max: nat)
    requires Gets(Step(s, a, max), id, f, max)
    ensures Gets(s, id, f, max)
  {
    RunOne(s, a, max);
    GetsAfter(s, [a], id, f, max);
  }

  /** What a call and the reader that is to serve it need, apart from the frame. */
  predicate Ready(s: State, id: nat) { !s.p.panicked && Waits(s, id) && Empty(s, id) && id in s.b.pend && id != 0 }

  lemma GetsBuffered(s: State, id: nat, f: Frame, max: nat)
    requires !s.p.panicked && Waits(s, id) && InChan(s, id, f)
    ensures Gets(s, id, f, max)
  {
    RunTwo(s, [Receive(id), Leave(id)], max);
    var t := Step(s, Receive(id), max);
    assert At(t, id, Leaving(Got(f))) && t.p == s.p;
    assert At(Run(s, [Receive(id), Leave(id)], max), id, Returned(Got(f)));
  }

  lemma GetsInHand(s: State, e: nat, id: nat, f: Frame, max: nat)
    requires Ready(s, id) && InHand(s, e, f) && f.id == id
    ensures Gets(s, id, f, max)
  {
    SendFills(s, e, max);
    GetsBuffered(Step(s, Send(e), max), id, f, max);
    GetsNext(s, Send(e), id, f, max);
  }

  lemma GetsScanned(s: State, id: nat, f: Frame, max: nat)
    requires Ready(s, id) && Scans(s, f.origin) && f.id == id
    ensures Gets(s, id, f, max)
  {
    var t := Step(s, Lookup(f.origin, f), max);
    assert t.p == s.p.(readers := s.p.readers[f.origin := Sending(f)]) && t.b.chans == s.b.chans;
    GetsInHand(t, f.origin, id, f, max);
    GetsNext(s, Lookup(f.origin, f), id, f, max);
  }

  /** The reader's channel is open and empty: it sends and scans on. */
  lemma GetsAfterSend(s: State, id: nat, f: Frame, g: Frame, max: nat)
    requires Ready(s, id) && f.id == id && InHand(s, f.origin, g) && g.id != id && Empty(s, g.id)
    ensures Gets(s, id, f, max)
  {
    SendFills(s, f.origin, max);
    GetsScanned(Step(s, Send(f.origin), max), id, f, max);
    GetsNext(s, Send(f.origin), id, f, max);
  }

  /** The reader of f holds g for another call j whose channel is open and full. */
  predicate Stuck(s: State, id: nat, f: Frame, g: Frame) {
    && Ready(s, id) && f.id == id && InHand(s, f.origin, g) && g.id != id
    && g.id in s.b.chans && !s.b.chans[g.id].closed && s.b.chans[g.id].buf.Some?
  }

  lemma UnstickWaiting(s: State, id: nat, f: Frame, g: Frame, max: nat)
    requires Stuck(s, id, f, g) && Waits(s, g.id)
    ensures Gets(s, id, f, max)
  {
    var t := Step(s, Receive(g.id), max);
    assert t.p == s.p && t.b.chans == s.b.chans[g.id := Chan(None, false)];
    GetsAfterSend(t, id, f, g, max);
    GetsNext(s, Receive(g.id), id, f, max);
  }

  lemma UnstickCaptured(s: State, id: nat, f: Frame, g: Frame, max: nat)
    requires Stuck(s, id, f, g) && g.id in s.b.calls && s.b.calls[g.id].Captured?
    ensures Gets(s, id, f, max)
  {
    var t := Step(s, Write(g.id, true), max);
    assert t.p == s.p && t.b.chans == s.b.chans && t.b.pend == s.b.pend;
    UnstickWaiting(t, id, f, g, max);
    GetsNext(s, Write(g.id, true), id, f, max);
  }

  lemma UnstickRegistered(s: State, id: nat, f: Frame, g: Frame, max: nat)
    requires Stuck(s, id, f, g) && At(s, g.id, Registered) && !s.p.closed && s.p.live.Some?
    ensures Gets(s, id, f, max)
  {
    var t := Step(s, Capture(g.id), max);
    assert t.p == s.p && t.b == Move(s.b, g.id, Captured(s.p.live.value));
    UnstickCaptured(t, id, f, g, max);
    GetsNext(s, Capture(g.id), id, f, max);
  }

  lemma UnstickStarting(s: State, id: nat, f: Frame, g: Frame, max: nat)
    requires Stuck(s, id, f, g) && At(s, g.id, Registered) && !s.p.closed && s.m.sup.Starting?
    requires f.origin <= s.p.epoch
    ensures Gets(s, id, f, max)
  {
    var t := Step(s, SupStart(true), max);
    assert t.p == Started(s.p) && t.b == s.b;
    UnstickRegistered(t, id, f, g, max);
    GetsNext(s, SupStart(true), id, f, max);
  }

  lemma GetsUnstuck(s: State, id: nat, f: Frame, g: Frame, max: nat)
    requires Ready(s, id) && f.id == id && InHand(s, f.origin, g) && g.id != id && Unsticks(s, g.id)
    requires f.origin <= s.p.epoch
    ensures Gets(s, id, f, max)
  {
    if s.b.chans[g.id].buf.None? {
      GetsAfterSend(s, id, f, g, max);
    } else {
      match s.b.calls[g.id]
      case Waiting(_) => UnstickWaiting(s, id, f, g, max);
      case Captured(_) => UnstickCaptured(s, id, f, g, max);
      case Registered =>
        if s.p.live.Some? { UnstickRegistered(s, id, f, g, max); } else { UnstickStarting(s, id, f, g, max); }
    }
  }

  /** The reader of f will be that of a subprocess not started yet: one start less to go. */
  lemma {:induction false} GetsStarted(s: State, id: nat, f: Frame, max: nat)
    requires Ready(s, id) && f.id == id && SupFits(s) && CanRestart(s) && f.origin > s.p.epoch
    ensures Gets(s, id, f, max)
    decreases f.origin - s.p.epoch
  {
    var more := NextStart(s, max);
    var t := Run(s, more, max);
    if f.origin == t.p.epoch { GetsScanned(t, id, f, max); } else { GetsStarted(t, id, f, max); }
    GetsAfter(s, more, id, f, max);
  }

  /** t is s after one more start, with the calls and the closing flags as they were. */
  predicate OneStartLater(s: State, t: State) {
    && t.b == s.b && t.p.panicked == s.p.panicked && t.p.epoch == s.p.epoch + 1 && Scans(t, t.p.epoch)
    && SupFits(t) && CanRestart(t)
  }

  lemma StartLater(s: State, max: nat)
    requires SupFits(s) && s.m.sup.Starting? && !s.p.closed
    ensures OneStartLater(s, Step(s, SupStart(true), max))
  {
  }

  lemma BootLater(s: State, max: nat)
    requires SupFits(s) && s.p.epoch == 0 && !s.p.closed
    ensures OneStartLater(s, Step(s, BootStart, max))
  {
  }

  /** One action of the supervisor on the way to a start; nothing else changes. */
  predicate Nearer(s: State, t: State) {
    && t.b == s.b && t.p.panicked == s.p.panicked && t.p.epoch == s.p.epoch && t.p.closed == s.p.closed
    && SupFits(t) && CanRestart(t) && ToGo(t) < ToGo(s)
  }

  /** Actions left until the supervisor starts a subprocess. */
  function ToGo(s: State): nat {
    match s.m.sup
    case Stopped => 0
    case Starting => 1
    case BackingOff(_) => 2
    case Selecting(_) => if s.p.live.Some? && s.p.live.value in s.p.exited then 3 else 4
    case Initializing => 5
    case Unsupervised => 6
  }

  function Approach(s: State): Action
    requires SupFits(s) && CanRestart(s) && s.p.epoch >= 1 && !s.m.sup.Starting?
  {
    match s.m.sup
    case BackingOff(_) => SupReset
    case Selecting(_) => if s.p.live.value in s.p.exited then SupExit else Exit(s.p.live.value)
    case Initializing => SupInit(true)
    case Unsupervised => Supervise
  }

  lemma ApproachNearer(s: State, max: nat)
    requires SupFits(s) && CanRestart(s) && s.p.epoch >= 1 && !s.m.sup.Starting?
    ensures Nearer(s, Step(s, Approach(s), max))
  {
  }

  lemma {:induction false} NextStart(s: State, max: nat) returns (more: seq<Action>)
    requires SupFits(s) && CanRestart(s)
    ensures OneStartLater(s, Run(s, more, max))
    decreases ToGo(s)
  {
    if s.p.epoch == 0 {
      BootLater(s, max);
      RunOne(s, BootStart, max);
      more := [BootStart];
    } else if s.m.sup.Starting? {
      StartLater(s, max);
      RunOne(s, SupStart(true), max);
      more := [SupStart(true)];
    } else {
      var a := Approach(s);
      ApproachNearer(s, max);
      var rest := NextStart(Step(s, a, max), max);
      RunOne(s, a, max);
      RunSplit(s, [a], rest, max);
      more := [a] + rest;
    }
  }

  lemma CanGetGets(s: State, id: nat, f: Frame, max: nat)
    requires Wired(s) && !s.p.panicked && Waits(s, id) && CanGet(s, id, f)
    ensures Gets(s, id, f, max)
  {
    assert CallOk(s, id) && PendFits(s, id) && ReaderFits(s, f.origin);
    if InChan(s, id, f) {
      GetsBuffered(s, id, f, max);
    } else if InHand(s, f.origin, f) {
      GetsInHand(s, f.origin, id, f, max);
    } else if Scans(s, f.origin) {
      GetsScanned(s, id, f, max);
    } else if f.origin in s.p.readers {
      GetsUnstuck(s, id, f, s.p.readers[f.origin].f, max);
    } else {
      GetsStarted(s, id, f, max);
    }
  }

  /** In every run that has not panicked, a waiting call can still return with frame f if and only if f is in
      its channel, or its channel is open and empty and f is in the hand of its reader, or can still be read
      by it: the reader scans; or it holds a frame for another call that can still be delivered; or its
      subprocess can still be started. */
  lemma GetsIff(acts: seq<Action>, id: nat, f: Frame, max: nat)
    requires Waits(Run(Init(), acts, max), id) && !Run(Init(), acts, max).p.panicked
    ensures Gets(Run(Init(), acts, max), id, f, max) <==> CanGet(Run(Init(), acts, max), id, f)
  {
    var s := Run(Init(), acts, max);
    AlwaysWired(acts, max);
    if CanGet(s, id, f) {
      CanGetGets(s, id, f, max);
    } else {
      forall more ensures !At(Run(s, more, max), id, Returned(Got(f))) { HopelessForEver(s, more, id, f, max); }
    }
  }

  // ---- Why a call ended the way it did ------------------------------------------------------

  /** What must have happened for a call to have this result. */
  predicate Caused(s: State, acts: seq<Action>, id: nat, res: Outcome) {
    match res
    case Got(f) => f.id == id && Lookup(f.origin, f) in acts
    case ChanClosed => CloseFlush in acts && id in s.b.chans && s.b.chans[id].closed
    case CtxCancelled => Cancel(id) in acts
    case ExitedMidCall => id in s.b.asked && s.b.asked[id] in s.p.exited
    case WriteFailed => Write(id, false) in acts
    case NotStarted => Capture(id) in acts
    case ClientClosed => CloseBegin in acts && s.p.closed
  }

  predicate HasLeft(s: State, id: nat) { id in s.b.calls && (s.b.calls[id].Leaving? || s.b.calls[id].Returned?) }

  predicate ResultFits(s: State, acts: seq<Action>, id: nat) {
    HasLeft(s, id) ==> Caused(s, acts, id, s.b.calls[id].res)
  }

  /** asked says to which subprocess a call's request went. */
  predicate AskedFits(s: State, id: nat) {
    && (id in s.b.asked ==> id in s.b.calls && (HasLeft(s, id) || s.b.calls[id].Waiting?))
    && (Waits(s, id) ==> id in s.b.asked && s.b.asked[id] == s.b.calls[id].epoch)
  }

  predicate ChanFits(s: State, acts: seq<Action>, id: nat) {
    && (Buffered(s, id) ==> Lookup(s.b.chans[id].buf.value.origin, s.b.chans[id].buf.value) in acts)
    && (id in s.b.chans && s.b.chans[id].closed ==> CloseFlush in acts)
  }

  predicate HandFits(s: State, acts: seq<Action>, e: nat) {
    e in s.p.readers && s.p.readers[e].Sending? ==> Lookup(s.p.readers[e].f.origin, s.p.readers[e].f) in acts
  }

  predicate ClosingFits(s: State, acts: seq<Action>) { s.p.closed ==> CloseBegin in acts }

  predicate CallFits(s: State, acts: seq<Action>, id: nat) {
    CallOk(s, id) && AskedFits(s, id) && ResultFits(s, acts, id) && ChanFits(s, acts, id)
  }

  ghost predicate Explained(s: State, acts: seq<Action>) {
    && ClosingFits(s, acts) && (forall id :: CallFits(s, acts, id))
    && (forall e :: HandFits(s, acts, e))
  }

  lemma StepAskedFits(s: State, a: Action, id: nat, max: nat)
    requires Enabled(s, a) && CallOk(s, id) && AskedFits(s, id)
    ensures AskedFits(Do(s, a, max), id)
  {
  }

  lemma StaysCaused(s: State, acts: seq<Action>, a: Action, id: nat, max: nat)
    requires Enabled(s, a) && CallOk(s, id) && HasLeft(s, id) && Caused(s, acts, id, s.b.calls[id].res)
    ensures ResultFits(Do(s, a, max), acts + [a], id)
  {
  }

  lemma StepResultFits(s: State, acts: seq<Action>, a: Action, id: nat, max: nat)
    requires Enabled(s, a) && CallOk(s, id) && !HasLeft(s, id) && AskedFits(s, id)
    requires ChanFits(s, acts, id) && ClosingFits(s, acts)
    ensures ResultFits(Do(s, a, max), acts + [a], id)
  {
    assert a in acts + [a];
  }

  lemma StepChanFits(s: State, acts: seq<Action>, a: Action, id: nat, max: nat)
    requires Enabled(s, a) && ChanFits(s, acts, id) && (a.Send? ==> HandFits(s, acts, a.e))
    ensures ChanFits(Do(s, a, max), acts + [a], id)
  {
  }

  lemma StepHandFits(s: State, acts: seq<Action>, a: Action, e: nat, max: nat)
    requires Enabled(s, a) && HandFits(s, acts, e)
    ensures HandFits(Do(s, a, max), acts + [a], e) && (a.CloseBegin? || Do(s, a, max).p.closed == s.p.closed)
  {
  }

  lemma StepExplained(s: State, acts: seq<Action>, a: Action, max: nat)
    requires Enabled(s, a) && Explained(s, acts)
    ensures Explained(Do(s, a, max), acts + [a])
  {
    forall id ensures CallFits(Do(s, a, max), acts + [a], id) {
      assert CallFits(s, acts, id) && (a.Send? ==> HandFits(s, acts, a.e));
      StepCallOk(s, a, id, max);
      StepAskedFits(s, a, id, max);
      StepChanFits(s, acts, a, id, max);
      if HasLeft(s, id) { StaysCaused(s, acts, a, id, max); } else { StepResultFits(s, acts, a, id, max); }
    }
    forall e ensures HandFits(Do(s, a, max), acts + [a], e) {
      assert HandFits(s, acts, e);
      StepHandFits(s, acts, a, e, max);
    }
    assert HandFits(s, acts, 0);
    StepHandFits(s, acts, a, 0, max);
  }

  /** In every run, a call ends with a frame only if a reader read that very frame with its id, with a closed
      channel only after Close has flushed its channel, with its cancellation, a failed write or a closed
      client only if that is what happened, and with an exit only if the subprocess it wrote to has exited. */
  lemma {:induction false} ResultsHaveCauses(acts: seq<Action>, max: nat)
    ensures Explained(Run(Init(), acts, max), acts)
  {
    if acts != [] {
      var rest, a := acts[..|acts| - 1], acts[|acts| - 1];
      ResultsHaveCauses(rest, max);
      assert acts == rest + [a];
      if Enabled(Run(Init(), rest, max), a) {
        StepExplained(Run(Init(), rest, max), rest, a, max);
      } else {
        ExplainedLater(Run(Init(), rest, max), rest, a);
      }
    }
  }

  lemma ExplainedLater(s: State, acts: seq<Action>, a: Action)
    requires Explained(s, acts)
    ensures Explained(s, acts + [a])
  {
    forall id ensures CallFits(s, acts + [a], id) { assert CallFits(s, acts, id); }
    forall e ensures HandFits(s, acts + [a], e) { assert HandFits(s, acts, e); }
  }

  /** What a call that has registered learns when it reads the client's fields. */
  lemma CaptureIs(s: State, id: nat, max: nat)
    requires At(s, id, Registered)
    ensures var t := Step(s, Capture(id), max);
            && (At(t, id, Leaving(ClientClosed)) <==> s.p.closed)
            && (At(t, id, Leaving(NotStarted)) <==> !s.p.closed && s.p.live.None?)
            && (!s.p.closed && s.p.live.Some? ==> At(t, id, Captured(s.p.live.value)))
  {
  }

  /** The ways out of a waiting call: its cancellation at any time, the exit of its subprocess, and a channel that
      Close has closed while it was empty. */
  lemma WaysOut(s: State, id: nat, max: nat)
    requires Waits(s, id)
    ensures At(Step(s, Cancel(id), max), id, Leaving(CtxCancelled))
    ensures At(Step(s, SeeExit(id), max), id, Leaving(ExitedMidCall)) <==> s.b.calls[id].epoch in s.p.exited
    ensures At(Step(s, Receive(id), max), id, Leaving(ChanClosed)) <==>
              id in s.b.chans && s.b.chans[id].closed && s.b.chans[id].buf.None?
  {
  }

  /** In every run, once Close has flushed the channels each waiting call can leave at once. */
  lemma FlushFreesCalls(acts: seq<Action>, id: nat, max: nat)
    requires Enabled(Run(Init(), acts, max), CloseFlush) && Waits(Run(Init(), acts, max), id)
    ensures var t := Step(Run(Init(), acts, max), CloseFlush, max); Waits(t, id) && Enabled(t, Receive(id))
  {
    AlwaysWired(acts, max);
    assert CallOk(Run(Init(), acts, max), id) && PendFits(Run(Init(), acts, max), id);
  }
}
