/** A replica fed only by EventsSince: internal/state/state.go:171-203. */
module Follower {
  import opened Common
  import opened EventStore

  /** What a follower holds; applied records every event it has applied, in order. */
  datatype Replica = Replica(watermark: int, view: Tables, applied: seq<Event>)

  /** Take one page after the watermark, apply it, move the watermark to its last event. */
  function Pull(log: seq<Event>, f: Replica, limit: int): Replica {
    var page := First(PageSize(limit), After(log, f.watermark));
    if page == [] then f
    else Replica(page[|page| - 1].seqNo, Replay(f.view, page), f.applied + page)
  }

  /** The replica has applied exactly the events up to its watermark, each once and in order. */
  ghost predicate Tracks(seed: Tables, db: Db, f: Replica) {
    && f.applied == UpTo(db.log, f.watermark)
    && f.view == Replay(seed, f.applied)
    && f.watermark <= db.lastSeq
  }

  // ---- Splitting an increasing log at a watermark ------------------------------

  /** In an increasing log the events up to w are the first k for some k. */
  ghost predicate CutAt(log: seq<Event>, w: int, k: nat) {
    && k <= |log|
    && (forall i :: 0 <= i < k ==> log[i].seqNo <= w)
    && (forall i :: k <= i < |log| ==> log[i].seqNo > w)
  }

  lemma {:induction false} CutSplits(log: seq<Event>, w: int, k: nat)
    requires CutAt(log, w, k)
    ensures UpTo(log, w) == log[..k] && After(log, w) == log[k..]
  {
    if log != [] {
      var t := log[1..];
      assert log == [log[0]] + t;
      if k == 0 {
        CutSplits(t, w, 0);
      } else {
        CutSplits(t, w, k - 1);
        assert log[..k] == [log[0]] + t[..k - 1];
        assert log[k..] == t[k - 1..];
      }
    }
  }

  lemma {:induction false} CutExists(log: seq<Event>, w: int) returns (k: nat)
    requires Increasing(log)
    ensures CutAt(log, w, k)
  {
    if log == [] || log[|log| - 1].seqNo <= w {
      k := |log|;
    } else {
      k := CutExists(log[..|log| - 1], w);
    }
  }

  /** Reading a page moves the cut from k to m, over exactly the events of the page. */
  lemma PageCut(log: seq<Event>, w: int, k: nat, n: nat)
    requires Increasing(log) && CutAt(log, w, k) && k < |log| && n > 0
    ensures var page := First(n, log[k..]);
            && 0 < |page| && CutAt(log, page[|page| - 1].seqNo, k + |page|)
            && w < page[|page| - 1].seqNo && page[|page| - 1] in log
            && log[..k + |page|] == log[..k] + page
  {
    var page := First(n, log[k..]);
    assert page[|page| - 1] == log[k + |page| - 1];
  }

  /** Applying a page read at cut k. */
  lemma PageTracks(seed: Tables, db: Db, f: Replica, k: nat, n: nat)
    requires Increasing(db.log) && (forall e :: e in db.log ==> e.seqNo <= db.lastSeq)
    requires Tracks(seed, db, f) && CutAt(db.log, f.watermark, k) && k < |db.log| && n > 0
    ensures var page := First(n, db.log[k..]);
            && 0 < |page| && f.watermark < page[|page| - 1].seqNo
            && Tracks(seed, db, Replica(page[|page| - 1].seqNo, Replay(f.view, page), f.applied + page))
            && After(db.log, page[|page| - 1].seqNo) == db.log[k + |page|..]
  {
    var page := First(n, db.log[k..]);
    PageCut(db.log, f.watermark, k, n);
    PageSplits(db.log, f.watermark, k, page);
    ReplayConcat(seed, f.applied, page);
  }

  lemma PageSplits(log: seq<Event>, w: int, k: nat, page: seq<Event>)
    requires CutAt(log, w, k) && page != [] && k + |page| <= |log| && log[..k + |page|] == log[..k] + page
    requires CutAt(log, page[|page| - 1].seqNo, k + |page|)
    ensures UpTo(log, page[|page| - 1].seqNo) == UpTo(log, w) + page
    ensures After(log, page[|page| - 1].seqNo) == log[k + |page|..]
  {
    CutSplits(log, w, k);
    CutSplits(log, page[|page| - 1].seqNo, k + |page|);
  }

  /** One read keeps the replica exact, never moves the watermark back and, unless there is nothing
      left to read, shortens what is left. */
  lemma PullTracks(seed: Tables, db: Db, f: Replica, limit: int)
    requires Consistent(seed, db) && Tracks(seed, db, f)
    ensures var g := Pull(db.log, f, limit);
            && Tracks(seed, db, g)
            && f.watermark <= g.watermark
            && if After(db.log, f.watermark) == [] then g == f
               else |After(db.log, g.watermark)| < |After(db.log, f.watermark)|
  {
    OrderedIncreases(db.log, db.lastSeq);
    var k := CutExists(db.log, f.watermark);
    CutSplits(db.log, f.watermark, k);
    if k < |db.log| {
      PageTracks(seed, db, f, k, PageSize(limit));
    }
  }

  lemma WriteTracks(seed: Tables, db: Db, f: Replica, c: Call)
    requires Consistent(seed, db) && Tracks(seed, db, f)
    ensures Tracks(seed, Exec(db, c.op, c.now, c.commits), f)
  {
    if c.commits && Accepts(db, c.op) {
      var e := Event(db.lastSeq + 1, LoggedAt(c.op, c.now), Logged(c.op, c.now));
      OrderedIncreases(db.log, db.lastSeq);
      var k := CutExists(db.log, f.watermark);
      LaterUnseen(db.log, f.watermark, k, e);
    }
  }

  lemma LaterUnseen(log: seq<Event>, w: int, k: nat, e: Event)
    requires CutAt(log, w, k) && w < e.seqNo
    ensures UpTo(log + [e], w) == UpTo(log, w)
  {
    CutSplits(log, w, k);
    assert CutAt(log + [e], w, k);
    CutSplits(log + [e], w, k);
    assert (log + [e])[..k] == log[..k];
  }

  // ---- Writers and the follower, interleaved in any way --------------------------

  datatype Step = Write(call: Call) | Read(limit: int)

  datatype System = System(db: Db, replica: Replica)

  function Begin(at: int): System { System(Fresh(at), Replica(0, Seeded(at), [])) }

  function Run(at: int, steps: seq<Step>): System {
    if steps == [] then Begin(at)
    else
      var s := Run(at, steps[..|steps| - 1]);
      match steps[|steps| - 1]
      case Write(c) => s.(db := Exec(s.db, c.op, c.now, c.commits))
      case Read(limit) => s.(replica := Pull(s.db.log, s.replica, limit))
  }

  /** Whatever the interleaving and the page limits, the follower holds the fold of the log
      up to its watermark, and has applied each of those events exactly once and in order. */
  lemma {:induction false} AlwaysTracks(at: int, steps: seq<Step>)
    ensures var s := Run(at, steps); Consistent(Seeded(at), s.db) && Tracks(Seeded(at), s.db, s.replica)
  {
    if steps != [] {
      var s := Run(at, steps[..|steps| - 1]);
      AlwaysTracks(at, steps[..|steps| - 1]);
      match steps[|steps| - 1]
      case Write(c) =>
        ExecConsistent(Seeded(at), s.db, c.op, c.now, c.commits);
        WriteTracks(Seeded(at), s.db, s.replica, c);
      case Read(limit) =>
        PullTracks(Seeded(at), s.db, s.replica, limit);
    }
  }

  /** Repeated reads of a log nobody writes to any more. */
  ghost function CatchUp(seed: Tables, db: Db, f: Replica, limit: int): Replica
    requires Consistent(seed, db) && Tracks(seed, db, f)
    decreases |After(db.log, f.watermark)|
  {
    PullTracks(seed, db, f, limit);
    if After(db.log, f.watermark) == [] then f else CatchUp(seed, db, Pull(db.log, f, limit), limit)
  }

  /** On a quiescent log catching up ends, for every limit, with the replica equal to the tables. */
  lemma {:induction false} CatchesUp(seed: Tables, db: Db, f: Replica, limit: int)
    requires Consistent(seed, db) && Tracks(seed, db, f)
    ensures var g := CatchUp(seed, db, f, limit); g.view == db.tables && g.applied == db.log
    decreases |After(db.log, f.watermark)|
  {
    PullTracks(seed, db, f, limit);
    if After(db.log, f.watermark) == [] {
      OrderedIncreases(db.log, db.lastSeq);
      var k := CutExists(db.log, f.watermark);
      CutSplits(db.log, f.watermark, k);
      assert db.log[..k] == db.log;
    } else {
      CatchesUp(seed, db, Pull(db.log, f, limit), limit);
    }
  }
}
