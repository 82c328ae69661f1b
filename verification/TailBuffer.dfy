/** The bounded output tail of internal/bootstrap/bootstrap.go and the snapshot the supervisor reads. */
module Tail {
  import opened Common
  import Text

  const CAP: nat := 32 * 1024

  /** What one write leaves in storage: the front is cut only once twice the capacity is exceeded. */
  function Push(buf: string, s: string): string {
    if |buf + s| > 2 * CAP then Last(CAP, buf + s) else buf + s
  }

  function PushAll(buf: string, writes: seq<string>): string {
    if writes == [] then buf else Push(PushAll(buf, writes[..|writes| - 1]), writes[|writes| - 1])
  }

  function Flatten(writes: seq<string>): string {
    if writes == [] then "" else Flatten(writes[..|writes| - 1]) + writes[|writes| - 1]
  }

  /** buf is an admissible storage for a stream of which `written` has arrived. */
  ghost predicate Holds(buf: string, written: string) {
    && |buf| <= 2 * CAP
    && buf == Last(|buf|, written)
    && (|buf| >= CAP || buf == written)
  }

  lemma PushHolds(buf: string, written: string, s: string)
    requires Holds(buf, written)
    ensures Holds(Push(buf, s), written + s)
  {
    var all := buf + s;
    if buf != written {
      assert |written| > |buf|;
      LastAppend(|all|, |all|, written, s);
      assert (written + s)[|written + s| - |all|..] == buf + s;
    }
    assert all == Last(|all|, written + s);
    if |all| > 2 * CAP {
      LastLast(CAP, |all|, written + s);
    }
  }

  lemma HoldsTail(buf: string, written: string)
    requires Holds(buf, written)
    ensures Last(CAP, buf) == Last(CAP, written)
  {
    if buf != written {
      LastLast(CAP, |buf|, written);
    }
  }

  /** Whatever the writes were, the visible tail is the last 32 KiB ever written and
      storage stays within 64 KiB after every write. */
  lemma {:induction false} TailOfEverything(writes: seq<string>)
    ensures Last(CAP, PushAll("", writes)) == Last(CAP, Flatten(writes))
    ensures |PushAll("", writes)| <= 2 * CAP
  {
    AllHold(writes);
    HoldsTail(PushAll("", writes), Flatten(writes));
  }

  lemma {:induction false} AllHold(writes: seq<string>)
    ensures Holds(PushAll("", writes), Flatten(writes))
  {
    if writes != [] {
      var rest := writes[..|writes| - 1];
      AllHold(rest);
      PushHolds(PushAll("", rest), Flatten(rest), writes[|writes| - 1]);
    }
  }

  class TailBuffer {
    var buf: string
    var cap: nat
    ghost var written: string

    ghost predicate Valid()
      reads this
    {
      && (cap == 0 || cap == CAP)
      && (cap == 0 ==> written == "")
      && Holds(buf, written)
    }

    constructor ()
      ensures Valid() && written == ""
    {
      buf, cap, written := "", 0, "";
    }

    /** Runs under the buffer's mutex, so concurrent writers are some sequence of these calls. */
    method Write(s: string)
      requires Valid()
      modifies this
      ensures Valid()
      ensures written == old(written) + s
      ensures buf == Push(old(buf), s)
    {
      if cap == 0 {
        cap := CAP;
      }
      buf := buf + s;
      if |buf| > 2 * cap {
        var all := buf;
        buf := "";
        buf := buf + all[|all| - cap..];
      }
      PushHolds(old(buf), old(written), s);
      written := written + s;
    }

    method String() returns (s: string)
      requires Valid()
      ensures s == Last(32_768, written)
    {
      s := buf;
      HoldsTail(buf, written);
      if |s| > cap {
        s := s[|s| - cap..];
      }
    }
  }

  /** The supervisor's snapshot of the tail s: at most n characters, without the partial
      first line when a complete one follows it. */
  function TailBytesFrom(s: string, n: nat): (r: string)
    ensures |r| <= n && r == Last(|r|, s)
    ensures |s| <= n ==> r == s
    ensures |s| > n && '\n' !in Last(n, s) ==> r == Last(n, s)
    ensures |s| > n && '\n' in Last(n, s) ==>
              exists line :: '\n' !in line && Last(n, s) == line + "\n" + (if r == Last(n, s) then "" else r)
  {
    if |s| <= n then s
    else
      var cut := s[|s| - n..];
      match Text.IndexOf(cut, '\n')
      case Some(i) =>
        assert cut == cut[..i] + "\n" + cut[i + 1..];
        if i < |cut| - 1 then cut[i + 1..] else assert cut[i + 1..] == ""; cut
      case None => cut
  }

  /** The snapshot taken from the live buffer is a tail of everything the script ever printed. */
  lemma SnapshotOfStream(writes: seq<string>, n: nat)
    requires n <= CAP
    ensures var r := TailBytesFrom(Last(CAP, PushAll("", writes)), n);
            |r| <= n && r == Last(|r|, Flatten(writes))
  {
    TailOfEverything(writes);
    var r := TailBytesFrom(Last(CAP, PushAll("", writes)), n);
    LastLast(|r|, CAP, Flatten(writes));
  }
}
