/** The Go string operations the daemon relies on. A Go string is a sequence of characters;
    where the source counts bytes, a character stands for one byte. */
module Text {
  import opened Common

  /** Unicode white space, as the strings package defines it. */
  predicate IsSpace(c: char) {
    || '\t' <= c <= '\r' || c == ' ' || c == '\U{0085}' || c == '\U{00A0}' || c == '\U{1680}'
    || '\U{2000}' <= c <= '\U{200A}' || c == '\U{2028}' || c == '\U{2029}' || c == '\U{202F}'
    || c == '\U{205F}' || c == '\U{3000}'
  }

  function TrimLeft(s: string): string {
    if s != "" && IsSpace(s[0]) then TrimLeft(s[1..]) else s
  }

  function TrimRight(s: string): string {
    if s != "" && IsSpace(s[|s| - 1]) then TrimRight(s[..|s| - 1]) else s
  }

  function TrimSpace(s: string): string { TrimRight(TrimLeft(s)) }

  predicate Blank(s: string) { forall c :: c in s ==> IsSpace(c) }

  lemma {:induction false} TrimBlank(s: string)
    ensures TrimSpace(s) == "" <==> Blank(s)
  {
    TrimLeftBlank(s);
    TrimRightBlank(TrimLeft(s));
    if TrimLeft(s) != "" {
      assert !IsSpace(TrimLeft(s)[0]);
    }
  }

  lemma {:induction false} TrimLeftBlank(s: string)
    ensures TrimLeft(s) == "" <==> Blank(s)
    ensures TrimLeft(s) != "" ==> !IsSpace(TrimLeft(s)[0])
  {
    if s != "" && IsSpace(s[0]) {
      TrimLeftBlank(s[1..]);
      assert s == [s[0]] + s[1..];
    }
  }

  lemma {:induction false} TrimRightBlank(s: string)
    ensures TrimRight(s) == "" <==> Blank(s)
  {
    if s != "" && IsSpace(s[|s| - 1]) {
      TrimRightBlank(s[..|s| - 1]);
      assert s == s[..|s| - 1] + [s[|s| - 1]];
    }
  }

  lemma {:induction false} TrimRightSome(s: string)
    requires s != "" && !IsSpace(s[0])
    ensures TrimRight(s) != "" && TrimRight(s)[0] == s[0]
  {
    if IsSpace(s[|s| - 1]) { TrimRightSome(s[..|s| - 1]); }
  }

  /** Lower-casing as far as it can produce ASCII: the letters A-Z, and the two
      non-ASCII characters whose lower case is an ASCII letter. */
  function LowerChar(c: char): char {
    if 'A' <= c <= 'Z' then ((c as int) - ('A' as int) + ('a' as int)) as char
    else if c == '\U{0130}' then 'i'
    else if c == '\U{212A}' then 'k'
    else c
  }

  function Lower(s: string): string { seq(|s|, i requires 0 <= i < |s| => LowerChar(s[i])) }

  /** Lower-casing works letter by letter, leaves the rest of ASCII alone, and done twice is done once. */
  lemma LowerIs(s: string)
    ensures |Lower(s)| == |s| && Lower(Lower(s)) == Lower(s)
    ensures forall i :: 0 <= i < |s| && 'A' <= s[i] <= 'Z' ==>
              Lower(s)[i] as int - 'a' as int == s[i] as int - 'A' as int
    ensures forall i :: 0 <= i < |s| && s[i] <= '\U{007F}' && !('A' <= s[i] <= 'Z') ==> Lower(s)[i] == s[i]
  {
  }

  predicate HasPrefix(s: string, p: string) { p <= s }

  predicate Contains(s: string, p: string) {
    HasPrefix(s, p) || (s != "" && Contains(s[1..], p))
  }

  /** Index of the first c in s. */
  function IndexOf(s: string, c: char): (r: Option<nat>)
    ensures r.Some? ==> r.value < |s| && s[r.value] == c && c !in s[..r.value]
    ensures r.None? ==> c !in s
  {
    if s == "" then None
    else if s[0] == c then Some(0)
    else match IndexOf(s[1..], c)
      case None => None
      case Some(k) => assert s[..k + 1] == [s[0]] + s[1..][..k]; Some(k + 1)
  }

  /** How SplitLines puts a character in front of the lines of the rest. */
  function Lead(c: char, rest: seq<string>): seq<string>
    requires rest != []
  { if c == '\n' then [""] + rest else [[c] + rest[0]] + rest[1..] }

  function SplitLines(s: string): (r: seq<string>)
    ensures |r| >= 1
    ensures forall ln :: ln in r ==> '\n' !in ln
  {
    if s == "" then [""]
    else
      var rest := SplitLines(s[1..]);
      Lead(s[0], rest)
  }

  function JoinLines(lines: seq<string>): string {
    if lines == [] then ""
    else if |lines| == 1 then lines[0]
    else lines[0] + "\n" + JoinLines(lines[1..])
  }

  lemma {:induction false} JoinSplit(s: string)
    ensures JoinLines(SplitLines(s)) == s
  {
    if s != "" {
      var rest := SplitLines(s[1..]);
      JoinSplit(s[1..]);
      assert s == [s[0]] + s[1..];
      if s[0] != '\n' && |rest| > 1 {
        assert ([[s[0]] + rest[0]] + rest[1..])[1..] == rest[1..];
      }
    }
  }

  /** Splitting each of the lines again. */
  function Resplit(lines: seq<string>): seq<string> {
    if lines == [] then [] else SplitLines(lines[0]) + Resplit(lines[1..])
  }

  /** Joining and splitting again splits the pieces themselves, which may contain newlines. */
  lemma {:induction false} SplitJoinAny(lines: seq<string>)
    requires lines != []
    ensures SplitLines(JoinLines(lines)) == Resplit(lines)
  {
    if |lines| == 1 {
      assert Resplit(lines[1..]) == [];
    } else {
      SplitJoinAny(lines[1..]);
      SplitConcat(lines[0], JoinLines(lines[1..]));
    }
  }

  lemma {:induction false} ResplitPlain(lines: seq<string>)
    requires forall ln :: ln in lines ==> '\n' !in ln
    ensures Resplit(lines) == lines
  {
    if lines != [] {
      ResplitPlain(lines[1..]);
      SplitOne(lines[0]);
    }
  }

  lemma {:induction false} ResplitConcat(a: seq<string>, b: seq<string>)
    ensures Resplit(a + b) == Resplit(a) + Resplit(b)
  {
    if a == [] {
      assert a + b == b;
    } else {
      ResplitConcat(a[1..], b);
      assert (a + b)[0] == a[0] && (a + b)[1..] == a[1..] + b;
      Regroup(SplitLines(a[0]), Resplit(a[1..]), Resplit(b));
    }
  }

  lemma Regroup(a: seq<string>, b: seq<string>, c: seq<string>)
    ensures a + (b + c) == (a + b) + c
  {
  }

  lemma SplitJoin(lines: seq<string>)
    requires lines != []
    requires forall ln :: ln in lines ==> '\n' !in ln
    ensures SplitLines(JoinLines(lines)) == lines
  {
    SplitJoinAny(lines);
    ResplitPlain(lines);
  }

  lemma {:induction false} SplitOne(s: string)
    requires '\n' !in s
    ensures SplitLines(s) == [s]
  {
    if s != "" {
      SplitOne(s[1..]);
      assert [s[0]] + s[1..] == s;
    }
  }

  lemma {:induction false} SplitConcat(a: string, b: string)
    ensures SplitLines(a + "\n" + b) == SplitLines(a) + SplitLines(b)
  {
    if a == "" {
      assert (a + "\n" + b)[1..] == b;
    } else {
      SplitConcat(a[1..], b);
      var s := a + "\n" + b;
      assert s[0] == a[0] && s[1..] == a[1..] + "\n" + b;
      assert SplitLines(s) == Lead(a[0], SplitLines(a[1..]) + SplitLines(b));
      FirstOfSplit(a[0], SplitLines(a[1..]), SplitLines(b));
    }
  }

  lemma FirstOfSplit(c: char, rest: seq<string>, more: seq<string>)
    requires rest != []
    ensures Lead(c, rest + more) == Lead(c, rest) + more
  {
    assert (rest + more)[1..] == rest[1..] + more;
  }

  /** Text in front lengthens the first line only. */
  lemma {:induction false} SplitAfter(a: string, s: string)
    requires '\n' !in a
    ensures SplitLines(a + s) == [a + SplitLines(s)[0]] + SplitLines(s)[1..]
  {
    if a == "" {
      assert a + s == s && a + SplitLines(s)[0] == SplitLines(s)[0];
    } else {
      SplitAfter(a[1..], s);
      var first, more := SplitLines(s)[0], SplitLines(s)[1..];
      assert (a + s)[0] == a[0] && (a + s)[1..] == a[1..] + s;
      assert SplitLines(a + s) == Lead(a[0], [a[1..] + first] + more);
      assert ([a[1..] + first] + more)[1..] == more;
      assert a[0] in a && a[0] != '\n';
      assert [a[0]] + (a[1..] + first) == a + first;
    }
  }

  lemma {:induction false} JoinSnoc(lines: seq<string>, ln: string)
    requires lines != []
    ensures JoinLines(lines + [ln]) == JoinLines(lines) + "\n" + ln
  {
    var all := lines + [ln];
    assert all[1..] == lines[1..] + [ln];
    if |lines| > 1 {
      JoinSnoc(lines[1..], ln);
    }
  }

  // ---- decimal numbers -------------------------------------------------

  function Digit(d: nat): char
    requires d < 10
  { ((d + ('0' as int)) as char) }

  function Itoa(n: nat): string {
    if n < 10 then [Digit(n)] else Itoa(n / 10) + [Digit(n % 10)]
  }

  function ParseDigits(s: string): Option<nat> {
    if s == "" then Some(0)
    else
      var c := s[|s| - 1];
      match ParseDigits(s[..|s| - 1])
      case None => None
      case Some(n) => if '0' <= c <= '9' then Some(10 * n + (c as int - '0' as int)) else None
  }

  const MAX_INT: int := 0x7FFF_FFFF_FFFF_FFFF

  /** Applies the sign and rejects what does not fit 64 bits. */
  function SignedInt(n: Option<nat>, sign: int): Option<int> {
    if n.None? then None
    else
      var v := sign * n.value;
      if -MAX_INT - 1 <= v <= MAX_INT then Some(v) else None
  }

  /** Decimal parsing into a 64-bit signed integer: optional sign, at least one digit, no overflow. */
  function Atoi(s: string): Option<int> {
    if s != "" && s[0] == '-' then
      if |s| == 1 then None
      else SignedInt(ParseDigits(s[1..]), -1)
    else
      var d := if s != "" && s[0] == '+' then s[1..] else s;
      if d == "" then None
      else SignedInt(ParseDigits(d), 1)
  }

  lemma {:induction false} ItoaParses(n: nat)
    ensures ParseDigits(Itoa(n)) == Some(n)
    ensures Itoa(n) != "" && forall c :: c in Itoa(n) ==> '0' <= c <= '9'
  {
    if n < 10 {
      assert [Digit(n)][..0] == "";
    } else {
      ItoaParses(n / 10);
      assert Itoa(n)[..|Itoa(n)| - 1] == Itoa(n / 10);
    }
  }

  /** Printing and reading back a number is the identity on every non-negative int64, and fails above. */
  lemma AtoiItoa(n: nat)
    ensures Atoi(Itoa(n)) == if n <= MAX_INT then Some(n) else None
  {
    ItoaParses(n);
    var s := Itoa(n);
    assert s[0] in s;
    assert s[0] != '-' && s[0] != '+';
  }
}
