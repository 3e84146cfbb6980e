/** The string operations of Rust that the business card relies on, with the facts needed about them. */
module Text {
  /** Unicode White_Space. */
  predicate IsWhite(c: char) {
    var n := c as int;
    || 0x09 <= n <= 0x0D || n == 0x20 || n == 0x85 || n == 0xA0 || n == 0x1680 || 0x2000 <= n <= 0x200A
    || n == 0x2028 || n == 0x2029 || n == 0x202F || n == 0x205F || n == 0x3000
  }

  /** General category Cc. */
  predicate IsControl(c: char) {
    var n := c as int;
    n <= 0x1F || 0x7F <= n <= 0x9F
  }

  function TrimStart(s: string): (r: string)
    ensures |r| <= |s|
    ensures r != "" ==> !IsWhite(r[0]) && r[|r| - 1] == s[|s| - 1]
  {
    if s != "" && IsWhite(s[0]) then TrimStart(s[1..]) else s
  }

  function TrimEnd(s: string): (r: string)
    ensures r <= s
    ensures r != "" ==> !IsWhite(r[|r| - 1])
  {
    if s != "" && IsWhite(s[|s| - 1]) then TrimEnd(s[..|s| - 1]) else s
  }

  function Trim(s: string): (r: string)
    ensures Tight(r)
  {
    TrimEnd(TrimStart(s))
  }

  /** Neither end is white. */
  predicate Tight(s: string) {
    s == "" || (!IsWhite(s[0]) && !IsWhite(s[|s| - 1]))
  }

  lemma TrimTight(s: string)
    requires Tight(s)
    ensures Trim(s) == s
  {
  }

  lemma TrimAfterSpace(s: string)
    requires Tight(s)
    ensures Trim(" " + s) == s
  {
    assert (" " + s)[0] == ' ' && (" " + s)[1..] == s;
    assert TrimStart(" " + s) == TrimStart(s);
  }

  /** Every character of a trimmed string comes from the string. */
  lemma {:induction false} BlankStart(s: string)
    ensures TrimStart(s) == "" <==> forall c | c in s :: IsWhite(c)
  {
    if s != "" && IsWhite(s[0]) {
      BlankStart(s[1..]);
      assert s == [s[0]] + s[1..];
    }
  }

  /** A string trims to nothing exactly when it is white throughout. */
  lemma BlankIff(s: string)
    ensures Trim(s) == "" <==> forall c | c in s :: IsWhite(c)
  {
    BlankStart(s);
    var t := TrimStart(s);
    if t != "" {
      assert !IsWhite(t[0]);
      EndKeepsFirst(t);
    }
  }

  lemma {:induction false} EndKeepsFirst(t: string)
    requires t != "" && !IsWhite(t[0])
    ensures TrimEnd(t) != ""
  {
    if IsWhite(t[|t| - 1]) {
      EndKeepsFirst(t[..|t| - 1]);
    }
  }

  // ----- Lines -----

  /** Position of the first line feed, the length standing for none. */
  function NewLine(s: string): (i: nat)
    ensures i <= |s|
    ensures i < |s| ==> s[i] == '\n'
    ensures '\n' !in s[..i]
  {
    if s == "" || s[0] == '\n' then 0 else
    var i := 1 + NewLine(s[1..]);
    assert s[..i] == [s[0]] + s[1..][..i - 1];
    i
  }

  /** `str::lines`; a carriage return before the line feed is left for trimming. */
  function Lines(s: string): seq<string>
    decreases |s|
  {
    if s == "" then [] else
    var i := NewLine(s);
    if i == |s| then [s] else [s[..i]] + Lines(s[i + 1..])
  }

  /** Each line followed by a line feed. */
  function Unlines(ls: seq<string>): string {
    if ls == [] then "" else ls[0] + "\n" + Unlines(ls[1..])
  }

  predicate OneLine(s: string) {
    '\n' !in s
  }

  lemma {:induction false} NewLineAfter(l: string, rest: string)
    requires OneLine(l)
    ensures NewLine(l + "\n" + rest) == |l|
  {
    var s := l + "\n" + rest;
    if l != "" {
      NewLineAfter(l[1..], rest);
      assert s[1..] == l[1..] + "\n" + rest;
    }
  }

  lemma FirstLine(l: string, rest: string)
    requires OneLine(l)
    ensures Lines(l + "\n" + rest) == [l] + Lines(rest)
  {
    var s := l + "\n" + rest;
    NewLineAfter(l, rest);
    assert s[..|l|] == l && s[|l| + 1..] == rest;
  }

  lemma Associates<T>(a: seq<T>, b: seq<T>, c: seq<T>)
    ensures (a + b) + c == a + (b + c)
  {
  }

  lemma {:induction false} LinesOfUnlines(ls: seq<string>, tail: string)
    requires forall l <- ls :: OneLine(l)
    ensures Lines(Unlines(ls) + tail) == ls + Lines(tail)
    decreases |ls|
  {
    if ls == [] {
      assert Unlines(ls) + tail == tail;
    } else {
      var l, more := ls[0], ls[1..];
      Associates(l + "\n", Unlines(more), tail);
      FirstLine(l, Unlines(more) + tail);
      LinesOfUnlines(more, tail);
      Associates([l], more, Lines(tail));
      assert [l] + more == ls;
    }
  }

  lemma NewLineNone(s: string)
    requires OneLine(s)
    ensures NewLine(s) == |s|
  {
  }

  lemma {:induction false} UnlinesJoins(a: seq<string>, b: seq<string>)
    ensures Unlines(a + b) == Unlines(a) + Unlines(b)
    decreases |a|
  {
    if a == [] {
      assert a + b == b;
    } else {
      UnlinesJoins(a[1..], b);
      assert (a + b)[1..] == a[1..] + b;
      assert Unlines(a + b) == a[0] + "\n" + (Unlines(a[1..]) + Unlines(b));
    }
  }

  /** Dropping the last line feed after a last line that is not empty loses no line. */
  lemma LinesWithoutLastFeed(ls: seq<string>, last: string)
    requires (forall l <- ls :: OneLine(l)) && OneLine(last) && last != ""
    ensures Lines(Unlines(ls) + last) == ls + [last]
  {
    LinesOfUnlines(ls, last);
    NewLineNone(last);
  }
}
