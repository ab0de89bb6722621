/** bufio.Scanner in line mode: lines without their terminator, one trailing '\r' dropped, and an error
    instead of a line that does not fit the buffer. */
module Scanner {

  /** lines: the tokens delivered before the end or the error. */
  datatype Scan = Scan(lines: seq<string>, tooLong: bool)

  function LineEnd(s: string): (i: nat)
    ensures i <= |s|
    ensures forall k :: 0 <= k < i ==> s[k] != '\n'
    ensures i < |s| ==> s[i] == '\n'
  {
    if s == "" || s[0] == '\n' then 0 else 1 + LineEnd(s[1..])
  }

  function DropCR(line: string): (r: string)
    ensures |r| <= |line|
  {
    if line != "" && line[|line| - 1] == '\r' then line[..|line| - 1] else line
  }

  /** max is the buffer limit: a line and its terminator must fit in it. */
  function ScanLines(s: string, max: nat): (r: Scan)
    ensures forall i :: 0 <= i < |r.lines| ==> '\n' !in r.lines[i]
    decreases |s|
  {
    if s == "" then Scan([], false)
    else
      var i := LineEnd(s);
      if i >= max then Scan([], true)
      else if i == |s| then Scan([DropCR(s)], false)
      else
        var rest := ScanLines(s[i + 1..], max);
        Scan([DropCR(s[..i])] + rest.lines, rest.tooLong)
  }

  predicate Complete(s: string) {
    s == "" || s[|s| - 1] == '\n'
  }

  lemma {:induction false} LineEndAt(line: string, rest: string)
    requires '\n' !in line
    ensures LineEnd(line + "\n" + rest) == |line|
  {
    var s := line + "\n" + rest;
    if line != "" {
      assert s[0] == line[0];
      assert s[1..] == line[1..] + "\n" + rest;
      LineEndAt(line[1..], rest);
    }
  }

  /** The first terminated line of a file, and everything after it. */
  lemma ScanFirst(line: string, rest: string, max: nat)
    requires '\n' !in line
    ensures ScanLines(line + "\n" + rest, max) ==
            if |line| >= max then Scan([], true)
            else Scan([DropCR(line)] + ScanLines(rest, max).lines, ScanLines(rest, max).tooLong)
  {
    var s := line + "\n" + rest;
    LineEndAt(line, rest);
    assert s[..|line|] == line && s[|line| + 1..] == rest;
  }

  lemma SplitFirst(a: string) returns (line: string, rest: string)
    requires Complete(a) && a != ""
    ensures a == line + "\n" + rest && '\n' !in line && Complete(rest) && |rest| < |a|
  {
    var i := LineEnd(a);
    assert i < |a|;
    line, rest := a[..i], a[i + 1..];
  }

  lemma Regroup(line: string, rest: string, b: string)
    ensures (line + "\n" + rest) + b == line + "\n" + (rest + b)
  {
  }

  lemma JoinLines(first: string, a: seq<string>, b: seq<string>)
    ensures [first] + (a + b) == ([first] + a) + b
  {
  }

  /** Scanning continues across the join of two files when the first one ends with a newline. */
  lemma {:induction false} ScanJoin(a: string, b: string, max: nat)
    requires Complete(a) && !ScanLines(a, max).tooLong
    ensures ScanLines(a + b, max) == Scan(ScanLines(a, max).lines + ScanLines(b, max).lines, ScanLines(b, max).tooLong)
    decreases |a|
  {
    if a == "" {
      assert a + b == b;
    } else {
      var line, rest := SplitFirst(a);
      ScanFirst(line, rest, max);
      ScanJoin(rest, b, max);
      ScanJoinStep(line, rest, b, max, ScanLines(a, max), ScanLines(rest, max), ScanLines(rest + b, max),
          ScanLines(b, max));
    }
  }

  lemma ScanJoinStep(line: string, rest: string, b: string, max: nat, whole: Scan, tail: Scan, tailB: Scan, scanB: Scan)
    requires '\n' !in line && |line| < max
    requires tailB == ScanLines(rest + b, max) == Scan(tail.lines + scanB.lines, scanB.tooLong)
    requires whole.lines == [DropCR(line)] + tail.lines
    ensures ScanLines((line + "\n" + rest) + b, max) == Scan(whole.lines + scanB.lines, scanB.tooLong)
  {
    Regroup(line, rest, b);
    ScanFirst(line, rest + b, max);
    JoinLines(DropCR(line), tail.lines, scanB.lines);
  }

  lemma {:induction false} LineEndGrows(s: string, x: string)
    ensures LineEnd(s + x) >= LineEnd(s)
    ensures LineEnd(s) < |s| ==> LineEnd(s + x) == LineEnd(s)
  {
    if s != "" && s[0] != '\n' {
      assert (s + x)[0] == s[0] && (s + x)[1..] == s[1..] + x;
      LineEndGrows(s[1..], x);
    }
  }

  predicate HasLongLine(s: string, max: nat)
    decreases |s|
  {
    s != "" && (LineEnd(s) >= max || (LineEnd(s) < |s| && HasLongLine(s[LineEnd(s) + 1..], max)))
  }

  lemma {:induction false} TooLongIff(s: string, max: nat)
    ensures ScanLines(s, max).tooLong <==> HasLongLine(s, max)
    decreases |s|
  {
    if s != "" && LineEnd(s) < |s| {
      TooLongIff(s[LineEnd(s) + 1..], max);
    }
  }

  /** Nothing appended to a file makes an over-long line in it shorter. */
  lemma {:induction false} LongLineStays(s: string, x: string, max: nat)
    requires HasLongLine(s, max)
    ensures HasLongLine(s + x, max)
    decreases |s|
  {
    var i := LineEnd(s);
    LineEndGrows(s, x);
    if i < max {
      LongLineStays(s[i + 1..], x, max);
      assert (s + x)[i + 1..] == s[i + 1..] + x;
    }
  }

  lemma TooLongStays(s: string, x: string, max: nat)
    requires ScanLines(s, max).tooLong
    ensures ScanLines(s + x, max).tooLong
  {
    TooLongIff(s, max);
    LongLineStays(s, x, max);
    TooLongIff(s + x, max);
  }
}
