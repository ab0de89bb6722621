/** Server-sent events: the line-driven parser, the one-line printer, and what one makes of the other. */
module Sse {
  import Scanner

  /** The scanner's buffer limit. */
  const MAX_LINE := 8 * 1024 * 1024

  datatype Event = Event(event: string, data: string) | ScanError

  /** The event being assembled. */
  datatype State = State(event: string, data: string, started: bool)

  const FRESH := State("", "", false)

  // ── one line ───────────────────────────────────────────────────────────────

  function IndexOf(s: string, c: char): (i: nat)
    ensures i <= |s| && (forall k :: 0 <= k < i ==> s[k] != c)
    ensures i < |s| ==> s[i] == c
  {
    if s == "" || s[0] == c then 0 else 1 + IndexOf(s[1..], c)
  }

  predicate IsSpace(c: char) {
    c == ' ' || c == '\t' || c == '\n' || c == '\r' || c as int == 11 || c as int == 12
  }

  function TrimLeft(s: string): string {
    if s != "" && IsSpace(s[0]) then TrimLeft(s[1..]) else s
  }

  function TrimRight(s: string): string {
    if s != "" && IsSpace(s[|s| - 1]) then TrimRight(s[..|s| - 1]) else s
  }

  function TrimSpace(s: string): string {
    TrimRight(TrimLeft(s))
  }

  /** "data: x" and "data:x" both carry x. */
  function TrimOneSpace(s: string): string {
    if s != "" && s[0] == ' ' then s[1..] else s
  }

  datatype Field = EventField(value: string) | DataField(value: string) | NoField

  /** A non-blank line: a comment, a line without a colon and an unknown field all say nothing. */
  function FieldOf(line: string): Field
    requires line != ""
  {
    var i := IndexOf(line, ':');
    if line[0] == ':' || i == |line| then NoField
    else
      var name, value := TrimSpace(line[..i]), TrimOneSpace(line[i + 1..]);
      if name == "event" then EventField(value)
      else if name == "data" then DataField(value)
      else NoField
  }

  // ── the parser ─────────────────────────────────────────────────────────────

  function Feed(st: State, line: string): State
    requires line != ""
  {
    match FieldOf(line)
    case EventField(v) => State(v, st.data, true)
    case DataField(v) => State(st.event, (if st.started && st.data != "" then st.data + "\n" else st.data) + v, true)
    case NoField => st
  }

  function Flush(st: State): seq<Event> {
    if st.started then [Event(st.event, st.data)] else []
  }

  /** Events of a list of lines and of the end of input, from a given state. */
  function ParseLines(st: State, lines: seq<string>, failed: bool): seq<Event>
    decreases |lines|
  {
    if lines == [] then if failed then [ScanError] else Flush(st)
    else if lines[0] == "" then Flush(st) + ParseLines(FRESH, lines[1..], failed)
    else ParseLines(Feed(st, lines[0]), lines[1..], failed)
  }

  function Parse(s: string): seq<Event> {
    var scan := Scanner.ScanLines(s, MAX_LINE);
    ParseLines(FRESH, scan.lines, scan.tooLong)
  }

  method ParseSSE(s: string) returns (out: seq<Event>)
    ensures out == Parse(s)
  {
    var scan := Scanner.ScanLines(s, MAX_LINE);
    var event, data, started := "", "", false;
    out := [];
    var i := 0;
    while i < |scan.lines|
      invariant 0 <= i <= |scan.lines|
      invariant !started ==> event == "" && data == ""
      invariant out + ParseLines(State(event, data, started), scan.lines[i..], scan.tooLong) == Parse(s)
    {
      var line := scan.lines[i];
      LineStep(out, State(event, data, started), scan.lines, i, scan.tooLong);
      i := i + 1;
      if line == "" {
        if started {
          out := out + [Event(event, data)];
        }
        event, data, started := "", "", false;
        continue;
      }
      event, data, started := Assemble(event, data, started, line);
    }
    assert scan.lines[|scan.lines|..] == [];
    if scan.tooLong {
      out := out + [ScanError];
      return;
    }
    if started {
      out := out + [Event(event, data)];
    }
  }

  /** One non-blank line into the event being assembled. */
  method Assemble(event0: string, data0: string, started0: bool, line: string)
      returns (event: string, data: string, started: bool)
    requires line != "" && (!started0 ==> event0 == "" && data0 == "")
    ensures State(event, data, started) == Feed(State(event0, data0, started0), line)
    ensures !started ==> event == "" && data == ""
  {
    event, data, started := event0, data0, started0;
    if line[0] == ':' {
      return;
    }
    var colon := IndexOf(line, ':');
    if colon == |line| {
      return;
    }
    var value := TrimOneSpace(line[colon + 1..]);
    var name := TrimSpace(line[..colon]);
    if name == "event" {
      event, started := value, true;
    } else if name == "data" {
      if started && data != "" {
        data := data + "\n";
      }
      data := data + value;
      started := true;
    }
  }

  lemma LineStep(out: seq<Event>, st: State, lines: seq<string>, i: nat, failed: bool)
    requires i < |lines|
    ensures out + ParseLines(st, lines[i..], failed) ==
            if lines[i] == "" then (out + Flush(st)) + ParseLines(FRESH, lines[i + 1..], failed)
            else out + ParseLines(Feed(st, lines[i]), lines[i + 1..], failed)
    ensures !st.started ==> out + Flush(st) == out
  {
    assert lines[i..][0] == lines[i] && lines[i..][1..] == lines[i + 1..];
  }

  // ── what a block of lines means ────────────────────────────────────────────

  function Values(block: seq<string>): seq<string>
    requires "" !in block
  {
    if block == [] then []
    else
      var f := FieldOf(block[|block| - 1]);
      Values(block[..|block| - 1]) + if f.DataField? then [f.value] else []
  }

  /** The last event name given, if any. */
  function Name(block: seq<string>): string
    requires "" !in block
  {
    if block == [] then ""
    else
      var f := FieldOf(block[|block| - 1]);
      if f.EventField? then f.value else Name(block[..|block| - 1])
  }

  predicate Says(block: seq<string>)
    requires "" !in block
  {
    exists i :: 0 <= i < |block| && FieldOf(block[i]) != NoField
  }

  function Join(parts: seq<string>): string {
    if parts == [] then ""
    else if |parts| == 1 then parts[0]
    else Join(parts[..|parts| - 1]) + "\n" + parts[|parts| - 1]
  }

  function DropEmpty(parts: seq<string>): (r: seq<string>)
    ensures r == [] || r[0] != ""
  {
    if parts != [] && parts[0] == "" then DropEmpty(parts[1..]) else parts
  }

  lemma {:induction false} DropEmptyLength(parts: seq<string>)
    ensures |DropEmpty(parts)| <= |parts|
    ensures |DropEmpty(parts)| == |parts| <==> parts == [] || parts[0] != ""
  {
    if parts != [] && parts[0] == "" {
      DropEmptyLength(parts[1..]);
    }
  }

  lemma {:induction false} DropEmptySnoc(parts: seq<string>, v: string)
    ensures DropEmpty(parts + [v]) ==
            if DropEmpty(parts) == [] then (if v == "" then [] else [v]) else DropEmpty(parts) + [v]
  {
    if parts == [] {
      assert [] + [v] == [v] && [v][1..] == [];
    } else {
      assert (parts + [v])[1..] == parts[1..] + [v];
      if parts[0] == "" {
        DropEmptySnoc(parts[1..], v);
      }
    }
  }

  lemma JoinSnoc(parts: seq<string>, v: string)
    ensures Join(parts + [v]) == if parts == [] then v else Join(parts) + "\n" + v
  {
    assert (parts + [v])[..|parts|] == parts;
  }

  lemma JoinEmpty(parts: seq<string>)
    requires parts != [] && parts[0] != ""
    ensures Join(parts) != ""
  {
  }

  /** The data assembled from a block's values: their join, once leading empty values are dropped. */
  lemma {:induction false} BlockState(block: seq<string>)
    requires "" !in block
    ensures FeedAll(block) == State(Name(block), Join(DropEmpty(Values(block))), Says(block))
  {
    if block != [] {
      var init, last := block[..|block| - 1], block[|block| - 1];
      assert last in block && forall l :: l in init ==> l in block;
      BlockState(init);
      SaysSnoc(block);
      var f := FieldOf(last);
      if f.DataField? {
        var vs := DropEmpty(Values(init));
        DropEmptySnoc(Values(init), f.value);
        JoinSnoc(vs, f.value);
        if vs != [] {
          DropEmptyLength(Values(init));
          JoinEmpty(vs);
          ValuesSay(init);
        }
      } else {
        assert Values(block) == Values(init);
      }
    }
  }

  function FeedAll(block: seq<string>): State
    requires "" !in block
  {
    if block == [] then FRESH
    else
      assert block[|block| - 1] in block;
      Feed(FeedAll(block[..|block| - 1]), block[|block| - 1])
  }

  lemma SaysSnoc(block: seq<string>)
    requires "" !in block && block != []
    ensures Says(block) <==> Says(block[..|block| - 1]) || FieldOf(block[|block| - 1]) != NoField
  {
    var n := |block| - 1;
    if Says(block) && FieldOf(block[n]) == NoField {
      var i :| 0 <= i < |block| && FieldOf(block[i]) != NoField;
      assert FieldOf(block[..n][i]) != NoField;
    }
    if Says(block[..n]) {
      var i :| 0 <= i < n && FieldOf(block[..n][i]) != NoField;
      assert FieldOf(block[i]) != NoField;
    }
  }

  lemma {:induction false} ValuesSay(block: seq<string>)
    requires "" !in block && Values(block) != []
    ensures Says(block)
  {
    if FieldOf(block[|block| - 1]) == NoField {
      ValuesSay(block[..|block| - 1]);
    }
    SaysSnoc(block);
  }

  lemma {:induction false} FeedBlock(done: seq<string>, block: seq<string>, rest: seq<string>, failed: bool)
    requires "" !in done && "" !in block
    ensures "" !in done + block
    ensures ParseLines(FeedAll(done), block + rest, failed) == ParseLines(FeedAll(done + block), rest, failed)
    decreases |block|
  {
    if block == [] {
      assert done + block == done && block + rest == rest;
    } else {
      assert (block + rest)[0] == block[0] && (block + rest)[1..] == block[1..] + rest;
      assert block[0] in block && (done + [block[0]])[..|done|] == done;
      FeedBlock(done + [block[0]], block[1..], rest, failed);
      assert done + [block[0]] + block[1..] == done + block;
    }
  }

  /** The event a block stands for: none if no line says anything, otherwise the last event name and the
      values joined by newlines, leading empty ones dropped. */
  function BlockEvents(block: seq<string>): seq<Event>
    requires "" !in block
  {
    if Says(block) then [Event(Name(block), Join(DropEmpty(Values(block))))] else []
  }

  /** The parser is compositional: a block ended by a blank line contributes its event and leaves no trace. */
  lemma BlockThenRest(block: seq<string>, rest: seq<string>, failed: bool)
    requires "" !in block
    ensures ParseLines(FRESH, block + [""] + rest, failed) == BlockEvents(block) + ParseLines(FRESH, rest, failed)
  {
    assert block + [""] + rest == block + ([""] + rest);
    FeedBlock([], block, [""] + rest, failed);
    assert [] + block == block && ([""] + rest)[1..] == rest;
    BlockState(block);
  }

  /** A last block is delivered at the end of input too, unless the scan failed: then only the error is. */
  lemma BlockAtEnd(block: seq<string>, failed: bool)
    requires "" !in block
    ensures ParseLines(FRESH, block, failed) == if failed then [ScanError] else BlockEvents(block)
  {
    assert block + [] == block && [] + block == block;
    FeedBlock([], block, [], failed);
    BlockState(block);
  }

  // ── data lines ─────────────────────────────────────────────────────────────

  function DataLine(v: string): string { "data: " + v }

  function DataLines(parts: seq<string>): seq<string> {
    if parts == [] then [] else DataLines(parts[..|parts| - 1]) + [DataLine(parts[|parts| - 1])]
  }

  lemma DataLineField(v: string)
    ensures DataLine(v) != "" && FieldOf(DataLine(v)) == DataField(v)
  {
    var line := DataLine(v);
    assert line[4] == ':';
    var i := IndexOf(line, ':');
    assert i == 4;
    assert line[..4] == "data" && line[5..] == " " + v && (" " + v)[1..] == v;
    assert TrimLeft("data") == "data" && TrimRight("data") == "data";
  }

  function EventLine(name: string): string { "event: " + name }

  lemma EventLineField(name: string)
    ensures EventLine(name) != "" && FieldOf(EventLine(name)) == EventField(name)
  {
    var line := EventLine(name);
    assert line[5] == ':';
    var i := IndexOf(line, ':');
    assert i == 5;
    assert line[..5] == "event" && line[6..] == " " + name && (" " + name)[1..] == name;
    assert TrimLeft("event") == "event" && TrimRight("event") == "event";
  }

  lemma {:induction false} IndexOfFirst(a: string, c: char, b: string)
    requires c !in a
    ensures IndexOf(a + [c] + b, c) == |a|
  {
    var s := a + [c] + b;
    if a != "" {
      assert s[0] == a[0] && s[1..] == a[1..] + [c] + b;
      IndexOfFirst(a[1..], c, b);
    }
  }

  /** A comment and a line without a colon change nothing; a field changes something exactly when its name,
      spaces around it aside, is event or data. */
  lemma SilentLines(name: string, text: string)
    ensures FieldOf(":" + text) == NoField
    ensures text != "" && ':' !in text ==> FieldOf(text) == NoField
    ensures name != "" && ':' !in name ==>
              (FieldOf(name + ":" + text) == NoField <==> TrimSpace(name) != "event" && TrimSpace(name) != "data")
  {
    assert (":" + text)[0] == ':';
    if name != "" && ':' !in name {
      var line := name + ":" + text;
      IndexOfFirst(name, ':', text);
      assert line[0] == name[0] && line[..|name|] == name;
    }
  }

  ghost predicate AllSpace(s: string) {
    forall i :: 0 <= i < |s| ==> IsSpace(s[i])
  }

  lemma {:induction false} TrimLeftIs(s: string)
    ensures
      var r := TrimLeft(s);
      && |r| <= |s| && s[|s| - |r|..] == r && AllSpace(s[..|s| - |r|]) && (r != "" ==> !IsSpace(r[0]))
  {
    if s != "" && IsSpace(s[0]) {
      TrimLeftIs(s[1..]);
      var r := TrimLeft(s);
      assert s[|s| - |r|..] == s[1..][|s| - 1 - |r|..];
      assert s[..|s| - |r|] == [s[0]] + s[1..][..|s| - 1 - |r|];
    }
  }

  lemma {:induction false} TrimRightIs(s: string)
    ensures
      var r := TrimRight(s);
      && |r| <= |s| && s[..|r|] == r && AllSpace(s[|r|..]) && (r != "" ==> !IsSpace(r[|r| - 1]))
  {
    if s != "" && IsSpace(s[|s| - 1]) {
      TrimRightIs(s[..|s| - 1]);
      var r := TrimRight(s);
      assert s[..|r|] == s[..|s| - 1][..|r|];
      assert s[|r|..] == s[..|s| - 1][|r|..] + [s[|s| - 1]];
    }
  }

  /** Trimming takes the spaces off both ends, and no more. */
  lemma TrimSpaceIs(s: string) returns (before: string, after: string)
    ensures s == before + TrimSpace(s) + after && AllSpace(before) && AllSpace(after)
    ensures var r := TrimSpace(s); r != "" ==> !IsSpace(r[0]) && !IsSpace(r[|r| - 1])
  {
    var mid := TrimLeft(s);
    TrimLeftIs(s);
    TrimRightIs(mid);
    before, after := s[..|s| - |mid|], mid[|TrimSpace(s)|..];
    assert s == before + mid && mid == TrimSpace(s) + after;
  }

  /** What a field carries: an event name or data, by its trimmed name, with one space after the colon dropped
      and the rest of the line, further colons and spaces included, kept. */
  lemma FieldCarries(name: string, text: string)
    requires name != "" && ':' !in name
    ensures
      var value := if text != "" && text[0] == ' ' then text[1..] else text;
      && (TrimSpace(name) == "event" ==> FieldOf(name + ":" + text) == EventField(value))
      && (TrimSpace(name) == "data" ==> FieldOf(name + ":" + text) == DataField(value))
  {
    var line := name + ":" + text;
    IndexOfFirst(name, ':', text);
    assert line[0] == name[0] && line[..|name|] == name && line[|name| + 1..] == text;
  }

  lemma {:induction false} DataLinesValues(parts: seq<string>)
    ensures "" !in DataLines(parts) && |DataLines(parts)| == |parts|
    ensures Values(DataLines(parts)) == parts && Name(DataLines(parts)) == ""
    ensures Says(DataLines(parts)) <==> parts != []
  {
    if parts != [] {
      var init, v := parts[..|parts| - 1], parts[|parts| - 1];
      DataLinesValues(init);
      DataLineField(v);
      var block := DataLines(parts);
      assert block[..|block| - 1] == DataLines(init);
      SaysSnoc(block);
      assert parts == init + [v];
    }
  }

  lemma {:induction false} JoinLonger(parts: seq<string>)
    requires parts != [] && parts[0] == ""
    ensures |Join(DropEmpty(parts))| <= |Join(parts)|
    ensures |parts| >= 2 ==> |Join(DropEmpty(parts))| < |Join(parts)|
  {
    if |parts| >= 2 {
      var init, v := parts[..|parts| - 1], parts[|parts| - 1];
      assert init[0] == "" && parts == init + [v];
      JoinLonger(init);
      DropEmptySnoc(init, v);
      JoinSnoc(DropEmpty(init), v);
    } else {
      assert parts == [""] && parts[1..] == [];
    }
  }

  lemma JoinDropped(parts: seq<string>)
    requires parts != []
    ensures Join(DropEmpty(parts)) == Join(parts) <==> |parts| == 1 || parts[0] != ""
  {
    if parts[0] == "" {
      JoinLonger(parts);
      if |parts| == 1 {
        assert parts == [""] && parts[1..] == [];
      }
    }
  }

  lemma DataLinesEvents(parts: seq<string>)
    requires parts != []
    ensures "" !in DataLines(parts)
    ensures BlockEvents(DataLines(parts)) == [Event("", Join(DropEmpty(parts)))]
  {
    DataLinesValues(parts);
  }

  /** Multi-line data comes back whole exactly when it has at most one line or its first line is not empty. */
  lemma MultiLineRoundTrip(parts: seq<string>)
    requires parts != []
    ensures "" !in DataLines(parts)
    ensures BlockEvents(DataLines(parts)) == [Event("", Join(parts))] <==> |parts| == 1 || parts[0] != ""
  {
    DataLinesEvents(parts);
    JoinDropped(parts);
  }

  // ── printer and parser together ────────────────────────────────────────────

  /** What writeSSE puts on the wire for one payload. */
  function Frame(payload: string): string {
    DataLine(payload) + "\n" + "\n"
  }

  function Frames(payloads: seq<string>): string {
    if payloads == [] then "" else Frame(payloads[0]) + Frames(payloads[1..])
  }

  predicate Fits(payload: string) {
    |payload| + 6 < MAX_LINE
  }

  predicate EndsInCR(payload: string) {
    payload != "" && payload[|payload| - 1] == '\r'
  }

  /** What a client with this parser receives: payloads up to the first that does not fit, each losing a
      final carriage return. */
  function Received(payloads: seq<string>): seq<Event> {
    if payloads == [] then []
    else if !Fits(payloads[0]) then [ScanError]
    else [Event("", Scanner.DropCR(payloads[0]))] + Received(payloads[1..])
  }

  function Sent(payloads: seq<string>): seq<Event> {
    seq(|payloads|, i requires 0 <= i < |payloads| => Event("", payloads[i]))
  }

  lemma ScanTwo(line: string, rest: string, max: nat)
    requires '\n' !in line && max > 0
    ensures
      var tail := Scanner.ScanLines(rest, max);
      Scanner.ScanLines(line + "\n" + "\n" + rest, max) ==
      if |line| >= max then Scanner.Scan([], true)
          else Scanner.Scan([Scanner.DropCR(line), ""] + tail.lines, tail.tooLong)
  {
    var tail := Scanner.ScanLines(rest, max);
    assert line + "\n" + "\n" + rest == line + "\n" + ("\n" + rest);
    Scanner.ScanFirst(line, "\n" + rest, max);
    assert "\n" + rest == "" + "\n" + rest;
    Scanner.ScanFirst("", rest, max);
    assert [Scanner.DropCR(line)] + ([""] + tail.lines) == [Scanner.DropCR(line), ""] + tail.lines;
  }

  lemma DataLineCR(payload: string)
    ensures Scanner.DropCR(DataLine(payload)) == DataLine(Scanner.DropCR(payload))
  {
    var line := DataLine(payload);
    if payload == "" {
      assert line[|line| - 1] == ' ';
    } else {
      assert line[|line| - 1] == payload[|payload| - 1];
      assert line[..|line| - 1] == DataLine(payload[..|payload| - 1]);
    }
  }

  lemma FrameScan(payload: string, rest: string)
    requires '\n' !in payload
    ensures
      var scan, tail := Scanner.ScanLines(Frame(payload) + rest, MAX_LINE), Scanner.ScanLines(rest, MAX_LINE);
      scan == if Fits(payload) then Scanner.Scan([DataLine(Scanner.DropCR(payload)), ""] + tail.lines, tail.tooLong)
          else Scanner.Scan([], true)
  {
    ScanTwo(DataLine(payload), rest, MAX_LINE);
    DataLineCR(payload);
  }

  lemma FrameParse(payload: string, rest: string)
    requires '\n' !in payload
    ensures Parse(Frame(payload) + rest) ==
            if Fits(payload) then [Event("", Scanner.DropCR(payload))] + Parse(rest) else [ScanError]
  {
    FrameScan(payload, rest);
    if Fits(payload) {
      var p := Scanner.DropCR(payload);
      var tail := Scanner.ScanLines(rest, MAX_LINE);
      assert [p][..0] == [];
      assert DataLines([p]) == [DataLine(p)];
      assert [DataLine(p), ""] + tail.lines == [DataLine(p)] + [""] + tail.lines;
      BlockThenRest([DataLine(p)], tail.lines, tail.tooLong);
      MultiLineRoundTrip([p]);
    }
  }

  lemma {:induction false} FramesParse(payloads: seq<string>)
    requires forall p :: p in payloads ==> '\n' !in p
    ensures Parse(Frames(payloads)) == Received(payloads)
  {
    if payloads != [] {
      assert payloads[0] in payloads && forall p :: p in payloads[1..] ==> p in payloads;
      FrameParse(payloads[0], Frames(payloads[1..]));
      FramesParse(payloads[1..]);
    }
  }

  lemma {:induction false} ReceivedIsSent(payloads: seq<string>)
    ensures Received(payloads) == Sent(payloads) <==> forall p :: p in payloads ==> Fits(p) && !EndsInCR(p)
  {
    if payloads != [] {
      ReceivedIsSent(payloads[1..]);
      assert Sent(payloads) == [Event("", payloads[0])] + Sent(payloads[1..]);
      assert payloads == [payloads[0]] + payloads[1..];
      if Fits(payloads[0]) {
        assert Received(payloads)[1..] == Received(payloads[1..]) && Sent(payloads)[1..] == Sent(payloads[1..]);
      }
      if !Fits(payloads[0]) {
        assert Received(payloads)[0] != Sent(payloads)[0];
      } else {
        assert Received(payloads)[0] == Event("", Scanner.DropCR(payloads[0]));
      }
    }
  }

  /** For newline-free payloads, empty ones included, parsing what was printed gives back exactly the
      payloads, in order, if and only if every frame fits the scanner's buffer and none ends in a carriage
      return. */
  lemma RoundTrip(payloads: seq<string>)
    requires forall p :: p in payloads ==> '\n' !in p
    ensures Parse(Frames(payloads)) == Sent(payloads) <==> forall p :: p in payloads ==> Fits(p) && !EndsInCR(p)
  {
    FramesParse(payloads);
    ReceivedIsSent(payloads);
  }
}
