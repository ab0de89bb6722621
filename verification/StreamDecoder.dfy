/** The OpenAI-style stream decoder: parsed server-sent events in, platform stream events out. */
module StreamDecoder {
  import opened Sequences
  import Metering
  import Sse

  datatype Choice = Choice(content: string, reasoning: string, finish: string)

  /** error: an error object inside the chunk. */
  datatype Chunk = Chunk(choices: seq<Choice>, usage: Option<Metering.Usage>, error: Option<string>)

  datatype Finish = Stop | Length | ToolCalls | ContentFilter

  /** Why a stream failed.  FromUpstream: an upstream error as the adapters normalise it. */
  datatype Cause = ContextDone | ParserFailed | Truncated | BadChunk
      | FromUpstream(status: int, code: string, message: string)

  datatype StreamEvent =
    | Delta(text: string)
    | Reasoning(text: string)
    | ToolCall
    | UsageReport(usage: Metering.Usage)
    | Failed(cause: Cause)
    | Done(finish: Finish)

  const DONE := "[DONE]"
  const NO_USAGE := Metering.Usage(0, 0, 0)

  function MapStop(s: string): Finish {
    if s == "length" then Length
    else if s == "tool_calls" then ToolCalls
    else if s == "content_filter" then ContentFilter
    else Stop
  }

  /** An error object in the stream counts as a server error of the upstream, whatever its type. */
  function ErrorChunk(message: string): Cause {
    FromUpstream(500, "upstream_error", message)
  }

  /** The texts of one choice: what is not empty, content before reasoning. */
  function ChoiceDeltas(c: Choice): seq<StreamEvent> {
    (if c.content != "" then [Delta(c.content)] else []) + (if c.reasoning != "" then [Reasoning(c.reasoning)] else [])
  }

  function ChunkDeltas(cs: seq<Choice>): seq<StreamEvent> {
    if cs == [] then [] else ChunkDeltas(cs[..|cs| - 1]) + ChoiceDeltas(cs[|cs| - 1])
  }

  /** The last finish reason named, if any. */
  function ChunkFinish(cs: seq<Choice>, before: Option<Finish>): Option<Finish> {
    if cs == [] then before
    else if cs[|cs| - 1].finish != "" then Some(MapStop(cs[|cs| - 1].finish))
    else ChunkFinish(cs[..|cs| - 1], before)
  }

  method DecodeChoices(cs: seq<Choice>, finish0: Option<Finish>)
      returns (deltas: seq<StreamEvent>, finish: Option<Finish>)
    ensures deltas == ChunkDeltas(cs) && finish == ChunkFinish(cs, finish0)
  {
    deltas, finish := [], finish0;
    for i := 0 to |cs|
      invariant deltas == ChunkDeltas(cs[..i]) && finish == ChunkFinish(cs[..i], finish0)
    {
      assert cs[..i + 1][..i] == cs[..i];
      if cs[i].content != "" {
        deltas := deltas + [Delta(cs[i].content)];
      }
      if cs[i].reasoning != "" {
        deltas := deltas + [Reasoning(cs[i].reasoning)];
      }
      if cs[i].finish != "" {
        finish := Some(MapStop(cs[i].finish));
      }
    }
    assert cs[..|cs|] == cs;
  }

  // ── the decoder ────────────────────────────────────────────────────────────

  /** raw: the parsed events, the channel being closed after the last.  json: the chunk a data string
      decodes to.  cancelAt: the loop turn, if any, on which the cancelled context is seen. */
  datatype Input = Input(raw: seq<Sse.Event>, json: string -> Option<Chunk>, cancelAt: Option<nat>)

  /** Why the loop ends on turn i, if it does; Done here stands for having read the [DONE] marker. */
  datatype Verdict = GoesOn | Ends(cause: Cause) | Completes

  function VerdictAt(inp: Input, i: nat): Verdict
    requires i <= |inp.raw|
  {
    if inp.cancelAt == Some(i) then Ends(ContextDone)
    else if i == |inp.raw| then Ends(Truncated)
    else if inp.raw[i].ScanError? then Ends(ParserFailed)
    else
      var data := Sse.TrimSpace(inp.raw[i].data);
      if data == "" then GoesOn
      else if data == DONE then Completes
      else if inp.json(data) == None then Ends(BadChunk)
      else if inp.json(data).value.error.Some? then Ends(ErrorChunk(inp.json(data).value.error.value))
      else GoesOn
  }

  /** The chunk read on a turn that goes on; an empty data string carries none. */
  function ChunkAt(inp: Input, i: nat): Chunk
    requires i < |inp.raw| && VerdictAt(inp, i) == GoesOn
  {
    var data := Sse.TrimSpace(inp.raw[i].data);
    if data == "" then Chunk([], None, None) else inp.json(data).value
  }

  /** The turn on which the loop ends, from turn i on. */
  function EndFrom(inp: Input, i: nat): (n: nat)
    requires i <= |inp.raw|
    ensures i <= n <= |inp.raw| && VerdictAt(inp, n) != GoesOn
    ensures forall k :: i <= k < n ==> VerdictAt(inp, k) == GoesOn
    decreases |inp.raw| - i
  {
    if VerdictAt(inp, i) != GoesOn then i else EndFrom(inp, i + 1)
  }

  predicate GoesTo(inp: Input, n: nat) {
    n <= |inp.raw| && forall k :: 0 <= k < n ==> VerdictAt(inp, k) == GoesOn
  }

  /** All texts, the last usage and the last finish reason of the first n turns. */
  function Deltas(inp: Input, n: nat): seq<StreamEvent>
    requires GoesTo(inp, n)
  {
    if n == 0 then [] else Deltas(inp, n - 1) + ChunkDeltas(ChunkAt(inp, n - 1).choices)
  }

  function LastUsage(inp: Input, n: nat): Metering.Usage
    requires GoesTo(inp, n)
  {
    if n == 0 then NO_USAGE
    else if ChunkAt(inp, n - 1).usage.Some? then ChunkAt(inp, n - 1).usage.value
    else LastUsage(inp, n - 1)
  }

  function LastFinish(inp: Input, n: nat): Option<Finish>
    requires GoesTo(inp, n)
  {
    if n == 0 then None else ChunkFinish(ChunkAt(inp, n - 1).choices, LastFinish(inp, n - 1))
  }

  /** How a stream that ended on turn n is closed. */
  function Tail(inp: Input, n: nat): seq<StreamEvent>
    requires GoesTo(inp, n) && VerdictAt(inp, n) != GoesOn
  {
    if VerdictAt(inp, n).Ends? then [Failed(VerdictAt(inp, n).cause)]
    else [UsageReport(LastUsage(inp, n)), Done(if LastFinish(inp, n) == None then Stop else LastFinish(inp, n).value)]
  }

  function Decode(inp: Input): seq<StreamEvent> {
    var n := EndFrom(inp, 0);
    Deltas(inp, n) + Tail(inp, n)
  }

  method ParseStream(inp: Input) returns (out: seq<StreamEvent>)
    ensures out == Decode(inp)
  {
    var usage := NO_USAGE;
    var finish: Option<Finish> := None;
    out := [];
    var i := 0;
    while true
      invariant i <= |inp.raw| && GoesTo(inp, i)
      invariant out == Deltas(inp, i) && usage == LastUsage(inp, i) && finish == LastFinish(inp, i)
      decreases |inp.raw| - i
    {
      EndIsUnique(inp, i);
      if inp.cancelAt == Some(i) {
        out := out + [Failed(ContextDone)];
        return;
      }
      if i < |inp.raw| && inp.raw[i].ScanError? {
        out := out + [Failed(ParserFailed)];
        return;
      }
      if i == |inp.raw| {
        out := out + [Failed(Truncated)];
        return;
      }
      var data := Sse.TrimSpace(inp.raw[i].data);
      i := i + 1;
      if data == "" {
        continue;
      }
      if data == DONE {
        out := out + [UsageReport(usage)];
        out := out + [Done(if finish == None then Stop else finish.value)];
        assert out == Deltas(inp, i - 1) + Tail(inp, i - 1);
        return;
      }
      var chunk := inp.json(data);
      if chunk == None {
        out := out + [Failed(BadChunk)];
        return;
      }
      if chunk.value.error.Some? {
        out := out + [Failed(ErrorChunk(chunk.value.error.value))];
        return;
      }
      var deltas;
      deltas, finish := DecodeChoices(chunk.value.choices, finish);
      out := out + deltas;
      if chunk.value.usage.Some? {
        usage := chunk.value.usage.value;
      }
    }
  }

  lemma EndIsUnique(inp: Input, n: nat)
    requires GoesTo(inp, n)
    ensures VerdictAt(inp, n) != GoesOn ==> EndFrom(inp, 0) == n
  {
    assert EndFrom(inp, 0) >= n;
  }

  // ── what every stream looks like ───────────────────────────────────────────

  predicate IsText(e: StreamEvent) {
    (e.Delta? || e.Reasoning?) && e.text != ""
  }

  lemma {:induction false} ChunkDeltasAreText(cs: seq<Choice>)
    ensures forall e :: e in ChunkDeltas(cs) ==> IsText(e)
  {
    if cs != [] {
      ChunkDeltasAreText(cs[..|cs| - 1]);
    }
  }

  lemma {:induction false} DeltasAreText(inp: Input, n: nat)
    requires GoesTo(inp, n)
    ensures forall e :: e in Deltas(inp, n) ==> IsText(e)
  {
    if n > 0 {
      DeltasAreText(inp, n - 1);
      ChunkDeltasAreText(ChunkAt(inp, n - 1).choices);
    }
  }

  /** out is texts followed by exactly one ending: a usage report and Done, or one failure. */
  ghost predicate WellFormed(out: seq<StreamEvent>) {
    exists texts: seq<StreamEvent>, tail: seq<StreamEvent> ::
      && out == texts + tail
      && (forall e :: e in texts ==> IsText(e))
      && ((|tail| == 2 && tail[0].UsageReport? && tail[1].Done?) || (|tail| == 1 && tail[0].Failed?))
  }

  /** For any input, any chunk decoding and any moment of cancellation the stream is well formed. */
  lemma DecodeWellFormed(inp: Input)
    ensures WellFormed(Decode(inp))
  {
    var n := EndFrom(inp, 0);
    DeltasAreText(inp, n);
    assert Decode(inp) == Deltas(inp, n) + Tail(inp, n);
  }

  /** The stream completes exactly when the [DONE] marker is read: some turn carries it, and no earlier turn
      was cancelled, failed to parse or decode, or carried an upstream error. */
  lemma DoneIffMarkerRead(inp: Input)
    ensures (exists e :: e in Decode(inp) && e.Done?) <==>
            exists n: nat :: GoesTo(inp, n) && n < |inp.raw| && inp.cancelAt != Some(n) && inp.raw[n].Event? &&
                Sse.TrimSpace(inp.raw[n].data) == DONE
  {
    var n := EndFrom(inp, 0);
    DeltasAreText(inp, n);
    var out := Decode(inp);
    if VerdictAt(inp, n).Completes? {
      assert out[|out| - 1].Done?;
      assert GoesTo(inp, n) && n < |inp.raw| && inp.raw[n].Event? && Sse.TrimSpace(inp.raw[n].data) == DONE;
    } else {
      forall e | e in out ensures !e.Done? {
        assert e in Deltas(inp, n) || e in Tail(inp, n);
      }
    }
    forall m: nat | GoesTo(inp, m) && m < |inp.raw| && inp.cancelAt != Some(m) && inp.raw[m].Event? &&
        Sse.TrimSpace(inp.raw[m].data) == DONE
      ensures m == n
    {
      EndIsUnique(inp, m);
    }
  }

  /** The turn goes on exactly when it is not cancelled and brings an event that is blank, or a chunk that
      decodes and carries no error. */
  lemma GoesOnIff(inp: Input, n: nat)
    requires n <= |inp.raw|
    ensures VerdictAt(inp, n) == GoesOn <==>
            && inp.cancelAt != Some(n) && n < |inp.raw| && inp.raw[n].Event?
            && var data := Sse.TrimSpace(inp.raw[n].data);
               data == "" || (data != DONE && inp.json(data).Some? && inp.json(data).value.error == None)
  {
  }

  /** What a choice says, in the order it is passed on. */
  function Pieces(cs: seq<Choice>): seq<StreamEvent> {
    if cs == [] then []
    else Pieces(cs[..|cs| - 1]) + [Delta(cs[|cs| - 1].content), Reasoning(cs[|cs| - 1].reasoning)]
  }

  function PiecesRead(inp: Input, n: nat): seq<StreamEvent>
    requires GoesTo(inp, n)
  {
    if n == 0 then [] else PiecesRead(inp, n - 1) + Pieces(ChunkAt(inp, n - 1).choices)
  }

  function NonEmpty(es: seq<StreamEvent>): seq<StreamEvent> {
    if es == [] then [] else NonEmpty(es[..|es| - 1]) + if IsText(es[|es| - 1]) then [es[|es| - 1]] else []
  }

  lemma {:induction false} NonEmptyJoin(a: seq<StreamEvent>, b: seq<StreamEvent>)
    ensures NonEmpty(a + b) == NonEmpty(a) + NonEmpty(b)
  {
    if b == [] {
      assert a + b == a;
    } else {
      assert (a + b)[..|a + b| - 1] == a + b[..|b| - 1];
      NonEmptyJoin(a, b[..|b| - 1]);
    }
  }

  lemma ChoicePieces(c: Choice)
    ensures NonEmpty([Delta(c.content), Reasoning(c.reasoning)]) == ChoiceDeltas(c)
  {
    var es := [Delta(c.content), Reasoning(c.reasoning)];
    assert es[..1] == [Delta(c.content)] && es[..1][..0] == [];
    assert NonEmpty([]) == [];
    assert NonEmpty(es[..1]) == if c.content != "" then [Delta(c.content)] else [];
  }

  lemma {:induction false} ChunkPieces(cs: seq<Choice>)
    ensures NonEmpty(Pieces(cs)) == ChunkDeltas(cs)
  {
    if cs != [] {
      ChunkPieces(cs[..|cs| - 1]);
      var last := cs[|cs| - 1];
      NonEmptyJoin(Pieces(cs[..|cs| - 1]), [Delta(last.content), Reasoning(last.reasoning)]);
      ChoicePieces(last);
    }
  }

  /** The texts a stream passes on: chunk by chunk and choice by choice, the answer before the reasoning, what is
      empty left out and nothing else. */
  lemma {:induction false} DeltasInOrder(inp: Input, n: nat)
    requires GoesTo(inp, n)
    ensures Deltas(inp, n) == NonEmpty(PiecesRead(inp, n))
  {
    if n > 0 {
      DeltasInOrder(inp, n - 1);
      ChunkPieces(ChunkAt(inp, n - 1).choices);
      NonEmptyJoin(PiecesRead(inp, n - 1), Pieces(ChunkAt(inp, n - 1).choices));
    }
  }

  /** How a stream fails after n turns that went on, texts before that turn being all it delivers: by the
      cancelled context before anything else, by a channel that closes, by the parser's failure, by a chunk
      that does not decode, or by the error a chunk carries, whatever else that chunk holds. */
  lemma FailsWith(inp: Input, n: nat)
    requires GoesTo(inp, n)
    ensures inp.cancelAt == Some(n) ==> Decode(inp) == Deltas(inp, n) + [Failed(ContextDone)]
    ensures inp.cancelAt != Some(n) && n == |inp.raw| ==> Decode(inp) == Deltas(inp, n) + [Failed(Truncated)]
    ensures inp.cancelAt != Some(n) && n < |inp.raw| && inp.raw[n].ScanError? ==>
              Decode(inp) == Deltas(inp, n) + [Failed(ParserFailed)]
    ensures inp.cancelAt != Some(n) && n < |inp.raw| && inp.raw[n].Event? ==>
              var data := Sse.TrimSpace(inp.raw[n].data);
              && (data != "" && data != DONE && inp.json(data) == None ==>
                    Decode(inp) == Deltas(inp, n) + [Failed(BadChunk)])
              && (data != "" && data != DONE && inp.json(data).Some? && inp.json(data).value.error.Some? ==>
                    Decode(inp) == Deltas(inp, n) +
                        [Failed(FromUpstream(500, "upstream_error", inp.json(data).value.error.value))])
  {
    EndIsUnique(inp, n);
  }

  /** The usage reports of the first n turns, in order. */
  function Reports(inp: Input, n: nat): seq<Metering.Usage>
    requires GoesTo(inp, n)
  {
    if n == 0 then []
    else Reports(inp, n - 1) + if ChunkAt(inp, n - 1).usage.Some? then [ChunkAt(inp, n - 1).usage.value] else []
  }

  /** The counts reported at the end are the last ones the chunks carried, or zero. */
  lemma {:induction false} LastUsageIs(inp: Input, n: nat)
    requires GoesTo(inp, n)
    ensures LastUsage(inp, n) == if Reports(inp, n) == [] then NO_USAGE else Reports(inp, n)[|Reports(inp, n)| - 1]
  {
    if n > 0 {
      LastUsageIs(inp, n - 1);
      if ChunkAt(inp, n - 1).usage == None {
        assert Reports(inp, n) == Reports(inp, n - 1);
      }
    }
  }

  /** The finish reasons named on the first n turns, in order. */
  function FinishNames(inp: Input, n: nat): seq<string>
    requires GoesTo(inp, n)
  {
    if n == 0 then [] else FinishNames(inp, n - 1) + NamedIn(ChunkAt(inp, n - 1).choices)
  }

  function NamedIn(cs: seq<Choice>): seq<string> {
    if cs == [] then []
    else NamedIn(cs[..|cs| - 1]) + if cs[|cs| - 1].finish != "" then [cs[|cs| - 1].finish] else []
  }

  function LastNamed(names: seq<string>, before: Option<Finish>): Option<Finish> {
    if names == [] then before else Some(MapStop(names[|names| - 1]))
  }

  lemma {:induction false} ChunkFinishIs(cs: seq<Choice>, before: Option<Finish>)
    ensures ChunkFinish(cs, before) == LastNamed(NamedIn(cs), before)
  {
    if cs != [] {
      ChunkFinishIs(cs[..|cs| - 1], before);
      if cs[|cs| - 1].finish == "" {
        assert NamedIn(cs) == NamedIn(cs[..|cs| - 1]);
      }
    }
  }

  /** The finish reason of a completed stream is the last one named, or none. */
  lemma {:induction false} LastFinishIs(inp: Input, n: nat)
    requires GoesTo(inp, n)
    ensures LastFinish(inp, n) == LastNamed(FinishNames(inp, n), None)
  {
    if n > 0 {
      LastFinishIs(inp, n - 1);
      ChunkFinishIs(ChunkAt(inp, n - 1).choices, LastFinish(inp, n - 1));
    }
  }

  /** The finish reason as it is written to the client. */
  function NameOf(f: Finish): string {
    match f
    case Stop => "stop"
    case Length => "length"
    case ToolCalls => "tool_calls"
    case ContentFilter => "content_filter"
  }

  const KNOWN_REASONS := ["stop", "length", "tool_calls", "content_filter"]

  lemma NameOfMapStop(s: string)
    ensures NameOf(MapStop(s)) == if s in KNOWN_REASONS then s else "stop"
  {
    var k := KNOWN_REASONS;
    assert k[0] == "stop" && k[1] == "length" && k[2] == "tool_calls" && k[3] == "content_filter";
  }

  /** What a client is told when the upstream named these reasons. */
  function Told(names: seq<string>): string {
    if names == [] then "stop" else NameOf(MapStop(names[|names| - 1]))
  }

  /** The client is told the last reason named, word for word, exactly when it is one of the four known ones;
      any other, or none, becomes stop. */
  lemma ToldIs(names: seq<string>)
    ensures names != [] ==> (Told(names) == names[|names| - 1] <==> names[|names| - 1] in KNOWN_REASONS)
    ensures names == [] || names[|names| - 1] !in KNOWN_REASONS ==> Told(names) == "stop"
  {
    assert KNOWN_REASONS[0] == "stop";
    if names != [] {
      NameOfMapStop(names[|names| - 1]);
    }
  }

  lemma TailFinish(inp: Input, n: nat)
    requires GoesTo(inp, n) && VerdictAt(inp, n).Completes?
    ensures |Tail(inp, n)| == 2 && Tail(inp, n)[1].Done? && NameOf(Tail(inp, n)[1].finish) == Told(FinishNames(inp, n))
  {
    LastFinishIs(inp, n);
  }

  /** From the upstream to the client: a completed stream ends with the finish reason ToldIs describes. */
  lemma FinishRelayed(inp: Input)
    requires VerdictAt(inp, EndFrom(inp, 0)).Completes?
    ensures
      var out := Decode(inp);
      out != [] && out[|out| - 1].Done? && NameOf(out[|out| - 1].finish) == Told(FinishNames(inp, EndFrom(inp, 0)))
  {
    TailFinish(inp, EndFrom(inp, 0));
  }

  /** The answer text, or the reasoning text, carried by a list of stream events. */
  function Text(es: seq<StreamEvent>, reasoning: bool): string {
    if es == [] then ""
    else
      var e := es[|es| - 1];
      Text(es[..|es| - 1], reasoning) + if (reasoning && e.Reasoning?) || (!reasoning && e.Delta?) then e.text else ""
  }

  function ChoicesText(cs: seq<Choice>, reasoning: bool): string {
    if cs == [] then "" else ChoicesText(cs[..|cs| - 1], reasoning) + if reasoning then cs[|cs| - 1].reasoning
        else cs[|cs| - 1].content
  }

  /** The text of the chunks read on the first n turns. */
  function ReadText(inp: Input, n: nat, reasoning: bool): string
    requires GoesTo(inp, n)
  {
    if n == 0 then "" else ReadText(inp, n - 1, reasoning) + ChoicesText(ChunkAt(inp, n - 1).choices, reasoning)
  }

  lemma {:induction false} TextAppend(a: seq<StreamEvent>, b: seq<StreamEvent>, reasoning: bool)
    ensures Text(a + b, reasoning) == Text(a, reasoning) + Text(b, reasoning)
  {
    if b == [] {
      assert a + b == a;
    } else {
      assert (a + b)[..|a + b| - 1] == a + b[..|b| - 1];
      TextAppend(a, b[..|b| - 1], reasoning);
    }
  }

  lemma ChoiceText(c: Choice, reasoning: bool)
    ensures Text(ChoiceDeltas(c), reasoning) == if reasoning then c.reasoning else c.content
  {
    var a := if c.content != "" then [Delta(c.content)] else [];
    var b := if c.reasoning != "" then [Reasoning(c.reasoning)] else [];
    TextAppend(a, b, reasoning);
    assert Text(a, reasoning) == (if reasoning then "" else c.content);
    assert Text(b, reasoning) == (if reasoning then c.reasoning else "");
  }

  lemma {:induction false} ChunkText(cs: seq<Choice>, reasoning: bool)
    ensures Text(ChunkDeltas(cs), reasoning) == ChoicesText(cs, reasoning)
  {
    if cs != [] {
      var n := |cs| - 1;
      ChunkText(cs[..n], reasoning);
      TextAppend(ChunkDeltas(cs[..n]), ChoiceDeltas(cs[n]), reasoning);
      ChoiceText(cs[n], reasoning);
    }
  }

  lemma {:induction false} DeltasText(inp: Input, n: nat, reasoning: bool)
    requires GoesTo(inp, n)
    ensures Text(Deltas(inp, n), reasoning) == ReadText(inp, n, reasoning)
  {
    if n > 0 {
      DeltasText(inp, n - 1, reasoning);
      TextAppend(Deltas(inp, n - 1), ChunkDeltas(ChunkAt(inp, n - 1).choices), reasoning);
      ChunkText(ChunkAt(inp, n - 1).choices, reasoning);
    }
  }

  lemma TailText(tail: seq<StreamEvent>, reasoning: bool)
    requires |tail| <= 2 && forall e :: e in tail ==> !e.Delta? && !e.Reasoning?
    ensures Text(tail, reasoning) == ""
  {
    if tail != [] {
      assert tail[|tail| - 1] in tail;
      if |tail| == 2 {
        assert tail[..1][0] in tail && tail[..1][..0] == [];
      }
    }
  }

  /** No text is lost, invented or reordered: the answer and the reasoning of the stream are those of the
      chunks read before its end. */
  lemma TextConserved(inp: Input, reasoning: bool)
    ensures Text(Decode(inp), reasoning) == ReadText(inp, EndFrom(inp, 0), reasoning)
  {
    var n := EndFrom(inp, 0);
    TextAppend(Deltas(inp, n), Tail(inp, n), reasoning);
    DeltasText(inp, n, reasoning);
    TailText(Tail(inp, n), reasoning);
  }
}
