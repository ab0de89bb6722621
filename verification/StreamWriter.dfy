/** The streaming response: events out as server-sent events, and the settle hook called when it is over. */
module StreamWriter {
  import opened Sequences
  import opened Ledger
  import Metering
  import Sse
  import opened StreamDecoder

  /** One call of the settle hook. */
  datatype Settlement = Settlement(su: Metering.StreamUsage, status: int, errCode: string)

  /** render: the JSON of an event's chunk.  fails: whether the i-th write of the response fails. */
  datatype Sink = Sink(render: StreamEvent -> string, fails: nat -> bool)

  predicate IsChunk(e: StreamEvent) {
    e.Delta? || e.Reasoning? || e.ToolCall? || e.Done?
  }

  /** The status and code a failed stream is metered with: an upstream error keeps its own, if it is one. */
  function FailureStatus(c: Cause): (int, string) {
    if c.FromUpstream? && c.status >= 400 then (c.status, c.code) else (502, "upstream_error")
  }

  function Chunks(es: seq<StreamEvent>): seq<StreamEvent> {
    if es == [] then [] else Chunks(es[..|es| - 1]) + if IsChunk(es[|es| - 1]) then [es[|es| - 1]] else []
  }

  /** The stream ends at event i: an error, the end marker, or a chunk the client can no longer take. */
  predicate StopsAt(es: seq<StreamEvent>, sink: Sink, i: nat)
    requires i < |es|
  {
    es[i].Failed? || es[i].Done? || (IsChunk(es[i]) && sink.fails(|Chunks(es[..i])|))
  }

  /** How many events are taken from the channel, at least i. */
  function Taken(es: seq<StreamEvent>, sink: Sink, i: nat): (n: nat)
    requires i <= |es|
    ensures i <= n <= |es|
    ensures forall k :: i <= k < n - 1 ==> !StopsAt(es, sink, k)
    ensures n == |es| || (n > i && StopsAt(es, sink, n - 1))
    decreases |es| - i
  {
    if i == |es| then i else if StopsAt(es, sink, i) then i + 1 else Taken(es, sink, i + 1)
  }

  function LastReport(es: seq<StreamEvent>): Option<Metering.Usage> {
    if es == [] then None
    else if es[|es| - 1].UsageReport? then Some(es[|es| - 1].usage)
    else LastReport(es[..|es| - 1])
  }

  /** Bytes of answer and reasoning text. */
  function TextLength(es: seq<StreamEvent>): nat {
    |Text(es, false)| + |Text(es, true)|
  }

  predicate Stopped(es: seq<StreamEvent>, sink: Sink) {
    var n := Taken(es, sink, 0);
    n > 0 && StopsAt(es, sink, n - 1)
  }

  /** What a stream is metered with: 200 once its end marker is reached or the client has gone, otherwise the
      error that ended it, a channel closed without an end marker included. */
  function Metered(es: seq<StreamEvent>, sink: Sink): Settlement {
    var n := Taken(es, sink, 0);
    var su := Metering.StreamUsage(LastReport(es[..n]), TextLength(es[..n]));
    if !Stopped(es, sink) then Settlement(su, 502, "upstream_error")
    else if es[n - 1].Failed? then Settlement(su, FailureStatus(es[n - 1].cause).0, FailureStatus(es[n - 1].cause).1)
    else Settlement(su, 200, "")
  }

  function Renderings(chunks: seq<StreamEvent>, sink: Sink): seq<string> {
    seq(|chunks|, i requires 0 <= i < |chunks| => sink.render(chunks[i]))
  }

  /** The payloads written: the chunks taken, without one whose write fails, and the end marker when the
      stream was not cut short by an error or a failed write. */
  function Payloads(es: seq<StreamEvent>, sink: Sink): seq<string> {
    var n := Taken(es, sink, 0);
    if !Stopped(es, sink) then
      Renderings(Chunks(es), sink) + Marker(sink, |Chunks(es)|)
    else
      var before := Chunks(es[..n - 1]);
      if es[n - 1].Failed? || sink.fails(|before|) then Renderings(before, sink)
      else Renderings(before + [es[n - 1]], sink) + Marker(sink, |before| + 1)
  }

  /** The end marker is one more write, whose failure is ignored. */
  function Marker(sink: Sink, writes: nat): seq<string> {
    if sink.fails(writes) then [] else [DONE]
  }

  lemma ChunksSnoc(es: seq<StreamEvent>, i: nat)
    requires i < |es|
    ensures es[..i + 1][..i] == es[..i]
    ensures Chunks(es[..i + 1]) == Chunks(es[..i]) + if IsChunk(es[i]) then [es[i]] else []
    ensures LastReport(es[..i + 1]) == if es[i].UsageReport? then Some(es[i].usage) else LastReport(es[..i])
    ensures TextLength(es[..i + 1]) == TextLength(es[..i]) + if es[i].Delta? || es[i].Reasoning? then |es[i].text|
            else 0
  {
    assert es[..i + 1][..i] == es[..i];
  }

  lemma {:induction false} FramesSnoc(ps: seq<string>, p: string)
    ensures Sse.Frames(ps + [p]) == Sse.Frames(ps) + Sse.Frame(p)
  {
    if ps == [] {
      assert [] + [p] == [p] && [p][1..] == [];
      assert Sse.Frames([p]) == Sse.Frame(p) + "";
    } else {
      assert (ps + [p])[1..] == ps[1..] + [p];
      FramesSnoc(ps[1..], p);
    }
  }

  lemma MarkerFrames(ps: seq<string>, sink: Sink, writes: nat)
    ensures Sse.Frames(ps + Marker(sink, writes)) ==
            if sink.fails(writes) then Sse.Frames(ps) else Sse.Frames(ps) + Sse.Frame(DONE)
  {
    if sink.fails(writes) {
      assert ps + [] == ps;
    } else {
      FramesSnoc(ps, DONE);
    }
  }

  lemma TakenIs(es: seq<StreamEvent>, sink: Sink, n: nat)
    requires n <= |es| && (forall k :: 0 <= k < n ==> !StopsAt(es, sink, k))
    ensures if n == |es| then Taken(es, sink, 0) == n && !Stopped(es, sink)
            else StopsAt(es, sink, n) ==> Taken(es, sink, 0) == n + 1 && Stopped(es, sink)
  {
    var t := Taken(es, sink, 0);
    assert t >= n;
  }

  method WriteSSE(wire0: string, payload: string, fail: bool) returns (wire: string, ok: bool)
    ensures ok == !fail
    ensures wire == if ok then wire0 + Sse.Frame(payload) else wire0
  {
    ok := !fail;
    wire := if ok then wire0 + "data: " + payload + "\n" + "\n" else wire0;
    assert ok ==> wire0 + "data: " + payload + "\n" + "\n" == wire0 + Sse.Frame(payload);
  }

  lemma RenderingsSnoc(chunks: seq<StreamEvent>, e: StreamEvent, sink: Sink)
    ensures Renderings(chunks + [e], sink) == Renderings(chunks, sink) + [sink.render(e)]
  {
  }

  /** The accounts of a stream that ends at event i. */
  lemma EndsAt(es: seq<StreamEvent>, sink: Sink, i: nat)
    requires i < |es| && (forall k :: 0 <= k < i ==> !StopsAt(es, sink, k)) && StopsAt(es, sink, i)
    ensures Metered(es, sink).su == Metering.StreamUsage(LastReport(es[..i + 1]), TextLength(es[..i + 1]))
    ensures (Metered(es, sink).status, Metered(es, sink).errCode) ==
            if es[i].Failed? then FailureStatus(es[i].cause) else (200, "")
    ensures Payloads(es, sink) ==
            var before := Renderings(Chunks(es[..i]), sink);
            if es[i].Failed? || sink.fails(|Chunks(es[..i])|) then before
            else before + [sink.render(es[i])] + Marker(sink, |Chunks(es[..i])| + 1)
  {
    TakenIs(es, sink, i);
    RenderingsSnoc(Chunks(es[..i]), es[i], sink);
  }

  /** The accounts of a stream whose channel closes first. */
  lemma EndsClosed(es: seq<StreamEvent>, sink: Sink)
    requires forall k :: 0 <= k < |es| ==> !StopsAt(es, sink, k)
    ensures Metered(es, sink) == Settlement(Metering.StreamUsage(LastReport(es), TextLength(es)), 502, "upstream_error")
    ensures Payloads(es, sink) == Renderings(Chunks(es), sink) + Marker(sink, |Chunks(es)|)
  {
    TakenIs(es, sink, |es|);
    assert es[..|es|] == es;
  }

  /** The loop's running totals over the first i events. */
  ghost predicate Totals(es: seq<StreamEvent>, sink: Sink, i: nat, usage: Option<Metering.Usage>, chars: nat,
      writes: nat, written: seq<string>, wire: string)
    requires i <= |es|
  {
    && (forall k :: 0 <= k < i ==> !StopsAt(es, sink, k))
    && usage == LastReport(es[..i]) && chars == TextLength(es[..i]) && writes == |Chunks(es[..i])|
    && written == Renderings(Chunks(es[..i]), sink) && wire == Sse.Frames(written)
  }

  lemma ChunkTotals(es: seq<StreamEvent>, sink: Sink, i: nat, usage: Option<Metering.Usage>, chars: nat, writes: nat,
      written: seq<string>, wire: string)
    requires i < |es| && Totals(es, sink, i, usage, chars, writes, written, wire)
    requires IsChunk(es[i]) && !sink.fails(writes)
    ensures
      var chars' := chars + if es[i].Delta? || es[i].Reasoning? then |es[i].text| else 0;
      var written', wire' := written + [sink.render(es[i])], wire + Sse.Frame(sink.render(es[i]));
      && wire' == Sse.Frames(written')
      && (!es[i].Done? ==> Totals(es, sink, i + 1, usage, chars', writes + 1, written', wire'))
      && (es[i].Done? ==> Metered(es, sink) == Settlement(Metering.StreamUsage(usage, chars'), 200, "")
                          && Payloads(es, sink) == written' + Marker(sink, writes + 1))
  {
    ChunksSnoc(es, i);
    RenderingsSnoc(Chunks(es[..i]), es[i], sink);
    FramesSnoc(written, sink.render(es[i]));
    if es[i].Done? {
      EndsAt(es, sink, i);
    }
  }

  /** The event loop.  written lists the payloads that reached the wire. */
  method WriteEvents(es: seq<StreamEvent>, sink: Sink)
      returns (wire: string, last: Settlement, ghost written: seq<string>)
    ensures last == Metered(es, sink)
    ensures written == Payloads(es, sink) && wire == Sse.Frames(written)
  {
    var usage: Option<Metering.Usage>, chars: nat, writes: nat := None, 0, 0;
    wire, written := "", [];
    var i, ok := 0, true;
    while i < |es|
      invariant 0 <= i <= |es|
      invariant Totals(es, sink, i, usage, chars, writes, written, wire)
    {
      var e := es[i];
      ChunksSnoc(es, i);
      if e.UsageReport? {
        usage := Some(e.usage);
        i := i + 1;
        continue;
      }
      if e.Failed? {
        EndsAt(es, sink, i);
        var (status, code) := FailureStatus(e.cause);
        return wire, Settlement(Metering.StreamUsage(usage, chars), status, code), written;
      }
      ghost var chars0, wire0 := chars, wire;
      if e.Delta? || e.Reasoning? {
        chars := chars + |e.text|;
      }
      wire, ok := WriteSSE(wire, sink.render(e), sink.fails(writes));
      if !ok {
        EndsAt(es, sink, i);
        return wire, Settlement(Metering.StreamUsage(usage, chars), 200, ""), written;
      }
      ChunkTotals(es, sink, i, usage, chars0, writes, written, wire0);
      written := written + [sink.render(e)];
      writes := writes + 1;
      if e.Done? {
        MarkerFrames(written, sink, writes);
        written := written + Marker(sink, writes);
        wire, ok := WriteSSE(wire, DONE, sink.fails(writes));
        return wire, Settlement(Metering.StreamUsage(usage, chars), 200, ""), written;
      }
      i := i + 1;
    }
    assert es[..|es|] == es;
    EndsClosed(es, sink);
    MarkerFrames(written, sink, writes);
    written := written + Marker(sink, writes);
    wire, ok := WriteSSE(wire, DONE, sink.fails(writes));
    last := Settlement(Metering.StreamUsage(usage, chars), 502, "upstream_error");
  }

  /** A response that cannot flush is refused before the settle hook is armed; any other stream calls the
      hook once, however it ends. */
  method WriteChatStream(es: seq<StreamEvent>, sink: Sink, flusher: bool, hook: bool)
      returns (wire: string, settles: seq<Settlement>)
    ensures settles == if flusher && hook then [Metered(es, sink)] else []
    ensures flusher ==> wire == Sse.Frames(Payloads(es, sink))
  {
    settles := [];
    if !flusher {
      return "", settles;
    }
    var last;
    ghost var written;
    wire, last, written := WriteEvents(es, sink);
    if hook {
      settles := settles + [last];
    }
  }

  // ── the whole stream ───────────────────────────────────────────────────────

  const RELIABLE := (i: nat) => false

  lemma {:induction false} TextsOnly(texts: seq<StreamEvent>, es: seq<StreamEvent>, sink: Sink, n: nat)
    requires texts <= es && n <= |texts| && (forall e :: e in texts ==> IsText(e))
    requires sink.fails == RELIABLE
    ensures forall k :: 0 <= k < n ==> !StopsAt(es, sink, k)
  {
    forall k | 0 <= k < n ensures !StopsAt(es, sink, k) {
      assert es[k] == texts[k] && texts[k] in texts;
    }
  }

  /** A stream cut short: everything read is metered, with the status of the cause. */
  lemma FailedIsMetered(es: seq<StreamEvent>, texts: seq<StreamEvent>, cause: Cause, sink: Sink)
    requires sink.fails == RELIABLE && es == texts + [StreamEvent.Failed(cause)]
    requires (forall e :: e in texts ==> IsText(e))
    ensures Metered(es, sink) == Settlement(Metering.StreamUsage(None, TextLength(es)), FailureStatus(cause).0,
            FailureStatus(cause).1)
  {
    TextsOnly(texts, es, sink, |texts|);
    NoReports(texts);
    assert es[..|texts|] == texts && es[|texts|] == StreamEvent.Failed(cause) && es[..|texts| + 1] == es;
    ChunksSnoc(es, |texts|);
    EndsAt(es, sink, |texts|);
  }

  /** A completed stream: the upstream's counts are metered as a success. */
  lemma CompletedIsMetered(es: seq<StreamEvent>, texts: seq<StreamEvent>, usage: Metering.Usage, finish: Finish,
      sink: Sink)
    requires sink.fails == RELIABLE && es == texts + [UsageReport(usage), StreamEvent.Done(finish)]
    requires (forall e :: e in texts ==> IsText(e))
    ensures Metered(es, sink) == Settlement(Metering.StreamUsage(Some(usage), TextLength(es)), 200, "")
  {
    var n := |texts|;
    TextsOnly(texts, es, sink, n);
    NoReports(texts);
    assert es[..n] == texts && es[n] == UsageReport(usage) && es[n + 1] == StreamEvent.Done(finish) &&
        es[..n + 2] == es;
    ChunksSnoc(es, n);
    ChunksSnoc(es, n + 1);
    EndsAt(es, sink, n + 1);
  }

  /** With no write failing, a decoded stream is metered as a success exactly when the upstream completed it,
      and the tokens it is metered with are those of the whole stream: the upstream's final counts if it
      completed, every byte of text in any case. */
  lemma DecodedIsMetered(inp: Input, sink: Sink)
    requires sink.fails == RELIABLE
    ensures
      var s, n := Metered(Decode(inp), sink), EndFrom(inp, 0);
      && (s.status == 200 <==> VerdictAt(inp, n).Completes?)
      && (VerdictAt(inp, n).Ends? ==>
            && s.errCode == "upstream_error"
            && s.status == if VerdictAt(inp, n).cause.FromUpstream? then 500 else 502)
      && s.su.deltaChars == |ReadText(inp, n, false)| + |ReadText(inp, n, true)|
      && s.su.usage == if VerdictAt(inp, n).Completes? then Some(LastUsage(inp, n)) else None
  {
    var n := EndFrom(inp, 0);
    DeltasAreText(inp, n);
    TextConserved(inp, false);
    TextConserved(inp, true);
    if VerdictAt(inp, n).Ends? {
      FailedIsMetered(Decode(inp), Deltas(inp, n), VerdictAt(inp, n).cause, sink);
    } else {
      CompletedIsMetered(Decode(inp), Deltas(inp, n), LastUsage(inp, n), Tail(inp, n)[1].finish, sink);
    }
  }

  lemma {:induction false} TextsAreChunks(texts: seq<StreamEvent>)
    requires forall e :: e in texts ==> IsText(e)
    ensures Chunks(texts) == texts
  {
    if texts != [] {
      TextsAreChunks(texts[..|texts| - 1]);
      assert texts[|texts| - 1] in texts && texts == texts[..|texts| - 1] + [texts[|texts| - 1]];
    }
  }

  lemma FailedIsWritten(es: seq<StreamEvent>, texts: seq<StreamEvent>, cause: Cause, sink: Sink)
    requires sink.fails == RELIABLE && es == texts + [StreamEvent.Failed(cause)]
    requires (forall e :: e in texts ==> IsText(e))
    ensures Payloads(es, sink) == Renderings(texts, sink)
  {
    TextsOnly(texts, es, sink, |texts|);
    TextsAreChunks(texts);
    assert es[..|texts|] == texts && es[|texts|] == StreamEvent.Failed(cause);
    EndsAt(es, sink, |texts|);
  }

  lemma CompletedIsWritten(es: seq<StreamEvent>, texts: seq<StreamEvent>, usage: Metering.Usage, finish: Finish,
      sink: Sink)
    requires sink.fails == RELIABLE && es == texts + [UsageReport(usage), StreamEvent.Done(finish)]
    requires (forall e :: e in texts ==> IsText(e))
    ensures Payloads(es, sink) == Renderings(texts, sink) + [sink.render(StreamEvent.Done(finish))] + [DONE]
  {
    var n := |texts|;
    TextsOnly(texts, es, sink, n);
    TextsAreChunks(texts);
    assert es[..n] == texts && es[n] == UsageReport(usage) && es[n + 1] == StreamEvent.Done(finish);
    ChunksSnoc(es, n);
    EndsAt(es, sink, n + 1);
  }

  /** What the client gets of a decoded stream on a reliable connection: a chunk for every text, in order, and,
      if and only if the upstream completed it, a closing chunk and the end marker. */
  lemma DecodedIsWritten(inp: Input, sink: Sink)
    requires sink.fails == RELIABLE
    ensures
      var n := EndFrom(inp, 0);
      Payloads(Decode(inp), sink) == Renderings(Deltas(inp, n), sink) +
        if VerdictAt(inp, n).Completes? then [sink.render(Tail(inp, n)[1]), DONE] else []
  {
    var n := EndFrom(inp, 0);
    DeltasAreText(inp, n);
    if VerdictAt(inp, n).Ends? {
      FailedIsWritten(Decode(inp), Deltas(inp, n), VerdictAt(inp, n).cause, sink);
    } else {
      CompletedIsWritten(Decode(inp), Deltas(inp, n), LastUsage(inp, n), Tail(inp, n)[1].finish, sink);
    }
  }

  /** Any failure is metered as a bad gateway, except that an upstream error keeps a status that is one. */
  lemma FailureStatusIs(c: Cause)
    ensures c.FromUpstream? && c.status >= 400 ==> FailureStatus(c) == (c.status, c.code)
    ensures !c.FromUpstream? || c.status < 400 ==> FailureStatus(c) == (502, "upstream_error")
  {
  }

  lemma {:induction false} NoReports(texts: seq<StreamEvent>)
    requires forall e :: e in texts ==> IsText(e)
    ensures LastReport(texts) == None
  {
    if texts != [] {
      assert texts[|texts| - 1] in texts;
      NoReports(texts[..|texts| - 1]);
    }
  }

  /** What the client reads back: a reliable connection delivers every payload written, in order, whatever
      the events were, provided the rendered chunks are single lines that fit the reader. */
  lemma ClientReadsPayloads(es: seq<StreamEvent>, sink: Sink)
    requires forall e :: '\n' !in sink.render(e) && Sse.Fits(sink.render(e)) && !Sse.EndsInCR(sink.render(e))
    ensures Sse.Parse(Sse.Frames(Payloads(es, sink))) == Sse.Sent(Payloads(es, sink))
  {
    forall p | p in Payloads(es, sink) ensures '\n' !in p && Sse.Fits(p) && !Sse.EndsInCR(p) {
      assert p == DONE || exists e :: p == sink.render(e);
    }
    Sse.RoundTrip(Payloads(es, sink));
  }

  /** A streaming request from the upstream's bytes to the metering tasks. */
  method ServeStream(
    upstream: string, json: string -> Option<Chunk>, cancelAt: Option<nat>, sink: Sink, flusher: bool,
    hasProd: bool, user: int, price: Option<Metering.Price>, groupRate: Money, channelRate: Money,
    req: Metering.Request, requestId: string) returns (wire: string, sent: seq<Metering.Send>)
    ensures |sent| == if flusher && hasProd && requestId != "" then 2 else 0
    ensures sent != [] ==>
              var s := Metered(Decode(Input(Sse.Parse(upstream), json, cancelAt)), sink);
              var tokens := Metering.StreamTokens(s.su, req);
              var snapshot := Metering.Snapshot(price, groupRate, channelRate);
              && sent == Metering.Pair(requestId, user, tokens, snapshot, true, s.status, s.errCode)
              && (Metering.Billed(tokens) <= 0 <==>
                    Metering.Reported(s.su) && s.su.usage.value.input <= -s.su.usage.value.output)
  {
    var raw := Sse.ParseSSE(upstream);
    var es := ParseStream(Input(raw, json, cancelAt));
    var settles;
    wire, settles := WriteChatStream(es, sink, flusher, true);
    sent := [];
    if |settles| == 1 {
      var s := settles[0];
      sent := Metering.SettleStream(hasProd, user, price, groupRate, channelRate, s.su, req, requestId, s.status,
          s.errCode);
      Metering.StreamIsBilled(s.su, req);
    }
  }
}
