/**
 The write-ahead file behind the enqueuer: one JSON line per accepted task, appended when the broker
 refuses, replayed and rewritten when it answers again.  The JSON encoding is a parameter; what is
 assumed of it is that it can be decoded and never contains a line break.
 */
module Wal {
  import opened Sequences
  import opened Scanner

  /** The read buffer of the replay, 1 << 20. */
  const MAX_LINE := 1048576

  datatype Codec<!E> = Codec(encode: E -> string, decode: string -> Option<E>)

  ghost predicate Faithful<E(!new)>(c: Codec<E>) {
    forall e :: c.decode(c.encode(e)) == Some(e) && '\n' !in c.encode(e) && c.encode(e) != "" &&
        DropCR(c.encode(e)) == c.encode(e)
  }

  /** Empty and undecodable lines are skipped. */
  function Decode<E>(c: Codec<E>, lines: seq<string>): seq<E> {
    if lines == [] then []
    else
      var e := if lines[0] == "" then None else c.decode(lines[0]);
      (if e.Some? then [e.value] else []) + Decode(c, lines[1..])
  }

  function Encode<E>(c: Codec<E>, es: seq<E>): string {
    if es == [] then "" else c.encode(es[0]) + "\n" + Encode(c, es[1..])
  }

  function Entries<E>(c: Codec<E>, file: string): seq<E> {
    Decode(c, ScanLines(file, MAX_LINE).lines)
  }

  predicate Readable(file: string) {
    !ScanLines(file, MAX_LINE).tooLong
  }

  predicate Fits<E>(c: Codec<E>, e: E) {
    |c.encode(e)| < MAX_LINE
  }

  lemma {:induction false} DecodeAppend<E>(c: Codec<E>, a: seq<string>, b: seq<string>)
    ensures Decode(c, a + b) == Decode(c, a) + Decode(c, b)
  {
    if a == [] {
      assert a + b == b;
    } else {
      assert (a + b)[1..] == a[1..] + b;
      DecodeAppend(c, a[1..], b);
    }
  }

  lemma {:induction false} EncodeComplete<E>(c: Codec<E>, es: seq<E>)
    ensures Complete(Encode(c, es))
    ensures es != [] ==> Encode(c, es) != ""
  {
    if es != [] {
      EncodeComplete(c, es[1..]);
    }
  }

  /** Reading what was written gives back the entries, exactly when every line fits the read buffer;
      otherwise the file cannot be read at all. */
  lemma {:induction false} ReadUndoesWrite<E(!new)>(c: Codec<E>, es: seq<E>)
    requires Faithful(c)
    ensures Readable(Encode(c, es)) <==> forall e :: e in es ==> Fits(c, e)
    ensures Readable(Encode(c, es)) ==> Entries(c, Encode(c, es)) == es
  {
    if es != [] {
      var e := es[0];
      assert es == [e] + es[1..];
      assert c.decode(c.encode(e)) == Some(e);
      ScanFirst(c.encode(e), Encode(c, es[1..]), MAX_LINE);
      ReadUndoesWrite(c, es[1..]);
      if Fits(c, e) {
        var lines := ScanLines(Encode(c, es[1..]), MAX_LINE).lines;
        assert ([c.encode(e)] + lines)[1..] == lines;
      }
    }
  }

  /** An all-or-nothing append to a readable file adds exactly that entry at the end; an entry that does
      not fit makes the whole file unreadable. */
  lemma AppendAddsOne<E(!new)>(c: Codec<E>, file: string, e: E)
    requires Faithful(c) && Complete(file) && Readable(file)
    ensures
      var file' := file + c.encode(e) + "\n";
      && Complete(file')
      && (Readable(file') <==> Fits(c, e))
      && (Fits(c, e) ==> Entries(c, file') == Entries(c, file) + [e])
  {
    var line := c.encode(e) + "\n" + "";
    assert file + c.encode(e) + "\n" == file + line;
    assert c.decode(c.encode(e)) == Some(e);
    ScanFirst(c.encode(e), "", MAX_LINE);
    ScanJoin(file, line, MAX_LINE);
    DecodeAppend(c, ScanLines(file, MAX_LINE).lines, ScanLines(line, MAX_LINE).lines);
    if Fits(c, e) {
      assert ScanLines(line, MAX_LINE).lines == [c.encode(e)];
      assert Decode(c, [c.encode(e)]) == [e];
    }
  }

  /** The entries whose delivery had the given result, in order; ok[i] is the result of the i-th. */
  function Select<E>(es: seq<E>, ok: seq<bool>, want: bool): seq<E>
    requires |ok| >= |es|
  {
    if es == [] then []
    else
      var n := |es| - 1;
      Select(es[..n], ok, want) + if ok[n] == want then [es[n]] else []
  }

  lemma {:induction false} SelectAll<E>(es: seq<E>, ok: seq<bool>, want: bool)
    requires |ok| >= |es| && forall i :: 0 <= i < |es| ==> ok[i] == want
    ensures Select(es, ok, want) == es && Select(es, ok, !want) == []
  {
    if es != [] {
      SelectAll(es[..|es| - 1], ok, want);
      assert es == es[..|es| - 1] + [es[|es| - 1]];
    }
  }

  lemma {:induction false} SelectMembers<E>(es: seq<E>, ok: seq<bool>, want: bool)
    requires |ok| >= |es|
    ensures forall e :: e in Select(es, ok, want) ==> e in es
  {
    if es != [] {
      SelectMembers(es[..|es| - 1], ok, want);
    }
  }

  lemma SelectStep<E>(es: seq<E>, ok: seq<bool>, want: bool, i: nat)
    requires |ok| >= |es| && i < |es|
    ensures Select(es[..i + 1], ok, want) ==
            if ok[i] == want then Select(es[..i], ok, want) + [es[i]] else Select(es[..i], ok, want)
  {
    assert es[..i + 1][..i] == es[..i];
  }

  /** Every entry is either sent or kept, none twice. */
  lemma {:induction false} SelectPartitions<E>(es: seq<E>, ok: seq<bool>)
    requires |ok| >= |es|
    ensures multiset(Select(es, ok, true)) + multiset(Select(es, ok, false)) == multiset(es)
  {
    if es != [] {
      var n := |es| - 1;
      SelectPartitions(es[..n], ok);
      assert es == es[..n] + [es[n]];
      assert multiset(es) == multiset(es[..n]) + multiset{es[n]};
    }
  }

  datatype Entry<T> = Entry(task: T, delay: nat)

  /** ResilientEnqueuer with its file and, as what the broker has confirmed, the list of sends. */
  class Enqueuer<T(!new,==)> {
    const codec: Codec<Entry<T>>
    var file: string
    var replaying: bool
    var sent: seq<Entry<T>>

    ghost predicate Valid()
      reads this
    {
      Faithful(codec) && Complete(file)
    }

    constructor (codec: Codec<Entry<T>>, file: string)
      requires Faithful(codec) && Complete(file)
      ensures Valid() && this.codec == codec && this.file == file && !replaying && sent == []
    {
      this.codec := codec;
      this.file := file;
      replaying, sent := false, [];
    }

    /** The primary: ok is whether the broker confirmed. */
    method Primary(e: Entry<T>, ok: bool)
      modifies this`sent
      ensures sent == if ok then old(sent) + [e] else old(sent)
    {
      if ok {
        sent := sent + [e];
      }
    }

    method AppendWal(e: Entry<T>, diskOk: bool) returns (ok: bool)
      requires Valid()
      modifies this`file
      ensures Valid() && ok == diskOk
      ensures file == if ok then old(file) + codec.encode(e) + "\n" else old(file)
      ensures ok ==> file == FileAfter(codec, old(file), Appended(e))
      ensures ok && old(Readable(file)) && Fits(codec, e) ==>
              Readable(file) && Entries(codec, file) == old(Entries(codec, file)) + [e]
    {
      ok := diskOk;
      if ok {
        if Readable(file) {
          AppendAddsOne(codec, file, e);
        }
        file := file + (codec.encode(e) + "\n");
        assert file == old(file) + codec.encode(e) + "\n";
      }
    }

    /** True starts one replay; a second caller finds the flag set. */
    method MaybeRecover() returns (start: bool)
      modifies this`replaying
      ensures start <==> !old(replaying) && file != ""
      ensures replaying <==> old(replaying) || start
    {
      start := !replaying && file != "";
      if start {
        replaying := true;
      }
    }

    /** Success means the broker confirmed the task or the file holds it. */
    method Dispatch(task: T, delay: nat, brokerOk: bool, diskOk: bool) returns (ok: bool, start: bool)
      requires Valid()
      modifies this
      ensures Valid()
      ensures ok <==> brokerOk || diskOk
      ensures sent == if brokerOk then old(sent) + [Entry(task, delay)] else old(sent)
      ensures file == if !brokerOk && diskOk then old(file) + codec.encode(Entry(task, delay)) + "\n" else old(file)
      ensures start <==> brokerOk && !old(replaying) && old(file) != ""
      ensures replaying <==> old(replaying) || start
    {
      Primary(Entry(task, delay), brokerOk);
      if brokerOk {
        start := MaybeRecover();
        return true, start;
      }
      start := false;
      ok := AppendWal(Entry(task, delay), diskOk);
    }

    method ReadWal() returns (entries: seq<Entry<T>>, ok: bool)
      ensures ok <==> Readable(file)
      ensures entries == Entries(codec, file)
    {
      var scan := ScanLines(file, MAX_LINE);
      entries := [];
      var i := 0;
      while i < |scan.lines|
        invariant 0 <= i <= |scan.lines|
        invariant entries == Decode(codec, scan.lines[..i])
      {
        var line := scan.lines[i];
        assert scan.lines[..i + 1] == scan.lines[..i] + [line];
        DecodeAppend(codec, scan.lines[..i], [line]);
        i := i + 1;
        if line == "" {
          continue;
        }
        var e := codec.decode(line);
        if e == None {
          continue;
        }
        entries := entries + [e.value];
      }
      assert scan.lines[..i] == scan.lines;
      ok := !scan.tooLong;
    }

    /** Temporary file plus rename: the new content appears whole, or the old one stays. */
    method RewriteWal(entries: seq<Entry<T>>, renamed: bool) returns (ok: bool)
      requires Faithful(codec)
      modifies this`file
      ensures ok == renamed
      ensures file == if ok then Encode(codec, entries) else old(file)
    {
      var content := "";
      for i := 0 to |entries|
        invariant content + Encode(codec, entries[i..]) == Encode(codec, entries)
        invariant file == old(file)
      {
        content := content + (codec.encode(entries[i]) + "\n");
        assert entries[i..][1..] == entries[i + 1..];
      }
      assert content == Encode(codec, entries) + "";
      ok := renamed;
      if ok {
        file := content;
      }
    }

    /** Sends every entry once, in order, and returns the refused ones. */
    method SendAll(entries: seq<Entry<T>>, results: seq<bool>) returns (failed: seq<Entry<T>>)
      requires |results| >= |entries|
      modifies this`sent
      ensures sent == old(sent) + Select(entries, results, true)
      ensures failed == Select(entries, results, false)
    {
      failed := [];
      for i := 0 to |entries|
        invariant sent == old(sent) + Select(entries[..i], results, true)
        invariant failed == Select(entries[..i], results, false)
      {
        SelectStep(entries, results, true, i);
        SelectStep(entries, results, false, i);
        Primary(entries[i], results[i]);
        if !results[i] {
          failed := failed + [entries[i]];
        }
      }
      assert entries[..|entries|] == entries;
    }

    /** One replay.  An unreadable file is left alone and nothing is sent; otherwise every entry is sent
        once, in order, and when the rename succeeds the file is left with the refused entries, in order. */
    method Recover(results: seq<bool>, renamed: bool)
      requires Valid() && |results| >= |Entries(codec, file)|
      modifies this
      ensures Valid() && !replaying
      ensures file == FileAfter(codec, old(file), Replayed(results, renamed))
      ensures !old(Readable(file)) ==> file == old(file) && sent == old(sent)
      ensures old(Readable(file)) ==> sent == old(sent) + Select(old(Entries(codec, file)), results, true)
      ensures old(Readable(file)) ==>
              file == (if renamed then Encode(codec, Select(old(Entries(codec, file)), results, false)) else old(file))
    {
      var entries, ok := ReadWal();
      if !ok {
        replaying := false;
        return;
      }
      var failed := SendAll(entries, results);
      EncodeComplete(codec, failed);
      var _ := RewriteWal(failed, renamed);
      replaying := false;
    }
  }

  /** Reading back after a replay: exactly the entries the broker refused, in their order; so the file is
      empty when it refused none.  Lines that could not be decoded are gone. */
  lemma ReplayLeavesRefused<E(!new)>(c: Codec<E>, file: string, results: seq<bool>)
    requires Faithful(c) && Readable(file) && |results| >= |Entries(c, file)|
    requires forall e :: e in Entries(c, file) ==> Fits(c, e)
    ensures
      var file' := Encode(c, Select(Entries(c, file), results, false));
      && Readable(file') && Entries(c, file') == Select(Entries(c, file), results, false)
      && (file' == "" <==> forall i :: 0 <= i < |Entries(c, file)| ==> results[i])
      && (forall line :: line in ScanLines(file', MAX_LINE).lines ==>
          exists e :: e in Entries(c, file) && line == c.encode(e))
  {
    var es := Entries(c, file);
    var refused := Select(es, results, false);
    SelectMembers(es, results, false);
    ReadUndoesWrite(c, refused);
    EncodeComplete(c, refused);
    if forall i :: 0 <= i < |es| ==> results[i] {
      SelectAll(es, results, true);
    } else {
      var i :| 0 <= i < |es| && !results[i];
      SelectNonEmpty(es, results, i);
    }
    EncodedLines(c, refused);
  }

  lemma {:induction false} SelectNonEmpty<E>(es: seq<E>, ok: seq<bool>, i: nat)
    requires |ok| >= |es| && i < |es| && !ok[i]
    ensures Select(es, ok, false) != []
  {
    if i < |es| - 1 {
      SelectNonEmpty(es[..|es| - 1], ok, i);
    }
  }

  lemma {:induction false} EncodedLines<E(!new)>(c: Codec<E>, es: seq<E>)
    requires Faithful(c)
    ensures forall line :: line in ScanLines(Encode(c, es), MAX_LINE).lines ==>
            exists e :: e in es && line == c.encode(e)
  {
    if es != [] {
      var e := es[0];
      assert c.decode(c.encode(e)) == Some(e);
      ScanFirst(c.encode(e), Encode(c, es[1..]), MAX_LINE);
      EncodedLines(c, es[1..]);
      forall line | line in ScanLines(Encode(c, es), MAX_LINE).lines
          ensures exists d :: d in es && line == c.encode(d) {
        if line == c.encode(e) {
          assert e in es;
        } else {
          var d :| d in es[1..] && line == c.encode(d);
          assert d in es;
        }
      }
    }
  }

  /** What may happen to the file: an append that reached the disk, or a replay. */
  datatype FileOp<E> = Appended(entry: E) | Replayed(results: seq<bool>, renamed: bool)

  /** The file after one of them, as AppendWal and Recover leave it. */
  function FileAfter<E>(c: Codec<E>, file: string, op: FileOp<E>): string {
    match op
    case Appended(e) => file + c.encode(e) + "\n"
    case Replayed(results, renamed) =>
      if Readable(file) && renamed && |results| >= |Entries(c, file)|
          then Encode(c, Select(Entries(c, file), results, false)) else file
  }

  function FileAfterAll<E>(c: Codec<E>, file: string, ops: seq<FileOp<E>>): string
    decreases |ops|
  {
    if ops == [] then file else FileAfterAll(c, FileAfter(c, file, ops[0]), ops[1..])
  }

  /** An unreadable file stays unreadable, and keeps all its content, through any appends and replays. */
  lemma {:induction false} UnreadableForever<E>(c: Codec<E>, file: string, ops: seq<FileOp<E>>)
    requires !Readable(file)
    ensures !Readable(FileAfterAll(c, file, ops)) && file <= FileAfterAll(c, file, ops)
    decreases |ops|
  {
    if ops != [] {
      if ops[0].Appended? {
        TooLongStays(file, c.encode(ops[0].entry) + "\n", MAX_LINE);
        assert file + c.encode(ops[0].entry) + "\n" == file + (c.encode(ops[0].entry) + "\n");
      }
      UnreadableForever(c, FileAfter(c, file, ops[0]), ops[1..]);
    }
  }
}
