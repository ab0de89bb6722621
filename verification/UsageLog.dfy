/**
 The usage rows of one request.  The table has no unique key, so only the expiring L2 record keeps a second
 delivery from inserting again; deliveries may overlap, stop between any two steps, and come back days later.
 */
module UsageLog {
  import opened Sequences
  import opened Ledger
  import opened Billing
  import Delivery
  import Engine

  const TTL := Delivery.IDEM_TTL

  /** A delivery that L2 did not answer: before and after its insert. */
  datatype Phase = Missed | Inserted

  /** expiry: that of the request's L2 record.  started: every delivery so far. */
  datatype State = State(rows: nat, expiry: Option<int>, now: int, workers: map<nat, Phase>, started: set<nat>)

  function Start(now: int): State {
    State(0, None, now, map[], {})
  }

  /** Deliveries are numbered; each looks into L2 once, and may go on to insert and to record. */
  datatype Event = Look(k: nat) | Insert(k: nat) | Record(k: nat) | Stop(k: nat) | Tick(seconds: nat) | Cleanup

  predicate Live(s: State) {
    s.expiry.Some? && s.expiry.value > s.now
  }

  predicate Enabled(s: State, e: Event) {
    match e
    case Look(k) => k !in s.started
    case Insert(k) => k in s.workers && s.workers[k] == Missed
    case Record(k) => k in s.workers && s.workers[k] == Inserted
    case Stop(k) => k in s.workers
    case _ => true
  }

  function Next(s: State, e: Event): State
    requires Enabled(s, e)
  {
    match e
    case Look(k) => s.(started := s.started + {k}, workers := if Live(s) then s.workers else s.workers[k := Missed])
    case Insert(k) => s.(rows := s.rows + 1, workers := s.workers[k := Inserted])
    case Record(k) => s.(expiry := Some(s.now + TTL), workers := s.workers - {k})
    case Stop(k) => s.(workers := s.workers - {k})
    case Tick(n) => s.(now := s.now + n)
    case Cleanup => s.(expiry := if Live(s) then s.expiry else None)
  }

  predicate Legal(s: State, es: seq<Event>)
    decreases |es|, 0
  {
    es == [] || (Legal(s, es[..|es| - 1]) && Enabled(Run(s, es[..|es| - 1]), es[|es| - 1]))
  }

  function Run(s: State, es: seq<Event>): State
    requires Legal(s, es)
    decreases |es|, 1
  {
    if es == [] then s else Next(Run(s, es[..|es| - 1]), es[|es| - 1])
  }

  // ── when L2 answers ────────────────────────────────────────────────────────

  /** Seconds since the last record. */
  function Age(es: seq<Event>): Option<nat> {
    if es == [] then None
    else
      var before := Age(es[..|es| - 1]);
      match es[|es| - 1]
      case Record(_) => Some(0)
      case Tick(n) => if before == None then None else Some(before.value + n)
      case _ => before
  }

  /** The events so far contain a record less than 24 hours old. */
  predicate Covered(es: seq<Event>) {
    Age(es).Some? && Age(es).value < TTL
  }

  /** L2 answers exactly within 24 hours of a record, cleaned up in between or not. */
  lemma {:induction false} AnswersIff(now: int, es: seq<Event>)
    requires Legal(Start(now), es)
    ensures Live(Run(Start(now), es)) <==> Covered(es)
    ensures var s := Run(Start(now), es); s.expiry.Some? ==>
            Age(es).Some? && s.expiry.value == s.now + TTL - Age(es).value
  {
    if es != [] {
      AnswersIff(now, es[..|es| - 1]);
    }
  }

  // ── which deliveries leave a row ───────────────────────────────────────────

  /** Event i is the look of a delivery that finds no live record and gets as far as its insert. */
  predicate Leaves(es: seq<Event>, i: int) {
    0 <= i < |es| && es[i].Look? && !Covered(es[..i]) && Insert(es[i].k) in es
  }

  function Leaving(es: seq<Event>): set<int> {
    set i | 0 <= i < |es| && Leaves(es, i)
  }

  /** Each delivery looks once, and inserts at most once. */
  ghost predicate Numbered(s: State, es: seq<Event>) {
    && (forall i :: 0 <= i < |es| && es[i].Look? ==> es[i].k in s.started)
    && (forall k :: Insert(k) in es ==> k in s.started && (k in s.workers ==> s.workers[k] == Inserted))
    && (forall k :: k in s.workers ==> k in s.started)
  }

  ghost predicate LooksDiffer(es: seq<Event>) {
    forall i, j :: 0 <= i < j < |es| && es[i].Look? && es[j].Look? ==> es[i].k != es[j].k
  }

  /** The look of a delivery that L2 did not answer. */
  ghost predicate Missing(es: seq<Event>, k: nat) {
    exists i :: 0 <= i < |es| && es[i] == Look(k) && !Covered(es[..i])
  }

  ghost predicate Tracked(s: State, es: seq<Event>) {
    Numbered(s, es) && LooksDiffer(es) && forall k :: k in s.workers && s.workers[k] == Missed ==> Missing(es, k)
  }

  /** What one more event does to the look at i. */
  lemma LeavesSnoc(es: seq<Event>, e: Event, i: int)
    requires e.Look? ==> Insert(e.k) !in es
    ensures Leaves(es + [e], i) <==>
            Leaves(es, i) || (e.Insert? && 0 <= i < |es| && es[i] == Look(e.k) && !Covered(es[..i]))
  {
    assert forall x :: x in es + [e] <==> x in es || x == e;
    if 0 <= i < |es| {
      assert (es + [e])[..i] == es[..i] && (es + [e])[i] == es[i];
    }
  }

  lemma NumberStep(s: State, es: seq<Event>, e: Event)
    requires Numbered(s, es) && LooksDiffer(es) && Enabled(s, e)
    ensures Numbered(Next(s, e), es + [e]) && LooksDiffer(es + [e])
  {
    assert forall x :: x in es + [e] <==> x in es || x == e;
  }

  lemma MissingStep(es: seq<Event>, e: Event, k: nat)
    requires Missing(es, k) || (e == Look(k) && !Covered(es))
    ensures Missing(es + [e], k)
  {
    if Missing(es, k) {
      var i :| 0 <= i < |es| && es[i] == Look(k) && !Covered(es[..i]);
      assert (es + [e])[..i] == es[..i] && (es + [e])[i] == Look(k);
    } else {
      assert (es + [e])[..|es|] == es && (es + [e])[|es|] == Look(k);
    }
  }

  lemma TrackStep(now: int, es: seq<Event>, e: Event)
    requires Legal(Start(now), es) && Tracked(Run(Start(now), es), es) && Enabled(Run(Start(now), es), e)
    ensures Tracked(Next(Run(Start(now), es), e), es + [e])
  {
    var s' := Next(Run(Start(now), es), e);
    AnswersIff(now, es);
    NumberStep(Run(Start(now), es), es, e);
    forall k | k in s'.workers && s'.workers[k] == Missed ensures Missing(es + [e], k) {
      MissingStep(es, e, k);
    }
  }

  lemma {:induction false} RunTracked(now: int, es: seq<Event>)
    requires Legal(Start(now), es)
    ensures Tracked(Run(Start(now), es), es)
  {
    if es != [] {
      var n := |es| - 1;
      RunTracked(now, es[..n]);
      TrackStep(now, es[..n], es[n]);
      assert es == es[..n] + [es[n]];
    }
  }

  lemma InsertLeaves(now: int, es: seq<Event>, k: nat)
    requires Legal(Start(now), es) && Tracked(Run(Start(now), es), es) && Enabled(Run(Start(now), es), Insert(k))
    ensures exists i :: i !in Leaving(es) && Leaving(es + [Insert(k)]) == Leaving(es) + {i}
  {
    assert Missing(es, k);
    var i :| 0 <= i < |es| && es[i] == Look(k) && !Covered(es[..i]);
    assert Insert(k) !in es;
    forall j ensures j in Leaving(es + [Insert(k)]) <==> j in Leaving(es) || j == i {
      LeavesSnoc(es, Insert(k), j);
    }
    assert Leaving(es + [Insert(k)]) == Leaving(es) + {i};
  }

  lemma OthersLeave(es: seq<Event>, e: Event)
    requires !e.Insert? && (e.Look? ==> Insert(e.k) !in es)
    ensures Leaving(es + [e]) == Leaving(es)
  {
    forall j ensures j in Leaving(es + [e]) <==> j in Leaving(es) {
      LeavesSnoc(es, e, j);
    }
  }

  /** An insert adds exactly its own look to those that left a row; nothing else adds any. */
  lemma LeavingStep(now: int, es: seq<Event>, e: Event)
    requires Legal(Start(now), es) && Enabled(Run(Start(now), es), e)
    ensures |Leaving(es + [e])| == |Leaving(es)| + if e.Insert? then 1 else 0
  {
    RunTracked(now, es);
    if e.Insert? {
      InsertLeaves(now, es, e.k);
    } else {
      OthersLeave(es, e);
    }
  }

  /** However deliveries overlap, stop, repeat and outlive the record: the request has one row for each
      delivery that looks with no record less than 24 hours old and gets as far as its insert. */
  lemma {:induction false} UsageRows(now: int, es: seq<Event>)
    requires Legal(Start(now), es)
    ensures Run(Start(now), es).rows == |Leaving(es)|
  {
    if es != [] {
      var n := |es| - 1;
      UsageRows(now, es[..n]);
      LeavingStep(now, es[..n], es[n]);
      assert es == es[..n] + [es[n]];
    }
  }

  lemma OneElement(s: set<int>, x: int)
    requires x in s
    ensures |s| == 1 <==> forall y :: y in s ==> y == x
  {
    if forall y :: y in s ==> y == x {
      assert s == {x};
    }
    assert |s - {x}| == |s| - 1;
    assert |s| == 1 ==> s - {x} == {};
    forall y | y in s && y != x ensures y in s - {x} {
    }
  }

  /** One row per request exactly when every look besides that of the delivery that inserted falls within 24
      hours of a record, or belongs to a delivery that stops before its insert. */
  lemma UsageOnceIff(now: int, es: seq<Event>, first: nat)
    requires Legal(Start(now), es) && Leaves(es, first)
    ensures Run(Start(now), es).rows == 1 <==>
            forall i :: 0 <= i < |es| && es[i].Look? && i != first ==> Covered(es[..i]) || Insert(es[i].k) !in es
  {
    UsageRows(now, es);
    OneElement(Leaving(es), first);
    if forall y :: y in Leaving(es) ==> y == first {
      forall i | 0 <= i < |es| && es[i].Look? && i != first ensures Covered(es[..i]) || Insert(es[i].k) !in es {
        assert i !in Leaving(es);
      }
    }
  }

  /** When no delivery stops between its look and its insert: one row exactly when no look but the first
      precedes the first record, and every later one falls within 24 hours of a record. */
  lemma UsageOnceUninterrupted(now: int, es: seq<Event>, first: nat)
    requires Legal(Start(now), es) && first < |es| && es[first].Look?
    requires forall i :: 0 <= i < first ==> !es[i].Look?
    requires forall i :: 0 <= i < |es| && es[i].Look? && !Covered(es[..i]) ==> Insert(es[i].k) in es
    ensures Run(Start(now), es).rows == 1 <==> forall i :: first < i < |es| && es[i].Look? ==> Covered(es[..i])
  {
    NoRecordBeforeLook(now, es, first);
    UsageOnceIff(now, es, first);
  }

  lemma {:induction false} NoRecordBeforeLook(now: int, es: seq<Event>, n: nat)
    requires Legal(Start(now), es) && n <= |es| && forall i :: 0 <= i < n ==> !es[i].Look?
    ensures Age(es[..n]) == None
    ensures Legal(Start(now), es[..n]) && Run(Start(now), es[..n]).workers == map[]
  {
    if n < |es| {
      assert es[..|es| - 1][..n] == es[..n];
      NoRecordBeforeLook(now, es[..|es| - 1], n);
    } else {
      assert es[..n] == es;
      if n > 0 {
        NoRecordBeforeLook(now, es[..n - 1], n - 1);
        assert es[..n - 1][..n - 1] == es[..n - 1];
      }
    }
  }

  // ── the two ways to a second row ───────────────────────────────────────────

  lemma RunSnoc(s: State, es: seq<Event>, e: Event)
    requires Legal(s, es) && Enabled(Run(s, es), e)
    ensures Legal(s, es + [e]) && Run(s, es + [e]) == Next(Run(s, es), e)
  {
    assert (es + [e])[..|es|] == es;
  }

  /** A complete delivery, a day, and the same task again: two rows, though no delivery was cut off. */
  lemma ExpiryDoubles(now: int, n: nat) returns (es: seq<Event>)
    ensures es == [Look(0), Insert(0), Record(0), Tick(n), Look(1)] + if n < TTL then [] else [Insert(1), Record(1)]
    ensures Legal(Start(now), es) && Run(Start(now), es).rows == if n < TTL then 1 else 2
  {
    var s := Start(now);
    RunSnoc(s, [], Look(0));
    RunSnoc(s, [] + [Look(0)], Insert(0));
    RunSnoc(s, [] + [Look(0)] + [Insert(0)], Record(0));
    RunSnoc(s, [] + [Look(0)] + [Insert(0)] + [Record(0)], Tick(n));
    es := [] + [Look(0)] + [Insert(0)] + [Record(0)] + [Tick(n)];
    RunSnoc(s, es, Look(1));
    es := es + [Look(1)];
    if n >= TTL {
      RunSnoc(s, es, Insert(1));
      RunSnoc(s, es + [Insert(1)], Record(1));
      es := es + [Insert(1)] + [Record(1)];
    }
  }

  /** Two deliveries that both look before either records: two rows. */
  lemma OverlapDoubles(now: int) returns (es: seq<Event>)
    ensures es == [Look(0), Look(1), Insert(0), Record(0), Insert(1), Record(1)]
    ensures Legal(Start(now), es) && Run(Start(now), es).rows == 2
  {
    var s := Start(now);
    es := [];
    RunSnoc(s, es, Look(0));
    RunSnoc(s, es + [Look(0)], Look(1));
    RunSnoc(s, es + [Look(0)] + [Look(1)], Insert(0));
    es := es + [Look(0)] + [Look(1)] + [Insert(0)];
    RunSnoc(s, es, Record(0));
    RunSnoc(s, es + [Record(0)], Insert(1));
    RunSnoc(s, es + [Record(0)] + [Insert(1)], Record(1));
    es := es + [Record(0)] + [Insert(1)] + [Record(1)];
  }

  // ── the handler ────────────────────────────────────────────────────────────

  /** One call of the handler with nothing in between is a run of these events, stopped where it is stopped. */
  lemma HandlerIsARun(s: State, k: nat, p: UsagePayload, fault: Delivery.Fault) returns (es: seq<Event>)
    requires k !in s.started && k !in s.workers
    requires p.requestId != "" && p.user > 0 && |p.requestId| <= MAX_REQUEST_ID
    ensures Legal(s, es)
    ensures
      var (u, _) := Engine.WriteUsage(Engine.Usage([], Live(s)), p, fault);
      Run(s, es).rows == s.rows + |u.rows| && (Live(Run(s, es)) <==> u.recorded)
  {
    es := [];
    if fault != Delivery.BeforeCommit {
      RunSnoc(s, es, Look(k));
      es := es + [Look(k)];
      if !Live(s) {
        RunSnoc(s, es, Insert(k));
        es := es + [Insert(k)];
        if fault != Delivery.AfterCommit {
          RunSnoc(s, es, Record(k));
          es := es + [Record(k)];
        }
      }
    }
  }
}
