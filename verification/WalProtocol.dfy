/**
 The enqueuer under concurrency and crashes.  Clients dispatch at the same time, replays run in their own
 goroutine, r.mu is held by one replay from its read to its rewrite, and the process may die between any
 two steps; the file and the broker survive.
 */
module WalProtocol {
  import opened Sequences
  import opened Wal

  /** Where a dispatch is: offering to the broker, confirmed and about to look for a replay, or refused. */
  datatype Client<T> = Offering(task: T) | Confirmed | Refused(task: T)

  datatype Replay<T> = Spawned | Running(entries: seq<T>, next: nat, failed: seq<T>)

  /** accepted: tasks whose dispatch can only return nil, once per dispatch.
      primary: everything the broker ever received, whether or not the sender learnt of it. */
  datatype State<T> = State(
    wal: seq<T>,
    replaying: bool,
    holder: Option<nat>,
    clients: map<nat, Client<T>>,
    replays: map<nat, Replay<T>>,
    accepted: multiset<T>,
    primary: multiset<T>)

  function Init<T>(wal: seq<T>): State<T> {
    State(wal, false, None, map[], map[], multiset{}, multiset{})
  }

  datatype Step<T> =
    | Start(c: nat, task: T)
    | BrokerOk(c: nat)
    | BrokerFail(c: nat, reached: bool)
    | Append(c: nat)
    | AppendFail(c: nat, written: bool)
    | MaybeRecover(c: nat, r: nat)
    | Lock(r: nat, readable: bool)
    | Send(r: nat, ok: bool, reached: bool)
    | Finish(r: nat, renamed: bool)
    | Crash

  predicate Enabled<T>(s: State<T>, st: Step<T>) {
    match st
    case Start(c, _) => c !in s.clients
    case BrokerOk(c) => c in s.clients && s.clients[c].Offering?
    case BrokerFail(c, _) => c in s.clients && s.clients[c].Offering?
    case Append(c) => c in s.clients && s.clients[c].Refused? && s.holder == None
    case AppendFail(c, _) => c in s.clients && s.clients[c].Refused? && s.holder == None
    case MaybeRecover(c, r) => c in s.clients && s.clients[c].Confirmed? && s.holder == None && r !in s.replays
    case Lock(r, _) => r in s.replays && s.replays[r].Spawned? && s.holder == None
    case Send(r, _, _) => r in s.replays && s.replays[r].Running? && s.replays[r].next < |s.replays[r].entries|
    case Finish(r, _) => r in s.replays && s.replays[r].Running? && s.replays[r].next == |s.replays[r].entries|
    case Crash => true
  }

  /** What the step puts into the broker: nothing or one task. */
  function Publishes<T>(s: State<T>, st: Step<T>): seq<T>
    requires Enabled(s, st)
  {
    match st
    case BrokerOk(c) => [s.clients[c].task]
    case BrokerFail(c, reached) => if reached then [s.clients[c].task] else []
    case Send(r, ok, reached) => if ok || reached then [s.replays[r].entries[s.replays[r].next]] else []
    case _ => []
  }

  function Next<T(==)>(s: State<T>, st: Step<T>): State<T>
    requires Enabled(s, st)
  {
    var p := s.primary + multiset(Publishes(s, st));
    match st
    case Start(c, t) => s.(clients := s.clients[c := Offering(t)])
    case BrokerOk(c) => s.(clients := s.clients[c := Confirmed], primary := p,
        accepted := s.accepted + multiset{s.clients[c].task})
    case BrokerFail(c, _) => s.(clients := s.clients[c := Refused(s.clients[c].task)], primary := p)
    case Append(c) =>
      s.(clients := s.clients - {c}, wal := s.wal + [s.clients[c].task],
          accepted := s.accepted + multiset{s.clients[c].task})
    case AppendFail(c, written) =>
      s.(clients := s.clients - {c}, wal := if written then s.wal + [s.clients[c].task] else s.wal)
    case MaybeRecover(c, r) =>
      var s1 := s.(clients := s.clients - {c});
      if !s.replaying && s.wal != [] then s1.(replaying := true, replays := s.replays[r := Spawned]) else s1
    case Lock(r, readable) =>
      if readable then s.(holder := Some(r), replays := s.replays[r := Running(s.wal, 0, [])])
      else s.(replays := s.replays - {r}, replaying := false)
    case Send(r, ok, _) =>
      var x := s.replays[r];
      s.(primary := p, replays := s.replays[r := Running(x.entries, x.next + 1, if ok then x.failed
          else x.failed + [x.entries[x.next]])])
    case Finish(r, renamed) =>
      s.(wal := if renamed then s.replays[r].failed
          else s.wal, replays := s.replays - {r}, replaying := false, holder := None)
    case Crash => s.(clients := map[], replays := map[], replaying := false, holder := None)
  }

  /** What the running replay has already sent successfully, and what it will write back. */
  ghost predicate ReplayBooked<T>(s: State<T>, r: nat)
    requires r in s.replays
  {
    match s.replays[r]
    case Spawned => s.holder == None
    case Running(entries, next, failed) =>
      && s.holder == Some(r)
      && entries == s.wal && next <= |entries|
      && multiset(failed) <= multiset(entries[..next])
      && s.accepted + (multiset(entries[..next]) - multiset(failed)) <= s.primary + multiset(s.wal)
  }

  ghost predicate Inv<T>(s: State<T>) {
    && (forall a, b :: a in s.replays && b in s.replays ==> a == b)
    && (s.replaying <==> exists r :: r in s.replays)
    && (forall r :: r in s.replays ==> ReplayBooked(s, r))
    && (s.holder.Some? ==> s.holder.value in s.replays && s.replays[s.holder.value].Running?)
    && s.accepted <= s.primary + multiset(s.wal)
  }

  /** The account of one more send: e is sent, or joins what will be written back. */
  lemma SendBooks<T>(accepted: multiset<T>, m: multiset<T>, failed: multiset<T>, p: multiset<T>, w: multiset<T>, e: T)
    requires failed <= m && accepted + (m - failed) <= p + w
    ensures failed <= m + multiset{e} && accepted + (m + multiset{e} - failed) <= p + multiset{e} + w
    ensures failed + multiset{e} <= m + multiset{e}
    ensures m + multiset{e} - (failed + multiset{e}) == m - failed
  {
    assert m + multiset{e} - failed == (m - failed) + multiset{e};
    assert accepted + ((m - failed) + multiset{e}) == accepted + (m - failed) + multiset{e};
    assert p + multiset{e} + w == p + w + multiset{e};
  }

  lemma SendKeeps<T>(s: State<T>, r: nat, ok: bool, reached: bool)
    requires Inv(s) && Enabled(s, Send(r, ok, reached))
    ensures Inv(Next(s, Send(r, ok, reached)))
  {
    var x := s.replays[r];
    var e := x.entries[x.next];
    assert ReplayBooked(s, r);
    assert x.entries[..x.next + 1] == x.entries[..x.next] + [e];
    var m, failed := multiset(x.entries[..x.next]), multiset(x.failed);
    SendBooks(s.accepted, m, failed, s.primary, multiset(s.wal), e);
    var s' := Next(s, Send(r, ok, reached));
    assert multiset(x.entries[..x.next + 1]) == m + multiset{e};
    assert s.primary <= s'.primary;
    if ok {
      assert s'.primary == s.primary + multiset{e};
    } else {
      assert multiset(x.failed + [e]) == failed + multiset{e};
    }
    assert r in s'.replays;
    assert ReplayBooked(s', r);
  }

  lemma FinishKeeps<T>(s: State<T>, r: nat, renamed: bool)
    requires Inv(s) && Enabled(s, Finish(r, renamed))
    ensures Inv(Next(s, Finish(r, renamed)))
  {
    var x := s.replays[r];
    assert x.entries[..x.next] == s.wal;
    assert s.accepted + (multiset(s.wal) - multiset(x.failed)) <= s.primary + multiset(s.wal);
  }

  lemma AppendKeeps<T>(s: State<T>, st: Step<T>)
    requires Inv(s) && Enabled(s, st) && (st.Append? || st.AppendFail?)
    ensures Inv(Next(s, st))
  {
    var t := s.clients[st.c].task;
    assert multiset(s.wal + [t]) == multiset(s.wal) + multiset{t};
  }

  lemma LockKeeps<T>(s: State<T>, r: nat, readable: bool)
    requires Inv(s) && Enabled(s, Lock(r, readable))
    ensures Inv(Next(s, Lock(r, readable)))
  {
    var s' := Next(s, Lock(r, readable));
    if readable {
      assert s.wal[..0] == [];
      assert r in s'.replays && ReplayBooked(s', r);
    } else {
      assert s'.replays.Keys == {};
    }
  }

  lemma MaybeRecoverKeeps<T>(s: State<T>, c: nat, r: nat)
    requires Inv(s) && Enabled(s, MaybeRecover(c, r))
    ensures Inv(Next(s, MaybeRecover(c, r)))
  {
    var s' := Next(s, MaybeRecover(c, r));
    if !s.replaying && s.wal != [] {
      assert r in s'.replays && ReplayBooked(s', r);
    } else {
      assert s'.replays == s.replays;
      assert forall x :: x in s.replays ==> ReplayBooked(s', x);
    }
  }

  lemma BrokerKeeps<T>(s: State<T>, st: Step<T>)
    requires Inv(s) && Enabled(s, st) && (st.Start? || st.BrokerOk? || st.BrokerFail?)
    ensures Inv(Next(s, st))
  {
    var s' := Next(s, st);
    forall r | r in s'.replays ensures ReplayBooked(s', r) {
      assert ReplayBooked(s, r);
    }
  }

  lemma NextKeeps<T>(s: State<T>, st: Step<T>)
    requires Inv(s) && Enabled(s, st)
    ensures Inv(Next(s, st))
  {
    match st
    case Send(r, ok, reached) => SendKeeps(s, r, ok, reached);
    case Finish(r, renamed) => FinishKeeps(s, r, renamed);
    case Lock(r, readable) => LockKeeps(s, r, readable);
    case MaybeRecover(c, r) => MaybeRecoverKeeps(s, c, r);
    case Crash =>
    case _ =>
      if st.Append? || st.AppendFail? {
        AppendKeeps(s, st);
      } else {
        BrokerKeeps(s, st);
      }
  }

  ghost predicate Run<T>(s: State<T>, steps: seq<Step<T>>, s': State<T>)
    decreases |steps|
  {
    if steps == [] then s == s'
    else Enabled(s, steps[0]) && Run(Next(s, steps[0]), steps[1..], s')
  }

  lemma {:induction false} RunKeeps<T>(s: State<T>, steps: seq<Step<T>>, s': State<T>)
    requires Inv(s) && Run(s, steps, s')
    ensures Inv(s')
    decreases |steps|
  {
    if steps != [] {
      NextKeeps(s, steps[0]);
      RunKeeps(Next(s, steps[0]), steps[1..], s');
    }
  }

  /** Under any interleaving, with a crash at any step: every accepted task, counted once per accepted
      dispatch, has reached the broker or is still in the file, and at most one replay is alive. */
  lemma NothingAcceptedIsLost<T>(wal: seq<T>, steps: seq<Step<T>>, s: State<T>)
    requires Run(Init(wal), steps, s)
    ensures s.accepted <= s.primary + multiset(s.wal)
    ensures forall a, b :: a in s.replays && b in s.replays ==> a == b
    ensures s.wal == [] ==> s.accepted <= s.primary
  {
    RunKeeps(Init(wal), steps, s);
  }

  /** The sends of a replay that nothing interrupts. */
  function Sends<T>(r: nat, results: seq<bool>, n: nat): seq<Step<T>>
    requires n <= |results|
  {
    seq(n, i requires 0 <= i < n => Send(r, results[i], false))
  }

  lemma {:induction false} RunAppend<T>(s: State<T>, a: seq<Step<T>>, m: State<T>, b: seq<Step<T>>, s': State<T>)
    requires Run(s, a, m) && Run(m, b, s')
    ensures Run(s, a + b, s')
    decreases |a|
  {
    if a == [] {
      assert a + b == b;
    } else {
      assert (a + b)[1..] == a[1..] + b;
      RunAppend(Next(s, a[0]), a[1..], m, b, s');
    }
  }

  lemma OneStep<T>(s: State<T>, st: Step<T>)
    requires Enabled(s, st)
    ensures Run(s, [st], Next(s, st))
  {
  }

  lemma SendsSnoc<T>(r: nat, results: seq<bool>, n: nat)
    requires 0 < n <= |results|
    ensures Sends<T>(r, results, n) == Sends(r, results, n - 1) + [Send(r, results[n - 1], false)]
  {
  }

  ghost predicate SentSoFar<T>(s: State<T>, r: nat, results: seq<bool>, n: nat, m: State<T>)
    requires |results| >= |s.wal| && n <= |s.wal|
  {
    && r in m.replays && m.replays[r] == Running(s.wal, n, Select(s.wal[..n], results, false))
    && m.wal == s.wal && m.primary == s.primary + multiset(Select(s.wal[..n], results, true))
  }

  lemma SendOne<T>(s: State<T>, r: nat, results: seq<bool>, n: nat, m: State<T>)
    requires |results| >= |s.wal| && n < |s.wal| && SentSoFar(s, r, results, n, m)
    ensures Enabled(m, Send(r, results[n], false))
    ensures SentSoFar(s, r, results, n + 1, Next(m, Send(r, results[n], false)))
  {
    assert s.wal[..n + 1][..n] == s.wal[..n];
    var sent := Select(s.wal[..n], results, true);
    assert multiset(sent + [s.wal[n]]) == multiset(sent) + multiset{s.wal[n]};
  }

  lemma {:induction false} SendsRun<T>(s: State<T>, r: nat, results: seq<bool>, n: nat) returns (m: State<T>)
    requires r in s.replays && s.replays[r] == Running(s.wal, 0, []) && |results| >= |s.wal| && n <= |s.wal|
    ensures Run(s, Sends(r, results, n), m)
    ensures SentSoFar(s, r, results, n, m)
  {
    if n == 0 {
      m := s;
      assert s.wal[..0] == [];
    } else {
      var k := SendsRun(s, r, results, n - 1);
      SendOne(s, r, results, n - 1, k);
      m := Next(k, Send(r, results[n - 1], false));
      OneStep(k, Send(r, results[n - 1], false));
      SendsSnoc<T>(r, results, n);
      RunAppend(s, Sends(r, results, n - 1), k, [Send(r, results[n - 1], false)], m);
    }
  }

  /** The step machine and the enqueuer's Recover agree: an uninterrupted replay sends the confirmed
      entries and leaves the refused ones, in order. */
  lemma UninterruptedReplay<T>(s: State<T>, r: nat, results: seq<bool>) returns (s': State<T>)
    requires Enabled(s, Lock(r, true)) && |results| >= |s.wal|
    ensures Run(s, [Lock(r, true)] + Sends(r, results, |s.wal|) + [Finish(r, true)], s')
    ensures s'.wal == Select(s.wal, results, false)
    ensures s'.primary == s.primary + multiset(Select(s.wal, results, true))
  {
    var lock: Step<T>, finish: Step<T> := Lock(r, true), Finish(r, true);
    var a := Next(s, lock);
    var b := SendsRun(a, r, results, |s.wal|);
    assert s.wal[..|s.wal|] == s.wal;
    s' := Next(b, finish);
    OneStep(b, finish);
    OneStep(s, lock);
    RunAppend(s, [lock], a, Sends(r, results, |s.wal|), b);
    RunAppend(s, [lock] + Sends(r, results, |s.wal|), b, [finish], s');
  }

  /** What a dispatch that nothing interrupts goes through. */
  function Dispatch<T>(c: nat, task: T, r: nat, brokerOk: bool, reached: bool, diskOk: bool, written: bool):
      seq<Step<T>>
  {
    if brokerOk then [Start(c, task), BrokerOk(c), MaybeRecover(c, r)]
    else [Start(c, task), BrokerFail(c, reached), if diskOk then Append(c) else AppendFail(c, written)]
  }

  lemma ThreeSteps<T>(s: State<T>, a: Step<T>, b: Step<T>, c: Step<T>)
    requires Enabled(s, a) && Enabled(Next(s, a), b) && Enabled(Next(Next(s, a), b), c)
    ensures Run(s, [a, b, c], Next(Next(Next(s, a), b), c))
  {
    OneStep(s, a);
    OneStep(Next(s, a), b);
    OneStep(Next(Next(s, a), b), c);
    RunAppend(Next(s, a), [b], Next(Next(s, a), b), [c], Next(Next(Next(s, a), b), c));
    RunAppend(s, [a], Next(s, a), [b] + [c], Next(Next(Next(s, a), b), c));
    assert [a] + ([b] + [c]) == [a, b, c];
  }

  lemma Confirming<T>(s: State<T>, c: nat, task: T, r: nat) returns (s': State<T>)
    requires c !in s.clients && r !in s.replays && s.holder == None
    ensures Run(s, [Start(c, task), BrokerOk(c), MaybeRecover(c, r)], s')
    ensures s' == s.(accepted := s.accepted + multiset{task}, primary := s.primary + multiset{task},
                     replays := if !s.replaying && s.wal != [] then s.replays[r := Spawned] else s.replays,
                     replaying := s.replaying || s.wal != [])
  {
    var a: Step<T>, b: Step<T>, d: Step<T> := Start(c, task), BrokerOk(c), MaybeRecover(c, r);
    var s1 := Next(s, a);
    var s2 := Next(s1, b);
    assert s2.clients == s.clients[c := Client.Confirmed];
    s' := Next(s2, d);
    ThreeSteps(s, a, b, d);
    assert s.clients[c := Client.Confirmed] - {c} == s.clients;
  }

  lemma Refusing<T>(s: State<T>, c: nat, task: T, reached: bool, diskOk: bool, written: bool) returns (s': State<T>)
    requires c !in s.clients && s.holder == None
    ensures Run(s, [Start(c, task), BrokerFail(c, reached), if diskOk then Append(c) else AppendFail(c, written)], s')
    ensures s' == s.(accepted := if diskOk then s.accepted + multiset{task} else s.accepted,
                     primary := if reached then s.primary + multiset{task} else s.primary,
                     wal := if diskOk || written then s.wal + [task] else s.wal)
  {
    var a: Step<T>, b: Step<T> := Start(c, task), BrokerFail(c, reached);
    var d: Step<T> := if diskOk then Append(c) else AppendFail(c, written);
    var s1 := Next(s, a);
    var s2 := Next(s1, b);
    assert s2.clients == s.clients[c := Refused(task)];
    s' := Next(s2, d);
    ThreeSteps(s, a, b, d);
    assert s.clients[c := Refused(task)] - {c} == s.clients;
  }

  /** The step machine and the enqueuer's Dispatch agree: the task is accepted exactly when the broker confirmed
      or the file took it, the file grows by it in the second case only, unless a failed write got there, and a
      replay starts after a confirmation that finds none running and a file that is not empty. */
  lemma UninterruptedDispatch<T>(s: State<T>, c: nat, task: T, r: nat, brokerOk: bool, reached: bool, diskOk: bool,
      written: bool) returns (s': State<T>)
    requires c !in s.clients && r !in s.replays && s.holder == None
    ensures Run(s, Dispatch(c, task, r, brokerOk, reached, diskOk, written), s')
    ensures s'.clients == s.clients && s'.holder == None
    ensures s'.accepted == if brokerOk || diskOk then s.accepted + multiset{task} else s.accepted
    ensures s'.primary == if brokerOk || reached then s.primary + multiset{task} else s.primary
    ensures s'.wal == if !brokerOk && (diskOk || written) then s.wal + [task] else s.wal
    ensures s'.replays == if brokerOk && !s.replaying && s.wal != [] then s.replays[r := Spawned] else s.replays
    ensures s'.replaying <==> s.replaying || (brokerOk && s.wal != [])
  {
    if brokerOk {
      s' := Confirming(s, c, task, r);
    } else {
      s' := Refusing(s, c, task, reached, diskOk, written);
    }
  }
}
