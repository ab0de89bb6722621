/**
 The Redis reservation gate: one hash per user with what is available and what is frozen, changed only by
 atomic scripts and commands, in any interleaving.
 */
module Gate {
  import opened Sequences
  import opened Ledger

  datatype Hash = Hash(avail: Money, frozen: Money)

  type Cache = map<int, Hash>

  datatype Reply = NotLoaded | Short | Granted

  function ReserveScript(c: Cache, user: int, amount: Money): (Cache, Reply) {
    if user !in c || c[user].avail < 0.0 then (c, NotLoaded)
    else if c[user].avail < amount then (c, Short)
    else (c[user := Hash(c[user].avail - amount, c[user].frozen + amount)], Granted)
  }

  /** What the reclaim script answers: no hash, an argument that is not a number, or the released amount. */
  datatype Release = NoHash | NotANumber | Released(amount: Money)

  function ReclaimScript(c: Cache, user: int, want: Option<Money>): (Cache, Release) {
    if user !in c then (c, NoHash)
    else if want == None then (c, NotANumber)
    else
      var h := c[user];
      var rel := if h.frozen < want.value then h.frozen else want.value;
      (if rel > 0.0 then c[user := Hash(h.avail + rel, h.frozen - rel)] else c, Released(rel))
  }

  /** Commands of other clients and jobs on the same keys. */
  datatype Command =
    | Reserve(user: int, amount: Money)
    | Load(user: int, balance: Money)
    | Reclaim(user: int, want: Option<Money>)
    | Delete(user: int)

  predicate Legal(k: Command) {
    (k.Reserve? ==> k.amount > 0.0) && (k.Load? ==> k.balance >= 0.0)
  }

  function Do(c: Cache, k: Command): Cache {
    match k
    case Reserve(u, x) => ReserveScript(c, u, x).0
    case Load(u, b) => c[u := Hash(b, 0.0)]
    case Reclaim(u, w) => ReclaimScript(c, u, w).0
    case Delete(u) => c - {u}
  }

  function DoAll(c: Cache, ks: seq<Command>): Cache
    decreases |ks|
  {
    if ks == [] then c else DoAll(Do(c, ks[0]), ks[1..])
  }

  // ── conservation ───────────────────────────────────────────────────────────

  /** What happened to one user's hash since it was last loaded. */
  datatype History = History(loaded: Money, granted: Money, released: Money)

  function Note(c: Cache, h: map<int, History>, k: Command): map<int, History> {
    match k
    case Load(u, b) => h[u := History(b, 0.0, 0.0)]
    case Reserve(u, x) =>
      if u in h && ReserveScript(c, u, x).1 == Granted then h[u := h[u].(granted := h[u].granted + x)] else h
    case Reclaim(u, w) =>
      var r := ReclaimScript(c, u, w).1;
      if u in h && r.Released? && r.amount > 0.0 then h[u := h[u].(released := h[u].released + r.amount)] else h
    case Delete(u) => h - {u}
  }

  function Notes(c: Cache, h: map<int, History>, ks: seq<Command>): map<int, History>
    decreases |ks|
  {
    if ks == [] then h else Notes(Do(c, ks[0]), Note(c, h, ks[0]), ks[1..])
  }

  ghost predicate Conserved(c: Cache, h: map<int, History>) {
    && c.Keys == h.Keys
    && forall u :: u in c ==>
         && c[u].avail >= 0.0 && c[u].frozen >= 0.0
         && c[u].avail + c[u].frozen == h[u].loaded
         && c[u].frozen == h[u].granted - h[u].released
  }

  /** For every interleaving of reservations, loads, reclaims and deletes: a present hash splits exactly the
      balance last loaded into available and frozen, never negative, and what is frozen is what was granted
      and not yet released since that load. */
  lemma {:induction false} GateConserves(c: Cache, h: map<int, History>, ks: seq<Command>)
    requires Conserved(c, h) && forall k :: k in ks ==> Legal(k)
    ensures Conserved(DoAll(c, ks), Notes(c, h, ks))
    decreases |ks|
  {
    if ks != [] {
      assert ks[0] in ks && forall k :: k in ks[1..] ==> k in ks;
      assert Conserved(Do(c, ks[0]), Note(c, h, ks[0]));
      GateConserves(Do(c, ks[0]), Note(c, h, ks[0]), ks[1..]);
    }
  }

  /** So between two loads the gate never has more frozen than the balance it was given. */
  lemma NeverOversold(ks: seq<Command>, user: int)
    requires forall k :: k in ks ==> Legal(k)
    requires user in DoAll(map[], ks)
    ensures user in Notes(map[], map[], ks)
    ensures
      var h := Notes(map[], map[], ks)[user];
      0.0 <= h.granted - h.released <= h.loaded
  {
    GateConserves(map[], map[], ks);
  }

  // ── the reservation loop ───────────────────────────────────────────────────

  /** What other clients do around one cold load, and the balance the load read (None: the read failed). */
  datatype Around = Around(before: seq<Command>, balance: Option<Money>, after: seq<Command>)

  datatype Result = Reserved | Insufficient | ReadFailed | LoadRaced | NegativeAmount | NothingToReserve

  /** Two script runs with a load after each run that finds no hash. */
  function Attempt(c: Cache, user: int, amount: Money, around: seq<Around>): (Cache, Result)
    decreases |around|
  {
    if around == [] then (c, LoadRaced)
    else
      var (c1, reply) := ReserveScript(c, user, amount);
      if reply == Granted then (c1, Reserved)
      else if reply == Short then (c1, Insufficient)
      else
        var a := around[0];
        var c2 := DoAll(c1, a.before);
        if a.balance == None then (c2, ReadFailed)
        else Attempt(DoAll(Do(c2, Load(user, a.balance.value)), a.after), user, amount, around[1..])
  }

  /** An audit entry frozen:{request}; Malformed: not decodable, or without user, amount or time. */
  datatype Audit = Malformed | Audit(user: int, amount: Option<Money>, at: int)

  class ReserveGate {
    var cache: Cache
    var audits: map<string, Audit>

    constructor ()
      ensures cache == map[] && audits == map[]
    {
      cache, audits := map[], map[];
    }

    /** Other clients' commands between two of ours. */
    method Interfere(ks: seq<Command>)
      modifies this`cache
      ensures cache == DoAll(old(cache), ks)
    {
      var i := 0;
      while i < |ks|
        invariant 0 <= i <= |ks|
        invariant DoAll(cache, ks[i..]) == DoAll(old(cache), ks)
      {
        assert ks[i..][1..] == ks[i + 1..];
        cache := Do(cache, ks[i]);
        i := i + 1;
      }
    }

    method Reload(user: int, balance: Option<Money>) returns (ok: bool)
      modifies this`cache
      ensures ok <==> balance.Some?
      ensures cache == if ok then Do(old(cache), Load(user, balance.value)) else old(cache)
    {
      ok := balance.Some?;
      if ok {
        cache := cache[user := Hash(balance.value, 0.0)];
      }
    }

    /** Reserve with a cold load between the two tries; the audit entry is written only on success. */
    method Reserve(user: int, requestId: string, amount: Money, now: int, around: seq<Around>) returns (result: Result)
      requires |around| == 2
      modifies this
      ensures amount < 0.0 ==> result == NegativeAmount && cache == old(cache)
      ensures amount == 0.0 ==> result == NothingToReserve && cache == old(cache)
      ensures amount > 0.0 ==> (cache, result) == Attempt(old(cache), user, amount, around)
      ensures audits ==
              if result == Reserved then old(audits)["frozen:" + requestId := Audit(user, Some(amount), now)]
              else old(audits)
    {
      if amount < 0.0 {
        return NegativeAmount;
      }
      if amount == 0.0 {
        return NothingToReserve;
      }
      var attempt := 0;
      while attempt < 2
        invariant 0 <= attempt <= 2
        invariant audits == old(audits)
        invariant Attempt(cache, user, amount, around[attempt..]) == Attempt(old(cache), user, amount, around)
      {
        var (c, reply) := ReserveScript(cache, user, amount);
        cache := c;
        if reply == Granted {
          audits := audits["frozen:" + requestId := Audit(user, Some(amount), now)];
          return Reserved;
        }
        if reply == Short {
          return Insufficient;
        }
        Interfere(around[attempt].before);
        var ok := Reload(user, around[attempt].balance);
        if !ok {
          return ReadFailed;
        }
        Interfere(around[attempt].after);
        assert around[attempt..][1..] == around[attempt + 1..];
        attempt := attempt + 1;
      }
      result := LoadRaced;
    }

    /** Drops the balance hash and the request's audit entry. */
    method Reset(user: int, requestId: string)
      modifies this
      ensures cache == old(cache) - {user} && audits == old(audits) - {"frozen:" + requestId}
    {
      cache := cache - {user};
      audits := audits - {"frozen:" + requestId};
    }
  }

  ghost predicate NonNegative(c: Cache) {
    forall u :: u in c ==> c[u].avail >= 0.0 && c[u].frozen >= 0.0
  }

  lemma {:induction false} RunKeepsSigns(c: Cache, ks: seq<Command>)
    requires NonNegative(c) && forall k :: k in ks ==> Legal(k)
    ensures NonNegative(DoAll(c, ks))
    decreases |ks|
  {
    if ks != [] {
      assert ks[0] in ks && forall k :: k in ks[1..] ==> k in ks;
      RunKeepsSigns(Do(c, ks[0]), ks[1..]);
    }
  }

  lemma {:induction false} StaysPresent(c: Cache, ks: seq<Command>, user: int)
    requires user in c && Delete(user) !in ks
    ensures user in DoAll(c, ks)
    decreases |ks|
  {
    if ks != [] {
      StaysPresent(Do(c, ks[0]), ks[1..], user);
    }
  }

  /** The second script run, after a successful cold load and whatever other clients did around it. */
  function Warm(c: Cache, user: int, a: Around): Cache
    requires a.balance.Some?
  {
    DoAll(Do(DoAll(c, a.before), Load(user, a.balance.value)), a.after)
  }

  /** Every outcome of Reserve: a present hash decides at once; an absent one is loaded and decides on the
      second run, unless the balance could not be read, or somebody deleted the hash again before that run.
      In particular it grants exactly when the amount fits the hash it decided on. */
  lemma ReserveOutcome(c: Cache, user: int, amount: Money, around: seq<Around>)
    requires NonNegative(c) && |around| == 2
    requires forall a :: a in around ==>
            (a.balance.Some? ==> a.balance.value >= 0.0) && (forall k :: k in a.before + a.after ==> Legal(k))
    ensures
      var r := Attempt(c, user, amount, around).1;
      && (user in c ==> r == if amount <= c[user].avail then Reserved else Insufficient)
      && (user !in c && around[0].balance == None ==> r == ReadFailed)
      && (user !in c && around[0].balance.Some? ==>
            var w := Warm(c, user, around[0]);
            && (user in w ==> r == if amount <= w[user].avail then Reserved else Insufficient)
            && (user !in w ==> r == if around[1].balance == None then ReadFailed else LoadRaced)
            && (user !in w ==> Delete(user) in around[0].after))
  {
    assert around[0] in around && around[1] in around;
    if user !in c && around[0].balance.Some? {
      var a := around[0];
      assert forall k :: k in a.before ==> k in a.before + a.after;
      assert forall k :: k in a.after ==> k in a.before + a.after;
      RunKeepsSigns(c, a.before);
      var loaded := Do(DoAll(c, a.before), Load(user, a.balance.value));
      RunKeepsSigns(loaded, a.after);
      if Delete(user) !in a.after {
        StaysPresent(loaded, a.after, user);
      }
      assert around[1..] == [around[1]];
      var w := Warm(c, user, a);
      assert Attempt(c, user, amount, around) == Attempt(w, user, amount, [around[1]]);
      assert [around[1]][1..] == [];
      if user !in w && around[1].balance.Some? {
        assert Attempt(w, user, amount, [around[1]]) == Attempt(Warm(w, user, around[1]), user, amount, []);
      }
    }
  }

  /** With nobody else around, the answer is the one the database balance gives. */
  lemma QuietReserve(c: Cache, user: int, amount: Money, balance: Money, b2: Option<Money>)
    requires NonNegative(c) && balance >= 0.0 && (b2.Some? ==> b2.value >= 0.0)
    ensures Attempt(c, user, amount, [Around([], Some(balance), []), Around([], b2, [])]).1 ==
            if amount <= (if user in c then c[user].avail else balance) then Reserved else Insufficient
  {
    ReserveOutcome(c, user, amount, [Around([], Some(balance), []), Around([], b2, [])]);
  }
}
