/**
 The reclaim job: walks the audit entries in whatever batches SCAN yields, and gives back what entries
 past the threshold still hold frozen when their request never reached the ledger.
 */
module Reclaim {
  import opened Sequences
  import opened Ledger
  import opened Gate

  const PREFIX := "frozen:"

  datatype Store = Store(cache: Cache, audits: map<string, Audit>)

  /** One SCAN page and what went wrong while working on it: MGET or the ledger lookup failed as a whole,
      the script hit a Redis error for some keys, or the final DEL of some keys was lost (its error is
      ignored). */
  datatype Batch = ScanFailed
      | Page(keys: seq<string>, mgetOk: bool, lookupOk: bool, scriptFails: set<string>, deleteLost: set<string>)

  predicate HasPrefix(key: string) {
    |key| > |PREFIX| && key[..|PREFIX|] == PREFIX
  }

  function RequestOf(key: string): string
    requires HasPrefix(key)
  {
    key[|PREFIX|..]
  }

  /** A well-formed entry that has reached the threshold. */
  predicate Eligible(audits: map<string, Audit>, key: string, deadline: int) {
    HasPrefix(key) && key in audits && audits[key].Audit? && audits[key].at <= deadline
  }

  /** Some row of any kind carries the request id. */
  predicate InLedger(ledger: seq<Row>, requestId: string) {
    exists i :: 0 <= i < |ledger| && ledger[i].requestId == requestId
  }

  /** The keys of a page worth judging, in page order. */
  function Candidates(audits: map<string, Audit>, keys: seq<string>, deadline: int): seq<string> {
    if keys == [] then []
    else
      var key := keys[|keys| - 1];
      Candidates(audits, keys[..|keys| - 1], deadline) + if Eligible(audits, key, deadline) then [key] else []
  }

  /** One candidate, with the entry as MGET saw it: released unless its request has a row, then removed. */
  function ProcessOne(s: Store, key: string, entry: Audit, ledger: seq<Row>, page: Batch): (Store, bool)
    requires HasPrefix(key) && entry.Audit? && page.Page?
  {
    var kept := if key in page.deleteLost then s.audits else s.audits - {key};
    if InLedger(ledger, RequestOf(key)) then (s.(audits := kept), true)
    else if key in page.scriptFails then (s, false)
    else
      var (cache, release) := ReclaimScript(s.cache, entry.user, entry.amount);
      if release == NotANumber then (s, false) else (Store(cache, kept), true)
  }

  /** handled, errors: what the job reports. */
  datatype Tally = Tally(store: Store, handled: nat, errors: nat)

  function ProcessAll(t: Tally, seen: map<string, Audit>, keys: seq<string>, ledger: seq<Row>, page: Batch): Tally
    requires page.Page? && forall k :: k in keys ==> HasPrefix(k) && k in seen && seen[k].Audit?
  {
    if keys == [] then t
    else
      var n := |keys| - 1;
      var p := ProcessAll(t, seen, keys[..n], ledger, page);
      var (s, ok) := ProcessOne(p.store, keys[n], seen[keys[n]], ledger, page);
      Tally(s, p.handled + (if ok then 1 else 0), p.errors + (if ok then 0 else 1))
  }

  function RunPage(t: Tally, page: Batch, ledger: seq<Row>, deadline: int): Tally
    requires page.Page?
  {
    var keys := if page.mgetOk then Candidates(t.store.audits, page.keys, deadline) else [];
    CandidatesEligible(t.store.audits, page.keys, deadline);
    var t1 := if page.keys != [] && !page.mgetOk then t.(errors := t.errors + 1) else t;
    if keys != [] && !page.lookupOk then t1.(errors := t1.errors + 1)
    else ProcessAll(t1, t.store.audits, keys, ledger, page)
  }

  /** The cursor loop; a failed SCAN ends the job. */
  function RunJob(t: Tally, pages: seq<Batch>, ledger: seq<Row>, deadline: int): Tally
    decreases |pages|
  {
    if pages == [] then t
    else if pages[0].ScanFailed? then t.(errors := t.errors + 1)
    else RunJob(RunPage(t, pages[0], ledger, deadline), pages[1..], ledger, deadline)
  }

  lemma {:induction false} CandidatesEligible(audits: map<string, Audit>, keys: seq<string>, deadline: int)
    ensures forall k :: k in Candidates(audits, keys, deadline) <==> k in keys && Eligible(audits, k, deadline)
  {
    if keys != [] {
      CandidatesEligible(audits, keys[..|keys| - 1], deadline);
      assert keys == keys[..|keys| - 1] + [keys[|keys| - 1]];
    }
  }

  class Job {
    var store: Store

    constructor (store: Store)
      ensures this.store == store
    {
      this.store := store;
    }

    /** The reclaim job as it runs: read a page, pick the candidates, ask the ledger once, then release and
        remove them one by one. */
    method Reclaim(pages: seq<Batch>, ledger: seq<Row>, deadline: int) returns (handled: nat, errors: nat)
      modifies this
      ensures Tally(store, handled, errors) == RunJob(Tally(old(store), 0, 0), pages, ledger, deadline)
    {
      handled, errors := 0, 0;
      var cursor := 0;
      while cursor < |pages|
        invariant 0 <= cursor <= |pages|
        invariant RunJob(Tally(store, handled, errors), pages[cursor..], ledger,
                deadline) == RunJob(Tally(old(store), 0, 0), pages, ledger, deadline)
      {
        var page := pages[cursor];
        assert pages[cursor..][1..] == pages[cursor + 1..];
        if page.ScanFailed? {
          errors := errors + 1;
          return;
        }
        handled, errors := OnePage(page, ledger, deadline, handled, errors);
        cursor := cursor + 1;
      }
    }

    /** MGET of one page, keeping the entries that are well-formed and past the threshold. */
    method PickCandidates(keys: seq<string>, deadline: int) returns (cands: seq<string>)
      ensures cands == Candidates(store.audits, keys, deadline)
    {
      cands := [];
      for i := 0 to |keys|
        invariant cands == Candidates(store.audits, keys[..i], deadline)
      {
        var key := keys[i];
        assert keys[..i + 1][..i] == keys[..i];
        if !(|key| > |PREFIX| && key[..|PREFIX|] == PREFIX) {
          continue;
        }
        if key !in store.audits || store.audits[key].Malformed? {
          continue;
        }
        if store.audits[key].at > deadline {
          continue;
        }
        cands := cands + [key];
      }
      assert keys[..|keys|] == keys;
    }

    method OnePage(page: Batch, ledger: seq<Row>, deadline: int, handled0: nat, errors0: nat)
        returns (handled: nat, errors: nat)
      requires page.Page?
      modifies this
      ensures Tally(store, handled, errors) == RunPage(Tally(old(store), handled0, errors0), page, ledger, deadline)
    {
      handled, errors := handled0, errors0;
      var cands := [];
      if page.keys != [] {
        if !page.mgetOk {
          errors := errors + 1;
        } else {
          cands := PickCandidates(page.keys, deadline);
        }
      }
      CandidatesEligible(store.audits, page.keys, deadline);
      if cands != [] && !page.lookupOk {
        errors := errors + 1;
        return;
      }
      handled, errors := ReleaseAll(store.audits, cands, page, ledger, handled, errors);
    }

    /** The candidates of one page, with the entries as MGET saw them. */
    method ReleaseAll(seen: map<string, Audit>, cands: seq<string>, page: Batch, ledger: seq<Row>, handled0: nat,
        errors0: nat)
      returns (handled: nat, errors: nat)
      requires page.Page? && forall k :: k in cands ==> HasPrefix(k) && k in seen && seen[k].Audit?
      modifies this
      ensures Tally(store, handled, errors) == ProcessAll(Tally(old(store), handled0, errors0), seen, cands, ledger,
              page)
    {
      handled, errors := handled0, errors0;
      for i := 0 to |cands|
        invariant forall k :: k in cands[..i] ==> k in cands
        invariant Tally(store, handled, errors) == ProcessAll(Tally(old(store), handled0, errors0), seen, cands[..i],
                ledger, page)
      {
        var key := cands[i];
        assert key in cands;
        assert cands[..i + 1][..i] == cands[..i];
        if !InLedger(ledger, RequestOf(key)) {
          if key in page.scriptFails {
            errors := errors + 1;
            continue;
          }
          var (cache, release) := ReclaimScript(store.cache, seen[key].user, seen[key].amount);
          if release == NotANumber {
            errors := errors + 1;
            continue;
          }
          store := store.(cache := cache);
        }
        if key !in page.deleteLost {
          store := store.(audits := store.audits - {key});
        }
        handled := handled + 1;
      }
      assert cands[..|cands|] == cands;
    }
  }

  // ── what the job never does ────────────────────────────────────────────────

  /** The hash is still there, still splits the same total, and only moved from frozen to available. */
  predicate OnlyReleased(c: Cache, c': Cache) {
    c'.Keys == c.Keys && forall u :: u in c ==>
      c'[u].avail + c'[u].frozen == c[u].avail + c[u].frozen && 0.0 <= c'[u].frozen <= c[u].frozen
  }

  ghost predicate FrozenSigns(c: Cache) {
    forall u :: u in c ==> c[u].frozen >= 0.0
  }

  /** User u has an entry the job may release for. */
  ghost predicate Releasable(audits: map<string, Audit>, ledger: seq<Row>, deadline: int, u: int) {
    exists k :: Eligible(audits, k, deadline) && audits[k].user == u && !InLedger(ledger, RequestOf(k))
  }

  /** Everything a step or a job may change, judged against the entries at the start. */
  ghost predicate Careful(s0: Store, s: Store, ledger: seq<Row>, deadline: int) {
    && s.audits.Keys <= s0.audits.Keys
    && (forall k :: k in s.audits ==> s.audits[k] == s0.audits[k])
    && (forall k :: k in s0.audits && k !in s.audits ==> Eligible(s0.audits, k, deadline))
    && OnlyReleased(s0.cache, s.cache)
    && (forall u :: u in s0.cache && s.cache[u] != s0.cache[u] ==> Releasable(s0.audits, ledger, deadline, u))
  }

  lemma CarefulOne(s0: Store, s: Store, key: string, ledger: seq<Row>, page: Batch, deadline: int)
    requires Careful(s0, s, ledger, deadline) && page.Page? && Eligible(s0.audits, key, deadline)
    ensures Careful(s0, ProcessOne(s, key, s0.audits[key], ledger, page).0, ledger, deadline)
  {
  }

  lemma {:induction false} CarefulAll(s0: Store, t: Tally, seen: map<string, Audit>, keys: seq<string>,
      ledger: seq<Row>, page: Batch, deadline: int)
    requires Careful(s0, t.store, ledger, deadline) && page.Page?
    requires forall k :: k in keys ==> Eligible(s0.audits, k, deadline) && k in seen && seen[k] == s0.audits[k]
    ensures forall k :: k in keys ==> HasPrefix(k) && k in seen && seen[k].Audit?
    ensures Careful(s0, ProcessAll(t, seen, keys, ledger, page).store, ledger, deadline)
  {
    if keys != [] {
      var n := |keys| - 1;
      CarefulAll(s0, t, seen, keys[..n], ledger, page, deadline);
      CarefulOne(s0, ProcessAll(t, seen, keys[..n], ledger, page).store, keys[n], ledger, page, deadline);
    }
  }

  lemma {:induction false} CarefulJob(s0: Store, t: Tally, pages: seq<Batch>, ledger: seq<Row>, deadline: int)
    requires Careful(s0, t.store, ledger, deadline)
    ensures Careful(s0, RunJob(t, pages, ledger, deadline).store, ledger, deadline)
    decreases |pages|
  {
    if pages != [] && pages[0].Page? {
      var page := pages[0];
      CandidatesEligible(t.store.audits, page.keys, deadline);
      if page.mgetOk && page.lookupOk {
        CarefulAll(s0, t, t.store.audits, Candidates(t.store.audits, page.keys, deadline), ledger, page, deadline);
      }
      CarefulJob(s0, RunPage(t, page, ledger, deadline), pages[1..], ledger, deadline);
    }
  }

  /** For any keys, any paging and any failures: entries below the threshold, malformed or foreign stay as
      they are; a balance hash changes only for a user with a due entry whose request has no ledger row;
      and no hash ever gains total, only moves frozen into available. */
  lemma ReclaimIsCareful(s: Store, pages: seq<Batch>, ledger: seq<Row>, deadline: int)
    requires FrozenSigns(s.cache)
    ensures Careful(s, RunJob(Tally(s, 0, 0), pages, ledger, deadline).store, ledger, deadline)
    ensures
      var s' := RunJob(Tally(s, 0, 0), pages, ledger, deadline).store;
      forall k :: k in s.audits && (s.audits[k].Malformed? || s.audits[k].at > deadline || !("frozen:" < k)) ==>
        k in s'.audits && s'.audits[k] == s.audits[k]
  {
    CarefulJob(s, Tally(s, 0, 0), pages, ledger, deadline);
  }

  /** A page whose MGET or ledger lookup failed changes nothing. */
  lemma FailedPageIsInert(t: Tally, page: Batch, ledger: seq<Row>, deadline: int)
    requires page.Page? && (!page.mgetOk || !page.lookupOk)
    ensures RunPage(t, page, ledger, deadline).store == t.store
    ensures RunPage(t, page, ledger, deadline).handled == t.handled
  {
  }

  // ── what a job does, failures included ─────────────────────────────────────

  /** What entry k asks back for user u. */
  function WantOf(audits: map<string, Audit>, ledger: seq<Row>, k: string, u: int): Money {
    if && HasPrefix(k) && k in audits && audits[k].Audit? && audits[k].user == u
       && audits[k].amount.Some? && audits[k].amount.value > 0.0 && !InLedger(ledger, RequestOf(k))
    then audits[k].amount.value else 0.0
  }

  ghost function Wanted(audits: map<string, Audit>, ledger: seq<Row>, keys: set<string>, u: int): Money {
    if keys == {} then 0.0
    else
      var k :| k in keys;
      Wanted(audits, ledger, keys - {k}, u) + WantOf(audits, ledger, k, u)
  }

  lemma {:induction false} WantedSplit(audits: map<string, Audit>, ledger: seq<Row>, keys: set<string>, k: string,
      u: int)
    requires k in keys
    ensures Wanted(audits, ledger, keys, u) == Wanted(audits, ledger, keys - {k}, u) + WantOf(audits, ledger, k, u)
    decreases keys
  {
    var pick :| pick in keys &&
        Wanted(audits, ledger, keys, u) == Wanted(audits, ledger, keys - {pick}, u) + WantOf(audits, ledger, pick, u);
    if pick != k {
      WantedSplit(audits, ledger, keys - {pick}, k, u);
      WantedSplit(audits, ledger, keys - {k}, pick, u);
      assert keys - {pick} - {k} == keys - {k} - {pick};
    }
  }

  lemma {:induction false} WantedNonNegative(audits: map<string, Audit>, ledger: seq<Row>, keys: set<string>, u: int)
    ensures Wanted(audits, ledger, keys, u) >= 0.0
    decreases keys
  {
    if keys != {} {
      var k :| k in keys;
      WantedNonNegative(audits, ledger, keys - {k}, u);
      WantedSplit(audits, ledger, keys, k, u);
    }
  }

  /** The same, over a list that may name an entry several times. */
  function Asked(audits: map<string, Audit>, ledger: seq<Row>, keys: seq<string>, u: int): Money {
    if keys == [] then 0.0
    else Asked(audits, ledger, keys[..|keys| - 1], u) + WantOf(audits, ledger, keys[|keys| - 1], u)
  }

  lemma AskedSnoc(audits: map<string, Audit>, ledger: seq<Row>, keys: seq<string>, k: string, u: int)
    ensures Asked(audits, ledger, keys + [k], u) == Asked(audits, ledger, keys, u) + WantOf(audits, ledger, k, u)
  {
    assert (keys + [k])[..|keys|] == keys;
  }

  lemma {:induction false} AskedNonNegative(audits: map<string, Audit>, ledger: seq<Row>, keys: seq<string>, u: int)
    ensures Asked(audits, ledger, keys, u) >= 0.0
  {
    if keys != [] {
      AskedNonNegative(audits, ledger, keys[..|keys| - 1], u);
    }
  }

  lemma {:induction false} AskedAppend(audits: map<string, Audit>, ledger: seq<Row>, a: seq<string>, b: seq<string>,
      u: int)
    ensures Asked(audits, ledger, a + b, u) == Asked(audits, ledger, a, u) + Asked(audits, ledger, b, u)
  {
    if b == [] {
      assert a + b == a;
    } else {
      var n := |b| - 1;
      AskedAppend(audits, ledger, a, b[..n], u);
      AskedSnoc(audits, ledger, a + b[..n], b[n], u);
      assert a + b[..n] + [b[n]] == a + b;
    }
  }

  lemma {:induction false} AskedFrame(audits: map<string, Audit>, audits': map<string, Audit>, ledger: seq<Row>,
      keys: seq<string>, u: int)
    requires forall k :: k in keys ==> k in audits && k in audits' && audits[k] == audits'[k]
    ensures Asked(audits, ledger, keys, u) == Asked(audits', ledger, keys, u)
  {
    if keys != [] {
      AskedFrame(audits, audits', ledger, keys[..|keys| - 1], u);
    }
  }

  function KeySet(keys: seq<string>): set<string> {
    set k | k in keys
  }

  predicate Known(audits: map<string, Audit>, k: string) {
    HasPrefix(k) && k in audits && audits[k].Audit?
  }

  /** A candidate is dealt with: its request has a row, or its customer has no hash, or the script answers. */
  predicate Succeeds(s: Store, ledger: seq<Row>, page: Batch, k: string)
    requires page.Page?
  {
    Known(s.audits, k) &&
    (InLedger(ledger, RequestOf(k)) ||
     (k !in page.scriptFails && (s.audits[k].user in s.cache ==> s.audits[k].amount.Some?)))
  }

  function Successes(s: Store, ledger: seq<Row>, page: Batch, keys: seq<string>): (r: seq<string>)
    requires page.Page?
    ensures |r| <= |keys| && forall k :: k in r <==> k in keys && Succeeds(s, ledger, page, k)
  {
    if keys == [] then []
    else
      var n := |keys| - 1;
      assert keys == keys[..n] + [keys[n]];
      Successes(s, ledger, page, keys[..n]) + if Succeeds(s, ledger, page, keys[n]) then [keys[n]] else []
  }

  function Left(frozen: Money, want: Money): Money {
    if frozen - want > 0.0 then frozen - want else 0.0
  }

  ghost predicate SubMap(a: map<string, Audit>, b: map<string, Audit>) {
    forall k :: k in a ==> k in b && a[k] == b[k]
  }

  /** The hashes once the entries in done have been dealt with, in that order. */
  ghost predicate Progress(s0: Store, s: Store, ledger: seq<Row>, done: seq<string>) {
    && SubMap(s.audits, s0.audits) && KeySet(done) <= s0.audits.Keys
    && s.cache.Keys == s0.cache.Keys
    && forall u :: u in s0.cache ==>
         && s.cache[u].avail + s.cache[u].frozen == s0.cache[u].avail + s0.cache[u].frozen
         && s.cache[u].frozen == Left(s0.cache[u].frozen, Asked(s0.audits, ledger, done, u))
  }

  /** One candidate: either it is dealt with, and gone unless its delete is lost, or nothing happens to it. */
  lemma ProgressOne(s0: Store, s: Store, ledger: seq<Row>, done: seq<string>, key: string, page: Batch)
    requires Progress(s0, s, ledger, done) && FrozenSigns(s0.cache) && Known(s0.audits, key) && page.Page?
    ensures
      var (s', ok) := ProcessOne(s, key, s0.audits[key], ledger, page);
      && (ok <==> Succeeds(s0, ledger, page, key))
      && (!ok ==> s' == s)
      && (ok ==> Progress(s0, s', ledger, done + [key])
                 && s'.audits == if key in page.deleteLost then s.audits else s.audits - {key})
  {
    var (s', ok) := ProcessOne(s, key, s0.audits[key], ledger, page);
    assert KeySet(done + [key]) == KeySet(done) + {key};
    forall u | ok && u in s0.cache
      ensures s'.cache[u].avail + s'.cache[u].frozen == s0.cache[u].avail + s0.cache[u].frozen
      ensures s'.cache[u].frozen == Left(s0.cache[u].frozen, Asked(s0.audits, ledger, done + [key], u))
    {
      AskedSnoc(s0.audits, ledger, done, key, u);
      AskedNonNegative(s0.audits, ledger, done, u);
    }
  }

  /** The entries of a page, as they were when the page began. */
  ghost predicate SeenOk(s0: Store, seen: map<string, Audit>, keys: seq<string>) {
    forall k :: k in keys ==> Known(seen, k) && k in s0.audits && s0.audits[k] == seen[k]
  }

  lemma DropOne(audits: map<string, Audit>, h: seq<string>, key: string, lost: set<string>)
    ensures
      var left := audits - (KeySet(h) - lost);
      audits - (KeySet(h + [key]) - lost) == if key in lost then left else left - {key}
  {
    assert KeySet(h + [key]) == KeySet(h) + {key};
  }

  lemma NothingDropped(audits: map<string, Audit>, done: seq<string>, lost: set<string>)
    ensures done + [] == done && audits - (KeySet([]) - lost) == audits
  {
  }

  /** One more candidate of a page. */
  lemma ProgressSnoc(s0: Store, p: Tally, audits: map<string, Audit>, key: string, ledger: seq<Row>, done: seq<string>,
      h: seq<string>, page: Batch)
    requires page.Page? && Progress(s0, p.store, ledger, done + h) && FrozenSigns(s0.cache) && Known(s0.audits, key)
    requires p.store.audits == audits - (KeySet(h) - page.deleteLost)
    ensures
      var (s', ok) := ProcessOne(p.store, key, s0.audits[key], ledger, page);
      var h' := h + if Succeeds(s0, ledger, page, key) then [key] else [];
      && (ok <==> Succeeds(s0, ledger, page, key))
      && Progress(s0, s', ledger, done + h') && s'.audits == audits - (KeySet(h') - page.deleteLost)
  {
    ProgressOne(s0, p.store, ledger, done + h, key, page);
    if Succeeds(s0, ledger, page, key) {
      Regroup(done, h, [key]);
      DropOne(audits, h, key, page.deleteLost);
    } else {
      assert h + [] == h;
    }
  }

  lemma SeenSplit(s0: Store, seen: map<string, Audit>, keys: seq<string>)
    requires SeenOk(s0, seen, keys) && keys != []
    ensures SeenOk(s0, seen, keys[..|keys| - 1]) && Known(s0.audits, keys[|keys| - 1])
    ensures seen[keys[|keys| - 1]] == s0.audits[keys[|keys| - 1]]
  {
    assert keys[|keys| - 1] in keys;
  }

  lemma {:induction false} ProgressAll(s0: Store, t: Tally, seen: map<string, Audit>, ledger: seq<Row>,
      done: seq<string>, keys: seq<string>, page: Batch)
    requires Progress(s0, t.store, ledger, done) && FrozenSigns(s0.cache) && SeenOk(s0, seen, keys) && page.Page?
    ensures
      var end, h := ProcessAll(t, seen, keys, ledger, page), Successes(s0, ledger, page, keys);
      && Progress(s0, end.store, ledger, done + h)
      && end.store.audits == t.store.audits - (KeySet(h) - page.deleteLost)
      && end.handled == t.handled + |h| && end.errors == t.errors + (|keys| - |h|)
  {
    if keys == [] {
      NothingDropped(t.store.audits, done, page.deleteLost);
    } else {
      var n := |keys| - 1;
      SeenSplit(s0, seen, keys);
      var p, h := ProcessAll(t, seen, keys[..n], ledger, page), Successes(s0, ledger, page, keys[..n]);
      ProgressAll(s0, t, seen, ledger, done, keys[..n], page);
      ProgressSnoc(s0, p, t.store.audits, keys[n], ledger, done, h, page);
    }
  }

  // ── page by page ───────────────────────────────────────────────────────────

  function PageHandled(s: Store, audits: map<string, Audit>, page: Batch, ledger: seq<Row>, deadline: int): seq<string>
    requires page.Page?
  {
    if page.mgetOk && page.lookupOk then Successes(s, ledger, page, Candidates(audits, page.keys, deadline)) else []
  }

  /** One error for a page that cannot be read, one for a lookup that fails, one for each candidate not dealt
      with. */
  function PageErrors(s: Store, audits: map<string, Audit>, page: Batch, ledger: seq<Row>, deadline: int): nat
    requires page.Page?
  {
    var cands := Candidates(audits, page.keys, deadline);
    if !page.mgetOk then (if page.keys == [] then 0 else 1)
    else if !page.lookupOk then (if cands == [] then 0 else 1)
    else |cands| - |Successes(s, ledger, page, cands)|
  }

  function PageLeft(s: Store, audits: map<string, Audit>, page: Batch, ledger: seq<Row>, deadline: int):
      map<string, Audit>
    requires page.Page?
  {
    audits - (KeySet(PageHandled(s, audits, page, ledger, deadline)) - page.deleteLost)
  }

  lemma CandidatesSeen(s0: Store, s: Store, keys: seq<string>, deadline: int)
    requires SubMap(s.audits, s0.audits)
    ensures SeenOk(s0, s.audits, Candidates(s.audits, keys, deadline))
  {
    CandidatesEligible(s.audits, keys, deadline);
  }

  lemma IdlePage(s0: Store, t: Tally, ledger: seq<Row>, done: seq<string>, page: Batch, deadline: int)
    requires page.Page? && (!page.mgetOk || !page.lookupOk)
    ensures
      var end := RunPage(t, page, ledger, deadline);
      && PageHandled(s0, t.store.audits, page, ledger, deadline) == [] && done + [] == done
      && PageLeft(s0, t.store.audits, page, ledger, deadline) == t.store.audits
      && end == t.(errors := t.errors + PageErrors(s0, t.store.audits, page, ledger, deadline))
  {
    CandidatesEligible(t.store.audits, page.keys, deadline);
    NothingDropped(t.store.audits, done, page.deleteLost);
  }

  lemma PageEffect(s0: Store, t: Tally, ledger: seq<Row>, done: seq<string>, page: Batch, deadline: int)
    requires Progress(s0, t.store, ledger, done) && FrozenSigns(s0.cache) && page.Page?
    ensures
      var end, h := RunPage(t, page, ledger, deadline), PageHandled(s0, t.store.audits, page, ledger, deadline);
      && Progress(s0, end.store, ledger, done + h)
      && end.store.audits == PageLeft(s0, t.store.audits, page, ledger, deadline)
      && end.handled == t.handled + |h|
      && end.errors == t.errors + PageErrors(s0, t.store.audits, page, ledger, deadline)
  {
    if page.mgetOk && page.lookupOk {
      CandidatesSeen(s0, t.store, page.keys, deadline);
      ProgressAll(s0, t, t.store.audits, ledger, done, Candidates(t.store.audits, page.keys, deadline), page);
    } else {
      IdlePage(s0, t, ledger, done, page, deadline);
    }
  }

  /** Every entry the job deals with, in order, as often as it does. */
  function Handled(s: Store, audits: map<string, Audit>, pages: seq<Batch>, ledger: seq<Row>, deadline: int):
      seq<string>
    decreases |pages|
  {
    if pages == [] || pages[0].ScanFailed? then []
    else PageHandled(s, audits, pages[0], ledger, deadline)
         + Handled(s, PageLeft(s, audits, pages[0], ledger, deadline), pages[1..], ledger, deadline)
  }

  function Errors(s: Store, audits: map<string, Audit>, pages: seq<Batch>, ledger: seq<Row>, deadline: int): nat
    decreases |pages|
  {
    if pages == [] then 0
    else if pages[0].ScanFailed? then 1
    else PageErrors(s, audits, pages[0], ledger, deadline)
         + Errors(s, PageLeft(s, audits, pages[0], ledger, deadline), pages[1..], ledger, deadline)
  }

  function EntriesLeft(s: Store, audits: map<string, Audit>, pages: seq<Batch>, ledger: seq<Row>, deadline: int):
      map<string, Audit>
    decreases |pages|
  {
    if pages == [] || pages[0].ScanFailed? then audits
    else EntriesLeft(s, PageLeft(s, audits, pages[0], ledger, deadline), pages[1..], ledger, deadline)
  }

  lemma {:induction false} JobEffect(s0: Store, t: Tally, ledger: seq<Row>, done: seq<string>, pages: seq<Batch>,
      deadline: int)
    requires Progress(s0, t.store, ledger, done) && FrozenSigns(s0.cache)
    ensures
      var end, h := RunJob(t, pages, ledger, deadline), Handled(s0, t.store.audits, pages, ledger, deadline);
      && Progress(s0, end.store, ledger, done + h)
      && end.store.audits == EntriesLeft(s0, t.store.audits, pages, ledger, deadline)
      && end.handled == t.handled + |h|
      && end.errors == t.errors + Errors(s0, t.store.audits, pages, ledger, deadline)
    decreases |pages|
  {
    if pages == [] || pages[0].ScanFailed? {
      assert done + [] == done;
    } else {
      var h := PageHandled(s0, t.store.audits, pages[0], ledger, deadline);
      var t' := RunPage(t, pages[0], ledger, deadline);
      PageEffect(s0, t, ledger, done, pages[0], deadline);
      JobEffect(s0, t', ledger, done + h, pages[1..], deadline);
      Regroup(done, h, Handled(s0, t'.store.audits, pages[1..], ledger, deadline));
    }
  }

  /** Any job at all, with any paging and any failures: each user has max(0, frozen - Σ) left frozen and the
      rest available, Σ counting an unsettled amount once for every time the job dealt with its entry; it
      reports how often it did, and one error for each failed SCAN, MGET and lookup and for each candidate it
      could not deal with. */
  lemma JobAccounts(s: Store, pages: seq<Batch>, ledger: seq<Row>, deadline: int)
    requires FrozenSigns(s.cache)
    ensures
      var end, done := RunJob(Tally(s, 0, 0), pages, ledger, deadline), Handled(s, s.audits, pages, ledger, deadline);
      && Progress(s, end.store, ledger, done) && end.handled == |done|
      && end.errors == Errors(s, s.audits, pages, ledger, deadline)
      && end.store.audits == EntriesLeft(s, s.audits, pages, ledger, deadline)
  {
    JobEffect(s, Tally(s, 0, 0), ledger, [], pages, deadline);
    assert [] + Handled(s, s.audits, pages, ledger, deadline) == Handled(s, s.audits, pages, ledger, deadline);
  }

  // ── which entries leave ────────────────────────────────────────────────────

  /** Pages before the first failed SCAN. */
  function Scanned(pages: seq<Batch>): (n: nat)
    ensures n <= |pages| && forall i :: 0 <= i < n ==> pages[i].Page?
    decreases |pages|
  {
    if pages == [] || pages[0].ScanFailed? then 0 else 1 + Scanned(pages[1..])
  }

  /** The page names the due entry k, could be judged, and k was dealt with. */
  predicate Handles(s: Store, page: Batch, ledger: seq<Row>, deadline: int, k: string) {
    page.Page? && k in page.keys && page.mgetOk && page.lookupOk && Eligible(s.audits, k, deadline)
    && Succeeds(s, ledger, page, k)
  }

  predicate Removes(s: Store, page: Batch, ledger: seq<Row>, deadline: int, k: string) {
    Handles(s, page, ledger, deadline, k) && k !in page.deleteLost
  }

  lemma PageHandledIs(s: Store, audits: map<string, Audit>, page: Batch, ledger: seq<Row>, deadline: int)
    requires SubMap(audits, s.audits) && page.Page?
    ensures forall k :: k in PageHandled(s, audits, page, ledger, deadline) <==>
              k in audits && Handles(s, page, ledger, deadline, k)
    ensures SubMap(PageLeft(s, audits, page, ledger, deadline), s.audits)
    ensures forall k :: k in PageLeft(s, audits, page, ledger, deadline) <==>
              k in audits && !Removes(s, page, ledger, deadline, k)
  {
    CandidatesEligible(audits, page.keys, deadline);
    forall k ensures k in PageHandled(s, audits, page, ledger, deadline) <==>
                     k in audits && Handles(s, page, ledger, deadline, k) {
    }
  }

  ghost predicate SomePageRemoves(s: Store, pages: seq<Batch>, ledger: seq<Row>, deadline: int, k: string) {
    exists i :: 0 <= i < Scanned(pages) && Removes(s, pages[i], ledger, deadline, k)
  }

  lemma RemovesHead(s: Store, pages: seq<Batch>, ledger: seq<Row>, deadline: int, k: string)
    requires pages != [] && pages[0].Page?
    ensures SomePageRemoves(s, pages, ledger, deadline, k) <==>
            Removes(s, pages[0], ledger, deadline, k) || SomePageRemoves(s, pages[1..], ledger, deadline, k)
  {
    var rest := pages[1..];
    assert Scanned(pages) == 1 + Scanned(rest);
    if SomePageRemoves(s, rest, ledger, deadline, k) {
      var i :| 0 <= i < Scanned(rest) && Removes(s, rest[i], ledger, deadline, k);
      assert pages[i + 1] == rest[i];
    }
    if SomePageRemoves(s, pages, ledger, deadline, k) && !Removes(s, pages[0], ledger, deadline, k) {
      var i :| 0 <= i < Scanned(pages) && Removes(s, pages[i], ledger, deadline, k);
      assert rest[i - 1] == pages[i];
    }
  }

  lemma {:induction false} LeftIff(s: Store, audits: map<string, Audit>, pages: seq<Batch>, ledger: seq<Row>,
      deadline: int)
    requires SubMap(audits, s.audits)
    ensures forall k :: k in EntriesLeft(s, audits, pages, ledger, deadline) <==>
              k in audits && !SomePageRemoves(s, pages, ledger, deadline, k)
    decreases |pages|
  {
    if pages != [] && pages[0].Page? {
      PageHandledIs(s, audits, pages[0], ledger, deadline);
      LeftIff(s, PageLeft(s, audits, pages[0], ledger, deadline), pages[1..], ledger, deadline);
      forall k { RemovesHead(s, pages, ledger, deadline, k); }
    }
  }

  /** An entry leaves exactly when some page scanned before the first failed SCAN names it when it is due, could
      be read and judged, and either its request has a row, or its customer has no hash, or its script
      answered an amount, and its delete was not lost.  So a failed script keeps its entry for the next job. */
  lemma EntryLeavesIff(s: Store, pages: seq<Batch>, ledger: seq<Row>, deadline: int, k: string)
    requires FrozenSigns(s.cache) && k in s.audits
    ensures
      var end := RunJob(Tally(s, 0, 0), pages, ledger, deadline).store;
      && (k !in end.audits <==>
            exists i :: 0 <= i < Scanned(pages) && (var p := pages[i];
              && k in p.keys && Eligible(s.audits, k, deadline) && p.mgetOk && p.lookupOk && k !in p.deleteLost
              && (InLedger(ledger, RequestOf(k)) ||
                  (k !in p.scriptFails && (s.audits[k].user !in s.cache || s.audits[k].amount.Some?)))))
      && (k in end.audits ==> end.audits[k] == s.audits[k])
  {
    JobAccounts(s, pages, ledger, deadline);
    LeftIff(s, s.audits, pages, ledger, deadline);
    if SomePageRemoves(s, pages, ledger, deadline, k) {
      var i :| 0 <= i < Scanned(pages) && Removes(s, pages[i], ledger, deadline, k);
      assert Succeeds(s, ledger, pages[i], k);
    } else {
      forall i | 0 <= i < Scanned(pages) ensures !Removes(s, pages[i], ledger, deadline, k) {
      }
    }
  }

  /** A failed script leaves its entry and its hash alone and counts as one error. */
  lemma FailedScriptIsInert(s: Store, page: Batch, k: string, ledger: seq<Row>)
    requires Known(s.audits, k) && page.Page? && !InLedger(ledger, RequestOf(k))
    requires k in page.scriptFails || (s.audits[k].user in s.cache && s.audits[k].amount == None)
    ensures ProcessAll(Tally(s, 0, 0), s.audits, [k], ledger, page) == Tally(s, 0, 1)
  {
    assert [k][..0] == [];
    assert ProcessAll(Tally(s, 0, 0), s.audits, [], ledger, page) == Tally(s, 0, 0);
  }

  // ── what an error-free job achieves ────────────────────────────────────────

  /** No failure of any kind. */
  ghost predicate Clean(pages: seq<Batch>) {
    forall p :: p in pages ==> p.Page? && p.mgetOk && p.lookupOk && p.scriptFails == {} && p.deleteLost == {}
  }

  /** No key twice on one page, which SCAN does not promise. */
  ghost predicate NoRepeats(pages: seq<Batch>) {
    forall p :: p in pages && p.Page? ==> Distinct(p.keys)
  }

  ghost predicate NoLostDeletes(pages: seq<Batch>) {
    forall p :: p in pages && p.Page? ==> p.deleteLost == {}
  }

  lemma {:induction false} CandidatesDistinct(audits: map<string, Audit>, keys: seq<string>, deadline: int)
    requires Distinct(keys)
    ensures Distinct(Candidates(audits, keys, deadline))
  {
    if keys != [] {
      var n := |keys| - 1;
      CandidatesDistinct(audits, keys[..n], deadline);
      CandidatesEligible(audits, keys[..n], deadline);
    }
  }

  lemma {:induction false} SuccessesDistinct(s: Store, ledger: seq<Row>, page: Batch, keys: seq<string>)
    requires page.Page? && Distinct(keys)
    ensures Distinct(Successes(s, ledger, page, keys))
  {
    if keys != [] {
      SuccessesDistinct(s, ledger, page, keys[..|keys| - 1]);
    }
  }

  lemma {:induction false} HandledKnown(s: Store, audits: map<string, Audit>, pages: seq<Batch>, ledger: seq<Row>,
      deadline: int)
    requires SubMap(audits, s.audits)
    ensures forall k :: k in Handled(s, audits, pages, ledger, deadline) ==>
              k in audits && Eligible(s.audits, k, deadline)
    decreases |pages|
  {
    if pages != [] && pages[0].Page? {
      PageHandledIs(s, audits, pages[0], ledger, deadline);
      HandledKnown(s, PageLeft(s, audits, pages[0], ledger, deadline), pages[1..], ledger, deadline);
    }
  }

  /** With no key repeated on a page and no delete lost, nothing is dealt with twice, and what is is gone. */
  lemma {:induction false} HandledOnce(s: Store, audits: map<string, Audit>, pages: seq<Batch>, ledger: seq<Row>,
      deadline: int)
    requires SubMap(audits, s.audits) && NoRepeats(pages) && NoLostDeletes(pages)
    ensures Distinct(Handled(s, audits, pages, ledger, deadline))
    ensures EntriesLeft(s, audits, pages, ledger, deadline).Keys ==
            audits.Keys - KeySet(Handled(s, audits, pages, ledger, deadline))
    decreases |pages|
  {
    if pages != [] && pages[0].Page? {
      var page := pages[0];
      assert page in pages && forall p :: p in pages[1..] ==> p in pages;
      var h, left := PageHandled(s, audits, page, ledger, deadline), PageLeft(s, audits, page, ledger, deadline);
      PageHandledIs(s, audits, page, ledger, deadline);
      CandidatesDistinct(audits, page.keys, deadline);
      SuccessesDistinct(s, ledger, page, Candidates(audits, page.keys, deadline));
      HandledOnce(s, left, pages[1..], ledger, deadline);
      HandledKnown(s, left, pages[1..], ledger, deadline);
      DistinctJoin(h, Handled(s, left, pages[1..], ledger, deadline), left);
      assert KeySet(h + Handled(s, left, pages[1..], ledger, deadline)) ==
          KeySet(h) + KeySet(Handled(s, left, pages[1..], ledger, deadline));
    }
  }

  lemma DistinctJoin(a: seq<string>, b: seq<string>, left: map<string, Audit>)
    requires Distinct(a) && Distinct(b) && (forall k :: k in a ==> k !in left) && (forall k :: k in b ==> k in left)
    ensures Distinct(a + b)
  {
    forall i, j | 0 <= i < |a| && 0 <= j < |b| ensures a[i] != b[j] {
      assert a[i] in a && b[j] in b;
    }
  }

  /** The due entries on the pages. */
  ghost function Due(audits: map<string, Audit>, pages: seq<Batch>, deadline: int): set<string> {
    set k | k in audits && Eligible(audits, k, deadline) && exists p :: p in pages && p.Page? && k in p.keys
  }

  /** The first page of an error-free job. */
  lemma CleanPage(s: Store, audits: map<string, Audit>, page: Batch, ledger: seq<Row>, deadline: int)
    requires SubMap(audits, s.audits) && Clean([page]) && PageErrors(s, audits, page, ledger, deadline) == 0
    ensures page.Page? && PageHandled(s, audits, page, ledger, deadline) == Candidates(audits, page.keys, deadline)
    ensures PageLeft(s, audits, page, ledger, deadline) == audits - KeySet(Candidates(audits, page.keys, deadline))
  {
    assert page in [page];
    AllSucceed(s, ledger, page, Candidates(audits, page.keys, deadline));
    var c := KeySet(Candidates(audits, page.keys, deadline));
    assert c - page.deleteLost == c;
  }

  lemma DueHead(audits: map<string, Audit>, pages: seq<Batch>, deadline: int)
    requires pages != [] && pages[0].Page?
    ensures
      var c := KeySet(Candidates(audits, pages[0].keys, deadline));
      Due(audits, pages, deadline) == c + Due(audits - c, pages[1..], deadline)
  {
    CandidatesEligible(audits, pages[0].keys, deadline);
    var c := KeySet(Candidates(audits, pages[0].keys, deadline));
    assert pages[0] in pages && forall p :: p in pages <==> p == pages[0] || p in pages[1..];
    forall k ensures k in Due(audits, pages, deadline) <==> k in c + Due(audits - c, pages[1..], deadline) {
    }
  }

  lemma {:induction false} CleanHandles(s: Store, audits: map<string, Audit>, pages: seq<Batch>, ledger: seq<Row>,
      deadline: int)
    requires SubMap(audits, s.audits) && Clean(pages) && Errors(s, audits, pages, ledger, deadline) == 0
    ensures KeySet(Handled(s, audits, pages, ledger, deadline)) == Due(audits, pages, deadline)
    ensures EntriesLeft(s, audits, pages, ledger, deadline) == audits - Due(audits, pages, deadline)
    decreases |pages|
  {
    if pages == [] {
      assert audits - {} == audits;
    } else {
      assert pages[0] in pages && forall p :: p in pages[1..] ==> p in pages;
      var cands := Candidates(audits, pages[0].keys, deadline);
      CleanPage(s, audits, pages[0], ledger, deadline);
      var left := audits - KeySet(cands);
      CleanHandles(s, left, pages[1..], ledger, deadline);
      DueHead(audits, pages, deadline);
      var rest := Handled(s, left, pages[1..], ledger, deadline);
      KeySetJoin(cands, rest);
      MinusTwice(audits, KeySet(cands), KeySet(rest));
    }
  }

  lemma KeySetJoin(a: seq<string>, b: seq<string>)
    ensures KeySet(a + b) == KeySet(a) + KeySet(b)
  {
  }

  lemma MinusTwice(audits: map<string, Audit>, a: set<string>, b: set<string>)
    ensures audits - a - b == audits - (a + b)
  {
  }

  lemma {:induction false} AllSucceed(s: Store, ledger: seq<Row>, page: Batch, keys: seq<string>)
    requires page.Page? && |Successes(s, ledger, page, keys)| == |keys|
    ensures Successes(s, ledger, page, keys) == keys
  {
    if keys != [] {
      var n := |keys| - 1;
      assert keys == keys[..n] + [keys[n]];
      AllSucceed(s, ledger, page, keys[..n]);
    }
  }

  /** An error-free job, for any paging, repetitions included: exactly the due entries on its pages are gone, and
      they are the ones it dealt with. */
  lemma CleanJob(s: Store, pages: seq<Batch>, ledger: seq<Row>, deadline: int)
    requires FrozenSigns(s.cache) && Clean(pages) && RunJob(Tally(s, 0, 0), pages, ledger, deadline).errors == 0
    ensures
      var end, done := RunJob(Tally(s, 0, 0), pages, ledger, deadline), Handled(s, s.audits, pages, ledger, deadline);
      && Progress(s, end.store, ledger, done) && end.handled == |done|
      && end.store.audits == s.audits - Due(s.audits, pages, deadline)
      && KeySet(done) == Due(s.audits, pages, deadline)
  {
    JobAccounts(s, pages, ledger, deadline);
    CleanHandles(s, s.audits, pages, ledger, deadline);
  }

  // ── when each amount is released once ──────────────────────────────────────

  /** Whatever keys names again asks nothing for u. */
  ghost predicate RepeatsAskNothing(audits: map<string, Audit>, ledger: seq<Row>, keys: seq<string>, u: int) {
    forall i, j :: 0 <= i < j < |keys| && keys[i] == keys[j] ==> WantOf(audits, ledger, keys[j], u) == 0.0
  }

  lemma {:induction false} AskedOnceIff(audits: map<string, Audit>, ledger: seq<Row>, keys: seq<string>, u: int)
    ensures Asked(audits, ledger, keys, u) >= Wanted(audits, ledger, KeySet(keys), u)
    ensures Asked(audits, ledger, keys, u) == Wanted(audits, ledger, KeySet(keys), u) <==>
            RepeatsAskNothing(audits, ledger, keys, u)
  {
    if keys != [] {
      var init, k := keys[..|keys| - 1], keys[|keys| - 1];
      assert keys == init + [k];
      AskedOnceIff(audits, ledger, init, u);
      RepeatsSnoc(audits, ledger, keys, u);
      if k in init {
        assert KeySet(keys) == KeySet(init);
      } else {
        assert KeySet(keys) - {k} == KeySet(init);
        WantedSplit(audits, ledger, KeySet(keys), k, u);
      }
    }
  }

  lemma RepeatsSnoc(audits: map<string, Audit>, ledger: seq<Row>, keys: seq<string>, u: int)
    requires keys != []
    ensures
      var init, k := keys[..|keys| - 1], keys[|keys| - 1];
      RepeatsAskNothing(audits, ledger, keys, u) <==>
      RepeatsAskNothing(audits, ledger, init, u) && (k in init ==> WantOf(audits, ledger, k, u) == 0.0)
  {
    var n := |keys| - 1;
    if RepeatsAskNothing(audits, ledger, keys, u) {
      forall i, j | 0 <= i < j < n && keys[..n][i] == keys[..n][j]
          ensures WantOf(audits, ledger, keys[..n][j], u) == 0.0 {
        assert keys[i] == keys[j];
      }
      if keys[n] in keys[..n] {
        var i :| 0 <= i < n && keys[..n][i] == keys[n];
        assert keys[i] == keys[n];
      }
    } else {
      var i, j :| 0 <= i < j < |keys| && keys[i] == keys[j] && WantOf(audits, ledger, keys[j], u) != 0.0;
      assert keys[..n][i] == keys[i];
      if j < n {
        assert keys[..n][j] == keys[j];
      }
    }
  }

  /** A job, failing or not, takes each unsettled amount it dealt with out of a user's frozen part just once if
      and only if no entry it dealt with twice asks for anything, or the amounts exhaust the frozen part. */
  lemma ReleasedOnceIff(s: Store, pages: seq<Batch>, ledger: seq<Row>, deadline: int, u: int)
    requires FrozenSigns(s.cache) && u in s.cache
    ensures
      var end, done := RunJob(Tally(s, 0, 0), pages, ledger, deadline).store,
          Handled(s, s.audits, pages, ledger, deadline);
      var want := Wanted(s.audits, ledger, KeySet(done), u);
      && u in end.cache
      && (end.cache[u].frozen == Left(s.cache[u].frozen, want) <==>
            RepeatsAskNothing(s.audits, ledger, done, u) || want >= s.cache[u].frozen)
  {
    JobAccounts(s, pages, ledger, deadline);
    AskedOnceIff(s.audits, ledger, Handled(s, s.audits, pages, ledger, deadline), u);
  }

  /** Every due entry there is. */
  ghost function AllDue(s: Store, deadline: int): set<string> {
    set k | k in s.audits && Eligible(s.audits, k, deadline)
  }

  /** What is frozen once every due entry has been dealt with, each once. */
  ghost function Settled(s: Store, ledger: seq<Row>, deadline: int, u: int): Money
    requires u in s.cache
  {
    Left(s.cache[u].frozen, Wanted(s.audits, ledger, AllDue(s, deadline), u))
  }

  ghost predicate Covers(pages: seq<Batch>, s: Store) {
    forall k :: k in s.audits ==> exists p :: p in pages && p.Page? && k in p.keys
  }

  /** Every entry the first job dealt with, then every one the second did. */
  function BothHandled(s: Store, bad: seq<Batch>, good: seq<Batch>, ledger: seq<Row>, earlier: int, deadline: int):
      seq<string>
  {
    var mid := RunJob(Tally(s, 0, 0), bad, ledger, earlier).store;
    Handled(s, s.audits, bad, ledger, earlier) + Handled(mid, mid.audits, good, ledger, deadline)
  }

  lemma ProgressJoin(s: Store, mid: Store, end: Store, ledger: seq<Row>, a: seq<string>, b: seq<string>)
    requires Progress(s, mid, ledger, a) && Progress(mid, end, ledger, b) && FrozenSigns(s.cache)
    ensures Progress(s, end, ledger, a + b)
  {
    assert forall k :: k in b ==> k in KeySet(b);
    assert KeySet(a + b) == KeySet(a) + KeySet(b);
    forall u | u in s.cache
      ensures end.cache[u].frozen == Left(s.cache[u].frozen, Asked(s.audits, ledger, a + b, u))
    {
      AskedFrame(s.audits, mid.audits, ledger, b, u);
      AskedAppend(s.audits, ledger, a, b, u);
      AskedNonNegative(s.audits, ledger, a, u);
      AskedNonNegative(s.audits, ledger, b, u);
    }
  }

  /** A job that fails in any way, then an error-free one over the whole keyspace with the same or a later
      deadline: no due entry is left, and a user's frozen part is that of dealing with each due entry once if
      and only if no entry dealt with twice asks for anything, or the amounts exhaust it. */
  lemma FailedThenCleanIff(s: Store, bad: seq<Batch>, good: seq<Batch>, ledger: seq<Row>, earlier: int, deadline: int,
      u: int)
    requires FrozenSigns(s.cache) && earlier <= deadline && u in s.cache
    requires
      var mid := RunJob(Tally(s, 0, 0), bad, ledger, earlier).store;
      Clean(good) && Covers(good, mid) && RunJob(Tally(mid, 0, 0), good, ledger, deadline).errors == 0
    ensures
      var mid := RunJob(Tally(s, 0, 0), bad, ledger, earlier).store;
      var end, done := RunJob(Tally(mid, 0, 0), good, ledger, deadline).store,
          BothHandled(s, bad, good, ledger, earlier, deadline);
      && (forall k :: k in end.audits <==> k in s.audits && !Eligible(s.audits, k, deadline))
      && u in end.cache
      && (end.cache[u].frozen == Settled(s, ledger, deadline, u) <==>
            RepeatsAskNothing(s.audits, ledger, done, u)
            || Wanted(s.audits, ledger, KeySet(done), u) >= s.cache[u].frozen)
  {
    var mid := RunJob(Tally(s, 0, 0), bad, ledger, earlier).store;
    BothJobs(s, bad, good, ledger, earlier, deadline);
    AskedOnceIff(s.audits, ledger, BothHandled(s, bad, good, ledger, earlier, deadline), u);
  }

  lemma BothJobs(s: Store, bad: seq<Batch>, good: seq<Batch>, ledger: seq<Row>, earlier: int, deadline: int)
    requires FrozenSigns(s.cache) && earlier <= deadline
    requires
      var mid := RunJob(Tally(s, 0, 0), bad, ledger, earlier).store;
      Clean(good) && Covers(good, mid) && RunJob(Tally(mid, 0, 0), good, ledger, deadline).errors == 0
    ensures
      var mid := RunJob(Tally(s, 0, 0), bad, ledger, earlier).store;
      var end, done := RunJob(Tally(mid, 0, 0), good, ledger, deadline).store,
          BothHandled(s, bad, good, ledger, earlier, deadline);
      && Progress(s, end, ledger, done)
      && (forall k :: k in end.audits <==> k in s.audits && !Eligible(s.audits, k, deadline))
      && KeySet(done) == AllDue(s, deadline)
  {
    var mid := RunJob(Tally(s, 0, 0), bad, ledger, earlier).store;
    JobAccounts(s, bad, ledger, earlier);
    LeftIff(s, s.audits, bad, ledger, earlier);
    HandledKnown(s, s.audits, bad, ledger, earlier);
    MidSigns(s, mid, ledger, Handled(s, s.audits, bad, ledger, earlier));
    CleanJob(mid, good, ledger, deadline);
    var a, b := Handled(s, s.audits, bad, ledger, earlier), Handled(mid, mid.audits, good, ledger, deadline);
    ProgressJoin(s, mid, RunJob(Tally(mid, 0, 0), good, ledger, deadline).store, ledger, a, b);
    GoneWasHandled(s, s.audits, bad, ledger, earlier);
    forall k ensures k in KeySet(a + b) <==> k in s.audits && Eligible(s.audits, k, deadline) {
      assert k in b <==> k in KeySet(b);
      assert k in mid.audits && Eligible(mid.audits, k, deadline) <==> k in KeySet(b);
    }
  }

  lemma MidSigns(s: Store, mid: Store, ledger: seq<Row>, done: seq<string>)
    requires Progress(s, mid, ledger, done)
    ensures FrozenSigns(mid.cache)
  {
  }

  lemma {:induction false} GoneWasHandled(s: Store, audits: map<string, Audit>, pages: seq<Batch>, ledger: seq<Row>,
      deadline: int)
    requires SubMap(audits, s.audits)
    ensures forall k :: k in audits && k !in EntriesLeft(s, audits, pages, ledger, deadline) ==>
              k in Handled(s, audits, pages, ledger, deadline)
    decreases |pages|
  {
    if pages != [] && pages[0].Page? {
      PageHandledIs(s, audits, pages[0], ledger, deadline);
      GoneWasHandled(s, PageLeft(s, audits, pages[0], ledger, deadline), pages[1..], ledger, deadline);
    }
  }

  /** So failures do no harm as long as no page repeats a key and no delete is lost: the failing job and the
      error-free one after it end as an error-free job over the whole keyspace does alone. */
  lemma FailuresDoNoHarm(s: Store, bad: seq<Batch>, good: seq<Batch>, alone: seq<Batch>, ledger: seq<Row>,
      earlier: int, deadline: int)
    requires FrozenSigns(s.cache) && earlier <= deadline
    requires NoRepeats(bad) && NoLostDeletes(bad) && NoRepeats(good) && NoRepeats(alone)
    requires
      var mid := RunJob(Tally(s, 0, 0), bad, ledger, earlier).store;
      Clean(good) && Covers(good, mid) && RunJob(Tally(mid, 0, 0), good, ledger, deadline).errors == 0
    requires Clean(alone) && Covers(alone, s) && RunJob(Tally(s, 0, 0), alone, ledger, deadline).errors == 0
    ensures
      var mid := RunJob(Tally(s, 0, 0), bad, ledger, earlier).store;
      RunJob(Tally(mid, 0, 0), good, ledger, deadline).store == RunJob(Tally(s, 0, 0), alone, ledger, deadline).store
  {
    var mid := RunJob(Tally(s, 0, 0), bad, ledger, earlier).store;
    var x, y := RunJob(Tally(mid, 0, 0), good, ledger, deadline).store,
        RunJob(Tally(s, 0, 0), alone, ledger, deadline).store;
    BothJobs(s, bad, good, ledger, earlier, deadline);
    NothingTwice(s, bad, good, ledger, earlier, deadline);
    AloneIs(s, alone, ledger, deadline);
    forall u | u in s.cache ensures x.cache[u] == y.cache[u] {
      AskedOnceIff(s.audits, ledger, BothHandled(s, bad, good, ledger, earlier, deadline), u);
    }
    assert x.cache == y.cache && x.audits == y.audits;
  }

  lemma NothingTwice(s: Store, bad: seq<Batch>, good: seq<Batch>, ledger: seq<Row>, earlier: int, deadline: int)
    requires FrozenSigns(s.cache) && NoRepeats(bad) && NoLostDeletes(bad) && NoRepeats(good) && Clean(good)
    ensures Distinct(BothHandled(s, bad, good, ledger, earlier, deadline))
  {
    var mid := RunJob(Tally(s, 0, 0), bad, ledger, earlier).store;
    JobAccounts(s, bad, ledger, earlier);
    HandledOnce(s, s.audits, bad, ledger, earlier);
    HandledOnce(mid, mid.audits, good, ledger, deadline);
    HandledKnown(mid, mid.audits, good, ledger, deadline);
    var a := Handled(s, s.audits, bad, ledger, earlier);
    assert forall k :: k in a ==> k in KeySet(a);
    assert forall k :: k in a ==> k !in mid.audits.Keys;
    DistinctJoin(a, Handled(mid, mid.audits, good, ledger, deadline), mid.audits);
  }

  /** One error-free job over the whole keyspace, no page of which repeats a key. */
  lemma AloneIs(s: Store, pages: seq<Batch>, ledger: seq<Row>, deadline: int)
    requires FrozenSigns(s.cache) && NoRepeats(pages) && Clean(pages) && Covers(pages, s)
    requires RunJob(Tally(s, 0, 0), pages, ledger, deadline).errors == 0
    ensures
      var end := RunJob(Tally(s, 0, 0), pages, ledger, deadline).store;
      && SubMap(end.audits, s.audits)
      && (forall k :: k in end.audits <==> k in s.audits && !Eligible(s.audits, k, deadline))
      && end.cache.Keys == s.cache.Keys
      && forall u :: u in s.cache ==>
           && end.cache[u].avail + end.cache[u].frozen == s.cache[u].avail + s.cache[u].frozen
           && end.cache[u].frozen == Settled(s, ledger, deadline, u)
  {
    CleanJob(s, pages, ledger, deadline);
    HandledOnce(s, s.audits, pages, ledger, deadline);
    var done := Handled(s, s.audits, pages, ledger, deadline);
    assert Due(s.audits, pages, deadline) == AllDue(s, deadline);
    forall u | u in s.cache
        ensures Left(s.cache[u].frozen, Asked(s.audits, ledger, done, u)) == Settled(s, ledger, deadline, u) {
      AskedOnceIff(s.audits, ledger, done, u);
    }
  }

  lemma ReleasesOne(key: string, u: int, a: Money, at: int, h: Hash, audits: map<string, Audit>, page: Batch)
    requires HasPrefix(key) && 0.0 < a <= h.frozen && page.Page? && page.scriptFails == {} && page.deleteLost == {}
    ensures ProcessOne(Store(map[u := h], audits), key, Audit(u, Some(a), at), [], page) ==
            (Store(map[u := Hash(h.avail + a, h.frozen - a)], audits - {key}), true)
  {
    assert map[u := h][u := Hash(h.avail + a, h.frozen - a)] == map[u := Hash(h.avail + a, h.frozen - a)];
  }

  /** One leaked reservation of a, on a page that names its key twice, of a customer with other reservations:
      2a comes free, the second a at the expense of a reservation that is still running. */
  lemma RepeatReleasesTwice(key: string, u: int, a: Money, at: int, h: Hash, deadline: int)
    requires HasPrefix(key) && at <= deadline && a > 0.0 && h.frozen >= 2.0 * a
    ensures
      var s := Store(map[u := h], map[key := Audit(u, Some(a), at)]);
      var end := RunJob(Tally(s, 0, 0), [Page([key, key], true, true, {}, {})], [], deadline);
      end == Tally(Store(map[u := Hash(h.avail + 2.0 * a, h.frozen - 2.0 * a)], map[]), 2, 0)
  {
    var s := Store(map[u := h], map[key := Audit(u, Some(a), at)]);
    var page := Page([key, key], true, true, {}, {});
    var keys := [key, key];
    assert keys[..1] == [key] && [key][..0] == [];
    assert Candidates(s.audits, [], deadline) == [];
    assert Candidates(s.audits, [key], deadline) == [] + [key];
    assert Candidates(s.audits, keys, deadline) == [] + [key] + [key] == keys;
    var t := Tally(s, 0, 0);
    assert ProcessAll(t, s.audits, [], [], page) == t;
    var h1 := Hash(h.avail + a, h.frozen - a);
    ReleasesOne(key, u, a, at, h, s.audits, page);
    ReleasesOne(key, u, a, at, h1, s.audits - {key}, page);
    assert s.audits - {key} == map[] && s.audits - {key} - {key} == map[];
    assert ProcessAll(t, s.audits, [key], [], page) == Tally(Store(map[u := h1], map[]), 1, 0);
    assert ProcessAll(t, s.audits, keys, [], page) ==
        Tally(Store(map[u := Hash(h1.avail + a, h1.frozen - a)], map[]), 2, 0);
    assert [page][1..] == [];
  }

  /** The same with a lost delete, which no job reports: the next one releases the amount again. */
  lemma LostDeleteReleasesTwice(key: string, u: int, a: Money, at: int, h: Hash, deadline: int)
    requires HasPrefix(key) && at <= deadline && a > 0.0 && h.frozen >= 2.0 * a
    ensures
      var s := Store(map[u := h], map[key := Audit(u, Some(a), at)]);
      var first := RunJob(Tally(s, 0, 0), [Page([key], true, true, {}, {key})], [], deadline);
      var second := RunJob(Tally(first.store, 0, 0), [Page([key], true, true, {}, {})], [], deadline);
      && first == Tally(Store(map[u := Hash(h.avail + a, h.frozen - a)], s.audits), 1, 0)
      && second == Tally(Store(map[u := Hash(h.avail + 2.0 * a, h.frozen - 2.0 * a)], map[]), 1, 0)
  {
    var audits := map[key := Audit(u, Some(a), at)];
    var h1 := Hash(h.avail + a, h.frozen - a);
    OneEntryJob(key, u, a, at, h, deadline, true);
    OneEntryJob(key, u, a, at, h1, deadline, false);
    assert Hash(h1.avail + a, h1.frozen - a) == Hash(h.avail + 2.0 * a, h.frozen - 2.0 * a);
  }

  lemma OneEntryJob(key: string, u: int, a: Money, at: int, h: Hash, deadline: int, lost: bool)
    requires HasPrefix(key) && at <= deadline && 0.0 < a <= h.frozen
    ensures
      var audits := map[key := Audit(u, Some(a), at)];
      RunJob(Tally(Store(map[u := h], audits), 0, 0), [Page([key], true, true, {}, if lost then {key} else {})], [],
          deadline) ==
      Tally(Store(map[u := Hash(h.avail + a, h.frozen - a)], if lost then audits else map[]), 1, 0)
  {
    var s := Store(map[u := h], map[key := Audit(u, Some(a), at)]);
    var page := Page([key], true, true, {}, if lost then {key} else {});
    var t := Tally(s, 0, 0);
    assert [key][..0] == [] && [page][1..] == [];
    assert Candidates(s.audits, [], deadline) == [];
    assert Candidates(s.audits, [key], deadline) == [] + [key];
    assert ProcessAll(t, s.audits, [], [], page) == t;
    assert map[u := h][u := Hash(h.avail + a, h.frozen - a)] == map[u := Hash(h.avail + a, h.frozen - a)];
    assert s.audits - {key} == map[];
    assert ProcessAll(t, s.audits, [key], [], page) ==
        Tally(Store(map[u := Hash(h.avail + a, h.frozen - a)], if lost then s.audits else map[]), 1, 0);
  }

  lemma SomeMember(keys: seq<string>)
    ensures keys == [] || exists k :: k in keys
  {
    if keys != [] {
      assert keys[0] in keys;
    }
  }

  lemma {:induction false} NothingDueNothingDone(t: Tally, pages: seq<Batch>, ledger: seq<Row>, deadline: int)
    requires forall k :: !Eligible(t.store.audits, k, deadline)
    ensures RunJob(t, pages, ledger, deadline).store == t.store
    decreases |pages|
  {
    if pages != [] && pages[0].Page? {
      CandidatesEligible(t.store.audits, pages[0].keys, deadline);
      SomeMember(Candidates(t.store.audits, pages[0].keys, deadline));
      NothingDueNothingDone(RunPage(t, pages[0], ledger, deadline), pages[1..], ledger, deadline);
    }
  }

  /** Two error-free jobs with one deadline that scan the whole keyspace end alike, however SCAN pages it, as
      long as no page repeats a key. */
  lemma ReclaimConverges(s: Store, pages: seq<Batch>, pages': seq<Batch>, ledger: seq<Row>, deadline: int)
    requires FrozenSigns(s.cache) && NoRepeats(pages) && NoRepeats(pages')
    requires Clean(pages) && Covers(pages, s) && RunJob(Tally(s, 0, 0), pages, ledger, deadline).errors == 0
    requires Clean(pages') && Covers(pages', s) && RunJob(Tally(s, 0, 0), pages', ledger, deadline).errors == 0
    ensures RunJob(Tally(s, 0, 0), pages', ledger, deadline).store ==
            RunJob(Tally(s, 0, 0), pages, ledger, deadline).store
  {
    AloneIs(s, pages, ledger, deadline);
    AloneIs(s, pages', ledger, deadline);
    var a, b := RunJob(Tally(s, 0, 0), pages, ledger, deadline).store,
        RunJob(Tally(s, 0, 0), pages', ledger, deadline).store;
    forall u | u in a.cache ensures a.cache[u] == b.cache[u] {}
    assert a.cache == b.cache && a.audits == b.audits;
  }

  /** After an error-free job over the whole keyspace a further job, failing or not, with the same or an earlier
      deadline changes nothing; a later deadline may make more entries due. */
  lemma FurtherJobIdle(s: Store, pages: seq<Batch>, more: seq<Batch>, ledger: seq<Row>, deadline: int, earlier: int)
    requires FrozenSigns(s.cache) && earlier <= deadline
    requires Clean(pages) && Covers(pages, s) && RunJob(Tally(s, 0, 0), pages, ledger, deadline).errors == 0
    ensures
      var s' := RunJob(Tally(s, 0, 0), pages, ledger, deadline).store;
      RunJob(Tally(s', 0, 0), more, ledger, earlier).store == s'
  {
    CleanJob(s, pages, ledger, deadline);
    var a := RunJob(Tally(s, 0, 0), pages, ledger, deadline).store;
    forall k | Eligible(s.audits, k, deadline) ensures k in Due(s.audits, pages, deadline) {
      assert k in s.audits;
    }
    NothingDueNothingDone(Tally(a, 0, 0), more, ledger, earlier);
  }
}
