/** Route planning: the fallback chain times the usable channels, with memoised alias lookups. */
module Router {
  import opened Sequences

  datatype Channel = Channel(
    id: int,
    status: string,
    schedulable: bool,
    circuitState: string,
    circuitOpenUntil: Option<int>,
    rateLimitResetAt: Option<int>,
    overloadUntil: Option<int>,
    tempUnschedulableUntil: Option<int>,
    expiresAt: Option<int>)

  /** channelId None: a mapping for every channel. */
  datatype Mapping = Mapping(channelId: Option<int>, upstream: string)

  datatype Attempt = Attempt(model: string, channel: Channel, upstream: string)

  predicate Waiting(until: Option<int>, now: int) {
    until.Some? && now < until.value
  }

  predicate UsableAt(c: Channel, now: int) {
    && c.status == "active" && c.schedulable && c.circuitState != "open"
    && !Waiting(c.circuitOpenUntil, now) && !Waiting(c.rateLimitResetAt, now)
    && !Waiting(c.overloadUntil, now) && !Waiting(c.tempUnschedulableUntil, now)
    && !(c.expiresAt.Some? && now > c.expiresAt.value)
  }

  predicate Eligible(c: Channel) {
    c.status == "active" && c.schedulable && c.circuitState != "open"
  }

  /** The four instants a channel may be held back until. */
  function Holds(c: Channel): seq<Option<int>> {
    [c.circuitOpenUntil, c.rateLimitResetAt, c.overloadUntil, c.tempUnschedulableUntil]
  }

  /** A channel is usable over one stretch of time: never unless it is active, schedulable and closed; not
      before the last of its four holds ends; from that very instant on; up to and including its expiry. */
  lemma UsableStretch(c: Channel, now: int)
    ensures UsableAt(c, now) ==> Eligible(c)
    ensures Eligible(c) ==> (UsableAt(c, now) <==>
              && (forall h :: h in Holds(c) && h.Some? ==> h.value <= now)
              && (c.expiresAt.Some? ==> now <= c.expiresAt.value))
    ensures forall a, b :: a <= now <= b && UsableAt(c, a) && UsableAt(c, b) ==> UsableAt(c, now)
  {
    var hs := Holds(c);
    assert hs[0] in hs && hs[1] in hs && hs[2] in hs && hs[3] in hs;
  }

  /** The first mapping declared for exactly this target. */
  function FirstFor(rows: seq<Mapping>, target: Option<int>): Option<string> {
    if rows == [] then None
    else if rows[0].channelId == target then Some(rows[0].upstream)
    else FirstFor(rows[1..], target)
  }

  function ResolveUpstream(rows: seq<Mapping>, channelId: int, alias: string): string {
    var exact, wide := FirstFor(rows, Some(channelId)), FirstFor(rows, None);
    if exact.Some? then exact.value else if wide.Some? then wide.value else alias
  }

  lemma {:induction false} FirstForAt(rows: seq<Mapping>, target: Option<int>) returns (i: nat)
    ensures i <= |rows| && (forall k :: 0 <= k < i ==> rows[k].channelId != target)
    ensures if i == |rows| then FirstFor(rows, target) == None
            else rows[i].channelId == target && FirstFor(rows, target) == Some(rows[i].upstream)
  {
    if rows == [] || rows[0].channelId == target {
      i := 0;
    } else {
      i := FirstForAt(rows[1..], target);
      i := i + 1;
    }
  }

  /** A channel's own mapping wins over any general one, wherever it stands; the alias passes through
      exactly when neither kind exists, or when a mapping says so. */
  lemma ResolvePrecedence(rows: seq<Mapping>, channelId: int, alias: string)
    ensures (exists i :: 0 <= i < |rows| && rows[i].channelId == Some(channelId)) ==>
              exists i :: 0 <= i < |rows| &&
                  rows[i] == Mapping(Some(channelId), ResolveUpstream(rows, channelId, alias))
                          && forall k :: 0 <= k < i ==> rows[k].channelId != Some(channelId)
    ensures (forall i :: 0 <= i < |rows| ==> rows[i].channelId != Some(channelId)) &&
            (exists i :: 0 <= i < |rows| && rows[i].channelId == None) ==>
              exists i :: 0 <= i < |rows| && rows[i] == Mapping(None, ResolveUpstream(rows, channelId, alias))
                          && forall k :: 0 <= k < i ==> rows[k].channelId != None
    ensures (forall i :: 0 <= i < |rows| ==> rows[i].channelId != Some(channelId) && rows[i].channelId != None) ==>
              ResolveUpstream(rows, channelId, alias) == alias
  {
    var i := FirstForAt(rows, Some(channelId));
    var j := FirstForAt(rows, None);
    if i < |rows| {
      assert rows[i] == Mapping(Some(channelId), ResolveUpstream(rows, channelId, alias));
    } else if j < |rows| {
      assert rows[j] == Mapping(None, ResolveUpstream(rows, channelId, alias));
    }
  }

  // ── the plan ───────────────────────────────────────────────────────────────

  /** One model over the channels, looking the alias up afresh for every usable channel. */
  function Expand(model: string, chans: seq<Channel>, now: int,
      lookup: string -> Option<seq<Mapping>>): Option<seq<Attempt>> {
    if chans == [] then Some([])
    else
      var n := |chans| - 1;
      var rest := Expand(model, chans[..n], now, lookup);
      if rest == None || !UsableAt(chans[n], now) then rest
      else if lookup(model) == None then None
      else Some(rest.value + [Attempt(model, chans[n], ResolveUpstream(lookup(model).value, chans[n].id, model))])
  }

  /** The plain nested expansion; None when some lookup fails. */
  function ExpandAll(models: seq<string>, chans: seq<Channel>, now: int,
      lookup: string -> Option<seq<Mapping>>): Option<seq<Attempt>> {
    if models == [] then Some([])
    else
      var n := |models| - 1;
      var rest := ExpandAll(models[..n], chans, now, lookup);
      if rest == None then None
      else
        var last := Expand(models[n], chans, now, lookup);
        if last == None then None else Some(rest.value + last.value)
  }

  predicate AnyUsable(chans: seq<Channel>, now: int) {
    exists i :: 0 <= i < |chans| && UsableAt(chans[i], now)
  }

  lemma {:induction false} ExpandFails(model: string, chans: seq<Channel>, now: int,
      lookup: string -> Option<seq<Mapping>>)
    ensures Expand(model, chans, now, lookup) == None <==> AnyUsable(chans, now) && lookup(model) == None
  {
    if chans != [] {
      var n := |chans| - 1;
      ExpandFails(model, chans[..n], now, lookup);
      if AnyUsable(chans[..n], now) {
        var i :| 0 <= i < n && UsableAt(chans[..n][i], now);
        assert UsableAt(chans[i], now);
      }
      if AnyUsable(chans, now) && !UsableAt(chans[n], now) {
        var i :| 0 <= i < |chans| && UsableAt(chans[i], now);
        assert UsableAt(chans[..n][i], now);
      }
    }
  }

  /** The plan fails exactly when a channel is usable and some model's mappings cannot be read. */
  lemma {:induction false} PlanFailsIff(models: seq<string>, chans: seq<Channel>, now: int,
      lookup: string -> Option<seq<Mapping>>)
    ensures ExpandAll(models, chans, now, lookup) == None <==>
            AnyUsable(chans, now) && exists m :: m in models && lookup(m) == None
  {
    if models != [] {
      var n := |models| - 1;
      assert models == models[..n] + [models[n]];
      PlanFailsIff(models[..n], chans, now, lookup);
      ExpandFails(models[n], chans, now, lookup);
    }
  }

  /** The queries made once a name has been needed, or not. */
  function Asked(lookups: seq<string>, name: string, needed: bool): seq<string> {
    if needed && name !in lookups then lookups + [name] else lookups
  }

  lemma AskedAgain(lookups: seq<string>, name: string, needed: bool)
    ensures Asked(Asked(lookups, name, needed), name, true) == Asked(lookups, name, true)
  {
  }

  /** One alias through the memo: the catalogue is asked only when the memo has no answer. */
  method RowsFor(name: string, lookup: string -> Option<seq<Mapping>>, memo0: map<string, seq<Mapping>>,
      lookups0: seq<string>)
    returns (rows: Option<seq<Mapping>>, memo: map<string, seq<Mapping>>, lookups: seq<string>)
    requires Memoised(memo0, lookups0, lookup)
    ensures rows == lookup(name)
    ensures Distinct(lookups) && lookups == Asked(lookups0, name, true)
    ensures rows.Some? ==> Memoised(memo, lookups, lookup) && name in memo
  {
    memo, lookups := memo0, lookups0;
    if name in memo {
      return Some(memo[name]), memo, lookups;
    }
    lookups := lookups + [name];
    rows := lookup(name);
    if rows.Some? {
      memo := memo[name := rows.value];
    }
  }

  lemma ExpandSnoc(model: string, chans: seq<Channel>, j: nat, now: int, lookup: string -> Option<seq<Mapping>>)
    requires j < |chans|
    ensures
      var rest := Expand(model, chans[..j], now, lookup);
      Expand(model, chans[..j + 1], now, lookup) ==
        if rest == None || !UsableAt(chans[j], now) then rest
        else if lookup(model) == None then None
        else Some(rest.value + [Attempt(model, chans[j], ResolveUpstream(lookup(model).value, chans[j].id, model))])
  {
    assert chans[..j + 1][..j] == chans[..j];
  }

  /** The inner loop: one model over the channels. */
  method PlanModel(name: string, chans: seq<Channel>, now: int, lookup: string -> Option<seq<Mapping>>,
      memo0: map<string, seq<Mapping>>, lookups0: seq<string>)
    returns (part: Option<seq<Attempt>>, memo: map<string, seq<Mapping>>, lookups: seq<string>)
    requires Memoised(memo0, lookups0, lookup)
    ensures part == Expand(name, chans, now, lookup)
    ensures Distinct(lookups) && lookups == Asked(lookups0, name, AnyUsable(chans, now))
    ensures part.Some? ==> Memoised(memo, lookups, lookup)
  {
    memo, lookups := memo0, lookups0;
    var plan := [];
    for j := 0 to |chans|
      invariant Expand(name, chans[..j], now, lookup) == Some(plan)
      invariant Memoised(memo, lookups, lookup)
      invariant lookups == Asked(lookups0, name, AnyUsable(chans[..j], now))
    {
      ExpandSnoc(name, chans, j, now, lookup);
      UsableSnoc(chans, j, now);
      if UsableAt(chans[j], now) {
        AskedAgain(lookups0, name, AnyUsable(chans[..j], now));
        var rows;
        rows, memo, lookups := RowsFor(name, lookup, memo, lookups);
        if rows == None {
          ExpandFails(name, chans, now, lookup);
          part := None;
          return;
        }
        var up := ResolveUpstream(rows.value, chans[j].id, name);
        plan := plan + [Attempt(name, chans[j], up)];
      }
    }
    assert chans[..|chans|] == chans;
    part := Some(plan);
  }

  /** Plan as it runs, with a memo per alias.  lookups lists the catalogue queries it made, in order. */
  method Plan(models: seq<string>, chans: seq<Channel>, now: int, lookup: string -> Option<seq<Mapping>>)
    returns (attempts: Option<seq<Attempt>>, lookups: seq<string>)
    ensures attempts == ExpandAll(models, chans, now, lookup)
    ensures Distinct(lookups) && forall m :: m in lookups ==> m in models
    ensures attempts.Some? ==> lookups == if AnyUsable(chans, now) then FirstOccurrences(models) else []
  {
    lookups := [];
    var memo: map<string, seq<Mapping>> := map[];
    var plan := [];
    for i := 0 to |models|
      invariant ExpandAll(models[..i], chans, now, lookup) == Some(plan)
      invariant Memoised(memo, lookups, lookup)
      invariant lookups == if AnyUsable(chans, now) then FirstOccurrences(models[..i]) else []
    {
      assert models[..i + 1] == models[..i] + [models[i]];
      FirstOccurrencesSnoc(models[..i], models[i]);
      var part;
      part, memo, lookups := PlanModel(models[i], chans, now, lookup, memo, lookups);
      if part == None {
        ExpandFails(models[i], chans, now, lookup);
        PlanFailsIff(models, chans, now, lookup);
        assert models[i] in models;
        attempts := None;
        return;
      }
      plan := plan + part.value;
    }
    assert models[..|models|] == models;
    attempts := Some(plan);
  }

  /** The memo holds exactly the answers of the queries made, none made twice. */
  ghost predicate Memoised(memo: map<string, seq<Mapping>>, lookups: seq<string>,
      lookup: string -> Option<seq<Mapping>>) {
    && Distinct(lookups)
    && (forall m :: m in memo <==> m in lookups)
    && (forall m :: m in memo ==> lookup(m) == Some(memo[m]))
  }

  lemma UsableSnoc(chans: seq<Channel>, j: nat, now: int)
    requires j < |chans|
    ensures AnyUsable(chans[..j + 1], now) <==> AnyUsable(chans[..j], now) || UsableAt(chans[j], now)
    ensures AnyUsable(chans[..j + 1], now) ==> AnyUsable(chans, now)
  {
    if AnyUsable(chans[..j + 1], now) {
      var i :| 0 <= i < j + 1 && UsableAt(chans[..j + 1][i], now);
      assert UsableAt(chans[i], now);
      assert i < j ==> UsableAt(chans[..j][i], now);
    }
    if AnyUsable(chans[..j], now) {
      var i :| 0 <= i < j && UsableAt(chans[..j][i], now);
      assert UsableAt(chans[..j + 1][i], now);
    }
    if UsableAt(chans[j], now) {
      assert UsableAt(chans[..j + 1][j], now);
    }
  }

  ghost predicate PairsDistinct(a: seq<Attempt>) {
    forall i, j :: 0 <= i < j < |a| ==> a[i].model != a[j].model || a[i].channel.id != a[j].channel.id
  }

  lemma {:induction false} ExpandPairs(model: string, chans: seq<Channel>, now: int,
      lookup: string -> Option<seq<Mapping>>)
    requires Expand(model, chans, now, lookup).Some?
    requires forall i, j :: 0 <= i < j < |chans| ==> chans[i].id != chans[j].id
    ensures forall a :: a in Expand(model, chans, now, lookup).value ==>
            a.model == model && a.channel in chans && UsableAt(a.channel, now)
    ensures PairsDistinct(Expand(model, chans, now, lookup).value)
  {
    if chans != [] {
      var n := |chans| - 1;
      ExpandPairs(model, chans[..n], now, lookup);
      var rest := Expand(model, chans[..n], now, lookup).value;
      forall a | a in rest ensures a.channel in chans && a.channel.id != chans[n].id {
        var k :| 0 <= k < n && chans[..n][k] == a.channel;
        assert chans[k] == a.channel;
      }
    }
  }

  /** On a duplicate-free chain over distinct channels no (model, channel) pair is ever tried twice, and
      every planned channel is one the group can see and may use now. */
  lemma {:induction false} PlanNeverRepeats(models: seq<string>, chans: seq<Channel>, now: int,
      lookup: string -> Option<seq<Mapping>>)
    requires ExpandAll(models, chans, now, lookup).Some? && Distinct(models)
    requires forall i, j :: 0 <= i < j < |chans| ==> chans[i].id != chans[j].id
    ensures forall a :: a in ExpandAll(models, chans, now, lookup).value ==>
            a.model in models && a.channel in chans && UsableAt(a.channel, now)
    ensures PairsDistinct(ExpandAll(models, chans, now, lookup).value)
  {
    if models != [] {
      var n := |models| - 1;
      PlanNeverRepeats(models[..n], chans, now, lookup);
      ExpandPairs(models[n], chans, now, lookup);
      assert models[n] !in models[..n];
      PairsJoin(ExpandAll(models[..n], chans, now, lookup).value, Expand(models[n], chans, now, lookup).value,
          models[n]);
    }
  }

  lemma PairsJoin(a: seq<Attempt>, b: seq<Attempt>, model: string)
    requires PairsDistinct(a) && PairsDistinct(b)
    requires (forall x :: x in a ==> x.model != model) && (forall x :: x in b ==> x.model == model)
    ensures PairsDistinct(a + b)
  {
    assert forall i :: 0 <= i < |a| ==> a[i] in a;
    assert forall i :: 0 <= i < |b| ==> b[i] in b;
  }

  /** Model by model, then channel by channel. */
  predicate Before(a: (nat, nat), b: (nat, nat)) {
    a.0 < b.0 || (a.0 == b.0 && a.1 < b.1)
  }

  /** at lists, in that order, exactly the pairs of one of the first m models and a usable channel. */
  ghost predicate Ordered(at: seq<(nat, nat)>, chans: seq<Channel>, now: int, m: nat) {
    && (forall k, l :: 0 <= k < l < |at| ==> Before(at[k], at[l]))
    && (forall i: nat, j: nat :: (i, j) in at <==> i < m && j < |chans| && UsableAt(chans[j], now))
  }

  /** The plan's entries are those of the pairs in at. */
  ghost predicate Lists(plan: seq<Attempt>, at: seq<(nat, nat)>, models: seq<string>, chans: seq<Channel>, now: int,
      lookup: string -> Option<seq<Mapping>>) {
    && |plan| == |at|
    && forall k :: 0 <= k < |at| ==>
         at[k].0 < |models| && Entry(plan[k], at[k].1, models[at[k].0], chans, now, lookup)
  }

  /** js lists, in order, exactly the usable channels; entry k of the plan is its k-th. */
  ghost predicate ListsModel(plan: seq<Attempt>, js: seq<nat>, model: string, chans: seq<Channel>, now: int,
      lookup: string -> Option<seq<Mapping>>) {
    && |plan| == |js|
    && (forall k :: 0 <= k < |js| ==> Entry(plan[k], js[k], model, chans, now, lookup))
    && (forall k, l :: 0 <= k < l < |js| ==> js[k] < js[l])
    && (forall j: nat :: j < |chans| && UsableAt(chans[j], now) ==> j in js)
  }

  predicate Entry(a: Attempt, j: nat, model: string, chans: seq<Channel>, now: int,
      lookup: string -> Option<seq<Mapping>>) {
    && j < |chans| && UsableAt(chans[j], now) && lookup(model).Some?
    && a == Attempt(model, chans[j], ResolveUpstream(lookup(model).value, chans[j].id, model))
  }

  lemma ModelSnoc(plan: seq<Attempt>, js: seq<nat>, a: Attempt, model: string, chans: seq<Channel>, now: int,
      lookup: string -> Option<seq<Mapping>>)
    requires chans != [] && ListsModel(plan, js, model, chans[..|chans| - 1], now, lookup)
    ensures !UsableAt(chans[|chans| - 1], now) ==> ListsModel(plan, js, model, chans, now, lookup)
    ensures Entry(a, |chans| - 1, model, chans, now, lookup) ==>
              ListsModel(plan + [a], js + [|chans| - 1], model, chans, now, lookup)
  {
    var n := |chans| - 1;
    forall k | 0 <= k < |js| ensures Entry(plan[k], js[k], model, chans, now, lookup) && js[k] < n {
      assert Entry(plan[k], js[k], model, chans[..n], now, lookup);
    }
    forall j: nat | j < n && UsableAt(chans[j], now) ensures j in js {
      assert chans[..n][j] == chans[j];
    }
    assert (js + [n])[|js|] == n;
  }

  lemma {:induction false} ExpandOrder(model: string, chans: seq<Channel>, now: int,
      lookup: string -> Option<seq<Mapping>>) returns (js: seq<nat>)
    requires Expand(model, chans, now, lookup).Some?
    ensures ListsModel(Expand(model, chans, now, lookup).value, js, model, chans, now, lookup)
  {
    if chans == [] {
      js := [];
    } else {
      var n := |chans| - 1;
      js := ExpandOrder(model, chans[..n], now, lookup);
      var plan, whole := Expand(model, chans[..n], now, lookup).value, Expand(model, chans, now, lookup).value;
      if UsableAt(chans[n], now) {
        ModelSnoc(plan, js, whole[|plan|], model, chans, now, lookup);
        js := js + [n];
      } else {
        ModelSnoc(plan, js, Attempt(model, chans[n], ""), model, chans, now, lookup);
      }
    }
  }

  /** The pairs of model number i. */
  function PairsOf(i: nat, js: seq<nat>): (r: seq<(nat, nat)>)
    ensures |r| == |js| && forall k :: 0 <= k < |js| ==> r[k] == (i, js[k])
  {
    seq(|js|, k requires 0 <= k < |js| => (i, js[k]))
  }

  lemma OrderJoin(before: seq<(nat, nat)>, js: seq<nat>, chans: seq<Channel>, now: int, n: nat)
    requires Ordered(before, chans, now, n)
    requires forall k :: 0 <= k < |js| ==> js[k] < |chans| && UsableAt(chans[js[k]], now)
    requires forall k, l :: 0 <= k < l < |js| ==> js[k] < js[l]
    requires forall j: nat :: j < |chans| && UsableAt(chans[j], now) ==> j in js
    ensures Ordered(before + PairsOf(n, js), chans, now, n + 1)
  {
    var last := PairsOf(n, js);
    forall k | 0 <= k < |before| ensures before[k].0 < n {
      assert (before[k].0, before[k].1) in before;
    }
    forall i: nat, j: nat | (i, j) in last ensures i == n && j < |chans| && UsableAt(chans[j], now) {
      var k :| 0 <= k < |last| && last[k] == (i, j);
    }
    forall j: nat | j < |chans| && UsableAt(chans[j], now) ensures (n, j) in last {
      var k :| 0 <= k < |js| && js[k] == j;
      assert last[k] == (n, j);
    }
  }

  lemma ListsJoin(plan: seq<Attempt>, at: seq<(nat, nat)>, part: seq<Attempt>, js: seq<nat>, models: seq<string>,
      chans: seq<Channel>, now: int, lookup: string -> Option<seq<Mapping>>)
    requires models != [] && Lists(plan, at, models[..|models| - 1], chans, now, lookup)
    requires ListsModel(part, js, models[|models| - 1], chans, now, lookup)
    ensures Lists(plan + part, at + PairsOf(|models| - 1, js), models, chans, now, lookup)
  {
    var n := |models| - 1;
    var all := at + PairsOf(n, js);
    forall k | 0 <= k < |all|
        ensures all[k].0 < |models| && Entry((plan + part)[k], all[k].1, models[all[k].0], chans, now, lookup) {
      if k < |at| {
        assert all[k] == at[k] && models[..n][at[k].0] == models[at[k].0];
      }
    }
  }

  /** The plan, entry by entry: every model of the chain with every usable channel, in chain order and within a
      model in channel order, none left out and none twice, each with the name its channel knows it by. */
  lemma {:induction false} PlanInOrder(models: seq<string>, chans: seq<Channel>, now: int,
      lookup: string -> Option<seq<Mapping>>) returns (at: seq<(nat, nat)>)
    requires ExpandAll(models, chans, now, lookup).Some?
    ensures Ordered(at, chans, now, |models|)
    ensures Lists(ExpandAll(models, chans, now, lookup).value, at, models, chans, now, lookup)
  {
    if models == [] {
      at := [];
    } else {
      var n := |models| - 1;
      var before := PlanInOrder(models[..n], chans, now, lookup);
      var js := ExpandOrder(models[n], chans, now, lookup);
      at := before + PairsOf(n, js);
      OrderJoin(before, js, chans, now, n);
      ListsJoin(ExpandAll(models[..n], chans, now, lookup).value, before, Expand(models[n], chans, now, lookup).value,
          js, models, chans, now, lookup);
    }
  }

  // ── the fallback chain ─────────────────────────────────────────────────────

  /** Appends the names not seen yet, each once. */
  method AppendUnseen(chain0: seq<string>, seen0: set<string>, ghost all: seq<string>, names: seq<string>)
      returns (chain: seq<string>, seen: set<string>)
    requires chain0 == FirstOccurrences(all) && forall m :: m in seen0 <==> m in all
    ensures chain == FirstOccurrences(all + names) && chain0 <= chain
    ensures forall m :: m in seen <==> m in all + names
  {
    chain, seen := chain0, seen0;
    assert all + names[..0] == all;
    for i := 0 to |names|
      invariant chain == FirstOccurrences(all + names[..i]) && chain0 <= chain
      invariant forall m :: m in seen <==> m in all + names[..i]
    {
      FirstOccurrencesSnoc(all + names[..i], names[i]);
      assert all + names[..i + 1] == all + names[..i] + [names[i]];
      if names[i] !in seen {
        chain := chain + [names[i]];
        seen := seen + {names[i]};
      }
    }
    assert names[..|names|] == names;
  }

  /** Requested model, then the group's fallbacks, then the model's own, each name once. */
  method FallbackChain(requested: string, groupFb: seq<string>, modelFb: seq<string>) returns (chain: seq<string>)
    ensures chain == FirstOccurrences([requested] + groupFb + modelFb)
    ensures Distinct(chain) && |chain| > 0 && chain[0] == requested
    ensures FirstOccurrences([requested] + groupFb) <= chain
  {
    chain := [requested];
    var seen := {requested};
    assert [requested][..0] == [] && FirstOccurrences([requested]) == [requested];
    chain, seen := AppendUnseen(chain, seen, [requested], groupFb);
    chain, seen := AppendUnseen(chain, seen, [requested] + groupFb, modelFb);
    FirstOccurrencesDistinct([requested] + groupFb + modelFb);
  }
}
