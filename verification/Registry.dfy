/** The registry of task types: two indexes that must stay inverse, and the check made before enqueuing. */
module Registry {
  import opened Sequences

  const CRITICAL := "critical"
  const DEFAULT := "default"
  const LOW := "low"

  datatype Indexes = Indexes(byTy: map<string, string>, byQ: map<string, seq<string>>)

  const EMPTY := Indexes(map[], map[CRITICAL := [], DEFAULT := [], LOW := []])

  function ListOf(byQ: map<string, seq<string>>, queue: string): seq<string> {
    if queue in byQ then byQ[queue] else []
  }

  function TypesOf(r: Indexes, queue: string): seq<string> {
    ListOf(r.byQ, queue)
  }

  /** The two indexes say the same thing, and no type is listed twice. */
  ghost predicate Inverse(r: Indexes) {
    && (forall q :: q in r.byQ ==> Distinct(r.byQ[q]))
    && (forall q, ty :: ty in TypesOf(r, q) <==> ty in r.byTy && r.byTy[ty] == q)
  }

  /** A type already bound elsewhere cannot be rebound. */
  predicate Conflicts(r: Indexes, queue: string, ty: string) {
    ty in r.byTy && r.byTy[ty] != queue
  }

  predicate Bindable(r: Indexes, queue: string, types: seq<string>) {
    forall ty :: ty in types ==> !Conflicts(r, queue, ty)
  }

  function BindTypes(byTy: map<string, string>, queue: string, types: seq<string>): map<string, string> {
    if types == [] then byTy else BindTypes(byTy, queue, types[..|types| - 1])[types[|types| - 1] := queue]
  }

  lemma {:induction false} BindTypesAt(byTy: map<string, string>, queue: string, types: seq<string>, ty: string)
    ensures ty in BindTypes(byTy, queue, types) <==> ty in byTy || ty in types
    ensures ty in types ==> BindTypes(byTy, queue, types)[ty] == queue
    ensures ty in byTy && ty !in types ==> BindTypes(byTy, queue, types)[ty] == byTy[ty]
  {
    if types != [] {
      BindTypesAt(byTy, queue, types[..|types| - 1], ty);
      assert types == types[..|types| - 1] + [types[|types| - 1]];
    }
  }

  /** A bind that goes through: each type once, in order, behind those already listed. */
  function Bound(r: Indexes, queue: string, types: seq<string>): Indexes {
    Indexes(BindTypes(r.byTy, queue, types),
            ListTypes(r.byQ, queue, types))
  }

  function ListTypes(byQ: map<string, seq<string>>, queue: string, types: seq<string>): map<string, seq<string>> {
    if types == [] then byQ else byQ[queue := FirstOccurrences(ListOf(byQ, queue) + types)]
  }

  lemma FirstsStep(listed: seq<string>, types: seq<string>, i: nat)
    requires i < |types|
    ensures
      var a := FirstOccurrences(listed + types[..i]);
      FirstOccurrences(listed + types[..i + 1]) == if types[i] in a then a else a + [types[i]]
  {
    FirstOccurrencesSnoc(listed + types[..i], types[i]);
    assert listed + types[..i + 1] == listed + types[..i] + [types[i]];
  }

  /** The list of a queue after its first i types. */
  lemma ListedSoFar(byQ: map<string, seq<string>>, queue: string, types: seq<string>, i: nat)
    requires i <= |types| && Distinct(ListOf(byQ, queue))
    ensures ListOf(ListTypes(byQ, queue, types[..i]), queue) == FirstOccurrences(ListOf(byQ, queue) + types[..i])
  {
    if i == 0 {
      assert ListOf(byQ, queue) + types[..0] == ListOf(byQ, queue);
      FirstOccurrencesOfDistinct(ListOf(byQ, queue));
    }
  }

  lemma UpdateTwice<T>(m: map<string, T>, k: string, a: T, b: T)
    ensures m[k := a][k := b] == m[k := b]
    ensures k in m && m[k] == a ==> m[k := a] == m
  {
  }

  /** Listing is one type at a time. */
  lemma ListStep(byQ: map<string, seq<string>>, queue: string, types: seq<string>, i: nat)
    requires i < |types| && Distinct(ListOf(byQ, queue))
    ensures
      var m, ty := ListTypes(byQ, queue, types[..i]), types[i];
      ListTypes(byQ, queue, types[..i + 1]) == if ty in ListOf(m, queue) then m else m[queue := ListOf(m, queue) + [ty]]
  {
    var a, b := FirstOccurrences(ListOf(byQ, queue) + types[..i]),
        FirstOccurrences(ListOf(byQ, queue) + types[..i + 1]);
    ListedSoFar(byQ, queue, types, i);
    FirstsStep(ListOf(byQ, queue), types, i);
    UpdateTwice(byQ, queue, a, b);
    if i == 0 && queue !in byQ {
      assert a == [];
    }
  }

  /** A task as Enqueue sees it. */
  datatype Task = Task(ty: string, queue: string, timeout: int)

  datatype Rejection = NoType | NoQueue | WrongQueue | NoTimeout

  class Registry {
    var byTy: map<string, string>
    var byQ: map<string, seq<string>>

    function State(): Indexes
      reads this
    {
      Indexes(byTy, byQ)
    }

    constructor ()
      ensures State() == EMPTY && Inverse(State())
    {
      byTy, byQ := map[], map[CRITICAL := [], DEFAULT := [], LOW := []];
      new;
      forall q, ty ensures ty !in TypesOf(State(), q) {
      }
    }

    /** Binds types to a queue.  ok false: a conflict, which panics; the types before the conflict keep their new
        entry in the first index, and the second index has not been touched. */
    method Bind(queue: string, types: seq<string>) returns (ok: bool, ghost at: nat)
      requires Inverse(State())
      modifies this
      ensures ok <==> Bindable(old(State()), queue, types)
      ensures ok ==> State() == Bound(old(State()), queue, types) && Inverse(State())
      ensures !ok ==>
                && at < |types| && Conflicts(old(State()), queue, types[at])
                && Bindable(old(State()), queue, types[..at])
                && State() == Indexes(BindTypes(old(byTy), queue, types[..at]), old(byQ))
    {
      ok, at := true, 0;
      var i := 0;
      while i < |types|
        invariant 0 <= i <= |types|
        invariant Bindable(old(State()), queue, types[..i])
        invariant byTy == BindTypes(old(byTy), queue, types[..i]) && byQ == old(byQ)
      {
        BindTypesAt(old(byTy), queue, types[..i], types[i]);
        if types[i] in byTy && byTy[types[i]] != queue {
          assert types[i] in types;
          return false, i;
        }
        assert types[..i + 1][..i] == types[..i];
        assert types[..i + 1] == types[..i] + [types[i]];
        byTy := byTy[types[i] := queue];
        i := i + 1;
      }
      assert types[..|types|] == types;
      List(queue, types);
      BoundKeepsInverse(old(State()), queue, types);
    }

    /** The second index: appends the types not listed yet. */
    method List(queue: string, types: seq<string>)
      requires Distinct(ListOf(byQ, queue))
      modifies this`byQ
      ensures byQ == ListTypes(old(byQ), queue, types)
    {
      var i := 0;
      while i < |types|
        invariant 0 <= i <= |types|
        invariant byQ == ListTypes(old(byQ), queue, types[..i])
      {
        ListStep(old(byQ), queue, types, i);
        var current := if queue in byQ then byQ[queue] else [];
        var found := Contains(current, types[i]);
        if !found {
          byQ := byQ[queue := current + [types[i]]];
        }
        i := i + 1;
      }
      assert types[..|types|] == types;
    }

    method QueueOf(ty: string) returns (q: Option<string>)
      ensures q.Some? <==> ty in byTy
      ensures q.Some? ==> q.value == byTy[ty]
    {
      q := if ty in byTy then Some(byTy[ty]) else None;
    }

    method Types(queue: string) returns (types: seq<string>)
      ensures types == TypesOf(State(), queue)
      ensures Inverse(State()) ==> Distinct(types) && forall ty :: ty in types <==> ty in byTy && byTy[ty] == queue
    {
      types := if queue in byQ then byQ[queue] else [];
      assert types == TypesOf(State(), queue);
    }

    /** None: accepted.  A type nobody bound passes: only a wrong queue is caught. */
    method Validate(t: Task) returns (rejected: Option<Rejection>)
      ensures rejected == None <==> t.ty != "" && t.queue != "" && t.timeout > 0 && !Conflicts(State(), t.queue, t.ty)
      ensures rejected == Some(NoType) <==> t.ty == ""
      ensures rejected == Some(NoQueue) <==> t.ty != "" && t.queue == ""
      ensures rejected == Some(WrongQueue) <==>
              t.ty != "" && t.queue != "" && t.ty in byTy && byTy[t.ty] != t.queue
    {
      if t.ty == "" {
        return Some(NoType);
      }
      if t.queue == "" {
        return Some(NoQueue);
      }
      var q := QueueOf(t.ty);
      if q.Some? && q.value != t.queue {
        return Some(WrongQueue);
      }
      if t.timeout <= 0 {
        return Some(NoTimeout);
      }
      rejected := None;
    }
  }

  lemma BoundKeepsInverse(r: Indexes, queue: string, types: seq<string>)
    requires Inverse(r) && Bindable(r, queue, types)
    ensures Inverse(Bound(r, queue, types))
  {
    var r' := Bound(r, queue, types);
    FirstOccurrencesDistinct(TypesOf(r, queue) + types);
    forall q, ty ensures ty in TypesOf(r', q) <==> ty in r'.byTy && r'.byTy[ty] == q {
      BindTypesAt(r.byTy, queue, types, ty);
      assert ty in TypesOf(r, q) <==> ty in r.byTy && r.byTy[ty] == q;
      if q == queue && types != [] {
        assert ty in TypesOf(r', q) <==> ty in TypesOf(r, queue) + types;
      } else {
        assert TypesOf(r', q) == TypesOf(r, q);
      }
    }
  }

  datatype Binding = Binding(queue: string, types: seq<string>)

  /** Registration at start-up: the first conflict stops the program. */
  function BindAll(r: Indexes, bs: seq<Binding>): Option<Indexes> {
    if bs == [] then Some(r)
    else
      var before := BindAll(r, bs[..|bs| - 1]);
      var b := bs[|bs| - 1];
      if before == None || !Bindable(before.value, b.queue, b.types) then None
          else Some(Bound(before.value, b.queue, b.types))
  }

  /** Some binding names the type for the queue. */
  predicate Names(bs: seq<Binding>, ty: string, queue: string) {
    exists b :: b in bs && b.queue == queue && ty in b.types
  }

  ghost predicate Records(r: Indexes, bs: seq<Binding>) {
    Inverse(r) && forall ty, q :: (ty in r.byTy && r.byTy[ty] == q) <==> Names(bs, ty, q)
  }

  lemma NamesSnoc(bs: seq<Binding>, b: Binding, ty: string, q: string)
    ensures Names(bs + [b], ty, q) <==> Names(bs, ty, q) || (b.queue == q && ty in b.types)
  {
    if Names(bs, ty, q) {
      var x :| x in bs && x.queue == q && ty in x.types;
      assert x in bs + [b];
    }
    assert b in bs + [b];
  }

  ghost predicate Consistent(bs: seq<Binding>) {
    forall ty, q, q' :: Names(bs, ty, q) && Names(bs, ty, q') ==> q == q'
  }

  /** Any run of bindings goes through exactly when no type is named for two queues; then both indexes list
      exactly what was bound, without repetition and inverse to each other. */
  lemma {:induction false} BindingsRecorded(bs: seq<Binding>)
    ensures BindAll(EMPTY, bs).Some? <==> Consistent(bs)
    ensures BindAll(EMPTY, bs).Some? ==> Records(BindAll(EMPTY, bs).value, bs)
  {
    if bs == [] {
      assert forall q :: TypesOf(EMPTY, q) == [];
    } else {
      var init, b := bs[..|bs| - 1], bs[|bs| - 1];
      assert bs == init + [b];
      BindingsRecorded(init);
      forall ty, q { NamesSnoc(init, b, ty, q); }
      if Consistent(init) {
        BindStep(BindAll(EMPTY, init).value, init, b);
      } else {
        var ty, q, q' :| Names(init, ty, q) && Names(init, ty, q') && q != q';
        assert Names(bs, ty, q) && Names(bs, ty, q');
      }
    }
  }

  lemma BindStep(r: Indexes, bs: seq<Binding>, b: Binding)
    requires Records(r, bs)
    ensures Bindable(r, b.queue, b.types) <==> Consistent(bs + [b])
    ensures Bindable(r, b.queue, b.types) ==> Records(Bound(r, b.queue, b.types), bs + [b])
  {
    forall ty, q { NamesSnoc(bs, b, ty, q); }
    if !Bindable(r, b.queue, b.types) {
      var ty :| ty in b.types && Conflicts(r, b.queue, ty);
      assert Names(bs + [b], ty, b.queue) && Names(bs + [b], ty, r.byTy[ty]);
    } else {
      BoundKeepsInverse(r, b.queue, b.types);
      var r' := Bound(r, b.queue, b.types);
      forall ty, q ensures (ty in r'.byTy && r'.byTy[ty] == q) <==> Names(bs + [b], ty, q) {
        BindTypesAt(r.byTy, b.queue, b.types, ty);
        if ty in b.types {
          assert !Conflicts(r, b.queue, ty);
        }
      }
    }
  }

  /** A refused bind leaves the indexes inverse exactly when it had added nothing yet. */
  lemma RefusedBindBreaksIff(r: Indexes, queue: string, types: seq<string>)
    requires Inverse(r) && Bindable(r, queue, types)
    ensures Inverse(Indexes(BindTypes(r.byTy, queue, types), r.byQ)) <==> forall ty :: ty in types ==> ty in r.byTy
  {
    var r' := Indexes(BindTypes(r.byTy, queue, types), r.byQ);
    forall ty { BindTypesAt(r.byTy, queue, types, ty); }
    if forall ty :: ty in types ==> ty in r.byTy {
      assert forall ty :: ty in types ==> !Conflicts(r, queue, ty);
      assert r'.byTy == r.byTy;
    } else {
      var ty :| ty in types && ty !in r.byTy;
      assert ty !in TypesOf(r, queue) && TypesOf(r', queue) == TypesOf(r, queue);
    }
  }
}
