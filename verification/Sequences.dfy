/** Stock sequence and map facts shared by the other modules. */
module Sequences {

  datatype Option<+T> = None | Some(value: T)

  ghost predicate Distinct<T>(s: seq<T>) {
    forall i, j :: 0 <= i < j < |s| ==> s[i] != s[j]
  }

  /** s without its later repetitions: each value stays at its first position. */
  function FirstOccurrences<T(==,!new)>(s: seq<T>): (r: seq<T>)
    ensures |r| <= |s|
    ensures forall x :: x in r <==> x in s
  {
    if s == [] then []
    else
      var init, last := s[..|s| - 1], s[|s| - 1];
      assert s == init + [last];
      if last in init then FirstOccurrences(init) else FirstOccurrences(init) + [last]
  }

  lemma {:induction false} FirstOccurrencesDistinct<T(!new)>(s: seq<T>)
    ensures Distinct(FirstOccurrences(s))
  {
    if s != [] {
      FirstOccurrencesDistinct(s[..|s| - 1]);
    }
  }

  lemma FirstOccurrencesSnoc<T(!new)>(s: seq<T>, x: T)
    ensures FirstOccurrences(s + [x]) == if x in s then FirstOccurrences(s) else FirstOccurrences(s) + [x]
  {
    assert (s + [x])[..|s|] == s;
  }

  /** A duplicate-free sequence is its own list of first occurrences. */
  lemma {:induction false} FirstOccurrencesOfDistinct<T(!new)>(s: seq<T>)
    requires Distinct(s)
    ensures FirstOccurrences(s) == s
  {
    if s != [] {
      FirstOccurrencesOfDistinct(s[..|s| - 1]);
      assert s == s[..|s| - 1] + [s[|s| - 1]];
    }
  }

  lemma Regroup<T>(a: seq<T>, b: seq<T>, c: seq<T>)
    ensures a + b + c == a + (b + c)
  {
  }

  method Contains(list: seq<string>, x: string) returns (found: bool)
    ensures found <==> x in list
  {
    for i := 0 to |list|
      invariant x !in list[..i]
    {
      if list[i] == x {
        return true;
      }
    }
    found := false;
  }

  function RemoveAt<T>(s: seq<T>, i: nat): (r: seq<T>)
    requires i < |s|
    ensures |r| == |s| - 1
    ensures forall k :: 0 <= k < |r| ==> r[k] == if k < i then s[k] else s[k + 1]
  {
    s[..i] + s[i + 1..]
  }

  function Sum(s: seq<nat>): nat {
    if s == [] then 0 else s[0] + Sum(s[1..])
  }

  lemma {:induction false} SumAppend(a: seq<nat>, b: seq<nat>)
    ensures Sum(a + b) == Sum(a) + Sum(b)
  {
    if a == [] {
      assert a + b == b;
    } else {
      assert (a + b)[1..] == a[1..] + b;
      SumAppend(a[1..], b);
    }
  }

  /** Removing a term, or replacing it by v, moves the sum by exactly that term. */
  lemma SumSplit(s: seq<nat>, i: nat, v: nat)
    requires i < |s|
    ensures Sum(s) == s[i] + Sum(RemoveAt(s, i))
    ensures Sum(s[i := v]) == v + Sum(RemoveAt(s, i))
  {
    assert s == s[..i] + ([s[i]] + s[i + 1..]);
    SumAppend(s[..i], [s[i]] + s[i + 1..]);
    SumAppend(s[..i], s[i + 1..]);
    assert s[i := v] == s[..i] + ([v] + s[i + 1..]);
    SumAppend(s[..i], [v] + s[i + 1..]);
  }
}
