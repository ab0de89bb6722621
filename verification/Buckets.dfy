/** Names and TTLs of the delay buckets. */
module Buckets {

  /** Durations are nanoseconds. */
  const MILLISECOND := 1_000_000
  const SECOND := 1_000_000_000
  const INT32_MAX := 0x7FFF_FFFF

  function Digit(d: nat): (c: char)
    requires d < 10
    ensures '0' <= c <= '9' && c as int == '0' as int + d
  {
    ('0' as int + d) as char
  }

  /** Decimal digits without leading zeros. */
  function FormatNat(n: nat): (s: string)
    ensures s != "" && forall i :: 0 <= i < |s| ==> '0' <= s[i] <= '9'
  {
    if n < 10 then [Digit(n)] else FormatNat(n / 10) + [Digit(n % 10)]
  }

  function ParseNat(s: string): nat
    requires forall i :: 0 <= i < |s| ==> '0' <= s[i] <= '9'
  {
    if s == "" then 0 else 10 * ParseNat(s[..|s| - 1]) + (s[|s| - 1] as int - '0' as int)
  }

  lemma {:induction false} ParseUndoesFormat(n: nat)
    ensures ParseNat(FormatNat(n)) == n
  {
    var s := FormatNat(n);
    if n < 10 {
      assert s[..0] == "";
    } else {
      ParseUndoesFormat(n / 10);
      assert s[..|s| - 1] == FormatNat(n / 10);
    }
  }

  function FormatBucket(d: int): string {
    if d <= 0 then "0s"
    else if d < SECOND then FormatNat(d / MILLISECOND) + "ms"
    else
      var total := d / SECOND;
      if total % 3600 == 0 && total >= 3600 then FormatNat(total / 3600) + "h"
      else if total % 60 == 0 && total >= 60 then FormatNat(total / 60) + "m"
      else FormatNat(total) + "s"
  }

  /** What a bucket's name keeps of its duration. */
  datatype Grain = Zero | Millis(ms: nat) | Hours(n: nat) | Minutes(n: nat) | Seconds(n: nat)

  function GrainOf(d: int): Grain {
    if d <= 0 then Zero
    else if d < SECOND then Millis(d / MILLISECOND)
    else
      var total := d / SECOND;
      if total % 3600 == 0 && total >= 3600 then Hours(total / 3600)
      else if total % 60 == 0 && total >= 60 then Minutes(total / 60)
      else Seconds(total)
  }

  function Render(g: Grain): string {
    match g
    case Zero => "0s"
    case Millis(n) => FormatNat(n) + "ms"
    case Hours(n) => FormatNat(n) + "h"
    case Minutes(n) => FormatNat(n) + "m"
    case Seconds(n) => FormatNat(n) + "s"
  }

  function Number(g: Grain): nat {
    match g
    case Zero => 0
    case Millis(n) => n
    case Hours(n) => n
    case Minutes(n) => n
    case Seconds(n) => n
  }

  function Unit(g: Grain): string {
    match g
    case Millis(_) => "ms"
    case Hours(_) => "h"
    case Minutes(_) => "m"
    case _ => "s"
  }

  lemma RenderShape(g: Grain)
    ensures Render(g) == FormatNat(Number(g)) + Unit(g)
  {
  }

  /** Digits followed by a unit determine both. */
  lemma SplitUnit(a: string, u: string, b: string, v: string)
    requires a != "" && b != "" && a + u == b + v
    requires (forall i :: 0 <= i < |a| ==> '0' <= a[i] <= '9') && (forall i :: 0 <= i < |b| ==> '0' <= b[i] <= '9')
    requires u in {"ms", "h", "m", "s"} && v in {"ms", "h", "m", "s"}
    ensures a == b && u == v
  {
    var s := a + u;
    assert s[|a|] == u[0] && s[|b|] == v[0];
    assert |a| == |b|;
    assert a == s[..|a|] && b == s[..|b|];
    assert u == s[|a|..] && v == s[|b|..];
  }

  lemma RenderInjective(g: Grain, h: Grain)
    requires Render(g) == Render(h) && (g.Seconds? ==> g.n > 0) && (h.Seconds? ==> h.n > 0)
    ensures g == h
  {
    RenderShape(g);
    RenderShape(h);
    SplitUnit(FormatNat(Number(g)), Unit(g), FormatNat(Number(h)), Unit(h));
    ParseUndoesFormat(Number(g));
    ParseUndoesFormat(Number(h));
  }

  /** d cut to the precision of its name: whole seconds from one second up, whole milliseconds below. */
  function Cut(d: int): int {
    if d <= 0 then 0
    else if d < SECOND then d - d % MILLISECOND
    else d - d % SECOND
  }

  lemma GrainIffCut(a: int, b: int)
    ensures GrainOf(a) == GrainOf(b) <==> Cut(a) == Cut(b) && (a <= 0 <==> b <= 0)
  {
    assert 0 < a < SECOND ==> Cut(a) == GrainOf(a).ms * MILLISECOND < SECOND;
    assert 0 < b < SECOND ==> Cut(b) == GrainOf(b).ms * MILLISECOND < SECOND;
    assert a >= SECOND ==> Cut(a) == a / SECOND * SECOND >= SECOND;
    assert b >= SECOND ==> Cut(b) == b / SECOND * SECOND >= SECOND;
    if a >= SECOND && b >= SECOND {
      SecondsOf(a);
      SecondsOf(b);
    }
  }

  lemma SecondsOf(d: int)
    requires d >= SECOND
    ensures !GrainOf(d).Zero? && !GrainOf(d).Millis?
    ensures d / SECOND == GrainOf(d).n * (if GrainOf(d).Hours? then 3600 else if GrainOf(d).Minutes? then 60 else 1)
    ensures GrainOf(d).Seconds? ==> d / SECOND % 60 != 0 || d / SECOND < 60
  {
  }

  function UnitLength(unit: string): int {
    if unit == "h" then 3600 * SECOND else if unit == "m" then 60 * SECOND
    else if unit == "s" then SECOND else MILLISECOND
  }

  /** A name is a number and a unit that multiply to the duration cut to the name's precision: milliseconds below
      a second, and from there on the longest of hours, minutes and seconds that divides it. */
  lemma NameReads(d: int)
    ensures
      var g := GrainOf(d);
      var n, unit := Number(g), Unit(g);
      && FormatBucket(d) == FormatNat(n) + unit && n * UnitLength(unit) == Cut(d)
      && (d <= 0 ==> FormatBucket(d) == "0s")
      && (0 < d < SECOND ==> unit == "ms")
      && (d >= SECOND ==> unit in {"h", "m", "s"}
                          && forall u :: u in {"h", "m", "s"} && UnitLength(u) > UnitLength(unit) ==>
                               d / SECOND % (UnitLength(u) / SECOND) != 0)
  {
    RenderShape(GrainOf(d));
    if d >= SECOND {
      SecondsOf(d);
    } else if d <= 0 {
      assert FormatNat(0) + "s" == "0s";
    }
  }

  /** Two durations share a bucket name exactly when they agree to the name's precision. */
  lemma SameNameIff(a: int, b: int)
    ensures FormatBucket(a) == FormatBucket(b) <==> Cut(a) == Cut(b) && (a <= 0 <==> b <= 0)
  {
    assert FormatBucket(a) == Render(GrainOf(a)) && FormatBucket(b) == Render(GrainOf(b));
    if FormatBucket(a) == FormatBucket(b) {
      RenderInjective(GrainOf(a), GrainOf(b));
    }
    GrainIffCut(a, b);
  }

  /** Expressible durations: what a configuration can name without losing anything. */
  predicate Exact(d: int) {
    d > 0 && Cut(d) == d
  }

  /** So the name is injective on whole seconds and, below a second, whole milliseconds; and 1.5 s is one
      duration beyond, sharing its name with 1 s. */
  lemma ExactNamesDiffer(a: int, b: int)
    requires Exact(a) && Exact(b)
    ensures FormatBucket(a) == FormatBucket(b) ==> a == b
  {
    SameNameIff(a, b);
  }

  lemma HalfSecondsCollide()
    ensures FormatBucket(SECOND + SECOND / 2) == FormatBucket(SECOND) && DelayMS(SECOND + SECOND / 2) != DelayMS(SECOND)
  {
    SameNameIff(SECOND + SECOND / 2, SECOND);
  }

  /** TTL in milliseconds, at least 1 and at most the largest 32-bit value. */
  function DelayMS(d: int): (ms: int)
    ensures 1 <= ms <= INT32_MAX
    ensures MILLISECOND <= d < (INT32_MAX + 1) * MILLISECOND ==> ms * MILLISECOND <= d < (ms + 1) * MILLISECOND
    ensures d < MILLISECOND ==> ms == 1
    ensures d >= (INT32_MAX + 1) * MILLISECOND ==> ms == INT32_MAX
  {
    var ms := if d <= 0 then 0 else d / MILLISECOND;
    if ms <= 0 then 1 else if ms > INT32_MAX then INT32_MAX else ms
  }
}
