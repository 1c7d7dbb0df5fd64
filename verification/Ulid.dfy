/** Identifiers that sort in the order they were made. */
module Ulids {
  import opened Wrappers
  import opened Order

  const CROCKFORD := "0123456789ABCDEFGHJKMNPQRSTVWXYZ"
  const ENTROPY := 0x1_0000_0000_0000_0000_0000 // 80 bits
  const MILLISECONDS := 0x1_0000_0000_0000     // 48 bits

  /** `n` base-32 digits of `v`, most significant first. */
  function Encoded(v: nat, n: nat): (s: string)
    ensures |s| == n && forall i | 0 <= i < n :: s[i] in CROCKFORD
  {
    if n == 0 then "" else Encoded(v / 32, n - 1) + [CROCKFORD[v % 32]]
  }

  function Power(n: nat): (p: nat)
    ensures p > 0
  {
    if n == 0 then 1 else 32 * Power(n - 1)
  }

  lemma DigitsAscend(x: nat, y: nat)
    requires x < y < 32
    ensures CROCKFORD[x] < CROCKFORD[y]
  {}

  lemma {:induction false} LessBeforeTails(p: string, q: string, x: string, y: string)
    requires |p| == |q| && Less(p, q)
    ensures Less(p + x, q + y)
  {
    assert (p + x)[1..] == p[1..] + x && (q + y)[1..] == q[1..] + y;
    if p[0] == q[0] { LessBeforeTails(p[1..], q[1..], x, y); }
  }

  lemma {:induction false} LessAtTheEnd(p: string, c: char, d: char)
    requires c < d
    ensures Less(p + [c], p + [d])
  {
    if p != "" {
      assert (p + [c])[1..] == p[1..] + [c] && (p + [d])[1..] == p[1..] + [d];
      LessAtTheEnd(p[1..], c, d);
    }
  }

  /** Numeric order is lexicographic order, so the encoding is injective too. */
  lemma {:induction false} OrderIsKept(a: nat, b: nat, n: nat)
    requires a < b < Power(n)
    ensures Less(Encoded(a, n), Encoded(b, n))
  {
    if n > 0 {
      if a / 32 < b / 32 {
        OrderIsKept(a / 32, b / 32, n - 1);
        LessBeforeTails(Encoded(a / 32, n - 1), Encoded(b / 32, n - 1), [CROCKFORD[a % 32]], [CROCKFORD[b % 32]]);
      } else {
        assert a / 32 == b / 32 && a % 32 < b % 32;
        DigitsAscend(a % 32, b % 32);
        LessAtTheEnd(Encoded(a / 32, n - 1), CROCKFORD[a % 32], CROCKFORD[b % 32]);
      }
    }
  }

  lemma OrderIsExact(a: nat, b: nat, n: nat)
    requires a < Power(n) && b < Power(n)
    ensures Less(Encoded(a, n), Encoded(b, n)) <==> a < b
    ensures Encoded(a, n) == Encoded(b, n) ==> a == b
  {
    LessIsTotal(Encoded(a, n), Encoded(b, n));
    if a < b { OrderIsKept(a, b, n); }
    if b < a { OrderIsKept(b, a, n); }
  }

  lemma TwentySixSuffice()
    ensures MILLISECONDS * ENTROPY < Power(26)
  {
    assert Power(5) == 0x200_0000;
    PowerAdds(5, 5);
    PowerAdds(10, 10);
    PowerAdds(20, 5);
    assert Power(26) == 32 * Power(25);
  }

  lemma {:induction false} PowerAdds(m: nat, n: nat)
    ensures Power(m + n) == Power(m) * Power(n)
  {
    if n > 0 { PowerAdds(m, n - 1); }
  }

  function Stamp(milliseconds: nat, entropy: nat): nat {
    milliseconds * ENTROPY + entropy
  }

  lemma StampsFit(milliseconds: nat, entropy: nat)
    requires milliseconds < MILLISECONDS && entropy < ENTROPY
    ensures Stamp(milliseconds, entropy) < Power(26)
  {
    TwentySixSuffice();
    assert Stamp(milliseconds, entropy) < (milliseconds + 1) * ENTROPY;
  }

  /** The identifier tells (milliseconds, entropy) apart and sorts by them, first by time. */
  lemma UlidIsInjective(m: nat, e: nat, m': nat, e': nat)
    requires m < MILLISECONDS && e < ENTROPY && m' < MILLISECONDS && e' < ENTROPY
    ensures Encoded(Stamp(m, e), 26) == Encoded(Stamp(m', e'), 26) <==> m == m' && e == e'
    ensures Less(Encoded(Stamp(m, e), 26), Encoded(Stamp(m', e'), 26)) <==> m < m' || (m == m' && e < e')
  {
    StampsFit(m, e);
    StampsFit(m', e');
    OrderIsExact(Stamp(m, e), Stamp(m', e'), 26);
  }

  /** One process: the last time used, whatever the clock does. */
  class Source {
    var last: nat

    constructor ()
      ensures last == 0
    {
      last := 0;
    }

    /** `_ulid`: the digits are peeled off from the low end and reversed. */
    method Next(clock: nat, entropy: nat) returns (ulid: string)
      requires clock < MILLISECONDS && last + 1 < MILLISECONDS && entropy < ENTROPY
      modifies this
      ensures last == if clock <= old(last) then old(last) + 1 else clock
      ensures old(last) < last < MILLISECONDS && ulid == Encoded(Stamp(last, entropy), 26)
    {
      last := if clock <= last then last + 1 else clock;
      var value := Stamp(last, entropy);
      ulid := "";
      var n := 26;
      while n > 0
        invariant 0 <= n <= 26 && Encoded(value, n) + ulid == Encoded(Stamp(last, entropy), 26)
      {
        ghost var was := ulid;
        ulid := [CROCKFORD[value % 32]] + ulid;
        value := value / 32;
        n := n - 1;
        assert Encoded(value, n) + ulid == (Encoded(value, n) + [ulid[0]]) + was;
      }
    }
  }

  /** Ever larger: two identifiers of one process sort as they were made. */
  method Successive(source: Source, clocks: seq<nat>, entropies: seq<nat>) returns (ulids: seq<string>)
    requires |clocks| == |entropies| && source.last + |clocks| < MILLISECONDS
    requires forall i | 0 <= i < |clocks| :: clocks[i] + |clocks| < MILLISECONDS && entropies[i] < ENTROPY
    modifies source
    ensures |ulids| == |clocks| && forall i, j | 0 <= i < j < |ulids| :: Less(ulids[i], ulids[j])
  {
    hide Less, Encoded, Stamp;
    ulids := [];
    ghost var times: seq<nat> := [];
    for i := 0 to |clocks|
      invariant |ulids| == |times| == i && source.last + (|clocks| - i) < MILLISECONDS
      invariant forall k | 0 <= k < i ::
                  times[k] <= source.last && ulids[k] == Encoded(Stamp(times[k], entropies[k]), 26)
      invariant forall j, k | 0 <= j < k < i :: Less(ulids[j], ulids[k])
    {
      var next := source.Next(clocks[i], entropies[i]);
      LaterIsLarger(times, entropies[..i], ulids, source.last, entropies[i], next);
      ulids := ulids + [next];
      times := times + [source.last];
    }
  }

  /** An identifier of a later millisecond is larger than all made so far. */
  lemma LaterIsLarger(times: seq<nat>, entropies: seq<nat>, ulids: seq<string>, m: nat, e: nat, next: string)
    requires |times| == |entropies| == |ulids| && m < MILLISECONDS && e < ENTROPY && next == Encoded(Stamp(m, e), 26)
    requires forall k | 0 <= k < |times| ::
               times[k] < m && entropies[k] < ENTROPY && ulids[k] == Encoded(Stamp(times[k], entropies[k]), 26)
    ensures forall k | 0 <= k < |ulids| :: Less(ulids[k], next)
  {
    hide *;
    forall k | 0 <= k < |ulids| ensures Less(ulids[k], next) {
      UlidIsInjective(times[k], entropies[k], m, e);
    }
  }
}
