/** Stakes to votes and back at a fixed total issuance. The cast to u64 drops high bits, the product wraps. */
module CurrencyToVote {
  import opened U64

  function Factor(issuance: u128): (f: u128)
    ensures 1 <= f
    ensures issuance < U64_MAX ==> f == 1
    ensures U64_MAX <= issuance ==> f * U64_MAX <= issuance < (f + 1) * U64_MAX
  {
    var f := issuance / 0xFFFF_FFFF_FFFF_FFFF;
    if f < 1 then 1 else f
  }

  /** `(x / factor) as u64` */
  function ToVote(x: u128, issuance: u128): u64 {
    x / Factor(issuance) % 0x1_0000_0000_0000_0000
  }

  /** `x * factor`, wrapping in u128 */
  function ToCurrency(x: u128, issuance: u128): u128 {
    x * Factor(issuance) % 0x1_0000_0000_0000_0000_0000_0000_0000_0000
  }

  // ---- division ----

  lemma QuotientBounds(x: int, f: int)
    requires f >= 1
    ensures x / f * f <= x < (x / f + 1) * f
  {
    assert x == x / f * f + x % f;
  }

  lemma QuotientUnique(x: int, f: int, q: int)
    requires f >= 1 && q * f <= x < (q + 1) * f
    ensures x / f == q
  {
    QuotientBounds(x, f);
    var d := x / f;
    if d < q {
      ProductMonotone(d + 1, q, f);
    } else if q < d {
      ProductMonotone(q + 1, d, f);
    }
  }

  lemma ProductMonotone(a: int, b: int, f: int)
    requires a <= b && f >= 0
    ensures a * f <= b * f
  {
    assert (b - a) * f >= 0;
  }

  lemma QuotientBelow(x: int, f: int, k: int)
    requires f >= 1
    ensures x / f < k <==> x < k * f
  {
    QuotientBounds(x, f);
    if x / f < k {
      ProductMonotone(x / f + 1, k, f);
    } else {
      ProductMonotone(k, x / f, f);
    }
  }

  // ---- votes to currency ----

  /** The currency of any u64 vote fits: it is at most the issuance, or the vote itself. */
  lemma VoteCurrencyFits(v: u64, issuance: u128)
    ensures v * Factor(issuance) <= if issuance > U64_MAX then issuance else U64_MAX
    ensures ToCurrency(v, issuance) == v * Factor(issuance)
  {
    var f := Factor(issuance);
    QuotientBounds(issuance, 0xFFFF_FFFF_FFFF_FFFF);
    ProductMonotone(v, U64_MAX, f);
    ProductMonotone(0, v, f);
    if f > 1 {
      assert U64_MAX * f <= issuance;
    }
  }

  /** Turning a vote into currency and back gives the vote. */
  lemma VoteRoundTrip(v: u64, issuance: u128)
    ensures ToVote(ToCurrency(v, issuance), issuance) == v
  {
    VoteCurrencyFits(v, issuance);
    QuotientUnique(v * Factor(issuance), Factor(issuance), v);
  }

  /** For any amount of votes the product is kept if it fits in u128, and loses whole 2^128 if not. */
  lemma CurrencyExactIff(x: u128, issuance: u128)
    ensures ToCurrency(x, issuance) == x * Factor(issuance) <==> x * Factor(issuance) <= U128_MAX
    ensures exists k ::
              x * Factor(issuance) == ToCurrency(x, issuance) + k * 0x1_0000_0000_0000_0000_0000_0000_0000_0000
  {
    ProductMonotone(0, x, Factor(issuance));
    var k := x * Factor(issuance) / 0x1_0000_0000_0000_0000_0000_0000_0000_0000;
    assert x * Factor(issuance) == ToCurrency(x, issuance) + k * 0x1_0000_0000_0000_0000_0000_0000_0000_0000;
  }

  // ---- currency to votes ----

  /** For any stake the vote is the quotient but for whole 2^64. */
  lemma VoteCongruent(x: u128, issuance: u128)
    ensures Congruent(ToVote(x, issuance), x / Factor(issuance))
  {
    CongruentMeansSameResidue(ToVote(x, issuance), x / Factor(issuance));
  }

  /** The cast keeps the quotient exactly when the stake is below 2^64 factors. */
  lemma CastKeepsIff(x: u128, issuance: u128)
    ensures ToVote(x, issuance) == x / Factor(issuance) <==>
            x < 0x1_0000_0000_0000_0000 * Factor(issuance)
  {
    QuotientBelow(x, Factor(issuance), 0x1_0000_0000_0000_0000);
    QuotientBelow(x, Factor(issuance), 0);
  }

  /** Going to votes and back loses less than one factor, and never gains. */
  lemma StakeRoundTrip(x: u128, issuance: u128)
    requires x < 0x1_0000_0000_0000_0000 * Factor(issuance)
    ensures x - Factor(issuance) < ToCurrency(ToVote(x, issuance), issuance) <= x
  {
    CastKeepsIff(x, issuance);
    VoteCurrencyFits(ToVote(x, issuance), issuance);
    QuotientBounds(x, Factor(issuance));
  }

  lemma QuotientAtMostTwice(x: u128, issuance: u128)
    requires x <= issuance
    ensures 0 <= x / Factor(issuance) < 0x2_0000_0000_0000_0000
  {
    var f: int := Factor(issuance);
    QuotientBounds(issuance, 0xFFFF_FFFF_FFFF_FFFF);
    assert x < 0x2_0000_0000_0000_0000 * f;
    QuotientBelow(x, f, 0x2_0000_0000_0000_0000);
    QuotientBelow(x, f, 0);
  }

  /** A stake within the issuance loses nothing in the cast below 2^64 factors, and exactly one 2^64 above. */
  lemma CastDropsAtMostOnce(x: u128, issuance: u128)
    requires x <= issuance
    ensures ToVote(x, issuance) == x / Factor(issuance)
                                   - if x < 0x1_0000_0000_0000_0000 * Factor(issuance) then 0
                                     else 0x1_0000_0000_0000_0000
  {
    QuotientBelow(x, Factor(issuance), 0x1_0000_0000_0000_0000);
    QuotientAtMostTwice(x, issuance);
    CastDrops(x / Factor(issuance));
  }

  lemma CastDrops(q: int)
    requires 0 <= q < 0x2_0000_0000_0000_0000
    ensures q % 0x1_0000_0000_0000_0000 == q - if q < 0x1_0000_0000_0000_0000 then 0 else 0x1_0000_0000_0000_0000
  {
  }

  /** It can happen: with this issuance a stake of all of it loses 2^64 of its votes. */
  lemma CastDropsWitness()
    ensures var t: u128 := 0x1_FFFF_FFFF_FFFF_FFFD;
            t / Factor(t) == t && ToVote(t, t) == t - 0x1_0000_0000_0000_0000
  {
    QuotientUnique(0x1_FFFF_FFFF_FFFF_FFFD, 0xFFFF_FFFF_FFFF_FFFF, 1);
  }

  // ---- many stakes ----

  function Total(xs: seq<u128>): nat {
    if xs == [] then 0 else xs[0] + Total(xs[1..])
  }

  function Votes(xs: seq<u128>, issuance: u128): nat {
    if xs == [] then 0 else ToVote(xs[0], issuance) as int + Votes(xs[1..], issuance)
  }

  /** No vote is cast away, and each loses less than one factor. */
  lemma {:induction false} VotesBounds(xs: seq<u128>, issuance: u128)
    requires forall i :: 0 <= i < |xs| ==> xs[i] < 0x1_0000_0000_0000_0000 * Factor(issuance)
    ensures Votes(xs, issuance) * Factor(issuance) <= Total(xs)
    ensures xs != [] ==> Total(xs) < (Votes(xs, issuance) + |xs|) * Factor(issuance)
  {
    var f: int := Factor(issuance);
    if xs != [] {
      var rest := xs[1..];
      var v := ToVote(xs[0], issuance);
      assert xs[0] < 0x1_0000_0000_0000_0000 * f;
      CastKeepsIff(xs[0], issuance);
      QuotientBounds(xs[0], f);
      VotesBounds(rest, issuance);
      BoundsAdd(v, Votes(rest, issuance), |rest|, f);
    }
  }

  lemma BoundsAdd(v: int, w: int, n: int, f: int)
    ensures (v + w) * f == v * f + w * f
    ensures (v + w + (n + 1)) * f == (v + 1) * f + (w + n) * f
  {
  }

  /** The votes of a list sum to at most the quotient of its total, and fall short by less than its length. */
  lemma VotesNearQuotient(xs: seq<u128>, issuance: u128)
    requires xs != []
    requires forall i :: 0 <= i < |xs| ==> xs[i] < 0x1_0000_0000_0000_0000 * Factor(issuance)
    ensures Votes(xs, issuance) <= Total(xs) / Factor(issuance) < Votes(xs, issuance) + |xs|
  {
    VotesBounds(xs, issuance);
    QuotientBelow(Total(xs), Factor(issuance), Votes(xs, issuance));
    QuotientBelow(Total(xs), Factor(issuance), Votes(xs, issuance) + |xs|);
  }
}
