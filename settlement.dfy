/** The settlement arithmetic of a scenario's bets, as functions of the list of
    bets: the amount staked, the losing side's pool, the house cut of that pool,
    the insurance the house owes losing insured bets and the insurance costs. */
module Settlement {
  import opened Bets

  /** A bet loses when its prediction disagrees with what happened. */
  predicate Loses(b: Bet, ocorreu: bool) {
    b.previsao != ocorreu
  }

  /** The quantities the ledger adds up over its bets. */
  datatype Measure =
    | Stake                     // every amount
    | LosingStake(ocorreu: bool)  // amounts of the losing bets
    | LosingPayout(ocorreu: bool) // insurance payouts of the losing insured bets
    | Cost                      // costs of the insured bets

  function Weight(m: Measure, b: Bet): int {
    match m
    case Stake => b.valor
    case LosingStake(o) => if Loses(b, o) then b.valor else 0
    case LosingPayout(o) => if b.Insured? && Loses(b, o) then Payout(b) else 0
    case Cost => if b.Insured? then b.custo else 0
  }

  /** The sum of a measure over bets, accumulated from the first to the last. */
  function SumOf(bets: seq<Bet>, m: Measure): int
    decreases |bets|
  {
    if bets == [] then 0 else SumOf(bets[..|bets| - 1], m) + Weight(m, bets[|bets| - 1])
  }

  function TotalStake(bets: seq<Bet>): int { SumOf(bets, Stake) }
  function LosingPool(bets: seq<Bet>, ocorreu: bool): int { SumOf(bets, LosingStake(ocorreu)) }
  function Liability(bets: seq<Bet>, ocorreu: bool): int { SumOf(bets, LosingPayout(ocorreu)) }
  function CostTotal(bets: seq<Bet>): int { SumOf(bets, Cost) }

  /** The house's share of a pool: `(int) Math.floor(pool * taxa)`. */
  function HouseCut(pool: int, taxa: real): (r: int)
    ensures r as real <= pool as real * taxa < r as real + 1.0
    ensures 0 <= pool && 0.0 <= taxa <= 1.0 ==> 0 <= r <= pool
  {
    var x := pool as real * taxa;
    assert 0 <= pool && 0.0 <= taxa <= 1.0 ==> 0.0 <= x <= pool as real by {
      if 0 <= pool && 0.0 <= taxa <= 1.0 {
        assert pool as real * taxa <= pool as real * 1.0;
      }
    }
    x.Floor
  }

  /** What is left of the losing pool for the winners once the house has its cut
      (`getTotalRateio`). */
  function PayoutPool(pool: int, taxa: real): (r: int)
    ensures 0 <= pool && 0.0 <= taxa <= 1.0 ==> 0 <= r <= pool
    ensures r + HouseCut(pool, taxa) == pool
  {
    pool - HouseCut(pool, taxa)
  }

  /** Sums distribute over concatenation. */
  lemma {:induction false} SumOfAppend(a: seq<Bet>, b: seq<Bet>, m: Measure)
    ensures SumOf(a + b, m) == SumOf(a, m) + SumOf(b, m)
    decreases |b|
  {
    if b == [] {
      assert a + b == a;
    } else {
      var b' := b[..|b| - 1];
      assert (a + b)[..|a + b| - 1] == a + b';
      SumOfAppend(a, b', m);
    }
  }

  /** One more bet adds its weight. */
  lemma SumOfSnoc(bets: seq<Bet>, b: Bet, m: Measure)
    ensures SumOf(bets + [b], m) == SumOf(bets, m) + Weight(m, b)
  {
    assert (bets + [b])[..|bets|] == bets;
  }
  /** Summing one more element of a sequence adds its weight to the prefix sum. */
  lemma SumOfPrefixStep(bets: seq<Bet>, i: nat, m: Measure)
    requires i < |bets|
    ensures SumOf(bets[..i + 1], m) == SumOf(bets[..i], m) + Weight(m, bets[i])
  {
    assert bets[..i + 1] == bets[..i] + [bets[i]];
    SumOfSnoc(bets[..i], bets[i], m);
  }


  /** Replacing one bet changes a sum by the difference of the two weights. */
  lemma SumOfReplace(bets: seq<Bet>, i: nat, x: Bet, m: Measure)
    requires i < |bets|
    ensures SumOf(bets[i := x], m) == SumOf(bets, m) - Weight(m, bets[i]) + Weight(m, x)
  {
    var pre, post := bets[..i], bets[i + 1..];
    assert bets == pre + [bets[i]] + post;
    assert bets[i := x] == pre + [x] + post;
    SumOfAppend(pre + [bets[i]], post, m);
    SumOfAppend(pre + [x], post, m);
    SumOfAppend(pre, [bets[i]], m);
    SumOfAppend(pre, [x], m);
    assert SumOf([x], m) == Weight(m, x) by { assert [x][..0] == []; }
    assert SumOf([bets[i]], m) == Weight(m, bets[i]) by { assert [bets[i]][..0] == []; }
  }

  /** Every amount lies on exactly one losing side: the two losing pools add up
      to the amount staked. */
  lemma {:induction false} PoolsPartitionStake(bets: seq<Bet>)
    ensures LosingPool(bets, true) + LosingPool(bets, false) == TotalStake(bets)
    decreases |bets|
  {
    if bets != [] {
      PoolsPartitionStake(bets[..|bets| - 1]);
    }
  }

  /** Over well-formed bets every sum is non-negative. */
  lemma {:induction false} SumOfNonNegative(bets: seq<Bet>, m: Measure)
    requires forall i :: 0 <= i < |bets| ==> WellFormed(bets[i])
    ensures SumOf(bets, m) >= 0
    decreases |bets|
  {
    if bets != [] {
      SumOfNonNegative(bets[..|bets| - 1], m);
      var b := bets[|bets| - 1];
      assert WellFormed(b);
      assert Weight(m, b) >= 0;
    }
  }

  /** The losing pool is never negative and never more than the amount staked;
      the winners' share after the house cut is between 0 and that pool. */
  lemma LosingPoolBounds(bets: seq<Bet>, ocorreu: bool, taxa: real)
    requires forall i :: 0 <= i < |bets| ==> WellFormed(bets[i])
    requires 0.0 <= taxa <= 1.0
    ensures 0 <= LosingPool(bets, ocorreu) <= TotalStake(bets)
    ensures 0 <= PayoutPool(LosingPool(bets, ocorreu), taxa) <= LosingPool(bets, ocorreu)
  {
    PoolsPartitionStake(bets);
    SumOfNonNegative(bets, LosingStake(true));
    SumOfNonNegative(bets, LosingStake(false));
  }

  /** Plain bets carry no insurance: they add nothing to the liability or the costs. */
  lemma {:induction false} PlainBetsInsureNothing(bets: seq<Bet>, ocorreu: bool)
    requires forall i :: 0 <= i < |bets| ==> bets[i].Plain?
    ensures Liability(bets, ocorreu) == 0 && CostTotal(bets) == 0
    decreases |bets|
  {
    if bets != [] {
      PlainBetsInsureNothing(bets[..|bets| - 1], ocorreu);
    }
  }

  /** Changing the policy of one insured bet keeps the amount staked, both losing
      pools and the costs, and moves the liability by the change of that bet's
      payout when it loses. */
  lemma ChangePolicyEffect(bets: seq<Bet>, i: nat, p: Policy, ocorreu: bool)
    requires i < |bets| && bets[i].Insured?
    ensures var after := bets[i := bets[i].(policy := p)];
      && TotalStake(after) == TotalStake(bets)
      && LosingPool(after, ocorreu) == LosingPool(bets, ocorreu)
      && CostTotal(after) == CostTotal(bets)
      && Liability(after, ocorreu) == Liability(bets, ocorreu)
           + (if Loses(bets[i], ocorreu) then Payout(bets[i].(policy := p)) - Payout(bets[i]) else 0)
  {
    var x := bets[i].(policy := p);
    SumOfReplace(bets, i, x, Stake);
    SumOfReplace(bets, i, x, LosingStake(ocorreu));
    SumOfReplace(bets, i, x, Cost);
    SumOfReplace(bets, i, x, LosingPayout(ocorreu));
  }

  /** A sum over the four bets of the `calculaCaixa` example
      (ApostaControllerTest.java:94-99), spelled out. */
  lemma SumOfExample4(b0: Bet, b1: Bet, b2: Bet, b3: Bet, m: Measure)
    ensures SumOf([b0, b1, b2, b3], m) == Weight(m, b0) + Weight(m, b1) + Weight(m, b2) + Weight(m, b3)
  {
    assert [b0][..0] == [];
    assert SumOf([b0], m) == Weight(m, b0);
    assert [b0, b1][..1] == [b0];
    assert SumOf([b0, b1], m) == SumOf([b0], m) + Weight(m, b1);
    assert [b0, b1, b2][..2] == [b0, b1];
    assert SumOf([b0, b1, b2], m) == SumOf([b0, b1], m) + Weight(m, b2);
    assert [b0, b1, b2, b3][..3] == [b0, b1, b2];
  }

  /** A sum over the five bets of the ledger examples
      (ApostaControllerTest.java:106-112, 184 and 197), spelled out. */
  lemma SumOfExample5(b0: Bet, b1: Bet, b2: Bet, b3: Bet, b4: Bet, m: Measure)
    ensures SumOf([b0, b1, b2, b3, b4], m)
            == Weight(m, b0) + Weight(m, b1) + Weight(m, b2) + Weight(m, b3) + Weight(m, b4)
  {
    SumOfExample4(b0, b1, b2, b3, m);
    assert [b0, b1, b2, b3, b4][..4] == [b0, b1, b2, b3];
  }

  /** The ledger figures of the system's own examples: two plain bets and three
      insured ones (a rate of 0.4 and two fixed values of 500, each costing 200). */
  lemma SettlementExamples()
    ensures var bets := [Plain("Maria", 1000, true), Plain("Samuel", 2000, false),
                         Insured("Samuel", 100, true, 200, Taxa(0.4)),
                         Insured("Samuel", 100, true, 200, Seguro(500)),
                         Insured("Samuel", 100, false, 200, Seguro(500))];
      && Liability(bets, false) == 540
      && CostTotal(bets) == 600
      && TotalStake(bets) == 3300
    ensures var bets := [Plain("Maria", 1000, true), Plain("Samuel", 2000, true),
                         Insured("Samuel", 100, true, 200, Taxa(0.4)),
                         Insured("Samuel", 100, true, 200, Seguro(500))];
      LosingPool(bets, false) == 3200
    ensures var bets := [Plain("Maria", 1000, true), Plain("Samuel", 2000, true)];
      LosingPool(bets, false) == 3000 && HouseCut(LosingPool(bets, false), 0.1) == 300
    ensures var bets := [Plain("Samuel", 2000, true)];
      LosingPool(bets, true) == 0 && HouseCut(0, 0.1) == 0 && PayoutPool(0, 0.1) == 0
  {
    var b0, b1 := Plain("Maria", 1000, true), Plain("Samuel", 2000, false);
    var b2 := Insured("Samuel", 100, true, 200, Taxa(0.4));
    var b3 := Insured("Samuel", 100, true, 200, Seguro(500));
    var b4 := Insured("Samuel", 100, false, 200, Seguro(500));
    assert Payout(b2) == 40 by { assert 0.4 * 100.0 == 40.0; }
    SumOfExample5(b0, b1, b2, b3, b4, LosingPayout(false));
    SumOfExample5(b0, b1, b2, b3, b4, Cost);
    SumOfExample5(b0, b1, b2, b3, b4, Stake);
    var c0, c1 := Plain("Maria", 1000, true), Plain("Samuel", 2000, true);
    SumOfExample4(c0, c1, b2, b3, LosingStake(false));
    assert [c0, c1][..1] == [c0];
    assert [c0][..0] == [];
    assert SumOf([c0], LosingStake(false)) == 1000;
    assert LosingPool([c0, c1], false) == 3000;
    assert 3000 as real * 0.1 == 300.0;
    var d0 := Plain("Samuel", 2000, true);
    assert [d0][..0] == [];
  }
}
