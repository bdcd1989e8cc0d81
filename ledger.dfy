/** The bet ledger of one scenario (ApostaController): plain bets in insertion
    order, insured bets under sequential ids, and the running amount and count. */
module Ledger {
  import opened Wrappers
  import opened Text
  import opened Bets
  import opened Settlement

  /** The insured bets with ids 1..n, in ascending id order. */
  function InIdOrder(m: map<int, Bet>, n: nat): (r: seq<Bet>)
    requires forall id :: 1 <= id <= n ==> id in m
    ensures |r| == n
  {
    seq(n, k requires 0 <= k < n => m[k + 1])
  }

  /** Taking one more id adds that bet at the end: the insured-bet loops
      (ApostaController.java:181-187) visit the ids in ascending order. */
  lemma InIdOrderSnoc(m: map<int, Bet>, n: nat)
    requires forall id :: 1 <= id <= n + 1 ==> id in m
    ensures InIdOrder(m, n + 1) == InIdOrder(m, n) + [m[n + 1]]
  {
  }

  /** Storing a bet under the next id adds it at the end of the id order. */
  lemma InIdOrderExtend(m: map<int, Bet>, n: nat, b: Bet)
    requires forall id :: 1 <= id <= n ==> id in m
    ensures InIdOrder(m[n + 1 := b], n + 1) == InIdOrder(m, n) + [b]
  {
    InIdOrderSnoc(m[n + 1 := b], n);
    assert InIdOrder(m[n + 1 := b], n) == InIdOrder(m, n);
  }

  /** Replacing the bet under an id replaces it in place in the id order. */
  lemma InIdOrderUpdate(m: map<int, Bet>, n: nat, id: int, b: Bet)
    requires forall k :: 1 <= k <= n ==> k in m
    requires 1 <= id <= n
    ensures InIdOrder(m[id := b], n) == InIdOrder(m, n)[id - 1 := b]
  {
  }

  /** The texts of bets, one per bet. */
  function Texts(bets: seq<Bet>): (r: seq<string>)
    ensures |r| == |bets|
  {
    seq(|bets|, i requires 0 <= i < |bets| => ToText(bets[i]))
  }

  /** Rendering one more bet extends the rendered text by one line. */
  lemma RenderStep(bets: seq<Bet>, b: Bet)
    ensures Join(Texts(bets + [b]), LineSeparator) == AppendLine(Join(Texts(bets), LineSeparator), ToText(b))
  {
    assert Texts(bets + [b]) == Texts(bets) + [ToText(b)];
    forall i | 0 <= i < |Texts(bets)|
      ensures Texts(bets)[i] != []
    {
      TextStartsWithBettor(bets[i]);
    }
    JoinSnoc(Texts(bets), ToText(b));
  }

  /** Rendering the next bet of a sequence extends the rendered prefix by one line. */
  lemma RenderPrefixStep(bets: seq<Bet>, i: nat)
    requires i < |bets|
    ensures Join(Texts(bets[..i + 1]), LineSeparator)
            == AppendLine(Join(Texts(bets[..i]), LineSeparator), ToText(bets[i]))
  {
    assert bets[..i + 1] == bets[..i] + [bets[i]];
    RenderStep(bets[..i], bets[i]);
  }

  /** Rendering the insured bet under the next id extends the rendered text by one line. */
  lemma RenderIdStep(plain: seq<Bet>, m: map<int, Bet>, n: nat)
    requires forall id :: 1 <= id <= n + 1 ==> id in m
    ensures Join(Texts(plain + InIdOrder(m, n + 1)), LineSeparator)
            == AppendLine(Join(Texts(plain + InIdOrder(m, n)), LineSeparator), ToText(m[n + 1]))
  {
    InIdOrderSnoc(m, n);
    assert plain + InIdOrder(m, n + 1) == (plain + InIdOrder(m, n)) + [m[n + 1]];
    RenderStep(plain + InIdOrder(m, n), m[n + 1]);
  }

  class BetLedger {
    /** Plain bets, in the order they were registered. */
    var apostas: seq<Bet>
    /** Insured bets by id. */
    var asseguradas: map<int, Bet>
    /** The id the next insured bet receives. */
    var idBase: int
    var valorTotal: int
    var quantidade: int

    /** Insured ids are exactly 1 .. idBase-1: every id handed out is kept. */
    ghost predicate IdsDense()
      reads this
    {
      idBase >= 1 && forall id :: id in asseguradas <==> 1 <= id < idBase
    }

    /** The insured bets in id order. */
    ghost function InsuredBets(): seq<Bet>
      reads this
      requires IdsDense()
    {
      InIdOrder(asseguradas, idBase - 1)
    }

    /** Every bet of the ledger: plain bets first, then insured bets by id. */
    ghost function AllBets(): seq<Bet>
      reads this
      requires IdsDense()
    {
      apostas + InsuredBets()
    }

    ghost predicate Valid()
      reads this
    {
      && IdsDense()
      && (forall i :: 0 <= i < |apostas| ==> apostas[i].Plain? && WellFormed(apostas[i]))
      && (forall id :: id in asseguradas ==> asseguradas[id].Insured? && WellFormed(asseguradas[id]))
      && valorTotal == TotalStake(apostas) + TotalStake(InsuredBets())
      && quantidade == |apostas| + |InsuredBets()|
    }

    lemma BetsWellFormed()
      requires Valid()
      ensures forall i :: 0 <= i < |AllBets()| ==> WellFormed(AllBets()[i])
    {
      forall i | 0 <= i < |AllBets()|
        ensures WellFormed(AllBets()[i])
      {
        if i >= |apostas| {
          assert AllBets()[i] == asseguradas[i - |apostas| + 1];
        }
      }
    }

    constructor ()
      ensures Valid()
      ensures apostas == [] && asseguradas == map[] && idBase == 1
      ensures valorTotal == 0 && quantidade == 0
    {
      apostas := [];
      asseguradas := map[];
      idBase := 1;
      valorTotal := 0;
      quantidade := 0;
    }

    /** `getValorTotal`: the running total is the sum of every amount registered. */
    function ValorTotal(): (r: int)
      reads this
      requires Valid()
      ensures r == TotalStake(AllBets())
    {
      SumOfAppend(apostas, InsuredBets(), Stake);
      valorTotal
    }

    /** `getQuantidade`: the running count is the number of bets registered. */
    function Quantidade(): (r: int)
      reads this
      requires Valid()
      ensures r == |AllBets()|
    {
      quantidade
    }

    /** `cadastrar(apostador, valor, previsao)`: a plain bet. The label is checked
        first, then the bettor and the amount; a rejected bet changes nothing. */
    method Register(apostador: string, valor: int, previsao: string) returns (r: Outcome)
      requires Valid()
      modifies this
      ensures Valid()
      ensures r.Pass? <==> ParseLabel(previsao).Ok? && !IsBlank(apostador) && valor > 0
      ensures r.Fail? ==> r.error == InvalidField
      ensures r.Pass? ==> apostas == old(apostas) + [Plain(apostador, valor, ParseLabel(previsao).value)]
      ensures r.Fail? ==> apostas == old(apostas)
      ensures asseguradas == old(asseguradas) && idBase == old(idBase)
      ensures valorTotal == old(valorTotal) + (if r.Pass? then valor else 0)
      ensures quantidade == old(quantidade) + (if r.Pass? then 1 else 0)
    {
      if IsBlank(previsao) {
        return Fail(InvalidField);
      }
      var bet: Result<Bet>;
      if previsao == Happens {
        bet := NewBet(apostador, valor, true);
      } else if previsao == DoesNotHappen {
        bet := NewBet(apostador, valor, false);
      } else {
        return Fail(InvalidField);
      }
      if bet.Err? {
        return Fail(bet.error);
      }
      Append(bet.value);
      r := Pass;
    }

    /** Appends a well-formed plain bet, counting its amount and itself. */
    method Append(b: Bet)
      requires Valid() && b.Plain? && WellFormed(b)
      modifies this
      ensures Valid()
      ensures apostas == old(apostas) + [b]
      ensures asseguradas == old(asseguradas) && idBase == old(idBase)
      ensures valorTotal == old(valorTotal) + b.valor && quantidade == old(quantidade) + 1
    {
      SumOfSnoc(apostas, b, Stake);
      apostas := apostas + [b];
      valorTotal := valorTotal + b.valor;
      quantidade := quantidade + 1;
    }

    /** The two insured `cadastrar` overloads (value policy and rate policy): the
        bet gets the next id, which is returned; ids are shared by both kinds and
        never reused. A rejected bet consumes no id and changes nothing. */
    method RegisterInsured(apostador: string, valor: int, previsao: string, p: Policy, custo: int)
      returns (r: Result<int>)
      requires Valid()
      modifies this
      ensures Valid()
      ensures r.Ok? <==> ParseLabel(previsao).Ok?
                         && NewInsured(apostador, valor, ParseLabel(previsao).value, custo, p).Ok?
      ensures r.Err? ==> r.error == InvalidField
      ensures r.Err? ==> asseguradas == old(asseguradas) && idBase == old(idBase)
      ensures r.Err? ==> valorTotal == old(valorTotal) && quantidade == old(quantidade)
      ensures r.Ok? ==> r.value == old(idBase) && r.value >= 1 && r.value !in old(asseguradas)
      ensures r.Ok? ==> idBase == old(idBase) + 1
      ensures r.Ok? ==> asseguradas
                        == old(asseguradas)[r.value := Insured(apostador, valor, previsao == Happens, custo, p)]
      ensures r.Ok? ==> valorTotal == old(valorTotal) + valor && quantidade == old(quantidade) + 1
      ensures apostas == old(apostas)
    {
      if IsBlank(previsao) {
        return Err(InvalidField);
      }
      var parsed := ParseLabel(previsao);
      if parsed.Err? {
        return Err(parsed.error);
      }
      var bet := NewInsured(apostador, valor, parsed.value, custo, p);
      if bet.Err? {
        return Err(bet.error);
      }
      var id := Store(bet.value);
      r := Ok(id);
    }

    /** Stores a well-formed insured bet under the next id, which it returns,
        counting its amount and itself. */
    method Store(b: Bet) returns (id: int)
      requires Valid() && b.Insured? && WellFormed(b)
      modifies this
      ensures Valid()
      ensures id == old(idBase) && id >= 1 && id !in old(asseguradas)
      ensures idBase == old(idBase) + 1 && asseguradas == old(asseguradas)[id := b]
      ensures apostas == old(apostas)
      ensures valorTotal == old(valorTotal) + b.valor && quantidade == old(quantidade) + 1
    {
      ghost var before := InsuredBets();
      InIdOrderExtend(asseguradas, idBase - 1, b);
      SumOfSnoc(before, b, Stake);
      id := idBase;
      asseguradas := asseguradas[id := b];
      idBase := idBase + 1;
      valorTotal := valorTotal + b.valor;
      quantidade := quantidade + 1;
    }

    /** The two `alterar` overloads: the insured bet under `id` is replaced by one
        with the new policy (value or rate, whatever it had before), keeping its
        bettor, amount, prediction and cost; nothing else changes. */
    method Amend(id: int, p: Policy) returns (r: Result<int>)
      requires Valid()
      modifies this
      ensures Valid()
      ensures id <= 0 ==> r == Err(InvalidField)
      ensures id > 0 && id !in old(asseguradas) ==> r == Err(BetNotRegistered)
      ensures id in old(asseguradas) ==> (r.Ok? <==> PolicyPositive(p))
      ensures id in old(asseguradas) && r.Err? ==> r.error == InvalidField
      ensures r.Ok? ==> r.value == id
      ensures r.Ok? ==> asseguradas == old(asseguradas)[id := old(asseguradas)[id].(policy := p)]
      ensures r.Err? ==> asseguradas == old(asseguradas)
      ensures apostas == old(apostas) && idBase == old(idBase)
      ensures valorTotal == old(valorTotal) && quantidade == old(quantidade)
    {
      if id <= 0 {
        return Err(InvalidField);
      }
      if id !in asseguradas {
        return Err(BetNotRegistered);
      }
      var a := asseguradas[id];
      LabelRoundTrip(a.previsao);
      var previsao := ParseLabel(Label(a.previsao)).value;
      var bet := NewInsured(a.apostador, a.valor, previsao, a.custo, p);
      if bet.Err? {
        return Err(bet.error);
      }
      Replace(id, bet.value);
      r := Ok(id);
    }

    /** Stores a well-formed insured bet with the same amount under an id in
        use; the running amount and count stay right. */
    method Replace(id: int, b: Bet)
      requires Valid() && id in asseguradas
      requires b.Insured? && WellFormed(b) && b.valor == asseguradas[id].valor
      modifies this
      ensures Valid()
      ensures asseguradas == old(asseguradas)[id := b]
      ensures apostas == old(apostas) && idBase == old(idBase)
      ensures valorTotal == old(valorTotal) && quantidade == old(quantidade)
    {
      ghost var before := InsuredBets();
      InIdOrderUpdate(asseguradas, idBase - 1, id, b);
      SumOfReplace(before, id - 1, b, Stake);
      asseguradas := asseguradas[id := b];
    }

    /** The loop shape of `calculaCaixa`: plain bets in order, then insured
        bets by id, adding each one's weight. `seguroPerdedoras` and
        `getCustos` loop over the insured bets only; running the plain loop
        too gives the same result for them, because a plain bet weighs 0 under
        their measures (Settlement.PlainBetsInsureNothing). */
    method Accumulate(m: Measure) returns (v: int)
      requires IdsDense()
      ensures v == SumOf(AllBets(), m)
    {
      v := 0;
      for i := 0 to |apostas|
        invariant v == SumOf(apostas[..i], m)
      {
        SumOfPrefixStep(apostas, i, m);
        v := v + Weight(m, apostas[i]);
      }
      assert apostas[..|apostas|] == apostas;
      var id := 1;
      while id < idBase
        invariant 1 <= id <= idBase
        invariant v == SumOf(apostas, m) + SumOf(InIdOrder(asseguradas, id - 1), m)
      {
        InIdOrderSnoc(asseguradas, id - 1);
        SumOfSnoc(InIdOrder(asseguradas, id - 1), asseguradas[id], m);
        v := v + Weight(m, asseguradas[id]);
        id := id + 1;
      }
      SumOfAppend(apostas, InsuredBets(), m);
    }

    /** `calculaCaixa(ocorreu)`: the amount of every losing bet, plain or insured. */
    method LosingTotal(ocorreu: bool) returns (v: int)
      requires Valid()
      ensures v == LosingPool(AllBets(), ocorreu)
      ensures 0 <= v <= TotalStake(AllBets())
    {
      v := Accumulate(LosingStake(ocorreu));
      BetsWellFormed();
      LosingPoolBounds(AllBets(), ocorreu, 0.0);
    }

    /** `calculaCaixaPerdedoras(ocorreu, taxa)`: the house's cut of the losing pool,
        rounded down. */
    method HouseShare(ocorreu: bool, taxa: real) returns (v: int)
      requires Valid()
      ensures v == HouseCut(LosingPool(AllBets(), ocorreu), taxa)
      ensures 0.0 <= taxa <= 1.0 ==> 0 <= v <= LosingPool(AllBets(), ocorreu)
    {
      var pool := LosingTotal(ocorreu);
      v := HouseCut(pool, taxa);
    }

    /** `seguroPerdedoras(ocorreu)`: the insurance owed to the losing insured bets. */
    method InsuranceOwed(ocorreu: bool) returns (v: int)
      requires Valid()
      ensures v == Liability(InsuredBets(), ocorreu) && v == Liability(AllBets(), ocorreu)
      ensures v >= 0
    {
      v := Accumulate(LosingPayout(ocorreu));
      SumOfAppend(apostas, InsuredBets(), LosingPayout(ocorreu));
      PlainBetsInsureNothing(apostas, ocorreu);
      BetsWellFormed();
      SumOfNonNegative(AllBets(), LosingPayout(ocorreu));
    }

    /** `getCustos`: the cost of every insured bet, whatever the outcome. */
    method Costs() returns (v: int)
      requires Valid()
      ensures v == CostTotal(InsuredBets()) && v == CostTotal(AllBets())
      ensures v >= 0
    {
      v := Accumulate(Cost);
      SumOfAppend(apostas, InsuredBets(), Cost);
      PlainBetsInsureNothing(apostas, false);
      BetsWellFormed();
      SumOfNonNegative(AllBets(), Cost);
    }

    /** The emptiness test of `exibir` holds exactly when no bet was registered. */
    lemma EmptyIffNoBets()
      requires Valid()
      ensures (apostas == [] && asseguradas.Keys == {}) <==> AllBets() == []
    {
      if idBase > 1 {
        assert 1 in asseguradas;
        assert |InsuredBets()| > 0;
      } else {
        assert asseguradas.Keys == {} by {
          forall id | id in asseguradas ensures false {
          }
        }
      }
    }

    /** `exibir`: fails on an empty ledger; otherwise the texts of the plain bets in
        order and then of the insured bets by id, one per line. */
    method Render() returns (r: Result<string>)
      requires Valid()
      ensures AllBets() == [] ==> r == Err(NoWagers)
      ensures AllBets() != [] ==> r == Ok(Join(Texts(AllBets()), LineSeparator))
    {
      EmptyIffNoBets();
      if apostas == [] && asseguradas.Keys == {} {
        return Err(NoWagers);
      }
      var retorno := RenderPlain();
      retorno := RenderInsured(retorno);
      r := Ok(retorno);
    }

    /** The first loop of `exibir`: the plain bets in insertion order. */
    method RenderPlain() returns (retorno: string)
      ensures retorno == Join(Texts(apostas), LineSeparator)
    {
      retorno := "";
      for i := 0 to |apostas|
        invariant retorno == Join(Texts(apostas[..i]), LineSeparator)
      {
        RenderPrefixStep(apostas, i);
        retorno := AppendLine(retorno, ToText(apostas[i]));
      }
      assert apostas[..|apostas|] == apostas;
    }

    /** The second loop of `exibir`: the insured bets by ascending id, continuing
        the text of the plain bets. */
    method RenderInsured(plain: string) returns (retorno: string)
      requires IdsDense()
      requires plain == Join(Texts(apostas), LineSeparator)
      ensures retorno == Join(Texts(AllBets()), LineSeparator)
    {
      retorno := plain;
      assert apostas + InIdOrder(asseguradas, 0) == apostas;
      var id := 1;
      while id < idBase
        invariant 1 <= id <= idBase
        invariant retorno == Join(Texts(apostas + InIdOrder(asseguradas, id - 1)), LineSeparator)
      {
        RenderIdStep(apostas, asseguradas, id - 1);
        retorno := AppendLine(retorno, ToText(asseguradas[id]));
        id := id + 1;
      }
    }
  }
}
