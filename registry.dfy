/** The scenario registry (CenarioController): scenarios under sequential ids,
    the house's cash box and the fee rate it takes from every losing pool. */
module Registry {
  import opened Wrappers
  import opened Text
  import opened Bets
  import opened Settlement
  import opened Ledger
  import opened Scenarios

  /** The members of `keys` between 1 and `n - 1`, in ascending order. */
  function IdsBelow(keys: set<int>, n: int): (r: seq<int>)
    ensures forall x :: x in r <==> x in keys && 1 <= x < n
    decreases n
  {
    if n <= 1 then [] else IdsBelow(keys, n - 1) + (if n - 1 in keys then [n - 1] else [])
  }

  predicate StrictlyIncreasing(s: seq<int>) {
    forall i, j :: 0 <= i < j < |s| ==> s[i] < s[j]
  }

  /** The ids below `n` are listed in strictly ascending order, so each once. */
  lemma {:induction false} IdsBelowSorted(keys: set<int>, n: int)
    ensures StrictlyIncreasing(IdsBelow(keys, n))
    decreases n
  {
    if n > 1 {
      IdsBelowSorted(keys, n - 1);
      var prev := IdsBelow(keys, n - 1);
      forall i | 0 <= i < |prev|
        ensures prev[i] < n - 1
      {
        assert prev[i] in prev;
      }
    }
  }

  class ScenarioRegistry {
    /** The house's cash box, fixed when the system starts. */
    const caixa: int
    /** The fraction of every losing pool the house takes. */
    const taxa: real
    /** The id the next registration takes. */
    var idBase: int
    var cenarios: map<int, Scenario>

    /** The ledgers of the registered scenarios. */
    ghost function Ledgers(): set<object>
      reads this
    {
      set k | k in cenarios :: cenarios[k].ledger
    }

    /** Every scenario is stored under its own id, taken below `idBase`, and
        owns a ledger no other scenario shares. */
    ghost predicate Valid()
      reads this, cenarios.Values, Ledgers()
    {
      && idBase >= 1
      && (forall k :: k in cenarios ==> 1 <= k < idBase && cenarios[k].id == k)
      && (forall k :: k in cenarios ==> cenarios[k].Valid())
      && (forall j, k :: j in cenarios && k in cenarios && j != k ==> cenarios[j].ledger != cenarios[k].ledger)
    }

    /** `new CenarioController(caixa, taxa)`: no scenario yet, next id 1. */
    constructor (caixa: int, taxa: real)
      ensures Valid()
      ensures this.caixa == caixa && this.taxa == taxa
      ensures cenarios == map[] && idBase == 1
    {
      this.caixa := caixa;
      this.taxa := taxa;
      idBase := 1;
      cenarios := map[];
    }

    /** `cadastrar`: the id is taken before the description is checked, so a
        rejected description still uses one up. */
    method Register(descricao: string) returns (r: Result<int>)
      requires Valid()
      modifies this
      ensures Valid()
      ensures idBase == old(idBase) + 1
      ensures r.Ok? <==> !IsBlank(descricao)
      ensures r.Err? ==> r.error == InvalidField && cenarios == old(cenarios)
      ensures r.Ok? ==> r.value == old(idBase) && r.value !in old(cenarios)
      ensures r.Ok? ==> r.value in cenarios && cenarios == old(cenarios)[r.value := cenarios[r.value]]
      ensures r.Ok? ==> fresh(cenarios[r.value]) && fresh(cenarios[r.value].ledger)
      ensures r.Ok? ==> cenarios[r.value].descricao == descricao && cenarios[r.value].bonus == 0
      ensures r.Ok? ==> !cenarios[r.value].encerrado && cenarios[r.value].ledger.AllBets() == []
    {
      var id := idBase;
      idBase := idBase + 1;
      var created := NewScenario(id, descricao);
      if created.Err? {
        return Err(created.error);
      }
      cenarios := cenarios[id := created.value];
      r := Ok(id);
    }

    /** `exibirCenario`: the text of the scenario registered under `id`. */
    function ShowScenario(id: int): (r: Result<string>)
      reads this, cenarios.Values, Ledgers()
      requires Valid()
      ensures id !in cenarios ==> r == Err(ScenarioNotRegistered)
      ensures id in cenarios ==> r == Ok(ScenarioText(id, cenarios[id].descricao, cenarios[id].encerrado,
                                                     cenarios[id].ocorreu, cenarios[id].bonus))
    {
      if id !in cenarios then Err(ScenarioNotRegistered) else Ok(cenarios[id].Text())
    }

    /** `setToList`: the registered ids in ascending order. */
    method SortedKeys() returns (keys: seq<int>)
      requires Valid()
      ensures keys == IdsBelow(cenarios.Keys, idBase)
      ensures StrictlyIncreasing(keys)
      ensures forall k :: k in keys <==> k in cenarios
    {
      keys := [];
      var k := 1;
      while k < idBase
        invariant 1 <= k <= idBase
        invariant keys == IdsBelow(cenarios.Keys, k)
      {
        if k in cenarios {
          keys := keys + [k];
        }
        k := k + 1;
      }
      IdsBelowSorted(cenarios.Keys, idBase);
    }

    /** The texts of the scenarios under `keys`, in that order. */
    function Listing(keys: seq<int>): (r: seq<string>)
      reads this, cenarios.Values
      requires forall i :: 0 <= i < |keys| ==> keys[i] in cenarios
      ensures |r| == |keys|
    {
      seq(|keys|, i reads this, cenarios.Values requires 0 <= i < |keys| && keys[i] in cenarios =>
            cenarios[keys[i]].Text())
    }

    /** Every scenario text is non-empty: it starts with the id. */
    lemma ListingNonEmpty(keys: seq<int>)
      requires forall i :: 0 <= i < |keys| ==> keys[i] in cenarios
      ensures forall j :: 0 <= j < |keys| ==> Listing(keys)[j] != []
    {
    }

    /** One more key adds its scenario's text as a new line. */
    lemma ListingStep(keys: seq<int>, i: nat)
      requires forall i :: 0 <= i < |keys| ==> keys[i] in cenarios
      requires i < |keys|
      ensures Join(Listing(keys[..i + 1]), LineSeparator)
              == AppendLine(Join(Listing(keys[..i]), LineSeparator), cenarios[keys[i]].Text())
    {
      assert Listing(keys[..i + 1]) == Listing(keys[..i]) + [cenarios[keys[i]].Text()];
      ListingNonEmpty(keys[..i]);
      JoinSnoc(Listing(keys[..i]), cenarios[keys[i]].Text());
    }

    /** `exibirCenarios`: every scenario's text, by ascending id, one per line;
        empty when nothing is registered. */
    method ShowAll() returns (retorno: string)
      requires Valid()
      ensures retorno == Join(Listing(IdsBelow(cenarios.Keys, idBase)), LineSeparator)
      ensures cenarios == map[] <==> retorno == ""
    {
      var keys := SortedKeys();
      retorno := RenderKeys(keys);
      ListingNonEmpty(keys);
      JoinShape(Listing(keys), LineSeparator);
      if cenarios != map[] {
        var k :| k in cenarios;
        assert k in keys;
      }
    }

    /** The loop of `exibirCenarios`: appends the text of each scenario under
        `keys`, in order, on a line of its own. */
    method RenderKeys(keys: seq<int>) returns (retorno: string)
      requires forall i :: 0 <= i < |keys| ==> keys[i] in cenarios
      ensures retorno == Join(Listing(keys), LineSeparator)
    {
      retorno := "";
      for i := 0 to |keys|
        invariant retorno == Join(Listing(keys[..i]), LineSeparator)
      {
        ListingStep(keys, i);
        retorno := AppendLine(retorno, cenarios[keys[i]].Text());
      }
      assert keys[..|keys|] == keys;
    }

    /** `apostar`: a plain bet on scenario `id`, whose prediction is given as a
        boolean; the bet's own checks apply. */
    method PlaceBet(id: int, apostador: string, valor: int, previsao: bool) returns (r: Outcome)
      requires Valid()
      modifies if id in cenarios then {cenarios[id].ledger} else {}
      ensures Valid()
      ensures cenarios == old(cenarios) && idBase == old(idBase)
      ensures id !in cenarios ==> r == Fail(ScenarioNotRegistered)
      ensures id in cenarios ==> (r.Pass? <==> NewBet(apostador, valor, previsao).Ok?)
      ensures id in cenarios && r.Fail? ==> r.error == InvalidField
      ensures id in cenarios && r.Pass? ==> cenarios[id].ledger.apostas
                                            == old(cenarios[id].ledger.apostas) + [Plain(apostador, valor, previsao)]
      ensures id in cenarios && r.Fail? ==> cenarios[id].ledger.apostas == old(cenarios[id].ledger.apostas)
      ensures id in cenarios ==> cenarios[id].ledger.asseguradas == old(cenarios[id].ledger.asseguradas)
                                 && cenarios[id].ledger.idBase == old(cenarios[id].ledger.idBase)
      ensures id in cenarios ==> cenarios[id].ledger.ValorTotal()
                                 == old(cenarios[id].ledger.ValorTotal()) + (if r.Pass? then valor else 0)
      ensures id in cenarios ==> cenarios[id].ledger.Quantidade()
                                 == old(cenarios[id].ledger.Quantidade()) + (if r.Pass? then 1 else 0)
    {
      if id !in cenarios {
        return Fail(ScenarioNotRegistered);
      }
      var bet := NewBet(apostador, valor, previsao);
      if bet.Err? {
        return Fail(bet.error);
      }
      LabelRoundTrip(previsao);
      r := cenarios[id].PlaceBet(apostador, valor, Label(previsao));
    }

    /** `valorTotal`: the amount bet on scenario `id`. */
    function Staked(id: int): (r: Result<int>)
      reads this, cenarios.Values, Ledgers()
      requires Valid()
      ensures id !in cenarios ==> r == Err(ScenarioNotRegistered)
      ensures id in cenarios ==> r == Ok(TotalStake(cenarios[id].ledger.AllBets()))
    {
      if id !in cenarios then Err(ScenarioNotRegistered) else Ok(cenarios[id].Staked())
    }

    /** `totalApostas`: the number of bets on scenario `id`. */
    function BetCount(id: int): (r: Result<int>)
      reads this, cenarios.Values, Ledgers()
      requires Valid()
      ensures id !in cenarios ==> r == Err(ScenarioNotRegistered)
      ensures id in cenarios ==> r == Ok(|cenarios[id].ledger.AllBets()|)
    {
      if id !in cenarios then Err(ScenarioNotRegistered) else Ok(cenarios[id].Count())
    }

    /** `exibirApostas`: the bets of scenario `id`, one per line. */
    method RenderBets(id: int) returns (r: Result<string>)
      requires Valid()
      ensures id !in cenarios ==> r == Err(ScenarioNotRegistered)
      ensures id in cenarios && cenarios[id].ledger.AllBets() == [] ==> r == Err(NoWagers)
      ensures id in cenarios && cenarios[id].ledger.AllBets() != []
              ==> r == Ok(Join(Texts(cenarios[id].ledger.AllBets()), LineSeparator))
    {
      if id !in cenarios {
        return Err(ScenarioNotRegistered);
      }
      r := cenarios[id].RenderBets();
    }

    /** `fecharAposta`: closes scenario `id` with its outcome, once. */
    method Close(id: int, ocorreu: bool) returns (r: Outcome)
      requires Valid()
      modifies if id in cenarios then {cenarios[id]} else {}
      ensures Valid()
      ensures cenarios == old(cenarios) && idBase == old(idBase)
      ensures id !in cenarios ==> r == Fail(ScenarioNotRegistered)
      ensures id in cenarios ==> (r.Pass? <==> !old(cenarios[id].encerrado))
      ensures id in cenarios && r.Fail? ==> r.error == AlreadyClosed
      ensures id in cenarios ==> cenarios[id].encerrado
      ensures id in cenarios ==> cenarios[id].ocorreu == if r.Pass? then ocorreu else old(cenarios[id].ocorreu)
    {
      if id !in cenarios {
        return Fail(ScenarioNotRegistered);
      }
      r := cenarios[id].Occur(ocorreu);
    }

    /** `getCaixa(id)`: the house's cut of a closed scenario's losing pool. */
    method HouseCutFor(id: int) returns (r: Result<int>)
      requires Valid()
      ensures id !in cenarios ==> r == Err(ScenarioNotRegistered)
      ensures id in cenarios && !cenarios[id].encerrado ==> r == Err(NotClosed)
      ensures id in cenarios && cenarios[id].encerrado
              ==> r == Ok(HouseCut(LosingPool(cenarios[id].ledger.AllBets(), cenarios[id].ocorreu), taxa))
      ensures r.Ok? && 0.0 <= taxa <= 1.0
              ==> 0 <= r.value <= LosingPool(cenarios[id].ledger.AllBets(), cenarios[id].ocorreu)
    {
      if id !in cenarios {
        return Err(ScenarioNotRegistered);
      }
      var cenario := cenarios[id];
      if !cenario.encerrado {
        return Err(NotClosed);
      }
      var v := cenario.HouseShare(taxa);
      r := Ok(v);
    }

    /** `getTotalRateio`: what a closed scenario's losing pool leaves for the
        winners once the house has taken its cut. */
    method PayoutPoolFor(id: int) returns (r: Result<int>)
      requires Valid()
      ensures id !in cenarios ==> r == Err(ScenarioNotRegistered)
      ensures id in cenarios && !cenarios[id].encerrado ==> r == Err(NotClosed)
      ensures id in cenarios && cenarios[id].encerrado
              ==> r == Ok(PayoutPool(LosingPool(cenarios[id].ledger.AllBets(), cenarios[id].ocorreu), taxa))
      ensures r.Ok? && 0.0 <= taxa <= 1.0
              ==> 0 <= r.value <= LosingPool(cenarios[id].ledger.AllBets(), cenarios[id].ocorreu)
    {
      if id !in cenarios {
        return Err(ScenarioNotRegistered);
      }
      var cenario := cenarios[id];
      if !cenario.encerrado {
        return Err(NotClosed);
      }
      var pool := cenario.LosingTotal();
      var cut := cenario.HouseShare(taxa);
      r := Ok(pool - cut);
    }
  }
}
