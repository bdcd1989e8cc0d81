/** A scenario (Cenario): a described event that is open for bets until it is
    closed, once, with whether it happened. It owns the ledger of its bets and
    settles them against the stored outcome. */
module Scenarios {
  import opened Wrappers
  import opened Text
  import opened Bets
  import opened Settlement
  import opened Ledger

  /** The state part of `toString`. */
  function StatusText(encerrado: bool, ocorreu: bool): string {
    if !encerrado then "Nao finalizado"
    else if ocorreu then "Finalizado (ocorreu)"
    else "Finalizado (n ocorreu)"
  }

  /** `"<id> - <descricao> - "`, the part of `toString` fixed at construction. */
  function Header(id: int, descricao: string): string {
    IntToString(id) + " - " + descricao + " - "
  }

  /** `toString`: header, state and, for a positive bonus, the bonus in units.
      The text begins with the header and never ends there. */
  function ScenarioText(id: int, descricao: string, encerrado: bool, ocorreu: bool, bonus: int): (r: string)
    ensures |r| > |Header(id, descricao)| && r[..|Header(id, descricao)|] == Header(id, descricao)
  {
    Header(id, descricao) + StatusText(encerrado, ocorreu)
    + (if bonus > 0 then " - R$ " + Fixed2(bonus as real / 100.0) else "")
  }

  /** The bonus is shown as its exact amount of cents, and only when positive. */
  lemma ScenarioTextParts(id: int, descricao: string, encerrado: bool, ocorreu: bool, bonus: int)
    ensures ScenarioText(id, descricao, encerrado, ocorreu, bonus)
            == Header(id, descricao) + StatusText(encerrado, ocorreu)
               + (if bonus > 0 then " - R$ " + Cents(bonus) else "")
  {
    Fixed2OfCents(bonus);
  }

  /** The state texts differ at their first character (open or closed) and,
      once closed, at the thirteenth (happened or not). */
  lemma StatusTextDistinguishes(e1: bool, o1: bool, e2: bool, o2: bool)
    requires StatusText(e1, o1)[0] == StatusText(e2, o2)[0]
    requires StatusText(e1, o1)[12] == StatusText(e2, o2)[12]
    ensures e1 == e2 && (e1 ==> o1 == o2)
    ensures StatusText(e1, o1) == StatusText(e2, o2)
  {
  }

  /** The characters of the middle part of `h + s + x`, and what follows it:
      with `h` the header, `s` the state and `x` the bonus part of `toString`
      (Cenario.java:124-135), the state and bonus can be read back. */
  lemma MiddlePart(h: string, s: string, x: string)
    ensures forall i :: 0 <= i < |s| ==> (h + s + x)[|h| + i] == s[i]
    ensures (h + s + x)[|h| + |s|..] == x
  {
  }

  /** The text of a scenario tells its state apart: two texts of the same
      scenario agree only when it is open in both or closed with the same
      outcome, and the bonus shown is the same. */
  lemma ScenarioTextInjective(id: int, descricao: string,
                              e1: bool, o1: bool, b1: int, e2: bool, o2: bool, b2: int)
    requires ScenarioText(id, descricao, e1, o1, b1) == ScenarioText(id, descricao, e2, o2, b2)
    ensures e1 == e2
    ensures e1 ==> o1 == o2
    ensures b1 > 0 <==> b2 > 0
    ensures b1 > 0 ==> b1 == b2
  {
    ScenarioTextParts(id, descricao, e1, o1, b1);
    ScenarioTextParts(id, descricao, e2, o2, b2);
    var h := Header(id, descricao);
    var s1, s2 := StatusText(e1, o1), StatusText(e2, o2);
    var x1 := if b1 > 0 then " - R$ " + Cents(b1) else "";
    var x2 := if b2 > 0 then " - R$ " + Cents(b2) else "";
    var t := h + s1 + x1;
    assert t == h + s2 + x2;
    MiddlePart(h, s1, x1);
    MiddlePart(h, s2, x2);
    assert s1[0] == t[|h|] == s2[0];
    assert s1[12] == t[|h| + 12] == s2[12];
    StatusTextDistinguishes(e1, o1, e2, o2);
    assert x1 == t[|h| + |s1|..] == x2;
    if b1 > 0 && b2 > 0 {
      assert Cents(b1) == x1[6..] == x2[6..] == Cents(b2);
      CentsInjective(b1, b2);
    }
  }

  class Scenario {
    const id: int
    const descricao: string
    const bonus: int
    /** The bets placed on this scenario (its ApostaController). */
    const ledger: BetLedger
    var encerrado: bool
    var ocorreu: bool

    /** Construction checks hold, the outcome is only set once closed, and the
        ledger keeps its own invariant. */
    ghost predicate Valid()
      reads this, ledger
    {
      && id > 0
      && !IsBlank(descricao)
      && (!encerrado ==> !ocorreu)
      && ledger.Valid()
    }

    constructor (id: int, descricao: string, bonus: int)
      requires id > 0 && !IsBlank(descricao)
      ensures Valid() && fresh(ledger)
      ensures this.id == id && this.descricao == descricao && this.bonus == bonus
      ensures !encerrado && !ocorreu
      ensures ledger.apostas == [] && ledger.asseguradas == map[] && ledger.idBase == 1
    {
      this.id := id;
      this.descricao := descricao;
      this.bonus := bonus;
      encerrado := false;
      ocorreu := false;
      ledger := new BetLedger();
    }

    /** `toString`: begins with this scenario's id and description. */
    function Text(): (r: string)
      reads this
      ensures |r| > |Header(id, descricao)| && r[..|Header(id, descricao)|] == Header(id, descricao)
    {
      ScenarioText(id, descricao, encerrado, ocorreu, bonus)
    }

    /** `encerrar`: closes an open scenario, keeping the outcome "not occurred";
        a closed scenario cannot be closed again. */
    method Close() returns (r: Outcome)
      requires Valid()
      modifies this
      ensures Valid()
      ensures r.Pass? <==> !old(encerrado)
      ensures r.Fail? ==> r.error == AlreadyClosed && encerrado == old(encerrado)
      ensures encerrado && ocorreu == old(ocorreu)
    {
      if encerrado {
        return Fail(AlreadyClosed);
      }
      encerrado := true;
      r := Pass;
    }

    /** `ocorrer`: records the outcome and closes the scenario; a closed
        scenario keeps the outcome it was closed with. */
    method Occur(o: bool) returns (r: Outcome)
      requires Valid()
      modifies this
      ensures Valid()
      ensures r.Pass? <==> !old(encerrado)
      ensures r.Fail? ==> r.error == AlreadyClosed && ocorreu == old(ocorreu)
      ensures r.Pass? ==> ocorreu == o
      ensures encerrado
    {
      if encerrado {
        return Fail(AlreadyClosed);
      }
      ocorreu := o;
      encerrado := true;
      r := Pass;
    }

    /** `apostar`: a plain bet, accepted whether or not the scenario is closed. */
    method PlaceBet(apostador: string, valor: int, previsao: string) returns (r: Outcome)
      requires Valid()
      modifies ledger
      ensures Valid()
      ensures r.Pass? <==> ParseLabel(previsao).Ok? && !IsBlank(apostador) && valor > 0
      ensures r.Fail? ==> r.error == InvalidField
      ensures r.Pass? ==> ledger.apostas
                          == old(ledger.apostas) + [Plain(apostador, valor, ParseLabel(previsao).value)]
      ensures r.Fail? ==> ledger.apostas == old(ledger.apostas)
      ensures ledger.asseguradas == old(ledger.asseguradas) && ledger.idBase == old(ledger.idBase)
      ensures ledger.ValorTotal() == old(ledger.ValorTotal()) + (if r.Pass? then valor else 0)
      ensures ledger.Quantidade() == old(ledger.Quantidade()) + (if r.Pass? then 1 else 0)
    {
      if IsBlank(previsao) {
        return Fail(InvalidField);
      }
      r := ledger.Register(apostador, valor, previsao);
    }

    /** `apostarSeguroValor`: a bet insured for a fixed value; returns its id. */
    method PlaceValueInsuredBet(apostador: string, valor: int, previsao: string, seguro: int, custo: int)
      returns (r: Result<int>)
      requires Valid()
      modifies ledger
      ensures Valid()
      ensures r.Ok? <==> ParseLabel(previsao).Ok?
                         && NewInsured(apostador, valor, ParseLabel(previsao).value, custo, Seguro(seguro)).Ok?
      ensures r.Err? ==> r.error == InvalidField
      ensures r.Err? ==> ledger.asseguradas == old(ledger.asseguradas) && ledger.idBase == old(ledger.idBase)
      ensures r.Ok? ==> r.value == old(ledger.idBase)
      ensures r.Ok? ==> ledger.asseguradas == old(ledger.asseguradas)[r.value :=
                          Insured(apostador, valor, previsao == Happens, custo, Seguro(seguro))]
      ensures ledger.apostas == old(ledger.apostas)
      ensures ledger.ValorTotal() == old(ledger.ValorTotal()) + (if r.Ok? then valor else 0)
    {
      r := ledger.RegisterInsured(apostador, valor, previsao, Seguro(seguro), custo);
    }

    /** `apostarSeguroTaxa`: checks bettor, amount and label itself before the
        ledger sees the bet; returns its id. */
    method PlaceRateInsuredBet(apostador: string, valor: int, previsao: string, taxa: real, custo: int)
      returns (r: Result<int>)
      requires Valid()
      modifies ledger
      ensures Valid()
      ensures r.Ok? <==> ParseLabel(previsao).Ok?
                         && NewInsured(apostador, valor, ParseLabel(previsao).value, custo, Taxa(taxa)).Ok?
      ensures r.Err? ==> r.error == InvalidField
      ensures r.Err? ==> ledger.asseguradas == old(ledger.asseguradas) && ledger.idBase == old(ledger.idBase)
      ensures r.Ok? ==> r.value == old(ledger.idBase)
      ensures r.Ok? ==> ledger.asseguradas == old(ledger.asseguradas)[r.value :=
                          Insured(apostador, valor, previsao == Happens, custo, Taxa(taxa))]
      ensures ledger.apostas == old(ledger.apostas)
      ensures ledger.ValorTotal() == old(ledger.ValorTotal()) + (if r.Ok? then valor else 0)
    {
      if IsBlank(apostador) || valor <= 0 || IsBlank(previsao) {
        return Err(InvalidField);
      }
      if !(previsao == Happens || previsao == DoesNotHappen) {
        return Err(InvalidField);
      }
      r := ledger.RegisterInsured(apostador, valor, previsao, Taxa(taxa), custo);
    }

    /** Both `alterarSeguro` overloads: the insured bet `idAposta` takes the new
        policy, in either state of the scenario. */
    method AmendInsurance(idAposta: int, p: Policy) returns (r: Result<int>)
      requires Valid()
      modifies ledger
      ensures Valid()
      ensures idAposta <= 0 ==> r == Err(InvalidField)
      ensures idAposta > 0 && idAposta !in old(ledger.asseguradas) ==> r == Err(BetNotRegistered)
      ensures idAposta in old(ledger.asseguradas) ==> (r.Ok? <==> PolicyPositive(p))
      ensures r.Ok? ==> r.value == idAposta && ledger.asseguradas
                        == old(ledger.asseguradas)[idAposta := old(ledger.asseguradas)[idAposta].(policy := p)]
      ensures r.Err? ==> ledger.asseguradas == old(ledger.asseguradas)
      ensures ledger.apostas == old(ledger.apostas) && ledger.idBase == old(ledger.idBase)
      ensures ledger.ValorTotal() == old(ledger.ValorTotal()) && ledger.Quantidade() == old(ledger.Quantidade())
    {
      r := ledger.Amend(idAposta, p);
    }

    /** `getValorTotalDeApostas`: the sum of every amount bet on the scenario. */
    function Staked(): (r: int)
      reads this, ledger
      requires Valid()
      ensures r == TotalStake(ledger.AllBets())
    {
      ledger.ValorTotal()
    }

    /** `totalApostas`: the number of bets placed on the scenario. */
    function Count(): (r: int)
      reads this, ledger
      requires Valid()
      ensures r == |ledger.AllBets()|
    {
      ledger.Quantidade()
    }

    /** `getCaixa`: the losing side's pool under the stored outcome, which an
        open scenario reads as "not occurred". */
    method LosingTotal() returns (v: int)
      requires Valid()
      ensures v == LosingPool(ledger.AllBets(), ocorreu)
      ensures !encerrado ==> v == LosingPool(ledger.AllBets(), false)
      ensures 0 <= v <= Staked()
    {
      v := ledger.LosingTotal(ocorreu);
    }

    /** `calculaCaixa(taxa)`: the house's cut of the losing pool. */
    method HouseShare(taxa: real) returns (v: int)
      requires Valid()
      ensures v == HouseCut(LosingPool(ledger.AllBets(), ocorreu), taxa)
      ensures 0.0 <= taxa <= 1.0 ==> 0 <= v <= LosingPool(ledger.AllBets(), ocorreu)
    {
      v := ledger.HouseShare(ocorreu, taxa);
    }

    /** `calculaSeguro`: the insurance owed to the losing insured bets. */
    method InsuranceOwed() returns (v: int)
      requires Valid()
      ensures v == Liability(ledger.AllBets(), ocorreu)
      ensures v >= 0
    {
      v := ledger.InsuranceOwed(ocorreu);
    }

    /** `getCustosApostas`: the cost of every insured bet. */
    method Costs() returns (v: int)
      requires Valid()
      ensures v == CostTotal(ledger.AllBets())
      ensures v >= 0
    {
      v := ledger.Costs();
    }

    /** `exibiApostas`: the ledger's listing, or NoWagers when there is no bet. */
    method RenderBets() returns (r: Result<string>)
      requires Valid()
      ensures ledger.AllBets() == [] ==> r == Err(NoWagers)
      ensures ledger.AllBets() != [] ==> r == Ok(Join(Texts(ledger.AllBets()), LineSeparator))
    {
      r := ledger.Render();
    }
  }

  /** `new Cenario(id, descricao)`: rejects a non-positive id or a blank
      description; a new scenario is open, without bonus and without bets. */
  method NewScenario(id: int, descricao: string) returns (r: Result<Scenario>)
    ensures r.Ok? <==> id > 0 && !IsBlank(descricao)
    ensures r.Err? ==> r.error == InvalidField
    ensures r.Ok? ==> fresh(r.value) && fresh(r.value.ledger) && r.value.Valid()
    ensures r.Ok? ==> r.value.id == id && r.value.descricao == descricao && r.value.bonus == 0
    ensures r.Ok? ==> !r.value.encerrado && !r.value.ocorreu && r.value.ledger.AllBets() == []
  {
    r := NewScenarioWithBonus(id, descricao, 0);
  }

  /** `new Cenario(id, descricao, bonus)`: the same checks; the bonus itself is
      not checked. */
  method NewScenarioWithBonus(id: int, descricao: string, bonus: int) returns (r: Result<Scenario>)
    ensures r.Ok? <==> id > 0 && !IsBlank(descricao)
    ensures r.Err? ==> r.error == InvalidField
    ensures r.Ok? ==> fresh(r.value) && fresh(r.value.ledger) && r.value.Valid()
    ensures r.Ok? ==> r.value.id == id && r.value.descricao == descricao && r.value.bonus == bonus
    ensures r.Ok? ==> !r.value.encerrado && !r.value.ocorreu && r.value.ledger.AllBets() == []
  {
    if id <= 0 || IsBlank(descricao) {
      return Err(InvalidField);
    }
    var s := new Scenario(id, descricao, bonus);
    r := Ok(s);
  }
}
