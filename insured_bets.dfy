/** The insured bet objects whose insurance term can be revised in place:
    ApostaSeguroValor (`setSeguro`) and ApostaSeguroTaxa (`setTaxa`). Bettor,
    amount, prediction and cost are fixed at construction. */
module InsuredBets {
  import opened Wrappers
  import opened Bets

  class ValueInsuredBet {
    const apostador: string
    const valor: int
    const previsao: bool
    const custo: int
    var seguro: int

    /** The bet this object currently stands for. */
    function Value(): (b: Bet)
      reads this
    {
      Insured(apostador, valor, previsao, custo, Seguro(seguro))
    }

    ghost predicate Valid()
      reads this
    {
      WellFormed(Value())
    }

    constructor (b: Bet)
      requires b.Insured? && b.policy.Seguro? && WellFormed(b)
      ensures Value() == b && Valid()
    {
      apostador, valor, previsao, custo := b.apostador, b.valor, b.previsao, b.custo;
      seguro := b.policy.seguro;
    }

    /** `getSeguro`. */
    function GetSeguro(): (s: int)
      reads this
      ensures Value().policy == Seguro(s)
    {
      seguro
    }

    /** `setSeguro`, rejecting a non-positive value: on success only the insured
        value changes. */
    method SetSeguro(s: int) returns (r: Outcome)
      requires Valid()
      modifies this
      ensures Valid()
      ensures r.Pass? <==> s > 0
      ensures r.Fail? ==> r.error == InvalidField && seguro == old(seguro)
      ensures r.Pass? ==> Value() == old(Value()).(policy := Seguro(s))
    {
      if s <= 0 {
        return Fail(InvalidField);
      }
      seguro := s;
      r := Pass;
    }
  }

  class RateInsuredBet {
    const apostador: string
    const valor: int
    const previsao: bool
    const custo: int
    var taxa: real

    /** The bet this object currently stands for. */
    function Value(): (b: Bet)
      reads this
    {
      Insured(apostador, valor, previsao, custo, Taxa(taxa))
    }

    ghost predicate Valid()
      reads this
    {
      WellFormed(Value())
    }

    constructor (b: Bet)
      requires b.Insured? && b.policy.Taxa? && WellFormed(b)
      ensures Value() == b && Valid()
    {
      apostador, valor, previsao, custo := b.apostador, b.valor, b.previsao, b.custo;
      taxa := b.policy.taxa;
    }

    /** `getTaxa`. */
    function GetTaxa(): (t: real)
      reads this
      ensures Value().policy == Taxa(t)
    {
      taxa
    }

    /** `setTaxa`, rejecting a non-positive rate: on success only the rate changes. */
    method SetTaxa(t: real) returns (r: Outcome)
      requires Valid()
      modifies this
      ensures Valid()
      ensures r.Pass? <==> t > 0.0
      ensures r.Fail? ==> r.error == InvalidField && taxa == old(taxa)
      ensures r.Pass? ==> Value() == old(Value()).(policy := Taxa(t))
    {
      if t <= 0.0 {
        return Fail(InvalidField);
      }
      taxa := t;
      r := Pass;
    }
  }

  /** `new ApostaSeguroValor(...)`: a fresh object exactly when the checks pass. */
  method NewValueInsuredBet(apostador: string, valor: int, previsao: bool, seguro: int, custo: int)
    returns (r: Result<ValueInsuredBet>)
    ensures r.Ok? <==> NewInsured(apostador, valor, previsao, custo, Seguro(seguro)).Ok?
    ensures r.Err? ==> r.error == InvalidField
    ensures r.Ok? ==> fresh(r.value) && r.value.Valid()
    ensures r.Ok? ==> r.value.Value() == Insured(apostador, valor, previsao, custo, Seguro(seguro))
  {
    var b := NewInsured(apostador, valor, previsao, custo, Seguro(seguro));
    if b.Err? {
      return Err(b.error);
    }
    var o := new ValueInsuredBet(b.value);
    r := Ok(o);
  }

  /** `new ApostaSeguroTaxa(...)`: a fresh object exactly when the checks pass. */
  method NewRateInsuredBet(apostador: string, valor: int, previsao: bool, taxa: real, custo: int)
    returns (r: Result<RateInsuredBet>)
    ensures r.Ok? <==> NewInsured(apostador, valor, previsao, custo, Taxa(taxa)).Ok?
    ensures r.Err? ==> r.error == InvalidField
    ensures r.Ok? ==> fresh(r.value) && r.value.Valid()
    ensures r.Ok? ==> r.value.Value() == Insured(apostador, valor, previsao, custo, Taxa(taxa))
  {
    var b := NewInsured(apostador, valor, previsao, custo, Taxa(taxa));
    if b.Err? {
      return Err(b.error);
    }
    var o := new RateInsuredBet(b.value);
    r := Ok(o);
  }
}
