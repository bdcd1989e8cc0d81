/** A bet (Aposta) and its insured variants (ApostaAssegurada, ApostaSeguroValor,
    ApostaSeguroTaxa) as values: construction with validation, the prediction
    label, structural equality, text rendering and the insurance payout. */
module Bets {
  import opened Wrappers
  import opened Text

  /** The insurance of an insured bet: a fixed value in cents (ApostaSeguroValor)
      or a rate applied to the amount (ApostaSeguroTaxa). */
  datatype Policy = Seguro(seguro: int) | Taxa(taxa: real)

  /** A plain bet, or an insured one with its cost to the scenario and its policy. */
  datatype Bet =
    | Plain(apostador: string, valor: int, previsao: bool)
    | Insured(apostador: string, valor: int, previsao: bool, custo: int, policy: Policy)

  const Happens: string := "VAI ACONTECER"
  const DoesNotHappen: string := "N VAI ACONTECER"

  predicate PolicyPositive(p: Policy) {
    match p
    case Seguro(s) => s > 0
    case Taxa(t) => t > 0.0
  }

  /** What every accepted bet satisfies: a named bettor and a positive amount;
      an insured bet also has a positive cost and a positive policy. */
  predicate WellFormed(b: Bet) {
    && !IsBlank(b.apostador)
    && b.valor > 0
    && (b.Insured? ==> b.custo > 0 && PolicyPositive(b.policy))
  }

  /** The Aposta constructor: rejects a blank bettor, then a non-positive amount. */
  function NewBet(apostador: string, valor: int, previsao: bool): (r: Result<Bet>)
    ensures r.Ok? <==> !IsBlank(apostador) && valor > 0
    ensures r.Err? ==> r.error == InvalidField
    ensures r.Ok? ==> r.value.Plain? && WellFormed(r.value)
    ensures r.Ok? ==> r.value.apostador == apostador && r.value.valor == valor && r.value.previsao == previsao
  {
    if IsBlank(apostador) then Err(InvalidField)
    else if valor <= 0 then Err(InvalidField)
    else Ok(Plain(apostador, valor, previsao))
  }

  /** The insured constructors as the code has them: only the Aposta checks run;
      the cost and the policy are stored unchecked. */
  function NewInsuredAsWritten(apostador: string, valor: int, previsao: bool, custo: int, p: Policy): (r: Result<Bet>)
    ensures r.Ok? <==> !IsBlank(apostador) && valor > 0
    ensures r.Ok? ==> r.value == Insured(apostador, valor, previsao, custo, p)
  {
    match NewBet(apostador, valor, previsao)
    case Err(e) => Err(e)
    case Ok(_) => Ok(Insured(apostador, valor, previsao, custo, p))
  }

  /** The insured constructors with the checks the system's own expectations ask
      for: after the Aposta checks, a non-positive cost or a non-positive
      insured value or rate is rejected as an invalid field. */
  function NewInsured(apostador: string, valor: int, previsao: bool, custo: int, p: Policy): (r: Result<Bet>)
    ensures r.Ok? <==> !IsBlank(apostador) && valor > 0 && custo > 0 && PolicyPositive(p)
    ensures r.Err? ==> r.error == InvalidField
    ensures r.Ok? ==> WellFormed(r.value) && r.value == Insured(apostador, valor, previsao, custo, p)
  {
    match NewBet(apostador, valor, previsao)
    case Err(e) => Err(e)
    case Ok(_) =>
      if custo <= 0 || !PolicyPositive(p) then Err(InvalidField)
      else Ok(Insured(apostador, valor, previsao, custo, p))
  }

  /** Finding: the code accepts an insured bet with a cost of zero or less,
      which the corrected constructor rejects. */
  lemma AsWrittenAcceptsNonPositiveCost(apostador: string, valor: int, previsao: bool, custo: int, p: Policy)
    requires !IsBlank(apostador) && valor > 0 && custo <= 0
    ensures var r := NewInsuredAsWritten(apostador, valor, previsao, custo, p);
      r.Ok? && !WellFormed(r.value)
    ensures NewInsured(apostador, valor, previsao, custo, p) == Err(InvalidField)
  {
  }

  /** Finding: the code accepts a value-insured bet with an insured value of
      zero or less, which the corrected constructor rejects. */
  lemma AsWrittenAcceptsNonPositiveSeguro(apostador: string, valor: int, previsao: bool, custo: int, seguro: int)
    requires !IsBlank(apostador) && valor > 0 && seguro <= 0
    ensures var r := NewInsuredAsWritten(apostador, valor, previsao, custo, Seguro(seguro));
      r.Ok? && !WellFormed(r.value)
    ensures NewInsured(apostador, valor, previsao, custo, Seguro(seguro)) == Err(InvalidField)
  {
  }

  /** Finding: the code accepts a rate-insured bet with a rate of zero or less,
      which the corrected constructor rejects. */
  lemma AsWrittenAcceptsNonPositiveTaxa(apostador: string, valor: int, previsao: bool, custo: int, taxa: real)
    requires !IsBlank(apostador) && valor > 0 && taxa <= 0.0
    ensures var r := NewInsuredAsWritten(apostador, valor, previsao, custo, Taxa(taxa));
      r.Ok? && !WellFormed(r.value)
    ensures NewInsured(apostador, valor, previsao, custo, Taxa(taxa)) == Err(InvalidField)
  {
  }

  /** The inputs of the findings above, taken from the system's expectations:
      "Samuel" with cost 0, with insured value 0 and with rate -10.2. */
  lemma AsWrittenExamples()
    ensures NewInsuredAsWritten("Samuel", 11, false, 0, Taxa(0.2)).Ok?
            && NewInsured("Samuel", 11, false, 0, Taxa(0.2)) == Err(InvalidField)
    ensures NewInsuredAsWritten("Samuel", 10, true, 100, Seguro(0)).Ok?
            && NewInsured("Samuel", 10, true, 100, Seguro(0)) == Err(InvalidField)
    ensures NewInsuredAsWritten("Samuel", 10, false, 100, Taxa(-10.2)).Ok?
            && NewInsured("Samuel", 10, false, 100, Taxa(-10.2)) == Err(InvalidField)
  {
    assert !IsBlank("Samuel") by {
      assert "Samuel"[0] == 'S';
    }
    AsWrittenAcceptsNonPositiveCost("Samuel", 11, false, 0, Taxa(0.2));
    AsWrittenAcceptsNonPositiveSeguro("Samuel", 10, true, 100, 0);
    AsWrittenAcceptsNonPositiveTaxa("Samuel", 10, false, 100, -10.2);
  }

  /** `setSeguro`/`setTaxa` as written: the new policy is stored unchecked. */
  function WithPolicyAsWritten(b: Bet, p: Policy): (r: Bet)
    requires b.Insured?
    ensures r.Insured? && r.policy == p
    ensures r.apostador == b.apostador && r.valor == b.valor && r.previsao == b.previsao && r.custo == b.custo
  {
    b.(policy := p)
  }

  /** Finding: as written, a setter turns a well-formed bet into one with a
      non-positive policy. */
  lemma AsWrittenSetterBreaksWellFormed(b: Bet, p: Policy)
    requires b.Insured? && WellFormed(b) && !PolicyPositive(p)
    ensures !WellFormed(WithPolicyAsWritten(b, p))
  {
  }

  /** The prediction label of a bet: one of the two labels `verificaPrevisao`
      accepts, "VAI ACONTECER" exactly for a bet that the event happens. */
  function Label(previsao: bool): (r: string)
    ensures r == Happens || r == DoesNotHappen
    ensures r == Happens <==> previsao
    ensures !IsBlank(r)
  {
    LabelsNotBlank();
    if previsao then Happens else DoesNotHappen
  }

  /** `verificaPrevisao`, together with the blank check before it: the two labels
      and nothing else are accepted. */
  function ParseLabel(s: string): (r: Result<bool>)
    ensures r.Ok? <==> s == Happens || s == DoesNotHappen
    ensures r.Err? ==> r.error == InvalidField
    ensures r.Ok? ==> Label(r.value) == s
  {
    LabelsNotBlank();
    if IsBlank(s) then Err(InvalidField)
    else if s == Happens then Ok(true)
    else if s == DoesNotHappen then Ok(false)
    else Err(InvalidField)
  }

  lemma LabelsNotBlank()
    ensures !IsBlank(Happens) && !IsBlank(DoesNotHappen)
  {
    assert Happens[0] == 'V';
    assert DoesNotHappen[0] == 'N';
  }

  /** Writing a prediction as a label and reading it back gives the prediction. */
  lemma LabelRoundTrip(previsao: bool)
    ensures ParseLabel(Label(previsao)) == Ok(previsao)
  {
  }

  /** The Java class a bet belongs to. */
  datatype Kind = PlainKind | ValueKind | RateKind

  function KindOf(b: Bet): Kind {
    match b
    case Plain(_, _, _) => PlainKind
    case Insured(_, _, _, _, Seguro(_)) => ValueKind
    case Insured(_, _, _, _, Taxa(_)) => RateKind
  }

  /** A bet with its cost set aside. */
  function Erase(b: Bet): Bet {
    if b.Insured? then b.(custo := 0) else b
  }

  /** `equals`: same class, bettor, prediction and amount, and for insured bets
      the same insured value or rate; the cost takes no part. That is equality
      of bets once the cost is set aside. */
  predicate Equals(a: Bet, b: Bet)
    ensures Equals(a, b) <==> Erase(a) == Erase(b)
  {
    assert Erase(a) == Erase(b) ==> KindOf(a) == KindOf(Erase(a)) && KindOf(b) == KindOf(Erase(b));
    && KindOf(a) == KindOf(b)
    && a.apostador == b.apostador
    && a.previsao == b.previsao
    && a.valor == b.valor
    && (a.Insured? && b.Insured? ==> a.policy == b.policy)
  }

  /** `equals` is an equivalence: reflexive, symmetric and transitive. */
  lemma EqualsIsEquivalence(a: Bet, b: Bet, c: Bet)
    ensures Equals(a, a)
    ensures Equals(a, b) ==> Equals(b, a)
    ensures Equals(a, b) && Equals(b, c) ==> Equals(a, c)
  {
  }

  /** The base text of Aposta.toString: bettor, amount in units with two decimals
      and the label. */
  function BaseText(b: Bet): (r: string)
    ensures |r| > |b.apostador| && r[..|b.apostador|] == b.apostador
  {
    b.apostador + AmountText(b)
  }

  /** What `Aposta.toString` writes after the bettor: amount and prediction. */
  function AmountText(b: Bet): string {
    " - R$" + Fixed2(b.valor as real / 100.0) + " - " + Label(b.previsao)
  }

  /** What an insured bet's `toString` adds to `Aposta.toString`: nothing for a
      plain bet. The insured value is formatted as a number of units (not
      divided by 100), the rate multiplied by 100. */
  function PolicyText(b: Bet): (r: string)
    ensures r == [] <==> b.Plain?
  {
    match b
    case Plain(_, _, _) => ""
    case Insured(_, _, _, _, Seguro(s)) => " - ASSEGURADA (VALOR) - R$ " + Fixed2(s as real)
    case Insured(_, _, _, _, Taxa(t)) => " - ASSEGURADA (TAXA) - R$ " + Fixed2(t * 100.0)
  }

  /** `toString` of each bet class: a plain bet shows `Aposta`'s text, an
      insured bet extends it. */
  function ToText(b: Bet): (r: string)
    ensures b.Plain? ==> r == BaseText(b)
    ensures b.Insured? ==> |r| > |BaseText(b)| && r[..|BaseText(b)|] == BaseText(b)
  {
    BaseText(b) + PolicyText(b)
  }

  /** A bet's text starts with its bettor and is never empty. */
  lemma TextStartsWithBettor(b: Bet)
    ensures |ToText(b)| > |b.apostador| && ToText(b)[..|b.apostador|] == b.apostador
  {
    assert ToText(b) == b.apostador + (AmountText(b) + PolicyText(b));
  }

  /** The amount is rendered as its cents: "<bettor> - R$<units>,<cents> - <label>". */
  lemma BaseTextShowsCents(b: Bet)
    ensures BaseText(b) == b.apostador + (" - R$" + Cents(b.valor) + " - " + Label(b.previsao))
  {
    AmountShowsCents(b);
  }

  /** The amount part of the base text shows the amount's cents. */
  lemma AmountShowsCents(b: Bet)
    ensures AmountText(b) == " - R$" + Cents(b.valor) + " - " + Label(b.previsao)
  {
    var amount := Fixed2(b.valor as real / 100.0);
    var tag := Label(b.previsao);
    assert AmountText(b) == " - R$" + amount + " - " + tag;
    assert amount == Cents(b.valor) by {
      Fixed2OfCents(b.valor);
    }
  }

  /** The insured value is shown as that many units with zero cents. */
  lemma SeguroTextShowsCents(b: Bet)
    requires b.Insured? && b.policy.Seguro?
    ensures PolicyText(b) == " - ASSEGURADA (VALOR) - R$ " + Cents(100 * b.policy.seguro)
  {
    var v := b.policy.seguro;
    assert PolicyText(b) == " - ASSEGURADA (VALOR) - R$ " + Fixed2(v as real);
    assert Fixed2(v as real) == Cents(100 * v) by {
      RoundHalfUpWhole(v as real * 100.0, 100 * v);
    }
  }

  /** A rate is shown multiplied by 100. */
  lemma TaxaText(b: Bet)
    requires b.Insured? && b.policy.Taxa?
    ensures PolicyText(b) == " - ASSEGURADA (TAXA) - R$ " + Fixed2(b.policy.taxa * 100.0)
  {
  }

  /** A rate whose hundredfold is an exact number `k` of cents is shown as `k`. */
  lemma TaxaTextShowsCents(b: Bet, k: int)
    requires b.Insured? && b.policy.Taxa? && b.policy.taxa * 10000.0 == k as real
    ensures PolicyText(b) == " - ASSEGURADA (TAXA) - R$ " + Cents(k)
  {
    TaxaText(b);
    Fixed2OfRate(b.policy.taxa, k);
  }

  /** The insured parts of the system's examples: a value of 200 and a rate of
      0.2, whatever the rest of the bet. */
  lemma PolicyTextExamples(apostador: string, valor: int, previsao: bool, custo: int)
    ensures PolicyText(Insured(apostador, valor, previsao, custo, Seguro(200)))
            == " - ASSEGURADA (VALOR) - R$ 200,00"
    ensures PolicyText(Insured(apostador, valor, previsao, custo, Taxa(0.2)))
            == " - ASSEGURADA (TAXA) - R$ 20,00"
  {
    CentsExamples();
    SeguroTextShowsCents(Insured(apostador, valor, previsao, custo, Seguro(200)));
    TaxaTextShowsCents(Insured(apostador, valor, previsao, custo, Taxa(0.2)), 2000);
  }

  /** What the house pays a losing insured bet: the fixed value, or the rate times
      the amount rounded down to a cent; a plain bet is not insured. */
  function Payout(b: Bet): (r: int)
    ensures b.Insured? && b.policy.Seguro? ==> r == b.policy.seguro
    ensures b.Insured? && b.policy.Taxa? ==> r as real <= b.policy.taxa * b.valor as real < r as real + 1.0
    ensures WellFormed(b) ==> r >= 0
    ensures b.Plain? ==> r == 0
  {
    match b
    case Plain(_, _, _) => 0
    case Insured(_, v, _, _, Seguro(s)) => s
    case Insured(_, v, _, _, Taxa(t)) => (t * v as real).Floor
  }
}
