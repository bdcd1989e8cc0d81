# Bet settlement core of the betting system (Lab-05)

A model, in Dafny, of the core of a small system for betting on binary
scenarios ("will it happen or not"). All money is held in integer cents.

- **Bets** (`Aposta`, `ApostaAssegurada`, `ApostaSeguroValor`, `ApostaSeguroTaxa`)
  are validated values. A bet has a bettor, an amount and a prediction. An
  insured bet also has a cost to the scenario and a policy. The policy is either
  a fixed insured value or a rate applied to the amount. Bets render to text and
  compare structurally. The two insured classes have a setter for their
  policy; these are modelled as small classes in `InsuredBets`.
- **The bet ledger** (`ApostaController`, class `Ledger.BetLedger`) keeps plain bets
  in insertion order and insured bets under ids 1, 2, 3, …. The two kinds of
  insured bet share these ids. It keeps a running total and count, and
  computes the settlement figures with loops:
  - the losing side's pool;
  - the house's cut `floor(pool × taxa)`;
  - the insurance owed to losing insured bets;
  - the insurance costs.
- **A scenario** (`Cenario`, class `Scenarios.Scenario`) is open until it is closed
  once, with its outcome. It owns one ledger and settles it against the stored
  outcome. An open scenario counts as "did not happen".
- **The registry** (`CenarioController`, class `Registry.ScenarioRegistry`) holds
  scenarios under sequential ids, the house's cash box and its fee rate. It
  answers "not registered" for any unknown id, and the two settlement figures
  also answer "not closed" while the scenario is open. It
  computes the winners' pool as the losing pool minus the house cut.
- **Orderings** (`ComparaNome`, `ComparaApostas`, `ComparaCenario`) order scenarios by
  name or by number of bets, more first. Ties break by ascending id.

The settlement arithmetic is stated once, as functions over the sequence of a
ledger's bets (module `Settlement`). The ledger's loops are proved against
those functions, and the properties (partition of the stake, bounds, effect
of amending a policy) are lemmas about the functions.

Each exception class is a constructor of `Wrappers.Error`. A Java method that
returns a value or throws returns a `Result`. A `void` method returns an
`Outcome`.

The code differs from its own tests in several places. The model
follows the code:
- `CenarioControllerTest.java:263-300` expects 200 and 1800 for a single
  winning bet. The code's losing pool is 0 there, so both figures are 0; see
  `Settlement.SettlementExamples`.
- `CenarioControllerTest.java:91-102` expects an invalid-field error for an id
  ≤ 0 in `exibirCenario`. The code reports "not registered".
- `CenarioControllerTest.java:175-207` and `:283-322` expect "no bets" from the
  total, the count and the settlement figures. The code has no such check.
- `CenarioTest.java:146,155` and `CenarioControllerTest.java:57,112-113` expect
  other spellings of the state ("finalizado", "Não Finalizado").
- `ApostaControllerTest.java:126-130` expects value-insured bets before
  rate-insured ones. The code iterates one map of all insured bets, modelled
  in ascending id order.

The source files do not all fit together:
- `ApostaSeguroValor` is treated as an `ApostaAssegurada`.
- `seguroPerdedoras` calls a `getSeguro()` that `ApostaAssegurada` lacks. The
  payout is the insured value, or `floor(taxa × valor)` for a rate policy.
- `CenarioController` calls four methods `Cenario` lacks. They are mapped to
  its existing methods:
  - `apostar(Aposta)` becomes `apostar` with the prediction's label;
  - `getApostas().size()` becomes `totalApostas`;
  - `isFinalizado` becomes `isEncerrado`;
  - `valorTotalDeApostas` becomes `getValorTotalDeApostas`.

## Model

| member | source | states |
|---|---|---|
| Text.RoundHalfUp | src/com/samuel/lab/model/Aposta.java:63 | the rounding `%.2f` applies: within half a unit of its argument, halves away from zero |
| Text.DigitsRoundTrip | src/com/samuel/lab/model/Cenario.java:124 | the decimal digits `%d` writes for a natural number read back to that number |
| Text.TrimStartBlank | src/com/samuel/lab/model/Aposta.java:34 | `trim`'s front loop consumes the whole string exactly when every character is at most U+0020, and otherwise stops at a character above U+0020 |
| Text.TrimEndKeepsFirst | src/com/samuel/lab/model/Aposta.java:34 | `trim`'s back loop never consumes a first character above U+0020 |
| Text.TrimEmptyIffBlank | src/com/samuel/lab/model/Aposta.java:34 | `trim().isEmpty()` holds exactly on strings of characters at most U+0020, the predicate `IsBlank` every validation uses |
| Text.Digits2 | src/com/samuel/lab/model/Aposta.java:63 | the digits of a non-negative count of cents have at least four characters, no sign, and a comma three places from the end |
| Text.Cents | src/com/samuel/lab/model/Aposta.java:63 | an amount of cents as text has at least four characters and starts with "-" exactly when the amount is negative |
| Text.Fixed2 | src/com/samuel/lab/model/Aposta.java:63 | `%.2f` writes at least four characters |
| Text.Fixed2Sign | src/com/samuel/lab/model/Aposta.java:63 | the text of `%.2f` starts with "-" exactly when the value is at most -0.005, the values that round half up to a negative number of cents |
| Text.Fixed2SmallNegative | src/com/samuel/lab/model/Aposta.java:63 | the model writes -0.001 as "0,00" (see Left out) |
| Text.RoundHalfUpWhole | src/com/samuel/lab/model/Aposta.java:63 | a whole number rounds to itself |
| Text.Fixed2OfExact | src/com/samuel/lab/model/ApostaSeguroValor.java:15 | `%.2f` of a value that is a whole number of cents shows exactly those cents |
| Text.Fixed2OfRate | src/com/samuel/lab/model/ApostaSeguroTaxa.java:35 | `%.2f` of a rate times 100 shows the cents its ten-thousandfold counts, when that is whole |
| Text.Fixed2OfCents | src/com/samuel/lab/model/Aposta.java:63 | `%.2f` of an amount of cents divided by 100 shows exactly that amount as units and two decimals |
| Text.Digits2RoundTrip | src/com/samuel/lab/model/Aposta.java:63 | the digits of a count of cents have a comma before two digits and parse back to the count |
| Text.CentsExamples | tests/com/samuel/tests/model/ApostaSeguroValorTest.java:95 | 1000, 2000 and 20000 cents are written "10,00", "20,00" and "200,00" |
| Text.CentsRoundTrip | src/com/samuel/lab/model/Aposta.java:61-64 | the two-decimal text of a non-negative amount has a comma before two digits and parses back to the amount |
| Text.CentsInjective | src/com/samuel/lab/model/Aposta.java:61-64 | distinct amounts render to distinct texts |
| Text.JoinShape | src/com/samuel/lab/controller/ApostaController.java:173-188 | a line-joined listing of non-empty texts is empty exactly when there is nothing to list, and ends with the last text |
| Text.JoinSnoc | src/com/samuel/lab/controller/ApostaController.java:174-180 | the loop step "first text, or separator then text" extends the join by one text |
| Bets.NewBet | src/com/samuel/lab/model/Aposta.java:33-39 | a bet is created exactly when the bettor is not blank and the amount is positive, with the given fields; otherwise invalid field |
| Bets.NewInsuredAsWritten | src/com/samuel/lab/model/ApostaAssegurada.java:22-25 | as written: only the plain-bet checks; cost and policy are stored unchecked |
| Bets.NewInsured | src/com/samuel/lab/model/ApostaAssegurada.java:22-25 | an insured bet is created exactly when the plain-bet checks pass and cost and insured value or rate are positive; the result is well formed and holds the given fields |
| Bets.AsWrittenAcceptsNonPositiveCost | src/com/samuel/lab/model/ApostaAssegurada.java:22-25 | for every named bettor and positive amount, the code accepts a cost ≤ 0 and builds an ill-formed bet; the corrected constructor rejects it as an invalid field |
| Bets.AsWrittenAcceptsNonPositiveSeguro | src/com/samuel/lab/model/ApostaSeguroValor.java:8-11 | likewise for every insured value ≤ 0 |
| Bets.AsWrittenAcceptsNonPositiveTaxa | src/com/samuel/lab/model/ApostaSeguroTaxa.java:23-27 | likewise for every rate ≤ 0 |
| Bets.AsWrittenExamples | src/com/samuel/lab/model/ApostaAssegurada.java:22-25 | the inputs of the Findings: cost 0, insured value 0 and rate -10.2 for "Samuel" are accepted as written and rejected when corrected |
| Bets.WithPolicyAsWritten | src/com/samuel/lab/model/ApostaSeguroValor.java:42-44 | as written, a setter replaces the policy and keeps bettor, amount, prediction and cost |
| Bets.AsWrittenSetterBreaksWellFormed | src/com/samuel/lab/model/ApostaSeguroTaxa.java:75-77 | as written, a setter given a non-positive value turns a well-formed bet into an ill-formed one |
| Bets.ParseLabel | src/com/samuel/lab/controller/ApostaController.java:227-235 | exactly "VAI ACONTECER" (true) and "N VAI ACONTECER" (false) are accepted, and the label of the result is the input; anything else, blank included, is an invalid field |
| Bets.LabelsNotBlank | src/com/samuel/lab/controller/ApostaController.java:66-67 | neither label is blank, so the blank check never rejects a valid label |
| Bets.LabelRoundTrip | src/com/samuel/lab/controller/ApostaController.java:277-278 | writing a prediction as its label and checking it again gives the prediction back |
| Bets.Label | src/com/samuel/lab/model/Aposta.java:63 | a prediction is written "VAI ACONTECER" exactly when it is true, otherwise "N VAI ACONTECER"; neither is blank |
| Bets.Equals | src/com/samuel/lab/model/Aposta.java:84-103 | `equals` holds exactly when the bets are the same once the cost is set aside (same class, bettor, prediction, amount and policy) |
| Bets.EqualsIsEquivalence | src/com/samuel/lab/model/ApostaSeguroValor.java:27-39 | `equals` is reflexive, symmetric and transitive |
| Bets.BaseText | src/com/samuel/lab/model/Aposta.java:61-64 | `Aposta.toString` starts with the bettor and goes on after it |
| Bets.PolicyText | src/com/samuel/lab/model/ApostaSeguroValor.java:14-17 | the insured part of the text is empty exactly for a plain bet |
| Bets.ToText | src/com/samuel/lab/model/ApostaSeguroTaxa.java:34-37 | a plain bet's text is `Aposta.toString`; an insured bet's text extends it |
| Bets.TextStartsWithBettor | src/com/samuel/lab/model/Aposta.java:61-64 | a bet's text begins with its bettor and is longer than it |
| Bets.BaseTextShowsCents | src/com/samuel/lab/model/Aposta.java:61-64 | the base text is bettor, " - R$", the amount as units with two decimals, " - ", and the label |
| Bets.AmountShowsCents | src/com/samuel/lab/model/Aposta.java:63 | the part after the bettor is " - R$", the amount as units with two decimals, " - ", and the label |
| Bets.SeguroTextShowsCents | src/com/samuel/lab/model/ApostaSeguroValor.java:15 | the insured value is shown as that many units with zero cents after " - ASSEGURADA (VALOR) - R$ " |
| Bets.TaxaTextShowsCents | src/com/samuel/lab/model/ApostaSeguroTaxa.java:35 | a rate is shown multiplied by 100, with two decimals, after " - ASSEGURADA (TAXA) - R$ " |
| Bets.PolicyTextExamples | tests/com/samuel/tests/model/ApostaSeguroTaxaTest.java:108 | an insured value of 200 is shown " - ASSEGURADA (VALOR) - R$ 200,00" and a rate of 0.2 " - ASSEGURADA (TAXA) - R$ 20,00", whatever the rest of the bet |
| Bets.Payout | src/com/samuel/lab/controller/ApostaController.java:304-316 | a value policy pays its value, a rate policy the rate times the amount rounded down, a plain bet nothing; never negative for a well-formed bet |
| InsuredBets.ValueInsuredBet.constructor | src/com/samuel/lab/model/ApostaSeguroValor.java:8-11 | the object stands for the given bet |
| InsuredBets.ValueInsuredBet.GetSeguro | src/com/samuel/lab/model/ApostaSeguroValor.java:46-48 | returns the insured value of the bet the object stands for |
| InsuredBets.ValueInsuredBet.SetSeguro | src/com/samuel/lab/model/ApostaSeguroValor.java:42-44 | accepts exactly a positive value; on success only the insured value changes, on failure nothing |
| InsuredBets.RateInsuredBet.constructor | src/com/samuel/lab/model/ApostaSeguroTaxa.java:23-27 | the object stands for the given bet |
| InsuredBets.RateInsuredBet.GetTaxa | src/com/samuel/lab/model/ApostaSeguroTaxa.java:83-85 | returns the rate of the bet the object stands for |
| InsuredBets.RateInsuredBet.SetTaxa | src/com/samuel/lab/model/ApostaSeguroTaxa.java:75-77 | accepts exactly a positive rate; on success only the rate changes, on failure nothing |
| InsuredBets.NewValueInsuredBet | src/com/samuel/lab/model/ApostaSeguroValor.java:8-11 | a fresh, well-formed object exactly when the checks pass, holding the given fields |
| InsuredBets.NewRateInsuredBet | src/com/samuel/lab/model/ApostaSeguroTaxa.java:23-27 | a fresh, well-formed object exactly when the checks pass, holding the given fields |
| Settlement.HouseCut | src/com/samuel/lab/controller/ApostaController.java:116 | the house's cut is the pool times the fee rounded down; with a fee in [0, 1] it lies between 0 and the pool |
| Settlement.PayoutPool | src/com/samuel/lab/controller/CenarioController.java:107-112 | the winners' pool and the house cut add up to the losing pool; with a fee in [0, 1] it lies between 0 and the pool |
| Settlement.SumOfAppend | src/com/samuel/lab/controller/ApostaController.java:90-117 | summing over plain bets and then over insured bets is summing over all bets |
| Settlement.SumOfReplace | src/com/samuel/lab/controller/ApostaController.java:288-298 | replacing one bet changes any sum by the difference of that bet's weights |
| Settlement.PoolsPartitionStake | src/com/samuel/lab/controller/ApostaController.java:125-152 | the losing pools for "happened" and "did not happen" add up to the total amount bet |
| Settlement.SumOfNonNegative | src/com/samuel/lab/controller/ApostaController.java:304-328 | over well-formed bets every pool, liability and cost total is non-negative |
| Settlement.LosingPoolBounds | src/com/samuel/lab/controller/ApostaController.java:90-117 | the losing pool lies between 0 and the total amount bet; the winners' share lies between 0 and the losing pool |
| Settlement.PlainBetsInsureNothing | src/com/samuel/lab/controller/ApostaController.java:304-328 | plain bets add nothing to the insurance owed or to the costs |
| Settlement.ChangePolicyEffect | src/com/samuel/lab/controller/ApostaController.java:271-298 | changing one insured bet's policy keeps the total, both losing pools and the costs, and moves the liability by that bet's change of payout when it loses |
| Settlement.SettlementExamples | tests/com/samuel/tests/controller/ApostaControllerTest.java:83-198 | the figures of the system's examples: liability 540, costs 600, total 3300, losing pool 3200 when four bets on "happens" lose, house cut 300 of a 3000 pool, and 0 for a single winning bet |
| Settlement.SumOfSnoc | src/com/samuel/lab/controller/ApostaController.java:76-77 | appending a bet adds its weight to any sum |
| Settlement.SumOfPrefixStep | src/com/samuel/lab/controller/ApostaController.java:92-103 | each pass of a loop over the bets adds that bet's weight to the sum over the bets already seen |
| Ledger.InIdOrderExtend | src/com/samuel/lab/controller/ApostaController.java:215-216 | storing a bet under the next id appends it to the bets in id order |
| Ledger.InIdOrderUpdate | src/com/samuel/lab/controller/ApostaController.java:294-296 | storing a bet under an id in use replaces it in place in the bets in id order |
| Ledger.RenderStep | src/com/samuel/lab/controller/ApostaController.java:174-187 | rendering one more bet adds its text as a new line |
| Ledger.RenderPrefixStep | src/com/samuel/lab/controller/ApostaController.java:174-180 | each pass of the first rendering loop adds that bet's text as a new line |
| Ledger.RenderIdStep | src/com/samuel/lab/controller/ApostaController.java:181-187 | each pass of the second rendering loop adds the text of the insured bet under the next id as a new line |
| Ledger.BetLedger.BetsWellFormed | src/com/samuel/lab/controller/ApostaController.java:65-78 | every bet the ledger holds is well formed |
| Ledger.BetLedger.constructor | src/com/samuel/lab/controller/ApostaController.java:48-53 | a new ledger has no bets, total 0, count 0 and next insured id 1 |
| Ledger.BetLedger.ValorTotal | src/com/samuel/lab/controller/ApostaController.java:160-162 | the running total is the sum of the amounts of all bets, plain and insured |
| Ledger.BetLedger.Quantidade | src/com/samuel/lab/controller/ApostaController.java:195-197 | the running count is the number of bets, plain and insured |
| Ledger.BetLedger.Register | src/com/samuel/lab/controller/ApostaController.java:65-79 | a plain bet is appended exactly when the label is valid, the bettor not blank and the amount positive; total and count grow by its amount and by one; otherwise invalid field and nothing changes |
| Ledger.BetLedger.Append | src/com/samuel/lab/controller/ApostaController.java:76-78 | a well-formed plain bet goes at the end of the list; the total grows by its amount and the count by one |
| Ledger.BetLedger.RegisterInsured | src/com/samuel/lab/controller/ApostaController.java:208-263 | an accepted insured bet is stored under the next id, which is returned, was unused and is never reused; total and count grow; a rejected one changes nothing |
| Ledger.BetLedger.Store | src/com/samuel/lab/controller/ApostaController.java:215-219 | a well-formed insured bet goes under the next id, which was unused and is returned; the next id, total and count advance |
| Ledger.BetLedger.Amend | src/com/samuel/lab/controller/ApostaController.java:271-298 | id ≤ 0 is an invalid field, an absent id "not registered"; otherwise exactly that entry takes the new policy, keeping bettor, amount, prediction and cost; total, count and the other entries are unchanged |
| Ledger.BetLedger.Replace | src/com/samuel/lab/controller/ApostaController.java:294-296 | a well-formed insured bet with the same amount stored under an id in use keeps the ledger consistent, with total and count unchanged |
| Ledger.BetLedger.Accumulate | src/com/samuel/lab/controller/ApostaController.java:90-152 | the two loops over plain bets and then insured bets sum a measure over all bets |
| Ledger.BetLedger.LosingTotal | src/com/samuel/lab/controller/ApostaController.java:125-152 | `calculaCaixa` is the losing pool of all bets, between 0 and the total |
| Ledger.BetLedger.HouseShare | src/com/samuel/lab/controller/ApostaController.java:90-117 | `calculaCaixaPerdedoras` is the house cut of the losing pool |
| Ledger.BetLedger.InsuranceOwed | src/com/samuel/lab/controller/ApostaController.java:304-316 | the insurance owed is the liability of the insured bets, equal to that of all bets, never negative |
| Ledger.BetLedger.Costs | src/com/samuel/lab/controller/ApostaController.java:322-328 | the cost of every insured bet, whatever the outcome, never negative |
| Ledger.BetLedger.EmptyIffNoBets | src/com/samuel/lab/controller/ApostaController.java:171-172 | both collections are empty exactly when the ledger holds no bet |
| Ledger.BetLedger.Render | src/com/samuel/lab/controller/ApostaController.java:170-189 | "no bets" exactly for an empty ledger; otherwise the texts of all bets, plain first then insured by id, one per line |
| Ledger.BetLedger.RenderPlain | src/com/samuel/lab/controller/ApostaController.java:174-180 | the first loop renders the plain bets in insertion order |
| Ledger.BetLedger.RenderInsured | src/com/samuel/lab/controller/ApostaController.java:181-187 | the second loop continues with the insured bets by ascending id |
| Scenarios.ScenarioText | src/com/samuel/lab/model/Cenario.java:122-136 | the text begins with "<id> - <descricao> - " and never ends there |
| Scenarios.Scenario.Text | src/com/samuel/lab/model/Cenario.java:122-136 | the same for the scenario's current fields |
| Scenarios.ScenarioTextParts | src/com/samuel/lab/model/Cenario.java:122-136 | the text is "<id> - <descricao> - ", the state, and for a positive bonus " - R$ " with the bonus in units and cents |
| Scenarios.StatusTextDistinguishes | src/com/samuel/lab/model/Cenario.java:126-134 | the three state texts are told apart by their first and thirteenth characters |
| Scenarios.ScenarioTextInjective | src/com/samuel/lab/model/Cenario.java:122-136 | two texts of the same scenario agree only if the state (open, happened, did not happen) and the bonus shown agree |
| Scenarios.Scenario.constructor | src/com/samuel/lab/model/Cenario.java:52-62 | a new scenario is open, outcome false, with an empty ledger |
| Scenarios.Scenario.Close | src/com/samuel/lab/model/Cenario.java:82-86 | succeeds exactly when open; afterwards the scenario is closed and the outcome unchanged; a second close is "already closed" |
| Scenarios.Scenario.Occur | src/com/samuel/lab/model/Cenario.java:103-108 | succeeds exactly when open, recording the outcome and closing; once closed the outcome never changes |
| Scenarios.Scenario.PlaceBet | src/com/samuel/lab/model/Cenario.java:157-162 | a plain bet is appended to the ledger exactly when label, bettor and amount are valid, whether or not the scenario is closed |
| Scenarios.Scenario.PlaceValueInsuredBet | src/com/samuel/lab/model/Cenario.java:249-251 | the bet insured by value gets the ledger's next id exactly when it is valid |
| Scenarios.Scenario.PlaceRateInsuredBet | src/com/samuel/lab/model/Cenario.java:269-282 | the same for a bet insured by rate, after the scenario's own checks of bettor, amount and label |
| Scenarios.Scenario.AmendInsurance | src/com/samuel/lab/model/Cenario.java:293-308 | the ledger's amendment, in either state of the scenario |
| Scenarios.Scenario.Staked | src/com/samuel/lab/model/Cenario.java:201-203 | the total amount bet on the scenario |
| Scenarios.Scenario.Count | src/com/samuel/lab/model/Cenario.java:221-223 | the number of bets on the scenario |
| Scenarios.Scenario.LosingTotal | src/com/samuel/lab/model/Cenario.java:191-193 | the losing pool under the stored outcome, read as "did not happen" while open, between 0 and the total |
| Scenarios.Scenario.HouseShare | src/com/samuel/lab/model/Cenario.java:182-184 | the house cut of the losing pool under the stored outcome |
| Scenarios.Scenario.InsuranceOwed | src/com/samuel/lab/model/Cenario.java:315-317 | the insurance owed under the stored outcome, never negative |
| Scenarios.Scenario.Costs | src/com/samuel/lab/model/Cenario.java:324-326 | the costs of the insured bets, never negative |
| Scenarios.Scenario.RenderBets | src/com/samuel/lab/model/Cenario.java:211-213 | the ledger's listing, or "no bets" |
| Scenarios.NewScenario | src/com/samuel/lab/model/Cenario.java:52-62 | a scenario exactly when id > 0 and the description is not blank, open, without bonus and bets; otherwise invalid field |
| Scenarios.NewScenarioWithBonus | src/com/samuel/lab/model/Cenario.java:74-77 | the same checks, with the bonus stored unchecked |
| Registry.IdsBelow | src/com/samuel/lab/controller/CenarioController.java:57-66 | the listed ids are exactly the keys in range |
| Registry.IdsBelowSorted | src/com/samuel/lab/controller/CenarioController.java:57-66 | the listed ids are strictly ascending |
| Registry.ScenarioRegistry.constructor | src/com/samuel/lab/controller/CenarioController.java:22-27 | stores cash box and fee, no scenario, next id 1; both are fixed afterwards, so `getCaixa()` always returns the initial cash box |
| Registry.ScenarioRegistry.Register | src/com/samuel/lab/controller/CenarioController.java:29-33 | the id counter always advances, even on a blank description; an accepted scenario is stored fresh under the old counter value, which was unused; the others are untouched |
| Registry.ScenarioRegistry.ShowScenario | src/com/samuel/lab/controller/CenarioController.java:35-40 | "not registered" for an unknown id, otherwise the text of the scenario, which starts with that id |
| Registry.ScenarioRegistry.SortedKeys | src/com/samuel/lab/controller/CenarioController.java:57-66 | the registered ids, each once, strictly ascending |
| Registry.ScenarioRegistry.Listing | src/com/samuel/lab/controller/CenarioController.java:46-53 | one line of text per key |
| Registry.ScenarioRegistry.ListingNonEmpty | src/com/samuel/lab/model/Cenario.java:124 | every scenario's text is non-empty, since it starts with the id |
| Registry.ScenarioRegistry.ListingStep | src/com/samuel/lab/controller/CenarioController.java:48-52 | one more key adds its scenario's text as a new line |
| Registry.ScenarioRegistry.ShowAll | src/com/samuel/lab/controller/CenarioController.java:42-55 | the texts of all scenarios by ascending id, one per line; empty exactly when nothing is registered |
| Registry.ScenarioRegistry.RenderKeys | src/com/samuel/lab/controller/CenarioController.java:46-53 | the loop joins the texts of the given scenarios in order |
| Registry.ScenarioRegistry.PlaceBet | src/com/samuel/lab/controller/CenarioController.java:68-75 | "not registered" for an unknown id; otherwise the plain bet is appended to that scenario's ledger exactly when bettor and amount are valid, the ledger's total grows by the amount and its count by one, and the insured bets and next id stay; a rejected bet changes nothing |
| Registry.ScenarioRegistry.Staked | src/com/samuel/lab/controller/CenarioController.java:77-81 | "not registered", or the scenario's total amount |
| Registry.ScenarioRegistry.BetCount | src/com/samuel/lab/controller/CenarioController.java:83-86 | "not registered", or the scenario's number of bets |
| Registry.ScenarioRegistry.RenderBets | src/com/samuel/lab/controller/CenarioController.java:88-92 | "not registered", "no bets", or the scenario's bets one per line |
| Registry.ScenarioRegistry.Close | src/com/samuel/lab/controller/CenarioController.java:94-98 | "not registered"; otherwise closes with the outcome once, and "already closed" keeps the first outcome |
| Registry.ScenarioRegistry.HouseCutFor | src/com/samuel/lab/controller/CenarioController.java:100-105 | "not registered", then "not closed", otherwise the house cut of the losing pool, between 0 and the pool for a fee in [0, 1] |
| Registry.ScenarioRegistry.PayoutPoolFor | src/com/samuel/lab/controller/CenarioController.java:107-112 | "not registered", then "not closed", otherwise the losing pool minus the house cut, between 0 and the pool for a fee in [0, 1] |
| Comparators.CompareStrings | src/com/samuel/lab/comparadores/ComparaNome.java:11 | when one name is a prefix of the other, `compareTo` is the difference of the lengths |
| Comparators.CompareStringsSign | src/com/samuel/lab/comparadores/ComparaNome.java:11 | `compareTo` is negative exactly when the first name precedes the second lexicographically |
| Comparators.CompareStringsZero | src/com/samuel/lab/comparadores/ComparaNome.java:11-12 | `compareTo` is zero exactly on equal names |
| Comparators.CompareStringsAntisymmetric | src/com/samuel/lab/comparadores/ComparaNome.java:11 | swapping the names negates `compareTo` |
| Comparators.CompareStringsTransitive | src/com/samuel/lab/comparadores/ComparaNome.java:11 | `compareTo` orders names transitively |
| Comparators.ByName | src/com/samuel/lab/comparadores/ComparaNome.java:10-16 | a scenario sorts first by name when its name is lexicographically smaller, or the names agree and its id is smaller; zero only for equal names and ids; equal names compare by id difference |
| Comparators.ByCount | src/com/samuel/lab/comparadores/ComparaApostas.java:10-16 | a scenario sorts first when it has more bets, or as many and a smaller id; zero only for equal counts and ids |
| Comparators.ById | src/com/samuel/lab/comparadores/ComparaCenario.java:24-36 | under "cadastro" a scenario sorts first exactly when its id is smaller; zero only for equal ids |
| Comparators.ComparisonsAntisymmetric | src/com/samuel/lab/comparadores/ComparaApostas.java:10-16 | swapping two scenarios negates each comparison |
| Comparators.DistinctIdsNeverTie | src/com/samuel/lab/comparadores/ComparaCenario.java:32-35 | scenarios with distinct ids never compare equal |
| Comparators.ByNameTransitive | src/com/samuel/lab/comparadores/ComparaNome.java:10-16 | ordering by name is transitive |
| Comparators.ByCountTransitive | src/com/samuel/lab/comparadores/ComparaApostas.java:10-16 | ordering by number of bets is transitive |
| Comparators.ParseOrder | src/com/samuel/lab/comparadores/ComparaCenario.java:42-47 | exactly "nome", "apostas" and "cadastro" are orders; anything else is an invalid field |
| Comparators.ScenarioComparator.constructor | src/com/samuel/lab/comparadores/ComparaCenario.java:18 | no order is set at first |
| Comparators.ScenarioComparator.SetOrdem | src/com/samuel/lab/comparadores/ComparaCenario.java:42-47 | a known order replaces the current one; an unknown one is an invalid field and keeps the previous order |
| Comparators.ScenarioComparator.Compare | src/com/samuel/lab/comparadores/ComparaCenario.java:24-36 | by name it is the name ordering, by "apostas" the count ordering, by "cadastro" the id alone |
| Comparators.ScenarioComparator.CompareProperties | src/com/samuel/lab/comparadores/ComparaCenario.java:24-36 | under every order, swapping the scenarios negates the result and only equal ids compare equal |

## Left out

- Java `int` arithmetic: amounts, totals, counts and ids are unbounded integers,
  so the 32-bit wrap-around of `valorTotal` and of the loop sums is not modelled.
  The comparators' subtractions cannot wrap, because ids are positive and counts
  non-negative.
- IEEE-754 `double`: the fee and the insurance rate are exact reals. The model
  keeps `Math.floor` and the `%.2f` rounding, but not binary rounding errors.
- Text.Fixed2: a negative value that rounds to zero cents (above -0.005) is
  written "0,00", where Java's `%.2f` writes "-0,00". Every amount the
  validated constructors accept is positive, so only values stored by the
  unchecked as-written constructors could reach that case.
- Comparators.CompareStrings: compares characters as Unicode code points.
  Java compares UTF-16 code units, so a character outside the Basic
  Multilingual Plane and one in U+E000–U+FFFF are ordered the other way, and
  the differences returned are those of code points.
- Null strings cannot be represented. Every null check in the code stands next
  to a blank check that rejects with the same error kind.
- Exception messages: only the exception class is modelled.
- `hashCode` of the bet classes depends on Java's string hashing and on
  `Double.doubleToLongBits`.
- The decimal separator of `%.2f` is fixed to a comma. `System.lineSeparator()`
  is fixed to "\n".
- `HashMap` iteration order: insured bets are visited by ascending id, which is
  the order a `HashMap` of small integer keys gives.
- Registry.ScenarioRegistry.SortedKeys: gathers the keys by scanning ids 1 to
  `idBase - 1` instead of copying the key set and calling `Collections.sort`.
  The result, the keys in ascending order, is the same.
- Comparators.ScenarioComparator.Compare: requires an order to have been set.
  The code throws `NullPointerException` when none was.
- The comparators read an `Entry` (id, name, number of bets) of a scenario
  (`Comparators.EntryOf`), not the scenario object.
- The simple getters of `Cenario` (`getId`, `getBonus`, `getNome`,
  `isEncerrado`, `isOcorreu`, `ocorreu`) and of `Aposta` (`getValor`,
  `isAcontece`, `getApostador`, `getCusto`) are read as fields of the model.
- The ledger stores bets as values, not objects. `alterar` replaces the entry
  with a new object in the code as well, so no aliasing is lost. The setters
  are modelled on the standalone objects in `InsuredBets`.
- `Facade`, `SistemadeApostas` and the acceptance-test runner in
  `Facade.main` pass calls through or use a foreign library. The registry
  operations they add (insured bets, bonus scenarios and sorted listings
  through the registry) are not in `CenarioController`, and those files are
  not part of this model.

## Findings

| source | as written | input that shows it | evidently intended | confidence | as-written member | corrected member |
|---|---|---|---|---|---|---|
| src/com/samuel/lab/model/ApostaAssegurada.java:22-25 | the cost is stored without a check | any named bettor, positive amount and cost ≤ 0, such as bettor "Samuel", amount 11, cost 0, rate 0.2, is accepted | a cost ≤ 0 is rejected as an invalid field (ApostaSeguroTaxaTest.java:82-85) | not executed | Bets.AsWrittenAcceptsNonPositiveCost | Bets.NewInsured |
| src/com/samuel/lab/model/ApostaSeguroValor.java:8-11 | the insured value is stored without a check | any named bettor, positive amount and insured value ≤ 0, such as bettor "Samuel", amount 10, cost 100, insured value 0, is accepted | an insured value ≤ 0 is rejected (ApostaSeguroValorTest.java:61-72) | not executed | Bets.AsWrittenAcceptsNonPositiveSeguro | Bets.NewInsured |
| src/com/samuel/lab/model/ApostaSeguroTaxa.java:23-27 | the rate is stored without a check | any named bettor, positive amount and rate ≤ 0, such as bettor "Samuel", amount 10, cost 100, rate -10.2, is accepted | a rate ≤ 0 is rejected (ApostaSeguroTaxaTest.java:66-77) | not executed | Bets.AsWrittenAcceptsNonPositiveTaxa | Bets.NewInsured |
| src/com/samuel/lab/model/ApostaSeguroValor.java:42-44 | `setSeguro` stores any value | any insured bet and the value 0 | a value ≤ 0 is rejected and the old one kept (ApostaSeguroValorTest.java:121-134) | not executed | Bets.AsWrittenSetterBreaksWellFormed | InsuredBets.ValueInsuredBet.SetSeguro |
| src/com/samuel/lab/model/ApostaSeguroTaxa.java:75-77 | `setTaxa` stores any rate | any insured bet and the rate 0.0 | a rate ≤ 0 is rejected and the old one kept | not executed | Bets.AsWrittenSetterBreaksWellFormed | InsuredBets.RateInsuredBet.SetTaxa |
| src/com/samuel/lab/controller/ApostaController.java:271-298 | `alterar` builds the new bet through the unchecked constructors | bet 1 insured by value, then `alterar(1, 0.0)` is accepted | a non-positive value or rate is rejected (ApostaControllerTest.java:159-172) | not executed | Bets.WithPolicyAsWritten | Ledger.BetLedger.Amend |
