# QuantumFinance rule engine, modelled in Dafny

QuantumFinance is a Streamlit dashboard that recommends financial products to bank
customers. Its core is a small deterministic rule engine in `Recomendation.py`, and
this project models that engine in two parts:

- **Feature aggregation** (`compute_user_features`, module `FeatureAggregator` in
  `features.dfy`). Each row of the user table becomes one feature record. The record
  holds income (`renda`), credit score (`score_credito`) and debt (`dividas`), copied
  from the user row. It also holds the surplus (`sobra`): income minus the user's total
  monthly spend. Then comes the travel spend (`gasto_viagens`): that user's spend in
  category `"viagens"`. Last is the travel ratio (`ratio_viagens`): travel spend over
  income, or 0 when income is not positive. Both group-by sums are pure functions
  (`GroupSum`, applied to all transactions and to the travel rows). The loop over the
  user rows is a method (`ComputeUserFeatures`). A loop invariant ties that method to
  the specification function `FeatureMap`. Lemmas relate the dictionary lookups (with
  default 0) to reference sums (`SpendOf`, `TravelSpendOf`) defined per user.
- **Rule evaluation** (`regras_explainability`, module `RuleEvaluator` in `rules.dfy`).
  Four ordered threshold rules append product ids and justifications to two parallel
  lists (`ApplyRules`, specified by `Candidates`). Then a loop keeps the first
  (id, justification) pair of each product id (`DedupFirstWins`, specified by `Dedup`).
  `RegrasExplainability` runs both phases on `feats[uid]`. Its contract covers four
  things: each product's trigger, both directions of each iff; no duplicate ids; equal
  list lengths; and a justification that always matches its product id.
  A justification is a tag per message, carrying the value the message cites.

Money amounts and scores are `real`. Product ids are the source's constants:
103 (liquid CD), 106 (pension plan), 107 (miles credit card), 104 (travel
insurance) and 102 (payroll-deductible loan).

`scenarios.dfy` holds five end-to-end cases: a high surplus; travel together with a
high score; zero income; a high score with a moderate surplus (rule 4's own
justification); high debt with positive income.

On these points the model follows Recomendation.py:

- The travel category is the exact label `"viagens"`.
- Income is not assumed to be non-negative.
- When two user rows share an id, the later row's record wins, as the dictionary
  assignment at line 31 does.
- A user id absent from `feats` raises `KeyError` at line 43. `RegrasExplainability`
  states this as a precondition.

The rules never append one product id twice, because rule 4 checks `103 not in recs`
first. So the de-duplication pass leaves the rule list unchanged (`CandidatesWhole`).
`DedupFirstWins` is still proved correct on arbitrary input.

## Model

| member | source | states |
|---|---|---|
| FeatureAggregator.ComputeUserFeatures | Recomendation.py:20-39 | the dictionary has exactly the user ids as keys; under each id is the record of the last row with that id (income, score and debt copied, surplus = income minus total spend, travel spend, ratio); every record obeys the ratio safety rule |
| FeatureAggregator.LookupsGiveFeatures | Recomendation.py:25-37 | the record built from the two grouped dictionaries with default 0 equals the reference record of the user |
| FeatureAggregator.GroupSumIsSpend | Recomendation.py:21-27 | the grouped dictionary looked up with default 0.0 gives the user's total spend, and holds a key exactly for the ids that occur in the rows |
| FeatureAggregator.OnlyViagens | Recomendation.py:22 | a row is in the travel filter's result exactly when it is a row of the input with category `"viagens"` (membership only; counts and order are the next two rows) |
| FeatureAggregator.OnlyViagensCount | Recomendation.py:22 | the travel filter keeps each travel row as many times as it occurs in the input, and no other row |
| FeatureAggregator.OnlyViagensAppend | Recomendation.py:22 | the travel filter keeps row order: filtering a concatenation concatenates the filtered parts |
| FeatureAggregator.OnlyViagensSpend | Recomendation.py:22 | summing a user's filtered travel rows is exactly the user's spend in category `"viagens"` |
| FeatureAggregator.SpendAppend | Recomendation.py:21 | a user's total spend is additive over a split of the transaction table |
| FeatureAggregator.TravelAppend | Recomendation.py:22 | a user's travel spend is additive over a split of the transaction table |
| FeatureAggregator.NoRowsNoSpend | Recomendation.py:27-29 | a user without rows has total spend 0 and travel spend 0 |
| FeatureAggregator.NoTransactionsDefaults | Recomendation.py:27-30 | a user without transactions has surplus = income, travel spend 0 and ratio 0 |
| FeatureAggregator.RatioSafety | Recomendation.py:30 | income <= 0 gives ratio 0 whatever the travel spend; income > 0 gives ratio * income = travel spend |
| FeatureAggregator.KeepUsers | Recomendation.py:21-24 | a row is in the restriction to a set of user ids exactly when it is an input row of one of those ids (membership only; counts and order are the next two rows) |
| FeatureAggregator.KeepUsersCount | Recomendation.py:21-24 | the restriction keeps each row of the given ids as many times as it occurs in the input, and no other row |
| FeatureAggregator.KeepUsersAppend | Recomendation.py:21-24 | the restriction keeps row order: restricting a concatenation concatenates the restricted parts |
| FeatureAggregator.KeepUsersSpend | Recomendation.py:21-29 | dropping the rows of other users changes neither a user's total spend nor travel spend |
| FeatureAggregator.OwnRowsOnly | Recomendation.py:24-37 | a user's record depends only on that user's own rows |
| FeatureAggregator.ForeignTransactionsIgnored | Recomendation.py:21-24 | transactions whose user id is not a user row's id affect no record |
| FeatureAggregator.ForeignTransactionsIgnoredUnder | Recomendation.py:21-24 | the same over any superset of the user ids |
| FeatureAggregator.FeatureMapKeys | Recomendation.py:23-31 | the specification dictionary has exactly the user ids as keys |
| FeatureAggregator.FeatureMapLastWins | Recomendation.py:24-37 | under each id: the record of the last user row with that id |
| FeatureAggregator.FeatureMapRatio | Recomendation.py:30-37 | every record of the dictionary obeys the ratio safety rule |
| RuleEvaluator.RegrasExplainability | Recomendation.py:41-73 | the output is the de-duplicated rule list of `feats[uid]`; no id twice; equal lengths; each justification matches its id; 106 iff surplus > 2000; 107 and 104 iff ratio > 0.09; 102 iff debt > 0.6 * income; 103 iff surplus > 2000 or (score >= 750 and surplus > 1000); empty iff no rule fires |
| RuleEvaluator.ApplyRules | Recomendation.py:42-67 | the two parallel lists are the ids and justifications of the four rules in rule order, rule 4 only when 103 is not yet present |
| RuleEvaluator.DedupFirstWins | Recomendation.py:69-73 | the output is the first-wins de-duplication of the zipped pairs; no id twice; equal lengths; exactly the input's ids |
| RuleEvaluator.Zip | Recomendation.py:70 | pairs the two lists position by position, as long as the shorter one |
| RuleEvaluator.FirstIndex | Recomendation.py:69-72 | the index of the first entry with a given product id: the entry has that id and no earlier entry does |
| RuleEvaluator.DedupSameIds | Recomendation.py:69-72 | de-duplication keeps exactly the product ids of the input |
| RuleEvaluator.DedupNoDuplicates | Recomendation.py:69-72 | de-duplication leaves no id twice and keeps every id of the input |
| RuleEvaluator.DedupKeepsFirst | Recomendation.py:69-72 | each kept entry is the input's first entry for its id, and kept entries appear in the order of those first indices |
| RuleEvaluator.DedupSnoc | Recomendation.py:70-72 | one more pair is kept exactly when its product id has not been kept before |
| RuleEvaluator.DedupIdentity | Recomendation.py:69-72 | on a list with no repeated id, de-duplication is the identity |
| RuleEvaluator.DedupIdempotent | Recomendation.py:69-72 | de-duplicating twice is de-duplicating once |
| RuleEvaluator.ZipOfProductsWhys | Recomendation.py:70 | zipping the ids and justifications of a list gives the list back |
| RuleEvaluator.Rule4Ids | Recomendation.py:64-67 | rule 4 sees 103 in the earlier list exactly when rule 1 fired, and so appends only when score >= 750, surplus > 1000 and surplus <= 2000 |
| RuleEvaluator.CandidateIds | Recomendation.py:47-67 | the ids the rules append, rule by rule, in rule order |
| RuleEvaluator.CandidatesWhole | Recomendation.py:64-72 | the rules never append an id twice, so de-duplication keeps their list unchanged |
| RuleEvaluator.RecommendIds | Recomendation.py:47-72 | the ids of the final list are, in order, 103 and 106 when surplus > 2000, 107 and 104 when ratio > 0.09, 102 when debt > 0.6 * income, and 103 when score >= 750 and 1000 < surplus <= 2000 |
| RuleEvaluator.IdTriggers | Recomendation.py:47-67 | in that id list each product is present exactly when its rule's condition holds, and the list is empty exactly when no condition holds |
| RuleEvaluator.RecommendTriggers | Recomendation.py:47-67 | the trigger of each product, as iffs; only the five rule products appear; the list is empty iff no rule condition holds |
| RuleEvaluator.JustificationsMatchProducts | Recomendation.py:48-67 | every justification in the final list is the one written for its product id |
| RuleEvaluator.CdbJustification | Recomendation.py:48-67 | 103 appears at most once; with surplus > 2000 it carries rule 1's justification; rule 4's justification appears only when surplus <= 2000 |
| RuleEvaluator.RuleOrder | Recomendation.py:47-67 | the final list follows rule order: 103 (rule 1), 106, 107, 104, 102, 103 (rule 4) |
| Scenarios.HighSurplus | Recomendation.py:20-52 | income 5000, spend 2000: the output is exactly 103 and 106, citing the surplus of 3000 |
| Scenarios.TravelAndScore | Recomendation.py:20-67 | income 4000, travel 400, score 800: the output is 103 (rule 1's justification), 106, 107 (ratio 0.1) and 104 |
| Scenarios.ScoreOnly | Recomendation.py:20-67 | score 800 with surplus 1200: the output is exactly 103 with rule 4's justification |
| Scenarios.HighDebt | Recomendation.py:20-62 | income 3000, debt 2000 (above 1800): the output is exactly 102 citing the debt |
| Scenarios.ZeroIncome | Recomendation.py:20-62 | zero income with travel spend: no travel products, only the debt product; another user's rows are ignored |

## Left out

- The Streamlit page: configuration, layout, client selection box and rendering (lines 8 and 75-100). This is presentation glue.
- `load_data` (lines 11-17): CSV reading and `st.cache_data` caching are file I/O. The tables are model inputs instead.
- The product-name lookup against the product table (line 99) and the unused interactions table (line 16).
- The justification texts and their float formatting (`:.0f`, `:.1f`, `*100`). Each message is a tag carrying the value it cites (`SobraCdb(sobra)`, `ViagensCartao(ratioViagens)`, `DividasConsignado(dividas)`).
- IEEE floating point: amounts, scores and thresholds are exact reals. So 0.09 and 0.6 are exact, and float rounding in the sums and the division is not modelled.
- pandas mechanics: the model gives the `groupby(...).sum()` and `iterrows` results as sums over sequences. Missing values (NaN) in the CSV columns are not modelled. Neither is pandas dropping NaN keys in a group-by, nor a failing `int(...)`/`float(...)` conversion of a cell.
- RegrasExplainability: a missing `uid` raises `KeyError` in the source, but the model excludes it with a precondition rather than modelling the exception.
- Idempotence of evaluation: it has no lemma of its own. The `ensures` of `RegrasExplainability` give both outputs as functions of `uid` and `feats` alone: `Products(Recommend(feats[uid]))` and `Whys(Recommend(feats[uid]))`. So two calls with the same arguments return the same lists.
