# sku-r-org matching core, in Dafny

This project models the two matchers that pair each transaction row (item
code, category, manufacturer, brand, pack type, pack size) with item codes
of a product master file:

- **The deterministic matcher** (`src/pandas_matching.py`). It normalises
  the master's `uom` and `packtype` columns through two synonym tables. It
  splits PACKSIZE into its digits and its letters, and converts quantities
  to a base unit (l to ml and kg to g by ×1000). It then narrows the master
  pass by pass:
  1. a category-code gate;
  2. the top 5 by fuzzy company score;
  3. the top 5 by fuzzy brand score;
  4. a base-quantity gate;
  5. a pack-type gate.

  When a gate leaves no rows, the entry ends at once with no match. The
  entry reports the best three item codes by the mean of the two fuzzy
  scores, together with those scores.
- **The language-model matcher** (`src/llm_matching.py`). It runs five
  passes (category, company, brand, pack type, quantity with unit). Each
  pass is skipped when its column is missing. Otherwise it keeps the rows
  for which the model's reply, lower-cased, contains "true", and a call that
  raises drops its row. An empty pass does not stop the entry: the result is
  the distinct item codes of the last non-empty stage, joined by " || ", or
  None.

Both matchers run once per transaction, in order.

The two matchers treat an empty stage differently, and the model keeps them
apart. `PandasMatching.ProcessTransactionEntry` returns `NoMatch` at the
first empty gate. `LlmMatching.ProcessTransactionEntry` carries a fallback
frame: the last non-empty stage, `last_successful_df`.

How the model is organised:

- **Modules.**
  - `Basics`: mask filtering, subsequences, first-appearance de-duplication and joining.
  - `Text`: ASCII `strip`, `lower` and substring tests.
  - `Normalize`: the tables, `normalize_value`, `convert_qty_uom` and the pack-size split.
  - `Records`: the transaction row.
  - `PandasMatching` and `LlmMatching`: one module per matcher.
- **The language model** is an oracle, a function from the prompt's content
  (stage, search values, row values) to a reply: either message text or a
  raised exception.
- **`rapidfuzz.fuzz.partial_ratio`** is an uninterpreted function whose
  values are reals between 0 and 100, as the library returns floats.
- **The per-row loop** of a language-model pass is a method. It is proved
  equal to a mask filter with the verdict as its mask. The five-pass entry
  is proved equal to a fold of one pass function over the pass order.
- **The deterministic entry** is a method over sequences of rows. The fuzzy
  top-k cuts are a selection loop, `TopK`. `sort_values` has no tie-break,
  so `IsTopK` describes every outcome of `sort_values(desc).head(k)` under
  some order of the rows with equal keys. The entry is specified by
  `IsEntryResult`: some company cut, brand cut and final cut that `IsTopK`
  admits lead, through the two hard gates, to the result. Lemmas derive
  from it the facts that hold whatever the tie order.

Two behaviours of the code that the model keeps:

- **No tie-break.** The code breaks no ties: the final ranking has no
  tie-break by item code, and `sort_values` is called with the default,
  unstable sort (lines 240, 250 and 272).
- **No failure isolation.** Neither batch loop isolates a failing record:
  an exception in `process_transaction_entry` ends the batch. Only the
  per-row model calls of `src/llm_matching.py` catch exceptions, and
  `convert_qty_uom` turns a failed `float()` into None.

## Model

| member | source | states |
|---|---|---|
| Basics.Filter | src/pandas_matching.py:230 | A boolean-mask selection keeps exactly the rows that satisfy the mask, in their original order, and never more rows than it was given. |
| Basics.FilterAppend | src/llm_matching.py:91-118 | Filtering a concatenation is filtering each part: a row-by-row filter loop computes the same frame as one mask. |
| Basics.FilterExtend | src/llm_matching.py:113-114 | Extending the visited prefix by one row appends that row to the kept rows exactly when the mask holds for it. |
| Basics.FilterCount | src/pandas_matching.py:230 | A filter keeps every copy of a row that satisfies the mask and no copy of one that does not. |
| Basics.FilterSameMultiset | src/pandas_matching.py:258-265 | Filtering two frames that hold the same rows, in any order, gives frames that hold the same rows. |
| Basics.SubsequenceTransitive | src/llm_matching.py:118 | A subsequence of a subsequence is a subsequence, so narrowing composes across passes. |
| Basics.Distinct | src/llm_matching.py:269 | `unique()` keeps exactly the values that occur, each once. |
| Basics.DistinctFirstAppearance | src/llm_matching.py:269 | `unique()` lists values in the order of their first appearance. |
| Basics.Join | src/llm_matching.py:270 | Definition of `sep.join(parts)`: the parts in order with the separator between neighbours, and "" for no parts. |
| Basics.JoinSnoc | src/llm_matching.py:270 | Joining no parts gives "", one part gives that part, and appending a part to a non-empty list appends the separator and that part to the joined text. |
| Text.ToLower | src/pandas_matching.py:65 | `lower()` keeps the length, leaves no upper-case letter and keeps every whitespace position (see `ToLowerLetters` for the exact mapping). |
| Text.ToLowerLetters | src/pandas_matching.py:65 | Each capital letter becomes the matching small letter (code point + 32) and every other character is kept. |
| Text.ToLowerLowers | src/pandas_matching.py:65 | The result and the input are related by `LowersTo`, the character-by-character definition of lower-casing. |
| Text.ToLowerCharwise | src/pandas_matching.py:65 | `ToLower(s) == l` exactly when `LowersTo(s, l)`: the recursive definition and the character-wise one agree in both directions. |
| Text.StripLeft | src/pandas_matching.py:65 | `lstrip()` removes a prefix made only of whitespace and leaves a string that does not start with whitespace. |
| Text.StripRight | src/pandas_matching.py:65 | `rstrip()` removes a suffix made only of whitespace and leaves a string that does not end with whitespace. |
| Text.Strip | src/pandas_matching.py:65 | Definition of `strip()`: `rstrip()` of `lstrip()`. |
| Text.StripIsMiddle | src/pandas_matching.py:65 | `strip()` returns a middle slice of its input with only whitespace before and after it, and the result neither starts nor ends with whitespace. |
| Text.Clean | src/pandas_matching.py:65 | `strip().lower()` yields a string with no surrounding whitespace and no capitals (see `CleanIsLowerMiddle` for how it relates to the input). |
| Text.CleanIsLowerMiddle | src/pandas_matching.py:65 | The cleaned text is the lower-cased middle of the input, with only whitespace around that middle. |
| Text.CleanFixesClean | src/pandas_matching.py:65 | A string with no surrounding whitespace and no capitals is left unchanged by `strip()`, `lower()` and both together. |
| Text.ContainsAt | src/llm_matching.py:113 | An occurrence of the pattern at any position makes `pattern in text` true. |
| Text.ContainsSomewhere | src/llm_matching.py:113 | Conversely, `pattern in text` holds only when the pattern occurs at some position, so with `ContainsAt` containment means exactly an occurrence. |
| Text.ShortNoContains | src/llm_matching.py:113 | A text shorter than the pattern does not contain it. |
| Text.Contains | src/llm_matching.py:113 | Definition of `pattern in text`: the pattern is a prefix of the text or of one of its suffixes. |
| Normalize.NormalizeValue | src/pandas_matching.py:61-66 | A missing value gives None, and only then. Otherwise the stripped, lower-cased text is looked up: a key gives its table value, and any other text passes through as cleaned. |
| Normalize.NormalizeIdempotent | src/pandas_matching.py:61-66 | For a table whose values are clean and map to themselves or are not keys, normalising twice equals normalising once. |
| Normalize.UomTableClosed | src/pandas_matching.py:18-24 | `uom_mapping` has that property. |
| Normalize.PacktypeTableClosed | src/pandas_matching.py:26-31 | `packtype_mapping` has that property. |
| Normalize.NormalizeTablesIdempotent | src/pandas_matching.py:61-66 | `normalize_value` is idempotent with both tables. |
| Normalize.UomEntries | src/pandas_matching.py:18-24 | "litre" maps to "l" and "ml" to itself. |
| Normalize.PacktypeEntries | src/pandas_matching.py:26-31 | "can" maps to itself, "tin" maps to "can", and "box" is not a key. |
| Normalize.CleanLitre | src/pandas_matching.py:65 | " Litre " cleans to "litre". |
| Normalize.NormalizeLitre | src/pandas_matching.py:20 | Every spelling that cleans to "litre" normalises to the unit "l". |
| Normalize.NormalizeUpperMl | src/pandas_matching.py:208 | The unit letters "ML" normalise to "ml". |
| Normalize.NormalizeUpperCan | src/pandas_matching.py:204 | The pack type "CAN" normalises to "can". |
| Normalize.NormalizeTin | src/pandas_matching.py:27 | The synonym "TIN" normalises to "can". |
| Normalize.NormalizeUnknownPassesThrough | src/pandas_matching.py:66 | A pack type the table does not know ("Box") passes through lower-cased ("box"). |
| Normalize.NormalizeMl | src/pandas_matching.py:225 | A canonical unit already in a column ("ml") is unchanged by normalisation. |
| Normalize.NormalizeCan | src/pandas_matching.py:226 | A canonical pack type already in a column ("can") is unchanged by normalisation. |
| Normalize.CleanUnitKey | src/pandas_matching.py:77 | A clean unit is its own comparison key. |
| Normalize.CleanNormalizes | src/pandas_matching.py:66 | A clean value that the table maps to itself, or does not know, normalises to itself. |
| Normalize.ParseQuantity | src/pandas_matching.py:72-75 | `float(text)` succeeds exactly when the stripped text is a non-empty run of digits, and its value is then the decimal value of those digits, which is non-negative. |
| Normalize.ParseQuantity330 | src/pandas_matching.py:73 | "330" reads as 330. |
| Normalize.ParseQuantityRejectsPoint | src/pandas_matching.py:73-75 | The model reads no decimal point: "1.5" gives no value, where Python's `float` gives 1.5 (see Left out). |
| Normalize.DecimalValueAppend | src/pandas_matching.py:73 | The decimal value of digits `a + b` is the value of `a` shifted by the length of `b`, plus the value of `b`. |
| Normalize.DecimalValueBound | src/pandas_matching.py:73 | n digits have a value below 10^n. |
| Normalize.LeadingZeroSameQuantity | src/pandas_matching.py:73 | A leading "0" does not change the quantity `float()` reads ("0330" reads as 330). |
| Normalize.FloatOf | src/pandas_matching.py:73 | Definition of `float(qty)` on a cell: a blank gives nothing, a number is itself, and text is parsed by `ParseQuantity`. |
| Normalize.UnitKey | src/pandas_matching.py:77 | Definition of the unit key `str(uom).lower().strip()`. |
| Normalize.ConvertQtyUom | src/pandas_matching.py:68-84 | A value exists exactly when the quantity is present and reads as a number and the unit key is ml, l, g, kg or pcs. l and kg are multiplied by 1000; ml, g and pcs are unchanged. |
| Normalize.ConvertKnownUnit | src/pandas_matching.py:77-83 | Any spelling whose lower-cased, stripped form is one of the five units converts with that unit's factor. |
| Normalize.ConvertMl | src/pandas_matching.py:79 | q ml gives q. |
| Normalize.ConvertLitre | src/pandas_matching.py:79 | q l gives 1000·q. |
| Normalize.ConvertGram | src/pandas_matching.py:81 | q g gives q. |
| Normalize.ConvertKilogram | src/pandas_matching.py:81 | q kg gives 1000·q. |
| Normalize.ConvertPieces | src/pandas_matching.py:83 | q pcs gives q. |
| Normalize.LitreIsThousandMl | src/pandas_matching.py:78-79 | For any spellings of the two units, q litres and 1000·q millilitres give the same base value. |
| Normalize.KilogramIsThousandGrams | src/pandas_matching.py:80-81 | For any spellings of the two units, q kilograms and 1000·q grams give the same base value. |
| Normalize.UnitSpellingLitre | src/pandas_matching.py:77 | The unit " L" is read as litres. |
| Normalize.UnitSpellingMl | src/pandas_matching.py:77 | The unit "Ml " is read as millilitres. |
| Normalize.BaseValueIgnoresDimension | src/pandas_matching.py:78-83 | 500 g, 500 ml and 500 pcs all give 500, so the quantity gate cannot tell a mass from a volume or a count. |
| Normalize.SplitPackSize | src/pandas_matching.py:206-207 | The quantity is made only of digits and the unit only of letters, and each is a subsequence of PACKSIZE. |
| Normalize.SplitPackSizeAppend | src/pandas_matching.py:206-207 | The split distributes over concatenation of pack-size strings. |
| Normalize.SplitPackSizeChar | src/pandas_matching.py:206-207 | A single character goes to the quantity if it is a digit, to the unit if it is a letter, and is dropped otherwise. |
| Normalize.SplitWithoutDigits | src/pandas_matching.py:206 | A pack size without digits has an empty quantity. |
| Normalize.SplitPackSize750ml | src/pandas_matching.py:206-207 | "750ml" splits into ("750", "ml"). |
| Normalize.SplitPackSize330ML | src/pandas_matching.py:206-207 | "330ML" splits into ("330", "ML"). |
| Normalize.SplitPackSizeDropsDecimalPoint | src/pandas_matching.py:206-207 | "1.5L" splits into ("15", "L"): the decimal point is dropped. |
| PandasMatching.NormalizeRow | src/pandas_matching.py:225-226 | Definition of the normalisation of one master row: `normalize_value` applied to its `uom` with `uom_mapping` and to its `packtype` with `packtype_mapping`. |
| PandasMatching.NormalizeRowFields | src/pandas_matching.py:225-226 | Normalising a master row changes only its `uom` and `packtype`, each by `normalize_value` with its table. |
| PandasMatching.NormalizeColumnsIdempotent | src/pandas_matching.py:225-226 | Normalising the `uom` and `packtype` columns of an already normalised master changes nothing. |
| PandasMatching.SearchPacktype | src/pandas_matching.py:204 | Definition of the search pack type: the transaction's PACKTYPE normalised with `packtype_mapping`. |
| PandasMatching.SearchUom | src/pandas_matching.py:205-208 | Definition of the search unit: the letters of PACKSIZE normalised with `uom_mapping`. |
| PandasMatching.SearchBase | src/pandas_matching.py:256 | Definition of the search base quantity: `convert_qty_uom` of the digits of PACKSIZE and the search unit. |
| PandasMatching.RowBase | src/pandas_matching.py:257 | Definition of the `qty_base` column: `convert_qty_uom` of the row's `qty` and `uom`. |
| PandasMatching.CompanyScore | src/pandas_matching.py:237-239 | Definition of `company_score`: `partial_ratio` of the lower-cased row company and transaction MANUFACTURE. |
| PandasMatching.BrandScore | src/pandas_matching.py:247-249 | Definition of `brand_score`: `partial_ratio` of the lower-cased row brand and transaction BRAND. |
| PandasMatching.FinalScore | src/pandas_matching.py:271 | The mean score lies in 0..100, and it is 100 exactly when both fuzzy scores are 100. |
| PandasMatching.SameNamesSameScore | src/pandas_matching.py:237-249 | The scores read only the company and brand text: rows that agree there score alike. |
| PandasMatching.ArgMax | src/pandas_matching.py:240 | Returns the index of a row with the largest key. |
| PandasMatching.SelectStep | src/pandas_matching.py:240 | Moving a largest remaining row to the output keeps the selection invariant: the multisets add up, the output is sorted, and every output key is at least every remaining key. |
| PandasMatching.IsTopK | src/pandas_matching.py:240 | Definition of the outcomes of `sort_values(desc).head(k)` under any order of rows with equal keys: the size, sub-multiset, all-kept, sorted and kept-above-dropped conditions. |
| PandasMatching.TopK | src/pandas_matching.py:240 | `sort_values(desc).head(k)` keeps rows as `IsTopK` says: exactly min(k, n) rows drawn from the input, all of them when n ≤ k, in non-increasing key order, and every kept key at least every dropped key. |
| PandasMatching.FirstIsBest | src/pandas_matching.py:272 | The first row of such a selection has the largest key of the whole input. |
| PandasMatching.TopKSameMultiset | src/pandas_matching.py:240 | The rows a top-k may keep depend only on which rows the frame holds, not on their order. |
| PandasMatching.GatedStage | src/pandas_matching.py:256-268 | Definition of passes 4 and 5: the base-quantity gate, then the pack-type gate. |
| PandasMatching.EntryRun | src/pandas_matching.py:229-285 | Definition of one run of the entry: the company and brand top-5 cuts of the pass-1 rows, then no match when passes 4 and 5 leave nothing, else the codes and mean scores of a top 3 of what they leave. |
| PandasMatching.IsEntryResult | src/pandas_matching.py:196-285 | Definition of the results the entry can return: those of a run under some tie order. |
| PandasMatching.CatcodeStageKeeps | src/pandas_matching.py:229-230 | After pass 1, every candidate is a normalised master row with the category code. When at most five remain, every row that passes all hard gates is among them. |
| PandasMatching.CutKeeps | src/pandas_matching.py:236-253 | A top-5 cut keeps candidates inside the normalised master, and loses no fully passing row when pass 1 left at most five rows. |
| PandasMatching.GateKeeps | src/pandas_matching.py:256-265 | A hard gate that every fully passing row satisfies loses none of them. |
| PandasMatching.EmptyStageNoMatch | src/pandas_matching.py:231-232 | When an empty stage still holds every fully passing row, no match satisfies `EntryFacts`: no row could have matched. |
| PandasMatching.FinalStageMatches | src/pandas_matching.py:270-285 | The top 3 of a non-empty final stage satisfy `EntryFacts`: 1-3 codes with aligned, non-increasing scores, each code and score taken from one fully passing row, the first score the best when nothing was cut. |
| PandasMatching.TopReported | src/pandas_matching.py:270-279 | The codes and scores of a top 3 of fully passing rows form a report of 1-3 passing rows with aligned, non-increasing scores. |
| PandasMatching.TopScoresSorted | src/pandas_matching.py:272-276 | The code and score lists of a top 3 are aligned, and the scores come best first. |
| PandasMatching.TopExplained | src/pandas_matching.py:275-276 | Each reported code and score belong to one row of the stage the top 3 was taken from. |
| PandasMatching.TopScoresBest | src/pandas_matching.py:271-272 | When nothing was cut, the first reported score is the best mean score of any fully passing row. |
| PandasMatching.ProcessTransactionEntry | src/pandas_matching.py:196-285 | The entry returns a result that some tie order of its three sorts produces (`IsEntryResult`): the exact result of passes 1-5 and the final top 3. |
| PandasMatching.EmptyTopK | src/pandas_matching.py:240 | The top k of an empty frame is empty. |
| PandasMatching.NoMatchRun | src/pandas_matching.py:258-267 | After any two fuzzy cuts, a pass 4 or pass 5 that leaves nothing gives a possible result of no match. |
| PandasMatching.MatchRun | src/pandas_matching.py:270-285 | After any two fuzzy cuts, any top 3 of the rows that passes 4 and 5 leave gives a possible match. |
| PandasMatching.EntryResultFacts | src/pandas_matching.py:196-285 | Every possible result carries the transaction's item code. A match has 1-3 codes with aligned, non-increasing mean scores, each from a normalised master row that passes every hard gate. When pass 1 leaves at most five rows, there is a match exactly when such a row exists, and the first score is the best of them. |
| PandasMatching.FewCandidatesTopThree | src/pandas_matching.py:236-285 | When pass 1 leaves at most five rows, the fuzzy cuts drop nothing: the result is no match exactly when no row passes every hard gate, and otherwise the codes and mean scores of a top 3 of all such rows. |
| PandasMatching.MatchNeedsSurvivor | src/pandas_matching.py:229-268 | A match implies: some row passes every hard gate; the search size converts; the search pack type is present; and, when the column exists, some master row has the category code. |
| PandasMatching.UnconvertibleSizeNoMatch | src/pandas_matching.py:256-260 | A search size that does not convert equals no row's base quantity, so the entry reports no match. |
| PandasMatching.MissingPacktypeNoMatch | src/pandas_matching.py:264-267 | A transaction with a NaN pack type reports no match. |
| PandasMatching.CategoryAbsentNoMatch | src/pandas_matching.py:229-232 | A category code that no master row carries ends the entry with no match. |
| PandasMatching.ExplainedBySingle | src/pandas_matching.py:275-276 | With a one-row master, every reported code and score is that row's. |
| PandasMatching.SingleCandidateMatch | src/pandas_matching.py:270-285 | A one-row master whose row passes every hard gate yields exactly that row's code with its mean score. |
| PandasMatching.AcmeSearchPacktype | src/pandas_matching.py:204 | Worked entry: the search pack type "CAN" becomes "can". |
| PandasMatching.AcmeSearchUom | src/pandas_matching.py:205-208 | Worked entry: the pack size "330ML" yields the unit "ml". |
| PandasMatching.AcmeSearchBase | src/pandas_matching.py:256 | Worked entry: "330ML" has the base quantity 330. |
| PandasMatching.AcmeRowPacktype | src/pandas_matching.py:226 | Worked entry: the master row keeps the pack type "can". |
| PandasMatching.AcmeRowBase | src/pandas_matching.py:257 | Worked entry: the master row's 330 ml has the base quantity 330. |
| PandasMatching.CatcodeSurvivesNormalizing | src/pandas_matching.py:225-230 | A row whose stripped category code equals the transaction's still passes pass 1 after its columns are normalised. |
| PandasMatching.AcmeRowPasses | src/pandas_matching.py:229-265 | Worked entry: the master row passes every hard gate. |
| PandasMatching.AcmeScenario | src/pandas_matching.py:196-285 | Worked entry: a master holding only A1 (category 10, "can", 330 ml) matches the transaction (category 10, "CAN", "330ML") with ["A1"] and A1's mean score. |
| PandasMatching.EntryResultsAppend | src/pandas_matching.py:291-293 | Appending a possible result for the next transaction keeps every result a possible result of its entry. |
| PandasMatching.MatchTransactions | src/pandas_matching.py:288-293 | `main` produces one result per transaction, in input order, each a possible result of the entry (`IsEntryResult`). |
| LlmMatching.SearchValues | src/llm_matching.py:64-71 | The prompt's search quantity is made only of digits and its unit only of letters, each a subsequence of PACKSIZE. |
| LlmMatching.ColumnExists | src/llm_matching.py:42-47 | Definition of `column_exists`: the column name is among the frame's columns. |
| LlmMatching.PassEnabled | src/llm_matching.py:89-228 | Definition of when a pass runs: its column exists, and for the quantity pass both `qty` and `uom` exist. |
| LlmMatching.Accepts | src/llm_matching.py:113-116 | Definition of the verdict on a reply: message text that, lower-cased, contains "true"; a raised call rejects. |
| LlmMatching.AcceptsTrue | src/llm_matching.py:113 | The reply "True" keeps the row. |
| LlmMatching.AcceptsNotTrue | src/llm_matching.py:113 | The reply "not true" also keeps the row: the test is containment, not equality. |
| LlmMatching.RejectsFalseAndRaised | src/llm_matching.py:113-116 | The reply "false" and a raised call both drop the row. |
| LlmMatching.RunPass | src/llm_matching.py:90-118 | The loop over `iterrows()` keeps exactly the rows whose reply, lower-cased, contains "true", in their original order. |
| LlmMatching.Step | src/llm_matching.py:89-122 | A skipped pass changes nothing. An enabled pass narrows the candidates to those the verdict accepts, in order. The fallback changes only to a non-empty new stage, and always does when the stage is non-empty. |
| LlmMatching.RunPasses | src/llm_matching.py:89-264 | Definition of the five passes run in order, each by `Step`. |
| LlmMatching.ItemcodesCell | src/llm_matching.py:268-280 | Definition of the `m_itemcode(s)` cell: None for an empty fallback frame, else its distinct item codes joined by " \|\| ". |
| LlmMatching.EntryOutcome | src/llm_matching.py:57-280 | Definition of the entry's result: the cell computed from the fallback frame after the five passes from the catalogue. |
| LlmMatching.ApplyPass | src/llm_matching.py:89-122 | One pass updates the two frames exactly as `Step` says. |
| LlmMatching.ProcessTransactionEntry | src/llm_matching.py:57-280 | The entry computes exactly `EntryOutcome`: the five passes in order, then the result from the fallback frame. |
| LlmMatching.MatchTransactions | src/llm_matching.py:284-287 | The batch loop produces one result per transaction, in index order, each the entry's outcome. |
| LlmMatching.Outputs | src/llm_matching.py:89-264 | The enabled passes produce at most one stage each. |
| LlmMatching.LastNonEmptyIndex | src/llm_matching.py:119-120 | Finds the position of a non-empty stage after which every stage is empty, or -1 when all are empty. |
| LlmMatching.LastNonEmptyIndexUnique | src/llm_matching.py:119-120 | Those conditions determine that position uniquely. |
| LlmMatching.LastNonEmptyCons | src/llm_matching.py:119-120 | Prepending a stage to the outputs moves the fallback to that stage exactly when it is non-empty. |
| LlmMatching.TrackerFollowsOutputs | src/llm_matching.py:86-264 | After the passes, `last_successful_df` is the most recent non-empty stage output (else its initial value), and `filtered_df` is the latest output. |
| LlmMatching.OutputsOfNothing | src/llm_matching.py:126-152 | Passes over an empty frame all produce empty frames. |
| LlmMatching.EmptyStaysEmpty | src/llm_matching.py:118-152 | Once a pass yields no rows, every later pass yields none either. |
| LlmMatching.PassesNarrow | src/llm_matching.py:91-118 | Each stage is a subsequence of the one before it, and every stage is a subsequence of the catalogue. |
| LlmMatching.NoneIffNoNonEmptyStage | src/llm_matching.py:268-280 | The result is None exactly when every executed pass produced an empty frame. |
| LlmMatching.ResultFromLastNonEmptyStage | src/llm_matching.py:268-275 | Otherwise it is the distinct item codes of the last non-empty stage, in first-appearance order, joined by " \|\| ". |
| LlmMatching.AllSkippedNone | src/llm_matching.py:277-280 | When no pass column exists, the result is None. |
| LlmMatching.SkippedPassesChangeNothing | src/llm_matching.py:42-47 | A run of skipped passes leaves both frames as they were. |
| LlmMatching.ReportedCodes | src/llm_matching.py:269-270 | The reported codes are exactly the item codes of the fallback frame, each once. |

## Left out

- Loading the Excel files, `os.makedirs`, `save_pass_df`, the CSV output, `pd.concat` of the results and every `print`: this is I/O. The batch results are a sequence.
- `ollama.chat` is an oracle from the prompt's content to a reply. Its nondeterminism (sampling temperature, model state) is left out: the same prompt always gets the same reply. The prompt's fixed wording is represented by the stage.
- `rapidfuzz.fuzz.partial_ratio` is an uninterpreted function into the reals from 0 to 100. Its definition is a foreign library.
- PandasMatching.Scores: the scores are exact reals. `.round(2).astype(str)` and the " || " joins of the deterministic matcher's output columns are float and string formatting, and the codes and scores are kept as parallel lists.
- PandasMatching.TopK: the selection loop picks one order among rows with equal keys. `IsTopK`, which the entry's contract uses, admits every such order, since `sort_values` is not stable and the code has no tie-break.
- PandasMatching.ProcessTransactionEntry: only the category pass may be missing (the flag `hasCatcode`). The model requires the `uom`, `packtype`, `qty`, `company`, `brand` and `itemcode` columns. Without `uom` or `packtype` the code raises KeyError at lines 225-226. Without `company` or `brand` it skips pass 2 or 3 (lines 236 and 246); the entry then either ends with no match at pass 4 or 5, or raises KeyError at line 271 when it reads the missing score column. Those runs are not modelled.
- PandasMatching.ProcessTransactionEntry: with the `company` column present, the empty check after the brand pass (lines 251-252) is unreachable, because the top 5 of the non-empty company stage is non-empty. The model omits that branch. It is reachable in the code only when pass 2 was skipped on an empty frame.
- Normalize.ParseQuantity: `float()` is modelled only for text that is a run of ASCII digits after stripping. Python also accepts signs, decimal points, exponents, underscores, "nan" and "inf". The search quantity is always digits only, so only text `qty` cells of the master with such forms are affected. Numeric cells are real numbers.
- Normalize.ParseQuantityRejectsPoint: states the narrower parse of the model, not what Python does: `float("1.5")` is 1.5 in the code. The search quantity never holds a point, since line 206 keeps only digits.
- LlmMatching.CatalogRow: the item code is held as its `str()` text. `unique()` runs on the raw values before `str()`, so raw values with the same text (the number 1 and the string "1") would be reported twice by the code but once by the model.
- Unicode: `isdigit`, `isalpha`, `isspace` and `lower` are modelled on ASCII only.
- Exceptions other than a failing model call are not modelled. The code has no per-record isolation, so such an exception would end the batch.
- `main.py`, `src/untitled0.py` and `src/temp.py` are not part of this model. They are single-entry scripts and a column explorer, with no matching logic beyond what `src/llm_matching.py` has.
