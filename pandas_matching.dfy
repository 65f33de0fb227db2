/** The deterministic matcher of src/pandas_matching.py: for one
    transaction it narrows the master file pass by pass (category code,
    fuzzy company top 5, fuzzy brand top 5, base quantity, pack type),
    ends at once with no match when a hard gate leaves nothing, and
    reports the best three item codes by mean fuzzy score. */
module PandasMatching {
  import opened Basics
  import opened Text
  import opened Normalize
  import opened Records

  /** A fuzzy similarity on the 0..100 scale (a float in the source). */
  type Score = x: real | 0.0 <= x <= 100.0

  /** `rapidfuzz.fuzz.partial_ratio`, left uninterpreted. */
  type Ratio = (string, string) -> Score

  /** One master-file row. `catcode`, `company` and `brand` hold the text
      the source compares (`astype(str)` / `str(x)`); `packtype` and `uom`
      are raw cells (None = NaN) until normalised. */
  datatype MasterRow = MasterRow(
    itemcode: string,
    catcode: string,
    company: string,
    brand: string,
    packtype: Option<string>,
    qty: QtyCell,
    uom: Option<string>)

  /** The one-row frame returned per transaction: `m_itemcode(s)` is None
      and there is no score column, or both hold parallel lists. */
  datatype MatchResult =
    | NoMatch(tItemcode: string)
    | Matched(tItemcode: string, itemcodes: seq<string>, scores: seq<real>)

  /** The master copy after its `uom` and `packtype` columns are
      normalised in place. */
  function NormalizeRow(row: MasterRow): MasterRow
  {
    row.(uom := NormalizeValue(row.uom, UomTable), packtype := NormalizeValue(row.packtype, PacktypeTable))
  }

  /** Normalising touches only the `uom` and `packtype` columns. */
  lemma NormalizeRowFields(row: MasterRow)
    ensures NormalizeRow(row).uom == NormalizeValue(row.uom, UomTable)
    ensures NormalizeRow(row).packtype == NormalizeValue(row.packtype, PacktypeTable)
    ensures NormalizeRow(row).itemcode == row.itemcode && NormalizeRow(row).catcode == row.catcode
    ensures NormalizeRow(row).company == row.company && NormalizeRow(row).brand == row.brand
    ensures NormalizeRow(row).qty == row.qty
  {
  }

  function NormalizeColumns(master: seq<MasterRow>): seq<MasterRow>
  {
    Column(master, NormalizeRow)
  }

  /** Normalising an already normalised master changes nothing. */
  lemma NormalizeColumnsIdempotent(master: seq<MasterRow>)
    ensures NormalizeColumns(NormalizeColumns(master)) == NormalizeColumns(master)
  {
    var once := NormalizeColumns(master);
    forall i | 0 <= i < |master|
      ensures NormalizeRow(once[i]) == once[i]
    {
      NormalizeTablesIdempotent(master[i].uom);
      NormalizeTablesIdempotent(master[i].packtype);
    }
  }

  // Search values taken from the transaction.

  function SearchPacktype(t: Transaction): Option<string>
  {
    NormalizeValue(t.packtype, PacktypeTable)
  }

  function SearchUom(t: Transaction): Option<string>
  {
    NormalizeValue(Some(SplitPackSize(t.packsize).1), UomTable)
  }

  function SearchBase(t: Transaction): Option<real>
  {
    ConvertQtyUom(Written(SplitPackSize(t.packsize).0), SearchUom(t))
  }

  /** pandas `==` between a column and a value: None and NaN equal nothing. */
  predicate Agrees<X(==)>(a: Option<X>, b: Option<X>)
  {
    a.Some? && a == b
  }

  predicate CatcodeMatches(t: Transaction, row: MasterRow)
  {
    Strip(row.catcode) == Strip(t.category)
  }

  /** The `qty_base` column. */
  function RowBase(row: MasterRow): Option<real>
  {
    ConvertQtyUom(row.qty, row.uom)
  }

  function CatcodeGate(t: Transaction): MasterRow -> bool
  {
    row => CatcodeMatches(t, row)
  }

  function BaseGate(base: Option<real>): MasterRow -> bool
  {
    (row: MasterRow) => Agrees(RowBase(row), base)
  }

  function PacktypeGate(packtype: Option<string>): MasterRow -> bool
  {
    (row: MasterRow) => Agrees(row.packtype, packtype)
  }

  // Score columns, as functions of the row they are computed from.

  function CompanyScore(t: Transaction, ratio: Ratio, row: MasterRow): real
  {
    ratio(ToLower(row.company), ToLower(t.manufacture))
  }

  function BrandScore(t: Transaction, ratio: Ratio, row: MasterRow): real
  {
    ratio(ToLower(row.brand), ToLower(t.brand))
  }

  /** `final_score`: the mean of the company and brand scores. */
  function FinalScore(t: Transaction, ratio: Ratio, row: MasterRow): (r: real)
    ensures 0.0 <= r <= 100.0
    ensures r == 100.0 <==> CompanyScore(t, ratio, row) == 100.0 && BrandScore(t, ratio, row) == 100.0
  {
    (CompanyScore(t, ratio, row) + BrandScore(t, ratio, row)) / 2.0
  }

  /** The scores read only the company and brand columns. */
  lemma SameNamesSameScore(t: Transaction, ratio: Ratio, a: MasterRow, b: MasterRow)
    requires a.company == b.company && a.brand == b.brand
    ensures FinalScore(t, ratio, a) == FinalScore(t, ratio, b)
  {
    assert CompanyScore(t, ratio, a) == CompanyScore(t, ratio, b);
    assert BrandScore(t, ratio, a) == BrandScore(t, ratio, b);
  }

  function CompanyKey(t: Transaction, ratio: Ratio): MasterRow -> real
  {
    row => CompanyScore(t, ratio, row)
  }

  function BrandKey(t: Transaction, ratio: Ratio): MasterRow -> real
  {
    row => BrandScore(t, ratio, row)
  }

  function FinalKey(t: Transaction, ratio: Ratio): MasterRow -> real
  {
    row => FinalScore(t, ratio, row)
  }

  /** Index of a largest key. */
  method ArgMax<T>(s: seq<T>, key: T -> real) returns (m: nat)
    requires |s| > 0
    ensures m < |s|
    ensures forall j :: 0 <= j < |s| ==> key(s[j]) <= key(s[m])
  {
    m := 0;
    for i := 1 to |s|
      invariant m < i
      invariant forall j :: 0 <= j < i ==> key(s[j]) <= key(s[m])
    {
      if key(s[i]) > key(s[m]) {
        m := i;
      }
    }
  }

  /** The selection state: `r` holds the largest keys so far, largest
      first, and `rest` everything else. */
  ghost predicate Selected<T>(s: seq<T>, key: T -> real, r: seq<T>, rest: seq<T>)
  {
    && multiset(r) + multiset(rest) == multiset(s)
    && |r| + |rest| == |s|
    && (forall i, j :: 0 <= i < j < |r| ==> key(r[i]) >= key(r[j]))
    && (forall x, y :: x in r && y in rest ==> key(x) >= key(y))
  }

  /** Taking out position `m` leaves exactly the other elements. */
  lemma RemoveAt<T>(s: seq<T>, m: nat)
    requires m < |s|
    ensures multiset(s) == multiset(s[..m] + s[m + 1..]) + multiset{s[m]}
    ensures forall y :: y in s[..m] + s[m + 1..] ==> y in s
  {
    assert s == s[..m] + [s[m]] + s[m + 1..];
  }

  /** Moving a largest remaining element to the end of `r` keeps the state. */
  lemma SelectStep<T>(s: seq<T>, key: T -> real, r: seq<T>, rest: seq<T>, m: nat)
    requires Selected(s, key, r, rest)
    requires m < |rest| && forall j :: 0 <= j < |rest| ==> key(rest[j]) <= key(rest[m])
    ensures Selected(s, key, r + [rest[m]], rest[..m] + rest[m + 1..])
  {
    RemoveAt(rest, m);
    assert forall i :: 0 <= i < |r| ==> key(r[i]) >= key(rest[m]);
  }

  /** `sort_values(key, ascending=False).head(k)` under some order of the
      rows with equal keys: min(k, |s|) rows of `s` (all of them when there
      are at most k), largest key first, and no dropped row has a larger
      key than a kept one. The sort is not stable, so these are exactly the
      outcomes it can produce. */
  ghost predicate IsTopK<T>(s: seq<T>, key: T -> real, k: nat, r: seq<T>)
  {
    && |r| == (if |s| < k then |s| else k)
    && multiset(r) <= multiset(s)
    && (|s| <= k ==> multiset(r) == multiset(s))
    && (forall i, j :: 0 <= i < j < |r| ==> key(r[i]) >= key(r[j]))
    && (forall x, y :: x in r && y in multiset(s) - multiset(r) ==> key(x) >= key(y))
  }

  /** The selection loop behind `sort_values(...).head(k)`. */
  method TopK<T(==)>(s: seq<T>, key: T -> real, k: nat) returns (r: seq<T>)
    ensures IsTopK(s, key, k, r)
  {
    r := [];
    var rest := s;
    while |r| < k && rest != []
      invariant Selected(s, key, r, rest) && |r| <= k
      decreases |rest|
    {
      var m := ArgMax(rest, key);
      SelectStep(s, key, r, rest, m);
      r := r + [rest[m]];
      rest := rest[..m] + rest[m + 1..];
    }
    assert multiset(s) - multiset(r) == multiset(rest);
  }

  /** The head of a top-k selection has the largest key of all. */
  lemma {:induction false} FirstIsBest<T>(s: seq<T>, r: seq<T>, key: T -> real, k: nat)
    requires 1 <= |r| && IsTopK(s, key, k, r)
    ensures forall y :: y in s ==> key(y) <= key(r[0])
  {
    forall y | y in s
      ensures key(y) <= key(r[0])
    {
      if y in r {
        var i :| 0 <= i < |r| && r[i] == y;
        assert i == 0 || key(r[0]) >= key(r[i]);
      } else {
        assert y in multiset(s) - multiset(r);
        assert r[0] in r;
      }
    }
  }

  /** Which rows a top-k may keep depends on the rows, not on their order. */
  lemma TopKSameMultiset<T>(s: seq<T>, s': seq<T>, key: T -> real, k: nat, r: seq<T>)
    requires multiset(s) == multiset(s') && IsTopK(s, key, k, r)
    ensures IsTopK(s', key, k, r)
  {
    assert |s| == |multiset(s)| == |s'|;
  }

  /** Every hard gate of the pipeline holds of the (normalised) row. */
  ghost predicate PassesHardGates(hasCatcode: bool, t: Transaction, row: MasterRow)
  {
    && (!hasCatcode || CatcodeMatches(t, row))
    && Agrees(RowBase(row), SearchBase(t))
    && Agrees(row.packtype, SearchPacktype(t))
  }

  /** The candidates left after pass 1 (all rows when `catcode` is absent). */
  function CatcodeStage(master: seq<MasterRow>, hasCatcode: bool, t: Transaction): seq<MasterRow>
  {
    if hasCatcode then Filter(NormalizeColumns(master), CatcodeGate(t)) else NormalizeColumns(master)
  }

  /** `code` and `score` come from one row of the normalised master that
      passes every hard gate. */
  ghost predicate Explains(master: seq<MasterRow>, hasCatcode: bool, t: Transaction, ratio: Ratio, code: string, score: real)
  {
    exists x :: x in NormalizeColumns(master) && PassesHardGates(hasCatcode, t, x) && x.itemcode == code && score == FinalScore(t, ratio, x)
  }

  /** Passes 4 and 5 applied to `rows`. */
  function GatedStage(t: Transaction, rows: seq<MasterRow>): seq<MasterRow>
  {
    Filter(Filter(rows, BaseGate(SearchBase(t))), PacktypeGate(SearchPacktype(t)))
  }

  /** The result `process_transaction_entry` returns when the company,
      brand and final sorts keep `company`, `brand` and `top`. A stage that
      comes out empty ends the entry with no match; as every later stage of
      an empty one is empty too, this is the same as asking whether the
      rows left after pass 5 are empty. */
  ghost predicate EntryRun(master: seq<MasterRow>, hasCatcode: bool, t: Transaction, ratio: Ratio,
                           company: seq<MasterRow>, brand: seq<MasterRow>, top: seq<MasterRow>, r: MatchResult)
  {
    && IsTopK(CatcodeStage(master, hasCatcode, t), CompanyKey(t, ratio), 5, company)
    && IsTopK(company, BrandKey(t, ratio), 5, brand)
    && var gated := GatedStage(t, brand);
       if gated == [] then r == NoMatch(t.itemcode)
       else IsTopK(gated, FinalKey(t, ratio), 3, top) && r == Matched(t.itemcode, Codes(top), Scores(t, ratio, top))
  }

  /** The results `process_transaction_entry` can return: those of some
      order of the rows with equal scores in each of its three sorts. */
  ghost predicate IsEntryResult(master: seq<MasterRow>, hasCatcode: bool, t: Transaction, ratio: Ratio, r: MatchResult)
  {
    exists company, brand, top :: EntryRun(master, hasCatcode, t, ratio, company, brand, top, r)
  }

  /** A reported match lists one to three item codes with aligned,
      non-increasing scores, each code and score taken from one row that
      passes every hard gate. */
  ghost predicate ReportsPassingRows(master: seq<MasterRow>, hasCatcode: bool, t: Transaction, ratio: Ratio, r: MatchResult)
  {
    r.Matched? ==>
      && 1 <= |r.itemcodes| <= 3
      && |r.itemcodes| <= |CatcodeStage(master, hasCatcode, t)|
      && |r.scores| == |r.itemcodes|
      && (forall i, j :: 0 <= i < j < |r.scores| ==> r.scores[i] >= r.scores[j])
      && (forall i :: 0 <= i < |r.itemcodes| ==> Explains(master, hasCatcode, t, ratio, r.itemcodes[i], r.scores[i]))
  }

  /** When pass 1 leaves at most five rows, there is a match exactly when
      some row passes every hard gate, and the first score is the best of
      those rows. */
  ghost predicate FewCandidatesFacts(master: seq<MasterRow>, hasCatcode: bool, t: Transaction, ratio: Ratio, r: MatchResult)
  {
    |CatcodeStage(master, hasCatcode, t)| <= 5 ==>
      && (r.Matched? <==> exists x :: x in NormalizeColumns(master) && PassesHardGates(hasCatcode, t, x))
      && (r.Matched? ==>
            && 1 <= |r.scores|
            && forall x :: x in NormalizeColumns(master) && PassesHardGates(hasCatcode, t, x) ==> FinalScore(t, ratio, x) <= r.scores[0])
  }

  /** What holds of every possible result whatever the tie order. */
  ghost predicate EntryFacts(master: seq<MasterRow>, hasCatcode: bool, t: Transaction, ratio: Ratio, r: MatchResult)
  {
    && r.tItemcode == t.itemcode
    && ReportsPassingRows(master, hasCatcode, t, ratio, r)
    && FewCandidatesFacts(master, hasCatcode, t, ratio, r)
  }

  /** Every row of `stage` is a normalised master row that passed pass 1. */
  ghost predicate Within(master: seq<MasterRow>, hasCatcode: bool, t: Transaction, stage: seq<MasterRow>)
  {
    forall x :: x in stage ==> x in NormalizeColumns(master) && (!hasCatcode || CatcodeMatches(t, x))
  }

  /** When pass 1 leaves at most five rows, `stage` still holds every row
      that passes all hard gates. */
  ghost predicate Keeps(master: seq<MasterRow>, hasCatcode: bool, t: Transaction, stage: seq<MasterRow>)
  {
    |CatcodeStage(master, hasCatcode, t)| <= 5 ==>
      forall x :: x in NormalizeColumns(master) && PassesHardGates(hasCatcode, t, x) ==> x in stage
  }

  lemma CatcodeStageKeeps(master: seq<MasterRow>, hasCatcode: bool, t: Transaction)
    ensures Within(master, hasCatcode, t, CatcodeStage(master, hasCatcode, t))
    ensures Keeps(master, hasCatcode, t, CatcodeStage(master, hasCatcode, t))
  {
  }

  /** A top-5 cut of a later stage loses nothing when pass 1 left at most five rows. */
  lemma {:induction false} CutKeeps(master: seq<MasterRow>, hasCatcode: bool, t: Transaction, before: seq<MasterRow>, after: seq<MasterRow>)
    requires Within(master, hasCatcode, t, before) && Keeps(master, hasCatcode, t, before)
    requires |before| <= |CatcodeStage(master, hasCatcode, t)|
    requires multiset(after) <= multiset(before)
    requires |before| <= 5 ==> multiset(after) == multiset(before)
    ensures Within(master, hasCatcode, t, after) && Keeps(master, hasCatcode, t, after)
  {
    forall x | x in after
      ensures x in before
    {
      assert x in multiset(after);
    }
    if |CatcodeStage(master, hasCatcode, t)| <= 5 {
      forall x | x in before
        ensures x in after
      {
        assert x in multiset(before);
      }
    }
  }

  /** A filter that every fully passing row satisfies loses none of them. */
  lemma {:induction false} GateKeeps(master: seq<MasterRow>, hasCatcode: bool, t: Transaction, before: seq<MasterRow>, p: MasterRow -> bool)
    requires Within(master, hasCatcode, t, before) && Keeps(master, hasCatcode, t, before)
    requires forall x :: PassesHardGates(hasCatcode, t, x) ==> p(x)
    ensures Within(master, hasCatcode, t, Filter(before, p)) && Keeps(master, hasCatcode, t, Filter(before, p))
  {
  }

  /** A hard gate that leaves nothing proves that no row could have matched. */
  lemma {:induction false} EmptyStageNoMatch(master: seq<MasterRow>, hasCatcode: bool, t: Transaction, ratio: Ratio, stage: seq<MasterRow>)
    requires Keeps(master, hasCatcode, t, stage) && stage == []
    ensures EntryFacts(master, hasCatcode, t, ratio, NoMatch(t.itemcode))
  {
  }

  lemma BaseGatePasses(hasCatcode: bool, t: Transaction)
    ensures forall x :: PassesHardGates(hasCatcode, t, x) ==> BaseGate(SearchBase(t))(x)
  {
  }

  lemma PacktypeGatePasses(hasCatcode: bool, t: Transaction)
    ensures forall x :: PassesHardGates(hasCatcode, t, x) ==> PacktypeGate(SearchPacktype(t))(x)
  {
  }

  /** The `m_itemcode(s)` list of the top rows. */
  function Codes(top: seq<MasterRow>): seq<string>
  {
    Column(top, (row: MasterRow) => row.itemcode)
  }

  /** The `m_score(s)` list of the top rows. */
  function Scores(t: Transaction, ratio: Ratio, top: seq<MasterRow>): seq<real>
  {
    Column(top, FinalKey(t, ratio))
  }

  /** The top three of the rows left after passes 4 and 5 form a valid
      result; the requirements are what `TopK` promises about them. */
  lemma {:induction false} FinalStageMatches(master: seq<MasterRow>, hasCatcode: bool, t: Transaction, ratio: Ratio,
                                             stage: seq<MasterRow>, top: seq<MasterRow>)
    requires Within(master, hasCatcode, t, stage) && Keeps(master, hasCatcode, t, stage)
    requires forall x :: x in stage ==> BaseGate(SearchBase(t))(x) && PacktypeGate(SearchPacktype(t))(x)
    requires stage != [] && |stage| <= |CatcodeStage(master, hasCatcode, t)|
    requires IsTopK(stage, FinalKey(t, ratio), 3, top)
    ensures EntryFacts(master, hasCatcode, t, ratio, Matched(t.itemcode, Codes(top), Scores(t, ratio, top)))
  {
    assert forall x :: x in stage ==> x in NormalizeColumns(master) && PassesHardGates(hasCatcode, t, x);
    TopReported(master, hasCatcode, t, ratio, stage, top);
    if |CatcodeStage(master, hasCatcode, t)| <= 5 {
      assert stage[0] in stage;
      TopScoresBest(master, hasCatcode, t, ratio, stage, top);
    }
  }

  lemma TopReported(master: seq<MasterRow>, hasCatcode: bool, t: Transaction, ratio: Ratio,
                    stage: seq<MasterRow>, top: seq<MasterRow>)
    requires forall x :: x in stage ==> x in NormalizeColumns(master) && PassesHardGates(hasCatcode, t, x)
    requires stage != [] && |stage| <= |CatcodeStage(master, hasCatcode, t)|
    requires IsTopK(stage, FinalKey(t, ratio), 3, top)
    ensures ReportsPassingRows(master, hasCatcode, t, ratio, Matched(t.itemcode, Codes(top), Scores(t, ratio, top)))
  {
    TopExplained(master, hasCatcode, t, ratio, stage, top);
    TopScoresSorted(t, ratio, stage, top);
  }

  /** The reported lists are aligned and the scores come best first. */
  lemma TopScoresSorted(t: Transaction, ratio: Ratio, stage: seq<MasterRow>, top: seq<MasterRow>)
    requires IsTopK(stage, FinalKey(t, ratio), 3, top)
    ensures |Codes(top)| == |Scores(t, ratio, top)| == |top|
    ensures forall i, j :: 0 <= i < j < |top| ==> Scores(t, ratio, top)[i] >= Scores(t, ratio, top)[j]
  {
  }

  /** Each reported code and score comes from a row of the stage it was
      picked from. */
  lemma TopExplained(master: seq<MasterRow>, hasCatcode: bool, t: Transaction, ratio: Ratio,
                     stage: seq<MasterRow>, top: seq<MasterRow>)
    requires forall x :: x in stage ==> x in NormalizeColumns(master) && PassesHardGates(hasCatcode, t, x)
    requires multiset(top) <= multiset(stage)
    ensures forall i :: 0 <= i < |top| ==> Explains(master, hasCatcode, t, ratio, Codes(top)[i], Scores(t, ratio, top)[i])
  {
    forall i | 0 <= i < |top|
      ensures Explains(master, hasCatcode, t, ratio, Codes(top)[i], Scores(t, ratio, top)[i])
    {
      assert top[i] in multiset(top);
      assert top[i] in stage;
      assert Codes(top)[i] == top[i].itemcode && Scores(t, ratio, top)[i] == FinalScore(t, ratio, top[i]);
    }
  }

  /** When nothing was cut, the first reported score is the best of every
      row that passes the hard gates. */
  lemma {:induction false} TopScoresBest(master: seq<MasterRow>, hasCatcode: bool, t: Transaction, ratio: Ratio,
                                         stage: seq<MasterRow>, top: seq<MasterRow>)
    requires Keeps(master, hasCatcode, t, stage) && |CatcodeStage(master, hasCatcode, t)| <= 5
    requires 1 <= |top| && IsTopK(stage, FinalKey(t, ratio), 3, top)
    ensures forall x :: x in NormalizeColumns(master) && PassesHardGates(hasCatcode, t, x) ==> FinalScore(t, ratio, x) <= FinalScore(t, ratio, top[0])
  {
    FirstIsBest(stage, top, FinalKey(t, ratio), 3);
  }

  /** `process_transaction_entry`: passes 1-5 and the final top 3. */
  method ProcessTransactionEntry(master: seq<MasterRow>, hasCatcode: bool, t: Transaction, ratio: Ratio) returns (r: MatchResult)
    ensures IsEntryResult(master, hasCatcode, t, ratio, r)
  {
    var searchPacktype := NormalizeValue(t.packtype, PacktypeTable);
    var split := SplitPackSize(t.packsize);
    var searchUom := NormalizeValue(Some(split.1), UomTable);

    var filtered := NormalizeColumns(master);

    // Pass 1: category code (hard gate, skipped when the column is absent)
    if hasCatcode {
      filtered := Filter(filtered, CatcodeGate(t));
      if |filtered| == 0 {
        EmptyTopK(CompanyKey(t, ratio), 5);
        EmptyTopK(BrandKey(t, ratio), 5);
        NoMatchRun(master, hasCatcode, t, ratio, [], []);
        return NoMatch(t.itemcode);
      }
    }

    // Pass 2: company (fuzzy, keep top 5)
    var companyStage := TopK(filtered, CompanyKey(t, ratio), 5);
    if |companyStage| == 0 {
      EmptyTopK(BrandKey(t, ratio), 5);
      NoMatchRun(master, hasCatcode, t, ratio, companyStage, []);
      return NoMatch(t.itemcode);
    }

    // Pass 3: brand (fuzzy, keep top 5); never empty here
    var brandStage := TopK(companyStage, BrandKey(t, ratio), 5);

    // Pass 4: quantity in base units (hard gate)
    var searchBase := ConvertQtyUom(Written(split.0), searchUom);
    assert searchBase == SearchBase(t) && searchPacktype == SearchPacktype(t);
    filtered := Filter(brandStage, BaseGate(searchBase));
    if |filtered| == 0 {
      NoMatchRun(master, hasCatcode, t, ratio, companyStage, brandStage);
      return NoMatch(t.itemcode);
    }

    // Pass 5: pack type (hard gate)
    filtered := Filter(filtered, PacktypeGate(searchPacktype));
    if |filtered| == 0 {
      NoMatchRun(master, hasCatcode, t, ratio, companyStage, brandStage);
      return NoMatch(t.itemcode);
    }

    // Final top 3 by combined score
    var top := TopK(filtered, FinalKey(t, ratio), 3);
    MatchRun(master, hasCatcode, t, ratio, companyStage, brandStage, top);
    r := Matched(t.itemcode, Codes(top), Scores(t, ratio, top));
  }

  /** Nothing is the top k of nothing. */
  lemma EmptyTopK<T>(key: T -> real, k: nat)
    ensures IsTopK([], key, k, [])
  {
  }

  /** With the fuzzy cuts made, no row left after passes 4 and 5 means no match. */
  lemma NoMatchRun(master: seq<MasterRow>, hasCatcode: bool, t: Transaction, ratio: Ratio, company: seq<MasterRow>, brand: seq<MasterRow>)
    requires IsTopK(CatcodeStage(master, hasCatcode, t), CompanyKey(t, ratio), 5, company)
    requires IsTopK(company, BrandKey(t, ratio), 5, brand)
    requires Filter(brand, BaseGate(SearchBase(t))) == [] || GatedStage(t, brand) == []
    ensures IsEntryResult(master, hasCatcode, t, ratio, NoMatch(t.itemcode))
  {
    assert GatedStage(t, brand) == [];
    assert EntryRun(master, hasCatcode, t, ratio, company, brand, [], NoMatch(t.itemcode));
  }

  /** With the fuzzy cuts made and rows left after passes 4 and 5, the top
      three of them are the match. */
  lemma MatchRun(master: seq<MasterRow>, hasCatcode: bool, t: Transaction, ratio: Ratio,
                 company: seq<MasterRow>, brand: seq<MasterRow>, top: seq<MasterRow>)
    requires IsTopK(CatcodeStage(master, hasCatcode, t), CompanyKey(t, ratio), 5, company)
    requires IsTopK(company, BrandKey(t, ratio), 5, brand)
    requires GatedStage(t, brand) != [] && IsTopK(GatedStage(t, brand), FinalKey(t, ratio), 3, top)
    ensures IsEntryResult(master, hasCatcode, t, ratio, Matched(t.itemcode, Codes(top), Scores(t, ratio, top)))
  {
    assert EntryRun(master, hasCatcode, t, ratio, company, brand, top, Matched(t.itemcode, Codes(top), Scores(t, ratio, top)));
  }

  /** Whatever the tie order, the result keeps the promises of `EntryFacts`. */
  lemma {:induction false} EntryResultFacts(master: seq<MasterRow>, hasCatcode: bool, t: Transaction, ratio: Ratio, r: MatchResult)
    requires IsEntryResult(master, hasCatcode, t, ratio, r)
    ensures EntryFacts(master, hasCatcode, t, ratio, r)
  {
    var company, brand, top :| EntryRun(master, hasCatcode, t, ratio, company, brand, top, r);
    var first := CatcodeStage(master, hasCatcode, t);
    CatcodeStageKeeps(master, hasCatcode, t);
    CutKeeps(master, hasCatcode, t, first, company);
    CutKeeps(master, hasCatcode, t, company, brand);
    var based := Filter(brand, BaseGate(SearchBase(t)));
    BaseGatePasses(hasCatcode, t);
    GateKeeps(master, hasCatcode, t, brand, BaseGate(SearchBase(t)));
    PacktypeGatePasses(hasCatcode, t);
    GateKeeps(master, hasCatcode, t, based, PacktypeGate(SearchPacktype(t)));
    var gated := GatedStage(t, brand);
    if gated == [] {
      EmptyStageNoMatch(master, hasCatcode, t, ratio, gated);
    } else {
      FinalStageMatches(master, hasCatcode, t, ratio, gated, top);
    }
  }

  /** When pass 1 leaves at most five rows the fuzzy cuts drop nothing:
      the entry reports a top 3 by mean score of all the rows that pass
      every hard gate, and no match exactly when there is no such row. */
  lemma {:induction false} FewCandidatesTopThree(master: seq<MasterRow>, hasCatcode: bool, t: Transaction, ratio: Ratio, r: MatchResult)
    requires IsEntryResult(master, hasCatcode, t, ratio, r)
    requires |CatcodeStage(master, hasCatcode, t)| <= 5
    ensures var passing := GatedStage(t, CatcodeStage(master, hasCatcode, t));
      && (r.NoMatch? <==> passing == [])
      && (r.Matched? ==> exists top :: IsTopK(passing, FinalKey(t, ratio), 3, top) && r == Matched(t.itemcode, Codes(top), Scores(t, ratio, top)))
  {
    var company, brand, top :| EntryRun(master, hasCatcode, t, ratio, company, brand, top, r);
    var first := CatcodeStage(master, hasCatcode, t);
    var base, pack := BaseGate(SearchBase(t)), PacktypeGate(SearchPacktype(t));
    FilterSameMultiset(brand, first, base);
    FilterSameMultiset(Filter(brand, base), Filter(first, base), pack);
    var gated, passing := GatedStage(t, brand), GatedStage(t, first);
    assert |gated| == |multiset(gated)| == |multiset(passing)| == |passing|;
    if gated != [] {
      TopKSameMultiset(gated, passing, FinalKey(t, ratio), 3, top);
    }
  }

  /** Every normalised row comes from a master row with the same text columns. */
  lemma NormalizedOrigin(master: seq<MasterRow>, x: MasterRow)
    requires x in NormalizeColumns(master)
    ensures exists m :: m in master && x == NormalizeRow(m)
  {
    var j :| 0 <= j < |master| && NormalizeColumns(master)[j] == x;
    assert master[j] in master;
  }

  /** A match is only reported when some master row passes every hard
      gate; in particular the search size converts, the search pack type
      is present and, when the column exists, some row has the category. */
  lemma {:induction false} MatchNeedsSurvivor(master: seq<MasterRow>, hasCatcode: bool, t: Transaction, ratio: Ratio, r: MatchResult)
    requires IsEntryResult(master, hasCatcode, t, ratio, r)
    ensures r.Matched? ==> exists x :: x in NormalizeColumns(master) && PassesHardGates(hasCatcode, t, x)
    ensures r.Matched? ==> SearchBase(t).Some? && SearchPacktype(t).Some?
    ensures r.Matched? && hasCatcode ==> exists m :: m in master && CatcodeMatches(t, m)
  {
    EntryResultFacts(master, hasCatcode, t, ratio, r);
    if r.Matched? {
      assert Explains(master, hasCatcode, t, ratio, r.itemcodes[0], r.scores[0]);
      var x :| x in NormalizeColumns(master) && PassesHardGates(hasCatcode, t, x);
      NormalizedOrigin(master, x);
      var m :| m in master && x == NormalizeRow(m);
      if hasCatcode {
        assert NormalizeRow(m).catcode == m.catcode;
        assert m in master && CatcodeMatches(t, m);
      }
    }
  }

  /** A pack size that does not convert (no digits, or a unit outside
      ml/l/g/kg/pcs) equals no row's base quantity: no match. */
  lemma {:induction false} UnconvertibleSizeNoMatch(master: seq<MasterRow>, hasCatcode: bool, t: Transaction, ratio: Ratio, r: MatchResult)
    requires IsEntryResult(master, hasCatcode, t, ratio, r)
    requires SearchBase(t) == None
    ensures r == NoMatch(t.itemcode)
  {
    MatchNeedsSurvivor(master, hasCatcode, t, ratio, r);
  }

  /** A transaction whose pack type is NaN equals no row's pack type: no match. */
  lemma {:induction false} MissingPacktypeNoMatch(master: seq<MasterRow>, hasCatcode: bool, t: Transaction, ratio: Ratio, r: MatchResult)
    requires IsEntryResult(master, hasCatcode, t, ratio, r)
    requires t.packtype == None
    ensures r == NoMatch(t.itemcode)
  {
    MatchNeedsSurvivor(master, hasCatcode, t, ratio, r);
  }

  /** A category code that no master row carries ends the entry with no match. */
  lemma {:induction false} CategoryAbsentNoMatch(master: seq<MasterRow>, t: Transaction, ratio: Ratio, r: MatchResult)
    requires IsEntryResult(master, true, t, ratio, r)
    requires forall m :: m in master ==> !CatcodeMatches(t, m)
    ensures r == NoMatch(t.itemcode)
  {
    MatchNeedsSurvivor(master, true, t, ratio, r);
  }

  lemma NormalizeSingle(m: MasterRow, y: MasterRow)
    requires y in NormalizeColumns([m])
    ensures y == NormalizeRow(m)
  {
  }

  lemma ExplainsWitness(master: seq<MasterRow>, hasCatcode: bool, t: Transaction, ratio: Ratio, code: string, score: real)
    requires Explains(master, hasCatcode, t, ratio, code, score)
    ensures exists y :: y in NormalizeColumns(master) && y.itemcode == code && score == FinalScore(t, ratio, y)
  {
  }

  /** With a single master row, every reported code and score is that row's. */
  lemma {:induction false} ExplainedBySingle(m: MasterRow, hasCatcode: bool, t: Transaction, ratio: Ratio, code: string, score: real)
    requires Explains([m], hasCatcode, t, ratio, code, score)
    ensures code == m.itemcode && score == FinalScore(t, ratio, m)
  {
    ExplainsWitness([m], hasCatcode, t, ratio, code, score);
    var y :| y in NormalizeColumns([m]) && y.itemcode == code && score == FinalScore(t, ratio, y);
    NormalizeSingle(m, y);
    NormalizeRowFields(m);
    SameNamesSameScore(t, ratio, y, m);
  }

  lemma SingleStageBound(m: MasterRow, hasCatcode: bool, t: Transaction)
    ensures NormalizeRow(m) in NormalizeColumns([m])
    ensures |CatcodeStage([m], hasCatcode, t)| <= 1
  {
    assert NormalizeColumns([m])[0] == NormalizeRow(m);
  }

  /** A master file of one row that passes every hard gate yields exactly
      that row's item code with its mean fuzzy score. */
  lemma {:induction false} SingleCandidateMatch(m: MasterRow, hasCatcode: bool, t: Transaction, ratio: Ratio, r: MatchResult)
    requires PassesHardGates(hasCatcode, t, NormalizeRow(m))
    requires IsEntryResult([m], hasCatcode, t, ratio, r)
    ensures r == Matched(t.itemcode, [m.itemcode], [FinalScore(t, ratio, m)])
  {
    SingleStageBound(m, hasCatcode, t);
    EntryResultFacts([m], hasCatcode, t, ratio, r);
    assert r.Matched? && |r.itemcodes| == 1;
    ExplainedBySingle(m, hasCatcode, t, ratio, r.itemcodes[0], r.scores[0]);
    Singleton(r.itemcodes, m.itemcode);
    Singleton(r.scores, FinalScore(t, ratio, m));
  }

  // A worked entry: one can of 330 ml in category 10 against "330ML" / "CAN".

  function AcmeRow(): MasterRow
  {
    MasterRow("A1", "10", "Acme Co", "Fizz", Some("can"), Numeric(330.0), Some("ml"))
  }

  function AcmeTransaction(): Transaction
  {
    Transaction("T1", "10", "ACME", "Fizz", Some("CAN"), "330ML", "Fizz 330ML can")
  }

  lemma AcmeSearchPacktype()
    ensures SearchPacktype(AcmeTransaction()) == Some("can")
  {
    NormalizeUpperCan();
  }

  lemma AcmeSearchUom()
    ensures SearchUom(AcmeTransaction()) == Some("ml")
  {
    SplitPackSize330ML();
    NormalizeUpperMl();
  }

  lemma AcmeSearchBase()
    ensures SearchBase(AcmeTransaction()) == Some(330.0)
  {
    AcmeSearchUom();
    SplitPackSize330ML();
    ParseQuantity330();
    UnitKeyMl();
  }

  lemma AcmeRowPacktype()
    ensures NormalizeRow(AcmeRow()).packtype == Some("can")
  {
    NormalizeCan();
    NormalizeRowFields(AcmeRow());
  }

  lemma AcmeRowBase()
    ensures RowBase(NormalizeRow(AcmeRow())) == Some(330.0)
  {
    NormalizeMl();
    NormalizeRowFields(AcmeRow());
    ConvertMl(330.0);
  }

  /** Pass 1 compares the stripped category codes; normalising the row
      does not touch its `catcode`. */
  lemma CatcodeSurvivesNormalizing(t: Transaction, m: MasterRow)
    requires Strip(m.catcode) == Strip(t.category)
    ensures CatcodeMatches(t, NormalizeRow(m))
  {
    NormalizeRowFields(m);
  }

  lemma AcmeRowPasses()
    ensures PassesHardGates(true, AcmeTransaction(), NormalizeRow(AcmeRow()))
  {
    AcmeSearchPacktype();
    AcmeSearchBase();
    AcmeRowPacktype();
    AcmeRowBase();
    CatcodeSurvivesNormalizing(AcmeTransaction(), AcmeRow());
  }

  /** The catalogue holding only A1 matches the transaction with A1 alone,
      scored by the mean of its two fuzzy scores. */
  lemma AcmeScenario(ratio: Ratio, r: MatchResult)
    requires IsEntryResult([AcmeRow()], true, AcmeTransaction(), ratio, r)
    ensures r == Matched("T1", ["A1"], [FinalScore(AcmeTransaction(), ratio, AcmeRow())])
  {
    AcmeRowPasses();
    SingleCandidateMatch(AcmeRow(), true, AcmeTransaction(), ratio, r);
  }

  /** One more entry result extends a run of entry results. */
  lemma EntryResultsAppend(master: seq<MasterRow>, hasCatcode: bool, transactions: seq<Transaction>, ratio: Ratio,
                           results: seq<MatchResult>, result: MatchResult)
    requires |results| < |transactions|
    requires forall j :: 0 <= j < |results| ==> IsEntryResult(master, hasCatcode, transactions[j], ratio, results[j])
    requires IsEntryResult(master, hasCatcode, transactions[|results|], ratio, result)
    ensures forall j :: 0 <= j <= |results| ==> IsEntryResult(master, hasCatcode, transactions[j], ratio, (results + [result])[j])
  {
    forall j | 0 <= j <= |results|
      ensures IsEntryResult(master, hasCatcode, transactions[j], ratio, (results + [result])[j])
    {
      if j < |results| {
        assert (results + [result])[j] == results[j];
      } else {
        assert (results + [result])[j] == result;
      }
    }
  }

  /** `main`: one result per transaction, in input order. */
  method MatchTransactions(master: seq<MasterRow>, hasCatcode: bool, transactions: seq<Transaction>, ratio: Ratio)
    returns (results: seq<MatchResult>)
    ensures |results| == |transactions|
    ensures forall i :: 0 <= i < |transactions| ==> IsEntryResult(master, hasCatcode, transactions[i], ratio, results[i])
  {
    results := [];
    for i := 0 to |transactions|
      invariant |results| == i
      invariant forall j :: 0 <= j < i ==> IsEntryResult(master, hasCatcode, transactions[j], ratio, results[j])
    {
      var result := ProcessTransactionEntry(master, hasCatcode, transactions[i], ratio);
      EntryResultsAppend(master, hasCatcode, transactions, ratio, results, result);
      results := results + [result];
    }
  }
}
