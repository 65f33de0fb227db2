/** The language-model matcher of src/llm_matching.py: five passes over
    the catalogue, each skipped when its column is missing and otherwise
    keeping the rows an external model answers "true" for; an empty pass
    does not stop the entry, and the result reports the distinct item
    codes of the last non-empty stage. */
module LlmMatching {
  import opened Basics
  import opened Text
  import opened Normalize
  import opened Records

  datatype Stage = Catcode | Company | Brand | Packtype | QtyUom

  /** The passes in the order the entry runs them. */
  const PassOrder: seq<Stage> := [Catcode, Company, Brand, Packtype, QtyUom]

  /** One catalogue row; a cell is None when pandas reads NaN. The item
      code is held as the text `str()` gives it. */
  datatype CatalogRow = CatalogRow(
    itemcode: string,
    catcode: Option<string>,
    company: Option<string>,
    brand: Option<string>,
    packtype: Option<string>,
    qty: Option<string>,
    uom: Option<string>)

  /** `str(cell) if pd.notna(cell) else ""` */
  function Shown(cell: Option<string>): string
  {
    if cell.None? then "" else cell.value
  }

  /** `column_exists(df, col)`; every stage keeps the catalogue's columns. */
  predicate ColumnExists(columns: set<string>, col: string)
  {
    col in columns
  }

  /** A pass runs only when the columns it reads exist. */
  predicate PassEnabled(columns: set<string>, stage: Stage)
  {
    match stage
    case Catcode => ColumnExists(columns, "catcode")
    case Company => ColumnExists(columns, "company")
    case Brand => ColumnExists(columns, "brand")
    case Packtype => ColumnExists(columns, "packtype")
    case QtyUom => ColumnExists(columns, "qty") && ColumnExists(columns, "uom")
  }

  /** What the prompt of one pass carries: the stage (which fixes the
      wording of the rules), the transaction's values and the row's values. */
  datatype Query = Query(stage: Stage, search: seq<string>, found: seq<string>)

  /** The outcome of `ollama.chat`: it raised, or it returned message text. */
  datatype Reply = Raised | Content(text: string)

  /** The language model, as a function of the prompt it is given. */
  type Oracle = Query -> Reply

  /** The transaction values a pass puts in its prompt; the quantity and
      unit are the digits and the letters of PACKSIZE. */
  function SearchValues(t: Transaction, stage: Stage): (r: seq<string>)
    ensures stage == QtyUom ==> |r| == 2 && AllDigits(r[0]) && IsSubsequence(r[0], t.packsize)
    ensures stage == QtyUom ==> (forall i :: 0 <= i < |r[1]| ==> IsAlpha(r[1][i])) && IsSubsequence(r[1], t.packsize)
  {
    match stage
    case Catcode => [t.category]
    case Company => [t.manufacture]
    case Brand => [t.brand]
    case Packtype => [Str(t.packtype)]
    case QtyUom => [SplitPackSize(t.packsize).0, SplitPackSize(t.packsize).1]
  }

  /** The row values a pass puts in its prompt. */
  function RowValues(row: CatalogRow, stage: Stage): seq<string>
  {
    match stage
    case Catcode => [Shown(row.catcode)]
    case Company => [Shown(row.company)]
    case Brand => [Shown(row.brand)]
    case Packtype => [Shown(row.packtype)]
    case QtyUom => [Shown(row.qty), Shown(row.uom)]
  }

  function QueryFor(t: Transaction, stage: Stage, row: CatalogRow): Query
  {
    Query(stage, SearchValues(t, stage), RowValues(row, stage))
  }

  /** A row is kept when the reply text, lower-cased, contains "true"; a
      call that raises drops the row. */
  predicate Accepts(reply: Reply)
  {
    reply.Content? && Contains(ToLower(reply.text), "true")
  }

  function Verdict(oracle: Oracle, t: Transaction, stage: Stage): CatalogRow -> bool
  {
    row => Accepts(oracle(QueryFor(t, stage, row)))
  }

  lemma AcceptsTrue()
    ensures Accepts(Content("True"))
  {
    assert ToLower("True") == "true";
  }

  /** Containment, not equality: a reply that merely mentions "true" keeps the row. */
  lemma AcceptsNotTrue()
    ensures Accepts(Content("not true"))
  {
    var s := ToLower("not true");
    assert s == "not true";
    assert s[4..8] == "true";
    ContainsAt(s, "true", 4);
  }

  lemma RejectsFalseAndRaised()
    ensures !Accepts(Content("false")) && !Accepts(Raised)
  {
    var s := ToLower("false");
    assert s == "false";
    assert s[0] != "true"[0];
    assert s[1..][0] != "true"[0];
    ShortNoContains(s[1..][1..], "true");
  }

  /** The loop over `filtered_df.iterrows()` of one enabled pass. */
  method RunPass(rows: seq<CatalogRow>, oracle: Oracle, t: Transaction, stage: Stage) returns (kept: seq<CatalogRow>)
    ensures kept == Filter(rows, Verdict(oracle, t, stage))
  {
    kept := [];
    for i := 0 to |rows|
      invariant kept == Filter(rows[..i], Verdict(oracle, t, stage))
    {
      var reply := oracle(QueryFor(t, stage, rows[i]));
      FilterExtend(rows, i, Verdict(oracle, t, stage));
      if reply.Content? && Contains(ToLower(reply.text), "true") {
        kept := kept + [rows[i]];
      }
    }
    assert rows[..|rows|] == rows;
  }

  /** `filtered_df` and `last_successful_df` between passes. */
  datatype Tracker = Tracker(filtered: seq<CatalogRow>, last: seq<CatalogRow>)

  /** One pass: skipped when its column is missing; otherwise the kept rows
      replace the candidates, and replace the fallback only when non-empty. */
  function Step(columns: set<string>, oracle: Oracle, t: Transaction, tr: Tracker, stage: Stage): (r: Tracker)
    ensures !PassEnabled(columns, stage) ==> r == tr
    ensures PassEnabled(columns, stage) ==> IsSubsequence(r.filtered, tr.filtered)
    ensures PassEnabled(columns, stage) ==>
      forall row :: row in r.filtered <==> row in tr.filtered && Verdict(oracle, t, stage)(row)
    ensures r.last == tr.last || (r.last == r.filtered && r.filtered != [])
    ensures PassEnabled(columns, stage) && r.filtered != [] ==> r.last == r.filtered
  {
    if !PassEnabled(columns, stage) then tr
    else
      var kept := Filter(tr.filtered, Verdict(oracle, t, stage));
      Tracker(kept, if kept != [] then kept else tr.last)
  }

  /** The passes of `stages`, run in order. */
  function RunPasses(columns: set<string>, oracle: Oracle, t: Transaction, tr: Tracker, stages: seq<Stage>): Tracker
    decreases |stages|
  {
    if stages == [] then tr
    else RunPasses(columns, oracle, t, Step(columns, oracle, t, tr, stages[0]), stages[1..])
  }

  /** The `itemcode` column of a frame. */
  function Itemcodes(rows: seq<CatalogRow>): seq<string>
  {
    Column(rows, (row: CatalogRow) => row.itemcode)
  }

  /** The `m_itemcode(s)` cell. */
  function ItemcodesCell(last: seq<CatalogRow>): Option<string>
  {
    if last == [] then None else Some(Join(Distinct(Itemcodes(last)), " || "))
  }

  /** The one-row frame returned for an entry. */
  datatype EntryResult = EntryResult(tItemcode: string, itemcodes: Option<string>)

  /** What `process_transaction_entry` computes for one transaction. */
  function EntryOutcome(columns: set<string>, catalog: seq<CatalogRow>, oracle: Oracle, t: Transaction): EntryResult
  {
    EntryResult(t.itemcode, ItemcodesCell(RunPasses(columns, oracle, t, Tracker(catalog, []), PassOrder).last))
  }

  /** One pass of the entry, on its two frames. */
  method ApplyPass(columns: set<string>, oracle: Oracle, t: Transaction, filtered: seq<CatalogRow>, last: seq<CatalogRow>, stage: Stage)
    returns (filtered': seq<CatalogRow>, last': seq<CatalogRow>)
    ensures Tracker(filtered', last') == Step(columns, oracle, t, Tracker(filtered, last), stage)
  {
    filtered', last' := filtered, last;
    if PassEnabled(columns, stage) {
      filtered' := RunPass(filtered, oracle, t, stage);
      if filtered' != [] {
        last' := filtered';
      }
    }
  }

  /** `process_transaction_entry` */
  method ProcessTransactionEntry(columns: set<string>, catalog: seq<CatalogRow>, oracle: Oracle, t: Transaction)
    returns (r: EntryResult)
    ensures r == EntryOutcome(columns, catalog, oracle, t)
  {
    var filtered, last := catalog, [];
    ghost var tr := Tracker(filtered, last);
    filtered, last := ApplyPass(columns, oracle, t, filtered, last, Catcode);
    filtered, last := ApplyPass(columns, oracle, t, filtered, last, Company);
    filtered, last := ApplyPass(columns, oracle, t, filtered, last, Brand);
    filtered, last := ApplyPass(columns, oracle, t, filtered, last, Packtype);
    filtered, last := ApplyPass(columns, oracle, t, filtered, last, QtyUom);
    assert Tracker(filtered, last) == RunPasses(columns, oracle, t, tr, PassOrder) by {
      var s := PassOrder;
      assert s[1..] == [Company, Brand, Packtype, QtyUom];
      assert s[2..] == [Brand, Packtype, QtyUom];
      assert s[3..] == [Packtype, QtyUom];
      assert s[4..] == [QtyUom];
      assert s[5..] == [];
    }
    if last != [] {
      r := EntryResult(t.itemcode, Some(Join(Distinct(Itemcodes(last)), " || ")));
    } else {
      r := EntryResult(t.itemcode, None);
    }
  }

  /** The module-level loop: one result per transaction, in order. */
  method MatchTransactions(columns: set<string>, catalog: seq<CatalogRow>, oracle: Oracle, transactions: seq<Transaction>)
    returns (results: seq<EntryResult>)
    ensures |results| == |transactions|
    ensures forall i :: 0 <= i < |transactions| ==> results[i] == EntryOutcome(columns, catalog, oracle, transactions[i])
  {
    results := [];
    for i := 0 to |transactions|
      invariant |results| == i
      invariant forall j :: 0 <= j < i ==> results[j] == EntryOutcome(columns, catalog, oracle, transactions[j])
    {
      var result := ProcessTransactionEntry(columns, catalog, oracle, transactions[i]);
      results := results + [result];
    }
  }

  // A reference description of the same computation: the list of stage
  // outputs, and the last non-empty one among them.

  /** The candidate sets the enabled passes of `stages` produce, in order;
      a skipped pass produces none. */
  function Outputs(columns: set<string>, oracle: Oracle, t: Transaction, rows: seq<CatalogRow>, stages: seq<Stage>): (sets: seq<seq<CatalogRow>>)
    ensures |sets| <= |stages|
    decreases |stages|
  {
    if stages == [] then []
    else if !PassEnabled(columns, stages[0]) then Outputs(columns, oracle, t, rows, stages[1..])
    else
      var kept := Filter(rows, Verdict(oracle, t, stages[0]));
      [kept] + Outputs(columns, oracle, t, kept, stages[1..])
  }

  /** Position of the last non-empty set, or -1 when every set is empty. */
  function LastNonEmptyIndex(sets: seq<seq<CatalogRow>>): (k: int)
    ensures -1 <= k < |sets|
    ensures k >= 0 ==> sets[k] != []
    ensures forall j :: k < j < |sets| ==> sets[j] == []
  {
    if sets == [] then -1
    else if sets[|sets| - 1] != [] then |sets| - 1
    else
      var k := LastNonEmptyIndex(sets[..|sets| - 1]);
      assert forall j :: k < j < |sets| - 1 ==> sets[..|sets| - 1][j] == sets[j];
      k
  }

  /** The last non-empty set of `sets`, or `fallback` when there is none. */
  function LastNonEmpty(sets: seq<seq<CatalogRow>>, fallback: seq<CatalogRow>): seq<CatalogRow>
  {
    var k := LastNonEmptyIndex(sets);
    if k < 0 then fallback else sets[k]
  }

  /** The conditions on `LastNonEmptyIndex` pin the position down. */
  lemma LastNonEmptyIndexUnique(sets: seq<seq<CatalogRow>>, k: int)
    requires -1 <= k < |sets| && (k >= 0 ==> sets[k] != [])
    requires forall j :: k < j < |sets| ==> sets[j] == []
    ensures k == LastNonEmptyIndex(sets)
  {
    var m := LastNonEmptyIndex(sets);
    assert !(k < m);
    assert !(m < k);
  }

  lemma LastNonEmptyCons(kept: seq<CatalogRow>, rest: seq<seq<CatalogRow>>, fallback: seq<CatalogRow>)
    ensures LastNonEmpty([kept] + rest, fallback) == LastNonEmpty(rest, if kept != [] then kept else fallback)
  {
    var s := [kept] + rest;
    var r := LastNonEmptyIndex(rest);
    var k := if r >= 0 then r + 1 else if kept != [] then 0 else -1;
    assert forall j :: 1 <= j < |s| ==> s[j] == rest[j - 1];
    LastNonEmptyIndexUnique(s, k);
  }

  /** The tracker after the passes is described by the stage outputs:
      `last_successful_df` is the most recent non-empty output (or what it
      was before), and `filtered_df` is the latest output. */
  lemma {:induction false} TrackerFollowsOutputs(columns: set<string>, oracle: Oracle, t: Transaction, tr: Tracker, stages: seq<Stage>)
    ensures RunPasses(columns, oracle, t, tr, stages).last == LastNonEmpty(Outputs(columns, oracle, t, tr.filtered, stages), tr.last)
    ensures var sets := Outputs(columns, oracle, t, tr.filtered, stages);
      RunPasses(columns, oracle, t, tr, stages).filtered == if sets == [] then tr.filtered else sets[|sets| - 1]
    decreases |stages|
  {
    if stages != [] {
      var next := Step(columns, oracle, t, tr, stages[0]);
      TrackerFollowsOutputs(columns, oracle, t, next, stages[1..]);
      assert RunPasses(columns, oracle, t, tr, stages) == RunPasses(columns, oracle, t, next, stages[1..]);
      if PassEnabled(columns, stages[0]) {
        var rest := Outputs(columns, oracle, t, next.filtered, stages[1..]);
        LastNonEmptyCons(next.filtered, rest, tr.last);
        var sets := [next.filtered] + rest;
        assert Outputs(columns, oracle, t, tr.filtered, stages) == sets;
        assert rest != [] ==> sets[|sets| - 1] == rest[|rest| - 1];
      } else {
        assert next == tr;
        assert Outputs(columns, oracle, t, tr.filtered, stages) == Outputs(columns, oracle, t, tr.filtered, stages[1..]);
      }
    }
  }

  /** Filtering nothing yields nothing, pass after pass. */
  lemma {:induction false} OutputsOfNothing(columns: set<string>, oracle: Oracle, t: Transaction, stages: seq<Stage>)
    ensures forall k :: 0 <= k < |Outputs(columns, oracle, t, [], stages)| ==> Outputs(columns, oracle, t, [], stages)[k] == []
    decreases |stages|
  {
    if stages != [] {
      OutputsOfNothing(columns, oracle, t, stages[1..]);
    }
  }

  /** An empty set in `sets` is followed only by empty sets. */
  predicate EmptyPersists(sets: seq<seq<CatalogRow>>)
  {
    forall i, j :: 0 <= i <= j < |sets| && sets[i] == [] ==> sets[j] == []
  }

  /** Once a pass yields no rows, every later pass yields none either. */
  lemma {:induction false} EmptyStaysEmpty(columns: set<string>, oracle: Oracle, t: Transaction, rows: seq<CatalogRow>, stages: seq<Stage>)
    ensures EmptyPersists(Outputs(columns, oracle, t, rows, stages))
    decreases |stages|
  {
    if stages != [] {
      if PassEnabled(columns, stages[0]) {
        var kept := Filter(rows, Verdict(oracle, t, stages[0]));
        var rest := Outputs(columns, oracle, t, kept, stages[1..]);
        EmptyStaysEmpty(columns, oracle, t, kept, stages[1..]);
        var sets := [kept] + rest;
        assert Outputs(columns, oracle, t, rows, stages) == sets;
        assert forall j :: 1 <= j < |sets| ==> sets[j] == rest[j - 1];
        if kept == [] {
          OutputsOfNothing(columns, oracle, t, stages[1..]);
          assert forall j :: 0 <= j < |sets| ==> sets[j] == [];
        } else {
          forall i, j | 0 <= i <= j < |sets| && sets[i] == []
            ensures sets[j] == []
          {
            assert i != 0;
            assert sets[i] == rest[i - 1] && sets[j] == rest[j - 1];
            assert 0 <= i - 1 <= j - 1 < |rest| && rest[i - 1] == [];
          }
        }
      } else {
        EmptyStaysEmpty(columns, oracle, t, rows, stages[1..]);
        assert Outputs(columns, oracle, t, rows, stages) == Outputs(columns, oracle, t, rows, stages[1..]);
      }
    }
  }

  /** Each pass narrows: its output is a subsequence of its input, so of
      every earlier stage and of the catalogue. */
  lemma {:induction false} PassesNarrow(columns: set<string>, oracle: Oracle, t: Transaction, rows: seq<CatalogRow>, stages: seq<Stage>)
    ensures var sets := Outputs(columns, oracle, t, rows, stages);
      (sets != [] ==> IsSubsequence(sets[0], rows)) &&
      (forall k :: 0 < k < |sets| ==> IsSubsequence(sets[k], sets[k - 1]))
    ensures forall s :: s in Outputs(columns, oracle, t, rows, stages) ==> IsSubsequence(s, rows)
    decreases |stages|
  {
    if stages != [] {
      if !PassEnabled(columns, stages[0]) {
        PassesNarrow(columns, oracle, t, rows, stages[1..]);
      } else {
        var kept := Filter(rows, Verdict(oracle, t, stages[0]));
        var rest := Outputs(columns, oracle, t, kept, stages[1..]);
        PassesNarrow(columns, oracle, t, kept, stages[1..]);
        assert Outputs(columns, oracle, t, rows, stages) == [kept] + rest;
        forall s | s in rest
          ensures IsSubsequence(s, rows)
        {
          SubsequenceTransitive(s, kept, rows);
        }
      }
    }
  }

  /** The result names item codes exactly when some pass kept a row; it
      is None otherwise, including when every pass was skipped. */
  lemma {:induction false} NoneIffNoNonEmptyStage(columns: set<string>, catalog: seq<CatalogRow>, oracle: Oracle, t: Transaction)
    ensures var sets := Outputs(columns, oracle, t, catalog, PassOrder);
      EntryOutcome(columns, catalog, oracle, t).itemcodes.None? <==> forall k :: 0 <= k < |sets| ==> sets[k] == []
  {
    TrackerFollowsOutputs(columns, oracle, t, Tracker(catalog, []), PassOrder);
  }

  /** When some pass kept a row, the result lists the distinct item codes
      of the last such stage, in first-appearance order, joined by " || ". */
  lemma {:induction false} ResultFromLastNonEmptyStage(columns: set<string>, catalog: seq<CatalogRow>, oracle: Oracle, t: Transaction)
    ensures var sets := Outputs(columns, oracle, t, catalog, PassOrder);
      var k := LastNonEmptyIndex(sets);
      k >= 0 ==> EntryOutcome(columns, catalog, oracle, t).itemcodes == Some(Join(Distinct(Itemcodes(sets[k])), " || "))
  {
    TrackerFollowsOutputs(columns, oracle, t, Tracker(catalog, []), PassOrder);
  }

  /** With no pass column in the catalogue the entry reports None. */
  lemma {:induction false} AllSkippedNone(columns: set<string>, catalog: seq<CatalogRow>, oracle: Oracle, t: Transaction)
    requires forall stage :: !PassEnabled(columns, stage)
    ensures EntryOutcome(columns, catalog, oracle, t).itemcodes == None
  {
    var s := PassOrder;
    assert s[1..] == [Company, Brand, Packtype, QtyUom];
    assert s[2..] == [Brand, Packtype, QtyUom];
    assert s[3..] == [Packtype, QtyUom];
    assert s[4..] == [QtyUom];
    assert s[5..] == [];
    assert Outputs(columns, oracle, t, catalog, s[5..]) == [];
    assert Outputs(columns, oracle, t, catalog, s) == [];
    NoneIffNoNonEmptyStage(columns, catalog, oracle, t);
  }

  /** A skipped pass leaves both frames as they were. */
  lemma {:induction false} SkippedPassesChangeNothing(columns: set<string>, oracle: Oracle, t: Transaction, tr: Tracker, stages: seq<Stage>)
    requires forall k :: 0 <= k < |stages| ==> !PassEnabled(columns, stages[k])
    ensures RunPasses(columns, oracle, t, tr, stages) == tr
    decreases |stages|
  {
    if stages != [] {
      assert !PassEnabled(columns, stages[0]);
      SkippedPassesChangeNothing(columns, oracle, t, tr, stages[1..]);
    }
  }

  /** The reported codes are exactly those of the fallback stage, each once. */
  lemma {:induction false} ReportedCodes(last: seq<CatalogRow>)
    requires last != []
    ensures ItemcodesCell(last) == Some(Join(Distinct(Itemcodes(last)), " || "))
    ensures forall c :: c in Distinct(Itemcodes(last)) <==> exists row :: row in last && row.itemcode == c
    ensures NoDuplicates(Distinct(Itemcodes(last)))
  {
    var codes := Itemcodes(last);
    forall c
      ensures c in Distinct(codes) <==> exists row :: row in last && row.itemcode == c
    {
      if c in codes {
        var i :| 0 <= i < |codes| && codes[i] == c;
        assert last[i] in last;
      }
    }
  }
}
