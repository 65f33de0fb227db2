/** Field normalisation shared by the matchers: the unit-of-measure and
    pack-type synonym tables, `normalize_value`, `convert_qty_uom` and the
    split of a pack-size string into its digits and its letters
    (src/pandas_matching.py and src/llm_matching.py). */
module Normalize {
  import opened Basics
  import opened Text

  /** `uom_mapping` */
  const UomTable: map<string, string> :=
    map["ml" := "ml", "millilitre" := "ml",
        "l" := "l", "litre" := "l",
        "gm" := "g", "gram" := "g",
        "kg" := "kg",
        "no" := "pcs", "pcs" := "pcs"]

  /** `packtype_mapping` */
  const PacktypeTable: map<string, string> :=
    map["can" := "can", "tin" := "can", "tin c" := "can",
        "pet" := "bottle", "pbt" := "bottle", "plbot" := "bottle", "glbot" := "bottle",
        "jar" := "jar", "pljar" := "jar", "gljar" := "jar",
        "tpk" := "tpk", "rgb" := "rgb", "hl" := "hl"]

  /** A synonym table that normalising twice cannot change: every
      canonical value is clean and either maps to itself or is not a key. */
  ghost predicate Closed(table: map<string, string>)
  {
    forall k :: k in table ==> IsClean(table[k]) && (table[k] in table ==> table[table[k]] == table[k])
  }

  /** `normalize_value(value, mapping)`: a missing value stays missing;
      anything else is stripped, lower-cased and looked up, and a string
      the table does not know passes through as it was cleaned. */
  function NormalizeValue(value: Option<string>, table: map<string, string>): (r: Option<string>)
    ensures r.None? <==> value.None?
    ensures value.Some? && Clean(value.value) !in table ==> r == Some(Clean(value.value))
    ensures value.Some? && Clean(value.value) in table ==> r == Some(table[Clean(value.value)])
  {
    match value
    case None => None
    case Some(v) =>
      var cleaned := Clean(v);
      Some(if cleaned in table then table[cleaned] else cleaned)
  }

  lemma {:induction false} NormalizeIdempotent(value: Option<string>, table: map<string, string>)
    requires Closed(table)
    ensures NormalizeValue(NormalizeValue(value, table), table) == NormalizeValue(value, table)
  {
    if value.Some? {
      var once := NormalizeValue(value, table).value;
      var cleaned := Clean(value.value);
      if cleaned in table {
        assert once == table[cleaned];
      } else {
        assert once == cleaned;
      }
      assert IsClean(once);
      CleanFixesClean(once);
    }
  }

  lemma UomTableClosed()
    ensures Closed(UomTable)
  {
    forall k | k in UomTable
      ensures IsClean(UomTable[k]) && (UomTable[k] in UomTable ==> UomTable[UomTable[k]] == UomTable[k])
    {
      assert UomTable[k] in {"ml", "l", "g", "kg", "pcs"};
    }
  }

  lemma PacktypeTableClosed()
    ensures Closed(PacktypeTable)
  {
    forall k | k in PacktypeTable
      ensures IsClean(PacktypeTable[k]) && (PacktypeTable[k] in PacktypeTable ==> PacktypeTable[PacktypeTable[k]] == PacktypeTable[k])
    {
      assert PacktypeTable[k] in {"can", "bottle", "jar", "tpk", "rgb", "hl"};
    }
  }

  // Examples of `normalize_value`: case and surrounding space are ignored,
  // synonyms map to their canonical value, unknown values pass through.

  lemma StripLeftLitre()
    ensures StripLeft(" Litre ") == "Litre "
  {
    StripLeftSpace(" Litre ");
    assert " Litre "[1..] == "Litre ";
  }

  lemma StripRightLitre()
    ensures StripRight("Litre ") == "Litre"
  {
    StripRightSpace("Litre ");
    assert "Litre "[..5] == "Litre";
  }

  lemma StripLitre()
    ensures Strip(" Litre ") == "Litre"
  {
    StripLeftLitre();
    StripRightLitre();
  }

  lemma LowerLitre()
    ensures ToLower("Litre") == "litre"
  {
    LowersToLower("Litre", "litre");
  }

  lemma CleanLitre()
    ensures Clean(" Litre ") == "litre"
  {
    StripLitre();
    LowerLitre();
  }

  lemma CleanUpperMl()
    ensures Clean("ML") == "ml"
  {
    CleanUnspaced("ML", "ml");
  }

  lemma CleanUpperCan()
    ensures Clean("CAN") == "can"
  {
    CleanUnspaced("CAN", "can");
  }

  lemma CleanUpperTin()
    ensures Clean("TIN") == "tin"
  {
    CleanUnspaced("TIN", "tin");
  }

  lemma CleanBox()
    ensures Clean("Box") == "box"
  {
    CleanUnspaced("Box", "box");
  }

  /** The table entries the examples below rely on. */
  lemma UomEntries()
    ensures "litre" in UomTable && UomTable["litre"] == "l"
    ensures "ml" in UomTable && UomTable["ml"] == "ml"
  {
  }

  lemma PacktypeEntries()
    ensures "can" in PacktypeTable && PacktypeTable["can"] == "can"
    ensures "tin" in PacktypeTable && PacktypeTable["tin"] == "can"
    ensures "box" !in PacktypeTable
  {
  }

  /** Any spelling that cleans to "litre" normalises to the unit "l";
      " Litre " is one (CleanLitre). */
  lemma NormalizeLitre(v: string)
    requires Clean(v) == "litre"
    ensures NormalizeValue(Some(v), UomTable) == Some("l")
  {
    UomEntries();
  }

  lemma NormalizeUpperMl()
    ensures NormalizeValue(Some("ML"), UomTable) == Some("ml")
  {
    CleanUpperMl();
    UomEntries();
  }

  lemma NormalizeUpperCan()
    ensures NormalizeValue(Some("CAN"), PacktypeTable) == Some("can")
  {
    CleanUpperCan();
    PacktypeEntries();
  }

  lemma NormalizeTin()
    ensures NormalizeValue(Some("TIN"), PacktypeTable) == Some("can")
  {
    CleanUpperTin();
    PacktypeEntries();
  }

  lemma NormalizeUnknownPassesThrough()
    ensures NormalizeValue(Some("Box"), PacktypeTable) == Some("box")
  {
    CleanBox();
    PacktypeEntries();
  }

  /** A canonical spelling is its own unit key ... */
  lemma CleanUnitKey(v: string)
    requires IsClean(v)
    ensures UnitKey(v) == v
  {
    CleanFixesClean(v);
  }

  /** ... and its own normal form, unless the table renames it. */
  lemma CleanNormalizes(v: string, table: map<string, string>)
    requires IsClean(v) && (v in table ==> table[v] == v)
    ensures NormalizeValue(Some(v), table) == Some(v)
  {
    CleanFixesClean(v);
  }

  lemma UnitKeyMl()
    ensures UnitKey("ml") == "ml"
  {
    LowerWordIsClean("ml");
    CleanUnitKey("ml");
  }

  lemma NormalizeMl()
    ensures NormalizeValue(Some("ml"), UomTable) == Some("ml")
  {
    LowerWordIsClean("ml");
    CleanNormalizes("ml", UomTable);
  }

  lemma NormalizeCan()
    ensures NormalizeValue(Some("can"), PacktypeTable) == Some("can")
  {
    LowerWordIsClean("can");
    CleanNormalizes("can", PacktypeTable);
  }

  /** Both tables are idempotent normalisers. */
  lemma {:induction false} NormalizeTablesIdempotent(value: Option<string>)
    ensures NormalizeValue(NormalizeValue(value, UomTable), UomTable) == NormalizeValue(value, UomTable)
    ensures NormalizeValue(NormalizeValue(value, PacktypeTable), PacktypeTable) == NormalizeValue(value, PacktypeTable)
  {
    UomTableClosed();
    PacktypeTableClosed();
    NormalizeIdempotent(value, UomTable);
    NormalizeIdempotent(value, PacktypeTable);
  }

  /** A quantity cell as pandas hands it to `float()`: NaN, a number or text. */
  datatype QtyCell = Blank | Numeric(number: real) | Written(text: string)

  predicate AllDigits(s: string)
  {
    forall i :: 0 <= i < |s| ==> IsDigit(s[i])
  }

  /** The value of a string of decimal digits. */
  function DecimalValue(s: string): (n: nat)
    requires AllDigits(s)
  {
    if s == [] then 0 else DecimalValue(s[..|s| - 1]) * 10 + (s[|s| - 1] as int - '0' as int)
  }

  /** `float(s)` for text: surrounding space is ignored and a non-empty
      run of ASCII digits is read as a decimal number; anything else
      raises, which is reported as None. */
  function ParseQuantity(s: string): (r: Option<real>)
    ensures r.Some? <==> Strip(s) != [] && AllDigits(Strip(s))
    ensures r.Some? ==> r.value == DecimalValue(Strip(s)) as real && r.value >= 0.0
  {
    var t := Strip(s);
    if t != [] && AllDigits(t) then Some(DecimalValue(t) as real) else None
  }

  function Pow10(n: nat): (p: nat)
    ensures p >= 1
  {
    if n == 0 then 1 else 10 * Pow10(n - 1)
  }

  /** Digits written after `a` shift its value left by their count. */
  lemma {:induction false} DecimalValueAppend(a: string, b: string)
    requires AllDigits(a) && AllDigits(b)
    ensures AllDigits(a + b)
    ensures DecimalValue(a + b) == DecimalValue(a) * Pow10(|b|) + DecimalValue(b)
    decreases |b|
  {
    if b == [] {
      assert a + b == a;
    } else {
      var b' := b[..|b| - 1];
      var d := b[|b| - 1] as int - '0' as int;
      assert (a + b)[..|a + b| - 1] == a + b';
      DecimalValueAppend(a, b');
      assert DecimalValue(a + b) == DecimalValue(a + b') * 10 + d;
      assert DecimalValue(b) == DecimalValue(b') * 10 + d;
      assert Pow10(|b|) == Pow10(|b'|) * 10;
      ShiftByDigit(DecimalValue(a), Pow10(|b'|), DecimalValue(b'), d);
    }
  }

  lemma ShiftByDigit(x: int, p: int, y: int, d: int)
    ensures (x * p + y) * 10 + d == x * (p * 10) + (y * 10 + d)
  {
  }

  /** n digits spell a number below 10^n. */
  lemma {:induction false} DecimalValueBound(s: string)
    requires AllDigits(s)
    ensures DecimalValue(s) < Pow10(|s|)
  {
    if s != [] {
      DecimalValueBound(s[..|s| - 1]);
    }
  }

  /** A leading zero does not change the quantity: "0330" reads as "330". */
  lemma LeadingZeroSameQuantity(d: string)
    requires d != [] && AllDigits(d)
    ensures ParseQuantity("0" + d) == ParseQuantity(d)
  {
    assert AllDigits("0");
    assert DecimalValue("0") == DecimalValue("") * 10 + 0;
    DecimalValueAppend("0", d);
    StripUnspaced(d);
    StripUnspaced("0" + d);
  }

  lemma Digits330()
    ensures AllDigits("330") && DecimalValue("330") == 330
  {
    forall i | 0 <= i < 3
      ensures IsDigit("330"[i])
    {
      assert "330"[i] in {'3', '0'};
    }
    assert "330"[..2] == "33" && "33"[..1] == "3" && "3"[..0] == "";
  }

  lemma ParseQuantity330()
    ensures ParseQuantity("330") == Some(330.0)
  {
    StripUnspaced("330");
    Digits330();
  }

  /** Python's `float` accepts "1.5"; this model reads only digit strings. */
  lemma PointIsNotDigit()
    ensures !AllDigits("1.5")
  {
    assert !IsDigit("1.5"[1]);
  }

  lemma ParseQuantityRejectsPoint()
    ensures ParseQuantity("1.5") == None
  {
    StripUnspaced("1.5");
    PointIsNotDigit();
  }

  /** `float(qty)` on a cell that is not NaN. */
  function FloatOf(qty: QtyCell): Option<real>
  {
    match qty
    case Blank => None
    case Numeric(x) => Some(x)
    case Written(t) => ParseQuantity(t)
  }

  /** The unit exactly as `convert_qty_uom` compares it: `str(uom).lower().strip()`. */
  function UnitKey(uom: string): string
  {
    Strip(ToLower(uom))
  }

  /** `convert_qty_uom(qty, uom)`: litres and kilograms are scaled by 1000
      to millilitres and grams; millilitres, grams and pieces pass through;
      a missing value, a quantity `float` rejects, or any other unit gives None. */
  function ConvertQtyUom(qty: QtyCell, uom: Option<string>): (r: Option<real>)
    ensures r.Some? <==>
      FloatOf(qty).Some? && uom.Some? && UnitKey(uom.value) in {"ml", "l", "g", "kg", "pcs"}
    ensures r.Some? && UnitKey(uom.value) in {"l", "kg"} ==> r.value == 1000.0 * FloatOf(qty).value
    ensures r.Some? && UnitKey(uom.value) in {"ml", "g", "pcs"} ==> r.value == FloatOf(qty).value
  {
    if qty.Blank? || uom.None? then None
    else match FloatOf(qty)
      case None => None
      case Some(q) =>
        var unit := UnitKey(uom.value);
        if unit == "ml" || unit == "l" then Some(if unit == "l" then q * 1000.0 else q)
        else if unit == "g" || unit == "kg" then Some(if unit == "kg" then q * 1000.0 else q)
        else if unit == "pcs" then Some(q)
        else None
  }

  /** How each accepted spelling of a unit converts. */
  lemma {:induction false} ConvertKnownUnit(q: real, uom: string, unit: string, factor: real)
    requires (unit, factor) in {("ml", 1.0), ("l", 1000.0), ("g", 1.0), ("kg", 1000.0), ("pcs", 1.0)}
    requires UnitKey(uom) == unit
    ensures ConvertQtyUom(Numeric(q), Some(uom)) == Some(factor * q)
  {
  }

  // The five canonical units, one at a time.

  lemma ConvertMl(q: real)
    ensures ConvertQtyUom(Numeric(q), Some("ml")) == Some(q)
  {
    LowerWordIsClean("ml");
    CleanUnitKey("ml");
    ConvertKnownUnit(q, "ml", "ml", 1.0);
  }

  lemma ConvertLitre(q: real)
    ensures ConvertQtyUom(Numeric(q), Some("l")) == Some(1000.0 * q)
  {
    LowerWordIsClean("l");
    CleanUnitKey("l");
    ConvertKnownUnit(q, "l", "l", 1000.0);
  }

  lemma ConvertGram(q: real)
    ensures ConvertQtyUom(Numeric(q), Some("g")) == Some(q)
  {
    LowerWordIsClean("g");
    CleanUnitKey("g");
    ConvertKnownUnit(q, "g", "g", 1.0);
  }

  lemma ConvertKilogram(q: real)
    ensures ConvertQtyUom(Numeric(q), Some("kg")) == Some(1000.0 * q)
  {
    LowerWordIsClean("kg");
    CleanUnitKey("kg");
    ConvertKnownUnit(q, "kg", "kg", 1000.0);
  }

  lemma ConvertPieces(q: real)
    ensures ConvertQtyUom(Numeric(q), Some("pcs")) == Some(q)
  {
    LowerWordIsClean("pcs");
    CleanUnitKey("pcs");
    ConvertKnownUnit(q, "pcs", "pcs", 1.0);
  }

  /** One litre is one thousand millilitres, whatever the spelling of either unit. */
  lemma LitreIsThousandMl(q: real, litre: string, ml: string)
    requires UnitKey(litre) == "l" && UnitKey(ml) == "ml"
    ensures ConvertQtyUom(Numeric(q), Some(litre)) == ConvertQtyUom(Numeric(1000.0 * q), Some(ml)) == Some(1000.0 * q)
  {
    ConvertKnownUnit(q, litre, "l", 1000.0);
    ConvertKnownUnit(1000.0 * q, ml, "ml", 1.0);
  }

  /** One kilogram is one thousand grams, whatever the spelling of either unit. */
  lemma KilogramIsThousandGrams(q: real, kg: string, g: string)
    requires UnitKey(kg) == "kg" && UnitKey(g) == "g"
    ensures ConvertQtyUom(Numeric(q), Some(kg)) == ConvertQtyUom(Numeric(1000.0 * q), Some(g)) == Some(1000.0 * q)
  {
    ConvertKnownUnit(q, kg, "kg", 1000.0);
    ConvertKnownUnit(1000.0 * q, g, "g", 1.0);
  }

  lemma UnitKeyUpperLitre()
    ensures UnitKey(" L") == "l"
  {
    LowersToLower(" L", " l");
    StripLeftSpace(" l");
    assert " l"[1..] == "l";
  }

  lemma UnitKeyMixedMl()
    ensures UnitKey("Ml ") == "ml"
  {
    LowersToLower("Ml ", "ml ");
    StripRightSpace("ml ");
    assert "ml "[..2] == "ml";
  }

  /** The unit is compared after lower-casing and stripping. */
  lemma UnitSpellingLitre(q: real)
    ensures ConvertQtyUom(Numeric(q), Some(" L")) == Some(1000.0 * q)
  {
    UnitKeyUpperLitre();
    ConvertKnownUnit(q, " L", "l", 1000.0);
  }

  lemma UnitSpellingMl(q: real)
    ensures ConvertQtyUom(Numeric(q), Some("Ml ")) == Some(q)
  {
    UnitKeyMixedMl();
    ConvertKnownUnit(q, "Ml ", "ml", 1.0);
  }

  /** The base value carries no dimension: 500 g, 500 ml and 500 pieces
      convert to the same number, so the quantity gate cannot tell them apart. */
  lemma BaseValueIgnoresDimension()
    ensures ConvertQtyUom(Numeric(500.0), Some("g")) == ConvertQtyUom(Numeric(500.0), Some("ml")) == Some(500.0)
    ensures ConvertQtyUom(Numeric(500.0), Some("pcs")) == Some(500.0)
  {
    ConvertGram(500.0);
    ConvertMl(500.0);
    ConvertPieces(500.0);
  }

  /** The pack-size split `''.join(c for c in s if c.isdigit())` and
      `''.join(c for c in s if c.isalpha())`: quantity digits and unit letters. */
  function SplitPackSize(raw: string): (r: (string, string))
    ensures AllDigits(r.0) && IsSubsequence(r.0, raw)
    ensures forall i :: 0 <= i < |r.1| ==> IsAlpha(r.1[i])
    ensures IsSubsequence(r.1, raw)
  {
    (Filter(raw, IsDigit), Filter(raw, IsAlpha))
  }

  /** The split works character by character, so it distributes over
      concatenation; with the two cases below this fixes it completely. */
  lemma {:induction false} SplitPackSizeAppend(a: string, b: string)
    ensures SplitPackSize(a + b).0 == SplitPackSize(a).0 + SplitPackSize(b).0
    ensures SplitPackSize(a + b).1 == SplitPackSize(a).1 + SplitPackSize(b).1
  {
    FilterAppend(a, b, IsDigit);
    FilterAppend(a, b, IsAlpha);
  }

  lemma SplitPackSizeChar(c: char)
    ensures SplitPackSize([c]).0 == if IsDigit(c) then [c] else []
    ensures SplitPackSize([c]).1 == if IsAlpha(c) then [c] else []
  {
    assert [c][1..] == [];
  }

  /** A pack size without digits has an empty quantity. */
  lemma {:induction false} SplitWithoutDigits(raw: string)
    requires forall i :: 0 <= i < |raw| ==> !IsDigit(raw[i])
    ensures SplitPackSize(raw).0 == []
  {
  }

  lemma SplitPackSize750ml()
    ensures SplitPackSize("750ml") == ("750", "ml")
  {
    DigitsOf750ml();
    LettersOf750ml();
  }

  lemma DigitsOf750ml()
    ensures Filter("750ml", IsDigit) == "750"
  {
  }

  lemma LettersOf750ml()
    ensures Filter("750ml", IsAlpha) == "ml"
  {
  }

  lemma SplitPackSize330ML()
    ensures SplitPackSize("330ML") == ("330", "ML")
  {
    DigitsOf330ML();
    LettersOf330ML();
  }

  lemma DigitsOf330ML()
    ensures Filter("330ML", IsDigit) == "330"
  {
  }

  lemma LettersOf330ML()
    ensures Filter("330ML", IsAlpha) == "ML"
  {
  }

  /** A decimal point is neither digit nor letter, so "1.5L" reads as 15 litres. */
  lemma SplitPackSizeDropsDecimalPoint()
    ensures SplitPackSize("1.5L") == ("15", "L")
  {
    DigitsOf15L();
    LettersOf15L();
  }

  lemma DigitsOf15L()
    ensures Filter("1.5L", IsDigit) == "15"
  {
  }

  lemma LettersOf15L()
    ensures Filter("1.5L", IsAlpha) == "L"
  {
  }
}
