/** One row of the transaction sheet, as both matchers read it. */
module Records {
  import opened Basics

  /** Text fields hold `str(cell)` (so a NaN cell reads "nan"); the pack
      type stays a cell because the deterministic matcher normalises the
      raw value, NaN included. */
  datatype Transaction = Transaction(
    itemcode: string,     // ITEMCODE
    category: string,     // CATEGORY
    manufacture: string,  // MANUFACTURE
    brand: string,        // BRAND
    packtype: Option<string>,  // PACKTYPE (None = NaN)
    packsize: string,     // PACKSIZE, e.g. "750ml"
    itemdesc: string)     // ITEMDESC (read, never compared)

  /** `str(cell)` of a text cell. */
  function Str(cell: Option<string>): string
  {
    if cell.None? then "nan" else cell.value
  }
}
