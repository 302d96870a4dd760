/** The tax package's readers of nullable columns: a NULL reads as the
    empty string (or 0), a present value as itself in decimal. */
module TaxNulls {
  import opened GoStrconv
  import opened Sql

  /** A NULL text reads as "", a present one as itself. */
  function NullStringToString(ns: NullString): (r: string)
    ensures r == "" <==> !ns.valid || ns.value == ""
    ensures r != "" ==> r == ns.value
  {
    if ns.valid then ns.value else ""
  }

  /** A NULL number reads as 0, a present one as itself. */
  function NullInt32ToInt32(ni: NullInt32): (r: int32)
    ensures r == 0 <==> !ni.valid || ni.value == 0
    ensures r != 0 ==> r == ni.value
  {
    if ni.valid then ni.value else 0
  }

  /** A NULL number reads as "", a present one as decimal text that parses
      back to the number NullInt32ToInt32 reads. */
  function NullInt32ToString(ni: NullInt32): (r: string)
    ensures r == "" <==> !ni.valid
    ensures ni.valid ==> Atoi(r) == Parsed(NullInt32ToInt32(ni) as int)
  {
    if ni.valid then AtoiFormatInt(ni.value as int); FormatInt(ni.value as int) else ""
  }

  function Int32ToString(i: int32): (s: string)
    ensures s != []
  {
    FormatInt(i as int)
  }

  /** Only the invalid branch of the float reader is modelled: the printed
      text stands in for fmt.Sprint of the float. */
  function NullFloat64ToString(f: NullFloat64): (r: string)
    ensures !f.valid ==> r == ""
    ensures f.valid ==> r == f.printed
  {
    if f.valid then f.printed else ""
  }
}
