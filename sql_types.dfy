/** The nullable column types of Go's database/sql package. */
module Sql {
  import opened GoStrconv

  datatype NullString = NullString(value: string, valid: bool)

  datatype NullInt32 = NullInt32(value: int32, valid: bool)

  /** sql.NullFloat64, with the float carried as the text fmt.Sprint prints
      for it (floating point itself is not modelled). */
  datatype NullFloat64 = NullFloat64(printed: string, valid: bool)
}

/** The rows the generated query package returns when records are read back
    from the store; their column types are the ones the converters in the
    tax package read. */
module Pgdb {
  import opened GoStrconv
  import opened Sql

  datatype Property = Property(
    id: int32,
    zoning: NullString,
    neighborhoodCd: NullString,
    neighborhood: NullString,
    address: NullString,
    legalDescription: NullString,
    geographicID: NullString,
    exemptions: NullString,
    ownershipPercentage: NullString,
    mapscoMapID: NullString)

  /** The zero Property: what a lookup returns together with an error. */
  const NoProperty := Property(0, NullString("", false), NullString("", false), NullString("", false),
    NullString("", false), NullString("", false), NullString("", false), NullString("", false),
    NullString("", false), NullString("", false))

  datatype Land = Land(
    number: NullInt32,
    landType: NullString,
    description: NullString,
    acres: NullFloat64,
    squareFeet: NullFloat64,
    effFront: NullFloat64,
    effDepth: NullFloat64,
    marketValue: NullInt32)

  datatype RollValue = RollValue(
    year: NullInt32,
    improvements: NullInt32,
    landMarket: NullInt32,
    agValuation: NullInt32,
    appraised: NullInt32,
    homesteadCap: NullInt32,
    assessed: NullInt32)

  datatype Jurisdiction = Jurisdiction(
    entity: NullString,
    description: NullString,
    taxRate: NullInt32,
    appraisedValue: NullInt32,
    taxableValue: NullInt32,
    estimatedTax: NullInt32)

  datatype Improvement = Improvement(
    id: int32,
    description: NullString,
    stateCode: NullString,
    livingArea: NullFloat64,
    value: NullFloat64)

  datatype ImprovementDetail = ImprovementDetail(
    improvementType: NullString,
    description: NullString,
    detailClass: NullString,
    exteriorWall: NullString,
    yearBuilt: NullInt32,
    squareFeet: NullInt32)
}
