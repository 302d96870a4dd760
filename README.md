# taxredux core, modelled in Dafny

taxredux scrapes property-tax records from an appraisal district's web site and stores them in PostgreSQL. This project models the program's sequential core and proves properties of it:

- **The tax package's extractors.** They read one property's detail page: the header fields, land segments, roll value history, taxing jurisdictions, and improvements with their building details. They also include the converters that turn stored database rows back into records.
- **The scraper.** It has four parts:
  - the dispatcher that turns pending URLs into jobs;
  - `PropertyExists`;
  - the numeric and nullable conversion helpers and the random back-off;
  - the step chain of `Job.Process`, and `AddPropertyRecordToDB`, which writes a record and its collections inside one transaction.
- **The proxy registry's bookkeeping.** This is `GetNext`, `UpdateLastUsed` and `MarkProxyAsBad`.
- **The user-agent pool.**

## The HTML page

An HTML page is modelled as a `Document` (`html.dfy`) with three parts:

- A function from a CSS selector to the text that selector finds.
- The page's tables in document order. Each table has:
  - the id of its parent element;
  - its class attribute;
  - its rows. Each row is a sequence of cells tagged `th` or `td`.
- The number of elements matching `#improvementBuildingDetails`.

## How each part is modelled

**Extractors.** Every extractor in the tax package is a method with nested loops, like the nested `Each` callbacks of the source. Each method is proved equal to a pure specification function on the document, and the promised properties are proved as lemmas on that function.

**`Job.Process`.** It is a method on a `Job` class whose fields are the job's mutable state. Each collaborator's answer is an input, gathered in a `Collaborators` value:

- the property lookup;
- the proxy;
- the user agent;
- the warm-up response (an error, a response, or an error that comes with a response);
- the blacklist result;
- the back-off draw;
- the detail page;
- the injected database faults;
- the URL removal.

The method is proved equal to the pure `ProcessSpec`. `ProcessSpec` returns the final job state, the calls made (as `Effect`s), whether the run crashes, and the rows committed.

**The transaction.** It is a `Tx` class holding the pending inserts. The insert at a chosen position can be made to fail, and the ids returned for improvements are an input. `Store.AddPropertyRecordToDB` commits the whole ordered insert log or nothing.

## Model

| member | source | states |
|---|---|---|
| GoStrings.TrimSpace | tax/land.go:33 | the result is the input with its leading and trailing white space cut off, and it neither starts nor ends with white space |
| GoStrings.TrimSpaceIdempotent | tax/propertyRecord.go:44 | trimming a trimmed text changes nothing |
| GoStrings.ReplaceOnce | tax/improvements.go:73 | strings.Replace with count 1: without an occurrence the text is unchanged; otherwise the text before the first occurrence is kept, the replacement stands in its place, and the rest after the occurrence follows unchanged |
| GoStrings.ReplaceAllDeletesChar | tax/improvements.go:75 | replacing every "," with "" is the text with every "," removed |
| GoStrings.SplitJoins | scraper/scraper.go:68 | the pieces strings.Split returns, joined with the separator, give back the input |
| GoStrings.SplitWithoutSeparator | scraper/scraper.go:68 | a text without "=" splits into the single piece itself |
| GoStrings.SplitAtFirstSeparator | scraper/scraper.go:68 | the first piece is the text before the first "=" and the remaining pieces split the text after it |
| GoStrings.SplitPieceFree | scraper/scraper.go:68 | no piece of a split on "=" contains "=" |
| GoStrings.ClassTokens | tax/taxingJurisdictions.go:22 | the class names a class attribute lists, none of them empty |
| GoStrconv.Wrap32 | scraper/scraper.go:392 | int32(v) keeps v modulo 2^32 and is v itself when v fits in 32 bits |
| GoStrconv.Atoi | scraper/scraper.go:388 | strconv.Atoi accepts only an optional sign followed by digits, within 64 bits; a failure keeps the input |
| GoStrconv.AtoiFormatInt | tax/propertyRecord.go:167-169 | Atoi reads back what fmt.Sprint writes, for every 64-bit value |
| GoStrconv.DigitsRoundTrip | tax/propertyRecord.go:167-169 | the decimal digits of n have the value n |
| Html.TdTexts | tax/land.go:29 | row.Find("td") yields at most one text per cell |
| Html.CellTexts | tax/improvements.go:63 | row.Find("th,td") yields exactly one text per cell |
| Html.ChildTables | tax/land.go:26 | "#id > table" selects exactly the tables whose parent has that id |
| Html.ChildTablesWithClass | tax/taxingJurisdictions.go:22 | "#id > table.cls" selects exactly the tables under that parent whose class attribute lists the class |
| Html.ChildTablesWithClassAppend | tax/taxingJurisdictions.go:22 | the selector's matches over two runs of tables are the matches over each run, in order |
| Html.ChildTablesWithClassSkip | tax/taxingJurisdictions.go:22 | a table the selector does not match can be removed from any position without changing the matches |
| TaxNulls.Int32ToString | tax/propertyRecord.go:167-169 | the decimal text of an int32 is never empty |
| TaxNulls.NullStringToString | tax/propertyRecord.go:149-154 | a NULL text reads as ""; a non-empty result is the stored text |
| TaxNulls.NullInt32ToInt32 | tax/propertyRecord.go:155-160 | a NULL number reads as 0; a non-zero result is the stored number |
| TaxNulls.NullInt32ToString | tax/propertyRecord.go:161-166 | the text is "" exactly for NULL; a present number's text parses back to the number NullInt32ToInt32 reads |
| TaxNulls.NullFloat64ToString | tax/land.go:61-66 | a NULL float reads as ""; a present one as its printed text |
| TaxLand.GetLandInfo | tax/land.go:23-59 | the result is the land tables' entries in table order, then row order |
| TaxLand.AppendTable | tax/land.go:27-54 | one table's rows append the entries of that table's running record to what came before |
| TaxLand.VisitLandRow | tax/land.go:28-54 | one row overwrites the running record with its cells and appends it when its Number is set |
| TaxLand.FillLand | tax/land.go:29-50 | td cells 0..7 overwrite Number, Type, Description, Acres, Sqft, EffFront, EffDepth, MarketValue, trimmed |
| TaxLand.LandIsLastCells | tax/land.go:27-50 | each field of the running record is the trimmed text of the last row having a cell at its index, else "" |
| TaxLand.CellLessRowRepeats | tax/land.go:51-53 | a row without td cells after an entry re-appends the same entry |
| TaxLand.TableLandsHaveNumber | tax/land.go:51-53 | every entry has a Number |
| TaxLand.TableLandsBound | tax/land.go:28-53 | a table yields at most one entry per row |
| TaxLand.LandsBound | tax/land.go:26-58 | the whole result has at most one entry per row of the land tables |
| TaxLand.LandsPerTable | tax/land.go:26 | the entries of two runs of tables are those of each run, concatenated in order |
| TaxLand.OneRowTable | tax/land.go:27-53 | a single row with Number and Type yields exactly that entry |
| TaxLand.CarryOverTwoRows | tax/land.go:27 | a second row holding only a Number inherits the first row's Type |
| TaxLand.TableLandsSnoc | tax/land.go:28-53 | one more row overwrites the running record and appends it when its Number is set |
| TaxLand.FromLandDBModel | tax/land.go:68-84 | one record per stored row, in the same order |
| TaxLand.LandFromDBNulls | tax/land.go:61-84 | NULL columns read as ""; the integer columns read "" only when NULL |
| TaxRollValue.GetRollValue | tax/rollValue.go:20-55 | the result is the roll value entries of the roll history tables, in table and row order |
| TaxRollValue.AppendRows | tax/rollValue.go:25-50 | one table appends the entry of every row that has a Year |
| TaxRollValue.FillRollValue | tax/rollValue.go:26-46 | a fresh record receives td cells 0..6 as Year, Improvements, LandMarket, AgValuation, Appraised, HomesteadCap, Assessed, trimmed |
| TaxRollValue.RollValuesMembership | tax/rollValue.go:24-49 | an entry is in the result exactly when some row of a roll history table yields it |
| TaxRollValue.TableRollValuesMembership | tax/rollValue.go:25-49 | an entry comes from a table exactly when one of its rows yields it |
| TaxRollValue.RowsRollValuesAppend | tax/rollValue.go:25 | the rows' entries follow row order |
| TaxRollValue.RollValuesBound | tax/rollValue.go:24-54 | at most one entry per row of the roll history tables |
| TaxRollValue.RollValuesHaveYear | tax/rollValue.go:47-49 | every entry has a Year |
| TaxRollValue.RollValueIgnoresExtraCells | tax/rollValue.go:27-45 | cells past the seventh do not affect the entry |
| TaxRollValue.FromRollValueDBModel | tax/rollValue.go:56-73 | one record per stored row, in the same order |
| TaxRollValue.RollValueFromDBNulls | tax/rollValue.go:56-73 | every column reads "" exactly when it is NULL |
| TaxJurisdictions.GetTaxingJurisdictions | tax/taxingJurisdictions.go:19-54 | the result is the entries of the tableData tables under the container, in table and row order |
| TaxJurisdictions.AppendRows | tax/taxingJurisdictions.go:23-49 | one table appends the entry of every row that has an Entity |
| TaxJurisdictions.FillJurisdiction | tax/taxingJurisdictions.go:24-44 | a fresh record receives td cells 0..5 as Entity, Description, TaxRate, AppraisedValue, TaxableValue, EstimatedTax, trimmed |
| TaxJurisdictions.JurisdictionsMembership | tax/taxingJurisdictions.go:22-48 | an entry is in the result exactly when some row of a selected table yields it |
| TaxJurisdictions.OtherTablesIgnored | tax/taxingJurisdictions.go:22 | a table that is not a tableData table under #taxingJurisdictionDetails contributes nothing, at any position among the tables |
| TaxJurisdictions.RowsJurisdictionsAppend | tax/taxingJurisdictions.go:23 | the rows' entries follow row order |
| TaxJurisdictions.JurisdictionsBound | tax/taxingJurisdictions.go:22-52 | at most one entry per row of the selected tables |
| TaxJurisdictions.JurisdictionIgnoresExtraCells | tax/taxingJurisdictions.go:25-43 | cells past the sixth do not affect the entry |
| TaxJurisdictions.FromTaxingJurisdictionModel | tax/taxingJurisdictions.go:55-70 | one record per stored row, in the same order |
| TaxJurisdictions.JurisdictionFromDBNulls | tax/taxingJurisdictions.go:55-70 | NULL columns read as ""; the integer columns read "" only when NULL |
| TaxImprovements.GetImprovement | tax/improvements.go:59-83 | the result is the one record the rows of an improvements table describe |
| TaxImprovements.FillImprovement | tax/improvements.go:63-78 | a row's cells 0, 1, 3, 5, 7 overwrite Name, Description, StateCode, LivingArea, Value; other cells are ignored |
| TaxImprovements.ImprovementIsLastCells | tax/improvements.go:59-83 | each field is the cleaned text of the last row having a cell at its index, else "", and there are no details |
| TaxImprovements.DollarAmount | tax/improvements.go:75 | a value's leading "$" is removed, then every ",", then it is trimmed |
| TaxImprovements.ThousandsSeparator | tax/improvements.go:75 | "$123,456" reads as "123456" |
| TaxImprovements.DigitsJoined | tax/improvements.go:75 | two digit runs joined by "," lose the comma and need no trimming |
| TaxImprovements.AreaWithUnit | tax/improvements.go:73 | "1234 sqft" reads as "1234" |
| TaxImprovements.ValueDropsCommas | tax/improvements.go:75 | no value contains "," |
| TaxImprovements.DetailIsPositional | tax/improvements.go:92-109 | a detail row's cells 1..6 give Type, Description, Class, ExteriorWall, YearBuilt, SqFt (" sqft" removed); cell 0 and cells past 6 are ignored |
| TaxImprovements.GetImprovementDetail | tax/improvements.go:85-116 | the result is the details of the table's rows after the first, in order |
| TaxImprovements.VisitDetailRow | tax/improvements.go:88-113 | one row extends the details read so far with its detail when it has a Description |
| TaxImprovements.FillDetail | tax/improvements.go:91-109 | a fresh detail receives the row's cells by position |
| TaxImprovements.DetailsOfStep | tax/improvements.go:88-113 | row 0 contributes nothing; each later row appends its own detail |
| TaxImprovements.RowDetailsYields | tax/improvements.go:110-112 | a row contributes a detail exactly when its cells describe it and its Description is set |
| TaxImprovements.DetailsOfRowsAfterHeader | tax/improvements.go:90 | the details are those of the rows after the first, each read on its own |
| TaxImprovements.DetailsMembership | tax/improvements.go:85-116 | a detail is in the result exactly when some row other than the first yields it |
| TaxImprovements.HeaderRowIgnored | tax/improvements.go:90 | the first row's content never matters |
| TaxImprovements.GetImprovements | tax/improvements.go:29-57 | the result is what repeated scans of all tables emit, one scan per #improvementBuildingDetails match |
| TaxImprovements.ScanTables | tax/improvements.go:34-53 | one pass visits every table in document order and carries the current improvement across tables |
| TaxImprovements.DoubledTwice | tax/improvements.go:47 | a list appended to itself is a doubled list |
| TaxImprovements.VisitConsistent | tax/improvements.go:35-52 | visiting a table keeps the current improvement's details doubled and every emitted improvement named and doubled |
| TaxImprovements.ScanConsistent | tax/improvements.go:34-53 | a pass keeps that invariant |
| TaxImprovements.PassesConsistent | tax/improvements.go:32-54 | every number of passes keeps that invariant |
| TaxImprovements.ImprovementsNamedAndDoubled | tax/improvements.go:45-52 | every extracted improvement has a Name and a detail list made of one list written twice |
| TaxImprovements.ScanBound | tax/improvements.go:49-51 | a pass emits at most one improvement per table |
| TaxImprovements.PassBound | tax/improvements.go:32-53 | each further pass adds at most one improvement per table |
| TaxImprovements.OtherTableReappends | tax/improvements.go:49-51 | a table of any other class re-emits the current improvement unchanged |
| TaxImprovements.ImprovementThenDetails | tax/improvements.go:36-52 | an improvements table then a details table emit the improvement, then the improvement with its detail list doubled |
| TaxImprovements.PassesExtend | tax/improvements.go:32-54 | no pass, no improvement; each pass only appends to what earlier passes emitted |
| TaxImprovements.ScanExtends | tax/improvements.go:34-53 | a pass only appends |
| TaxImprovements.FromImprovementModel | tax/improvements.go:117-126 | the Name is the decimal text of the stored id and parses back to it; NULL columns read as ""; there are no details |
| TaxImprovements.FromImprovementDetailDBModel | tax/improvements.go:128-142 | one detail per stored row, in the same order |
| TaxImprovements.DetailFromDBNulls | tax/improvements.go:128-142 | NULL columns read as ""; the integer columns read "" only when NULL |
| TaxPropertyRecord.LoadPropertyDetailItems | tax/propertyRecord.go:71-147 | every item is keyed by its own Name, has an empty Value and carries its field's selector |
| TaxPropertyRecord.ThirteenItems | tax/propertyRecord.go:71-147 | there are exactly thirteen items, the duplicated ownerMailingAddress entry counting once |
| TaxPropertyRecord.SelectorKeys | tax/propertyRecord.go:56-58 | the thirteen field names are keys, and "property" is not |
| TaxPropertyRecord.FillItemValues | tax/propertyRecord.go:42-46 | every item's Value becomes the trimmed text at its selector; keys, names and selectors stay |
| TaxPropertyRecord.ItemValue | tax/propertyRecord.go:42-46 | a filled item's Value is the trimmed text at its selector |
| TaxPropertyRecord.CopyItems | tax/propertyRecord.go:48-61 | each header field is its item's Value; PropertyID ends up from "propertyID", overwriting the lookup of the missing "property" key |
| TaxPropertyRecord.GetPropertyRecord | tax/propertyRecord.go:39-69 | the record is the header fields plus the four collections of the four extractors, and the error is always nil |
| TaxPropertyRecord.PercentSign | tax/propertyRecord.go:49 | only the first "%" is removed: "12.5%" reads as "12.5" |
| TaxPropertyRecord.FromPropertyDBModel | tax/propertyRecord.go:170-192 | the owner fields are empty, the collections empty, PropertyID parses back to the stored id, and a NULL address reads as "" |
| ScraperConvert.StringToInt32 | scraper/scraper.go:387-393 | 0 for text that is not a number; otherwise the parsed value modulo 2^32, and the value itself when it fits in 32 bits |
| ScraperConvert.StringToNullInt32 | scraper/scraper.go:191-200 | always present, holding stringToInt32's value, so malformed text is stored as a present 0 |
| ScraperConvert.StringToNullString | scraper/scraper.go:213-218 | always present, and it reads back as the text |
| ScraperConvert.Int32RoundTrip | scraper/scraper.go:387-393 | stringToInt32(Int32ToString(i)) == i for every int32 |
| ScraperConvert.NullInt32RoundTrip | scraper/scraper.go:191-200 | a present number read as text and converted again is unchanged |
| ScraperConvert.NullInt32BecomesZero | scraper/scraper.go:191-200 | a NULL number read as text is stored again as a present 0 |
| ScraperConvert.NullStringRoundTrip | scraper/scraper.go:213-218 | text survives stringToNullString and back; a nullable text survives the reverse trip exactly when it is not NULL |
| ScraperConvert.GetRandomTimeoutDuration | scraper/scraper.go:375-384 | it panics exactly when max-min is not positive, and otherwise yields a whole number of milliseconds |
| ScraperConvert.TimeoutWithinRange | scraper/scraper.go:378-384 | for min < max the duration is min + draw milliseconds, between min and max-1 ms |
| ScraperConvert.TimeoutFallsBack | scraper/scraper.go:380-383 | a millisecond count too large for a Duration gives the one-second fallback |
| ScraperConvert.TimeoutPanicsOnEmptyRange | scraper/scraper.go:378 | max <= min panics |
| ScraperJobs.NoEqualsSkipped | scraper/scraper.go:67-74 | a URL without "=" yields no job |
| ScraperJobs.OneEqualsCrashes | scraper/scraper.go:69-70 | a URL with exactly one "=" indexes parts[2] out of range |
| ScraperJobs.DispatchOf | scraper/scraper.go:66-74 | the index panics exactly when the URL splits into two parts; an enqueued id is the third piece, non-empty and free of "=" |
| ScraperJobs.TwoEqualsEnqueueThird | scraper/scraper.go:68-74 | with two "=", the text after the second is the job's property id |
| ScraperJobs.DispatchAll | scraper/scraper.go:65-88 | at most one job per URL, each with a non-empty property id and a JobID below the number of URLs |
| ScraperJobs.DispatchAllPrefix | scraper/scraper.go:65-88 | the dispatcher's result over a prefix extends by the next URL's outcome |
| ScraperJobs.DispatchJobs | scraper/scraper.go:65-88 | the dispatcher loop produces exactly the jobs, and the crash, that the URL list describes |
| ScraperJobs.CrashStays | scraper/scraper.go:69-70 | once the dispatcher has crashed, later URLs change nothing |
| ScraperJobs.TicketsFollowURLs | scraper/scraper.go:75-87 | every job is URL number JobID, carrying that URL and its property id |
| ScraperJobs.TicketsInOrder | scraper/scraper.go:65-77 | job ids grow strictly, so input order is kept |
| ScraperJobs.DispatchCrashes | scraper/scraper.go:69-70 | the dispatcher crashes exactly when some URL splits into two parts |
| ScraperJobs.DispatchComplete | scraper/scraper.go:65-88 | every URL with a property id reached before a crash yields a job with its index as JobID |
| ScraperJobs.MessageOf | scraper/scraper.go:433-441 | a job error is recorded exactly when the step failed |
| ScraperJobs.GetPropertyByID | scraper/scraper.go:140-146 | a lookup finds the stored row when there is one and otherwise fails, with "sql: no rows in result set" when the row is missing |
| ScraperJobs.PropertyExistsCases | scraper/scraper.go:121-152 | (true, nil) only for a stored row with a non-empty address; true with an error only for a nil db or id 0; "no rows" is never reported; a nil db gives (true, "db is nil") |
| ScraperJobs.PropertyExistsByURL | scraper/scraper.go:121-152 | on a database: no "prop_id=" gives (false, "no property id provided in url"); a non-number gives (false, its conversion error); id 0 gives (true, "invalid property id: 0"); a failing query gives (false, its error), or (false, nil) for "no rows"; otherwise found means the row under the id's 32-bit truncation exists with a present, non-empty address, and no error |
| ScraperJobs.ParseDetails | scraper/scraper.go:182-190 | the error is always nil; an unparsable page gives the empty record |
| ScraperJobs.UnparsedPageSavedAsZero | scraper/scraper.go:184-186 | an unparsable page is saved as a single property row with id 0 |
| ScraperJobs.Job.constructor | scraper/scraper.go:75-87 | a job starts with its URL and property id and no proxy, user agent or error |
| ScraperJobs.Job.Process | scraper/scraper.go:443-575 | the run's final state, calls, crash and committed rows are those ProcessSpec describes |
| ScraperJobs.Job.Lookup | scraper/scraper.go:458-470 | from the lookup of the parsed id on, the run is LookupSpec |
| ScraperJobs.Job.WarmUp | scraper/scraper.go:472-511 | from the proxy to the warm-up request, the run is WarmUpSpec |
| ScraperJobs.Job.FetchDetail | scraper/scraper.go:513-557 | from the detail request to parsing, the run is DetailSpec |
| ScraperJobs.Job.Save | scraper/scraper.go:559-574 | from AddPropertyRecordToDB on, the run is SaveSpec |
| ScraperJobs.ProcessSpec | scraper/scraper.go:443-456 | an empty id stops the job with no call and no error; an id that does not parse stops it with that error and no call; a number goes on to the lookup of its 32-bit truncation |
| JobOutcomes.LookupStep | scraper/scraper.go:458-470 | a failed lookup other than "no rows", or a duplicate id, removes the URL and stops; otherwise the job goes on to the proxy |
| JobOutcomes.WarmUpStep | scraper/scraper.go:472-511 | a proxy or agent failure stops the job, leaving the zero Proxy or an empty user agent; an error from the warm-up request blacklists the proxy and sleeps; the job panics only when that error came without a response and blacklisting succeeded; otherwise the status is checked and 200..399 goes on to the detail request |
| JobOutcomes.WarmUpErrors | scraper/scraper.go:472-511 | the error left by the proxy, the user agent, the blacklisting, a rejected status, and then by the detail and save steps |
| JobOutcomes.DetailStep | scraper/scraper.go:513-557 | a request or read failure stops the job; a body is parsed and saved |
| JobOutcomes.SaveStep | scraper/scraper.go:559-574 | a persist failure keeps the URL; a commit removes the URL and sets "No Errors" |
| JobOutcomes.ProcessEffects | scraper/scraper.go:443-575 | a call is among the run's calls exactly when the step chain reaches it |
| JobOutcomes.HappensAfterLookup | scraper/scraper.go:458-470 | once the id is parsed, the calls are the lookup, then either the URL removal or the calls of the later steps |
| JobOutcomes.ProcessSaves | scraper/scraper.go:561-564 | rows are committed exactly when the run reaches the save and the transaction commits, and then they are the record's insert log |
| JobOutcomes.ProcessCrashes | scraper/scraper.go:495-506 | the run crashes exactly when the warm-up request fails without a response and blacklisting the proxy succeeds, leaving a nil response to read; an error that comes with a response goes on to the status check |
| JobOutcomes.ProcessFinalState | scraper/scraper.go:443-575 | the URL never changes; the record is the parsed one only once the save is reached; proxy and agent are set once the lookup passes, to the zero Proxy and "" when getting them fails |
| JobOutcomes.ProcessErrors | scraper/scraper.go:443-575 | the job's final error for every way the chain can stop |
| JobOutcomes.BackoffWithinRange | scraper/scraper.go:499-500 | the back-off after a bad proxy lasts between 10 and 99 ms |
| JobOutcomes.DuplicateByID | scraper/scraper.go:466-470 | with a healthy store, the job stops as a duplicate exactly when its id is stored or is 0, and then only removes the URL |
| JobOutcomes.ExistsAndDedupDisagree | scraper/scraper.go:466 | a stored property with no address is "not existing" for PropertyExists yet a duplicate for Process |
| ScraperStore.RollValueInserts | scraper/scraper.go:353-373 | one roll value row per roll value |
| ScraperStore.JurisdictionInserts | scraper/scraper.go:331-351 | one jurisdiction row per jurisdiction |
| ScraperStore.DetailInserts | scraper/scraper.go:310-326 | one detail row per detail |
| ScraperStore.LandInserts | scraper/scraper.go:219-241 | one land row per land segment |
| ScraperStore.InsertLog | scraper/scraper.go:243-290 | a record issues one property row first, then its roll values, jurisdictions, improvements with their details, and land rows |
| ScraperStore.Tx.constructor | scraper/scraper.go:244 | a new transaction holds nothing |
| ScraperStore.Tx.Exec | scraper/scraper.go:367 | an INSERT is rejected exactly at the failing position and is otherwise added to the transaction |
| ScraperStore.Tx.ExecReturningID | scraper/scraper.go:304 | as Exec, and a success returns the next improvement id |
| ScraperStore.Tx.Rollback | scraper/scraper.go:234 | after a rollback no statement issued so far will be committed |
| ScraperStore.InsertPropertyRecord | scraper/scraper.go:395-417 | the property row is added, or the transaction is rolled back |
| ScraperStore.InsertRollValues | scraper/scraper.go:353-373 | all roll value rows are added in order, or the transaction is rolled back at the first rejection |
| ScraperStore.InsertJurisdictions | scraper/scraper.go:331-351 | all jurisdiction rows are added in order, or the transaction is rolled back at the first rejection |
| ScraperStore.InsertDetails | scraper/scraper.go:310-326 | all detail rows of one improvement are added in order, or the transaction is rolled back |
| ScraperStore.InsertImprovement | scraper/scraper.go:294-326 | an improvement row then its detail rows, carrying the returned id, or a rollback |
| ScraperStore.InsertImprovements | scraper/scraper.go:292-329 | every improvement with its details, in order, or a rollback at the first rejection |
| ScraperStore.InsertLand | scraper/scraper.go:219-241 | all land rows are added in order, or the transaction is rolled back |
| ScraperStore.Store.AddPropertyRecordToDB | scraper/scraper.go:243-290 | the whole insert log is committed, or nothing is; the error names the failing step |
| ScraperStore.RollValueInsertsAt | scraper/scraper.go:354-365 | roll value row k is built from roll value k |
| ScraperStore.JurisdictionInsertsAt | scraper/scraper.go:332-342 | jurisdiction row k is built from jurisdiction k |
| ScraperStore.DetailInsertsAt | scraper/scraper.go:310-319 | detail row k is built from detail k |
| ScraperStore.LandInsertsAt | scraper/scraper.go:220-232 | land row k is built from land segment k |
| ScraperStore.ImprovementInsertsKinds | scraper/scraper.go:294-326 | the improvement statements are improvement rows of this property or detail rows |
| ScraperStore.DetailRowsPointAtTheirImprovement | scraper/scraper.go:312 | every detail row carries the id returned for its own improvement |
| ScraperStore.LogAt | scraper/scraper.go:243-290 | statement q of the log, position by position: property, roll values, jurisdictions, improvements, land |
| ScraperStore.StepAtIssuedStatement | scraper/scraper.go:243-290 | the statement at each position comes from the helper that position belongs to |
| ScraperStore.InsertLogOrdered | scraper/scraper.go:249-281 | the helpers' statements never interleave and follow the call order |
| ScraperStore.RowsCarryPropertyID | scraper/scraper.go:395-397 | the first row is the property row with the record's id, and every collection row carries that id |
| ScraperStore.JurisdictionRowsAreNull | scraper/scraper.go:335-336 | jurisdiction rows are written with NULL Entity and Description |
| ScraperStore.PersistOutcome | scraper/scraper.go:243-290 | the save succeeds exactly when begin, every insert and commit succeed; a failed insert names its position and the helper that issued it |
| ScraperStore.NumberReadBack | scraper/scraper.go:191-200 | a numeric column is always present and reads back as the same text exactly when that text is canonical |
| ScraperStore.PrintedNumbersAreCanonical | tax/propertyRecord.go:167-169 | the decimal text of an int32 is canonical |
| ScraperStore.PropertyReadBack | tax/propertyRecord.go:170-192 | a stored property reads back as the record without owner fields and collections |
| ScraperStore.RollValueReadBack | tax/rollValue.go:56-73 | a roll value of canonical numbers reads back unchanged |
| ScraperStore.JurisdictionReadBack | tax/taxingJurisdictions.go:55-70 | a stored jurisdiction reads back with empty Entity and Description |
| ScraperStore.DetailReadBack | tax/improvements.go:128-142 | a detail with canonical numbers reads back unchanged |
| Proxies.UsesOf | proxies/proxy.go:46-49 | a NULL use count reads as 0 |
| Proxies.Touched | proxies/proxy.go:69-74 | only that IP's row changes: uses + 1 and the new last-used time |
| Proxies.MarkedBad | proxies/proxy.go:83-89 | only rows with that IP change, and only is_bad |
| Proxies.MarkedBadIdempotent | proxies/proxy.go:83-89 | marking a proxy bad twice is marking it once |
| Proxies.TouchCountsOneUse | proxies/proxy.go:46-73 | GetNext's update adds exactly one use modulo 2^32, so a NULL count becomes 1, and it keeps is_bad |
| Proxies.ProxyClient.constructor | proxies/proxy.go:21-27 | the client starts from the given registry |
| Proxies.ProxyClient.GetNext | proxies/proxy.go:36-62 | a failed selection, an empty IP or a failed update returns the empty Proxy and the error with the registry unchanged; otherwise the Proxy has the row's IP and pre-increment uses, and that row alone is updated |
| Proxies.ProxyClient.UpdateLastUsed | proxies/proxy.go:64-80 | an empty IP is rejected without change; otherwise exactly that IP's row gets uses + 1 and the new time |
| Proxies.ProxyClient.MarkProxyAsBad | proxies/proxy.go:82-95 | a statement error leaves the registry unchanged; otherwise exactly the rows with that IP become bad |
| UserAgents.AppendedContents | useragents/useragents.go:27-29 | loading appends the lines after the existing agents, and the list stays nil only when it was nil and nothing was read |
| UserAgents.AppendedKeepsShape | useragents/useragents.go:27-29 | a list that is nil or non-empty stays so |
| UserAgents.UserAgentClient.constructor | useragents/useragents.go:11-13 | a new client has a nil list |
| UserAgents.UserAgentClient.LoadUserAgents | useragents/useragents.go:15-32 | an empty file name or an open failure leaves the list untouched; otherwise the lines are appended and the scanner's error returned |
| UserAgents.UserAgentClient.GetRandomUserAgent | useragents/useragents.go:34-45 | a nil list gives "agent list is nil"; otherwise the agent at the drawn index, an element of the unchanged list |

## Left out

- HTTP, the cookie jar, the transport, proxy URL construction, request headers and body reading are not modelled. Their outcomes are inputs to `Process`, so the hard-coded Safari User-Agent of the detail request is the only header stated.
- goquery parsing and CSS selector evaluation are abstracted:
  - header fields come from a selector-to-text function;
  - tables come in document order with their rows and cells.
- The PostgreSQL queries are not modelled; their results and failures are inputs:
  - `GetValidProxy`, `GetPropertyByID`, the `Insert*` statements, `UpdateProxyLastUsedTime`, `RemovePendingURL`;
  - nothing is claimed about which proxy `GetValidProxy` selects;
  - the database is an in-memory map or an insert log.
- Floating point is not modelled. `stringToNullFloat64`, the float columns of the land and improvement inserts, and the float formatting in `NullFloat64ToString` carry the source text, not a parsed number. Only the NULL branch of `NullFloat64ToString` is modelled.
- Concurrency, the worker goroutines, channels, the WaitGroup, `time.Sleep` pacing and the result-collector loop of `Scrape` are not modelled. Only the dispatcher's enumeration rule is modelled, as a sequential loop.
- `rand.Seed`/`rand.Intn` and `time.Now` are not modelled:
  - the random index and the back-off draw are parameters;
  - the current time is a string parameter.
- Logging and `fmt.Printf` output are not modelled.
- `ProcessError` is not modelled separately: the error it returns is discarded by its callers. It appears as the `RemovePendingURL` effect when `removeURL` is true.
- coords/main.go and cmd/scrape are not part of this model. tax/improvements_test.go needs an HTML fixture that is not part of this model.
- The model does not distinguish a nil slice from an empty one. The distinction is kept only where behaviour depends on it:
  - the user-agent list, which is an `Option`;
  - the `improvementDetails != nil` test, which in the model becomes "the table has the details class".
- JobOutcomes.ProcessEffects: states which calls a run makes, not the order between them. Order is stated stage by stage by the `Job` methods' equality with `ProcessSpec`.
- TaxImprovements.PassBound: the bound on the total number of improvements is stated per pass (one pass adds at most one improvement per table), not as passes × tables in one lemma.
- TaxPropertyRecord.FromPropertyDBModel: states the owner fields, the collections, the id and the address; the other text columns are plain NULL readers covered by `ScraperConvert.NullStringRoundTrip`.
- Proxies.Touched: the stored last-used time is the given string; `time.Now().String()` itself is not modelled.
- Where the code differs from what one might expect, the model follows the code:
  - records are persisted in the order property, roll values, jurisdictions, improvements with their details, then land;
  - duplicate detection in `Process` is id equality, not `PropertyExists`' address rule;
  - the detail response's status code is never checked;
  - an empty property id stops the job without setting its error.
