/** tax/propertyRecord.go: the property record a detail page yields. The
    header fields are read through a table of named selectors; the four
    collections come from the other extractors. */
module TaxPropertyRecord {
  import opened GoStrings
  import opened GoStrconv
  import opened Html
  import opened TaxNulls
  import opened TaxRollValue
  import opened TaxLand
  import opened TaxImprovements
  import opened TaxJurisdictions
  import Pgdb
  import opened Wrappers

  datatype PropertyRecord = PropertyRecord(
    propertyID: string,
    ownerID: string,
    ownerName: string,
    ownerMailingAddress: string,
    zoning: string,
    neighborhoodCD: string,
    neighborhood: string,
    address: string,
    legalDescription: string,
    geographicID: string,
    exemptions: string,
    ownershipPercentage: string,
    mapscoMapID: string,
    rollValue: seq<RollValue>,
    land: seq<Land>,
    improvements: seq<Improvement>,
    jurisdictions: seq<TaxingJurisdiction>)

  /** tax.PropertyRecord{}: every text empty, every collection nil. */
  const EmptyRecord := PropertyRecord("", "", "", "", "", "", "", "", "", "", "", "", "", [], [], [], [])

  datatype PropertyDetailItem = PropertyDetailItem(name: string, value: string, selectorText: string)

  const NoItem := PropertyDetailItem("", "", "")

  /** The selector of each header field, by item name. */
  const Selectors: map<string, string> := map[
    "propertyID" := "#propertyDetails > table > tbody > tr:nth-child(2) > td:nth-child(2)",
    "geographicID" := "#propertyDetails > table > tbody > tr:nth-child(3) > td:nth-child(2)",
    "legalDescription" := "#propertyDetails > table > tbody > tr:nth-child(2) > td.propertyDetailsLegalDescription",
    "zoning" := "#propertyDetails > table > tbody > tr:nth-child(3) > td:nth-child(4)",
    "address" := "#propertyDetails > table > tbody > tr:nth-child(8) > td:nth-child(2)",
    "neighborhood" := "#propertyDetails > table > tbody > tr:nth-child(9) > td:nth-child(2)",
    "neighborhoodCD" := "#propertyDetails > table > tbody > tr:nth-child(10) > td:nth-child(2)",
    "mapscoMapID" := "#propertyDetails > table > tbody > tr:nth-child(9) > td:nth-child(4)",
    "ownerName" := "#propertyDetails > table > tbody > tr:nth-child(12) > td:nth-child(2)",
    "ownerMailingAddress" := "#propertyDetails > table > tbody > tr:nth-child(13) > td:nth-child(2)",
    "ownerID" := "#propertyDetails > table > tbody > tr:nth-child(12) > td:nth-child(4)",
    "ownershipPercentage" := "#propertyDetails > table > tbody > tr:nth-child(13) > td:nth-child(4)",
    "exemptions" := "#propertyDetails > table > tbody > tr:nth-child(14) > td:nth-child(4)"]

  /** loadPropertyDetailItems: one item per header field, inserted one by
      one (ownerMailingAddress twice, with the same item), each named after
      its key and with no value yet. */
  method LoadPropertyDetailItems() returns (detailItemMap: map<string, PropertyDetailItem>)
    ensures detailItemMap.Keys == Selectors.Keys
    ensures forall k :: k in detailItemMap ==>
      detailItemMap[k] == PropertyDetailItem(k, "", Selectors[k])
  {
    detailItemMap := map[];
    detailItemMap := detailItemMap["propertyID" := PropertyDetailItem("propertyID", "", Selectors["propertyID"])];
    detailItemMap := detailItemMap["geographicID" := PropertyDetailItem("geographicID", "", Selectors["geographicID"])];
    detailItemMap := detailItemMap["legalDescription" := PropertyDetailItem("legalDescription", "", Selectors["legalDescription"])];
    detailItemMap := detailItemMap["zoning" := PropertyDetailItem("zoning", "", Selectors["zoning"])];
    detailItemMap := detailItemMap["address" := PropertyDetailItem("address", "", Selectors["address"])];
    detailItemMap := detailItemMap["neighborhood" := PropertyDetailItem("neighborhood", "", Selectors["neighborhood"])];
    detailItemMap := detailItemMap["neighborhoodCD" := PropertyDetailItem("neighborhoodCD", "", Selectors["neighborhoodCD"])];
    detailItemMap := detailItemMap["mapscoMapID" := PropertyDetailItem("mapscoMapID", "", Selectors["mapscoMapID"])];
    detailItemMap := detailItemMap["ownerName" := PropertyDetailItem("ownerName", "", Selectors["ownerName"])];
    detailItemMap := detailItemMap["ownerMailingAddress" := PropertyDetailItem("ownerMailingAddress", "", Selectors["ownerMailingAddress"])];
    detailItemMap := detailItemMap["ownerID" := PropertyDetailItem("ownerID", "", Selectors["ownerID"])];
    detailItemMap := detailItemMap["ownershipPercentage" := PropertyDetailItem("ownershipPercentage", "", Selectors["ownershipPercentage"])];
    detailItemMap := detailItemMap["exemptions" := PropertyDetailItem("exemptions", "", Selectors["exemptions"])];
    detailItemMap := detailItemMap["ownerMailingAddress" := PropertyDetailItem("ownerMailingAddress", "", Selectors["ownerMailingAddress"])];
  }

  /** The item names, in the order loadPropertyDetailItems first inserts them. */
  const ItemNames: seq<string> := ["propertyID", "geographicID", "legalDescription", "zoning", "address",
    "neighborhood", "neighborhoodCD", "mapscoMapID", "ownerName", "ownerMailingAddress", "ownerID",
    "ownershipPercentage", "exemptions"]

  /** There are thirteen header fields: the thirteen item names, all distinct. */
  lemma ThirteenItems()
    ensures Selectors.Keys == set k | k in ItemNames
    ensures |Selectors.Keys| == 13
  {
    var keys := ItemNames;
    forall i, j | 0 <= i < j < |keys| ensures keys[i] != keys[j] {
      assert |keys[i]| >= 6 && |keys[j]| >= 6;
      assert (|keys[i]|, keys[i][0], keys[i][5]) != (|keys[j]|, keys[j][0], keys[j][5]);
    }
    DistinctCard(keys);
  }

  lemma {:induction false} DistinctCard(keys: seq<string>)
    requires forall i, j :: 0 <= i < j < |keys| ==> keys[i] != keys[j]
    ensures |set k | k in keys| == |keys|
  {
    if keys != [] {
      var init := keys[..|keys| - 1];
      DistinctCard(init);
      assert (set k | k in keys) == (set k | k in init) + {keys[|keys| - 1]};
      assert keys[|keys| - 1] !in init;
    }
  }

  /** The trimmed text at the selector of the named field. */
  function HeaderText(doc: Document, key: string): string
    requires key in Selectors
  {
    TrimSpace(doc.text(Selectors[key]))
  }

  /** The record GetPropertyRecord builds: each header field is the trimmed
      text at its selector, with the first "%" taken out of the ownership
      percentage; the collections are what the four extractors yield. */
  function PropertyRecordOf(doc: Document): PropertyRecord {
    PropertyRecord(
      HeaderText(doc, "propertyID"), HeaderText(doc, "ownerID"), HeaderText(doc, "ownerName"),
      HeaderText(doc, "ownerMailingAddress"), HeaderText(doc, "zoning"), HeaderText(doc, "neighborhoodCD"),
      HeaderText(doc, "neighborhood"), HeaderText(doc, "address"), HeaderText(doc, "legalDescription"),
      HeaderText(doc, "geographicID"), HeaderText(doc, "exemptions"),
      ReplaceOnce(HeaderText(doc, "ownershipPercentage"), "%", ""), HeaderText(doc, "mapscoMapID"),
      RollValues(doc), Lands(doc), Improvements(doc), Jurisdictions(doc))
  }

  /** itemMap[k] in Go: the zero item for a missing key. */
  function Item(m: map<string, PropertyDetailItem>, k: string): PropertyDetailItem {
    if k in m then m[k] else NoItem
  }

  /** GetPropertyRecord: every item's value is filled from the page (in
      whatever order the map yields its keys), then copied into the record;
      the error is always nil. */
  method GetPropertyRecord(doc: Document) returns (propertyRecord: PropertyRecord, err: Option<string>)
    ensures propertyRecord == PropertyRecordOf(doc)
    ensures err == None
  {
    var itemMap := LoadPropertyDetailItems();
    itemMap := FillItemValues(doc, itemMap);
    propertyRecord := CopyItems(doc, itemMap);
    var improvements := GetImprovements(doc);
    var land := GetLandInfo(doc);
    var jurisdictions := GetTaxingJurisdictions(doc);
    var rollValue := GetRollValue(doc);
    propertyRecord := propertyRecord.(improvements := improvements, land := land,
      jurisdictions := jurisdictions, rollValue := rollValue);
    err := None;
  }

  /** The header half of GetPropertyRecord: each field copied from its
      item's value; the collections stay empty. */
  method CopyItems(doc: Document, itemMap: map<string, PropertyDetailItem>) returns (propertyRecord: PropertyRecord)
    requires itemMap.Keys == Selectors.Keys
    requires forall k :: k in itemMap ==> itemMap[k] == PropertyDetailItem(k, HeaderText(doc, k), Selectors[k])
    ensures propertyRecord == PropertyRecordOf(doc).(rollValue := [], land := [], improvements := [], jurisdictions := [])
  {
    SelectorKeys();
    forall k | k in Selectors
      ensures Item(itemMap, k).value == HeaderText(doc, k)
    {
      ItemValue(doc, itemMap, k);
    }
    propertyRecord := EmptyRecord;
    propertyRecord := propertyRecord.(mapscoMapID := Item(itemMap, "mapscoMapID").value);
    propertyRecord := propertyRecord.(ownershipPercentage := ReplaceOnce(Item(itemMap, "ownershipPercentage").value, "%", ""));
    propertyRecord := propertyRecord.(exemptions := Item(itemMap, "exemptions").value);
    propertyRecord := propertyRecord.(geographicID := Item(itemMap, "geographicID").value);
    propertyRecord := propertyRecord.(legalDescription := Item(itemMap, "legalDescription").value);
    propertyRecord := propertyRecord.(address := Item(itemMap, "address").value);
    propertyRecord := propertyRecord.(neighborhood := Item(itemMap, "neighborhood").value);
    propertyRecord := propertyRecord.(neighborhoodCD := Item(itemMap, "neighborhoodCD").value);
    propertyRecord := propertyRecord.(propertyID := Item(itemMap, "property").value);
    propertyRecord := propertyRecord.(ownerID := Item(itemMap, "ownerID").value);
    propertyRecord := propertyRecord.(propertyID := Item(itemMap, "propertyID").value);
    propertyRecord := propertyRecord.(ownerName := Item(itemMap, "ownerName").value);
    propertyRecord := propertyRecord.(ownerMailingAddress := Item(itemMap, "ownerMailingAddress").value);
    propertyRecord := propertyRecord.(zoning := Item(itemMap, "zoning").value);
  }

  /** The thirteen item names, and "property", which names no item: the
      record's propertyID is first set from an item that does not exist. */
  lemma SelectorKeys()
    ensures "property" !in Selectors
    ensures "propertyID" in Selectors
    ensures "geographicID" in Selectors
    ensures "legalDescription" in Selectors
    ensures "zoning" in Selectors
    ensures "address" in Selectors
    ensures "neighborhood" in Selectors
    ensures "neighborhoodCD" in Selectors
    ensures "mapscoMapID" in Selectors
    ensures "ownerName" in Selectors
    ensures "ownerMailingAddress" in Selectors
    ensures "ownerID" in Selectors
    ensures "ownershipPercentage" in Selectors
    ensures "exemptions" in Selectors
  {
  }

  /** An item's filled value is the trimmed text at its selector. */
  lemma ItemValue(doc: Document, itemMap: map<string, PropertyDetailItem>, k: string)
    requires itemMap.Keys == Selectors.Keys
    requires forall k :: k in itemMap ==> itemMap[k] == PropertyDetailItem(k, HeaderText(doc, k), Selectors[k])
    requires k in Selectors
    ensures Item(itemMap, k).value == HeaderText(doc, k)
  {
  }

  /** The loop of GetPropertyRecord over the items: each item's value
      becomes the trimmed text at its selector; names and selectors stay. */
  method FillItemValues(doc: Document, items: map<string, PropertyDetailItem>)
      returns (itemMap: map<string, PropertyDetailItem>)
    requires items.Keys == Selectors.Keys
    requires forall k :: k in items ==> items[k].name == k && items[k].selectorText == Selectors[k]
    ensures itemMap.Keys == Selectors.Keys
    ensures forall k :: k in itemMap ==> itemMap[k] == PropertyDetailItem(k, HeaderText(doc, k), Selectors[k])
  {
    itemMap := items;
    var pending := itemMap.Keys;
    while pending != {}
      invariant pending <= itemMap.Keys && itemMap.Keys == Selectors.Keys
      invariant forall k :: k in itemMap ==> itemMap[k].name == k && itemMap[k].selectorText == Selectors[k]
      invariant forall k :: k in itemMap && k !in pending ==> itemMap[k].value == HeaderText(doc, k)
      decreases pending
    {
      var k :| k in pending;
      var v := itemMap[k];
      var val := doc.text(v.selectorText);
      v := v.(value := TrimSpace(val));
      itemMap := itemMap[k := v];
      pending := pending - {k};
    }
  }

  /** Only the first "%" goes: "12.5%" reads as "12.5", "5%%" as "5%". */
  lemma PercentSign(s: string, rest: string)
    requires '%' !in s
    ensures ReplaceOnce(s + "%" + rest, "%", "") == s + rest
  {
    var t := s + "%" + rest;
    forall j | 0 <= j < |s| ensures !OccursAt(t, "%", j) {
      assert t[j] == s[j];
    }
    assert OccursAt(t, "%", |s|);
    assert t[..|s|] == s && t[|s| + 1..] == rest;
  }

  /** FromPropertyDBModel: the id in decimal, the text columns (NULL as
      ""), no owner fields and no collections. */
  function FromPropertyDBModel(property: Pgdb.Property): (r: PropertyRecord)
    ensures r.ownerID == "" && r.ownerName == "" && r.ownerMailingAddress == ""
    ensures r.rollValue == [] && r.land == [] && r.improvements == [] && r.jurisdictions == []
    ensures Atoi(r.propertyID) == Parsed(property.id as int)
    ensures property.address.valid ==> r.address == property.address.value
    ensures !property.address.valid ==> r.address == ""
  {
    AtoiFormatInt(property.id as int);
    PropertyRecord(Int32ToString(property.id), "", "", "",
      NullStringToString(property.zoning), NullStringToString(property.neighborhoodCd),
      NullStringToString(property.neighborhood), NullStringToString(property.address),
      NullStringToString(property.legalDescription), NullStringToString(property.geographicID),
      NullStringToString(property.exemptions), NullStringToString(property.ownershipPercentage),
      NullStringToString(property.mapscoMapID), [], [], [], [])
  }
}
