/** Saving a scraped property record (AddPropertyRecordToDB and the
    insert helpers): one transaction that inserts the property row, its roll
    values, its taxing jurisdictions, its improvements (each followed by its
    details, which carry the id the store returned for the improvement) and
    its land segments, in that order, and then commits. Any failure rolls the
    transaction back, so either every row is committed or none is.

    The store is modelled by the rows it has committed. Its behaviour is
    supplied as `Faults`: whether BEGIN fails, the position of the first
    INSERT it rejects, whether COMMIT fails, and the id it returns for the
    k-th improvement inserted in a transaction. */
module ScraperStore {
  import Seqs
  import opened GoStrconv
  import opened Sql
  import opened Wrappers
  import Pgdb
  import opened TaxNulls
  import opened ScraperConvert
  import opened TaxRollValue
  import opened TaxLand
  import opened TaxImprovements
  import opened TaxJurisdictions
  import opened TaxPropertyRecord

  /** A numeric column bound to stringToNullInt32(text) (or, for the
      property id, stringToInt32(text)); NumberOf gives the bound value. */
  datatype IntColumn = IntOf(text: string)

  /** A float column bound to stringToNullFloat64(text) (the float parse
      itself is not modelled; the column is present). */
  datatype FloatColumn = FloatOf(text: string)

  /** The value stringToNullInt32 binds for a numeric column. */
  function NumberOf(c: IntColumn): NullInt32 {
    StringToNullInt32(c.text)
  }

  /** One INSERT statement, with the parameters it binds. */
  datatype Insert =
    | PropertyInsert(id: IntColumn, zoning: NullString, neighborhoodCd: NullString, neighborhood: NullString,
        address: NullString, legalDescription: NullString, geographicID: NullString, exemptions: NullString,
        ownershipPercentage: NullString, mapscoMapID: NullString)
    | RollValueInsert(year: IntColumn, improvements: IntColumn, landMarket: IntColumn, agValuation: IntColumn,
        appraised: IntColumn, homesteadCap: IntColumn, assessed: IntColumn, propertyID: IntColumn)
    | JurisdictionInsert(entity: NullString, description: NullString, taxRate: IntColumn,
        appraisedValue: IntColumn, taxableValue: IntColumn, estimatedTax: IntColumn, propertyID: IntColumn)
    | ImprovementInsert(name: NullString, description: NullString, stateCode: NullString,
        livingArea: FloatColumn, value: FloatColumn, propertyID: IntColumn)
    | DetailInsert(improvementID: NullInt32, improvementType: NullString, description: NullString,
        detailClass: NullString, exteriorWall: NullString, yearBuilt: IntColumn, squareFeet: IntColumn)
    | LandInsert(number: IntColumn, landType: NullString, description: NullString, acres: FloatColumn,
        sqft: FloatColumn, effFront: FloatColumn, effDepth: FloatColumn, marketValue: IntColumn,
        propertyID: IntColumn)

  // ---------------------------------------------------------------- statement parameters

  /** insertPropertyRecord's parameters: the id, every text column present. */
  function PropertyInsertOf(pr: PropertyRecord): Insert {
    PropertyInsert(IntOf(pr.propertyID), StringToNullString(pr.zoning),
      StringToNullString(pr.neighborhoodCD), StringToNullString(pr.neighborhood),
      StringToNullString(pr.address), StringToNullString(pr.legalDescription),
      StringToNullString(pr.geographicID), StringToNullString(pr.exemptions),
      StringToNullString(pr.ownershipPercentage), StringToNullString(pr.mapscoMapID))
  }

  function RollValueInsertOf(r: RollValue, pid: IntColumn): Insert {
    RollValueInsert(IntOf(r.year), IntOf(r.improvements), IntOf(r.landMarket), IntOf(r.agValuation),
      IntOf(r.appraised), IntOf(r.homesteadCap), IntOf(r.assessed), pid)
  }

  /** insertJurisdictions binds NULL for the entity and the description,
      whatever was extracted. */
  function JurisdictionInsertOf(j: TaxingJurisdiction, pid: IntColumn): Insert {
    JurisdictionInsert(NullString("", false), NullString("", false), IntOf(j.taxRate),
      IntOf(j.appraisedValue), IntOf(j.taxableValue), IntOf(j.estimatedTax), pid)
  }

  function ImprovementInsertOf(i: Improvement, pid: IntColumn): Insert {
    ImprovementInsert(StringToNullString(i.name), StringToNullString(i.description),
      StringToNullString(i.stateCode), FloatOf(i.livingArea), FloatOf(i.value), pid)
  }

  /** A detail row points at the id the store returned for its improvement. */
  function DetailInsertOf(d: ImprovDetail, id: int32): Insert {
    DetailInsert(NullInt32(id, true), StringToNullString(d.improvementType), StringToNullString(d.description),
      StringToNullString(d.detailClass), StringToNullString(d.exteriorWall), IntOf(d.yearBuilt), IntOf(d.sqFt))
  }

  function LandInsertOf(l: Land, pid: IntColumn): Insert {
    LandInsert(IntOf(l.number), StringToNullString(l.landType), StringToNullString(l.description),
      FloatOf(l.acres), FloatOf(l.sqft), FloatOf(l.effFront), FloatOf(l.effDepth), IntOf(l.marketValue), pid)
  }

  // ---------------------------------------------------------------- the statements of one record

  /** One roll value row per roll value, in order. */
  function RollValueInserts(rs: seq<RollValue>, pid: IntColumn): (r: seq<Insert>)
    ensures |r| == |rs|
  {
    if rs == [] then [] else RollValueInserts(rs[..|rs| - 1], pid) + [RollValueInsertOf(rs[|rs| - 1], pid)]
  }

  /** One jurisdiction row per jurisdiction, in order. */
  function JurisdictionInserts(js: seq<TaxingJurisdiction>, pid: IntColumn): (r: seq<Insert>)
    ensures |r| == |js|
  {
    if js == [] then [] else JurisdictionInserts(js[..|js| - 1], pid) + [JurisdictionInsertOf(js[|js| - 1], pid)]
  }

  /** One detail row per detail, in order, each pointing at improvement `id`. */
  function DetailInserts(ds: seq<ImprovDetail>, id: int32): (r: seq<Insert>)
    ensures |r| == |ds|
  {
    if ds == [] then [] else DetailInserts(ds[..|ds| - 1], id) + [DetailInsertOf(ds[|ds| - 1], id)]
  }

  /** An improvement row followed by its detail rows. */
  function ImprovementGroup(i: Improvement, pid: IntColumn, id: int32): seq<Insert> {
    [ImprovementInsertOf(i, pid)] + DetailInserts(i.details, id)
  }

  /** The groups of all improvements in order; the k-th improvement gets the
      id the store returns for the (from+k)-th improvement insert. */
  function ImprovementInserts(imps: seq<Improvement>, pid: IntColumn, ids: nat -> int32, from: nat): seq<Insert>
  {
    if imps == [] then []
    else
      ImprovementInserts(imps[..|imps| - 1], pid, ids, from)
        + ImprovementGroup(imps[|imps| - 1], pid, ids(from + |imps| - 1))
  }

  /** One land row per land segment, in order. */
  function LandInserts(ls: seq<Land>, pid: IntColumn): (r: seq<Insert>)
    ensures |r| == |ls|
  {
    if ls == [] then [] else LandInserts(ls[..|ls| - 1], pid) + [LandInsertOf(ls[|ls| - 1], pid)]
  }

  /** Every statement AddPropertyRecordToDB issues for `pr`, in order. */
  function InsertLog(pr: PropertyRecord, ids: nat -> int32): (log: seq<Insert>)
    ensures |log| == 1 + |pr.rollValue| + |pr.jurisdictions| + ImprovementRowCount(pr.improvements) + |pr.land|
    ensures log[0] == PropertyInsertOf(pr)
  {
    var pid := IntOf(pr.propertyID);
    ImprovementRowCountIsLength(pr.improvements, pid, ids, 0);
    [PropertyInsertOf(pr)] + RollValueInserts(pr.rollValue, pid) + JurisdictionInserts(pr.jurisdictions, pid)
      + ImprovementInserts(pr.improvements, pid, ids, 0) + LandInserts(pr.land, pid)
  }

  // ---------------------------------------------------------------- the store's behaviour

  /** What the store does: an error on BEGIN, the position (counted from the
      first statement of the transaction) of the first INSERT it rejects,
      an error on COMMIT, and the id returned for the k-th improvement. */
  datatype Faults = Faults(begin: Option<string>, failAt: Option<nat>, commit: Option<string>, ids: nat -> int32)

  /** The insert helper whose statement failed. */
  datatype PersistStep = PropertyStep | RollValuesStep | JurisdictionsStep | ImprovementsStep | LandStep

  datatype PersistError =
    | BeginFailed(cause: string)
    | InsertFailed(step: PersistStep, position: nat)
    | CommitFailed(cause: string)

  /** A rejection among the `n` statements that start at position `from`. */
  predicate FailsWithin(failAt: Option<nat>, from: nat, n: nat) {
    failAt.Some? && from <= failAt.value < from + n
  }

  /** The number of statements insertImprovements issues. */
  function ImprovementRowCount(imps: seq<Improvement>): nat {
    if imps == [] then 0 else ImprovementRowCount(imps[..|imps| - 1]) + 1 + |imps[|imps| - 1].details|
  }

  /** Which helper issues the statement at position `p` of the log of `pr`. */
  function StepAt(pr: PropertyRecord, p: nat): PersistStep {
    var r := 1 + |pr.rollValue|;
    var j := r + |pr.jurisdictions|;
    var i := j + ImprovementRowCount(pr.improvements);
    if p < 1 then PropertyStep
    else if p < r then RollValuesStep
    else if p < j then JurisdictionsStep
    else if p < i then ImprovementsStep
    else LandStep
  }

  /** The result of AddPropertyRecordToDB: BEGIN's error, else the first
      rejected statement of the log, else COMMIT's error, else success.
      Nothing is committed unless BEGIN, every statement and COMMIT succeed;
      a failed statement is named with the helper that issued it. */
  function PersistOutcome(pr: PropertyRecord, f: Faults): (r: Option<PersistError>)
    ensures r.None? <==> f.begin.None? && f.commit.None? && (f.failAt.None? || f.failAt.value >= |InsertLog(pr, f.ids)|)
    ensures r.Some? && r.value.InsertFailed? ==>
      r.value.position < |InsertLog(pr, f.ids)| && StepOf(InsertLog(pr, f.ids)[r.value.position]) == r.value.step
  {
    if f.begin.Some? then Some(BeginFailed(f.begin.value))
    else if FailsWithin(f.failAt, 0, |InsertLog(pr, f.ids)|) then
      StepAtIssuedStatement(pr, f.ids, f.failAt.value);
      Some(InsertFailed(StepAt(pr, f.failAt.value), f.failAt.value))
    else if f.commit.Some? then Some(CommitFailed(f.commit.value))
    else None
  }

  /** An open transaction: the statements it has issued so far. */
  class Tx {
    var pending: seq<Insert>
    var rolledBack: bool
    /** How many improvements this transaction has inserted. */
    var improvementsInserted: nat
    const failAt: Option<nat>
    const ids: nat -> int32

    constructor (failAt: Option<nat>, ids: nat -> int32)
      ensures pending == [] && !rolledBack && improvementsInserted == 0
      ensures this.failAt == failAt && this.ids == ids
    {
      pending := [];
      rolledBack := false;
      improvementsInserted := 0;
      this.failAt := failAt;
      this.ids := ids;
    }

    /** One INSERT: rejected when it is the statement at position failAt. */
    method Exec(ins: Insert) returns (failed: bool)
      requires !rolledBack
      modifies this
      ensures failed <==> failAt == Some(|old(pending)|)
      ensures pending == if failed then old(pending) else old(pending) + [ins]
      ensures rolledBack == old(rolledBack) && improvementsInserted == old(improvementsInserted)
    {
      failed := failAt == Some(|pending|);
      if !failed {
        pending := pending + [ins];
      }
    }

    /** InsertImprovement: an INSERT that returns the new row's id. */
    method ExecReturningID(ins: Insert) returns (id: int32, failed: bool)
      requires !rolledBack
      modifies this
      ensures failed <==> failAt == Some(|old(pending)|)
      ensures pending == if failed then old(pending) else old(pending) + [ins]
      ensures !failed ==> id == ids(old(improvementsInserted)) && improvementsInserted == old(improvementsInserted) + 1
      ensures failed ==> improvementsInserted == old(improvementsInserted)
      ensures rolledBack == old(rolledBack)
    {
      failed := failAt == Some(|pending|);
      id := 0;
      if !failed {
        pending := pending + [ins];
        id := ids(improvementsInserted);
        improvementsInserted := improvementsInserted + 1;
      }
    }

    /** tx.Rollback(): no statement issued so far will be committed. */
    method Rollback()
      modifies this
      ensures rolledBack && pending == [] && improvementsInserted == old(improvementsInserted)
    {
      rolledBack := true;
      pending := [];
    }
  }

  // ---------------------------------------------------------------- the insert helpers

  /** insertPropertyRecord. */
  method InsertPropertyRecord(pr: PropertyRecord, tx: Tx) returns (failed: bool)
    requires !tx.rolledBack
    modifies tx
    ensures failed <==> FailsWithin(tx.failAt, |old(tx.pending)|, 1)
    ensures !failed ==> !tx.rolledBack && tx.pending == old(tx.pending) + [PropertyInsertOf(pr)]
    ensures failed ==> tx.rolledBack && tx.pending == []
    ensures tx.improvementsInserted == old(tx.improvementsInserted)
  {
    failed := tx.Exec(PropertyInsertOf(pr));
    if failed {
      tx.Rollback();
    }
  }

  /** insertRollValues. */
  method InsertRollValues(pr: PropertyRecord, tx: Tx) returns (failed: bool)
    requires !tx.rolledBack
    modifies tx
    ensures failed <==> FailsWithin(tx.failAt, |old(tx.pending)|, |pr.rollValue|)
    ensures !failed ==> (!tx.rolledBack
      && tx.pending == old(tx.pending) + RollValueInserts(pr.rollValue, IntOf(pr.propertyID)))
    ensures failed ==> tx.rolledBack && tx.pending == []
    ensures tx.improvementsInserted == old(tx.improvementsInserted)
  {
    var pid := IntOf(pr.propertyID);
    var rs := pr.rollValue;
    var k := 0;
    while k < |rs|
      invariant 0 <= k <= |rs|
      invariant !tx.rolledBack && tx.improvementsInserted == old(tx.improvementsInserted)
      invariant tx.pending == old(tx.pending) + RollValueInserts(rs[..k], pid)
      invariant !FailsWithin(tx.failAt, |old(tx.pending)|, k)
    {
      failed := tx.Exec(RollValueInsertOf(rs[k], pid));
      if failed {
        tx.Rollback();
        return;
      }
      assert rs[..k + 1][..k] == rs[..k];
      k := k + 1;
    }
    assert rs[..k] == rs;
    failed := false;
  }

  /** insertJurisdictions. */
  method InsertJurisdictions(pr: PropertyRecord, tx: Tx) returns (failed: bool)
    requires !tx.rolledBack
    modifies tx
    ensures failed <==> FailsWithin(tx.failAt, |old(tx.pending)|, |pr.jurisdictions|)
    ensures !failed ==> (!tx.rolledBack
      && tx.pending == old(tx.pending) + JurisdictionInserts(pr.jurisdictions, IntOf(pr.propertyID)))
    ensures failed ==> tx.rolledBack && tx.pending == []
    ensures tx.improvementsInserted == old(tx.improvementsInserted)
  {
    var pid := IntOf(pr.propertyID);
    var js := pr.jurisdictions;
    var k := 0;
    while k < |js|
      invariant 0 <= k <= |js|
      invariant !tx.rolledBack && tx.improvementsInserted == old(tx.improvementsInserted)
      invariant tx.pending == old(tx.pending) + JurisdictionInserts(js[..k], pid)
      invariant !FailsWithin(tx.failAt, |old(tx.pending)|, k)
    {
      failed := tx.Exec(JurisdictionInsertOf(js[k], pid));
      if failed {
        tx.Rollback();
        return;
      }
      assert js[..k + 1][..k] == js[..k];
      k := k + 1;
    }
    assert js[..k] == js;
    failed := false;
  }

  /** The inner loop of insertImprovements: the details of one improvement,
      each pointing at the id returned for it. */
  method InsertDetails(ds: seq<ImprovDetail>, id: int32, tx: Tx) returns (failed: bool)
    requires !tx.rolledBack
    modifies tx
    ensures failed <==> FailsWithin(tx.failAt, |old(tx.pending)|, |ds|)
    ensures !failed ==> !tx.rolledBack && tx.pending == old(tx.pending) + DetailInserts(ds, id)
    ensures failed ==> tx.rolledBack && tx.pending == []
    ensures tx.improvementsInserted == old(tx.improvementsInserted)
  {
    var k := 0;
    while k < |ds|
      invariant 0 <= k <= |ds|
      invariant !tx.rolledBack && tx.improvementsInserted == old(tx.improvementsInserted)
      invariant tx.pending == old(tx.pending) + DetailInserts(ds[..k], id)
      invariant !FailsWithin(tx.failAt, |old(tx.pending)|, k)
    {
      failed := tx.Exec(DetailInsertOf(ds[k], id));
      if failed {
        tx.Rollback();
        return;
      }
      assert ds[..k + 1][..k] == ds[..k];
      k := k + 1;
    }
    assert ds[..k] == ds;
    failed := false;
  }

  lemma ImprovementRowCountIsLength(imps: seq<Improvement>, pid: IntColumn, ids: nat -> int32, from: nat)
    ensures |ImprovementInserts(imps, pid, ids, from)| == ImprovementRowCount(imps)
  {
    if imps != [] {
      ImprovementRowCountIsLength(imps[..|imps| - 1], pid, ids, from);
    }
  }

  /** The statements of the first k improvements, and of the (k+1)-th
      group, fit inside those of all of them. */
  lemma {:induction false} ImprovementRowCountPrefix(imps: seq<Improvement>, k: nat)
    requires k < |imps|
    ensures ImprovementRowCount(imps[..k]) + 1 + |imps[k].details| <= ImprovementRowCount(imps)
    decreases |imps|
  {
    var init := imps[..|imps| - 1];
    if k < |imps| - 1 {
      assert init[..k] == imps[..k] && init[k] == imps[k];
      ImprovementRowCountPrefix(init, k);
    } else {
      assert imps[..k] == init;
    }
  }

  /** insertImprovements: each improvement row, then its details with the
      returned id. */
  method InsertImprovements(pr: PropertyRecord, tx: Tx) returns (failed: bool)
    requires !tx.rolledBack
    modifies tx
    ensures failed <==> FailsWithin(tx.failAt, |old(tx.pending)|, ImprovementRowCount(pr.improvements))
    ensures !failed ==> (!tx.rolledBack && tx.pending == old(tx.pending)
      + ImprovementInserts(pr.improvements, IntOf(pr.propertyID), tx.ids, old(tx.improvementsInserted)))
    ensures failed ==> tx.rolledBack && tx.pending == []
  {
    var pid := IntOf(pr.propertyID);
    var imps := pr.improvements;
    ghost var start := tx.pending;
    ghost var from := tx.improvementsInserted;
    var k := 0;
    while k < |imps|
      invariant 0 <= k <= |imps|
      invariant !tx.rolledBack && tx.improvementsInserted == from + k
      invariant tx.pending == start + ImprovementInserts(imps[..k], pid, tx.ids, from)
      invariant !FailsWithin(tx.failAt, |start|, ImprovementRowCount(imps[..k]))
    {
      ImprovementRowCountIsLength(imps[..k], pid, tx.ids, from);
      ImprovementInsertsStep(imps, k, pid, tx.ids, from);
      Seqs.AppendAssoc(start, ImprovementInserts(imps[..k], pid, tx.ids, from),
        ImprovementGroup(imps[k], pid, tx.ids(from + k)));
      FailsWithinSplit(tx.failAt, |start|, ImprovementRowCount(imps[..k]), 1 + |imps[k].details|);
      failed := InsertImprovement(imps[k], pid, tx);
      if failed {
        ImprovementRowCountPrefix(imps, k);
        return;
      }
      assert tx.pending == start + ImprovementInserts(imps[..k + 1], pid, tx.ids, from);
      k := k + 1;
    }
    assert imps[..k] == imps;
    ImprovementRowCountIsLength(imps, pid, tx.ids, from);
    failed := false;
  }

  /** The loop body of insertImprovements: one improvement row, then its
      details under the id the store returned for it. */
  method InsertImprovement(imp: Improvement, pid: IntColumn, tx: Tx) returns (failed: bool)
    requires !tx.rolledBack
    modifies tx
    ensures failed <==> FailsWithin(tx.failAt, |old(tx.pending)|, 1 + |imp.details|)
    ensures !failed ==> (!tx.rolledBack && tx.improvementsInserted == old(tx.improvementsInserted) + 1
      && tx.pending == old(tx.pending) + ImprovementGroup(imp, pid, tx.ids(old(tx.improvementsInserted))))
    ensures failed ==> tx.rolledBack && tx.pending == []
  {
    FailsWithinSplit(tx.failAt, |tx.pending|, 1, |imp.details|);
    var id;
    id, failed := tx.ExecReturningID(ImprovementInsertOf(imp, pid));
    if failed {
      tx.Rollback();
      return;
    }
    failed := InsertDetails(imp.details, id, tx);
  }

  /** The statements and the count of the first k+1 improvements: those of
      the first k, then the (k+1)-th group. */
  lemma ImprovementInsertsStep(imps: seq<Improvement>, k: nat, pid: IntColumn, ids: nat -> int32, from: nat)
    requires k < |imps|
    ensures ImprovementInserts(imps[..k + 1], pid, ids, from)
      == ImprovementInserts(imps[..k], pid, ids, from) + ImprovementGroup(imps[k], pid, ids(from + k))
    ensures ImprovementRowCount(imps[..k + 1]) == ImprovementRowCount(imps[..k]) + 1 + |imps[k].details|
  {
    assert imps[..k + 1][..k] == imps[..k];
  }

  /** A run of statements fails within when its first part or its second does. */
  lemma FailsWithinSplit(failAt: Option<nat>, from: nat, n: nat, m: nat)
    ensures FailsWithin(failAt, from, n + m) <==> FailsWithin(failAt, from, n) || FailsWithin(failAt, from + n, m)
  {
  }

  /** insertLand. */
  method InsertLand(pr: PropertyRecord, tx: Tx) returns (failed: bool)
    requires !tx.rolledBack
    modifies tx
    ensures failed <==> FailsWithin(tx.failAt, |old(tx.pending)|, |pr.land|)
    ensures !failed ==> (!tx.rolledBack
      && tx.pending == old(tx.pending) + LandInserts(pr.land, IntOf(pr.propertyID)))
    ensures failed ==> tx.rolledBack && tx.pending == []
    ensures tx.improvementsInserted == old(tx.improvementsInserted)
  {
    var pid := IntOf(pr.propertyID);
    var ls := pr.land;
    var k := 0;
    while k < |ls|
      invariant 0 <= k <= |ls|
      invariant !tx.rolledBack && tx.improvementsInserted == old(tx.improvementsInserted)
      invariant tx.pending == old(tx.pending) + LandInserts(ls[..k], pid)
      invariant !FailsWithin(tx.failAt, |old(tx.pending)|, k)
    {
      failed := tx.Exec(LandInsertOf(ls[k], pid));
      if failed {
        tx.Rollback();
        return;
      }
      assert ls[..k + 1][..k] == ls[..k];
      k := k + 1;
    }
    assert ls[..k] == ls;
    failed := false;
  }

  /** The database: the rows committed so far. */
  class Store {
    var committed: seq<Insert>

    constructor ()
      ensures committed == []
    {
      committed := [];
    }

    /** AddPropertyRecordToDB: all of the record's rows are committed, in
        log order, or none is; the error says which step failed. */
    method AddPropertyRecordToDB(pr: PropertyRecord, faults: Faults) returns (err: Option<PersistError>)
      modifies this
      ensures err == PersistOutcome(pr, faults)
      ensures err.None? ==> committed == old(committed) + InsertLog(pr, faults.ids)
      ensures err.Some? ==> committed == old(committed)
    {
      if faults.begin.Some? {
        return Some(BeginFailed(faults.begin.value));
      }
      var tx := new Tx(faults.failAt, faults.ids);

      var failed := InsertPropertyRecord(pr, tx);
      if failed {
        return Some(InsertFailed(PropertyStep, faults.failAt.value));
      }
      assert tx.pending == [PropertyInsertOf(pr)];
      failed := InsertRollValues(pr, tx);
      if failed {
        return Some(InsertFailed(RollValuesStep, faults.failAt.value));
      }
      failed := InsertJurisdictions(pr, tx);
      if failed {
        return Some(InsertFailed(JurisdictionsStep, faults.failAt.value));
      }
      failed := InsertImprovements(pr, tx);
      if failed {
        tx.Rollback();
        return Some(InsertFailed(ImprovementsStep, faults.failAt.value));
      }
      failed := InsertLand(pr, tx);
      if failed {
        tx.Rollback();
        return Some(InsertFailed(LandStep, faults.failAt.value));
      }
      assert tx.pending == InsertLog(pr, faults.ids);
      if faults.commit.Some? {
        tx.Rollback();
        return Some(CommitFailed(faults.commit.value));
      }
      committed := committed + tx.pending;
      err := None;
    }
  }

  // ---------------------------------------------------------------- what the log holds

  /** The helper that issues a statement. */
  function StepOf(ins: Insert): PersistStep {
    match ins
    case PropertyInsert(_, _, _, _, _, _, _, _, _, _) => PropertyStep
    case RollValueInsert(_, _, _, _, _, _, _, _) => RollValuesStep
    case JurisdictionInsert(_, _, _, _, _, _, _) => JurisdictionsStep
    case ImprovementInsert(_, _, _, _, _, _) => ImprovementsStep
    case DetailInsert(_, _, _, _, _, _, _) => ImprovementsStep
    case LandInsert(_, _, _, _, _, _, _, _, _) => LandStep
  }

  /** The order in which AddPropertyRecordToDB runs the helpers. */
  function StepIndex(step: PersistStep): nat {
    match step
    case PropertyStep => 0
    case RollValuesStep => 1
    case JurisdictionsStep => 2
    case ImprovementsStep => 3
    case LandStep => 4
  }

  lemma {:induction false} RollValueInsertsAt(rs: seq<RollValue>, pid: IntColumn)
    ensures forall k :: 0 <= k < |rs| ==> RollValueInserts(rs, pid)[k] == RollValueInsertOf(rs[k], pid)
  {
    if rs != [] {
      RollValueInsertsAt(rs[..|rs| - 1], pid);
    }
  }

  lemma {:induction false} JurisdictionInsertsAt(js: seq<TaxingJurisdiction>, pid: IntColumn)
    ensures forall k :: 0 <= k < |js| ==> JurisdictionInserts(js, pid)[k] == JurisdictionInsertOf(js[k], pid)
  {
    if js != [] {
      JurisdictionInsertsAt(js[..|js| - 1], pid);
    }
  }

  lemma {:induction false} DetailInsertsAt(ds: seq<ImprovDetail>, id: int32)
    ensures forall k :: 0 <= k < |ds| ==> DetailInserts(ds, id)[k] == DetailInsertOf(ds[k], id)
  {
    if ds != [] {
      DetailInsertsAt(ds[..|ds| - 1], id);
    }
  }

  lemma {:induction false} LandInsertsAt(ls: seq<Land>, pid: IntColumn)
    ensures forall k :: 0 <= k < |ls| ==> LandInserts(ls, pid)[k] == LandInsertOf(ls[k], pid)
  {
    if ls != [] {
      LandInsertsAt(ls[..|ls| - 1], pid);
    }
  }

  /** insertImprovements issues only improvement rows, bound to the
      property id, and detail rows. */
  lemma {:induction false} ImprovementInsertsKinds(imps: seq<Improvement>, pid: IntColumn, ids: nat -> int32, from: nat)
    ensures forall q :: 0 <= q < |ImprovementInserts(imps, pid, ids, from)| ==>
      var ins := ImprovementInserts(imps, pid, ids, from)[q];
      (ins.ImprovementInsert? && ins.propertyID == pid) || ins.DetailInsert?
  {
    if imps != [] {
      var last := imps[|imps| - 1];
      ImprovementInsertsKinds(imps[..|imps| - 1], pid, ids, from);
      DetailInsertsAt(last.details, ids(from + |imps| - 1));
    }
  }

  /** Each detail row is one of the rows of the details of some improvement
      k, pointing at the id the store returned for that improvement. */
  lemma {:induction false} DetailRowsPointAtTheirImprovement(imps: seq<Improvement>, pid: IntColumn, ids: nat -> int32, from: nat)
    ensures forall q :: (0 <= q < |ImprovementInserts(imps, pid, ids, from)|
                         && ImprovementInserts(imps, pid, ids, from)[q].DetailInsert?) ==>
      exists k :: 0 <= k < |imps|
        && ImprovementInserts(imps, pid, ids, from)[q] in DetailInserts(imps[k].details, ids(from + k))
  {
    if imps != [] {
      var n := |imps| - 1;
      var init, last := imps[..n], imps[n];
      var a := ImprovementInserts(init, pid, ids, from);
      var g := ImprovementGroup(last, pid, ids(from + n));
      var r := ImprovementInserts(imps, pid, ids, from);
      assert r == a + g;
      DetailRowsPointAtTheirImprovement(init, pid, ids, from);
      forall q | 0 <= q < |r| && r[q].DetailInsert?
        ensures exists k :: 0 <= k < |imps| && r[q] in DetailInserts(imps[k].details, ids(from + k))
      {
        if q < |a| {
          assert r[q] == a[q];
          var k :| 0 <= k < |init| && a[q] in DetailInserts(init[k].details, ids(from + k));
          assert imps[k] == init[k];
        } else {
          assert r[q] == g[q - |a|];
          assert q - |a| != 0;
          assert g[q - |a|] in DetailInserts(last.details, ids(from + n));
        }
      }
    }
  }

  /** The statement at each position of the log: the property row first,
      then one row per roll value, per jurisdiction, the improvement groups
      and one row per land segment, each in extraction order. */
  lemma LogAt(pr: PropertyRecord, ids: nat -> int32, q: nat)
    requires q < |InsertLog(pr, ids)|
    ensures var log, pid := InsertLog(pr, ids), IntOf(pr.propertyID);
      var r := 1 + |pr.rollValue|;
      var j := r + |pr.jurisdictions|;
      var i := j + ImprovementRowCount(pr.improvements);
      && (q == 0 ==> log[q] == PropertyInsertOf(pr))
      && (1 <= q < r ==> log[q] == RollValueInsertOf(pr.rollValue[q - 1], pid))
      && (r <= q < j ==> log[q] == JurisdictionInsertOf(pr.jurisdictions[q - r], pid))
      && (j <= q < i ==> (log[q].ImprovementInsert? && log[q].propertyID == pid) || log[q].DetailInsert?)
      && (i <= q < i + |pr.land| ==> log[q] == LandInsertOf(pr.land[q - i], pid))
  {
    var pid := IntOf(pr.propertyID);
    var rv := RollValueInserts(pr.rollValue, pid);
    var ju := JurisdictionInserts(pr.jurisdictions, pid);
    var im := ImprovementInserts(pr.improvements, pid, ids, 0);
    var la := LandInserts(pr.land, pid);
    ImprovementRowCountIsLength(pr.improvements, pid, ids, 0);
    RollValueInsertsAt(pr.rollValue, pid);
    JurisdictionInsertsAt(pr.jurisdictions, pid);
    ImprovementInsertsKinds(pr.improvements, pid, ids, 0);
    LandInsertsAt(pr.land, pid);
    assert InsertLog(pr, ids) == [PropertyInsertOf(pr)] + rv + ju + im + la;
  }

  /** The helper StepAt names for a position is the one whose statement
      sits there. */
  lemma StepAtIssuedStatement(pr: PropertyRecord, ids: nat -> int32, q: nat)
    requires q < |InsertLog(pr, ids)|
    ensures StepOf(InsertLog(pr, ids)[q]) == StepAt(pr, q)
  {
    LogAt(pr, ids, q);
  }

  /** The log runs the helpers in order: property, roll values,
      jurisdictions, improvements with their details, land. */
  lemma InsertLogOrdered(pr: PropertyRecord, ids: nat -> int32)
    ensures forall a, b :: 0 <= a <= b < |InsertLog(pr, ids)| ==>
      StepIndex(StepOf(InsertLog(pr, ids)[a])) <= StepIndex(StepOf(InsertLog(pr, ids)[b]))
  {
    forall a, b | 0 <= a <= b < |InsertLog(pr, ids)|
      ensures StepIndex(StepOf(InsertLog(pr, ids)[a])) <= StepIndex(StepOf(InsertLog(pr, ids)[b]))
    {
      StepAtIssuedStatement(pr, ids, a);
      StepAtIssuedStatement(pr, ids, b);
    }
  }

  /** Every row except the property row and the detail rows is bound to the
      record's property id, and the property row's id is that same text. */
  lemma RowsCarryPropertyID(pr: PropertyRecord, ids: nat -> int32)
    ensures InsertLog(pr, ids)[0].PropertyInsert? && InsertLog(pr, ids)[0].id == IntOf(pr.propertyID)
    ensures forall q :: (0 <= q < |InsertLog(pr, ids)| && !InsertLog(pr, ids)[q].PropertyInsert?
                         && !InsertLog(pr, ids)[q].DetailInsert?) ==> InsertLog(pr, ids)[q].propertyID == IntOf(pr.propertyID)
  {
    LogAt(pr, ids, 0);
    forall q | 0 <= q < |InsertLog(pr, ids)| && !InsertLog(pr, ids)[q].PropertyInsert?
      && !InsertLog(pr, ids)[q].DetailInsert?
      ensures InsertLog(pr, ids)[q].propertyID == IntOf(pr.propertyID)
    {
      LogAt(pr, ids, q);
    }
  }

  /** Jurisdiction rows carry NULL for the entity and the description. */
  lemma JurisdictionRowsAreNull(pr: PropertyRecord, ids: nat -> int32)
    ensures forall q :: 0 <= q < |InsertLog(pr, ids)| && InsertLog(pr, ids)[q].JurisdictionInsert? ==>
      !InsertLog(pr, ids)[q].entity.valid && !InsertLog(pr, ids)[q].description.valid
  {
    forall q | 0 <= q < |InsertLog(pr, ids)| && InsertLog(pr, ids)[q].JurisdictionInsert?
      ensures !InsertLog(pr, ids)[q].entity.valid && !InsertLog(pr, ids)[q].description.valid
    {
      LogAt(pr, ids, q);
    }
  }

  // ---------------------------------------------------------------- reading rows back

  /** The values the store holds for a property row. */
  function StoredProperty(ins: Insert): Pgdb.Property
    requires ins.PropertyInsert?
  {
    Pgdb.Property(StringToInt32(ins.id.text), ins.zoning, ins.neighborhoodCd, ins.neighborhood, ins.address,
      ins.legalDescription, ins.geographicID, ins.exemptions, ins.ownershipPercentage, ins.mapscoMapID)
  }

  function StoredRollValue(ins: Insert): Pgdb.RollValue
    requires ins.RollValueInsert?
  {
    Pgdb.RollValue(NumberOf(ins.year), NumberOf(ins.improvements), NumberOf(ins.landMarket),
      NumberOf(ins.agValuation), NumberOf(ins.appraised), NumberOf(ins.homesteadCap), NumberOf(ins.assessed))
  }

  function StoredJurisdiction(ins: Insert): Pgdb.Jurisdiction
    requires ins.JurisdictionInsert?
  {
    Pgdb.Jurisdiction(ins.entity, ins.description, NumberOf(ins.taxRate), NumberOf(ins.appraisedValue),
      NumberOf(ins.taxableValue), NumberOf(ins.estimatedTax))
  }

  function StoredDetail(ins: Insert): Pgdb.ImprovementDetail
    requires ins.DetailInsert?
  {
    Pgdb.ImprovementDetail(ins.improvementType, ins.description, ins.detailClass, ins.exteriorWall,
      NumberOf(ins.yearBuilt), NumberOf(ins.squareFeet))
  }

  /** A text that is the decimal form of an int32, as the site prints them. */
  predicate Canonical(s: string) {
    Int32ToString(StringToInt32(s)) == s
  }

  /** A stored number reads back as the text it came from exactly when that
      text was canonical; it is never NULL. */
  lemma NumberReadBack(s: string)
    ensures NumberOf(IntOf(s)).valid
    ensures NullInt32ToString(NumberOf(IntOf(s))) == s <==> Canonical(s)
  {
  }

  /** Every decimal int32 text is canonical. */
  lemma PrintedNumbersAreCanonical(i: int32)
    ensures Canonical(Int32ToString(i))
  {
    Int32RoundTrip(i);
  }

  /** Saving a property and reading it back keeps every column the reader
      knows, and nothing else. */
  lemma PropertyReadBack(pr: PropertyRecord)
    requires Canonical(pr.propertyID)
    ensures FromPropertyDBModel(StoredProperty(PropertyInsertOf(pr)))
      == pr.(ownerID := "", ownerName := "", ownerMailingAddress := "",
             rollValue := [], land := [], improvements := [], jurisdictions := [])
  {
  }

  /** A roll value of canonical numbers reads back unchanged. */
  lemma RollValueReadBack(r: RollValue, pid: IntColumn)
    requires Canonical(r.year) && Canonical(r.improvements) && Canonical(r.landMarket)
    requires Canonical(r.agValuation) && Canonical(r.appraised) && Canonical(r.homesteadCap) && Canonical(r.assessed)
    ensures RollValueFromDB(StoredRollValue(RollValueInsertOf(r, pid))) == r
  {
  }

  /** A jurisdiction reads back with its numbers but without its entity and
      description, which were never stored. */
  lemma JurisdictionReadBack(j: TaxingJurisdiction, pid: IntColumn)
    requires Canonical(j.taxRate) && Canonical(j.appraisedValue) && Canonical(j.taxableValue) && Canonical(j.estimatedTax)
    ensures JurisdictionFromDB(StoredJurisdiction(JurisdictionInsertOf(j, pid))) == j.(entity := "", description := "")
  {
  }

  /** A detail with canonical numbers reads back unchanged. */
  lemma DetailReadBack(d: ImprovDetail, id: int32)
    requires Canonical(d.yearBuilt) && Canonical(d.sqFt)
    ensures DetailFromDB(StoredDetail(DetailInsertOf(d, id))) == d
  {
  }
}
