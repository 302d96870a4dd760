/** The scraper's jobs (scraper/scraper.go): the dispatcher that turns the
    pending URLs into jobs, PropertyExists, parseDetails, and Job.Process,
    the chain of steps one job runs. Every answer a collaborator gives (the
    property lookup, the proxy, the user agent, the warm-up response, the
    blacklisting, the detail fetch, the store's faults, the URL removal) is
    an input; the calls the job makes are recorded as effects. */
module ScraperJobs {
  import opened GoStrings
  import opened GoStrconv
  import opened Sql
  import opened Wrappers
  import Pgdb
  import opened Html
  import opened TaxPropertyRecord
  import opened ScraperConvert
  import opened ScraperStore
  import opened Proxies

  // ---------------------------------------------------------------- dispatcher

  /** A job as the dispatcher creates it: its index in the URL list, the URL
      and the property id taken from the URL. */
  datatype Ticket = Ticket(jobID: nat, url: string, propertyID: string)

  /** What the dispatcher does with one URL. */
  datatype Dispatch = Skip | Enqueue(propertyID: string) | IndexOutOfRange

  /** One URL: split on "="; with more than one part the third part is the
      property id, which does not exist when there are exactly two parts;
      an empty id is skipped. */
  function DispatchOf(u: string): (r: Dispatch)
    ensures r.IndexOutOfRange? <==> |Split(u, "=")| == 2
    ensures r.Enqueue? ==> |Split(u, "=")| > 2 && r.propertyID == Split(u, "=")[2]
    ensures r.Enqueue? ==> r.propertyID != "" && '=' !in r.propertyID
  {
    var parts := Split(u, "=");
    if |parts| == 2 then IndexOutOfRange
    else
      var propID := if |parts| > 1 then parts[2] else "";
      if propID == "" then Skip else SplitPieceFree(u, '=', 2); Enqueue(propID)
  }

  /** A URL without "=" is skipped. */
  lemma NoEqualsSkipped(u: string)
    requires '=' !in u
    ensures DispatchOf(u) == Skip
  {
    SplitWithoutSeparator(u, '=');
  }

  /** A URL with exactly one "=" splits in two pieces, and reading the
      third one panics. */
  lemma OneEqualsCrashes(a: string, b: string)
    requires '=' !in a && '=' !in b
    ensures DispatchOf(a + "=" + b) == IndexOutOfRange
  {
    SplitAtFirstSeparator(a, '=', b);
    SplitWithoutSeparator(b, '=');
  }

  /** With two "=", the text after the second is the property id. */
  lemma TwoEqualsEnqueueThird(a: string, b: string, id: string)
    requires '=' !in a && '=' !in b && '=' !in id
    requires id != ""
    ensures DispatchOf(a + "=" + b + "=" + id) == Enqueue(id)
  {
    var u := a + "=" + b + "=" + id;
    assert u == a + ['='] + (b + ['='] + id);
    SplitAtFirstSeparator(a, '=', b + ['='] + id);
    SplitAtFirstSeparator(b, '=', id);
    SplitWithoutSeparator(id, '=');
    assert Split(u, "=") == [a, b, id];
  }

  /** What the dispatcher sends for a URL list: the tickets, and whether it
      stopped on an index out of range. */
  datatype Dispatched = Dispatched(tickets: seq<Ticket>, crashed: bool)

  /** The dispatcher's state after URL number `i`, `u`, given the state
      before it. */
  function DispatchStep(d: Dispatched, i: nat, u: string): Dispatched {
    if d.crashed then d
    else match DispatchOf(u)
      case Skip => d
      case IndexOutOfRange => d.(crashed := true)
      case Enqueue(pid) => d.(tickets := d.tickets + [Ticket(i, u, pid)])
  }

  /** The dispatcher's result over `urls`, defined from the last URL back. */
  function DispatchAll(urls: seq<string>): (r: Dispatched)
    ensures |r.tickets| <= |urls|
    ensures forall k :: 0 <= k < |r.tickets| ==> r.tickets[k].propertyID != "" && r.tickets[k].jobID < |urls|
  {
    if urls == [] then Dispatched([], false)
    else DispatchStep(DispatchAll(urls[..|urls| - 1]), |urls| - 1, urls[|urls| - 1])
  }

  lemma DispatchAllPrefix(urls: seq<string>, i: nat)
    requires i < |urls|
    ensures DispatchAll(urls[..i + 1]) == DispatchStep(DispatchAll(urls[..i]), i, urls[i])
  {
    assert urls[..i + 1][..i] == urls[..i];
  }

  /** The dispatcher loop of Scrape: one ticket per URL with a property id,
      in order; the loop ends at the first URL with exactly two parts. */
  method DispatchJobs(urls: seq<string>) returns (tickets: seq<Ticket>, crashed: bool)
    ensures Dispatched(tickets, crashed) == DispatchAll(urls)
  {
    tickets, crashed := [], false;
    var i := 0;
    while i < |urls| && !crashed
      invariant 0 <= i <= |urls|
      invariant Dispatched(tickets, crashed) == DispatchAll(urls[..i])
      decreases |urls| - i
    {
      DispatchAllPrefix(urls, i);
      match DispatchOf(urls[i]) {
        case Skip =>
        case IndexOutOfRange =>
          crashed := true;
        case Enqueue(propID) =>
          tickets := tickets + [Ticket(i, urls[i], propID)];
      }
      i := i + 1;
    }
    if crashed {
      CrashStays(urls, i);
    } else {
      assert urls[..i] == urls;
    }
  }

  /** Once the dispatcher has stopped, later URLs change nothing. */
  lemma {:induction false} CrashStays(urls: seq<string>, i: nat)
    requires i <= |urls| && DispatchAll(urls[..i]).crashed
    ensures DispatchAll(urls) == DispatchAll(urls[..i])
    decreases |urls| - i
  {
    if i < |urls| {
      assert urls[..i + 1][..i] == urls[..i];
      CrashStays(urls, i + 1);
    } else {
      assert urls[..i] == urls;
    }
  }

  /** Every ticket is URL number jobID with its property id. */
  predicate TicketsMatch(urls: seq<string>, tickets: seq<Ticket>) {
    forall k :: 0 <= k < |tickets| ==>
      tickets[k].jobID < |urls| && tickets[k].url == urls[tickets[k].jobID]
      && DispatchOf(urls[tickets[k].jobID]) == Enqueue(tickets[k].propertyID)
  }

  /** Each ticket is URL number jobID with its property id, and every job id
      is below the number of URLs. */
  lemma {:induction false} TicketsFollowURLs(urls: seq<string>)
    ensures TicketsMatch(urls, DispatchAll(urls).tickets)
  {
    if urls != [] {
      var init := urls[..|urls| - 1];
      TicketsFollowURLs(init);
      var d := DispatchAll(init);
      forall k | 0 <= k < |d.tickets|
        ensures d.tickets[k].jobID < |urls| && d.tickets[k].url == urls[d.tickets[k].jobID]
        ensures DispatchOf(urls[d.tickets[k].jobID]) == Enqueue(d.tickets[k].propertyID)
      {
        assert d.tickets[k].jobID < |init|;
        assert init[d.tickets[k].jobID] == urls[d.tickets[k].jobID];
      }
    }
  }

  /** Job ids grow strictly along the tickets, so input order is kept. */
  lemma {:induction false} TicketsInOrder(urls: seq<string>)
    ensures forall a, b :: 0 <= a < b < |DispatchAll(urls).tickets| ==>
      DispatchAll(urls).tickets[a].jobID < DispatchAll(urls).tickets[b].jobID
  {
    if urls != [] {
      var init := urls[..|urls| - 1];
      TicketsInOrder(init);
      TicketsFollowURLs(init);
    }
  }

  /** The dispatcher stops exactly when some URL splits into two parts. */
  lemma {:induction false} DispatchCrashes(urls: seq<string>)
    ensures DispatchAll(urls).crashed <==> exists i :: 0 <= i < |urls| && DispatchOf(urls[i]).IndexOutOfRange?
  {
    if urls != [] {
      var n := |urls| - 1;
      var init := urls[..n];
      DispatchCrashes(init);
      if DispatchAll(init).crashed {
        var j :| 0 <= j < |init| && DispatchOf(init[j]).IndexOutOfRange?;
        assert DispatchOf(urls[j]).IndexOutOfRange?;
      } else if DispatchOf(urls[n]).IndexOutOfRange? {
      } else {
        forall i | 0 <= i < |urls| ensures !DispatchOf(urls[i]).IndexOutOfRange? {
          if i < n {
            assert urls[i] == init[i];
          }
        }
      }
    }
  }

  /** A step of the dispatcher keeps the tickets sent so far. */
  lemma DispatchStepKeeps(d: Dispatched, i: nat, u: string)
    ensures |d.tickets| <= |DispatchStep(d, i, u).tickets|
    ensures DispatchStep(d, i, u).tickets[..|d.tickets|] == d.tickets
  {
  }

  /** A running dispatcher sends a ticket for a URL with a property id. */
  lemma DispatchStepEnqueues(d: Dispatched, i: nat, u: string)
    requires !d.crashed && DispatchOf(u).Enqueue?
    ensures DispatchStep(d, i, u).tickets == d.tickets + [Ticket(i, u, DispatchOf(u).propertyID)]
  {
  }

  /** Up to the URL where the dispatcher stops, every URL with a property id
      gets a ticket. */
  lemma {:induction false} DispatchComplete(urls: seq<string>, i: nat)
    requires i < |urls| && DispatchOf(urls[i]).Enqueue? && !DispatchAll(urls[..i]).crashed
    ensures exists k :: 0 <= k < |DispatchAll(urls).tickets| && DispatchAll(urls).tickets[k].jobID == i
    decreases |urls|
  {
    var n := |urls| - 1;
    var init := urls[..n];
    var d := DispatchAll(init);
    if i < n {
      assert urls[..i] == init[..i];
      DispatchComplete(init, i);
      var k :| 0 <= k < |d.tickets| && d.tickets[k].jobID == i;
      assert urls[..n + 1] == urls;
      DispatchAllPrefix(urls, n);
      DispatchStepKeeps(d, n, urls[n]);
      assert DispatchAll(urls).tickets[k] == d.tickets[k];
    } else {
      assert urls[..i] == init;
      assert urls[..n + 1] == urls;
      DispatchAllPrefix(urls, n);
      DispatchStepEnqueues(d, n, urls[n]);
      assert DispatchAll(urls).tickets[|d.tickets|].jobID == i;
    }
  }

  // ---------------------------------------------------------------- property lookups

  /** What a job reports as its error. */
  datatype JobError =
    | Message(text: string)
    | NotANumber(input: string, reason: NumError)
    | StoreFailed(cause: PersistError)

  function MessageOf(e: Option<string>): (r: Option<JobError>)
    ensures r.None? <==> e.None?
  {
    if e.Some? then Some(Message(e.value)) else None
  }

  /** The stored properties keyed by id, and the error the query fails with
      when it fails. */
  datatype PropertyTable = PropertyTable(rows: map<int32, Pgdb.Property>, failure: Option<string>)

  datatype LookupResult = Found(property: Pgdb.Property) | LookupFailed(message: string)

  /** The text of sql.ErrNoRows. */
  const NoRows := "sql: no rows in result set"

  /** GetPropertyByID: the stored row, sql.ErrNoRows when there is none, or
      the query's own error. */
  function GetPropertyByID(db: PropertyTable, id: int32): (r: LookupResult)
    ensures r.Found? <==> db.failure.None? && id in db.rows
    ensures r.Found? ==> r.property == db.rows[id]
    ensures db.failure.None? && id !in db.rows ==> r == LookupFailed(NoRows)
  {
    if db.failure.Some? then LookupFailed(db.failure.value)
    else if id in db.rows then Found(db.rows[id])
    else LookupFailed(NoRows)
  }

  /** The property a lookup yields: the zero Property along with an error. */
  function PropertyOf(r: LookupResult): Pgdb.Property {
    if r.Found? then r.property else Pgdb.NoProperty
  }

  datatype Existence = Existence(found: bool, err: Option<JobError>)

  /** PropertyExists: classifies a URL by the property id after "prop_id="
      (`db` is None for a scraper without a database). */
  function PropertyExists(db: Option<PropertyTable>, url: string): Existence {
    if db.None? then Existence(true, Some(Message("db is nil")))
    else
      var urlParts := Split(url, "prop_id=");
      if |urlParts| < 2 then Existence(false, Some(Message("no property id provided in url")))
      else match Atoi(TrimSpace(urlParts[1]))
        case NotParsed(input, reason) => Existence(false, Some(NotANumber(input, reason)))
        case Parsed(pid) =>
          if pid == 0 then Existence(true, Some(Message("invalid property id: 0")))
          else match GetPropertyByID(db.value, Wrap32(pid))
            case LookupFailed(m) => if m == NoRows then Existence(false, None) else Existence(false, Some(Message(m)))
            case Found(prop) => Existence(prop.address.valid && prop.address.value != "", None)
  }

  /** A property exists without error only when some stored row has a
      present, non-empty address; "exists" comes with an error only for a
      missing database or id 0; a missing row is not an error. */
  lemma PropertyExistsCases(db: Option<PropertyTable>, url: string)
    ensures PropertyExists(db, url) == Existence(true, None) ==>
      db.Some? && exists id :: id in db.value.rows && db.value.rows[id].address.valid && db.value.rows[id].address.value != ""
    ensures PropertyExists(db, url).found && PropertyExists(db, url).err.Some? ==>
      PropertyExists(db, url).err == Some(Message("db is nil")) || PropertyExists(db, url).err == Some(Message("invalid property id: 0"))
    ensures PropertyExists(db, url).err != Some(Message(NoRows))
    ensures db.None? <==> PropertyExists(db, url) == Existence(true, Some(Message("db is nil")))
  {
    var e := PropertyExists(db, url);
    if db.Some? {
      var urlParts := Split(url, "prop_id=");
      if |urlParts| >= 2 {
        match Atoi(TrimSpace(urlParts[1]))
        case NotParsed(input, reason) =>
          assert e.err == Some(NotANumber(input, reason));
        case Parsed(pid) =>
          if pid == 0 {
            assert e == Existence(true, Some(Message("invalid property id: 0")));
          } else {
            var id := Wrap32(pid);
            match GetPropertyByID(db.value, id)
            case LookupFailed(m) =>
              assert !e.found;
              assert e.err == None || e.err == Some(Message(m));
            case Found(prop) =>
              assert id in db.value.rows && db.value.rows[id] == prop;
              assert e == Existence(prop.address.valid && prop.address.value != "", None);
          }
      } else {
        assert e == Existence(false, Some(Message("no property id provided in url")));
      }
    }
  }

  /** The text PropertyExists reads an id from: the piece after the first
      "prop_id=", trimmed. */
  function IDText(url: string): string
    requires Index(url, "prop_id=") != -1
  {
    TrimSpace(Split(url, "prop_id=")[1])
  }

  /** PropertyExists on a database, case by case: a URL without "prop_id=";
      an id that is not a number; id 0; a failing query; and otherwise
      whether the row stored under the id's 32-bit truncation has a
      present, non-empty address (no row at all is "not found", no error). */
  lemma PropertyExistsByURL(db: PropertyTable, url: string)
    ensures Index(url, "prop_id=") == -1 ==>
      PropertyExists(Some(db), url) == Existence(false, Some(Message("no property id provided in url")))
    ensures Index(url, "prop_id=") != -1 && Atoi(IDText(url)).NotParsed? ==>
      PropertyExists(Some(db), url) == Existence(false, Some(NotANumber(IDText(url), Atoi(IDText(url)).reason)))
    ensures Index(url, "prop_id=") != -1 && Atoi(IDText(url)) == Parsed(0) ==>
      PropertyExists(Some(db), url) == Existence(true, Some(Message("invalid property id: 0")))
    ensures Index(url, "prop_id=") != -1 && Atoi(IDText(url)).Parsed? && Atoi(IDText(url)).value != 0 && db.failure.Some? ==>
      PropertyExists(Some(db), url) ==
        Existence(false, if db.failure.value == NoRows then None else Some(Message(db.failure.value)))
    ensures Index(url, "prop_id=") != -1 && Atoi(IDText(url)).Parsed? && Atoi(IDText(url)).value != 0 && db.failure.None? ==>
      var id := Wrap32(Atoi(IDText(url)).value);
      PropertyExists(Some(db), url) ==
        Existence(id in db.rows && db.rows[id].address.valid && db.rows[id].address.value != "", None)
  {
    if Index(url, "prop_id=") == -1 {
      assert Split(url, "prop_id=") == [url];
    } else {
      assert |Split(url, "prop_id=")| >= 2;
      match Atoi(IDText(url)) {
        case NotParsed(_, _) =>
        case Parsed(pid) =>
          if pid != 0 && db.failure.None? {
            var id := Wrap32(pid);
            assert GetPropertyByID(db, id) == if id in db.rows then Found(db.rows[id]) else LookupFailed(NoRows);
          }
      }
    }
  }

  // ---------------------------------------------------------------- parseDetails

  /** The record parseDetails yields for a page: the empty record when the
      body is not a document, otherwise what GetPropertyRecord builds. */
  function ParsedRecord(page: Option<Document>): PropertyRecord {
    if page.None? then EmptyRecord else PropertyRecordOf(page.value)
  }

  /** parseDetails: a page that does not parse gives the empty record, and
      the error is nil in both cases. */
  method ParseDetails(page: Option<Document>) returns (record: PropertyRecord, err: Option<string>)
    ensures record == ParsedRecord(page) && err == None
    ensures page.None? ==> record.propertyID == "" && record.improvements == [] && record.land == []
  {
    if page.None? {
      return EmptyRecord, None;
    }
    record, err := GetPropertyRecord(page.value);
    err := None;
  }

  /** An unparsed page is still saved: a single property row whose id text
      is "", which is stored as id 0. */
  lemma UnparsedPageSavedAsZero(ids: nat -> int32)
    ensures InsertLog(ParsedRecord(None), ids) == [PropertyInsertOf(EmptyRecord)]
    ensures StringToInt32(PropertyInsertOf(EmptyRecord).id.text) == 0
  {
    assert Atoi("").NotParsed?;
  }

  // ---------------------------------------------------------------- Job.Process

  /** The User-Agent header the detail request always sends. */
  const SafariAgent := "Mozilla/5.0 (Macintosh; Intel Mac OS X 10_15_7) AppleWebKit/605.1.15 (KHTML, like Gecko) Version/15.1 Safari/605.1.15"

  /** The warm-up request's result: an error without a response, a
      response, or an error that comes with a response (http.Client.Do
      returns both when, for one, the redirect policy stops it). */
  datatype WarmUp =
    | WarmUpFailed(message: string)
    | Responded(code: int, status: string)
    | FailedWithResponse(message: string, code: int, status: string)

  /** The detail request's result: the request or the body read fails, or
      the body, which is a document or not. */
  datatype Detail = FetchFailed(message: string) | ReadFailed(message: string) | Body(page: Option<Document>)

  /** What the collaborators answer during one Process call. `proxy` and
      `agent` are what GetNext and GetRandomUserAgent return when they do
      not fail (on failure they return the zero Proxy and ""). `backoffDraw`
      stands for rand.Intn(90) in getRandomTimeoutDuration(10, 100). */
  datatype Collaborators = Collaborators(
    db: PropertyTable,
    proxy: Proxy,
    proxyErr: Option<string>,
    agent: string,
    agentErr: Option<string>,
    warmUp: WarmUp,
    blacklistErr: Option<string>,
    backoffDraw: int,
    requestErr: Option<string>,
    detail: Detail,
    faults: Faults,
    removeErr: Option<string>)

  /** The calls a job makes on the world. */
  datatype Effect =
    | LookedUp(id: int32)
    | RemovePendingURL(url: string)
    | Blacklisted(ip: string)
    | Slept(delay: Timeout)
    | FetchedDetail(url: string, userAgent: string)
    | Persisted(record: PropertyRecord)

  /** The fields of a Job that Process reads and writes. */
  datatype JobState = JobState(url: string, proxy: Proxy, userAgent: string, record: PropertyRecord, error: Option<JobError>)

  /** The job after Process, the calls it made, whether it panicked, and
      the rows it committed to the store. */
  datatype Outcome = Outcome(state: JobState, effects: seq<Effect>, crashed: bool, saved: seq<Insert>)

  /** ProcessError(removeURL, ...): the pending URL is removed when asked;
      the error that removal returns is dropped by every caller. */
  function Reported(effects: seq<Effect>, url: string, removeURL: bool): seq<Effect> {
    if removeURL then effects + [RemovePendingURL(url)] else effects
  }

  /** The id Process looks up: none when the record's id is empty or not a
      number. */
  function LookedUpID(s: JobState): Option<int32> {
    if s.record.propertyID == "" then None
    else match Atoi(s.record.propertyID)
      case NotParsed(_, _) => None
      case Parsed(n) => Some(Wrap32(n))
  }

  /** Process: without an id, or with one that is not a number, it does
      nothing but (for a number) record the conversion error; with a number
      it continues with the lookup of its 32-bit truncation. */
  function ProcessSpec(s: JobState, c: Collaborators): (r: Outcome)
    requires 0 <= c.backoffDraw < 90
    ensures s.record.propertyID == "" ==> r == Outcome(s, [], false, [])
    ensures LookedUpID(s).None? ==> r.effects == [] && !r.crashed && r.saved == [] && r.state.(error := s.error) == s
    ensures LookedUpID(s).None? && s.record.propertyID != "" ==> r.state.error.Some? && r.state.error.value.NotANumber?
    ensures LookedUpID(s).Some? ==> r == LookupSpec(s, c, LookedUpID(s).value)
  {
    if s.record.propertyID == "" then Outcome(s, Reported([], s.url, false), false, [])
    else match Atoi(s.record.propertyID)
      case NotParsed(input, reason) =>
        Outcome(s.(error := Some(NotANumber(input, reason))), Reported([], s.url, false), false, [])
      case Parsed(n) => LookupSpec(s, c, Wrap32(n))
  }

  /** Process: the database lookup of the parsed id. */
  function LookupSpec(s: JobState, c: Collaborators, id: int32): Outcome
    requires 0 <= c.backoffDraw < 90
  {
    var found := GetPropertyByID(c.db, id);
    var s1 := s.(error := if found.LookupFailed? then Some(Message(found.message)) else None);
    var fx := [LookedUp(id)];
    if found.LookupFailed? && found.message != NoRows then Outcome(s1, Reported(fx, s.url, true), false, [])
    else if PropertyOf(found).id == id then
      Outcome(s.(error := Some(Message("duplicate ID"))), Reported(fx, s.url, true), false, [])
    else WarmUpSpec(s1, c, fx)
  }

  /** Process: proxy, user agent and the warm-up request. An error from
      the warm-up request blacklists the proxy and backs off; the job then
      stops on the blacklisting's error, panics when there is no response to
      read the status of, and otherwise checks the status. */
  function WarmUpSpec(s: JobState, c: Collaborators, fx: seq<Effect>): Outcome
    requires 0 <= c.backoffDraw < 90
  {
    var s1 := s.(proxy := if c.proxyErr.Some? then EmptyProxy else c.proxy, error := MessageOf(c.proxyErr));
    if c.proxyErr.Some? then Outcome(s1, Reported(fx, s.url, false), false, [])
    else
      var s2 := s1.(userAgent := if c.agentErr.Some? then "" else c.agent, error := MessageOf(c.agentErr));
      if c.agentErr.Some? then Outcome(s2, Reported(fx, s.url, false), false, [])
      else
        var erred := !c.warmUp.Responded?;
        var fx2 := if erred then fx + [Blacklisted(c.proxy.ip), Slept(GetRandomTimeoutDuration(10, 100, c.backoffDraw))] else fx;
        var s3 := s2.(error := if erred then MessageOf(c.blacklistErr) else None);
        if s3.error.Some? then Outcome(s3, Reported(fx2, s.url, false), false, [])
        else if c.warmUp.WarmUpFailed? then Outcome(s3, fx2, true, [])
        else if c.warmUp.code > 399 || c.warmUp.code < 200 then
          Outcome(s3.(error := Some(Message(c.warmUp.status))), Reported(fx2, s.url, false), false, [])
        else DetailSpec(s3, c, fx2)
  }

  /** Process: the detail request, parsing, saving and removing the URL. */
  function DetailSpec(s: JobState, c: Collaborators, fx: seq<Effect>): Outcome {
    var s1 := s.(error := MessageOf(c.requestErr));
    if c.requestErr.Some? then Outcome(s1, Reported(fx, s.url, false), false, [])
    else
      var fx1 := fx + [FetchedDetail(s.url, SafariAgent)];
      match c.detail
      case FetchFailed(m) => Outcome(s.(error := Some(Message(m))), Reported(fx1, s.url, false), false, [])
      case ReadFailed(m) => Outcome(s.(error := Some(Message(m))), Reported(fx1, s.url, false), false, [])
      case Body(page) => SaveSpec(s1, c, fx1, ParsedRecord(page))
  }

  /** Process: saving the parsed record and removing the URL. */
  function SaveSpec(s: JobState, c: Collaborators, fx: seq<Effect>, record: PropertyRecord): Outcome {
    var s1 := s.(record := record, error := None);
    var fx1 := fx + [Persisted(record)];
    match PersistOutcome(record, c.faults)
    case Some(e) => Outcome(s1.(error := Some(StoreFailed(e))), Reported(fx1, s.url, false), false, [])
    case None =>
      var fx2 := fx1 + [RemovePendingURL(s.url)];
      var saved := InsertLog(record, c.faults.ids);
      if c.removeErr.Some? then Outcome(s1.(error := MessageOf(c.removeErr)), Reported(fx2, s.url, false), false, saved)
      else Outcome(s1.(error := Some(Message("No Errors"))), fx2, false, saved)
  }

  class Job {
    const jobID: nat
    var url: string
    var proxy: Proxy
    var userAgent: string
    var propertyRecord: PropertyRecord
    var error: Option<JobError>

    function State(): JobState
      reads this
    {
      JobState(url, proxy, userAgent, propertyRecord, error)
    }

    /** The job the dispatcher sends for a ticket: the URL, a record holding
        only the property id, and nothing else set. */
    constructor(t: Ticket)
      ensures jobID == t.jobID
      ensures State() == JobState(t.url, EmptyProxy, "", EmptyRecord.(propertyID := t.propertyID), None)
    {
      jobID := t.jobID;
      url := t.url;
      proxy := EmptyProxy;
      userAgent := "";
      propertyRecord := EmptyRecord.(propertyID := t.propertyID);
      error := None;
    }

    /** Process: runs the job's steps in order, stopping at the first
        failure; `store` is where AddPropertyRecordToDB saves the record. */
    method Process(c: Collaborators, store: Store) returns (effects: seq<Effect>, crashed: bool)
      requires 0 <= c.backoffDraw < 90
      modifies this, store
      ensures store.committed == old(store.committed) + ProcessSpec(old(State()), c).saved
      ensures Outcome(State(), effects, crashed, ProcessSpec(old(State()), c).saved) == ProcessSpec(old(State()), c)
    {
      effects, crashed := [], false;
      if propertyRecord.propertyID == "" {
        effects := Reported(effects, url, false);
        return;
      }
      var parsed := Atoi(propertyRecord.propertyID);
      if parsed.NotParsed? {
        error := Some(NotANumber(parsed.input, parsed.reason));
        effects := Reported(effects, url, false);
        return;
      }
      effects, crashed := Lookup(c, store, Wrap32(parsed.value));
    }

    /** The steps of Process from the lookup of the parsed id. */
    method Lookup(c: Collaborators, store: Store, id: int32) returns (effects: seq<Effect>, crashed: bool)
      requires 0 <= c.backoffDraw < 90
      modifies this, store
      ensures store.committed == old(store.committed) + LookupSpec(old(State()), c, id).saved
      ensures Outcome(State(), effects, crashed, LookupSpec(old(State()), c, id).saved) == LookupSpec(old(State()), c, id)
    {
      var found := GetPropertyByID(c.db, id);
      effects, crashed := [LookedUp(id)], false;
      var property := PropertyOf(found);
      error := if found.LookupFailed? then Some(Message(found.message)) else None;
      if found.LookupFailed? && found.message != NoRows {
        effects := Reported(effects, url, true);
        return;
      }
      if property.id == id {
        error := Some(Message("duplicate ID"));
        effects := Reported(effects, url, true);
        return;
      }
      effects, crashed := WarmUp(c, store, effects);
    }

    /** The steps of Process from the proxy to the warm-up request. */
    method WarmUp(c: Collaborators, store: Store, fx: seq<Effect>) returns (effects: seq<Effect>, crashed: bool)
      requires 0 <= c.backoffDraw < 90
      modifies this, store
      ensures store.committed == old(store.committed) + WarmUpSpec(old(State()), c, fx).saved
      ensures Outcome(State(), effects, crashed, WarmUpSpec(old(State()), c, fx).saved) == WarmUpSpec(old(State()), c, fx)
    {
      effects, crashed := fx, false;
      proxy, error := if c.proxyErr.Some? then EmptyProxy else c.proxy, MessageOf(c.proxyErr);
      if error.Some? {
        effects := Reported(effects, url, false);
        return;
      }
      userAgent, error := if c.agentErr.Some? then "" else c.agent, MessageOf(c.agentErr);
      if error.Some? {
        effects := Reported(effects, url, false);
        return;
      }
      error := None;
      if !c.warmUp.Responded? {
        error := MessageOf(c.blacklistErr);
        effects := effects + [Blacklisted(proxy.ip), Slept(GetRandomTimeoutDuration(10, 100, c.backoffDraw))];
      }
      if error.Some? {
        effects := Reported(effects, url, false);
        return;
      }
      if c.warmUp.WarmUpFailed? {
        // resp is nil here and resp.StatusCode panics
        crashed := true;
        return;
      }
      if c.warmUp.code > 399 || c.warmUp.code < 200 {
        error := Some(Message(c.warmUp.status));
        effects := Reported(effects, url, false);
        return;
      }
      effects := FetchDetail(c, store, effects);
    }

    /** The steps of Process from the detail request to parsing the page. */
    method FetchDetail(c: Collaborators, store: Store, fx: seq<Effect>) returns (effects: seq<Effect>)
      modifies this, store
      ensures store.committed == old(store.committed) + DetailSpec(old(State()), c, fx).saved
      ensures Outcome(State(), effects, false, DetailSpec(old(State()), c, fx).saved) == DetailSpec(old(State()), c, fx)
    {
      effects := fx;
      error := MessageOf(c.requestErr);
      if error.Some? {
        effects := Reported(effects, url, false);
        return;
      }
      effects := effects + [FetchedDetail(url, SafariAgent)];
      if c.detail.FetchFailed? || c.detail.ReadFailed? {
        error := Some(Message(c.detail.message));
        effects := Reported(effects, url, false);
        return;
      }
      var record, parseErr := ParseDetails(c.detail.page);
      effects := Save(c, store, effects, record);
    }

    /** The steps of Process from AddPropertyRecordToDB to the end. */
    method Save(c: Collaborators, store: Store, fx: seq<Effect>, record: PropertyRecord) returns (effects: seq<Effect>)
      modifies this, store
      ensures store.committed == old(store.committed) + SaveSpec(old(State()), c, fx, record).saved
      ensures Outcome(State(), effects, false, SaveSpec(old(State()), c, fx, record).saved) == SaveSpec(old(State()), c, fx, record)
    {
      propertyRecord, error := record, None;
      effects := fx + [Persisted(propertyRecord)];
      var persistErr := store.AddPropertyRecordToDB(propertyRecord, c.faults);
      if persistErr.Some? {
        error := Some(StoreFailed(persistErr.value));
        effects := Reported(effects, url, false);
        return;
      }
      effects := effects + [RemovePendingURL(url)];
      error := MessageOf(c.removeErr);
      if error.Some? {
        effects := Reported(effects, url, false);
        return;
      }
      error := Some(Message("No Errors"));
    }
  }
}
