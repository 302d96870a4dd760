/** What one run of Job.Process (scraper/scraper.go) does, stated over the
    whole chain of steps: when the pending URL is removed, when the proxy is
    blacklisted and the job panics, what is saved, and how the duplicate
    check decides. */
module JobOutcomes {
  import opened GoStrings
  import opened GoStrconv
  import opened Wrappers
  import opened Html
  import opened TaxPropertyRecord
  import opened ScraperConvert
  import opened ScraperStore
  import opened Proxies
  import opened ScraperJobs

  // ---------------------------------------------------------------- where a job stops

  /** The lookup of `id` lets the job go on: the query failed with nothing
      but ErrNoRows, and the row it yields (the zero row when there is
      none) carries another id. */
  predicate NotDuplicate(c: Collaborators, id: int32) {
    var f := GetPropertyByID(c.db, id);
    !(f.LookupFailed? && f.message != NoRows) && PropertyOf(f).id != id
  }

  /** The job gets past the lookup. */
  predicate LookupPasses(s: JobState, c: Collaborators) {
    LookedUpID(s).Some? && NotDuplicate(c, LookedUpID(s).value)
  }

  /** The job stops at the lookup and removes its URL. */
  predicate StopsAtLookup(s: JobState, c: Collaborators) {
    LookedUpID(s).Some? && !NotDuplicate(c, LookedUpID(s).value)
  }

  /** A proxy and a user agent were obtained. */
  predicate Equipped(c: Collaborators) {
    c.proxyErr.None? && c.agentErr.None?
  }

  /** The warm-up request returned an error, with or without a response;
      the proxy is then blacklisted. */
  predicate WarmUpErred(c: Collaborators) {
    !c.warmUp.Responded?
  }

  /** The job reads the warm-up status: there is a response, and an error
      that came with it was followed by a successful blacklisting. */
  predicate StatusChecked(c: Collaborators) {
    c.warmUp.Responded? || (c.warmUp.FailedWithResponse? && c.blacklistErr.None?)
  }

  /** The warm-up status is read and lies in 200..399. */
  predicate WarmUpAccepted(c: Collaborators) {
    StatusChecked(c) && 200 <= c.warmUp.code <= 399
  }

  /** The proxy the job holds after GetNext. */
  function ProxyAfter(c: Collaborators): Proxy {
    if c.proxyErr.Some? then EmptyProxy else c.proxy
  }

  /** The user agent the job holds after GetRandomUserAgent. */
  function AgentAfter(c: Collaborators): string {
    if c.agentErr.Some? then "" else c.agent
  }

  /** The detail request was built and its body was read. */
  predicate DetailArrives(c: Collaborators) {
    c.requestErr.None? && c.detail.Body?
  }

  /** The record the detail page yields. */
  function DetailRecord(c: Collaborators): PropertyRecord
    requires c.detail.Body?
  {
    ParsedRecord(c.detail.page)
  }

  /** The job reaches AddPropertyRecordToDB. */
  predicate ReachesSave(s: JobState, c: Collaborators) {
    LookupPasses(s, c) && Equipped(c) && WarmUpAccepted(c) && DetailArrives(c)
  }

  /** AddPropertyRecordToDB commits the record. */
  predicate Commits(s: JobState, c: Collaborators) {
    ReachesSave(s, c) && PersistOutcome(DetailRecord(c), c.faults).None?
  }

  /** The error AddPropertyRecordToDB and the URL removal leave. */
  function SaveError(record: PropertyRecord, c: Collaborators): Option<JobError> {
    match PersistOutcome(record, c.faults)
    case Some(e) => Some(StoreFailed(e))
    case None => if c.removeErr.Some? then MessageOf(c.removeErr) else Some(Message("No Errors"))
  }

  /** The error the lookup of `id` leaves. */
  function LookupError(c: Collaborators, id: int32): Option<JobError> {
    var f := GetPropertyByID(c.db, id);
    if f.LookupFailed? then Some(Message(f.message)) else None
  }

  // ---------------------------------------------------------------- the calls each step adds

  /** The calls saving `record` adds: the save, and the removal of the URL
      once the save committed. */
  predicate SaveAdds(url: string, c: Collaborators, record: PropertyRecord, e: Effect) {
    e == Persisted(record) || (PersistOutcome(record, c.faults).None? && e == RemovePendingURL(url))
  }

  /** The calls the detail step adds: the request, then the save of what
      the body parses to. */
  predicate DetailAdds(url: string, c: Collaborators, e: Effect) {
    c.requestErr.None? && (e == FetchedDetail(url, SafariAgent) || (c.detail.Body? && SaveAdds(url, c, DetailRecord(c), e)))
  }

  /** The calls the warm-up step adds: blacklisting the proxy and backing
      off after an error from the request, and the detail step after an
      accepted status. */
  predicate WarmUpAdds(url: string, c: Collaborators, e: Effect)
    requires 0 <= c.backoffDraw < 90
  {
    Equipped(c) &&
      ((WarmUpErred(c) && (e == Blacklisted(c.proxy.ip) || e == Slept(GetRandomTimeoutDuration(10, 100, c.backoffDraw))))
       || (WarmUpAccepted(c) && DetailAdds(url, c, e)))
  }

  // ---------------------------------------------------------------- Process, step by step

  /** The effects the warm-up step has recorded when the detail step starts. */
  function WarmUpEffects(c: Collaborators, fx: seq<Effect>): seq<Effect>
    requires 0 <= c.backoffDraw < 90
  {
    if WarmUpErred(c) then fx + [Blacklisted(c.proxy.ip), Slept(GetRandomTimeoutDuration(10, 100, c.backoffDraw))] else fx
  }

  lemma SaveStep(s: JobState, c: Collaborators, fx: seq<Effect>, record: PropertyRecord)
    ensures forall e :: e in SaveSpec(s, c, fx, record).effects <==> e in fx || SaveAdds(s.url, c, record, e)
    ensures !SaveSpec(s, c, fx, record).crashed
    ensures SaveSpec(s, c, fx, record).saved ==
      if PersistOutcome(record, c.faults).None? then InsertLog(record, c.faults.ids) else []
    ensures SaveSpec(s, c, fx, record).state == s.(record := record, error := SaveError(record, c))
  {
  }

  lemma DetailStep(s: JobState, c: Collaborators, fx: seq<Effect>)
    ensures forall e :: e in DetailSpec(s, c, fx).effects <==> e in fx || DetailAdds(s.url, c, e)
    ensures !DetailSpec(s, c, fx).crashed
    ensures DetailSpec(s, c, fx).saved ==
      if DetailArrives(c) && PersistOutcome(DetailRecord(c), c.faults).None? then InsertLog(DetailRecord(c), c.faults.ids) else []
    ensures DetailSpec(s, c, fx).state.(error := s.error) == if DetailArrives(c) then s.(record := DetailRecord(c)) else s
    ensures c.requestErr.Some? ==> DetailSpec(s, c, fx).state.error == MessageOf(c.requestErr)
    ensures c.requestErr.None? && !c.detail.Body? ==> DetailSpec(s, c, fx).state.error == Some(Message(c.detail.message))
    ensures DetailArrives(c) ==> DetailSpec(s, c, fx).state.error == SaveError(DetailRecord(c), c)
  {
    if DetailArrives(c) {
      SaveStep(s.(error := None), c, fx + [FetchedDetail(s.url, SafariAgent)], DetailRecord(c));
    }
  }

  lemma WarmUpStep(s: JobState, c: Collaborators, fx: seq<Effect>)
    requires 0 <= c.backoffDraw < 90
    ensures forall e :: e in WarmUpSpec(s, c, fx).effects <==> e in fx || WarmUpAdds(s.url, c, e)
    ensures WarmUpSpec(s, c, fx).crashed <==> Equipped(c) && c.warmUp.WarmUpFailed? && c.blacklistErr.None?
    ensures WarmUpSpec(s, c, fx).saved ==
      if Equipped(c) && WarmUpAccepted(c) && DetailArrives(c) && PersistOutcome(DetailRecord(c), c.faults).None?
      then InsertLog(DetailRecord(c), c.faults.ids) else []
    ensures WarmUpSpec(s, c, fx).state.url == s.url
    ensures WarmUpSpec(s, c, fx).state.record ==
      if Equipped(c) && WarmUpAccepted(c) && DetailArrives(c) then DetailRecord(c) else s.record
    ensures WarmUpSpec(s, c, fx).state.proxy == ProxyAfter(c)
    ensures WarmUpSpec(s, c, fx).state.userAgent == if c.proxyErr.None? then AgentAfter(c) else s.userAgent
  {
    if Equipped(c) && WarmUpAccepted(c) {
      DetailStep(s.(proxy := c.proxy, userAgent := c.agent, error := None), c, WarmUpEffects(c, fx));
    }
  }

  /** The error the warm-up step leaves: the proxy's, the user agent's, the
      blacklisting's, the warm-up status, and then the detail step's. */
  lemma WarmUpErrors(s: JobState, c: Collaborators, fx: seq<Effect>)
    requires 0 <= c.backoffDraw < 90
    ensures c.proxyErr.Some? ==> WarmUpSpec(s, c, fx).state.error == MessageOf(c.proxyErr)
    ensures c.proxyErr.None? && c.agentErr.Some? ==> WarmUpSpec(s, c, fx).state.error == MessageOf(c.agentErr)
    ensures Equipped(c) && WarmUpErred(c) && !StatusChecked(c) ==> WarmUpSpec(s, c, fx).state.error == MessageOf(c.blacklistErr)
    ensures Equipped(c) && StatusChecked(c) && !WarmUpAccepted(c) ==>
      WarmUpSpec(s, c, fx).state.error == Some(Message(c.warmUp.status))
    ensures Equipped(c) && WarmUpAccepted(c) && c.requestErr.Some? ==> WarmUpSpec(s, c, fx).state.error == MessageOf(c.requestErr)
    ensures Equipped(c) && WarmUpAccepted(c) && c.requestErr.None? && !c.detail.Body? ==>
      WarmUpSpec(s, c, fx).state.error == Some(Message(c.detail.message))
    ensures Equipped(c) && WarmUpAccepted(c) && DetailArrives(c) ==>
      WarmUpSpec(s, c, fx).state.error == SaveError(DetailRecord(c), c)
  {
    if Equipped(c) && WarmUpAccepted(c) {
      DetailStep(s.(proxy := c.proxy, userAgent := c.agent, error := None), c, WarmUpEffects(c, fx));
    }
  }

  lemma LookupStep(s: JobState, c: Collaborators, id: int32)
    requires 0 <= c.backoffDraw < 90
    ensures forall e :: e in LookupSpec(s, c, id).effects <==>
      e == LookedUp(id) || (!NotDuplicate(c, id) && e == RemovePendingURL(s.url)) || (NotDuplicate(c, id) && WarmUpAdds(s.url, c, e))
    ensures LookupSpec(s, c, id).crashed <==> NotDuplicate(c, id) && Equipped(c) && c.warmUp.WarmUpFailed? && c.blacklistErr.None?
    ensures LookupSpec(s, c, id).saved ==
      if NotDuplicate(c, id) && Equipped(c) && WarmUpAccepted(c) && DetailArrives(c) && PersistOutcome(DetailRecord(c), c.faults).None?
      then InsertLog(DetailRecord(c), c.faults.ids) else []
    ensures LookupSpec(s, c, id).state.url == s.url
    ensures LookupSpec(s, c, id).state.record ==
      if NotDuplicate(c, id) && Equipped(c) && WarmUpAccepted(c) && DetailArrives(c) then DetailRecord(c) else s.record
    ensures LookupSpec(s, c, id).state.proxy == if NotDuplicate(c, id) then ProxyAfter(c) else s.proxy
    ensures LookupSpec(s, c, id).state.userAgent == if NotDuplicate(c, id) && c.proxyErr.None? then AgentAfter(c) else s.userAgent
    ensures !NotDuplicate(c, id) ==>
      (LookupSpec(s, c, id).state.error ==
        if GetPropertyByID(c.db, id).LookupFailed? && GetPropertyByID(c.db, id).message != NoRows
        then Some(Message(GetPropertyByID(c.db, id).message)) else Some(Message("duplicate ID")))
    ensures NotDuplicate(c, id) ==> LookupSpec(s, c, id).state.error == WarmUpSpec(s.(error := LookupError(c, id)), c, [LookedUp(id)]).state.error
  {
    if NotDuplicate(c, id) {
      WarmUpStep(s.(error := LookupError(c, id)), c, [LookedUp(id)]);
    }
  }

  // ---------------------------------------------------------------- whole-run properties

  /** The calls one run of Process makes, described call by call. */
  predicate Happens(s: JobState, c: Collaborators, e: Effect)
    requires 0 <= c.backoffDraw < 90
  {
    match e
    case LookedUp(id) => LookedUpID(s) == Some(id)
    case RemovePendingURL(u) => u == s.url && (StopsAtLookup(s, c) || Commits(s, c))
    case Blacklisted(ip) => ip == c.proxy.ip && LookupPasses(s, c) && Equipped(c) && WarmUpErred(c)
    case Slept(d) =>
      d == GetRandomTimeoutDuration(10, 100, c.backoffDraw) && LookupPasses(s, c) && Equipped(c) && WarmUpErred(c)
    case FetchedDetail(u, agent) =>
      u == s.url && agent == SafariAgent && LookupPasses(s, c) && Equipped(c) && WarmUpAccepted(c) && c.requestErr.None?
    case Persisted(r) => ReachesSave(s, c) && r == DetailRecord(c)
  }

  /** Process makes exactly the calls Happens describes: the lookup of a
      numeric id; the removal of the URL after a failed or duplicate lookup
      or a committed save; blacklisting and backing off after an error
      from the warm-up request; the detail request, always with the Safari User-Agent; and
      the save of the parsed page. */
  lemma ProcessEffects(s: JobState, c: Collaborators)
    requires 0 <= c.backoffDraw < 90
    ensures forall e :: e in ProcessSpec(s, c).effects <==> Happens(s, c, e)
  {
    if LookedUpID(s).Some? {
      var id := LookedUpID(s).value;
      LookupStep(s, c, id);
      forall e ensures e in ProcessSpec(s, c).effects <==> Happens(s, c, e) {
        HappensAfterLookup(s, c, id, e);
      }
    }
  }

  /** Once the id is known, Happens is what the lookup step adds. */
  lemma HappensAfterLookup(s: JobState, c: Collaborators, id: int32, e: Effect)
    requires 0 <= c.backoffDraw < 90
    requires LookedUpID(s) == Some(id)
    ensures Happens(s, c, e) <==>
      e == LookedUp(id) || (!NotDuplicate(c, id) && e == RemovePendingURL(s.url)) || (NotDuplicate(c, id) && WarmUpAdds(s.url, c, e))
  {
    match e {
      case LookedUp(i) =>
      case RemovePendingURL(u) =>
      case Blacklisted(ip) =>
      case Slept(d) =>
      case FetchedDetail(u, agent) =>
      case Persisted(r) =>
    }
  }

  /** Rows are committed exactly when AddPropertyRecordToDB succeeds, and
      they are the statements the parsed record's log issues. */
  lemma ProcessSaves(s: JobState, c: Collaborators)
    requires 0 <= c.backoffDraw < 90
    ensures ProcessSpec(s, c).saved == if Commits(s, c) then InsertLog(DetailRecord(c), c.faults.ids) else []
  {
    if LookedUpID(s).Some? {
      LookupStep(s, c, LookedUpID(s).value);
    }
  }

  /** The job panics exactly when the warm-up request fails without a
      response and blacklisting the proxy succeeds: it then reads the
      status of a nil response. An error that comes with a response goes on
      to the status check. */
  lemma ProcessCrashes(s: JobState, c: Collaborators)
    requires 0 <= c.backoffDraw < 90
    ensures ProcessSpec(s, c).crashed <==>
      LookupPasses(s, c) && Equipped(c) && c.warmUp.WarmUpFailed? && c.blacklistErr.None?
  {
    if LookedUpID(s).Some? {
      LookupStep(s, c, LookedUpID(s).value);
    }
  }

  /** What Process leaves in the job: the URL is never changed, the proxy
      and user agent are replaced once the lookup passes (by the zero Proxy
      and "" when getting them fails), and the record is replaced by the
      parsed page once the detail body is read. */
  lemma ProcessFinalState(s: JobState, c: Collaborators)
    requires 0 <= c.backoffDraw < 90
    ensures ProcessSpec(s, c).state.url == s.url
    ensures ProcessSpec(s, c).state.record == if ReachesSave(s, c) then DetailRecord(c) else s.record
    ensures ProcessSpec(s, c).state.proxy == if LookupPasses(s, c) then ProxyAfter(c) else s.proxy
    ensures ProcessSpec(s, c).state.userAgent == if LookupPasses(s, c) && c.proxyErr.None? then AgentAfter(c) else s.userAgent
  {
    if LookedUpID(s).Some? {
      LookupStep(s, c, LookedUpID(s).value);
    }
  }

  /** The error Process leaves, step by step: unchanged without an id; the
      lookup's own error or "duplicate ID" when it stops there; then the
      proxy's, the user agent's, the blacklisting's, the warm-up status, the
      request's and the body's; and after a save, the store's error, the
      removal's error or "No Errors". */
  lemma ProcessErrors(s: JobState, c: Collaborators)
    requires 0 <= c.backoffDraw < 90
    ensures s.record.propertyID == "" ==> ProcessSpec(s, c).state.error == s.error
    ensures StopsAtLookup(s, c) ==>
      (var f := GetPropertyByID(c.db, LookedUpID(s).value);
       ProcessSpec(s, c).state.error == Some(Message(if f.LookupFailed? && f.message != NoRows then f.message else "duplicate ID")))
    ensures LookupPasses(s, c) && c.proxyErr.Some? ==> ProcessSpec(s, c).state.error == MessageOf(c.proxyErr)
    ensures LookupPasses(s, c) && c.proxyErr.None? && c.agentErr.Some? ==> ProcessSpec(s, c).state.error == MessageOf(c.agentErr)
    ensures LookupPasses(s, c) && Equipped(c) && WarmUpErred(c) && !StatusChecked(c) ==>
      ProcessSpec(s, c).state.error == MessageOf(c.blacklistErr)
    ensures LookupPasses(s, c) && Equipped(c) && StatusChecked(c) && !WarmUpAccepted(c) ==>
      ProcessSpec(s, c).state.error == Some(Message(c.warmUp.status))
    ensures LookupPasses(s, c) && Equipped(c) && WarmUpAccepted(c) && c.requestErr.Some? ==>
      ProcessSpec(s, c).state.error == MessageOf(c.requestErr)
    ensures LookupPasses(s, c) && Equipped(c) && WarmUpAccepted(c) && c.requestErr.None? && !c.detail.Body? ==>
      ProcessSpec(s, c).state.error == Some(Message(c.detail.message))
    ensures ReachesSave(s, c) ==> ProcessSpec(s, c).state.error == SaveError(DetailRecord(c), c)
  {
    if LookedUpID(s).Some? {
      var id := LookedUpID(s).value;
      LookupStep(s, c, id);
      if NotDuplicate(c, id) {
        var s1 := s.(error := LookupError(c, id));
        WarmUpErrors(s1, c, [LookedUp(id)]);
      }
    }
  }

  /** After an error from the warm-up request the job sleeps 10 + draw milliseconds, so
      between 10 and 99 milliseconds. */
  lemma BackoffWithinRange(s: JobState, c: Collaborators, d: Timeout)
    requires 0 <= c.backoffDraw < 90
    requires Happens(s, c, Slept(d))
    ensures d == Duration((10 + c.backoffDraw) * Millisecond)
    ensures 10 * Millisecond <= d.nanos <= 99 * Millisecond
  {
    TimeoutWithinRange(10, 100, c.backoffDraw);
  }

  /** With rows keyed by their own id and a query that does not fail, the
      job is a duplicate exactly when a row with its id is stored, or when
      its id is 0 (the zero row ErrNoRows comes with has id 0); a duplicate
      only looks up and removes its URL. */
  lemma DuplicateByID(s: JobState, c: Collaborators, id: int32)
    requires 0 <= c.backoffDraw < 90
    requires LookedUpID(s) == Some(id)
    requires c.db.failure.None?
    requires forall k :: k in c.db.rows ==> c.db.rows[k].id == k
    ensures StopsAtLookup(s, c) <==> id in c.db.rows || id == 0
    ensures StopsAtLookup(s, c) ==>
      ProcessSpec(s, c) == Outcome(s.(error := Some(Message("duplicate ID"))), [LookedUp(id), RemovePendingURL(s.url)], false, [])
  {
  }

  /** PropertyExists and Process judge a stored row differently: a row
      with id 5 and no address is "not found" for PropertyExists, while a
      job for id 5 stops at the lookup as a duplicate. */
  lemma ExistsAndDedupDisagree(s: JobState, c: Collaborators)
    requires 0 <= c.backoffDraw < 90
    requires s.record.propertyID == "5"
    requires c.db == PropertyTable(map[5 := Pgdb.NoProperty.(id := 5)], None)
    ensures PropertyExists(Some(c.db), "prop_id=5") == Existence(false, None)
    ensures LookedUpID(s) == Some(5) && StopsAtLookup(s, c)
  {
    SplitPropIDFive();
    TrimFive();
    AtoiFive();
  }

  /** The id text of "prop_id=5" reads as 5. */
  lemma SplitPropIDFive()
    ensures Split("prop_id=5", "prop_id=") == ["", "5"]
  {
    var url := "prop_id=5";
    assert OccursAt(url, "prop_id=", 0);
    assert Index("5", "prop_id=") == -1;
    assert url[8..] == "5";
  }

  lemma TrimFive()
    ensures TrimSpace("5") == "5"
  {
    assert TrimLeft("5") == "5" && TrimRight("5") == "5";
  }

  lemma AtoiFive()
    ensures Atoi("5") == Parsed(5)
  {
    assert "5" == FormatInt(5);
    AtoiFormatInt(5);
  }
}
