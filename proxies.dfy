/** The proxy registry (proxies/proxy.go): a table of proxies keyed by IP,
    each with its use count, the time it was last handed out and whether it
    was found to be bad. GetValidProxy's choice, the clock and the outcome
    of each SQL statement are supplied by the caller. */
module Proxies {
  import opened GoStrconv
  import opened Sql
  import opened Wrappers

  /** time.Time: the zero value, or an instant as its printed form. */
  datatype Time = ZeroTime | At(printed: string)

  /** proxies.Proxy, handed to a job. */
  datatype Proxy = Proxy(ip: string, lastUsed: Time, uses: int, isBad: bool)

  /** proxies.Proxy{}. */
  const EmptyProxy := Proxy("", ZeroTime, 0, false)

  /** A row of the proxies table. */
  datatype ProxyRow = ProxyRow(ip: string, lastUsed: NullString, uses: NullInt32, isBad: bool)

  /** What GetValidProxy returned: a row, or the query's error. */
  datatype Selection = Selected(row: ProxyRow) | SelectFailed(message: string)

  /** The use count GetNext reads from a row: NULL counts as 0. */
  function UsesOf(row: ProxyRow): (n: int32)
    ensures !row.uses.valid ==> n == 0
    ensures row.uses.valid ==> n == row.uses.value
  {
    if row.uses.valid then row.uses.value else 0
  }

  /** The registry after UpdateProxyLastUsedTime succeeds for `ip`: that row
      records one more use, as int32(uses+1), and the new time; there is no
      row to update when `ip` is not registered. */
  function Touched(rows: map<string, ProxyRow>, ip: string, uses: int, now: string): (r: map<string, ProxyRow>)
    ensures r.Keys == rows.Keys
    ensures forall other :: other in rows && other != ip ==> r[other] == rows[other]
    ensures ip in rows ==> r[ip] == rows[ip].(uses := NullInt32(Wrap32(uses + 1), true), lastUsed := NullString(now, true))
  {
    if ip in rows then
      rows[ip := rows[ip].(uses := NullInt32(Wrap32(uses + 1), true), lastUsed := NullString(now, true))]
    else rows
  }

  /** The registry after `update proxies set is_bad = true where ip = ?`. */
  function MarkedBad(rows: map<string, ProxyRow>, ip: string): (r: map<string, ProxyRow>)
    ensures r.Keys == rows.Keys
    ensures forall other :: other in rows && other != ip ==> r[other] == rows[other]
    ensures ip in rows ==> r[ip] == rows[ip].(isBad := true)
  {
    if ip in rows then rows[ip := rows[ip].(isBad := true)] else rows
  }

  /** Marking a proxy bad twice is marking it once. */
  lemma MarkedBadIdempotent(rows: map<string, ProxyRow>, ip: string)
    ensures MarkedBad(MarkedBad(rows, ip), ip) == MarkedBad(rows, ip)
  {
  }

  /** Handing out a registered proxy whose row the selection returned raises
      its stored count by one (modulo 2^32), a NULL count becoming 1, and
      leaves its bad flag alone. */
  lemma TouchCountsOneUse(rows: map<string, ProxyRow>, row: ProxyRow, now: string)
    requires row.ip in rows && rows[row.ip] == row
    ensures var r := Touched(rows, row.ip, UsesOf(row) as int, now);
      && r[row.ip].uses.valid
      && (r[row.ip].uses.value as int - (if row.uses.valid then row.uses.value as int else 0) - 1) % 0x1_0000_0000 == 0
      && (!row.uses.valid ==> r[row.ip].uses.value == 1)
      && r[row.ip].isBad == row.isBad
  {
  }

  class ProxyClient {
    /** The proxies table, one row per IP. */
    var rows: map<string, ProxyRow>

    constructor(rows: map<string, ProxyRow>)
      ensures this.rows == rows
    {
      this.rows := rows;
    }

    /** GetNext: the selected proxy with its use count before this use, a
        zero LastUsed and IsBad false, after recording the use; an empty
        Proxy and the error when the selection fails, has no IP, or the
        update fails. */
    method GetNext(selection: Selection, now: string, updateErr: Option<string>) returns (proxy: Proxy, err: Option<string>)
      modifies this
      ensures selection.SelectFailed? ==>
        proxy == EmptyProxy && err == Some(selection.message) && rows == old(rows)
      ensures selection.Selected? && selection.row.ip == "" ==>
        proxy == EmptyProxy && err == Some("no proxy ip found") && rows == old(rows)
      ensures selection.Selected? && selection.row.ip != "" && updateErr.Some? ==>
        proxy == EmptyProxy && err == updateErr && rows == old(rows)
      ensures selection.Selected? && selection.row.ip != "" && updateErr.None? ==>
        && proxy == Proxy(selection.row.ip, ZeroTime, UsesOf(selection.row) as int, false)
        && err == None
        && rows == Touched(old(rows), selection.row.ip, UsesOf(selection.row) as int, now)
    {
      if selection.SelectFailed? {
        return EmptyProxy, Some(selection.message);
      }
      var proxyRow := selection.row;
      if proxyRow.ip == "" {
        return EmptyProxy, Some("no proxy ip found");
      }
      var uses: int32 := 0;
      if proxyRow.uses.valid {
        uses := proxyRow.uses.value;
      }
      proxy := Proxy(proxyRow.ip, ZeroTime, uses as int, false);
      var e := UpdateLastUsed(proxy, now, updateErr);
      if e.Some? {
        return EmptyProxy, e;
      }
      err := None;
    }

    /** UpdateLastUsed: refuses a proxy without an IP; otherwise the row of
        that IP records uses+1 and `now`, unless the statement fails. */
    method UpdateLastUsed(proxy: Proxy, now: string, updateErr: Option<string>) returns (err: Option<string>)
      modifies this
      ensures proxy.ip == "" ==> err == Some("no IP provided") && rows == old(rows)
      ensures proxy.ip != "" && updateErr.Some? ==> err == updateErr && rows == old(rows)
      ensures proxy.ip != "" && updateErr.None? ==>
        err == None && rows == Touched(old(rows), proxy.ip, proxy.uses, now)
    {
      if proxy.ip == "" {
        return Some("no IP provided");
      }
      if updateErr.Some? {
        return updateErr;
      }
      rows := Touched(rows, proxy.ip, proxy.uses, now);
      err := None;
    }

    /** MarkProxyAsBad: flags the row of that IP, unless preparing or
        executing the statement fails. */
    method MarkProxyAsBad(proxyIP: string, execErr: Option<string>) returns (err: Option<string>)
      modifies this
      ensures err == execErr
      ensures execErr.Some? ==> rows == old(rows)
      ensures execErr.None? ==> rows == MarkedBad(old(rows), proxyIP)
    {
      if execErr.Some? {
        return execErr;
      }
      rows := MarkedBad(rows, proxyIP);
      err := None;
    }
  }
}
