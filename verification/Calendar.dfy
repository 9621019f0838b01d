/**
  Trading sessions of one market, in order, queried by bisection.
  (src/stock_agent/market/calendar.py.)
 */
module Calendar {
  import opened Common

  datatype TradingCalendar = TradingCalendar(market: Market, sessions: seq<Date>)

  ghost predicate ValidCalendar(c: TradingCalendar) {
    StrictlyAscending(c.sessions)
  }

  /** Index of the first session at or after `v`, within [lo, hi]. */
  function BisectLeft(s: seq<Date>, v: Date, lo: nat, hi: nat): (i: nat)
    requires lo <= hi <= |s| && StrictlyAscending(s)
    requires forall k :: 0 <= k < lo ==> s[k] < v
    requires forall k :: hi <= k < |s| ==> v <= s[k]
    ensures i <= |s|
    ensures forall k :: 0 <= k < i ==> s[k] < v
    ensures forall k :: i <= k < |s| ==> v <= s[k]
    decreases hi - lo
  {
    if lo == hi then lo
    else
      var mid := (lo + hi) / 2;
      if s[mid] < v then BisectLeft(s, v, mid + 1, hi) else BisectLeft(s, v, lo, mid)
  }

  /** Index of the first session after `v`, within [lo, hi]. */
  function BisectRight(s: seq<Date>, v: Date, lo: nat, hi: nat): (i: nat)
    requires lo <= hi <= |s| && StrictlyAscending(s)
    requires forall k :: 0 <= k < lo ==> s[k] <= v
    requires forall k :: hi <= k < |s| ==> v < s[k]
    ensures i <= |s|
    ensures forall k :: 0 <= k < i ==> s[k] <= v
    ensures forall k :: i <= k < |s| ==> v < s[k]
    decreases hi - lo
  {
    if lo == hi then lo
    else
      var mid := (lo + hi) / 2;
      if v < s[mid] then BisectRight(s, v, lo, mid) else BisectRight(s, v, mid + 1, hi)
  }

  /** Listing dates twice is refused; otherwise the sessions are sorted. */
  function MakeCalendar(market: Market, dates: seq<Date>): (r: Option<TradingCalendar>)
    ensures r.Some? <==> Distinct(dates)
    ensures r.Some? ==> ValidCalendar(r.value) && forall d :: d in r.value.sessions <==> d in dates
  {
    if Distinct(dates) then Some(TradingCalendar(market, Sorted(set d | d in dates))) else None
  }

  function IsSession(c: TradingCalendar, d: Date): (r: bool)
    requires ValidCalendar(c)
    ensures r <==> d in c.sessions
  {
    var i := BisectLeft(c.sessions, d, 0, |c.sessions|);
    i < |c.sessions| && c.sessions[i] == d
  }

  /** The first session strictly after a date; none when the calendar ends. */
  function NextSession(c: TradingCalendar, after: Date): (r: Option<Date>)
    requires ValidCalendar(c)
    ensures r.None? ==> forall d :: d in c.sessions ==> d <= after
    ensures r.Some? ==> r.value in c.sessions && after < r.value
    ensures r.Some? ==> forall d :: d in c.sessions && after < d ==> r.value <= d
  {
    var i := BisectRight(c.sessions, after, 0, |c.sessions|);
    if i == |c.sessions| then None
    else
      var next := c.sessions[i];
      assert next in c.sessions;
      Some(next)
  }

  lemma {:induction false} NextListedSession(c: TradingCalendar, i: nat)
    requires ValidCalendar(c) && i + 1 < |c.sessions|
    ensures NextSession(c, c.sessions[i]) == Some(c.sessions[i + 1])
  {
    var d, e := c.sessions[i], c.sessions[i + 1];
    assert e in c.sessions && d < e;
    var next := NextSession(c, d).value;
    var k :| 0 <= k < |c.sessions| && c.sessions[k] == next;
    assert k > i;
  }
}
