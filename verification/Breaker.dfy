/** The bootstrap circuit breaker: a rate limiter whose whole memory is two columns of the
    pool's runtime row, and the arithmetic bound it enforces across failures and restarts. */
module Breaker {
  import opened Arithmetic
  import opened Lifecycle
  import opened InstanceStore

  /** `bootstrap_attempts` and `bootstrap_retry_at`. */
  datatype Row = Row(attempts: nat, retryAt: Time)

  datatype Reservation = Reservation(count: nat, probe: bool, state: Row)

  /** The reservation made from a row. A closed circuit hands out attempts up to the limit;
      at the limit a due retry time yields one probe, and a missing one is set first. */
  function Reserve(row: Row, wanted: nat, limit: nat, now: Time, retryAt: Time): Reservation {
    if row.attempts >= limit then
      if row.retryAt != 0 && now < row.retryAt then Reservation(0, false, row)
      else if row.retryAt == 0 then Reservation(0, false, Row(row.attempts, retryAt))
      else Reservation(1, true, Row(row.attempts, retryAt))
    else
      var count: nat := Min(wanted, limit - row.attempts);
      Reservation(count, false, Row(row.attempts + count, row.retryAt))
  }

  /** A reservation never hands out more than was asked for, and none at all while the circuit
      is open and its retry time lies ahead. It charges what it hands out, but for a probe, and
      at the limit it sets a retry time that is missing or due. */
  lemma ReserveBounds(row: Row, wanted: nat, limit: nat, now: Time, retryAt: Time)
    requires wanted >= 1 && limit >= 1 && row.attempts <= limit
    ensures var r := Reserve(row, wanted, limit, now, retryAt);
            && r.count <= wanted
            && r.state.attempts <= limit
            && (r.count == 0 <==> row.attempts == limit && (row.retryAt == 0 || now < row.retryAt))
            && (r.probe <==> row.attempts == limit && row.retryAt != 0 && row.retryAt <= now)
            && (r.probe ==> r.count == 1)
            && (row.attempts < limit ==> r.count == Min(wanted, limit - row.attempts))
            && r.state.attempts == row.attempts + (if r.probe then 0 else r.count)
            && (row.attempts == limit && (row.retryAt == 0 || row.retryAt <= now) ==> r.state.retryAt == retryAt)
            && (row.attempts < limit || (row.retryAt != 0 && now < row.retryAt) ==> r.state.retryAt == row.retryAt)
  {}

  /** The row with what is remembered about it since the last reset.
      `granted` starts are reserved and not yet made, `starts` were made, `probes` counts the
      probes reserved, and `openAt` is when the retry time was first set. */
  datatype History = History(row: Row, granted: nat, starts: nat, probes: nat, openAt: Option<Time>)

  const CLOSED := History(Row(0, 0), 0, 0, 0, None)

  datatype Limits = Limits(limit: nat, interval: Time)

  ghost predicate Sound(l: Limits) {
    l.limit >= 1 && l.interval > 0
  }

  function Reserved(h: History, l: Limits, wanted: nat, now: Time, fate: Fate): History {
    if fate == FailsBefore then h
    else
      var r := Reserve(h.row, wanted, l.limit, now, now + l.interval);
      h.(row := r.state,
         granted := if fate == Commits then r.count else 0,
         probes := h.probes + if r.probe then 1 else 0,
         openAt := if h.openAt == None && r.state.retryAt != 0 then Some(now) else h.openAt)
  }

  function Started(h: History): History
    requires h.granted > 0
  {
    h.(granted := h.granted - 1, starts := h.starts + 1)
  }

  function Abandoned(h: History): History {
    h.(granted := 0)
  }

  function Held(h: History, l: Limits, now: Time, fate: Fate): History {
    if fate == FailsBefore then h
    else h.(row := h.row.(retryAt := now + l.interval), openAt := if h.openAt == None then Some(now) else h.openAt)
  }

  function WasReset(h: History, fate: Fate): History {
    if fate == FailsBefore then h else CLOSED
  }

  ghost predicate Keeps(h: History, l: Limits, now: Time) {
    && h.row.attempts <= l.limit
    && (h.row.retryAt != 0 ==> h.row.attempts == l.limit)
    && h.starts + h.granted <= h.row.attempts + h.probes
    && (h.openAt.None? <==> h.row.retryAt == 0)
    && (h.openAt.None? ==> h.probes == 0)
    && (h.openAt.Some? ==>
          && h.openAt.value + h.probes * l.interval <= now
          && h.openAt.value + (h.probes + 1) * l.interval <= h.row.retryAt)
  }

  lemma ReservedKeeps(h: History, l: Limits, wanted: nat, now: Time, fate: Fate)
    requires Sound(l) && Keeps(h, l, now) && now > 0 && h.granted == 0 && wanted >= 1
    ensures Keeps(Reserved(h, l, wanted, now, fate), l, now)
  {
    var r := Reserve(h.row, wanted, l.limit, now, now + l.interval);
    ReserveBounds(h.row, wanted, l.limit, now, now + l.interval);
    if r.probe {
      assert (h.probes + 2) * l.interval == (h.probes + 1) * l.interval + l.interval;
    }
  }

  lemma HeldKeeps(h: History, l: Limits, now: Time, fate: Fate)
    requires Sound(l) && Keeps(h, l, now) && now > 0 && h.row.attempts == l.limit
    ensures Keeps(Held(h, l, now, fate), l, now)
  {
    assert (h.probes + 1) * l.interval == h.probes * l.interval + l.interval;
  }

  lemma StartedKeeps(h: History, l: Limits, now: Time)
    requires Keeps(h, l, now) && h.granted > 0
    ensures Keeps(Started(h), l, now)
  {}

  lemma LaterKeeps(h: History, l: Limits, now: Time, later: Time)
    requires Keeps(h, l, now) && now <= later
    ensures Keeps(h, l, later)
  {}

  /** The rate limit. Since the last reset a closed circuit has started at most `limit`
      provisions; once opened it adds at most one per full retry interval. */
  lemma RateLimit(h: History, l: Limits, now: Time)
    requires Sound(l) && Keeps(h, l, now)
    ensures h.openAt.None? ==> h.starts <= l.limit
    ensures h.openAt.Some? ==> now >= h.openAt.value
    ensures h.openAt.Some? ==> h.starts <= l.limit + (now - h.openAt.value) / l.interval
  {
    if h.openAt.Some? {
      QuotientAtLeast(now - h.openAt.value, l.interval, h.probes);
    }
  }

  lemma QuotientAtLeast(total: int, unit: int, n: nat)
    requires unit > 0 && n * unit <= total
    ensures n <= total / unit
  {
    var q := total / unit;
    assert total < q * unit + unit;
    TimesNext(q, unit);
    if n > q {
      TimesMonotone(q + 1, n, unit);
    }
  }
}
