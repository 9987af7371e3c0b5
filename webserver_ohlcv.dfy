/** The web server's open/high/low/close/volume buckets: every trade falls
    into the bucket of its period that ends at `end_period`, the last
    microsecond of the period the trade's timestamp lies in.  The first
    trade of a bucket opens it; later trades widen its range, close it at
    their price, and add their quantity to its volume. */
module Ohlcv {
  import opened Wrappers

  datatype Trade = Trade(contract: string, price: int, quantity: int, timestamp: int)

  datatype Bucket = Bucket(period: string, contract: string, open: int, low: int, high: int,
                           close: int, volume: int, vwap: int, timestamp: int)

  datatype OhlcvError = KeyError(key: string) | ZeroDivisionError | NoRecords(code: int, message: string)

  type History = map<string, map<string, map<int, Bucket>>>

  /** The length of a period in microseconds, for the three known periods. */
  function PeriodMicros(period: string): (pm: Option<nat>)
    ensures pm.Some? <==> period == "minute" || period == "hour" || period == "day"
    ensures pm.Some? ==> pm.value > 0 && pm.value % 60000000 == 0
  {
    if period == "minute" then Some(60 * 1000000)
    else if period == "hour" then Some(3600 * 1000000)
    else if period == "day" then Some(3600 * 24 * 1000000)
    else None
  }

  /** Python's `/` on integers, which rounds towards negative infinity. */
  function FloorDiv(a: int, b: int): (q: int)
    requires b != 0
    ensures b > 0 ==> q * b <= a < q * b + b
    ensures b < 0 ==> q * b >= a > q * b + b
  {
    if b > 0 then a / b else (-a) / (-b)
  }

  lemma MulMono(a: int, b: int, c: nat)
    requires a <= b
    ensures a * c <= b * c
  {
    var d := b - a;
    assert b * c == a * c + d * c;
  }

  /** A multiple of `m` leaves no remainder. */
  lemma ModOfMultiple(k: int, m: nat)
    requires m > 0
    ensures (k * m) % m == 0
  {
    var q := (k * m) / m;
    var r := (k * m) % m;
    var d := k - q;
    assert d * m == k * m - q * m;
    assert d * m == r;
    if d >= 1 {
      MulMono(1, d, m);
    } else if d <= -1 {
      MulMono(d, -1, m);
    }
  }

  /** `int(ts / pm) * pm + pm - 1`: the last microsecond of the period that
      holds `ts`. */
  function EndPeriod(ts: int, pm: nat): (e: int)
    requires pm > 0
    ensures e - pm < ts <= e
    ensures (e + 1) % pm == 0
  {
    var q := FloorDiv(ts, pm);
    assert q * pm + pm == (q + 1) * pm;
    ModOfMultiple(q + 1, pm);
    q * pm + pm - 1
  }

  /** The bucket key is the only period end within one period after `ts`. */
  lemma EndPeriodUnique(ts: int, e: int, pm: nat)
    requires pm > 0 && (e + 1) % pm == 0 && e - pm < ts <= e
    ensures e == EndPeriod(ts, pm)
  {
    var f := EndPeriod(ts, pm);
    var m := (e + 1) / pm;
    var n := (f + 1) / pm;
    assert e + 1 == m * pm;
    assert f + 1 == n * pm;
    if m < n {
      MulMono(m + 1, n, pm);
    } else if n < m {
      MulMono(n + 1, m, pm);
    }
  }

  /** The range invariant of a bucket: open and close lie within low..high. */
  predicate WellFormed(b: Bucket)
  {
    b.low <= b.open <= b.high && b.low <= b.close <= b.high
  }

  function Min(a: int, b: int): int { if a <= b then a else b }

  function Max(a: int, b: int): int { if a >= b then a else b }

  /** A new bucket: open, low, high, close and vwap are the trade's price,
      the volume is its quantity. */
  function Opened(t: Trade, period: string, end: int): (b: Bucket)
    ensures WellFormed(b) && b.timestamp == end && b.period == period && b.contract == t.contract
    ensures b.open == t.price && b.close == t.price && b.low == t.price && b.high == t.price
    ensures b.volume == t.quantity && b.vwap == t.price
  {
    Bucket(period, t.contract, t.price, t.price, t.price, t.price, t.quantity, t.price, end)
  }

  /** The first three updates of an existing bucket: the range widens to the
      price, and the close becomes the price. */
  function Widened(b: Bucket, price: int): (r: Bucket)
    ensures r.open == b.open && r.close == price && r.volume == b.volume && r.vwap == b.vwap
    ensures r.low <= b.low && r.low <= price && (r.low == b.low || r.low == price)
    ensures r.high >= b.high && r.high >= price && (r.high == b.high || r.high == price)
    ensures r.period == b.period && r.contract == b.contract && r.timestamp == b.timestamp
    ensures WellFormed(b) ==> WellFormed(r)
  {
    b.(low := Min(price, b.low), high := Max(price, b.high), close := price)
  }

  /** The whole update of an existing bucket by a further trade, when the
      new volume is not zero. */
  function Absorbed(b: Bucket, t: Trade): (r: Bucket)
    requires b.volume + t.quantity != 0
    ensures var w := Widened(b, t.price);
            r.open == w.open && r.low == w.low && r.high == w.high && r.close == w.close
    ensures r.volume == b.volume + t.quantity
    ensures r.period == b.period && r.contract == b.contract && r.timestamp == b.timestamp
    ensures WellFormed(b) ==> WellFormed(r)
  {
    var w := Widened(b, t.price);
    w.(vwap := FloorDiv(w.vwap * w.volume + t.quantity * t.price, w.volume + t.quantity),
       volume := w.volume + t.quantity)
  }

  /** A floored quotient lies between any bounds of the exact one. */
  lemma FloorDivWithin(num: int, d: nat, lo: int, hi: int)
    requires d > 0 && lo * d <= num <= hi * d
    ensures lo <= FloorDiv(num, d) <= hi
  {
    var q := FloorDiv(num, d);
    if q < lo {
      MulMono(q + 1, lo, d);
    }
    if q > hi {
      MulMono(hi + 1, q, d);
    }
  }

  /** `vwap * volume + quantity * price` lies between `lo` and `hi` times
      the new volume when both prices do. */
  lemma WeightedSumWithin(v: int, vol: nat, p: int, q: nat, lo: int, hi: int)
    requires lo <= v <= hi && lo <= p <= hi
    ensures lo * (vol + q) <= v * vol + q * p <= hi * (vol + q)
  {
    MulMono(lo, v, vol);
    MulMono(lo, p, q);
    MulMono(v, hi, vol);
    MulMono(p, hi, q);
    assert lo * (vol + q) == lo * vol + lo * q;
    assert hi * (vol + q) == hi * vol + hi * q;
    assert q * p == p * q;
  }

  /** With positive volumes, the floored volume-weighted average of a bucket
      whose average is within its range stays within the widened range. */
  lemma AbsorbedVwapInRange(b: Bucket, t: Trade)
    requires b.low <= b.vwap <= b.high && b.volume > 0 && t.quantity > 0
    ensures Absorbed(b, t).low <= Absorbed(b, t).vwap <= Absorbed(b, t).high
  {
    var w := Widened(b, t.price);
    WeightedSumWithin(w.vwap, w.volume, t.price, t.quantity, w.low, w.high);
    FloorDivWithin(w.vwap * w.volume + t.quantity * t.price, w.volume + t.quantity, w.low, w.high);
  }

  /** The buckets of `ticker` for `period`; a missing entry reads as empty. */
  function Buckets(h: History, ticker: string, period: string): map<int, Bucket>
  {
    if ticker in h && period in h[ticker] then h[ticker][period] else map[]
  }

  function Periods(h: History, ticker: string): map<string, map<int, Bucket>>
  {
    if ticker in h then h[ticker] else map[]
  }

  /** `h1` holds the bucket `[ticker][period][key]`, and differs from `h0`
      nowhere else. */
  ghost predicate ChangesOnly(h0: History, h1: History, ticker: string, period: string, key: int)
  {
    && ticker in h1 && period in h1[ticker] && key in h1[ticker][period]
    && h1 - {ticker} == h0 - {ticker}
    && h1[ticker] - {period} == Periods(h0, ticker) - {period}
    && h1[ticker][period] - {key} == Buckets(h0, ticker, period) - {key}
  }

  /** A bucket sits under its own contract, period and end timestamp, and
      is well formed. */
  ghost predicate Fits(ticker: string, period: string, key: int, b: Bucket)
  {
    && PeriodMicros(period).Some?
    && (key + 1) % PeriodMicros(period).value == 0
    && b.timestamp == key && b.period == period && b.contract == ticker
    && WellFormed(b)
  }

  /** `get_ohlcv_history`: the buckets of the period whose key lies between
      the start and one period after the end; an unknown period is a
      KeyError, and a period with no buckets in memory is refused. */
  function QueryHistory(h: History, ticker: string, period: string, start: int, end: int)
    : (r: Result<map<int, Bucket>, OhlcvError>)
    ensures PeriodMicros(period).None? ==> r == Err(KeyError(period))
    ensures PeriodMicros(period).Some? && period !in Periods(h, ticker) ==>
              r == Err(NoRecords(0, "No OHLCV records in memory"))
    ensures r.Ok? ==> PeriodMicros(period).Some? && period in Periods(h, ticker)
    ensures r.Ok? ==> forall k :: k in r.value <==>
              k in Buckets(h, ticker, period) && start <= k <= end + PeriodMicros(period).value
    ensures r.Ok? ==> forall k :: k in r.value ==> r.value[k] == Buckets(h, ticker, period)[k]
  {
    match PeriodMicros(period)
    case None => Err(KeyError(period))
    case Some(pm) =>
      if period !in Periods(h, ticker) then Err(NoRecords(0, "No OHLCV records in memory"))
      else
        var bs := Periods(h, ticker)[period];
        Ok(map k | k in bs && k <= end + pm && k >= start :: bs[k])
  }

  /** A query whose window holds a trade's timestamp returns that trade's
      bucket once the trade has been recorded. */
  lemma QueryFindsTrade(h: History, t: Trade, period: string, start: int, end: int)
    requires PeriodMicros(period).Some?
    requires EndPeriod(t.timestamp, PeriodMicros(period).value) in Buckets(h, t.contract, period)
    requires start <= t.timestamp <= end
    ensures QueryHistory(h, t.contract, period, start, end).Ok?
    ensures EndPeriod(t.timestamp, PeriodMicros(period).value) in QueryHistory(h, t.contract, period, start, end).value
  {
  }

  /** `ohlcv_history` of the server: ticker to period to end timestamp to
      bucket. */
  class OhlcvHistory {
    var history: History

    ghost predicate Valid()
      reads this
    {
      forall t, p, k :: t in history && p in history[t] && k in history[t][p] ==> Fits(t, p, k, history[t][p][k])
    }

    constructor ()
      ensures Valid() && history == map[]
    {
      history := map[];
    }

    /** `update_ohlcv`: record `trade` in its bucket of `period`.  Opening a
        bucket returns the bucket just before it for dispatch when
        `updateFeed` is set and that bucket exists.  A zero new volume
        raises after the range and close were updated. */
    method UpdateOhlcv(trade: Trade, period: string, updateFeed: bool) returns (r: Result<Option<Bucket>, OhlcvError>)
      requires Valid()
      modifies this
      ensures Valid()
      ensures PeriodMicros(period).None? ==> r == Err(KeyError(period)) && history == old(history)
      ensures PeriodMicros(period).Some? ==>
                var pm := PeriodMicros(period).value;
                var key := EndPeriod(trade.timestamp, pm);
                var before := Buckets(old(history), trade.contract, period);
                && ChangesOnly(old(history), history, trade.contract, period, key)
                && (key !in before ==>
                      && history[trade.contract][period][key] == Opened(trade, period, key)
                      && r == Ok(if updateFeed && key - pm in before then Some(before[key - pm]) else None))
                && (key in before && before[key].volume + trade.quantity == 0 ==>
                      && history[trade.contract][period][key] == Widened(before[key], trade.price)
                      && r == Err(ZeroDivisionError))
                && (key in before && before[key].volume + trade.quantity != 0 ==>
                      && history[trade.contract][period][key] == Absorbed(before[key], trade)
                      && r == Ok(None))
    {
      var pmo := PeriodMicros(period);
      if pmo.None? {
        return Err(KeyError(period));
      }
      var pm := pmo.value;
      var ticker := trade.contract;
      var periods := if ticker in history then history[ticker] else map[];
      var buckets := if period in periods then periods[period] else map[];
      var key := EndPeriod(trade.timestamp, pm);
      var bucket;
      if key !in buckets {
        var prior := key - pm;
        r := Ok(if updateFeed && prior in buckets then Some(buckets[prior]) else None);
        bucket := Opened(trade, period, key);
      } else {
        bucket := Widened(buckets[key], trade.price);
        if bucket.volume + trade.quantity == 0 {
          r := Err(ZeroDivisionError);
        } else {
          bucket := Absorbed(buckets[key], trade);
          r := Ok(None);
        }
      }
      history := history[ticker := periods[period := buckets[key := bucket]]];
    }
  }
}
