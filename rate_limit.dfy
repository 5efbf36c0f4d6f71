/**
 * The sliding-window rate limiter shared (as two copies) by the odds client
 * and the historical collector: a list of request times and a request
 * counter. Times are seconds as reals (Python's `time.time()` floats).
 */
module RateLimit {
  import opened Seqs

  const WindowSeconds: real := 60.0

  /** The timestamps still inside the one-minute window at `now`. */
  function Recent(ts: seq<real>, now: real): seq<real>
  {
    Filter(ts, t => now - t < WindowSeconds)
  }

  /** What the window keeps: exactly the times less than 60 seconds before `now`, in their order. */
  lemma RecentKeepsExactlyTheWindow(ts: seq<real>, now: real)
    ensures forall i :: 0 <= i < |Recent(ts, now)| ==> now - Recent(ts, now)[i] < WindowSeconds
    ensures forall i :: 0 <= i < |ts| && now - ts[i] < WindowSeconds ==> ts[i] in Recent(ts, now)
    ensures IsSubseq(Recent(ts, now), ts)
  {
    FilterIsSubseq(ts, t => now - t < WindowSeconds);
  }

  /** Pruning twice at the same time prunes nothing more. */
  lemma {:induction false} RecentIdempotent(ts: seq<real>, now: real)
    ensures Recent(Recent(ts, now), now) == Recent(ts, now)
    decreases |ts|
  {
    if ts != [] {
      var init, last := ts[..|ts| - 1], ts[|ts| - 1];
      RecentIdempotent(init, now);
      var r := Recent(ts, now);
      if now - last < WindowSeconds {
        assert r == Recent(init, now) + [last];
        assert r[..|r| - 1] == Recent(init, now);
      } else {
        assert r == Recent(init, now);
      }
    }
  }

  /** Pruning at an earlier time and then at a later one is pruning at the later one. */
  lemma {:induction false} RecentLater(ts: seq<real>, earlier: real, later: real)
    requires earlier <= later
    ensures Recent(Recent(ts, earlier), later) == Recent(ts, later)
    decreases |ts|
  {
    if ts != [] {
      var init, last := ts[..|ts| - 1], ts[|ts| - 1];
      RecentLater(init, earlier, later);
      var r := Recent(ts, earlier);
      if earlier - last < WindowSeconds {
        assert r == Recent(init, earlier) + [last];
        assert r[..|r| - 1] == Recent(init, earlier);
      } else {
        assert r == Recent(init, earlier);
      }
    }
  }

  class RateLimiter {
    const maxRequestsPerMinute: int
    var requestTimestamps: seq<real>
    var requestsMade: int

    /** Every tracked time was counted, and pruning only drops times. */
    predicate Valid()
      reads this
    {
      0 <= |requestTimestamps| <= requestsMade && maxRequestsPerMinute > 0
    }

    /** The odds client's limiter: 500 requests per minute. */
    constructor ForOddsApi()
      ensures maxRequestsPerMinute == 500 && requestTimestamps == [] && requestsMade == 0
      ensures Valid()
    {
      maxRequestsPerMinute := 500;
      requestTimestamps := [];
      requestsMade := 0;
    }

    /** The historical collector's limiter: 100 requests per minute. */
    constructor ForHistoricalApi()
      ensures maxRequestsPerMinute == 100 && requestTimestamps == [] && requestsMade == 0
      ensures Valid()
    {
      maxRequestsPerMinute := 100;
      requestTimestamps := [];
      requestsMade := 0;
    }

    /** `_check_rate_limit`: drop the times a minute old or older, then allow iff under the limit. */
    method CheckRateLimit(now: real) returns (allowed: bool)
      requires Valid()
      modifies this
      ensures Valid()
      ensures requestTimestamps == Recent(old(requestTimestamps), now)
      ensures requestsMade == old(requestsMade)
      ensures allowed <==> |requestTimestamps| < maxRequestsPerMinute
    {
      requestTimestamps := Recent(requestTimestamps, now);
      allowed := |requestTimestamps| < maxRequestsPerMinute;
    }

    /** `_track_request`: one more time in the window and one more request counted. */
    method TrackRequest(now: real)
      requires Valid()
      modifies this
      ensures Valid()
      ensures requestTimestamps == old(requestTimestamps) + [now]
      ensures requestsMade == old(requestsMade) + 1
    {
      requestTimestamps := requestTimestamps + [now];
      requestsMade := requestsMade + 1;
    }
  }

  /** The decision a check makes, as a function of the times it sees. */
  function Allows(limit: int, ts: seq<real>, now: real): bool
  {
    |Recent(ts, now)| < limit
  }

  /** A request tracked at `now` still counts against the limit at any time less than a minute later. */
  lemma TrackedRequestCounts(ts: seq<real>, now: real, later: real)
    requires now <= later < now + WindowSeconds
    ensures |Recent(ts + [now], later)| == |Recent(ts, later)| + 1
  {
    assert (ts + [now])[..|ts + [now]| - 1] == ts;
  }

  /** Checking again at the same time gives the same answer. */
  lemma CheckIsStable(limit: int, ts: seq<real>, now: real)
    ensures Allows(limit, Recent(ts, now), now) == Allows(limit, ts, now)
  {
    RecentIdempotent(ts, now);
  }
}
