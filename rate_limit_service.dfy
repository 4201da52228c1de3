/**
 * The daily limiter on requests by e-mail address: a count per address, a
 * threshold of five, and a reset that the daily job calls. Its callers are
 * not part of this model. The service object holds the counts in a field that its methods
 * update in place.
 */
module RateLimitService {

  /** The threshold: an address with this many requests today is limited. */
  const MaxDailyRequests: int := 5

  /** The count recorded for `user`, an address never seen counting as 0. */
  function Count(counts: map<string, int>, user: string): int {
    if user in counts then counts[user] else 0
  }

  /** Whether `user` is limited under `counts`. */
  predicate Limited(counts: map<string, int>, user: string) {
    Count(counts, user) >= MaxDailyRequests
  }

  /** The counts after one request by `user`. */
  function Increment(counts: map<string, int>, user: string): (r: map<string, int>)
    ensures Count(r, user) == Count(counts, user) + 1
    ensures forall v :: v != user ==> Count(r, v) == Count(counts, v)
    ensures r.Keys == counts.Keys + {user}
  {
    counts[user := Count(counts, user) + 1]
  }

  /** The counts after `n` requests by `user`. */
  function IncrementTimes(counts: map<string, int>, user: string, n: nat): map<string, int> {
    if n == 0 then counts else Increment(IncrementTimes(counts, user, n - 1), user)
  }

  /** `n` requests by `user` raise its count by exactly `n` and leave every other count alone. */
  lemma {:induction false} CountAfterIncrements(counts: map<string, int>, user: string, n: nat)
    ensures Count(IncrementTimes(counts, user, n), user) == Count(counts, user) + n
    ensures forall v :: v != user ==> Count(IncrementTimes(counts, user, n), v) == Count(counts, v)
  {
    if n > 0 {
      CountAfterIncrements(counts, user, n - 1);
    }
  }

  /**
   * After a reset, an address is limited exactly once it has made five
   * requests: the first five requests are let through, the sixth is not.
   */
  lemma LimitedFromTheFifthRequest(user: string, n: nat)
    ensures Limited(IncrementTimes(map[], user, n), user) <==> n >= 5
  {
    CountAfterIncrements(map[], user, n);
  }

  /** A request never lowers any address's count. */
  lemma IncrementIsMonotonic(counts: map<string, int>, user: string, v: string)
    ensures Count(Increment(counts, user), v) >= Count(counts, v)
  {
  }

  /** The increment does not consult the limit: counts go on past five. */
  lemma CountsExceedTheLimit(user: string)
    ensures Count(IncrementTimes(map[], user, 7), user) == 7
  {
    CountAfterIncrements(map[], user, 7);
  }

  /** Every recorded count comes from at least one request. */
  ghost predicate CountsPositive(counts: map<string, int>) {
    forall u :: u in counts ==> counts[u] >= 1
  }

  /**
   * With positive counts, an address is recorded exactly when it has made a
   * request since the last reset: absence from the map and a count of 0 are
   * the same thing.
   */
  lemma RecordedIffCounted(counts: map<string, int>, u: string)
    requires CountsPositive(counts)
    ensures u in counts <==> Count(counts, u) >= 1
  {
  }

  /** A request keeps the counts positive. */
  lemma IncrementKeepsCountsPositive(counts: map<string, int>, user: string)
    requires CountsPositive(counts)
    ensures CountsPositive(Increment(counts, user))
  {
  }

  class RateLimiter {
    var requestCounts: map<string, int>

    /** Every recorded count comes from at least one request. */
    ghost predicate Valid()
      reads this
    {
      CountsPositive(requestCounts)
    }

    constructor ()
      ensures Valid() && requestCounts == map[]
    {
      requestCounts := map[];
    }

    /** `isRateLimitRequest`: a read-only query of the address's count against the threshold. */
    method IsRateLimitRequest(userEmail: string) returns (limited: bool)
      ensures limited <==> Count(requestCounts, userEmail) >= MaxDailyRequests
      ensures limited == Limited(requestCounts, userEmail)
    {
      var requests := if userEmail in requestCounts then requestCounts[userEmail] else 0;
      limited := requests >= MaxDailyRequests;
    }

    /** `incrementRequestCount`: one more request by the address, no limit checked. */
    method IncrementRequestCount(userEmail: string)
      requires Valid()
      modifies this
      ensures Valid()
      ensures requestCounts == Increment(old(requestCounts), userEmail)
    {
      var current := if userEmail in requestCounts then requestCounts[userEmail] else 0;
      requestCounts := requestCounts[userEmail := current + 1];
    }

    /** `resetDailyLimits`: forget every count, so that nobody is limited. */
    method ResetDailyLimits()
      modifies this
      ensures Valid()
      ensures requestCounts == map[]
      ensures forall u :: !Limited(requestCounts, u)
    {
      requestCounts := map[];
    }
  }
}
