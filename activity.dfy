/**
 * The activity routes of backend/src/routes/activity.ts: the global feed and
 * one user's feed, each cut to a `limit` query parameter.
 *
 * The query is modelled after `parseInt`: `None` stands for a missing or
 * unparsable value (JavaScript's NaN), `Some(n)` for the parsed integer.
 */
module ActivityRoutes {
  import opened Wrappers
  import opened Api
  import Ledger
  import Store

  const DefaultLimit: int := 20

  /** `parseInt(limit) || 20`: NaN and 0 are falsy and give the default; any other value, negative ones too, is kept. */
  function ParseLimit(query: Option<int>): (r: int)
    ensures r != 0
    ensures query.Some? && query.value != 0 ==> r == query.value
    ensures query.None? || query.value == 0 ==> r == DefaultLimit
  {
    match query
    case Some(n) => if n != 0 then n else DefaultLimit
    case None => DefaultLimit
  }

  /** GET /: the newest entries of the global feed, `slice(0, limit)`. */
  function GlobalFeed(store: Store.Storage, limitQuery: Option<int>): (r: Response<seq<Ledger.Activity>>)
    reads store
    ensures r.Ok?
    ensures |r.body| <= |store.activities| && r.body == store.activities[..|r.body|]
  {
    Ok(Ledger.SliceTo(store.activities, ParseLimit(limitQuery)))
  }

  /** GET /:address: the newest entries of the user's feed (address case ignored). */
  function UserFeed(store: Store.Storage, address: string, limitQuery: Option<int>): (r: Response<seq<Ledger.Activity>>)
    reads store
    ensures r.Ok?
    ensures forall a :: a in r.body ==> a in store.activities && Ledger.BelongsTo(a, address)
    ensures |r.body| <= |Ledger.OwnedBy(store.activities, address)|
    ensures r.body == Ledger.OwnedBy(store.activities, address)[..|r.body|]
    ensures ParseLimit(limitQuery) > 0 ==>
      |r.body| == Ledger.Min(ParseLimit(limitQuery), |Ledger.OwnedBy(store.activities, address)|)
    ensures ParseLimit(limitQuery) < 0 ==>
      |r.body| == Ledger.Max(|Ledger.OwnedBy(store.activities, address)| + ParseLimit(limitQuery), 0)
  {
    Ok(Ledger.UserActivities(store.State(), address, ParseLimit(limitQuery)))
  }

  /**
   * Without a usable limit both feeds return their twenty newest entries (or
   * all of them, when there are fewer).
   */
  lemma DefaultLimitIsTwenty(store: Store.Storage, address: string, limitQuery: Option<int>)
    requires limitQuery.None? || limitQuery.value == 0
    ensures |GlobalFeed(store, limitQuery).body| == Ledger.Min(20, |store.activities|)
    ensures |UserFeed(store, address, limitQuery).body| == Ledger.Min(20, |Ledger.OwnedBy(store.activities, address)|)
  {
  }

  /**
   * A positive limit returns exactly that many of the newest entries when the
   * feed has them, and a negative limit `-n` drops the `n` oldest entries
   * instead of returning none; the same holds for one user's feed.
   */
  lemma LimitCounts(store: Store.Storage, address: string, n: int)
    requires n != 0
    ensures n > 0 ==> |GlobalFeed(store, Some(n)).body| == Ledger.Min(n, |store.activities|)
    ensures n < 0 ==> |GlobalFeed(store, Some(n)).body| == Ledger.Max(|store.activities| + n, 0)
    ensures n > 0 ==> |UserFeed(store, address, Some(n)).body| == Ledger.Min(n, |Ledger.OwnedBy(store.activities, address)|)
    ensures n < 0 ==> |UserFeed(store, address, Some(n)).body| == Ledger.Max(|Ledger.OwnedBy(store.activities, address)| + n, 0)
  {
  }
}
