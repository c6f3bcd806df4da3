/**
  The `/v1/stats` handler (src/handlers/stats.rs). An admin may read every
  key's statistics or one chosen key's; a user only ever sees their own.
  Keys are shown masked.
 */
module Stats {
  import opened Prelude
  import opened Tracking
  import Auth

  const MASK: string := "***"
  const MISSING_CONTEXT_BODY: string := "Missing API key context"
  const NOT_FOUND_BODY: string := "No stats for that key"

  /** One key's statistics as the endpoint reports them; `avgLatencyMs` is `f64` in the source. */
  datatype KeyStatsResponse = KeyStatsResponse(
    apiKey: string,
    requestCount: nat,
    errorCount: nat,
    totalLatencyMs: nat,
    avgLatencyMs: real,
    totalPromptTokens: nat,
    totalCompletionTokens: nat,
    lastRequestTimestamp: nat,
    modelsUsed: map<string, nat>)

  /** The endpoint's answer: 401, 404, one record, or the list of every record. */
  datatype StatsReply =
    | Unauthorized(body: string)
    | NotFound(body: string)
    | One(row: KeyStatsResponse)
    | All(rows: seq<KeyStatsResponse>)

  /** `mask_key`: short keys are hidden entirely, longer ones keep four characters at each end. */
  function MaskKey(key: string): (r: string)
    ensures |key| <= 8 ==> r == MASK
    ensures |key| > 8 ==> |r| == 11 && r == key[..4] + MASK + key[|key| - 4..]
  {
    if |key| <= 8 then MASK else key[..4] + MASK + key[|key| - 4..]
  }

  /** Two long keys look alike once masked exactly when they share their first four and last four characters. */
  lemma MaskKeyCollisions(a: string, b: string)
    requires |a| > 8 && |b| > 8
    ensures MaskKey(a) == MaskKey(b) <==> a[..4] == b[..4] && a[|a| - 4..] == b[|b| - 4..]
  {
    if MaskKey(a) == MaskKey(b) {
      assert a[..4] == MaskKey(a)[..4] && b[..4] == MaskKey(b)[..4];
      assert a[|a| - 4..] == MaskKey(a)[7..] && b[|b| - 4..] == MaskKey(b)[7..];
    }
  }

  /** `total / count` as the mean latency, and 0 when nothing was counted. */
  function AverageLatency(totalLatencyMs: nat, requestCount: nat): (avg: real)
    ensures requestCount == 0 ==> avg == 0.0
    ensures requestCount > 0 ==> avg * requestCount as real == totalLatencyMs as real
    ensures avg >= 0.0
  {
    if requestCount > 0 then totalLatencyMs as real / requestCount as real else 0.0
  }

  /**
    `build_stats_response`: every counter and the per-model map copied
    unchanged, the key masked, and the mean latency derived from the totals.
   */
  function BuildStatsResponse(key: string, stats: KeyStats): (r: KeyStatsResponse)
    ensures r.apiKey == MaskKey(key)
    ensures r.requestCount == stats.requestCount && r.errorCount == stats.errorCount
    ensures r.totalLatencyMs == stats.totalLatencyMs
    ensures r.totalPromptTokens == stats.totalPromptTokens
    ensures r.totalCompletionTokens == stats.totalCompletionTokens
    ensures r.lastRequestTimestamp == stats.lastRequestMs
    ensures r.modelsUsed == stats.modelsUsed
    ensures r.avgLatencyMs == AverageLatency(stats.totalLatencyMs, stats.requestCount)
  {
    KeyStatsResponse(
      MaskKey(key),
      stats.requestCount,
      stats.errorCount,
      stats.totalLatencyMs,
      AverageLatency(stats.totalLatencyMs, stats.requestCount),
      stats.totalPromptTokens,
      stats.totalCompletionTokens,
      stats.lastRequestMs,
      stats.modelsUsed)
  }

  /** The record a user with no history yet receives. */
  function EmptyResponse(key: string): KeyStatsResponse {
    KeyStatsResponse(MaskKey(key), 0, 0, 0, 0.0, 0, 0, 0, map[])
  }

  /** A user with no history sees exactly what a fresh entry stamped at the epoch would show. */
  lemma EmptyResponseIsFreshEntry(key: string)
    ensures EmptyResponse(key) == BuildStatsResponse(key, NewKeyStats(0))
  {
  }

  /** `s` lists every key of `keys` exactly once. */
  ghost predicate Enumerates(s: seq<string>, keys: set<string>) {
    && (forall i, j :: 0 <= i < j < |s| ==> s[i] != s[j])
    && (forall i :: 0 <= i < |s| ==> s[i] in keys)
    && (forall k :: k in keys ==> k in s)
  }

  /**
    The admin's full listing: one record per tracked key, in the map's
    iteration order, which is returned as `order` (any order that lists each
    key once).
   */
  method ListAllStats(t: RequestTracker) returns (order: seq<string>, rows: seq<KeyStatsResponse>)
    ensures Enumerates(order, t.stats.Keys)
    ensures |order| == |t.stats.Keys| == |rows|
    ensures forall i :: 0 <= i < |rows| ==> order[i] in t.stats && rows[i] == BuildStatsResponse(order[i], t.stats[order[i]])
  {
    order, rows := [], [];
    var remaining := t.stats.Keys;
    while remaining != {}
      invariant remaining <= t.stats.Keys
      invariant forall i :: 0 <= i < |order| ==> order[i] in t.stats.Keys && order[i] !in remaining
      invariant forall k :: k in t.stats.Keys ==> k in remaining || k in order
      invariant forall i, j :: 0 <= i < j < |order| ==> order[i] != order[j]
      invariant |order| + |remaining| == |t.stats.Keys|
      invariant |rows| == |order|
      invariant forall i :: 0 <= i < |rows| ==> rows[i] == BuildStatsResponse(order[i], t.stats[order[i]])
      decreases remaining
    {
      var k :| k in remaining;
      order := order + [k];
      rows := rows + [BuildStatsResponse(k, t.stats[k])];
      remaining := remaining - {k};
    }
  }

  /** `rows` is built from `order`, one record per position, each from that key's entry. */
  ghost predicate RowsFollow(order: seq<string>, rows: seq<KeyStatsResponse>, t: RequestTracker) {
    && |order| == |rows|
    && forall i :: 0 <= i < |rows| ==> order[i] in t.stats && rows[i] == BuildStatsResponse(order[i], t.stats[order[i]])
  }

  /**
    `rows` holds a record for every tracked key, and nothing else, and is
    built from some enumeration of the keys, so each key contributes
    exactly one record.
   */
  ghost predicate ReportsEveryKey(rows: seq<KeyStatsResponse>, t: RequestTracker) {
    && |rows| == |t.stats.Keys|
    && (forall k :: k in t.stats ==> BuildStatsResponse(k, t.stats[k]) in rows)
    && (forall i :: 0 <= i < |rows| ==> exists k :: k in t.stats && rows[i] == BuildStatsResponse(k, t.stats[k]))
    && (exists order :: Enumerates(order, t.stats.Keys) && RowsFollow(order, rows, t))
  }

  /** A listing in the shape `ListAllStats` returns holds one record per key, and only such records. */
  lemma ListingCoversKeys(t: RequestTracker, order: seq<string>, rows: seq<KeyStatsResponse>)
    requires Enumerates(order, t.stats.Keys) && |order| == |rows| == |t.stats.Keys|
    requires forall i :: 0 <= i < |rows| ==> order[i] in t.stats && rows[i] == BuildStatsResponse(order[i], t.stats[order[i]])
    ensures ReportsEveryKey(rows, t)
  {
    forall k | k in t.stats
      ensures BuildStatsResponse(k, t.stats[k]) in rows
    {
      var i :| 0 <= i < |order| && order[i] == k;
      assert rows[i] == BuildStatsResponse(k, t.stats[k]);
    }
    assert RowsFollow(order, rows, t);
  }

  /**
    `get_stats`: 401 without a validated key; an admin asking for one key
    gets its record or 404, an admin asking for nothing gets every record;
    a user's query is ignored and they get their own record, or an all-zero
    one, never 404.
   */
  method GetStats(validated: Option<Auth.ValidatedApiKey>, query: Option<string>, t: RequestTracker)
    returns (reply: StatsReply)
    ensures validated.None? <==> reply.Unauthorized?
    ensures reply.Unauthorized? ==> reply.body == MISSING_CONTEXT_BODY
    ensures validated.Some? && validated.value.role == Auth.Admin && query.Some? ==>
              if query.value in t.stats then reply == One(BuildStatsResponse(query.value, t.stats[query.value]))
              else reply == NotFound(NOT_FOUND_BODY)
    ensures validated.Some? && validated.value.role == Auth.Admin && query.None? ==>
              reply.All? && ReportsEveryKey(reply.rows, t)
    ensures validated.Some? && validated.value.role == Auth.User ==>
              var key := validated.value.key;
              reply == One(if key in t.stats then BuildStatsResponse(key, t.stats[key]) else EmptyResponse(key))
  {
    if validated.None? {
      reply := Unauthorized(MISSING_CONTEXT_BODY);
    } else if validated.value.role == Auth.Admin {
      match query {
        case Some(target) =>
          match Tracking.GetStats(t, target) {
            case Some(stats) => reply := One(BuildStatsResponse(target, stats));
            case None => reply := NotFound(NOT_FOUND_BODY);
          }
        case None =>
          var order, rows := ListAllStats(t);
          ListingCoversKeys(t, order, rows);
          reply := All(rows);
      }
    } else {
      var key := validated.value.key;
      match Tracking.GetStats(t, key) {
        case Some(stats) => reply := One(BuildStatsResponse(key, stats));
        case None => reply := One(EmptyResponse(key));
      }
    }
  }
}
