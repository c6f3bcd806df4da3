/**
  Per-API-key usage statistics (src/tracking/mod.rs). The tracker is a map
  from key to counters; the request-tracking middleware calls
  `RecordRequest` after every answered request and the chat handler calls
  `RecordTokens` after every completion. The wall clock is the `nowMs`
  parameter (milliseconds since the Unix epoch).
 */
module Tracking {
  import opened Prelude

  /** Counters kept for one API key. `modelsUsed` maps a model name to the number of completions it served. */
  datatype KeyStats = KeyStats(
    requestCount: nat,
    errorCount: nat,
    totalLatencyMs: nat,
    totalPromptTokens: nat,
    totalCompletionTokens: nat,
    modelsUsed: map<string, nat>,
    lastRequestMs: nat)

  datatype RequestTracker = RequestTracker(stats: map<string, KeyStats>)

  /** How often `model` has been recorded in `models` (absent means never). */
  function ModelCount(models: map<string, nat>, model: string): nat {
    if model in models then models[model] else 0
  }

  /** The counts of the models in `keys`, summed. */
  ghost function SumOver(models: map<string, nat>, keys: set<string>): nat
    decreases keys
  {
    if keys == {} then 0
    else
      var k :| k in keys;
      ModelCount(models, k) + SumOver(models, keys - {k})
  }

  /** The sum of all per-model counts. */
  ghost function SumCounts(models: map<string, nat>): nat {
    SumOver(models, models.Keys)
  }

  /** The sum can be split at any key, whichever key its definition happens to pick. */
  lemma {:induction false} SumOverRemove(models: map<string, nat>, keys: set<string>, m: string)
    requires m in keys
    ensures SumOver(models, keys) == ModelCount(models, m) + SumOver(models, keys - {m})
    decreases keys
  {
    var j :| j in keys && SumOver(models, keys) == ModelCount(models, j) + SumOver(models, keys - {j});
    if j != m {
      SumOverRemove(models, keys - {j}, m);
      SumOverRemove(models, keys - {m}, j);
      assert keys - {j} - {m} == keys - {m} - {j};
    }
  }

  /** Changing a count outside `keys` leaves their sum alone. */
  lemma {:induction false} SumOverFrame(models: map<string, nat>, keys: set<string>, k: string, v: nat)
    requires k !in keys
    ensures SumOver(models[k := v], keys) == SumOver(models, keys)
    decreases keys
  {
    if keys != {} {
      var j :| j in keys;
      SumOverRemove(models, keys, j);
      SumOverRemove(models[k := v], keys, j);
      SumOverFrame(models, keys - {j}, k, v);
    }
  }

  /** Bumping one model's count by one bumps the sum by one. */
  lemma SumCountsIncrement(models: map<string, nat>, model: string)
    ensures SumCounts(models[model := ModelCount(models, model) + 1]) == SumCounts(models) + 1
  {
    var updated := models[model := ModelCount(models, model) + 1];
    SumOverRemove(updated, updated.Keys, model);
    SumOverFrame(models, updated.Keys - {model}, model, ModelCount(models, model) + 1);
    if model in models {
      SumOverRemove(models, models.Keys, model);
      assert updated.Keys - {model} == models.Keys - {model};
    } else {
      assert updated.Keys - {model} == models.Keys;
    }
  }

  /** The counters of one key never contradict each other. */
  predicate EntryWellFormed(s: KeyStats) {
    && s.errorCount <= s.requestCount
    && forall m :: m in s.modelsUsed ==> s.modelsUsed[m] >= 1
  }

  /** Every entry of the tracker is well formed. */
  predicate WellFormed(t: RequestTracker) {
    forall k :: k in t.stats ==> EntryWellFormed(t.stats[k])
  }

  /** `KeyStats::new`: an all-zero entry with no models, stamped with the current time. */
  function NewKeyStats(nowMs: nat): (s: KeyStats)
    ensures EntryWellFormed(s)
    ensures s.requestCount == 0 && s.errorCount == 0 && s.totalLatencyMs == 0
    ensures s.totalPromptTokens == 0 && s.totalCompletionTokens == 0
    ensures s.modelsUsed == map[] && s.lastRequestMs == nowMs
  {
    KeyStats(0, 0, 0, 0, 0, map[], nowMs)
  }

  /** `RequestTracker::new`: nothing is tracked yet. */
  function NewTracker(): (t: RequestTracker)
    ensures WellFormed(t) && |t.stats| == 0
  {
    RequestTracker(map[])
  }

  /** The entry for `apiKey`, created fresh when the key has never been seen (`entry(..).or_insert_with(KeyStats::new)`). */
  function EntryOf(t: RequestTracker, apiKey: string, nowMs: nat): (s: KeyStats)
    ensures apiKey in t.stats ==> s == t.stats[apiKey]
    ensures apiKey !in t.stats ==>
              && s.requestCount == 0 && s.errorCount == 0 && s.totalLatencyMs == 0
              && s.totalPromptTokens == 0 && s.totalCompletionTokens == 0
              && s.modelsUsed == map[] && s.lastRequestMs == nowMs
  {
    if apiKey in t.stats then t.stats[apiKey] else NewKeyStats(nowMs)
  }

  /** The entry update of `record_request`. */
  function CountRequest(s: KeyStats, latencyMs: nat, isError: bool, nowMs: nat): KeyStats {
    s.(requestCount := s.requestCount + 1,
       totalLatencyMs := s.totalLatencyMs + latencyMs,
       lastRequestMs := nowMs,
       errorCount := if isError then s.errorCount + 1 else s.errorCount)
  }

  /** The entry update of `record_tokens`. */
  function BookTokens(s: KeyStats, promptTokens: nat, completionTokens: nat, model: string): KeyStats {
    s.(totalPromptTokens := s.totalPromptTokens + promptTokens,
       totalCompletionTokens := s.totalCompletionTokens + completionTokens,
       modelsUsed := s.modelsUsed[model := ModelCount(s.modelsUsed, model) + 1])
  }

  /**
    `record_request`: one more request for `apiKey`, its latency added, one
    more error exactly when `isError`, the time stamp refreshed; no other key
    and no token counter changes.
   */
  function RecordRequest(t: RequestTracker, apiKey: string, latencyMs: nat, isError: bool, nowMs: nat)
    : (t': RequestTracker)
    ensures t'.stats.Keys == t.stats.Keys + {apiKey}
    ensures forall k :: k in t.stats && k != apiKey ==> t'.stats[k] == t.stats[k]
    ensures apiKey !in t.stats ==>
              t'.stats[apiKey] == KeyStats(1, if isError then 1 else 0, latencyMs, 0, 0, map[], nowMs)
    ensures apiKey in t.stats ==>
              var before, after := t.stats[apiKey], t'.stats[apiKey];
              && after.requestCount == before.requestCount + 1
              && after.totalLatencyMs == before.totalLatencyMs + latencyMs
              && (after.errorCount == before.errorCount + 1 <==> isError)
              && (after.errorCount == before.errorCount <==> !isError)
              && after.totalPromptTokens == before.totalPromptTokens
              && after.totalCompletionTokens == before.totalCompletionTokens
              && after.modelsUsed == before.modelsUsed
              && after.lastRequestMs == nowMs
    ensures WellFormed(t) ==> WellFormed(t')
  {
    RequestTracker(t.stats[apiKey := CountRequest(EntryOf(t, apiKey, nowMs), latencyMs, isError, nowMs)])
  }

  /**
    `record_tokens`: the prompt and completion tokens added to `apiKey`'s
    totals and one more completion counted for `model`; the request, error
    and latency counters, the time stamp and every other key are unchanged.
   */
  function RecordTokens(t: RequestTracker, apiKey: string, promptTokens: nat, completionTokens: nat,
                        model: string, nowMs: nat): (t': RequestTracker)
    ensures t'.stats.Keys == t.stats.Keys + {apiKey}
    ensures forall k :: k in t.stats && k != apiKey ==> t'.stats[k] == t.stats[k]
    ensures apiKey !in t.stats ==>
              t'.stats[apiKey] == KeyStats(0, 0, 0, promptTokens, completionTokens, map[model := 1], nowMs)
    ensures apiKey in t.stats ==>
              var before, after := t.stats[apiKey], t'.stats[apiKey];
              && after.requestCount == before.requestCount
              && after.errorCount == before.errorCount
              && after.totalLatencyMs == before.totalLatencyMs
              && after.lastRequestMs == before.lastRequestMs
              && after.totalPromptTokens == before.totalPromptTokens + promptTokens
              && after.totalCompletionTokens == before.totalCompletionTokens + completionTokens
              && after.modelsUsed.Keys == before.modelsUsed.Keys + {model}
              && ModelCount(after.modelsUsed, model) == ModelCount(before.modelsUsed, model) + 1
              && (forall m :: m in before.modelsUsed && m != model ==> after.modelsUsed[m] == before.modelsUsed[m])
    ensures WellFormed(t) ==> WellFormed(t')
  {
    RequestTracker(t.stats[apiKey := BookTokens(EntryOf(t, apiKey, nowMs), promptTokens, completionTokens, model)])
  }

  /** Each `record_tokens` call adds exactly one to the key's per-model counts taken together. */
  lemma RecordTokensCountsOneCall(t: RequestTracker, apiKey: string, promptTokens: nat, completionTokens: nat,
                                  model: string, nowMs: nat)
    ensures var after := RecordTokens(t, apiKey, promptTokens, completionTokens, model, nowMs).stats[apiKey];
            SumCounts(after.modelsUsed) == SumCounts(EntryOf(t, apiKey, nowMs).modelsUsed) + 1
  {
    SumCountsIncrement(EntryOf(t, apiKey, nowMs).modelsUsed, model);
  }

  /** The two entry updates touch disjoint fields, so their order does not matter. */
  lemma UpdatesCommute(s: KeyStats, latencyMs: nat, isError: bool,
                       promptTokens: nat, completionTokens: nat, model: string, nowMs: nat)
    ensures CountRequest(BookTokens(s, promptTokens, completionTokens, model), latencyMs, isError, nowMs)
         == BookTokens(CountRequest(s, latencyMs, isError, nowMs), promptTokens, completionTokens, model)
  {
  }

  /** Booking tokens and then recording a request applies both entry updates in that order. */
  lemma TokensThenRequest(t: RequestTracker, apiKey: string, latencyMs: nat, isError: bool,
                          promptTokens: nat, completionTokens: nat, model: string, nowMs: nat)
    ensures var s := EntryOf(t, apiKey, nowMs);
            RecordRequest(RecordTokens(t, apiKey, promptTokens, completionTokens, model, nowMs), apiKey, latencyMs, isError, nowMs)
            == RequestTracker(t.stats[apiKey := CountRequest(BookTokens(s, promptTokens, completionTokens, model), latencyMs, isError, nowMs)])
  {
    var t1 := RecordTokens(t, apiKey, promptTokens, completionTokens, model, nowMs);
    var after := CountRequest(BookTokens(EntryOf(t, apiKey, nowMs), promptTokens, completionTokens, model), latencyMs, isError, nowMs);
    assert EntryOf(t1, apiKey, nowMs) == BookTokens(EntryOf(t, apiKey, nowMs), promptTokens, completionTokens, model);
    assert t1.stats[apiKey := after] == t.stats[apiKey := after];
  }

  /** Recording a request and then booking tokens applies both entry updates in that order. */
  lemma RequestThenTokens(t: RequestTracker, apiKey: string, latencyMs: nat, isError: bool,
                          promptTokens: nat, completionTokens: nat, model: string, nowMs: nat)
    ensures var s := EntryOf(t, apiKey, nowMs);
            RecordTokens(RecordRequest(t, apiKey, latencyMs, isError, nowMs), apiKey, promptTokens, completionTokens, model, nowMs)
            == RequestTracker(t.stats[apiKey := BookTokens(CountRequest(s, latencyMs, isError, nowMs), promptTokens, completionTokens, model)])
  {
    var t2 := RecordRequest(t, apiKey, latencyMs, isError, nowMs);
    var after := BookTokens(CountRequest(EntryOf(t, apiKey, nowMs), latencyMs, isError, nowMs), promptTokens, completionTokens, model);
    assert EntryOf(t2, apiKey, nowMs) == CountRequest(EntryOf(t, apiKey, nowMs), latencyMs, isError, nowMs);
    assert t2.stats[apiKey := after] == t.stats[apiKey := after];
  }

  /**
    Recording a request and booking tokens for one key commute at one
    instant: the request restamps the entry and the booking never restamps
    an existing one, so either order leaves the same tracker.
   */
  lemma RequestAndTokensCommute(t: RequestTracker, apiKey: string, latencyMs: nat, isError: bool,
                                promptTokens: nat, completionTokens: nat, model: string, nowMs: nat)
    ensures RecordRequest(RecordTokens(t, apiKey, promptTokens, completionTokens, model, nowMs), apiKey, latencyMs, isError, nowMs)
         == RecordTokens(RecordRequest(t, apiKey, latencyMs, isError, nowMs), apiKey, promptTokens, completionTokens, model, nowMs)
  {
    TokensThenRequest(t, apiKey, latencyMs, isError, promptTokens, completionTokens, model, nowMs);
    RequestThenTokens(t, apiKey, latencyMs, isError, promptTokens, completionTokens, model, nowMs);
    UpdatesCommute(EntryOf(t, apiKey, nowMs), latencyMs, isError, promptTokens, completionTokens, model, nowMs);
  }


  /** A `record_tokens` call raises the count of its own model by one and leaves every other model's count. */
  lemma RecordTokensModelCount(t: RequestTracker, apiKey: string, promptTokens: nat, completionTokens: nat,
                               model: string, nowMs: nat, m: string)
    ensures var before := EntryOf(t, apiKey, nowMs).modelsUsed;
            var after := RecordTokens(t, apiKey, promptTokens, completionTokens, model, nowMs).stats[apiKey].modelsUsed;
            ModelCount(after, m) == ModelCount(before, m) + (if m == model then 1 else 0)
  {
  }

  /** `get_stats`: the stored entry, or nothing for a key never recorded. */
  function GetStats(t: RequestTracker, apiKey: string): (r: Option<KeyStats>)
    ensures r.None? <==> apiKey !in t.stats
    ensures r.Some? ==> apiKey in t.stats && r.value == t.stats[apiKey]
  {
    if apiKey in t.stats then Some(t.stats[apiKey]) else None
  }

  // ---------------------------------------------------------------------
  // The tracker as a summary of its history
  // ---------------------------------------------------------------------

  /** One call into the tracker. */
  datatype Event =
    | RequestRecorded(key: string, latencyMs: nat, isError: bool, nowMs: nat)
    | TokensRecorded(key: string, promptTokens: nat, completionTokens: nat, model: string, nowMs: nat)

  function Apply(t: RequestTracker, e: Event): RequestTracker {
    match e
    case RequestRecorded(k, latency, isError, now) => RecordRequest(t, k, latency, isError, now)
    case TokensRecorded(k, p, c, model, now) => RecordTokens(t, k, p, c, model, now)
  }

  /** The tracker after the calls `events`, in order, starting from a new tracker. */
  function Replay(events: seq<Event>): RequestTracker
    decreases |events|
  {
    if |events| == 0 then NewTracker()
    else Apply(Replay(events[..|events| - 1]), events[|events| - 1])
  }

  /** Some call in `events` concerns `key`. */
  predicate Mentions(events: seq<Event>, key: string)
    decreases |events|
  {
    |events| > 0 && (events[|events| - 1].key == key || Mentions(events[..|events| - 1], key))
  }

  /** The number of `record_request` calls for `key`. */
  function Requests(events: seq<Event>, key: string): nat
    decreases |events|
  {
    if |events| == 0 then 0
    else
      var e := events[|events| - 1];
      Requests(events[..|events| - 1], key) + (if e.RequestRecorded? && e.key == key then 1 else 0)
  }

  /** The number of `record_request` calls for `key` that reported an error. */
  function Errors(events: seq<Event>, key: string): nat
    decreases |events|
  {
    if |events| == 0 then 0
    else
      var e := events[|events| - 1];
      Errors(events[..|events| - 1], key) + (if e.RequestRecorded? && e.key == key && e.isError then 1 else 0)
  }

  /** The latencies reported for `key`, summed. */
  function Latency(events: seq<Event>, key: string): nat
    decreases |events|
  {
    if |events| == 0 then 0
    else
      var e := events[|events| - 1];
      Latency(events[..|events| - 1], key) + (if e.RequestRecorded? && e.key == key then e.latencyMs else 0)
  }

  /** The prompt tokens reported for `key`, summed. */
  function PromptTokens(events: seq<Event>, key: string): nat
    decreases |events|
  {
    if |events| == 0 then 0
    else
      var e := events[|events| - 1];
      PromptTokens(events[..|events| - 1], key) + (if e.TokensRecorded? && e.key == key then e.promptTokens else 0)
  }

  /** The completion tokens reported for `key`, summed. */
  function CompletionTokens(events: seq<Event>, key: string): nat
    decreases |events|
  {
    if |events| == 0 then 0
    else
      var e := events[|events| - 1];
      CompletionTokens(events[..|events| - 1], key)
        + (if e.TokensRecorded? && e.key == key then e.completionTokens else 0)
  }

  /** The number of `record_tokens` calls for `key`. */
  function TokenCalls(events: seq<Event>, key: string): nat
    decreases |events|
  {
    if |events| == 0 then 0
    else
      var e := events[|events| - 1];
      TokenCalls(events[..|events| - 1], key) + (if e.TokensRecorded? && e.key == key then 1 else 0)
  }

  /** The number of `record_tokens` calls for `key` naming `model`. */
  function ModelCalls(events: seq<Event>, key: string, model: string): nat
    decreases |events|
  {
    if |events| == 0 then 0
    else
      var e := events[|events| - 1];
      ModelCalls(events[..|events| - 1], key, model)
        + (if e.TokensRecorded? && e.key == key && e.model == model then 1 else 0)
  }

  /** What the tracker should hold for `key` after `events`, stated without the tracker. */
  ghost predicate Summarises(t: RequestTracker, events: seq<Event>, key: string) {
    && (key in t.stats <==> Mentions(events, key))
    && (key in t.stats ==>
          var s := t.stats[key];
          && s.requestCount == Requests(events, key)
          && s.errorCount == Errors(events, key)
          && s.totalLatencyMs == Latency(events, key)
          && s.totalPromptTokens == PromptTokens(events, key)
          && s.totalCompletionTokens == CompletionTokens(events, key)
          && (forall m :: m in s.modelsUsed <==> ModelCalls(events, key, m) > 0)
          && (forall m :: m in s.modelsUsed ==> s.modelsUsed[m] == ModelCalls(events, key, m))
          && SumCounts(s.modelsUsed) == TokenCalls(events, key))
    && (key !in t.stats ==>
          && Requests(events, key) == Errors(events, key) == Latency(events, key) == 0
          && PromptTokens(events, key) == CompletionTokens(events, key) == TokenCalls(events, key) == 0
          && forall m :: ModelCalls(events, key, m) == 0)
  }

  /** A call about another key leaves every count for `key` as it was. */
  lemma OtherKeyKeepsCounts(events: seq<Event>, key: string)
    requires |events| > 0 && events[|events| - 1].key != key
    ensures var init := events[..|events| - 1];
            && (Mentions(events, key) <==> Mentions(init, key))
            && Requests(events, key) == Requests(init, key)
            && Errors(events, key) == Errors(init, key)
            && Latency(events, key) == Latency(init, key)
            && PromptTokens(events, key) == PromptTokens(init, key)
            && CompletionTokens(events, key) == CompletionTokens(init, key)
            && TokenCalls(events, key) == TokenCalls(init, key)
            && forall m :: ModelCalls(events, key, m) == ModelCalls(init, key, m)
  {
  }

  /** A call about another key leaves the tracker's entry for `key` as it was. */
  lemma OtherKeyKeepsEntry(events: seq<Event>, key: string)
    requires |events| > 0 && events[|events| - 1].key != key
    ensures var pre := Replay(events[..|events| - 1]);
            var t := Replay(events);
            && (key in t.stats <==> key in pre.stats)
            && (key in pre.stats ==> t.stats[key] == pre.stats[key])
  {
  }

  /** A call about another key changes neither `key`'s entry nor its counts. */
  lemma StepOtherKey(events: seq<Event>, key: string)
    requires |events| > 0 && events[|events| - 1].key != key
    requires Summarises(Replay(events[..|events| - 1]), events[..|events| - 1], key)
    ensures Summarises(Replay(events), events, key)
  {
    OtherKeyKeepsCounts(events, key);
    OtherKeyKeepsEntry(events, key);
  }

  /** A `record_request` call for `key` moves its counts in step with the entry. */
  lemma StepRequest(events: seq<Event>, key: string)
    requires |events| > 0
    requires var e := events[|events| - 1]; e.key == key && e.RequestRecorded?
    requires Summarises(Replay(events[..|events| - 1]), events[..|events| - 1], key)
    ensures Summarises(Replay(events), events, key)
  {
    var init := events[..|events| - 1];
    var pre := Replay(init);
    var after := Replay(events).stats[key];
    var before := EntryOf(pre, key, events[|events| - 1].nowMs);
    assert after.modelsUsed == before.modelsUsed;
    forall m | true
      ensures ModelCalls(events, key, m) == ModelCalls(init, key, m)
    {
    }
    if key !in pre.stats {
      assert before.modelsUsed == map[];
    }
  }

  /** A `record_tokens` call for `key` moves its counts in step with the entry. */
  lemma StepTokens(events: seq<Event>, key: string)
    requires |events| > 0
    requires var e := events[|events| - 1]; e.key == key && e.TokensRecorded?
    requires Summarises(Replay(events[..|events| - 1]), events[..|events| - 1], key)
    ensures Summarises(Replay(events), events, key)
  {
    var init := events[..|events| - 1];
    var e := events[|events| - 1];
    var pre := Replay(init);
    var before := EntryOf(pre, key, e.nowMs);
    TokensStepCounts(events, key);
    RecordTokensCountsOneCall(pre, key, e.promptTokens, e.completionTokens, e.model, e.nowMs);
    if key !in pre.stats {
      assert before.modelsUsed == map[];
      assert SumCounts(before.modelsUsed) == 0;
    }
  }

  /** A `record_tokens` call for `key` adds its tokens and one call for its model, and leaves the request counts. */
  lemma TokensStepCounts(events: seq<Event>, key: string)
    requires |events| > 0
    requires var e := events[|events| - 1]; e.key == key && e.TokensRecorded?
    ensures var init, e := events[..|events| - 1], events[|events| - 1];
            && Mentions(events, key)
            && Requests(events, key) == Requests(init, key)
            && Errors(events, key) == Errors(init, key)
            && Latency(events, key) == Latency(init, key)
            && PromptTokens(events, key) == PromptTokens(init, key) + e.promptTokens
            && CompletionTokens(events, key) == CompletionTokens(init, key) + e.completionTokens
            && TokenCalls(events, key) == TokenCalls(init, key) + 1
            && forall m :: ModelCalls(events, key, m) == ModelCalls(init, key, m) + (if m == e.model then 1 else 0)
  {
  }

  /**
    After any sequence of calls, each key's entry exists exactly when some
    call named it, and its counters are the counts and sums of those calls;
    in particular the per-model counts add up to the number of
    `record_tokens` calls, and the tracker stays well formed.
   */
  lemma {:induction false} ReplaySummarises(events: seq<Event>, key: string)
    ensures WellFormed(Replay(events))
    ensures Summarises(Replay(events), events, key)
    decreases |events|
  {
    if |events| == 0 {
      forall m | true
        ensures ModelCalls(events, key, m) == 0
      {
      }
    } else {
      var e := events[|events| - 1];
      ReplaySummarises(events[..|events| - 1], key);
      if e.key != key {
        StepOtherKey(events, key);
      } else if e.RequestRecorded? {
        StepRequest(events, key);
      } else {
        StepTokens(events, key);
      }
    }
  }
}
