/** The monthly rate limiter and the in-memory API key table. */
module Security {
  import opened Models

  // ---------------------------------------------------------------------
  // Rate limiter
  // ---------------------------------------------------------------------

  /** The limiter's table of monthly request quotas per plan. */
  function MonthlyLimit(plan: PlanTier): int
  {
    match plan
    case Basic => 1000
    case Pro => 5000
    case Enterprise => 50000
  }

  /** One per-key entry of the limiter: how many calls were counted since
      `resetTime`. */
  datatype Counter = Counter(count: int, resetTime: DateTime)

  /** The start of the current period as the limiter computes it from the
      clock: day set to 1 and hour, minute and second set to 0. The
      microsecond is NOT zeroed, so the value keeps the clock's. */
  function CurrentMonth(now: DateTime): DateTime
  {
    now.(day := 1, hour := 0, minute := 0, second := 0)
  }

  predicate IsPeriodStart(t: DateTime)
  {
    t.day == 1 && t.hour == 0 && t.minute == 0 && t.second == 0
  }

  /** A call at `now` restarts the counter iff the stored period start is
      strictly earlier than the current one. */
  predicate NeedsReset(c: Counter, now: DateTime)
  {
    Before(c.resetTime, CurrentMonth(now))
  }

  /** What the limiter's table looks like between calls: every entry was
      counted at least once and holds a period start. */
  ghost predicate CountersWellFormed(requests: map<string, Counter>)
  {
    forall k :: k in requests ==> requests[k].count >= 1 && IsPeriodStart(requests[k].resetTime)
  }

  /** The counter table after a call, and the call's answer. */
  datatype RateDecision = RateDecision(requests: map<string, Counter>, allowed: bool)

  /** One call of the rate check for `apiKey` against the key table
      `apiKeys`, at clock reading `now`. */
  function RateLimitStep(requests: map<string, Counter>, apiKey: string,
                         apiKeys: map<string, APIKeyModel>, now: DateTime): (r: RateDecision)
    // an unknown key is refused and nothing is recorded; is_active plays no part
    ensures apiKey !in apiKeys ==> r == RateDecision(requests, false)
    // a known key always gets an entry, and no other entry changes
    ensures apiKey in apiKeys ==>
      && r.requests.Keys == requests.Keys + {apiKey}
      && (forall k :: k in requests && k != apiKey ==> r.requests[k] == requests[k])
    // the count goes up by exactly one unless the period restarted, in which
    // case this call is the first of the new period
    ensures apiKey in apiKeys ==>
      if apiKey in requests && !NeedsReset(requests[apiKey], now)
      then r.requests[apiKey] == Counter(requests[apiKey].count + 1, requests[apiKey].resetTime)
      else r.requests[apiKey] == Counter(1, CurrentMonth(now))
    // the answer is whether the new count is within the plan's quota
    ensures apiKey in apiKeys ==>
      (r.allowed <==> r.requests[apiKey].count <= MonthlyLimit(apiKeys[apiKey].plan))
    ensures CountersWellFormed(requests) ==> CountersWellFormed(r.requests)
  {
    if apiKey !in apiKeys then RateDecision(requests, false)
    else
      var plan := apiKeys[apiKey].plan;
      var start := CurrentMonth(now);
      var created := if apiKey !in requests then requests[apiKey := Counter(0, start)] else requests;
      var current := if Before(created[apiKey].resetTime, start) then created[apiKey := Counter(0, start)] else created;
      var counted := current[apiKey := current[apiKey].(count := current[apiKey].count + 1)];
      RateDecision(counted, counted[apiKey].count <= MonthlyLimit(plan))
  }

  /** The limiter object: a table of counters updated in place. */
  class RateLimiter {
    var requests: map<string, Counter>

    ghost predicate Valid()
      reads this
    {
      CountersWellFormed(requests)
    }

    constructor ()
      ensures Valid() && requests == map[]
    {
      requests := map[];
    }

    /** The rate check: reads the key table, creates, restarts and
        increments this key's counter, and answers whether the call is
        within the plan's quota. */
    method CheckRateLimit(apiKey: string, apiKeys: map<string, APIKeyModel>, now: DateTime)
      returns (allowed: bool)
      requires Valid()
      modifies this
      ensures Valid()
      ensures RateDecision(requests, allowed) == RateLimitStep(old(requests), apiKey, apiKeys, now)
    {
      if apiKey !in apiKeys {
        return false;
      }
      var userData := apiKeys[apiKey];
      var currentMonth := CurrentMonth(now);
      if apiKey !in requests {
        requests := requests[apiKey := Counter(0, currentMonth)];
      }
      if Before(requests[apiKey].resetTime, currentMonth) {
        requests := requests[apiKey := Counter(0, currentMonth)];
      }
      requests := requests[apiKey := requests[apiKey].(count := requests[apiKey].count + 1)];
      allowed := requests[apiKey].count <= MonthlyLimit(userData.plan);
    }
  }

  /** The final table and the answers of successive calls for one key. */
  datatype RateRun = RateRun(requests: map<string, Counter>, answers: seq<bool>)

  /** Successive rate checks for `apiKey`, one per clock reading in `nows`. */
  function RunCalls(requests: map<string, Counter>, apiKey: string,
                    apiKeys: map<string, APIKeyModel>, nows: seq<DateTime>): (r: RateRun)
    ensures |r.answers| == |nows|
    decreases |nows|
  {
    if nows == [] then RateRun(requests, [])
    else
      var step := RateLimitStep(requests, apiKey, apiKeys, nows[0]);
      var rest := RunCalls(step.requests, apiKey, apiKeys, nows[1..]);
      RateRun(rest.requests, [step.allowed] + rest.answers)
  }

  /** While the stored period start is never earlier than the current one,
      calls keep counting from where the entry stands, and call i (from 0)
      is allowed iff the entry's count plus i + 1 is within the quota. */
  lemma {:induction false} CountingWithoutReset(requests: map<string, Counter>, apiKey: string,
                                                apiKeys: map<string, APIKeyModel>, nows: seq<DateTime>)
    requires apiKey in apiKeys && apiKey in requests
    requires forall i :: 0 <= i < |nows| ==> !NeedsReset(requests[apiKey], nows[i])
    ensures var run := RunCalls(requests, apiKey, apiKeys, nows);
      && apiKey in run.requests
      && run.requests[apiKey] == Counter(requests[apiKey].count + |nows|, requests[apiKey].resetTime)
      && forall i :: 0 <= i < |nows| ==>
           (run.answers[i] <==> requests[apiKey].count + i + 1 <= MonthlyLimit(apiKeys[apiKey].plan))
    decreases |nows|
  {
    if nows != [] {
      var step := RateLimitStep(requests, apiKey, apiKeys, nows[0]);
      var c := requests[apiKey];
      assert step.requests[apiKey] == Counter(c.count + 1, c.resetTime);
      forall i | 0 <= i < |nows[1..]|
        ensures !NeedsReset(step.requests[apiKey], nows[1..][i])
      {
        assert nows[1..][i] == nows[i + 1];
      }
      CountingWithoutReset(step.requests, apiKey, apiKeys, nows[1..]);
    }
  }

  /** A key with no entry yet, called at clock readings whose period start
      is never later than the first call's: exactly the first `limit` calls
      are allowed. */
  lemma FirstLimitCallsAllowed(requests: map<string, Counter>, apiKey: string,
                               apiKeys: map<string, APIKeyModel>, nows: seq<DateTime>)
    requires apiKey in apiKeys && apiKey !in requests && nows != []
    requires forall i :: 0 <= i < |nows| ==> !Before(CurrentMonth(nows[0]), CurrentMonth(nows[i]))
    ensures var run := RunCalls(requests, apiKey, apiKeys, nows);
      forall i :: 0 <= i < |nows| ==> (run.answers[i] <==> i < MonthlyLimit(apiKeys[apiKey].plan))
  {
    var step := RateLimitStep(requests, apiKey, apiKeys, nows[0]);
    assert step.requests[apiKey] == Counter(1, CurrentMonth(nows[0]));
    forall i | 0 <= i < |nows[1..]|
      ensures !NeedsReset(step.requests[apiKey], nows[1..][i])
    {
      assert nows[1..][i] == nows[i + 1];
    }
    CountingWithoutReset(step.requests, apiKey, apiKeys, nows[1..]);
  }

  /** On a stored period start, the reset test compares year, month and
      then the microsecond the clock had when the entry was written. */
  lemma ResetCondition(c: Counter, now: DateTime)
    requires IsPeriodStart(c.resetTime)
    ensures NeedsReset(c, now) <==>
      var t := c.resetTime;
      t.year < now.year
      || (t.year == now.year && t.month < now.month)
      || (t.year == now.year && t.month == now.month && t.microsecond < now.microsecond)
  {
  }

  /** Every entry of a well-formed counter table holds a period start, so
      the reset test on any stored entry reduces to year, month and then
      microsecond. */
  lemma StoredResetCondition(requests: map<string, Counter>, now: DateTime)
    requires CountersWellFormed(requests)
    ensures forall k :: k in requests ==>
      (NeedsReset(requests[k], now) <==>
        var t := requests[k].resetTime;
        t.year < now.year
        || (t.year == now.year && t.month < now.month)
        || (t.year == now.year && t.month == now.month && t.microsecond < now.microsecond))
  {
  }

  /** Two calls one second apart in the same month: the second call restarts
      the count, because the first call's period start kept its microsecond. */
  lemma ResetWithinOneMonth(apiKey: string, apiKeys: map<string, APIKeyModel>)
    requires apiKey in apiKeys
    ensures
      var first := DateTime(2024, 5, 3, 10, 15, 0, 100);
      var second := DateTime(2024, 5, 3, 10, 15, 1, 200);
      var stored := map[apiKey := Counter(5000, CurrentMonth(first))];
      RateLimitStep(stored, apiKey, apiKeys, second).requests[apiKey].count == 1
  {
  }

  // ---------------------------------------------------------------------
  // API key table
  // ---------------------------------------------------------------------

  const KeyPrefix: string := "umapi_"

  predicate IsIssuedKey(k: string)
  {
    |k| >= |KeyPrefix| && k[..|KeyPrefix|] == KeyPrefix
  }

  /** What the manager's table looks like: every entry is filed under its
      own key, and every key was issued with the prefix. */
  ghost predicate KeyTableWellFormed(keys: map<string, APIKeyModel>)
  {
    forall k :: k in keys ==> keys[k].key == k && IsIssuedKey(k)
  }

  datatype Issued = Issued(keys: map<string, APIKeyModel>, apiKey: string)
  datatype Lookup = Lookup(keys: map<string, APIKeyModel>, entry: Option<APIKeyModel>)
  datatype Switched = Switched(keys: map<string, APIKeyModel>, found: bool)

  /** Issue a key for `userId` on `plan`; `token` is the random part and
      `now` the creation time. */
  function GenerateKey(keys: map<string, APIKeyModel>, userId: string, plan: PlanTier,
                       token: string, now: DateTime): (r: Issued)
    ensures IsIssuedKey(r.apiKey) && r.apiKey[|KeyPrefix|..] == token
    ensures r.keys.Keys == keys.Keys + {r.apiKey}
    ensures r.keys[r.apiKey] == APIKeyModel(r.apiKey, userId, plan, now, true, None)
    ensures forall k :: k in keys && k != r.apiKey ==> r.keys[k] == keys[k]
    ensures KeyTableWellFormed(keys) ==> KeyTableWellFormed(r.keys)
  {
    var apiKey := KeyPrefix + token;
    Issued(keys[apiKey := APIKeyModel(apiKey, userId, plan, now, true, None)], apiKey)
  }

  /** Look a key up: unknown and inactive keys give None and change nothing;
      an active key's entry gets `lastUsed` set and is returned. */
  function ValidateKey(keys: map<string, APIKeyModel>, apiKey: string, now: DateTime): (r: Lookup)
    ensures r.entry.Some? <==> apiKey in keys && keys[apiKey].isActive
    ensures r.entry.None? ==> r.keys == keys
    ensures r.entry.Some? ==>
      && r.entry.value == keys[apiKey].(lastUsed := Some(now))
      && r.keys.Keys == keys.Keys
      && r.keys[apiKey] == r.entry.value
      && forall k :: k in keys && k != apiKey ==> r.keys[k] == keys[k]
    ensures KeyTableWellFormed(keys) ==> KeyTableWellFormed(r.keys)
  {
    if apiKey !in keys then Lookup(keys, None)
    else
      var keyData := keys[apiKey];
      if !keyData.isActive then Lookup(keys, None)
      else
        var used := keyData.(lastUsed := Some(now));
        Lookup(keys[apiKey := used], Some(used))
  }

  /** Switch a key off: a present key is marked inactive and the answer is
      true; an absent key gives false and changes nothing. */
  function DeactivateKey(keys: map<string, APIKeyModel>, apiKey: string): (r: Switched)
    ensures r.found <==> apiKey in keys
    ensures r.keys.Keys == keys.Keys
    ensures apiKey in keys ==> r.keys[apiKey] == keys[apiKey].(isActive := false)
    ensures forall k :: k in keys && k != apiKey ==> r.keys[k] == keys[k]
    ensures KeyTableWellFormed(keys) ==> KeyTableWellFormed(r.keys)
  {
    if apiKey in keys then Switched(keys[apiKey := keys[apiKey].(isActive := false)], true)
    else Switched(keys, false)
  }

  /** The key manager: a key table updated in place. */
  class APIKeyManager {
    var apiKeys: map<string, APIKeyModel>

    ghost predicate Valid()
      reads this
    {
      KeyTableWellFormed(apiKeys)
    }

    constructor ()
      ensures Valid() && apiKeys == map[]
    {
      apiKeys := map[];
    }

    method GenerateApiKey(userId: string, plan: PlanTier, token: string, now: DateTime)
      returns (apiKey: string)
      requires Valid()
      modifies this
      ensures Valid()
      ensures Issued(apiKeys, apiKey) == GenerateKey(old(apiKeys), userId, plan, token, now)
    {
      apiKey := KeyPrefix + token;
      apiKeys := apiKeys[apiKey := APIKeyModel(apiKey, userId, plan, now, true, None)];
    }

    method ValidateApiKey(apiKey: string, now: DateTime) returns (entry: Option<APIKeyModel>)
      requires Valid()
      modifies this
      ensures Valid()
      ensures Lookup(apiKeys, entry) == ValidateKey(old(apiKeys), apiKey, now)
    {
      if apiKey !in apiKeys {
        return None;
      }
      var keyData := apiKeys[apiKey];
      if !keyData.isActive {
        return None;
      }
      keyData := keyData.(lastUsed := Some(now));
      apiKeys := apiKeys[apiKey := keyData];
      entry := Some(keyData);
    }

    method DeactivateApiKey(apiKey: string) returns (found: bool)
      requires Valid()
      modifies this
      ensures Valid()
      ensures Switched(apiKeys, found) == DeactivateKey(old(apiKeys), apiKey)
    {
      if apiKey in apiKeys {
        apiKeys := apiKeys[apiKey := apiKeys[apiKey].(isActive := false)];
        return true;
      }
      return false;
    }
  }

  /** In a well-formed key table, an entry that validation returns is filed
      under the key it was looked up by, and that key carries the prefix. */
  lemma ValidatedEntryMatchesKey(keys: map<string, APIKeyModel>, apiKey: string, now: DateTime)
    requires KeyTableWellFormed(keys)
    ensures var found := ValidateKey(keys, apiKey, now).entry;
      found.Some? ==> found.value.key == apiKey && IsIssuedKey(apiKey)
  {
  }

  /** A freshly issued key validates, returning the issued entry stamped
      with the time of use. */
  lemma GeneratedKeyValidates(keys: map<string, APIKeyModel>, userId: string, plan: PlanTier,
                              token: string, created: DateTime, used: DateTime)
    ensures var issued := GenerateKey(keys, userId, plan, token, created);
      ValidateKey(issued.keys, issued.apiKey, used).entry
        == Some(APIKeyModel(issued.apiKey, userId, plan, created, true, Some(used)))
  {
  }

  /** Switching a key off twice is the same as switching it off once. */
  lemma DeactivateIdempotent(keys: map<string, APIKeyModel>, apiKey: string)
    ensures var once := DeactivateKey(keys, apiKey);
      DeactivateKey(once.keys, apiKey).keys == once.keys
  {
  }

  /** After a key is switched off, validating it gives None and changes
      nothing, whatever the clock says. */
  lemma DeactivatedKeyRejected(keys: map<string, APIKeyModel>, apiKey: string, now: DateTime)
    ensures var off := DeactivateKey(keys, apiKey).keys;
      ValidateKey(off, apiKey, now) == Lookup(off, None)
  {
  }

  /** The rate check looks only at membership and the plan: switching a key
      off does not change what the limiter answers or records for it. */
  lemma RateLimitIgnoresActivity(requests: map<string, Counter>, keys: map<string, APIKeyModel>,
                                 apiKey: string, now: DateTime)
    ensures RateLimitStep(requests, apiKey, DeactivateKey(keys, apiKey).keys, now)
         == RateLimitStep(requests, apiKey, keys, now)
  {
  }
}
