# Urban Microbiome API: quota and key bookkeeping in Dafny

This project models the in-memory bookkeeping of the Urban Microbiome API:

- the monthly **rate limiter** (`RateLimiter.check_rate_limit`), which keeps
  one counter per API key and answers whether a call is within the key's plan
  quota (Basic 1000, Pro 5000, Enterprise 50000 requests);
- the **API key manager**, a key table with generate, validate and deactivate;
- the **security monitor** (per-IP failed-attempt counts and the
  suspicious-IP check) and the **performance monitor** (response durations
  and per-status error counts);
- the **subscription helpers**: the quota check and the used / limit /
  remaining figures of the usage report.

Files: `models.dfy` (module `Models`: the records the helpers share, a
field-by-field `DateTime` with Python's ordering, `PlanTier`),
`security.dfy` (module `Security`), `monitoring.dfy` (module `Monitoring`),
`subscription.dfy` (module `Subscription`).

The objects that the application updates in place are classes whose methods
reassign `map` and `seq` fields; each method is proved against a pure
function (`RateLimitStep`, `GenerateKey`, `ValidateKey`, `DeactivateKey`,
`Increment`) or states its new state outright, and keeps a `Valid()`
invariant. The properties are stated on those functions and in lemmas.

The clock and the random token are parameters: `now` stands for each
`datetime.utcnow()` read, `token` for `token_urlsafe(32)`.

**Period start.** The limiter computes the current period start by setting
day to 1 and hour, minute and second to 0, but it leaves the microsecond as
the clock has it (`CurrentMonth`). It restarts a key's counter iff the
stored period start is strictly earlier than the current one
(`NeedsReset`). The model keeps this rule. `ResetCondition` shows that the
comparison therefore falls through to the microsecond within one calendar
month, and `ResetWithinOneMonth` gives two calls one second apart in the
same month where the second call restarts the count. The limiter is
described as monthly; the code as written restarts whenever the current
microsecond exceeds the stored one, and the model follows the code.

## Model

| member | source | states |
|---|---|---|
| `Security.RateLimitStep` | app/utils/security.py:37-52 | an unknown key is refused and the table is unchanged (activity is not consulted); a known key gets an entry, other entries are unchanged; the count rises by exactly 1, or restarts at 1 with the current period start when the stored start is earlier; the answer is true iff the new count is within the plan quota; well-formed tables stay well-formed |
| `Security.RateLimiter.constructor` | app/utils/security.py:29-35 | a new limiter has an empty counter table |
| `Security.RateLimiter.CheckRateLimit` | app/utils/security.py:37-52 | the in-place update of the counter table and the answer are exactly those of `RateLimitStep`; the table invariant is kept |
| `Security.CountingWithoutReset` | app/utils/security.py:45-52 | over any run of calls that never restarts the period, the count rises by one per call, the reset time stays, and call i is allowed iff the starting count plus i + 1 is within the quota |
| `Security.FirstLimitCallsAllowed` | app/utils/security.py:31-52 | for a key with no entry, over calls that stay in the first call's period, exactly the first `limit` calls are allowed |
| `Security.ResetCondition` | app/utils/security.py:43-49 | against a stored period start, a reset happens iff the stored year/month is earlier, or the year and month are equal and the stored microsecond is smaller |
| `Security.StoredResetCondition` | app/utils/security.py:43-49 | every entry of a well-formed counter table (the limiter's invariant) holds a period start, so its reset test compares year, month and then microsecond |
| `Security.ResetWithinOneMonth` | app/utils/security.py:43-49 | a call one second after another in the same month restarts the count to 1 even from 5000 |
| `Models.BeforeIsStrictTotalOrder` | app/utils/security.py:48 | the timestamp comparison is irreflexive, total on distinct values and transitive |
| `Security.GenerateKey` | app/utils/security.py:59-72 | the key is "umapi_" followed by the token; it now maps to an active entry for that user and plan with no last use; every other entry is unchanged |
| `Security.APIKeyManager.constructor` | app/utils/security.py:56-57 | a new manager has an empty key table |
| `Security.APIKeyManager.GenerateApiKey` | app/utils/security.py:59-72 | the table update and the returned key are those of `GenerateKey`; the table invariant is kept |
| `Security.ValidateKey` | app/utils/security.py:74-84 | an entry comes back iff the key is present and active; otherwise nothing changes; on success only `lastUsed` of that entry is set, and the returned entry is the stored one |
| `Security.APIKeyManager.ValidateApiKey` | app/utils/security.py:74-84 | the table update and the answer are those of `ValidateKey` |
| `Security.DeactivateKey` | app/utils/security.py:86-91 | the answer is true iff the key is present; a present key's entry becomes inactive and nothing else changes |
| `Security.APIKeyManager.DeactivateApiKey` | app/utils/security.py:86-91 | the table update and the answer are those of `DeactivateKey` |
| `Security.ValidatedEntryMatchesKey` | app/utils/security.py:64-84 | in a table built by the manager, a validated entry's key is the key looked up, and it starts with "umapi_" |
| `Security.GeneratedKeyValidates` | app/utils/security.py:59-84 | a freshly generated key validates and returns the issued entry stamped with the time of use |
| `Security.DeactivateIdempotent` | app/utils/security.py:86-91 | deactivating twice leaves the same table as deactivating once |
| `Security.DeactivatedKeyRejected` | app/utils/security.py:79-91 | after deactivation, validation returns None and changes nothing |
| `Security.RateLimitIgnoresActivity` | app/utils/security.py:39-52 | deactivating a key does not change the rate check's answer or its counter update |
| `Monitoring.Increment` | app/utils/monitoring.py:43-48 | an unseen key starts at 1, a seen key rises by 1, no other key changes |
| `Monitoring.SecurityMonitor.constructor` | app/utils/monitoring.py:17-20 | a new monitor has no logs, no suspicious IPs and no failed attempts |
| `Monitoring.SecurityMonitor.RecordFailedAttempt` | app/utils/monitoring.py:43-48 | the failed-attempt table is incremented at that IP; logs and suspicious table are unchanged |
| `Monitoring.SuspicionAfterFailedAttempts` | app/utils/monitoring.py:17-48 | nothing writes the suspicious table, so the suspicious check (a lookup plus a comparison with 100) on a fresh monitor fed any sequence of failed attempts calls no IP suspicious, and its failed-attempt table is the occurrence table of that sequence, every count at least 1 |
| `Monitoring.CountAllCounts` | app/utils/monitoring.py:43-48 | the occurrence table holds exactly the IPs seen, each with the number of times it occurred |
| `Monitoring.SumRemove` | app/utils/monitoring.py:75 | the total of the error counts is any one count plus the total of the rest |
| `Monitoring.SumIncrement` | app/utils/monitoring.py:61-65 | counting one more error raises the total by exactly one |
| `Monitoring.SumNonNegative` | app/utils/monitoring.py:75 | non-negative counts have a non-negative total |
| `Monitoring.PerformanceMonitor.constructor` | app/utils/monitoring.py:53-55 | a new monitor has no durations and no error counts |
| `Monitoring.PerformanceMonitor.RecordRequest` | app/utils/monitoring.py:57-65 | exactly one duration is appended; a status of 400 or more is counted under its code; a lower status leaves the error counts unchanged; the invariant "total errors <= requests" is kept |
| `Monitoring.PerformanceMonitor.ErrorFractionBounded` | app/utils/monitoring.py:73-79 | the error total used by the error rate lies between 0 and the request total, so the fraction is at most 1 |
| `Subscription.GetSubscriptionUsage` | app/utils/subscription.py:12-27 | used is copied, the limit is the plan's quota, used + remaining == limit, remaining is negative exactly when usage exceeds the quota |
| `Subscription.CheckSubscriptionLimits` | app/utils/subscription.py:4-10 | the check passes iff the usage report's remaining count is positive |
| `Subscription.LimitTablesAgree` | app/utils/subscription.py:5-9 | the subscription quotas equal the rate limiter's for every plan |
| `Subscription.RateLimitMatchesSubscriptionCheck` | app/utils/subscription.py:10 | within a period, the limiter allows a call exactly when a subscription with the already-counted calls passes the subscription check |

## Left out

- `SecurityConfig.encrypt_data` / `decrypt_data`: thin wrappers over the Fernet library, whose internals are not part of this model.
- `SecurityMonitor.log_request`: depends on the web framework's request object and on logging output; `securityLogs` is kept as a field that nothing in the model writes.
- `get_average_response_time` and the division in `get_error_rate`: floating-point arithmetic. Durations are kept as opaque `real` values; only the integer totals and the bound between them are modelled.
- `days_until_renewal`: a clock read plus `timedelta.days`; `GetSubscriptionUsage` takes the number of days as a parameter and copies it.
- Randomness and clocks: `token_urlsafe(32)` is the `token` parameter, with no claim about its length or alphabet; each `datetime.utcnow()` read is a `now` parameter.
- Security.ValidateKey: key entries are values in a map that the manager reassigns, so the returned entry is a copy; the aliasing of the Python object (a caller's reference seeing a later deactivation) is not modelled.
- The limiter's `limits` dict and the subscription helpers' local `plan_limits` dicts are modelled as total functions on `PlanTier`, so the dict lookups cannot fail.
- Concurrency: the `async` methods are modelled as sequential operations; unsynchronised increments under concurrent requests are not modelled.
- The web application in app/main.py (routing, the header comparison against an environment variable, the global statistics, the exception handler), the random analysis stub, the external API calls and the database and record declarations: framework glue with no bookkeeping logic.
