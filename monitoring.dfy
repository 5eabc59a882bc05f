/** The security and performance monitors: per-IP and per-status counters
    kept in memory and updated in place. */
module Monitoring {
  import opened Models

  /** Above this many recorded requests an IP counts as suspicious. */
  const SuspiciousThreshold: int := 100

  /** The counter update both monitors use: an unseen key starts at 1, a
      seen key goes up by 1, every other key keeps its count. */
  function Increment<K(==)>(counts: map<K, int>, key: K): (r: map<K, int>)
    ensures r.Keys == counts.Keys + {key}
    ensures key !in counts ==> r[key] == 1
    ensures key in counts ==> r[key] == counts[key] + 1
    ensures forall k :: k in counts && k != key ==> r[k] == counts[k]
  {
    if key in counts then counts[key := counts[key] + 1] else counts[key := 1]
  }

  class SecurityMonitor {
    var securityLogs: seq<SecurityLog>
    var suspiciousIps: map<string, int>
    var failedAttempts: map<string, int>

    ghost predicate Valid()
      reads this
    {
      forall ip :: ip in failedAttempts ==> failedAttempts[ip] >= 1
    }

    constructor ()
      ensures Valid()
      ensures securityLogs == [] && suspiciousIps == map[] && failedAttempts == map[]
    {
      securityLogs := [];
      suspiciousIps := map[];
      failedAttempts := map[];
    }

    /** Whether `ipAddress` is on the suspicious table with a count above
        the threshold. */
    function CheckSuspiciousActivity(ipAddress: string): bool
      reads this
    {
      if ipAddress in suspiciousIps then suspiciousIps[ipAddress] > SuspiciousThreshold
      else false
    }

    method RecordFailedAttempt(ipAddress: string)
      requires Valid()
      modifies this
      ensures Valid()
      ensures failedAttempts == Increment(old(failedAttempts), ipAddress)
      ensures securityLogs == old(securityLogs) && suspiciousIps == old(suspiciousIps)
    {
      if ipAddress in failedAttempts {
        failedAttempts := failedAttempts[ipAddress := failedAttempts[ipAddress] + 1];
      } else {
        failedAttempts := failedAttempts[ipAddress := 1];
      }
    }
  }

  /** Nothing ever writes the suspicious table, so a monitor that has only
      been created and fed failed attempts (for the IPs in `failures`, in
      order) calls no IP suspicious, and its failed-attempt table is the
      counts of `failures`, each at least 1 (the monitor's invariant). */
  method SuspicionAfterFailedAttempts(failures: seq<string>, probe: string)
    returns (suspicious: bool, attempts: map<string, int>)
    ensures !suspicious
    ensures attempts == CountAll(failures)
    ensures forall ip :: ip in attempts ==> attempts[ip] >= 1
  {
    var monitor := new SecurityMonitor();
    var i := 0;
    while i < |failures|
      invariant 0 <= i <= |failures|
      invariant monitor.Valid()
      invariant monitor.suspiciousIps == map[]
      invariant monitor.failedAttempts == CountAll(failures[..i])
    {
      assert failures[..i + 1] == failures[..i] + [failures[i]];
      CountAllAppend(failures[..i], failures[i]);
      monitor.RecordFailedAttempt(failures[i]);
      i := i + 1;
    }
    assert failures[..i] == failures;
    suspicious := monitor.CheckSuspiciousActivity(probe);
    attempts := monitor.failedAttempts;
  }

  /** Occurrence counts of a sequence of keys, as repeated `Increment`s
      from the empty table build them. */
  function CountAll<K(==)>(keys: seq<K>): map<K, int>
    decreases |keys|
  {
    if keys == [] then map[] else Increment(CountAll(keys[..|keys| - 1]), keys[|keys| - 1])
  }

  lemma CountAllAppend<K>(keys: seq<K>, key: K)
    ensures CountAll(keys + [key]) == Increment(CountAll(keys), key)
  {
  }

  /** The number of times `key` occurs in `keys`. */
  function Occurrences<K(==)>(keys: seq<K>, key: K): nat
  {
    multiset(keys)[key]
  }

  /** The failed-attempt table holds, for every IP seen, the number of times
      it was recorded, and holds no other IP. */
  lemma {:induction false} CountAllCounts<K>(keys: seq<K>, key: K)
    ensures key in CountAll(keys) <==> key in keys
    ensures key in keys ==> CountAll(keys)[key] == Occurrences(keys, key)
    decreases |keys|
  {
    if keys != [] {
      var init := keys[..|keys| - 1];
      var last := keys[|keys| - 1];
      assert keys == init + [last];
      CountAllCounts(init, key);
      assert multiset(keys) == multiset(init) + multiset{last};
    }
  }

  // ---------------------------------------------------------------------
  // Performance monitor
  // ---------------------------------------------------------------------

  ghost function Pick(s: set<int>): int
    requires s != {}
  {
    assert (forall x :: x !in s) ==> s == {};
    var x :| x in s; x
  }

  /** The sum of a map's values. */
  ghost function SumValues(m: map<int, int>): int
    decreases |m|
  {
    if m == map[] then 0
    else
      var k := Pick(m.Keys);
      m[k] + SumValues(m - {k})
  }

  /** Any key can be taken out first. */
  lemma {:induction false} SumRemove(m: map<int, int>, k: int)
    requires k in m
    ensures SumValues(m) == m[k] + SumValues(m - {k})
    decreases |m|
  {
    var j := Pick(m.Keys);
    if j != k {
      SumRemove(m - {j}, k);
      SumRemove(m - {k}, j);
      assert m - {j} - {k} == m - {k} - {j};
    }
  }

  /** Counting one more error adds exactly one to the total. */
  lemma SumIncrement(m: map<int, int>, k: int)
    ensures SumValues(Increment(m, k)) == SumValues(m) + 1
  {
    var r := Increment(m, k);
    SumRemove(r, k);
    assert r - {k} == m - {k};
    if k in m {
      SumRemove(m, k);
    } else {
      assert m - {k} == m;
    }
  }

  /** A table of positive counts has a non-negative total. */
  lemma {:induction false} SumNonNegative(m: map<int, int>)
    requires forall k :: k in m ==> m[k] >= 0
    ensures SumValues(m) >= 0
    decreases |m|
  {
    if m != map[] {
      SumNonNegative(m - {Pick(m.Keys)});
    }
  }

  class PerformanceMonitor {
    var responseTimes: seq<real>
    var errorCounts: map<int, int>

    /** Only error statuses are counted, each at least once, and there are
        never more errors than requests. */
    ghost predicate Valid()
      reads this
    {
      && (forall code :: code in errorCounts ==> code >= 400 && errorCounts[code] >= 1)
      && SumValues(errorCounts) <= |responseTimes|
    }

    constructor ()
      ensures Valid() && responseTimes == [] && errorCounts == map[]
    {
      responseTimes := [];
      errorCounts := map[];
    }

    /** Record one response: its duration is always appended; an error
        status (400 and up) is counted under its code. */
    method RecordRequest(duration: real, statusCode: int)
      requires Valid()
      modifies this
      ensures Valid()
      ensures responseTimes == old(responseTimes) + [duration]
      ensures errorCounts == if statusCode >= 400 then Increment(old(errorCounts), statusCode)
                             else old(errorCounts)
    {
      responseTimes := responseTimes + [duration];
      if statusCode >= 400 {
        SumIncrement(errorCounts, statusCode);
        if statusCode in errorCounts {
          errorCounts := errorCounts[statusCode := errorCounts[statusCode] + 1];
        } else {
          errorCounts := errorCounts[statusCode := 1];
        }
      }
    }

    /** The two totals the error rate is computed from. */
    ghost function TotalErrors(): int
      reads this
    {
      SumValues(errorCounts)
    }

    function TotalRequests(): int
      reads this
    {
      |responseTimes|
    }

    /** The error fraction lies between 0 and 1. */
    lemma ErrorFractionBounded()
      requires Valid()
      ensures 0 <= TotalErrors() <= TotalRequests()
    {
      SumNonNegative(errorCounts);
    }
  }
}
