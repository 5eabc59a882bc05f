/** Quota arithmetic over a user's subscription. */
module Subscription {
  import opened Models
  import Security

  /** The monthly request quota of each plan, as the subscription helpers
      table it. */
  function PlanLimit(plan: PlanTier): int
  {
    match plan
    case Basic => 1000
    case Pro => 5000
    case Enterprise => 50000
  }

  /** The usage report for `subscription`. The days until renewal come from
      the clock and are passed in already computed. */
  function GetSubscriptionUsage(subscription: UserSubscription, daysUntilRenewal: int)
    : (u: SubscriptionUsage)
    ensures u.requestsUsed == subscription.requestsUsed
    ensures u.requestsLimit == PlanLimit(subscription.plan)
    // used and remaining always add up to the quota; remaining is not
    // clamped, so it is negative exactly when the quota is overrun
    ensures u.requestsUsed + u.remainingRequests == u.requestsLimit
    ensures u.remainingRequests < 0 <==> subscription.requestsUsed > PlanLimit(subscription.plan)
    ensures u.daysUntilRenewal == daysUntilRenewal
  {
    var limit := PlanLimit(subscription.plan);
    var remaining := limit - subscription.requestsUsed;
    SubscriptionUsage(subscription.requestsUsed, limit, remaining, daysUntilRenewal)
  }

  /** Whether the subscription may make another request: strictly fewer
      requests used than the quota, that is, some remaining. */
  function CheckSubscriptionLimits(subscription: UserSubscription): (ok: bool)
    ensures forall days :: ok <==> GetSubscriptionUsage(subscription, days).remainingRequests > 0
  {
    subscription.requestsUsed < PlanLimit(subscription.plan)
  }

  /** The subscription helpers and the rate limiter use the same quotas. */
  lemma LimitTablesAgree(plan: PlanTier)
    ensures PlanLimit(plan) == Security.MonthlyLimit(plan)
  {
  }

  /** The rate limiter allows a call that finds `used` calls already counted
      in the current period exactly when a subscription with `used` requests
      passes the subscription check: the limiter's "new count <= quota" and
      the subscription's "used < quota" are the same test. */
  lemma RateLimitMatchesSubscriptionCheck(requests: map<string, Security.Counter>, apiKey: string,
                                          apiKeys: map<string, APIKeyModel>, now: DateTime,
                                          periodEnd: DateTime)
    requires apiKey in apiKeys && apiKey in requests
    requires !Security.NeedsReset(requests[apiKey], now)
    ensures Security.RateLimitStep(requests, apiKey, apiKeys, now).allowed
        == CheckSubscriptionLimits(UserSubscription(apiKeys[apiKey].plan, requests[apiKey].count, periodEnd))
  {
    LimitTablesAgree(apiKeys[apiKey].plan);
  }
}
