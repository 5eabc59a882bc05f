/** Record shapes shared by the security, monitoring and subscription helpers.
    The application imports PlanTier, APIKeyModel, UserSubscription,
    SubscriptionUsage and SecurityLog from its models module; they are
    declared here with the fields the helpers read and write. */
module Models {

  datatype Option<T> = None | Some(value: T)

  /** A naive UTC timestamp, field by field as Python's datetime holds it. */
  datatype DateTime = DateTime(
    year: int, month: int, day: int,
    hour: int, minute: int, second: int, microsecond: int)

  /** Python's `a < b` on two naive datetimes: lexicographic on the fields. */
  predicate Before(a: DateTime, b: DateTime)
  {
    if a.year != b.year then a.year < b.year
    else if a.month != b.month then a.month < b.month
    else if a.day != b.day then a.day < b.day
    else if a.hour != b.hour then a.hour < b.hour
    else if a.minute != b.minute then a.minute < b.minute
    else if a.second != b.second then a.second < b.second
    else a.microsecond < b.microsecond
  }

  /** `Before` is a strict total order, as datetime comparison is. */
  lemma BeforeIsStrictTotalOrder(a: DateTime, b: DateTime, c: DateTime)
    ensures !Before(a, a)
    ensures a != b ==> (Before(a, b) <==> !Before(b, a))
    ensures Before(a, b) && Before(b, c) ==> Before(a, c)
  {
  }

  datatype PlanTier = Basic | Pro | Enterprise

  /** An issued API key and the account it belongs to. */
  datatype APIKeyModel = APIKeyModel(
    key: string,
    userId: string,
    plan: PlanTier,
    createdAt: DateTime,
    isActive: bool,
    lastUsed: Option<DateTime>)

  /** A user's subscription: its plan and how much of the quota is used. */
  datatype UserSubscription = UserSubscription(
    plan: PlanTier,
    requestsUsed: int,
    currentPeriodEnd: DateTime)

  /** The usage report built from a subscription. */
  datatype SubscriptionUsage = SubscriptionUsage(
    requestsUsed: int,
    requestsLimit: int,
    remainingRequests: int,
    daysUntilRenewal: int)

  /** One entry of the security log. */
  datatype SecurityLog = SecurityLog(
    timestamp: DateTime,
    eventType: string,
    userId: string,
    ipAddress: Option<string>,
    details: string)
}
