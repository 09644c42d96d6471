/** The payment state machine of models.py (`mark_as_completed`,
    `mark_as_failed`, `can_retry`) and the usage record (`is_over_limit`,
    `reset_usage`). */
module Payments {
  import opened Base
  import Sub = Subscriptions

  datatype PaymentStatus = Pending | Initiated | Completed | Failed | Refunded | Cancelled

  /** A payment row. `amount` and `refundAmount` count hundredths of a rupee. */
  datatype Payment = Payment(
    id: string,
    user: string,
    subscription: string,
    amount: int,
    currency: string,
    pidx: string,
    transactionId: Option<string>,
    paymentUrl: Option<string>,
    status: PaymentStatus,
    gatewayResponse: Json,
    failureReason: Option<string>,
    retryCount: nat,
    refundAmount: Option<int>,
    refundReason: Option<string>,
    refundedAt: Option<Time>,
    initiatedAt: Option<Time>,
    completedAt: Option<Time>,
    failedAt: Option<Time>)

  /** The number of retries after which `can_retry` refuses. */
  const MaxPaymentRetries: nat := 3

  /** The PENDING row `Payment.objects.create` inserts when an initiation begins. */
  function NewPayment(id: string, user: string, subscription: string, amount: int,
                      currency: string, placeholderPidx: string): (p: Payment)
    ensures p.status == Pending && p.retryCount == 0 && p.pidx == placeholderPidx
    ensures p.refundAmount.None? && p.transactionId.None? && p.gatewayResponse == map[]
  {
    Payment(id, user, subscription, amount, currency, placeholderPidx, None, None,
            Pending, map[], None, 0, None, None, None, None, None, None)
  }

  /** The payment half of `mark_as_completed`. It has no guard of its own:
      calling it again re-stamps `completed_at`; callers guard against that. */
  function CompletePayment(p: Payment, transactionId: Option<string>, response: Json, now: Time): (r: Payment)
    ensures r.status == Completed && r.completedAt == Some(now)
    ensures r.transactionId == (if Given(transactionId) then transactionId else p.transactionId)
    ensures r.gatewayResponse == (if Truthy(response) then response else p.gatewayResponse)
    ensures r == p.(status := Completed, completedAt := Some(now),
                    transactionId := r.transactionId, gatewayResponse := r.gatewayResponse)
  {
    p.(status := Completed,
       completedAt := Some(now),
       transactionId := if Given(transactionId) then transactionId else p.transactionId,
       gatewayResponse := if Truthy(response) then response else p.gatewayResponse)
  }

  /** The subscription half of `mark_as_completed`: a TRIAL subscription is
      converted to paid; any other is left alone, so the conversion cannot raise. */
  function ConvertIfTrial(s: Sub.Subscription, now: Time): (r: Sub.Subscription)
    ensures s.status == Sub.Trial ==> r.status == Sub.Active && r == Sub.ConvertToPaid(s, now).value
    ensures s.status != Sub.Trial ==> r == s
    ensures r.trialUsed == s.trialUsed && r.plan == s.plan && r.id == s.id
  {
    var c := Sub.ConvertToPaid(s, now);
    if c.Ok? then c.value else s
  }

  /** `mark_as_completed` on a payment and its subscription. */
  function MarkAsCompleted(p: Payment, s: Sub.Subscription, transactionId: Option<string>,
                           response: Json, now: Time): (r: (Payment, Sub.Subscription))
    ensures r.0.status == Completed && r.0.completedAt == Some(now)
    ensures Given(transactionId) ==> r.0.transactionId == transactionId
    ensures !Given(transactionId) ==> r.0.transactionId == p.transactionId
    ensures s.status == Sub.Trial ==> r.1.status == Sub.Active && r.1.startDate == Some(now)
    ensures s.status != Sub.Trial ==> r.1 == s
    ensures r.1.status != Sub.Trial
  {
    (CompletePayment(p, transactionId, response, now), ConvertIfTrial(s, now))
  }

  /** `mark_as_failed`: the reason is overwritten even when none is given. */
  function MarkAsFailed(p: Payment, reason: Option<string>, response: Json, now: Time): (r: Payment)
    ensures r.status == Failed && r.failedAt == Some(now) && r.failureReason == reason
    ensures r.gatewayResponse == (if Truthy(response) then response else p.gatewayResponse)
    ensures r == p.(status := Failed, failedAt := Some(now), failureReason := reason,
                    gatewayResponse := r.gatewayResponse)
  {
    p.(status := Failed,
       failedAt := Some(now),
       failureReason := reason,
       gatewayResponse := if Truthy(response) then response else p.gatewayResponse)
  }

  /** `can_retry`. */
  predicate CanRetry(p: Payment)
  {
    p.status == Failed && p.retryCount < MaxPaymentRetries
  }

  // ---------------------------------------------------------------------------
  // Usage limits

  /** A usage row. `storageUsed` counts hundredths of a gigabyte. */
  datatype Usage = Usage(
    usersCount: nat,
    projectsCount: nat,
    storageUsed: int,
    apiCallsCount: nat,
    apiCallsLimit: nat,
    lastReset: Time)

  /** `is_over_limit`: a count at or above the plan's limit is over it; an
      unknown resource name never is. */
  predicate IsOverLimit(u: Usage, plan: Sub.Plan, resource: string)
  {
    if resource == "users" then u.usersCount >= plan.maxUsers
    else if resource == "projects" then u.projectsCount >= plan.maxProjects
    else if resource == "storage" then u.storageUsed >= plan.storageLimitGb * 100
    else false
  }

  /** Only the three named resources can be over their limit, and a plan
      limit of zero puts users and projects over it from the start. */
  lemma OverLimitResources(u: Usage, plan: Sub.Plan, resource: string)
    ensures IsOverLimit(u, plan, resource) ==> resource in {"users", "projects", "storage"}
    ensures resource == "users" && plan.maxUsers == 0 ==> IsOverLimit(u, plan, resource)
    ensures resource == "projects" && plan.maxProjects == 0 ==> IsOverLimit(u, plan, resource)
  {
  }

  /** `reset_usage`: only the API-call counter and the reset time change. */
  function ResetUsage(u: Usage, now: Time): (r: Usage)
    ensures r.apiCallsCount == 0 && r.lastReset == now
    ensures r.usersCount == u.usersCount && r.projectsCount == u.projectsCount
    ensures r.storageUsed == u.storageUsed && r.apiCallsLimit == u.apiCallsLimit
  {
    u.(apiCallsCount := 0, lastReset := now)
  }

  /** After a reset no resource changes its over-limit verdict. */
  lemma ResetKeepsLimits(u: Usage, plan: Sub.Plan, resource: string, now: Time)
    ensures IsOverLimit(ResetUsage(u, now), plan, resource) == IsOverLimit(u, plan, resource)
  {
  }
}
