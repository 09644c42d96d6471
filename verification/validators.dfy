/** The request validators of serializers.py: they decide which transitions
    are attempted at all. Stored rows are passed in as sequences. */
module Validators {
  import opened Base
  import Sub = Subscriptions
  import opened Payments

  /** Why a request was rejected (the ValidationError raised). */
  datatype Rejection =
    | InvalidPlan
    | AlreadySubscribed
    | TrialUnavailable
    | TrialAlreadyUsedForPlan
    | InvalidSubscription
    | PaymentInProgress
    | DaysOutOfRange
    | InvalidPayment
    | NonPositiveRefund
    | RefundExceedsAmount
    | AlreadyRefunded

  /** The requesting account, as far as the validators read it. */
  datatype User = User(id: string, username: string, fullName: string, email: string)

  /** Index of the first element satisfying `p`. */
  function FindFirst<T>(xs: seq<T>, p: T -> bool): (r: Option<nat>)
    ensures r.Some? ==> r.value < |xs| && p(xs[r.value]) && forall j :: 0 <= j < r.value ==> !p(xs[j])
    ensures r.None? ==> forall j :: 0 <= j < |xs| ==> !p(xs[j])
    decreases |xs|
  {
    if |xs| == 0 then None
    else if p(xs[0]) then Some(0)
    else
      var r := FindFirst(xs[1..], p);
      if r.Some? then Some(r.value + 1) else None
  }

  // ---------------------------------------------------------------------------
  // Subscription creation

  predicate SubscribedTo(s: Sub.Subscription, user: string, planId: string)
  {
    s.user == user && s.plan.id == planId
  }

  /** `SubscriptionPlan.objects.get(id=planId, is_active=True)`. */
  function ActivePlan(plans: seq<Sub.Plan>, planId: string): (r: Option<Sub.Plan>)
    ensures r.Some? ==> r.value in plans && r.value.id == planId && r.value.isActive
    ensures r.None? ==> forall p :: p in plans ==> !(p.id == planId && p.isActive)
  {
    match FindFirst(plans, (p: Sub.Plan) => p.id == planId && p.isActive)
    case None => None
    case Some(i) => Some(plans[i])
  }

  /** `SubscriptionCreateSerializer`: the plan must exist and be active
      (`validate_plan_id`), then `validate` refuses a second subscription to the
      same plan and a trial the plan does not offer or the user already had.
      The last check can never fire: any subscription it would find has
      already been refused by the first. */
  function ValidateSubscriptionCreate(plans: seq<Sub.Plan>, subscriptions: seq<Sub.Subscription>,
                                      user: string, planId: string, startTrial: bool): (r: Result<Sub.Plan, Rejection>)
    ensures r.Ok? <==>
      && ActivePlan(plans, planId).Some?
      && (forall s :: s in subscriptions ==> !SubscribedTo(s, user, planId))
      && (startTrial ==> ActivePlan(plans, planId).value.trialEnabled)
    ensures r.Ok? ==> r.value == ActivePlan(plans, planId).value
    ensures r != Err(TrialAlreadyUsedForPlan)
  {
    match ActivePlan(plans, planId)
    case None => Err(InvalidPlan)
    case Some(plan) =>
      if exists s :: s in subscriptions && SubscribedTo(s, user, planId) then
        Err(AlreadySubscribed)
      else if startTrial && !plan.trialEnabled then Err(TrialUnavailable)
      else if startTrial && exists s :: s in subscriptions && SubscribedTo(s, user, planId) && s.trialUsed then
        Err(TrialAlreadyUsedForPlan)
      else Ok(plan)
  }

  // ---------------------------------------------------------------------------
  // Payment initiation

  /** A validated initiation request with the customer fields filled in. */
  datatype InitiateRequest = InitiateRequest(
    subscriptionId: string,
    returnUrl: string,
    websiteUrl: string,
    customerName: string,
    customerEmail: string,
    customerPhone: string)

  const DefaultCustomerPhone: string := "9800000000"

  /** A value the caller left out or left blank falls back to `default`. */
  function OrDefault(given: Option<string>, default: string): (v: string)
    ensures Given(given) ==> v == given.value
    ensures !Given(given) ==> v == default
  {
    if Given(given) then given.value else default
  }

  predicate InProgress(p: Payment, subscriptionId: string)
  {
    p.subscription == subscriptionId && (p.status == Pending || p.status == Initiated)
  }

  /** `PaymentInitiateSerializer`: the subscription must belong to the user, and
      no payment of it may be PENDING or INITIATED; missing customer details
      default to the account's name (or username), e-mail and a fixed phone. */
  function ValidatePaymentInitiate(subscriptions: seq<Sub.Subscription>, payments: seq<Payment>,
                                   user: User, subscriptionId: string, returnUrl: string, websiteUrl: string,
                                   name: Option<string>, email: Option<string>, phone: Option<string>): (r: Result<InitiateRequest, Rejection>)
    ensures r.Ok? <==>
      && (exists i :: 0 <= i < |subscriptions| && subscriptions[i].id == subscriptionId && subscriptions[i].user == user.id)
      && (forall j :: 0 <= j < |payments| ==> !InProgress(payments[j], subscriptionId))
    ensures r.Ok? ==> r.value.subscriptionId == subscriptionId
    ensures r.Ok? && !Given(phone) ==> r.value.customerPhone == DefaultCustomerPhone
    ensures r.Ok? && !Given(name) ==> r.value.customerName == (if user.fullName != "" then user.fullName else user.username)
    ensures r.Ok? && !Given(email) ==> r.value.customerEmail == user.email
    ensures r.Ok? && Given(phone) ==> r.value.customerPhone == phone.value
    ensures r.Ok? && Given(name) ==> r.value.customerName == name.value
    ensures r.Ok? && Given(email) ==> r.value.customerEmail == email.value
    ensures r.Ok? ==> r.value.returnUrl == returnUrl && r.value.websiteUrl == websiteUrl
    ensures r.Err? ==> r.error == (if exists i :: 0 <= i < |subscriptions| && subscriptions[i].id == subscriptionId && subscriptions[i].user == user.id
                                   then PaymentInProgress else InvalidSubscription)
  {
    if !exists i :: 0 <= i < |subscriptions| && subscriptions[i].id == subscriptionId && subscriptions[i].user == user.id then
      Err(InvalidSubscription)
    else if exists j :: 0 <= j < |payments| && InProgress(payments[j], subscriptionId) then
      Err(PaymentInProgress)
    else
      Ok(InitiateRequest(
        subscriptionId, returnUrl, websiteUrl,
        OrDefault(name, if user.fullName != "" then user.fullName else user.username),
        OrDefault(email, user.email),
        OrDefault(phone, DefaultCustomerPhone)))
  }

  // ---------------------------------------------------------------------------
  // Trial extension

  const MinExtensionDays: int := 1
  const MaxExtensionDays: int := 30

  /** `TrialExtendSerializer.days`: an integer between 1 and 30 inclusive. */
  function ValidateExtensionDays(days: int): (r: Result<nat, Rejection>)
    ensures r.Ok? <==> MinExtensionDays <= days <= MaxExtensionDays
    ensures r.Ok? ==> r.value == days
    ensures r.Err? ==> r.error == DaysOutOfRange
  {
    if MinExtensionDays <= days <= MaxExtensionDays then Ok(days) else Err(DaysOutOfRange)
  }

  /** An accepted extension keeps a clean trial clean and moves its end later. */
  lemma AcceptedExtensionKeepsClean(s: Sub.Subscription, days: int)
    requires ValidateExtensionDays(days).Ok?
    requires Sub.ExtendTrial(s, days).Ok? && Sub.Clean(s)
    ensures Sub.Clean(Sub.ExtendTrial(s, days).value)
    ensures Sub.ExtendTrial(s, days).value.trialEnd.value > s.trialEnd.value
  {
    Sub.ExtendKeepsClean(s, days);
  }

  // ---------------------------------------------------------------------------
  // Refunds

  /** A validated refund request; `amount` counts hundredths of a rupee. */
  datatype RefundRequest = RefundRequest(paymentId: string, amount: Option<int>, reason: string)

  /** Python truthiness of an optional decimal: present and non-zero. */
  predicate AmountGiven(amount: Option<int>)
  {
    amount.Some? && amount.value != 0
  }

  /** `Payment.objects.get(id=paymentId)`. */
  function PaymentById(payments: seq<Payment>, paymentId: string): (r: Option<Payment>)
    ensures r.Some? ==> r.value in payments && r.value.id == paymentId
    ensures r.None? ==> forall p :: p in payments ==> p.id != paymentId
  {
    match FindFirst(payments, (p: Payment) => p.id == paymentId)
    case None => None
    case Some(i) => Some(payments[i])
  }

  /** `RefundInitiateSerializer`: `validate_payment_id` wants a COMPLETED payment
      with that id; `validate_amount` refuses a negative amount (a zero amount is
      falsy and passes); `validate` refuses an amount above the payment's and a
      payment whose refund amount is already set. */
  function ValidateRefund(payments: seq<Payment>, paymentId: string, amount: Option<int>,
                          reason: string): (r: Result<RefundRequest, Rejection>)
    ensures r.Ok? <==>
      && PaymentById(payments, paymentId).Some?
      && PaymentById(payments, paymentId).value.status == Completed
      && !(amount.Some? && amount.value < 0)
      && !(AmountGiven(amount) && amount.value > PaymentById(payments, paymentId).value.amount)
      && !AmountGiven(PaymentById(payments, paymentId).value.refundAmount)
    ensures r.Ok? ==> r.value == RefundRequest(paymentId, amount, reason)
  {
    match PaymentById(payments, paymentId)
    case None => Err(InvalidPayment)
    case Some(payment) =>
      if payment.status != Completed then Err(InvalidPayment)
      else if AmountGiven(amount) && amount.value <= 0 then Err(NonPositiveRefund)
      else if AmountGiven(amount) && amount.value > payment.amount then Err(RefundExceedsAmount)
      else if AmountGiven(payment.refundAmount) then Err(AlreadyRefunded)
      else Ok(RefundRequest(paymentId, amount, reason))
  }

  /** The amount an accepted refund records (`amount or payment.amount`) is
      positive and at most the payment's amount, for a payment of positive amount;
      a zero amount asks for a full refund. */
  lemma AcceptedRefundAmountBounded(payments: seq<Payment>, paymentId: string, amount: Option<int>, reason: string)
    requires ValidateRefund(payments, paymentId, amount, reason).Ok?
    requires PaymentById(payments, paymentId).value.amount > 0
    ensures var p := PaymentById(payments, paymentId).value;
      var recorded := if AmountGiven(amount) then amount.value else p.amount;
      0 < recorded <= p.amount
    ensures amount == Some(0) ==> ValidateRefund(payments, paymentId, amount, reason).value.amount == Some(0)
  {
  }
}
