/** The state changes the views of views.py make to the stored rows:
    subscription creation, payment initiation, verification, retry, refund and
    the three webhook handlers. The interesting part is the pair of guards
    (verification skips a COMPLETED payment, the completion webhook skips one
    too) that make verification and webhook delivery settle on one completion. */
module Reconcile {
  import opened Base
  import Sub = Subscriptions
  import opened Payments
  import opened Gateway
  import Money
  import OrderIds
  import V = Validators

  /** A call of `send_payment_notification`: recipient and template name. */
  datatype Notice = Notice(user: string, tag: string)

  /** A webhook event row. `eventType` is the raw `type` value of the body. */
  datatype WebhookEvent = WebhookEvent(eventType: Value, data: Json, payment: Option<string>, processed: bool)

  /** The rows the views read and write, and the client's cache. */
  datatype Store = Store(
    subscriptions: seq<Sub.Subscription>,
    payments: seq<Payment>,
    events: seq<WebhookEvent>,
    notices: seq<Notice>,
    cache: Cache)

  // ---------------------------------------------------------------------------
  // Lookups

  predicate PidxInUse(ps: seq<Payment>, pidx: string)
  {
    exists k :: 0 <= k < |ps| && ps[k].pidx == pidx
  }

  /** The `unique=True` constraint of the pidx column. */
  predicate PidxUnique(ps: seq<Payment>)
  {
    forall j, k :: 0 <= j < |ps| && 0 <= k < |ps| && ps[j].pidx == ps[k].pidx ==> j == k
  }

  /** `Payment.objects.get(pidx=pidx)`. */
  function IndexByPidx(ps: seq<Payment>, pidx: string): (r: Option<nat>)
    ensures r.Some? ==> r.value < |ps| && ps[r.value].pidx == pidx
    ensures r.None? <==> !PidxInUse(ps, pidx)
  {
    V.FindFirst(ps, (p: Payment) => p.pidx == pidx)
  }

  /** `Payment.objects.get(pidx=pidx, user=user)`. */
  function IndexOwnedByPidx(ps: seq<Payment>, pidx: string, user: string): (r: Option<nat>)
    ensures r.Some? ==> r.value < |ps| && ps[r.value].pidx == pidx && ps[r.value].user == user
    ensures r.None? ==> forall k :: 0 <= k < |ps| ==> !(ps[k].pidx == pidx && ps[k].user == user)
  {
    V.FindFirst(ps, (p: Payment) => p.pidx == pidx && p.user == user)
  }

  /** `Payment.objects.get(pk=id)`, as `get_object` does it. */
  function IndexById(ps: seq<Payment>, id: string): (r: Option<nat>)
    ensures r.Some? ==> r.value < |ps| && ps[r.value].id == id
    ensures r.None? ==> forall k :: 0 <= k < |ps| ==> ps[k].id != id
  {
    V.FindFirst(ps, (p: Payment) => p.id == id)
  }

  /** The subscription row a payment points at. */
  function SubscriptionIndex(subs: seq<Sub.Subscription>, id: string): (r: Option<nat>)
    ensures r.Some? ==> r.value < |subs| && subs[r.value].id == id
    ensures r.None? ==> forall k :: 0 <= k < |subs| ==> subs[k].id != id
  {
    V.FindFirst(subs, (s: Sub.Subscription) => s.id == id)
  }

  /** Under the unique constraint a pidx lookup finds the one row carrying it. */
  lemma LookupFindsUnique(ps: seq<Payment>, i: nat, user: string)
    requires PidxUnique(ps) && i < |ps|
    ensures IndexByPidx(ps, ps[i].pidx) == Some(i)
    ensures ps[i].user == user ==> IndexOwnedByPidx(ps, ps[i].pidx, user) == Some(i)
  {
  }

  /** Replacing a row by one with the same pidx keeps the pidx column unique. */
  lemma UpdateKeepsPidxUnique(ps: seq<Payment>, i: nat, p: Payment)
    requires PidxUnique(ps) && i < |ps| && p.pidx == ps[i].pidx
    ensures PidxUnique(ps[i := p])
  {
  }

  // ---------------------------------------------------------------------------
  // Shared steps

  /** `mark_as_completed` on the i-th payment and on its subscription when that
      row exists, followed by the 'payment_completed' notification. */
  function Complete(st: Store, i: nat, transactionId: Option<string>, response: Json, now: Time): (r: Store)
    requires i < |st.payments|
    ensures |r.payments| == |st.payments| && |r.subscriptions| == |st.subscriptions|
    ensures r.payments[i] == CompletePayment(st.payments[i], transactionId, response, now)
    ensures forall k :: 0 <= k < |st.payments| && k != i ==> r.payments[k] == st.payments[k]
    ensures var j := SubscriptionIndex(st.subscriptions, st.payments[i].subscription);
      && (j.Some? ==> r.subscriptions == st.subscriptions[j.value := ConvertIfTrial(st.subscriptions[j.value], now)])
      && (j.None? ==> r.subscriptions == st.subscriptions)
    ensures r.notices == st.notices + [Notice(st.payments[i].user, "payment_completed")]
    ensures r.events == st.events && r.cache == st.cache
  {
    var p := st.payments[i];
    var subs :=
      match SubscriptionIndex(st.subscriptions, p.subscription)
      case None => st.subscriptions
      case Some(j) => st.subscriptions[j := ConvertIfTrial(st.subscriptions[j], now)];
    st.(payments := st.payments[i := CompletePayment(p, transactionId, response, now)],
        subscriptions := subs,
        notices := st.notices + [Notice(p.user, "payment_completed")])
  }

  /** Only the retry view touches `retry_count`, and no view rewrites a pidx once
      the row has its gateway pidx: the frame every other view keeps. */
  predicate KeepsRetriesAndPidx(before: seq<Payment>, after: seq<Payment>)
  {
    && |before| <= |after|
    && forall k :: 0 <= k < |before| ==>
         after[k].retryCount == before[k].retryCount && after[k].pidx == before[k].pidx
  }

  // ---------------------------------------------------------------------------
  // SubscriptionViewSet.perform_create

  /** Validation, the new row with its column defaults, and the trial when one
      was asked for, then the 'subscription_created' notification. The usage
      record the view also creates is not part of this store. */
  function CreateSubscription(st: Store, plans: seq<Sub.Plan>, user: string, planId: string,
                              startTrial: bool, autoRenew: bool, newId: string, now: Time): (r: Result<Store, V.Rejection>)
    ensures r.Ok? <==> V.ValidateSubscriptionCreate(plans, st.subscriptions, user, planId, startTrial).Ok?
    ensures r.Err? ==> r.error == V.ValidateSubscriptionCreate(plans, st.subscriptions, user, planId, startTrial).error
    ensures r.Ok? ==>
      && |r.value.subscriptions| == |st.subscriptions| + 1
      && r.value.subscriptions[..|st.subscriptions|] == st.subscriptions
      && var s := r.value.subscriptions[|st.subscriptions|];
         && s.user == user && s.plan.id == planId && s.status == Sub.Trial && s.autoRenew == autoRenew
         && s.trialUsed == startTrial
         && (startTrial ==> s.trialStart == Some(now) && s.trialEnd == Some(now + Days(s.plan.trialPeriodDays)))
         && (!startTrial ==> s.trialStart.None? && s.trialEnd.None?)
    ensures r.Ok? ==> r.value.payments == st.payments && r.value.notices == st.notices + [Notice(user, "subscription_created")]
  {
    match V.ValidateSubscriptionCreate(plans, st.subscriptions, user, planId, startTrial)
    case Err(why) => Err(why)
    case Ok(plan) =>
      var row := Sub.NewSubscription(newId, user, plan, autoRenew);
      var started := Sub.StartTrial(row, now);
      var s := if startTrial && started.Ok? then started.value else row;
      Ok(st.(subscriptions := st.subscriptions + [s],
             notices := st.notices + [Notice(user, "subscription_created")]))
  }

  /** Once validation has accepted a trial request, starting the trial on the
      fresh row cannot fail. */
  lemma AcceptedTrialStarts(plans: seq<Sub.Plan>, subs: seq<Sub.Subscription>, user: string, planId: string,
                            autoRenew: bool, newId: string, now: Time)
    requires V.ValidateSubscriptionCreate(plans, subs, user, planId, true).Ok?
    ensures var plan := V.ValidateSubscriptionCreate(plans, subs, user, planId, true).value;
      Sub.StartTrial(Sub.NewSubscription(newId, user, plan, autoRenew), now).Ok?
  {
  }

  // ---------------------------------------------------------------------------
  // PaymentViewSet.initiate

  datatype InitiateOutcome =
    | InitiateRejected(reason: V.Rejection)
    | PaymentInitiated(pidx: string, paymentUrl: string)
    | InitiateGatewayError(message: string)
    | InitiateReplyIncomplete(missingKey: string)
    | PidxConflict(pidx: string)
    | PlaceholderConflict

  /** `str(KeyError(key))`: the key in single quotes. */
  function KeyErrorText(key: string): string
  {
    "'" + key + "'"
  }

  /** What the initiation view leaves in the payment table once it has inserted
      the PENDING row `p` and the gateway has answered: the row is INITIATED
      with the gateway's pidx, or FAILED (under its placeholder or under a
      gateway pidx no other row carries), and stays PENDING only when the
      gateway's pidx clashes with another row's: the unique constraint then
      refuses both the update and the FAILED state. */
  predicate InitiationSettled(before: seq<Payment>, after: seq<Payment>, outcome: InitiateOutcome, p: Payment, now: Time)
  {
    && |after| == |before| + 1
    && after[..|before|] == before
    && var q := after[|before|];
       && q.id == p.id && q.user == p.user && q.subscription == p.subscription
       && q.amount == p.amount && q.retryCount == p.retryCount
       && (outcome.PaymentInitiated? ==>
             && q.status == Initiated && q.pidx == outcome.pidx && q.paymentUrl == Some(outcome.paymentUrl)
             && q.initiatedAt == Some(now) && !PidxInUse(before, q.pidx))
       && (outcome.InitiateGatewayError? ==>
             q.status == Failed && q.failureReason == Some(outcome.message) && q.pidx == p.pidx)
       && (outcome.InitiateReplyIncomplete? ==>
             && q.status == Failed && q.failureReason == Some(KeyErrorText(outcome.missingKey))
             && (q.pidx == p.pidx || !PidxInUse(before, q.pidx)))
       && (outcome.PidxConflict? ==> q == p && PidxInUse(before, outcome.pidx))
       && (q.status == Pending <==> outcome.PidxConflict?)
  }

  /** The part of the initiation view after the gateway call: the row `p` is
      appended in the state the gateway's answer calls for. */
  function SettleInitiation(before: seq<Payment>, p: Payment, result: Result<Json, GatewayError>, now: Time): (r: (seq<Payment>, InitiateOutcome))
    requires p.status == Pending
    ensures r.1.PaymentInitiated? || r.1.InitiateGatewayError? || r.1.InitiateReplyIncomplete? || r.1.PidxConflict?
    ensures InitiationSettled(before, r.0, r.1, p, now)
    ensures r.1.PaymentInitiated? <==>
      (result.Ok? && GetText(result.value, "pidx").Some? && GetText(result.value, "payment_url").Some?
       && !PidxInUse(before, GetText(result.value, "pidx").value))
    ensures r.1.InitiateGatewayError? <==> result.Err?
    ensures r.1.InitiateReplyIncomplete? ==>
      && result.Ok? && (r.1.missingKey == "pidx" <==> GetText(result.value, "pidx").None?)
      && (r.1.missingKey == "pidx" ==> r.0[|before|].pidx == p.pidx)
      && (r.1.missingKey != "pidx" ==> r.0[|before|].pidx == GetText(result.value, "pidx").value)
    ensures PidxUnique(before) && !PidxInUse(before, p.pidx) ==> PidxUnique(r.0)
  {
    match result
    case Err(e) =>
      (before + [MarkAsFailed(p, Some(e.Message()), e.ResponseData(), now)], InitiateGatewayError(e.Message()))
    case Ok(resp) =>
      match (GetText(resp, "pidx"), GetText(resp, "payment_url"))
      case (None, _) =>
        (before + [MarkAsFailed(p, Some(KeyErrorText("pidx")), map[], now)], InitiateReplyIncomplete("pidx"))
      case (Some(pidx), None) =>
        // the pidx is assigned before the KeyError, so the FAILED row is saved under it
        if PidxInUse(before, pidx) then (before + [p], PidxConflict(pidx))
        else (before + [MarkAsFailed(p.(pidx := pidx), Some(KeyErrorText("payment_url")), map[], now)],
              InitiateReplyIncomplete("payment_url"))
      case (Some(pidx), Some(url)) =>
        if PidxInUse(before, pidx) then (before + [p], PidxConflict(pidx))
        else
          (before + [p.(pidx := pidx, paymentUrl := Some(url), status := Initiated,
                        initiatedAt := Some(now), gatewayResponse := resp)],
           PaymentInitiated(pidx, url))
  }

  /** The gateway call of the initiation view for subscription `sub`: the
      plan's price as the amount, an order id made of the subscription's id
      and the current second, the validated customer details, and the two ids
      as custom data. */
  function OrderCall(cache: Cache, sub: Sub.Subscription, userId: string, req: V.InitiateRequest,
                     replies: seq<Reply>, maxRetries: nat, now: Time): (c: Call)
    requires maxRetries <= |replies|
    ensures var key := InitiateKey(OrderIds.GenerateOrderId(sub.id, now * OrderIds.MicrosPerSecond));
      && (Cached(cache, key) ==> c.result == Err(DuplicateOrder) && c.attempts == 0 && c.cache == cache)
      && (!Cached(cache, key) ==>
            && c.result == MakeRequest(replies, maxRetries).result
            && c.attempts == MakeRequest(replies, maxRetries).attempts
            && c.payload.Some? && "amount" in c.payload.value && c.payload.value["amount"] == JInt(sub.plan.price)
            && "customer_info" in c.payload.value && c.payload.value["customer_info"].JObj?
            && var info := c.payload.value["customer_info"].fields;
               && "name" in info && "email" in info && "phone" in info
               && info["name"] == JStr(req.customerName) && info["email"] == JStr(req.customerEmail)
               && info["phone"] == JStr(req.customerPhone))
      && (c.result.Ok? ==> c.cache == cache[key := c.result.value])
      && (c.result.Err? ==> c.cache == cache)
  {
    var orderId := OrderIds.GenerateOrderId(sub.id, now * OrderIds.MicrosPerSecond);
    var customer := map["name" := req.customerName, "email" := req.customerEmail, "phone" := req.customerPhone];
    var customData := map["subscription_id" := JStr(sub.id), "user_id" := JStr(userId)];
    InitiatePayloadCarriesPrice(sub.plan.price, orderId, "Subscription - " + sub.plan.name,
                                req.returnUrl, req.websiteUrl, customer, customData);
    InitiatePayment(cache, Money.FromHundredths(sub.plan.price), orderId, "Subscription - " + sub.plan.name,
                    req.returnUrl, req.websiteUrl, customer, customData, replies, maxRetries)
  }

  /** The initiation view: validation, a PENDING row under a placeholder pidx
      for the plan's price, the gateway call with the order id of the
      subscription and the current second, and the settled row. A failure
      records the exception's message (for a gateway error) or the missing
      key's name (the KeyError of a reply without `pidx` or `payment_url`). A
      placeholder already in use fails the insert itself. */
  function InitiateView(st: Store, user: V.User, subscriptionId: string, returnUrl: string, websiteUrl: string,
                        name: Option<string>, email: Option<string>, phone: Option<string>,
                        paymentId: string, placeholderPidx: string,
                        replies: seq<Reply>, maxRetries: nat, now: Time): (r: (Store, InitiateOutcome))
    requires maxRetries <= |replies|
    ensures r.1.InitiateRejected? <==>
      V.ValidatePaymentInitiate(st.subscriptions, st.payments, user, subscriptionId, returnUrl, websiteUrl, name, email, phone).Err?
    ensures r.1.PlaceholderConflict? <==> !r.1.InitiateRejected? && PidxInUse(st.payments, placeholderPidx)
    ensures r.1.InitiateRejected? || r.1.PlaceholderConflict? ==> r.0 == st
    ensures !r.1.InitiateRejected? && !r.1.PlaceholderConflict? ==>
      && SubscriptionIndex(st.subscriptions, subscriptionId).Some?
      && var plan := st.subscriptions[SubscriptionIndex(st.subscriptions, subscriptionId).value].plan;
         InitiationSettled(st.payments, r.0.payments, r.1,
                           NewPayment(paymentId, user.id, subscriptionId, plan.price, plan.currency, placeholderPidx), now)
    ensures !r.1.InitiateRejected? && !r.1.PlaceholderConflict? ==>
      && SubscriptionIndex(st.subscriptions, subscriptionId).Some?
      && var sub := st.subscriptions[SubscriptionIndex(st.subscriptions, subscriptionId).value];
         var req := V.ValidatePaymentInitiate(st.subscriptions, st.payments, user, subscriptionId, returnUrl, websiteUrl, name, email, phone).value;
         var c := OrderCall(st.cache, sub, user.id, req, replies, maxRetries, now);
         var settled := SettleInitiation(st.payments, NewPayment(paymentId, user.id, subscriptionId, sub.plan.price, sub.plan.currency, placeholderPidx), c.result, now);
         r.1 == settled.1 && r.0.payments == settled.0 && r.0.cache == c.cache
    ensures r.0 == st.(payments := r.0.payments, cache := r.0.cache)
    ensures |st.payments| <= |r.0.payments| <= |st.payments| + 1 && r.0.payments[..|st.payments|] == st.payments
    ensures |r.0.payments| > |st.payments| ==> r.0.payments[|st.payments|].retryCount == 0
    ensures PidxUnique(st.payments) ==> PidxUnique(r.0.payments)
  {
    match V.ValidatePaymentInitiate(st.subscriptions, st.payments, user, subscriptionId, returnUrl, websiteUrl, name, email, phone)
    case Err(why) => (st, InitiateRejected(why))
    case Ok(req) =>
      if PidxInUse(st.payments, placeholderPidx) then (st, PlaceholderConflict)
      else
        var sub := st.subscriptions[SubscriptionIndex(st.subscriptions, subscriptionId).value];
        var p := NewPayment(paymentId, user.id, sub.id, sub.plan.price, sub.plan.currency, placeholderPidx);
        var c := OrderCall(st.cache, sub, user.id, req, replies, maxRetries, now);
        var settled := SettleInitiation(st.payments, p, c.result, now);
        (st.(payments := settled.0, cache := c.cache), settled.1)
  }

  /** Two rate-limited replies and then a reply carrying a fresh pidx and a
      payment URL initiate the payment on the third attempt: the row is
      INITIATED under the gateway's pidx and the reply is cached as the
      order's marker. */
  lemma {:induction false} RateLimitedInitiationSucceeds(st: Store, user: V.User, subscriptionId: string,
                                                         returnUrl: string, websiteUrl: string,
                                                         name: Option<string>, email: Option<string>, phone: Option<string>,
                                                         paymentId: string, placeholderPidx: string, body: Json, now: Time)
    requires V.ValidatePaymentInitiate(st.subscriptions, st.payments, user, subscriptionId, returnUrl, websiteUrl, name, email, phone).Ok?
    requires !PidxInUse(st.payments, placeholderPidx)
    requires !Cached(st.cache, InitiateKey(OrderIds.GenerateOrderId(subscriptionId, now * OrderIds.MicrosPerSecond)))
    requires GetText(body, "pidx").Some? && GetText(body, "payment_url").Some?
    requires !PidxInUse(st.payments, GetText(body, "pidx").value)
    ensures var replies := [Http(429, map[], ""), Http(429, map[], ""), Http(200, body, "")];
      var r := InitiateView(st, user, subscriptionId, returnUrl, websiteUrl, name, email, phone,
                            paymentId, placeholderPidx, replies, DefaultMaxRetries, now);
      && r.1 == PaymentInitiated(GetText(body, "pidx").value, GetText(body, "payment_url").value)
      && |r.0.payments| == |st.payments| + 1
      && r.0.payments[|st.payments|].status == Initiated
      && r.0.payments[|st.payments|].pidx == GetText(body, "pidx").value
      && r.0.cache == st.cache[InitiateKey(OrderIds.GenerateOrderId(subscriptionId, now * OrderIds.MicrosPerSecond)) := body]
  {
    var replies := [Http(429, map[], ""), Http(429, map[], ""), Http(200, body, "")];
    RateLimitedTwiceThenOk(body);
    var r := InitiateView(st, user, subscriptionId, returnUrl, websiteUrl, name, email, phone,
                          paymentId, placeholderPidx, replies, DefaultMaxRetries, now);
    assert !r.1.InitiateRejected? && !r.1.PlaceholderConflict?;
    var sub := st.subscriptions[SubscriptionIndex(st.subscriptions, subscriptionId).value];
    assert sub.id == subscriptionId;
  }

  /** A settled initiation row left INITIATED or PENDING blocks the next
      initiation of its subscription; a FAILED one does not. */
  lemma SettledBlocksOrFrees(before: seq<Payment>, after: seq<Payment>, outcome: InitiateOutcome, p: Payment, now: Time,
                             subs: seq<Sub.Subscription>, user: V.User, subscriptionId: string,
                             returnUrl: string, websiteUrl: string, name: Option<string>, email: Option<string>, phone: Option<string>)
    requires InitiationSettled(before, after, outcome, p, now) && p.subscription == subscriptionId
    ensures outcome.PaymentInitiated? || outcome.PidxConflict? ==>
      V.ValidatePaymentInitiate(subs, after, user, subscriptionId, returnUrl, websiteUrl, name, email, phone).Err?
    ensures (outcome.InitiateGatewayError? || outcome.InitiateReplyIncomplete?)
            && V.ValidatePaymentInitiate(subs, before, user, subscriptionId, returnUrl, websiteUrl, name, email, phone).Ok? ==>
      V.ValidatePaymentInitiate(subs, after, user, subscriptionId, returnUrl, websiteUrl, name, email, phone).Ok?
  {
    var n := |before|;
    var q := after[n];
    if outcome.PaymentInitiated? || outcome.PidxConflict? {
      assert V.InProgress(after[n], subscriptionId);
    } else {
      assert forall j :: 0 <= j < n ==> after[j] == before[j] by {
        assert forall j :: 0 <= j < n ==> after[j] == after[..n][j];
      }
    }
  }

  /** An initiation that leaves its payment INITIATED or PENDING blocks any
      further initiation of the subscription, whoever asks. */
  lemma InitiationBlocksSubscription(st: Store, user: V.User, subscriptionId: string,
                                     returnUrl: string, websiteUrl: string,
                                     name: Option<string>, email: Option<string>, phone: Option<string>,
                                     paymentId: string, placeholderPidx: string,
                                     replies: seq<Reply>, maxRetries: nat, now: Time,
                                     other: V.User, returnUrl2: string, websiteUrl2: string,
                                     name2: Option<string>, email2: Option<string>, phone2: Option<string>)
    requires maxRetries <= |replies|
    requires var r := InitiateView(st, user, subscriptionId, returnUrl, websiteUrl, name, email, phone,
                                   paymentId, placeholderPidx, replies, maxRetries, now);
      r.1.PaymentInitiated? || r.1.PidxConflict?
    ensures var r := InitiateView(st, user, subscriptionId, returnUrl, websiteUrl, name, email, phone,
                                  paymentId, placeholderPidx, replies, maxRetries, now);
      V.ValidatePaymentInitiate(r.0.subscriptions, r.0.payments, other, subscriptionId, returnUrl2, websiteUrl2, name2, email2, phone2).Err?
  {
    var r := InitiateView(st, user, subscriptionId, returnUrl, websiteUrl, name, email, phone,
                          paymentId, placeholderPidx, replies, maxRetries, now);
    var plan := st.subscriptions[SubscriptionIndex(st.subscriptions, subscriptionId).value].plan;
    var p := NewPayment(paymentId, user.id, subscriptionId, plan.price, plan.currency, placeholderPidx);
    assert InitiationSettled(st.payments, r.0.payments, r.1, p, now);
    SettledBlocksOrFrees(st.payments, r.0.payments, r.1, p, now, r.0.subscriptions, other, subscriptionId,
                         returnUrl2, websiteUrl2, name2, email2, phone2);
  }

  /** An initiation that ends with its payment FAILED leaves the subscription
      free for the same user to initiate again. */
  lemma FailedInitiationFreesSubscription(st: Store, user: V.User, subscriptionId: string,
                                          returnUrl: string, websiteUrl: string,
                                          name: Option<string>, email: Option<string>, phone: Option<string>,
                                          paymentId: string, placeholderPidx: string,
                                          replies: seq<Reply>, maxRetries: nat, now: Time)
    requires maxRetries <= |replies|
    requires var r := InitiateView(st, user, subscriptionId, returnUrl, websiteUrl, name, email, phone,
                                   paymentId, placeholderPidx, replies, maxRetries, now);
      r.1.InitiateGatewayError? || r.1.InitiateReplyIncomplete?
    ensures var r := InitiateView(st, user, subscriptionId, returnUrl, websiteUrl, name, email, phone,
                                  paymentId, placeholderPidx, replies, maxRetries, now);
      V.ValidatePaymentInitiate(r.0.subscriptions, r.0.payments, user, subscriptionId, returnUrl, websiteUrl, name, email, phone).Ok?
  {
    var r := InitiateView(st, user, subscriptionId, returnUrl, websiteUrl, name, email, phone,
                          paymentId, placeholderPidx, replies, maxRetries, now);
    var plan := st.subscriptions[SubscriptionIndex(st.subscriptions, subscriptionId).value].plan;
    var p := NewPayment(paymentId, user.id, subscriptionId, plan.price, plan.currency, placeholderPidx);
    assert InitiationSettled(st.payments, r.0.payments, r.1, p, now);
    SettledBlocksOrFrees(st.payments, r.0.payments, r.1, p, now, st.subscriptions, user, subscriptionId,
                         returnUrl, websiteUrl, name, email, phone);
  }

  /** A table that keeps every old row as it was keeps their retry counts and pidx. */
  lemma ExtensionKeepsRetriesAndPidx(before: seq<Payment>, after: seq<Payment>)
    requires |before| <= |after| && after[..|before|] == before
    ensures KeepsRetriesAndPidx(before, after)
  {
    assert forall k :: 0 <= k < |before| ==> after[k] == after[..|before|][k];
  }

  // ---------------------------------------------------------------------------
  // PaymentViewSet.verify

  datatype VerifyOutcome =
    | UnknownPidx
    | PaymentNotFound
    | AlreadyVerified
    | Verified
    | VerificationPending(gatewayStatus: Option<string>)
    | VerifyGatewayError(message: string)

  /** The part of the verification view after the gateway has answered for
      the i-th payment: a 'Completed' answer completes it, any other answer
      leaves the rows alone, and a gateway error marks it FAILED. */
  function SettleVerification(st: Store, i: nat, result: Result<Json, GatewayError>, now: Time): (r: (Store, VerifyOutcome))
    requires i < |st.payments|
    ensures |r.0.payments| == |st.payments| && r.0.events == st.events && r.0.cache == st.cache
    ensures r.1.Verified? || r.1.VerificationPending? || r.1.VerifyGatewayError?
    ensures r.1.Verified? <==> result.Ok? && StatusCompleted(result.value)
    ensures r.1.VerifyGatewayError? <==> result.Err?
    ensures r.1.Verified? ==>
      && r.0.payments[i].status == Completed && r.0.payments[i].completedAt == Some(now)
      && r.0.notices == st.notices + [Notice(st.payments[i].user, "payment_completed")]
    ensures r.1.VerificationPending? ==> r.0 == st
    ensures r.1.VerifyGatewayError? ==>
      && r.0.payments == st.payments[i := r.0.payments[i]]
      && r.0.payments[i].status == Failed && r.0.payments[i].failureReason == Some(r.1.message)
      && r.0.subscriptions == st.subscriptions && r.0.notices == st.notices
    ensures KeepsRetriesAndPidx(st.payments, r.0.payments)
  {
    match result
    case Ok(resp) =>
      if StatusCompleted(resp) then (Complete(st, i, GetText(resp, "transaction_id"), resp, now), Verified)
      else (st, VerificationPending(GetText(resp, "status")))
    case Err(e) =>
      (st.(payments := st.payments[i := MarkAsFailed(st.payments[i], Some(e.Message()), e.ResponseData(), now)]),
       VerifyGatewayError(e.Message()))
  }

  /** The verification view: the payment is looked up by pidx and owner; a
      COMPLETED payment is answered without asking the gateway; a 'Completed'
      answer completes it; any other answer leaves it as it is; a gateway error
      marks it FAILED. */
  function VerifyView(st: Store, user: string, pidx: string, replies: seq<Reply>, maxRetries: nat, now: Time): (r: (Store, VerifyOutcome))
    requires maxRetries <= |replies|
    ensures |r.0.payments| == |st.payments| && r.0.events == st.events
    ensures !PidxInUse(st.payments, pidx) ==> r == (st, UnknownPidx)
    ensures PidxInUse(st.payments, pidx) && IndexOwnedByPidx(st.payments, pidx, user).None? ==> r == (st, PaymentNotFound)
    ensures var i := IndexOwnedByPidx(st.payments, pidx, user);
      && (i.Some? && st.payments[i.value].status == Completed ==> r == (st, AlreadyVerified))
      && (r.1.Verified? ==>
            && i.Some? && st.payments[i.value].status != Completed
            && r.0.payments[i.value].status == Completed && r.0.payments[i.value].completedAt == Some(now)
            && r.0.notices == st.notices + [Notice(user, "payment_completed")])
      && (r.1.VerificationPending? ==>
            r.0.payments == st.payments && r.0.subscriptions == st.subscriptions && r.0.notices == st.notices)
      && (r.1.VerifyGatewayError? ==>
            && i.Some? && r.0.payments == st.payments[i.value := r.0.payments[i.value]]
            && r.0.payments[i.value].status == Failed && r.0.payments[i.value].failureReason == Some(r.1.message)
            && r.0.subscriptions == st.subscriptions && r.0.notices == st.notices)
    ensures var i := IndexOwnedByPidx(st.payments, pidx, user);
      var c := VerifyPayment(st.cache, pidx, replies, maxRetries);
      && (r.1.Verified? <==> i.Some? && st.payments[i.value].status != Completed && c.result.Ok? && StatusCompleted(c.result.value))
      && (r.1.VerifyGatewayError? <==> i.Some? && st.payments[i.value].status != Completed && c.result.Err?)
      && (i.Some? && st.payments[i.value].status != Completed ==>
            r == SettleVerification(st.(cache := c.cache), i.value, c.result, now))
    ensures KeepsRetriesAndPidx(st.payments, r.0.payments)
    ensures PidxUnique(st.payments) ==> PidxUnique(r.0.payments)
  {
    if !PidxInUse(st.payments, pidx) then (st, UnknownPidx)
    else
      match IndexOwnedByPidx(st.payments, pidx, user)
      case None => (st, PaymentNotFound)
      case Some(i) =>
        if st.payments[i].status == Completed then (st, AlreadyVerified)
        else
          var c := VerifyPayment(st.cache, pidx, replies, maxRetries);
          SettleVerification(st.(cache := c.cache), i, c.result, now)
  }

  // ---------------------------------------------------------------------------
  // PaymentViewSet.retry

  datatype RetryOutcome = RetryNotFound | NotRetryable | Retried(retryCount: nat)

  /** The retry view: refused unless `can_retry`; otherwise one more retry is
      counted and the payment goes back to PENDING. */
  function RetryView(st: Store, paymentId: string): (r: (Store, RetryOutcome))
    ensures |r.0.payments| == |st.payments|
    ensures IndexById(st.payments, paymentId).None? ==> r == (st, RetryNotFound)
    ensures var i := IndexById(st.payments, paymentId);
      && (i.Some? && !CanRetry(st.payments[i.value]) ==> r == (st, NotRetryable))
      && (i.Some? && CanRetry(st.payments[i.value]) ==>
            && r.1 == Retried(st.payments[i.value].retryCount + 1)
            && r.0 == st.(payments := st.payments[i.value := r.0.payments[i.value]])
            && r.0.payments[i.value] == st.payments[i.value].(retryCount := r.1.retryCount, status := Pending))
    ensures r.1.Retried? ==> r.1.retryCount <= MaxPaymentRetries
  {
    match IndexById(st.payments, paymentId)
    case None => (st, RetryNotFound)
    case Some(i) =>
      var p := st.payments[i];
      if !CanRetry(p) then (st, NotRetryable)
      else (st.(payments := st.payments[i := p.(retryCount := p.retryCount + 1, status := Pending)]), Retried(p.retryCount + 1))
  }

  // ---------------------------------------------------------------------------
  // PaymentViewSet.initiate_refund

  datatype RefundOutcome =
    | RefundNotFound
    | RefundRejected(reason: V.Rejection)
    | RefundGatewayError(message: string)
    | RefundInitiated(amount: int)

  /** A validated amount in hundredths as the Decimal handed to the client. */
  function AsDecimal(amount: Option<int>): Option<Money.Decimal>
  {
    if amount.Some? then Some(Money.FromHundredths(amount.value)) else None
  }

  /** The refund step on the i-th payment once the request has passed
      validation: the gateway is asked, and on success the payment records the
      refunded amount (the requested one when truthy, else the full amount), the
      reason and the time, becomes REFUNDED and keeps the gateway's answer under
      'refund_data'. A gateway error changes nothing. */
  function ApplyRefund(st: Store, i: nat, amount: Option<int>, reason: string,
                       replies: seq<Reply>, maxRetries: nat, now: Time): (r: (Store, RefundOutcome))
    requires i < |st.payments| && maxRetries <= |replies|
    ensures |r.0.payments| == |st.payments|
    ensures r.1.RefundInitiated? || r.1.RefundGatewayError?
    ensures var c := InitiateRefund(st.cache, st.payments[i].pidx, AsDecimal(amount), Some(reason), replies, maxRetries);
      && (r.1.RefundInitiated? <==> c.result.Ok?)
      && (c.result.Ok? ==> r.0.payments[i].gatewayResponse == st.payments[i].gatewayResponse["refund_data" := JObj(c.result.value)])
      && (c.result.Err? ==> r.1 == RefundGatewayError(c.result.error.Message()))
    ensures r.1.RefundGatewayError? ==> r.0 == st
    ensures r.1.RefundInitiated? ==>
      && var p := st.payments[i];
         && r.1.amount == (if V.AmountGiven(amount) then amount.value else p.amount)
         && r.0.payments == st.payments[i := r.0.payments[i]]
         && r.0.payments[i] == p.(status := Refunded, refundAmount := Some(r.1.amount), refundReason := Some(reason),
                                  refundedAt := Some(now), gatewayResponse := r.0.payments[i].gatewayResponse)
         && "refund_data" in r.0.payments[i].gatewayResponse
         && r.0.payments[i].gatewayResponse - {"refund_data"} == p.gatewayResponse - {"refund_data"}
         && r.0.notices == st.notices + [Notice(p.user, "refund_initiated")]
         && r.0.subscriptions == st.subscriptions && r.0.events == st.events && r.0.cache == st.cache
  {
    var p := st.payments[i];
    var c := InitiateRefund(st.cache, p.pidx, AsDecimal(amount), Some(reason), replies, maxRetries);
    match c.result
    case Err(e) => (st, RefundGatewayError(e.Message()))
    case Ok(resp) =>
      var refunded := if V.AmountGiven(amount) then amount.value else p.amount;
      var q := p.(refundAmount := Some(refunded), refundReason := Some(reason), refundedAt := Some(now),
                  status := Refunded, gatewayResponse := p.gatewayResponse["refund_data" := JObj(resp)]);
      (st.(payments := st.payments[i := q], notices := st.notices + [Notice(p.user, "refund_initiated")]),
       RefundInitiated(refunded))
  }

  /** The refund view as it is written: the body's `payment_id` is the one
      validated, but the payment refunded is the one named in the URL. */
  function RefundViewAsWritten(st: Store, urlPaymentId: string, bodyPaymentId: string, amount: Option<int>,
                               reason: string, replies: seq<Reply>, maxRetries: nat, now: Time): (r: (Store, RefundOutcome))
    requires maxRetries <= |replies|
    ensures |r.0.payments| == |st.payments| && KeepsRetriesAndPidx(st.payments, r.0.payments)
    ensures IndexById(st.payments, urlPaymentId).None? ==> r == (st, RefundNotFound)
    ensures r.1.RefundInitiated? <==>
      && IndexById(st.payments, urlPaymentId).Some?
      && V.ValidateRefund(st.payments, bodyPaymentId, amount, reason).Ok?
      && InitiateRefund(st.cache, st.payments[IndexById(st.payments, urlPaymentId).value].pidx, AsDecimal(amount),
                        Some(reason), replies, maxRetries).result.Ok?
    ensures r.1.RefundInitiated? ==> r.0.payments[IndexById(st.payments, urlPaymentId).value].status == Refunded
    ensures !r.1.RefundInitiated? ==> r.0 == st
  {
    match IndexById(st.payments, urlPaymentId)
    case None => (st, RefundNotFound)
    case Some(i) =>
      match V.ValidateRefund(st.payments, bodyPaymentId, amount, reason)
      case Err(why) => (st, RefundRejected(why))
      case Ok(_) => ApplyRefund(st, i, amount, reason, replies, maxRetries, now)
  }

  /** A COMPLETED payment in the body lets the view refund a FAILED payment
      named in the URL. */
  lemma RefundOfFailedPaymentAccepted(completed: Payment, failed: Payment, body: Json, now: Time)
    requires completed.id != failed.id && completed.status == Completed && completed.refundAmount.None?
    requires failed.status == Failed
    ensures var st := Store([], [completed, failed], [], [], map[]);
      var r := RefundViewAsWritten(st, failed.id, completed.id, None, "duplicate charge", [Http(200, body, "")], 1, now);
      r.1.RefundInitiated? && r.0.payments[1].status == Refunded
      && RefundView(st, failed.id, None, "duplicate charge", [Http(200, body, "")], 1, now) == (st, RefundRejected(V.InvalidPayment))
  {
    var st := Store([], [completed, failed], [], [], map[]);
    var replies := [Http(200, body, "")];
    assert st.payments[0] == completed && st.payments[1] == failed;
    var k := IndexById(st.payments, failed.id);
    assert st.payments[1].id == failed.id;
    assert k.Some?;
    assert k == Some(1);
    assert completed in st.payments && failed in st.payments;
    assert V.PaymentById(st.payments, completed.id) == Some(completed);
    assert V.PaymentById(st.payments, failed.id) == Some(failed);
    assert V.ValidateRefund(st.payments, completed.id, None, "duplicate charge").Ok?;
    assert V.ValidateRefund(st.payments, failed.id, None, "duplicate charge") == Err(V.InvalidPayment);
    FirstDecisiveReplyDecides(replies, 1, 0);
    assert InitiateRefund(st.cache, failed.pidx, None, Some("duplicate charge"), replies, 1).result == Ok(body);
    var r := ApplyRefund(st, 1, None, "duplicate charge", replies, 1, now);
    assert r.1 == RefundInitiated(failed.amount);
    assert RefundViewAsWritten(st, failed.id, completed.id, None, "duplicate charge", replies, 1, now) == r;
  }

  /** The refund view with the validation applied to the payment it refunds. */
  function RefundView(st: Store, paymentId: string, amount: Option<int>, reason: string,
                      replies: seq<Reply>, maxRetries: nat, now: Time): (r: (Store, RefundOutcome))
    requires maxRetries <= |replies|
    ensures |r.0.payments| == |st.payments| && KeepsRetriesAndPidx(st.payments, r.0.payments)
    ensures IndexById(st.payments, paymentId).None? ==> r.0 == st && !r.1.RefundInitiated?
    ensures r.1.RefundInitiated? ==>
      && var i := IndexById(st.payments, paymentId).value;
         && st.payments[i].status == Completed && !V.AmountGiven(st.payments[i].refundAmount)
         && r.0.payments[i].status == Refunded
         && (st.payments[i].amount > 0 ==> 0 < r.1.amount <= st.payments[i].amount)
    ensures r.1.RefundInitiated? <==>
      && V.ValidateRefund(st.payments, paymentId, amount, reason).Ok?
      && InitiateRefund(st.cache, st.payments[IndexById(st.payments, paymentId).value].pidx, AsDecimal(amount),
                        Some(reason), replies, maxRetries).result.Ok?
    ensures !r.1.RefundInitiated? ==> r.0 == st
    ensures r.0.subscriptions == st.subscriptions && r.0.events == st.events && r.0.cache == st.cache
  {
    match IndexById(st.payments, paymentId)
    case None => (st, RefundNotFound)
    case Some(i) =>
      match V.ValidateRefund(st.payments, paymentId, amount, reason)
      case Err(why) => (st, RefundRejected(why))
      case Ok(_) =>
        assert V.PaymentById(st.payments, paymentId) == Some(st.payments[i]);
        ApplyRefund(st, i, amount, reason, replies, maxRetries, now)
  }

  /** An accepted refund whose first gateway reply is a 200 refunds the
      payment: REFUNDED, with the requested amount (the full amount when none
      or zero was asked for) and the reply kept under 'refund_data'. */
  lemma {:induction false} AcceptedRefundSucceeds(st: Store, paymentId: string, amount: Option<int>, reason: string,
                                                  replies: seq<Reply>, maxRetries: nat, body: Json, text: string, now: Time)
    requires V.ValidateRefund(st.payments, paymentId, amount, reason).Ok?
    requires 0 < maxRetries <= |replies| && replies[0] == Http(200, body, text)
    ensures IndexById(st.payments, paymentId).Some?
    ensures var i := IndexById(st.payments, paymentId).value;
      var r := RefundView(st, paymentId, amount, reason, replies, maxRetries, now);
      && r.1 == RefundInitiated(if V.AmountGiven(amount) then amount.value else st.payments[i].amount)
      && r.0.payments[i].status == Refunded
      && r.0.payments[i].gatewayResponse == st.payments[i].gatewayResponse["refund_data" := JObj(body)]
  {
    FirstDecisiveReplyDecides(replies, maxRetries, 0);
    var i := IndexById(st.payments, paymentId).value;
    assert InitiateRefund(st.cache, st.payments[i].pidx, AsDecimal(amount), Some(reason), replies, maxRetries).result == Ok(body);
  }

  // ---------------------------------------------------------------------------
  // WebhookViewSet

  const PaymentCompletedEvent: string := "payment.completed"
  const PaymentFailedEvent: string := "payment.failed"
  const RefundCompletedEvent: string := "refund.completed"
  const DefaultFailureReason: string := "Payment failed"

  /** `event_data.get('failure_reason', 'Payment failed')`: the default only
      when the key is absent; a JSON null stores no reason. */
  function FailureReason(data: Json): (r: Option<string>)
    ensures "failure_reason" !in data ==> r == Some(DefaultFailureReason)
    ensures "failure_reason" in data ==> r == GetText(data, "failure_reason")
  {
    if "failure_reason" !in data then Some(DefaultFailureReason) else GetText(data, "failure_reason")
  }

  /** The row a handler acts on: the one carrying the body's pidx, if the body
      has a non-empty one and some row carries it. */
  function Target(st: Store, data: Json): (r: Option<nat>)
    ensures r.Some? ==> r.value < |st.payments| && GetText(data, "pidx") == Some(st.payments[r.value].pidx)
    ensures r.None? <==> !Given(GetText(data, "pidx")) || !PidxInUse(st.payments, GetText(data, "pidx").value)
  {
    var pidx := GetText(data, "pidx");
    if !Given(pidx) then None else IndexByPidx(st.payments, pidx.value)
  }

  /** `_handle_payment_completed`: completes the payment unless it already is. */
  function HandlePaymentCompleted(st: Store, data: Json, now: Time): (r: (Store, Option<string>))
    ensures Target(st, data).None? ==> r == (st, None)
    ensures var i := Target(st, data);
      && (i.Some? && st.payments[i.value].status == Completed ==> r == (st, Some(st.payments[i.value].id)))
      && (i.Some? && st.payments[i.value].status != Completed ==>
            r == (Complete(st, i.value, GetText(data, "transaction_id"), data, now), Some(st.payments[i.value].id)))
  {
    match Target(st, data)
    case None => (st, None)
    case Some(i) =>
      var p := st.payments[i];
      if p.status != Completed then (Complete(st, i, GetText(data, "transaction_id"), data, now), Some(p.id))
      else (st, Some(p.id))
  }

  /** `_handle_payment_failed`: fails the payment unless it already is FAILED;
      a COMPLETED or REFUNDED payment is failed too. */
  function HandlePaymentFailed(st: Store, data: Json, now: Time): (r: (Store, Option<string>))
    ensures Target(st, data).None? ==> r == (st, None)
    ensures var i := Target(st, data);
      && (i.Some? && st.payments[i.value].status == Failed ==> r == (st, Some(st.payments[i.value].id)))
      && (i.Some? && st.payments[i.value].status != Failed ==>
            && r.1 == Some(st.payments[i.value].id)
            && r.0 == st.(payments := st.payments[i.value := MarkAsFailed(st.payments[i.value], FailureReason(data), data, now)],
                          notices := st.notices + [Notice(st.payments[i.value].user, "payment_failed")]))
  {
    match Target(st, data)
    case None => (st, None)
    case Some(i) =>
      var p := st.payments[i];
      if p.status != Failed then
        (st.(payments := st.payments[i := MarkAsFailed(p, FailureReason(data), data, now)],
             notices := st.notices + [Notice(p.user, "payment_failed")]), Some(p.id))
      else (st, Some(p.id))
  }

  /** `_handle_refund_completed`: marks the payment REFUNDED whatever its status. */
  function HandleRefundCompleted(st: Store, data: Json, now: Time): (r: (Store, Option<string>))
    ensures |r.0.payments| == |st.payments|
    ensures Target(st, data).None? ==> r == (st, None)
    ensures var i := Target(st, data);
      i.Some? ==>
        && r.1 == Some(st.payments[i.value].id)
        && r.0 == st.(payments := st.payments[i.value := r.0.payments[i.value]],
                      notices := st.notices + [Notice(st.payments[i.value].user, "refund_completed")])
        && var p := st.payments[i.value];
           && r.0.payments[i.value] == p.(status := Refunded, refundedAt := Some(now),
                                          gatewayResponse := p.gatewayResponse["refund_webhook_data" := JObj(data)])
  {
    match Target(st, data)
    case None => (st, None)
    case Some(i) =>
      var p := st.payments[i];
      var q := p.(status := Refunded, refundedAt := Some(now),
                  gatewayResponse := p.gatewayResponse["refund_webhook_data" := JObj(data)]);
      (st.(payments := st.payments[i := q], notices := st.notices + [Notice(p.user, "refund_completed")]), Some(p.id))
  }

  /** The raw `type` of a webhook body; absent counts as null. */
  function EventType(data: Json): Value
  {
    if "type" in data then data["type"] else JNull
  }

  predicate IsEvent(data: Json, name: string)
  {
    EventType(data) == JStr(name)
  }

  /** `WebhookViewSet.create`. A body whose `type` is absent or null cannot be
      stored (the event type column is NOT NULL), so nothing is recorded. Any
      other body is recorded, dispatched on its type, and the record ends
      processed and linked to the payment the handler found. */
  function WebhookView(st: Store, data: Json, now: Time): (r: Store)
    ensures EventType(data) == JNull ==> r == st
    ensures EventType(data) != JNull ==>
      && |r.events| == |st.events| + 1 && r.events[..|st.events|] == st.events
      && r.events[|st.events|].eventType == EventType(data) && r.events[|st.events|].data == data
      && r.events[|st.events|].processed
      && (r.events[|st.events|].payment.Some? <==>
            Target(st, data).Some?
            && (IsEvent(data, PaymentCompletedEvent) || IsEvent(data, PaymentFailedEvent) || IsEvent(data, RefundCompletedEvent)))
    ensures Target(st, data).None? || !(IsEvent(data, PaymentCompletedEvent) || IsEvent(data, PaymentFailedEvent) || IsEvent(data, RefundCompletedEvent)) ==>
      r.payments == st.payments && r.subscriptions == st.subscriptions && r.notices == st.notices
    ensures r.cache == st.cache && |r.payments| == |st.payments|
    ensures KeepsRetriesAndPidx(st.payments, r.payments)
    ensures PidxUnique(st.payments) ==> PidxUnique(r.payments)
  {
    var t := EventType(data);
    if t == JNull then st
    else
      var handled :=
        if t == JStr(PaymentCompletedEvent) then HandlePaymentCompleted(st, data, now)
        else if t == JStr(PaymentFailedEvent) then HandlePaymentFailed(st, data, now)
        else if t == JStr(RefundCompletedEvent) then HandleRefundCompleted(st, data, now)
        else (st, None);
      handled.0.(events := st.events + [WebhookEvent(t, data, handled.1, true)])
  }

  // ---------------------------------------------------------------------------
  // Verification and webhook delivery converge

  /** Verification first: the completion webhook that follows finds the
      payment COMPLETED and changes nothing but the event log, so the payment
      is completed once, at the verification's time, with one notification. */
  lemma {:induction false} VerifyThenWebhookCompletesOnce(st: Store, i: nat, replies: seq<Reply>, maxRetries: nat,
                                                          t1: Time, data: Json, t2: Time)
    requires PidxUnique(st.payments) && i < |st.payments|
    requires maxRetries <= |replies|
    requires VerifyView(st, st.payments[i].user, st.payments[i].pidx, replies, maxRetries, t1).1 == Verified
    requires IsEvent(data, PaymentCompletedEvent) && GetText(data, "pidx") == Some(st.payments[i].pidx)
    ensures var s1 := VerifyView(st, st.payments[i].user, st.payments[i].pidx, replies, maxRetries, t1).0;
      var s2 := WebhookView(s1, data, t2);
      && s2.payments == s1.payments && s2.subscriptions == s1.subscriptions
      && s2.notices == st.notices + [Notice(st.payments[i].user, "payment_completed")]
      && st.payments[i].status != Completed
      && s2.payments[i].status == Completed && s2.payments[i].completedAt == Some(t1)
  {
    var p := st.payments[i];
    LookupFindsUnique(st.payments, i, p.user);
    var s1 := VerifyView(st, p.user, p.pidx, replies, maxRetries, t1).0;
    LookupFindsUnique(s1.payments, i, p.user);
  }

  /** Webhook first: the completion webhook completes the payment, and a later
      verification answers "already verified" without asking the gateway and
      without changing anything. */
  lemma {:induction false} WebhookThenVerifyCompletesOnce(st: Store, i: nat, data: Json, t1: Time,
                                                          replies: seq<Reply>, maxRetries: nat, t2: Time)
    requires PidxUnique(st.payments) && i < |st.payments|
    requires st.payments[i].status != Completed && st.payments[i].pidx != ""
    requires IsEvent(data, PaymentCompletedEvent) && GetText(data, "pidx") == Some(st.payments[i].pidx)
    requires maxRetries <= |replies|
    ensures var s1 := WebhookView(st, data, t1);
      && s1.payments[i].status == Completed && s1.payments[i].completedAt == Some(t1)
      && s1.notices == st.notices + [Notice(st.payments[i].user, "payment_completed")]
      && VerifyView(s1, st.payments[i].user, st.payments[i].pidx, replies, maxRetries, t2) == (s1, AlreadyVerified)
  {
    var p := st.payments[i];
    LookupFindsUnique(st.payments, i, p.user);
    var s1 := WebhookView(st, data, t1);
    LookupFindsUnique(s1.payments, i, p.user);
  }

  /** A redelivered completion webhook is recorded but changes no payment,
      subscription or notification. */
  lemma {:induction false} CompletionWebhookIdempotent(st: Store, data: Json, t1: Time, t2: Time)
    requires PidxUnique(st.payments) && IsEvent(data, PaymentCompletedEvent)
    ensures var s1 := WebhookView(st, data, t1);
      var s2 := WebhookView(s1, data, t2);
      && s2.payments == s1.payments && s2.subscriptions == s1.subscriptions && s2.notices == s1.notices
      && |s2.events| == |s1.events| + 1
  {
    var s1 := WebhookView(st, data, t1);
    match Target(st, data)
    case None =>
    case Some(i) =>
      LookupFindsUnique(s1.payments, i, "");
  }

  /** A repeated verification of a verified payment is answered without a
      gateway call and changes nothing. */
  lemma {:induction false} VerifyIdempotent(st: Store, i: nat, replies: seq<Reply>, maxRetries: nat, t1: Time,
                                            replies2: seq<Reply>, maxRetries2: nat, t2: Time)
    requires PidxUnique(st.payments) && i < |st.payments|
    requires maxRetries <= |replies| && maxRetries2 <= |replies2|
    requires VerifyView(st, st.payments[i].user, st.payments[i].pidx, replies, maxRetries, t1).1 == Verified
    ensures var s1 := VerifyView(st, st.payments[i].user, st.payments[i].pidx, replies, maxRetries, t1).0;
      VerifyView(s1, st.payments[i].user, st.payments[i].pidx, replies2, maxRetries2, t2) == (s1, AlreadyVerified)
  {
    var p := st.payments[i];
    LookupFindsUnique(st.payments, i, p.user);
    var s1 := VerifyView(st, p.user, p.pidx, replies, maxRetries, t1).0;
    LookupFindsUnique(s1.payments, i, p.user);
  }

  /** The failure webhook guards only against FAILED: delivered after a
      completion it turns the COMPLETED payment FAILED. */
  lemma FailureWebhookOverridesCompletion(st: Store, i: nat, data: Json, now: Time)
    requires PidxUnique(st.payments) && i < |st.payments|
    requires st.payments[i].status == Completed && st.payments[i].pidx != ""
    requires IsEvent(data, PaymentFailedEvent) && GetText(data, "pidx") == Some(st.payments[i].pidx)
    ensures WebhookView(st, data, now).payments[i].status == Failed
    ensures WebhookView(st, data, now).payments[i].failureReason == FailureReason(data)
  {
    LookupFindsUnique(st.payments, i, "");
  }

  /** The refund webhook marks the payment REFUNDED whatever its status was,
      even one that never completed. */
  lemma RefundWebhookUnconditional(st: Store, i: nat, data: Json, now: Time)
    requires PidxUnique(st.payments) && i < |st.payments| && st.payments[i].pidx != ""
    requires IsEvent(data, RefundCompletedEvent) && GetText(data, "pidx") == Some(st.payments[i].pidx)
    ensures WebhookView(st, data, now).payments[i].status == Refunded
    ensures WebhookView(st, data, now).payments[i].refundedAt == Some(now)
    ensures WebhookView(st, data, now).notices == st.notices + [Notice(st.payments[i].user, "refund_completed")]
  {
    LookupFindsUnique(st.payments, i, "");
  }

  // ---------------------------------------------------------------------------
  // Invariants over any sequence of requests

  /** A request to one of the views, with the gateway's scripted replies. */
  datatype Action =
    | CreateAction(plans: seq<Sub.Plan>, user: string, planId: string, startTrial: bool, autoRenew: bool, newId: string)
    | InitiateAction(payer: V.User, subscriptionId: string, returnUrl: string, websiteUrl: string,
                     name: Option<string>, email: Option<string>, phone: Option<string>,
                     paymentId: string, placeholderPidx: string, replies: seq<Reply>)
    | VerifyAction(user: string, pidx: string, replies: seq<Reply>)
    | RetryAction(paymentId: string)
    | RefundAction(urlPaymentId: string, bodyPaymentId: string, amount: Option<int>, reason: string, replies: seq<Reply>)
    | WebhookAction(data: Json)

  /** The script holds a reply for every attempt the client may make. */
  predicate Scripted(a: Action)
  {
    (a.InitiateAction? || a.VerifyAction? || a.RefundAction?) ==> DefaultMaxRetries <= |a.replies|
  }

  /** One request, served at time `now`; a rejected creation changes nothing. */
  function Apply(st: Store, a: Action, now: Time): Store
    requires Scripted(a)
  {
    match a
    case CreateAction(plans, user, planId, startTrial, autoRenew, newId) =>
      var r := CreateSubscription(st, plans, user, planId, startTrial, autoRenew, newId, now);
      if r.Ok? then r.value else st
    case InitiateAction(payer, subscriptionId, returnUrl, websiteUrl, name, email, phone, paymentId, placeholderPidx, replies) =>
      InitiateView(st, payer, subscriptionId, returnUrl, websiteUrl, name, email, phone,
                   paymentId, placeholderPidx, replies, DefaultMaxRetries, now).0
    case VerifyAction(user, pidx, replies) => VerifyView(st, user, pidx, replies, DefaultMaxRetries, now).0
    case RetryAction(paymentId) => RetryView(st, paymentId).0
    case RefundAction(urlPaymentId, bodyPaymentId, amount, reason, replies) =>
      RefundViewAsWritten(st, urlPaymentId, bodyPaymentId, amount, reason, replies, DefaultMaxRetries, now).0
    case WebhookAction(data) => WebhookView(st, data, now)
  }

  /** The requests in order, the k-th at `times[k]`. */
  function RunActions(st: Store, actions: seq<Action>, times: seq<Time>): Store
    requires |actions| == |times|
    requires forall k :: 0 <= k < |actions| ==> Scripted(actions[k])
    decreases |actions|
  {
    if |actions| == 0 then st
    else RunActions(Apply(st, actions[0], times[0]), actions[1..], times[1..])
  }

  /** The pidx column is unique and no payment has been retried more than
      `MaxPaymentRetries` times. */
  predicate Consistent(st: Store)
  {
    && PidxUnique(st.payments)
    && forall k :: 0 <= k < |st.payments| ==> st.payments[k].retryCount <= MaxPaymentRetries
  }

  /** Keeping every row's pidx keeps the column unique. */
  lemma SamePidxKeepsUnique(before: seq<Payment>, after: seq<Payment>)
    requires PidxUnique(before) && |before| == |after|
    requires KeepsRetriesAndPidx(before, after)
    ensures PidxUnique(after)
  {
  }

  /** Every view keeps the store consistent. */
  lemma ApplyKeepsConsistent(st: Store, a: Action, now: Time)
    requires Scripted(a) && Consistent(st)
    ensures Consistent(Apply(st, a, now))
  {
    match a
    case CreateAction(plans, user, planId, startTrial, autoRenew, newId) =>
    case InitiateAction(payer, subscriptionId, returnUrl, websiteUrl, name, email, phone, paymentId, placeholderPidx, replies) =>
      var r := InitiateView(st, payer, subscriptionId, returnUrl, websiteUrl, name, email, phone,
                            paymentId, placeholderPidx, replies, DefaultMaxRetries, now);
      ExtensionKeepsRetriesAndPidx(st.payments, r.0.payments);
    case VerifyAction(user, pidx, replies) =>
    case RetryAction(paymentId) =>
      var r := RetryView(st, paymentId);
      if r.1.Retried? {
        UpdateKeepsPidxUnique(st.payments, IndexById(st.payments, paymentId).value, r.0.payments[IndexById(st.payments, paymentId).value]);
      }
    case RefundAction(urlPaymentId, bodyPaymentId, amount, reason, replies) =>
      SamePidxKeepsUnique(st.payments, RefundViewAsWritten(st, urlPaymentId, bodyPaymentId, amount, reason,
                                                           replies, DefaultMaxRetries, now).0.payments);
    case WebhookAction(data) =>
  }

  /** The corrected refund view keeps the store consistent as well. */
  lemma RefundViewKeepsConsistent(st: Store, paymentId: string, amount: Option<int>, reason: string,
                                  replies: seq<Reply>, maxRetries: nat, now: Time)
    requires maxRetries <= |replies| && Consistent(st)
    ensures Consistent(RefundView(st, paymentId, amount, reason, replies, maxRetries, now).0)
  {
    SamePidxKeepsUnique(st.payments, RefundView(st, paymentId, amount, reason, replies, maxRetries, now).0.payments);
  }

  /** Over any sequence of requests the pidx column stays unique and no
      payment's `retry_count` passes `MaxPaymentRetries`. */
  lemma {:induction false} RunKeepsConsistent(st: Store, actions: seq<Action>, times: seq<Time>)
    requires |actions| == |times|
    requires forall k :: 0 <= k < |actions| ==> Scripted(actions[k])
    requires Consistent(st)
    ensures Consistent(RunActions(st, actions, times))
    decreases |actions|
  {
    if |actions| > 0 {
      ApplyKeepsConsistent(st, actions[0], times[0]);
      RunKeepsConsistent(Apply(st, actions[0], times[0]), actions[1..], times[1..]);
    }
  }
}
