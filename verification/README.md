# django-khalti subscription and payment core in Dafny

This project models the reconciliation core of a Django application. The application sells
subscription plans and takes payment through the Khalti e-payment gateway. The model covers
the following parts:

- **The subscription state machine** (`khalti/models.py`): trial start, conversion to paid,
  trial extension, cancellation and renewal. It also covers the activity predicates,
  `days_until_expiry` and the `clean` date check.
- **The payment state machine**: `mark_as_completed`, `mark_as_failed`, `can_retry`, and the
  usage limits.
- **The gateway client** (`khalti/khalti_service.py`): rupee/paisa conversion, the bounded
  retry loop with exponential back-off, the de-duplication marker and verification cache, and
  the three request payloads.
- **Order ids** (`khalti/utils.py`).
- **The request validators** (`khalti/serializers.py`).
- **The list filters** (`khalti/filters.py`).
- **The views' state changes** (`khalti/views.py`): subscription creation, payment initiation,
  verification, retry, refund, the dashboard notifications and the three webhook handlers.

Everything is a pure function over immutable datatypes:

- The database rows are sequences in a `Store`. The cache is a map.
- The clock is an integer count of seconds, passed in as `now`.
- The gateway's answers are a scripted sequence of replies, one per attempt.
- An exception the source raises is an `Err` or a dedicated outcome constructor.
- Money columns (two decimal places) are integer counts of hundredths.
- The gateway conversion works on an exact `Decimal(units, scale)`, so truncation of a third
  decimal place is visible.

The central properties are these:

- **Verification and webhook delivery converge.** A payment is completed once, with one
  notification, whichever of the client's verification and the gateway's completion webhook
  arrives first. Repeating either changes nothing.
- **Invariants of the store.** Over any sequence of requests, the pidx column stays unique and
  no payment passes three retries. This covers the refund view as written, and the corrected
  refund view keeps the same invariant.
- **The retry loop.** Its outcome is decided by the first reply that is not retried.
- **Round trips.** Money conversion and order ids both round-trip.

Files, each one module:

| file | module | contents |
|---|---|---|
| `base.dfy` | `Base` | Option and Result, time, and the JSON values |
| `numerals.dfy` | `Numerals` | `str(int)` and its inverse |
| `money.dfy` | `Money` | rupees and paisa |
| `subscriptions.dfy` | `Subscriptions` | the subscription state machine |
| `payments.dfy` | `Payments` | the payment state machine and usage |
| `gateway.dfy` | `Gateway` | the gateway client |
| `order_ids.dfy` | `OrderIds` | order ids |
| `validators.dfy` | `Validators` | the serializers' checks |
| `filters.dfy` | `Filters` | the filter sets |
| `reconcile.dfy` | `Reconcile` | the views and the webhooks |
| `dashboard.dfy` | `Dashboard` | the dashboard notifications |

Where the code and its written description disagree, the model follows the code:

- **A webhook body without a `type`, or with a null `type`, is not recorded.** The event type
  column is NOT NULL, so the insert raises and the view answers 500.
- **A refund amount of zero passes validation**, because zero is falsy, and it records a full
  refund.
- **`mark_as_completed` has no guard of its own.** Only the callers keep a completed payment
  from being completed again.
- **A gateway pidx that another row already carries leaves the new payment PENDING.** The
  unique constraint refuses the update, and the view's handler then cannot save the FAILED
  state either.
- **The dashboard fails on three inputs:**
  - several current subscriptions;
  - a missing usage row;
  - a plan limit of zero, because the usage percentages divide by it.
- **The serializer's "trial already used for this plan" check can never fire.** Any row it
  would find has already been refused by the "already subscribed" check.

## Model

| member | source | states |
|---|---|---|
| Subscriptions.DurationDays | khalti/models.py:74-81 | quarterly is 90 days, yearly 365; every other stored value, known or not, falls back to 30 |
| Subscriptions.NewSubscription | khalti/models.py:83-103 | a freshly created subscription is in TRIAL with the trial unused and all four dates unset |
| Subscriptions.StartTrial | khalti/models.py:161-173 | succeeds exactly when the trial is unused and the plan offers one (the used-trial error wins when both fail); the trial opens now and lasts the plan's trial days; nothing else changes |
| Subscriptions.ConvertToPaid | khalti/models.py:175-183 | succeeds exactly on a TRIAL subscription; the paid window opens now and lasts one plan duration; nothing else changes |
| Subscriptions.ExtendTrial | khalti/models.py:185-193 | refused outside TRIAL; fails on a trial without an end date (adding to NULL); otherwise moves the end by the days and accumulates the extension |
| Subscriptions.Cancel | khalti/models.py:195-205 | always stamps the cancel time; immediate ends the subscription now as CANCELLED, otherwise status and end date are kept and only renewal is stopped |
| Subscriptions.Renew | khalti/models.py:207-214 | succeeds exactly on an ACTIVE subscription with an end date; the new window starts where the old one ended and lasts one plan duration |
| Subscriptions.DaysUntilExpiry | khalti/models.py:150-159 | the whole days (rounded down) left in the running trial, else in the paid window of an ACTIVE subscription, else 0 |
| Subscriptions.TransitionsDecideIsActive | khalti/models.py:133-205 | a started trial and a fresh conversion are active at once, and a converted subscription stays active exactly until one plan duration has passed; an immediate cancel is never active again; a cancel at period end leaves activity as it was |
| Subscriptions.StepKeepsTrialUsed | khalti/models.py:161-214 | no transition clears `trial_used` or changes the owner or plan |
| Subscriptions.TrialUsedMonotone | khalti/models.py:161-214 | over any history of requests `trial_used` never goes back to false |
| Subscriptions.NoSecondTrial | khalti/models.py:161-164 | once a trial has started, every later `start_trial` is refused, whatever happened in between |
| Subscriptions.ConvertKeepsClean | khalti/models.py:116-123 | conversion produces a paid window `clean` accepts and keeps a clean record clean |
| Subscriptions.RenewKeepsClean | khalti/models.py:116-123 | renewal keeps a clean record clean |
| Subscriptions.StartTrialClean | khalti/models.py:116-123 | a started trial passes `clean` exactly when the plan's trial lasts at least one day |
| Subscriptions.ExtendKeepsClean | khalti/models.py:116-123 | an extension by a positive number of days keeps a clean record clean |
| Subscriptions.CancelClean | khalti/models.py:116-123 | a deferred cancel keeps a record clean; an immediate one does exactly when the paid window had not started after now |
| Payments.NewPayment | khalti/views.py:326-333 | the row inserted at initiation is PENDING under the placeholder pidx with no retries, no refund and an empty gateway response |
| Payments.CompletePayment | khalti/models.py:258-268 | the payment is COMPLETED at now; the transaction id and gateway response are replaced only by truthy values; nothing else changes |
| Payments.ConvertIfTrial | khalti/models.py:270-273 | a TRIAL subscription is converted to paid, any other is left alone, so completion never raises |
| Payments.MarkAsCompleted | khalti/models.py:258-273 | completion of payment and subscription: the payment is COMPLETED and the subscription is no longer in TRIAL |
| Payments.MarkAsFailed | khalti/models.py:275-284 | the payment is FAILED at now, the failure reason is overwritten even by none, the response only by a truthy one |
| Payments.OverLimitResources | khalti/models.py:313-322 | only users, projects and storage can be over limit; a zero limit puts users or projects over it at once |
| Payments.ResetUsage | khalti/models.py:324-328 | the API-call counter is zeroed and the reset time stamped; the other counters and the limit are kept |
| Payments.ResetKeepsLimits | khalti/models.py:313-328 | a reset never changes a resource's over-limit verdict |
| Money.TruncDiv | khalti/khalti_service.py:76-78 | Python's `int()` of an exact quotient: truncation toward zero for either sign, not Dafny's Euclidean division |
| Money.ToPaisa | khalti/khalti_service.py:76-78 | the paisa count is the rupee amount times 100 cut toward zero: bracketed within one paisa from the zero side |
| Money.ToRupees | khalti/khalti_service.py:80-82 | the rupee amount is exactly the paisa count divided by 100 |
| Money.RupeesPaisaRoundTrip | khalti/khalti_service.py:76-82 | for at most two decimal places no paisa is lost: converting back gives the same number, negative amounts included |
| Money.PaisaRupeesRoundTrip | khalti/khalti_service.py:76-82 | every paisa amount survives the trip to rupees and back |
| Money.ThirdDecimalTruncated | khalti/khalti_service.py:76-78 | a third decimal is dropped toward zero: 10.999 is 1099 paisa and -10.999 is -1099 |
| Numerals.ParseNatToString | khalti/utils.py:14-15 | reading the rendered numeral of a number gives the number back |
| Numerals.NatToStringInjective | khalti/utils.py:14-15 | different numbers render as different numerals |
| OrderIds.UnixSeconds | khalti/utils.py:14 | the timestamp is the clock reading in whole seconds, the fraction cut toward zero on either side of the epoch |
| OrderIds.GenerateOrderId | khalti/utils.py:9-15 | the id starts with "SUB-" and, from the epoch on, parses back to the subscription id and the timestamp |
| OrderIds.ParseOrderIdRoundTrip | khalti/utils.py:15 | splitting an order id at its last '-' recovers the subscription id (which may itself contain '-') and the timestamp |
| OrderIds.OrderIdInjective | khalti/utils.py:9-15 | two order ids with non-negative timestamps are equal only for the same subscription and second |
| OrderIds.NegativeTimestampCollides | khalti/utils.py:14-15 | before the epoch the sign makes two different (subscription, second) pairs give the same id |
| Gateway.Final | khalti/khalti_service.py:103-124 | a reply that ends the loop succeeds exactly on a 200; 400, 401 and other codes raise, never as max-retries or duplicate |
| Gateway.Attempt | khalti/khalti_service.py:94-131 | every attempt before the last was retried; the call fails with max retries only after all attempts, else the last reply decides; the back-off before attempt i+1 is 2^i seconds |
| Gateway.MakeRequest | khalti/khalti_service.py:84-131 | at most max_retries attempts; a success returns the body of a 200 reply; delays are 1, 2, 4, ... seconds |
| Gateway.FirstDecisiveReplyDecides | khalti/khalti_service.py:94-124 | the first reply that is not retried decides the call after exactly that many attempts and that many sleeps |
| Gateway.AllRateLimitedExhausts | khalti/khalti_service.py:116-131 | if every attempt is rate limited, all attempts are made, each followed by a sleep, and "Max retries exceeded" is raised |
| Gateway.NetworkErrorOnLastAttempt | khalti/khalti_service.py:126-128 | a transport error on the last attempt is raised as a network error carrying its detail |
| Gateway.RateLimitedTwiceThenOk | khalti/khalti_service.py:116-119 | two 429s and a 200 succeed on the third attempt after sleeping 1 and 2 seconds |
| Gateway.KeyFamiliesDisjoint | khalti/khalti_service.py:158-208 | an initiation marker key never equals or looks like a verification key |
| Gateway.BadRequestMessage | khalti/khalti_service.py:107-112 | a 400 reports the body's `message` as Python prints it: a string as itself, a null as "None"; only a missing key gives "Invalid request" |
| Gateway.InitiatePayload | khalti/khalti_service.py:164-178 | the body carries the amount in paisa and the order id; the customer's name, e-mail and phone are the given ones, defaulting to empty, empty and 9800000000; custom data is sent exactly when it is non-empty |
| Gateway.InitiatePayloadCarriesPrice | khalti/khalti_service.py:164-167 | a price in hundredths of a rupee is sent as that many paisa, which convert back to the price |
| Gateway.InitiatePayment | khalti/khalti_service.py:158-196 | a truthy cached marker refuses without a request; otherwise the payload is sent and the call returns the retry loop's result, attempts and delays; only a success stores its response as the marker |
| Gateway.SecondInitiationIsDuplicate | khalti/khalti_service.py:158-186 | after an initiation that returned a non-empty response, the same order is refused as a duplicate without any attempt |
| Gateway.VerifyPayment | khalti/khalti_service.py:208-227 | a truthy cached result is returned without a request; otherwise the call returns the retry loop's result, attempts and delays, and the result enters the cache exactly when its status is 'Completed' |
| Gateway.VerifyKeepsCacheSound | khalti/khalti_service.py:208-227 | verification entries in the cache only ever hold completed results, so a cached verification always reports 'Completed' |
| Gateway.InitiateKeepsCacheSound | khalti/khalti_service.py:158-186 | initiation markers never disturb the verification entries |
| Gateway.RefundPayload | khalti/khalti_service.py:274-280 | the body always carries the pidx, the amount in paisa exactly when it is non-zero, the reason exactly when it is non-empty, and nothing else |
| Gateway.InitiateRefund | khalti/khalti_service.py:262-294 | the refund payload goes through the retry loop, up to max_retries attempts, and the call returns the loop's result, attempts and delays; the cache is untouched |
| Gateway.RefundPayloadCarriesAmount | khalti/khalti_service.py:274-278 | a non-zero refund amount in hundredths is sent as that many paisa, which convert back to the amount; a zero amount is not sent |
| Validators.ActivePlan | khalti/serializers.py:174-180 | the plan found is in the table, has the id and is active; none found means no active plan has the id |
| Validators.ValidateSubscriptionCreate | khalti/serializers.py:174-201 | accepted exactly when the plan exists and is active, the user has no subscription to it, and a requested trial is offered; the used-trial rejection never occurs |
| Validators.ValidatePaymentInitiate | khalti/serializers.py:212-241 | accepted exactly when the subscription belongs to the user and none of its payments is PENDING or INITIATED, else rejected for the first check that fails; given customer details and URLs are kept, and missing or blank name, e-mail and phone default to the account's full name or username, e-mail and 9800000000 |
| Validators.ValidateExtensionDays | khalti/serializers.py:262 | accepted exactly for 1 to 30 days inclusive |
| Validators.AcceptedExtensionKeepsClean | khalti/serializers.py:260-263 | an accepted extension keeps a clean trial clean and moves its end strictly later |
| Validators.ValidateRefund | khalti/serializers.py:265-297 | accepted exactly when the payment exists and is COMPLETED, the amount is not negative, a truthy amount does not exceed the payment's, and no truthy refund amount is recorded |
| Validators.AcceptedRefundAmountBounded | khalti/serializers.py:279-297 | the amount an accepted refund records is positive and at most the payment's amount, and a zero amount means a full refund |
| Filters.Select | khalti/filters.py:197-201 | `queryset.filter`: exactly the rows meeting the condition, a sub-multiset of the input |
| Filters.SelectIdempotent | khalti/filters.py:197-201 | filtering twice by one condition is filtering once |
| Filters.SelectKeepsAll | khalti/filters.py:197-201 | a filter returns its input unchanged exactly when every row meets the condition |
| Filters.FilterActive | khalti/filters.py:80-88 | with the flag, exactly the ACTIVE rows whose end is not past and the TRIAL rows whose trial end is not past; without it, the input |
| Filters.FilterTrial | khalti/filters.py:90-99 | with the flag, exactly the rows whose trial `is_trial_active` holds now |
| Filters.FilterExpiringSoon | khalti/filters.py:101-110 | with the flag, exactly the ACTIVE or TRIAL rows whose window ends no later than seven days from now |
| Filters.TrialFilterIsTrialActive | khalti/filters.py:90-99 | the trial filter's row condition is `is_trial_active` |
| Filters.ActiveFilterAdmitsIsActive | khalti/filters.py:80-88 | every row `is_active` holds of passes the active filter |
| Filters.ActiveFilterAdmitsFutureTrial | khalti/filters.py:80-88 | the active filter also keeps a trial that has not started, which `is_active` rejects |
| Filters.ExpiringSoonIncludesExpired | khalti/filters.py:101-110 | the expiring-soon filter keeps windows that closed in the past |
| Filters.FilterCompleted | khalti/filters.py:197-201 | with the flag, exactly the COMPLETED payments |
| Filters.FilterFailed | khalti/filters.py:203-207 | with the flag, exactly the FAILED payments |
| Filters.FilterPending | khalti/filters.py:209-215 | with the flag, exactly the PENDING and INITIATED payments |
| Filters.FilterRefunded | khalti/filters.py:217-221 | with the flag, exactly the REFUNDED payments |
| Filters.PaymentFiltersPartition | khalti/filters.py:197-221 | the four payment filters are disjoint and together miss only CANCELLED payments |
| Reconcile.IndexByPidx | khalti/serializers.py:247-253 | the row found carries the pidx; none is found exactly when no row does |
| Reconcile.IndexOwnedByPidx | khalti/views.py:413-419 | the row found carries the pidx and belongs to the user; none found means no such row |
| Reconcile.IndexById | khalti/views.py:490 | `get_object`: the row found has the id; none found means no row has it |
| Reconcile.LookupFindsUnique | khalti/models.py:226 | under the unique pidx column a pidx lookup finds the one row carrying it |
| Reconcile.UpdateKeepsPidxUnique | khalti/models.py:226 | rewriting a row without changing its pidx keeps the column unique |
| Reconcile.SamePidxKeepsUnique | khalti/models.py:226 | a change that keeps every row's pidx keeps the column unique |
| Reconcile.Complete | khalti/models.py:258-273 | completion touches one payment, converts its subscription if that is in TRIAL, leaves every other row alone and adds one 'payment_completed' notice |
| Reconcile.CreateSubscription | khalti/views.py:109-132 | a request is accepted exactly when validation accepts it; the new row belongs to the user and plan, starts the trial when asked and otherwise has no trial dates; one 'subscription_created' notice |
| Reconcile.AcceptedTrialStarts | khalti/views.py:120-122 | after validation has accepted a trial request, starting the trial on the new row cannot fail |
| Reconcile.SettleInitiation | khalti/views.py:363-403 | the inserted row becomes INITIATED with the gateway's pidx and URL exactly when the reply has both and the pidx is free; a gateway error or a missing key leaves it FAILED with that message, under the gateway's pidx when only the URL was missing; a clashing pidx leaves it PENDING; existing rows are untouched and the pidx column stays unique |
| Reconcile.OrderCall | khalti/views.py:337-361 | the client is asked for the plan's price in paisa, under the order id of the subscription and the current second, with the validated customer details; an uncached order returns the retry loop's result |
| Reconcile.InitiateView | khalti/views.py:313-403 | rejected exactly when validation rejects, with nothing changed; otherwise one PENDING row for the plan's price, with no retries, is inserted and settled by the gateway's answer to the order call, which decides the outcome; existing rows and everything but payments and the cache are unchanged; the pidx column stays unique |
| Reconcile.RateLimitedInitiationSucceeds | khalti/views.py:350-369 | two 429 replies and then a reply with a free pidx and a payment URL leave the new payment INITIATED under that pidx, with the reply cached as the order's marker |
| Reconcile.SettledBlocksOrFrees | khalti/serializers.py:221-232 | a settled row left INITIATED or PENDING makes validation refuse the next initiation of its subscription; a FAILED one keeps an accepted request acceptable |
| Reconcile.InitiationBlocksSubscription | khalti/serializers.py:221-232 | after an initiation that left its payment INITIATED or PENDING, any further initiation of the subscription is refused |
| Reconcile.FailedInitiationFreesSubscription | khalti/serializers.py:221-232 | after an initiation that ended FAILED, the same request passes validation again |
| Reconcile.ExtensionKeepsRetriesAndPidx | khalti/views.py:326-333 | a table that only gains rows keeps every old row's pidx and retry count |
| Reconcile.SettleVerification | khalti/views.py:432-476 | after the gateway's answer: the payment is completed, with one notice, exactly when the answer says 'Completed'; a gateway error, and only that, marks it FAILED with the error's message; any other answer changes nothing |
| Reconcile.VerifyView | khalti/views.py:406-485 | an unknown or foreign pidx changes nothing; a COMPLETED payment is answered "already verified" without a request; otherwise the payment is completed with one notice exactly when the client answers 'Completed', marked FAILED with the message exactly when the client raises, and left alone on any other answer |
| Reconcile.RetryView | khalti/views.py:488-518 | refused unless the payment is FAILED with fewer than three retries; otherwise only that payment changes, back to PENDING with one more retry, never more than three |
| Reconcile.ApplyRefund | khalti/views.py:529-576 | refunds exactly when the client's refund call succeeds: the payment is REFUNDED with the requested amount when truthy else the full amount, the reason and time, the client's answer under 'refund_data' beside the old response, and one 'refund_initiated' notice; a client error is reported with its message and changes nothing |
| Reconcile.RefundViewAsWritten | khalti/views.py:520-578 | refunds exactly when the URL's payment exists, the body's payment id passes validation and the client's call for the URL's payment succeeds; the URL's payment is the one REFUNDED; any refusal changes nothing; pidx and retry counts are kept |
| Reconcile.RefundOfFailedPaymentAccepted | khalti/views.py:520-525 | a COMPLETED payment named in the body gets a FAILED payment named in the URL refunded; the corrected view rejects the same request |
| Reconcile.RefundView | khalti/views.py:520-578 | refunds exactly when the payment passes validation and the client's call succeeds; only a COMPLETED, not yet refunded payment is refunded, for a positive amount at most its own; any refusal or gateway error changes nothing; pidx and retry counts are kept |
| Reconcile.AcceptedRefundSucceeds | khalti/views.py:529-546 | an accepted refund whose first gateway reply is a 200 leaves the payment REFUNDED for the requested amount, or the full amount when none was asked, with the reply under 'refund_data' |
| Reconcile.RefundViewKeepsConsistent | khalti/models.py:226 | the corrected refund view keeps the pidx column unique and every retry count at most three |
| Reconcile.Target | khalti/views.py:738-744 | a handler acts on the row carrying the body's pidx; there is none exactly when the pidx is missing, blank or unknown |
| Reconcile.HandlePaymentCompleted | khalti/views.py:734-768 | completes the payment with one notice unless it is already COMPLETED, in which case nothing changes; an unknown pidx changes nothing |
| Reconcile.HandlePaymentFailed | khalti/views.py:770-804 | fails the payment with one notice unless it is already FAILED, including a COMPLETED or REFUNDED one |
| Reconcile.HandleRefundCompleted | khalti/views.py:806-842 | marks the payment REFUNDED whatever its status, keeping the body under 'refund_webhook_data', with one notice |
| Reconcile.WebhookView | khalti/views.py:691-732 | a body without a type records nothing; any other is recorded once, processed, and linked to a payment exactly when a handler found one; the pidx column stays unique |
| Reconcile.VerifyThenWebhookCompletesOnce | khalti/views.py:746-758 | after a successful verification the completion webhook changes no payment, subscription or notice: one completion, at the verification's time |
| Reconcile.WebhookThenVerifyCompletesOnce | khalti/views.py:422-427 | after the completion webhook a verification answers "already verified" and changes nothing |
| Reconcile.CompletionWebhookIdempotent | khalti/views.py:746-758 | a redelivered completion webhook is recorded but changes no payment, subscription or notice |
| Reconcile.VerifyIdempotent | khalti/views.py:422-427 | a second verification of a verified payment changes nothing and makes no request |
| Reconcile.FailureWebhookOverridesCompletion | khalti/views.py:782-787 | a failure webhook after completion turns the COMPLETED payment FAILED with the body's reason |
| Reconcile.RefundWebhookUnconditional | khalti/views.py:816-831 | the refund webhook marks any payment REFUNDED at now with one notice |
| Reconcile.ApplyKeepsConsistent | khalti/models.py:286-288 | every view keeps the pidx column unique and every retry count at most three |
| Reconcile.RunKeepsConsistent | khalti/models.py:286-288 | over any sequence of requests, the refund view as written included, the pidx column stays unique and no payment passes three retries |
| Dashboard.CurrentSubscription | khalti/views.py:588-595 | no current (ACTIVE or TRIAL) row gives none; exactly one gives that row; two or more are an error |
| Dashboard.TwoCurrentFail | khalti/views.py:588-595 | two current rows of one user make the dashboard fail |
| Dashboard.ExpiryNotifications | khalti/views.py:635-653 | an upgrade warning exactly for a running trial with at most three days left; a renew reminder exactly for an ACTIVE subscription outside a trial with at most seven days left |
| Dashboard.OpenEndedActiveIsReminded | khalti/views.py:644-653 | an ACTIVE subscription without an end date counts zero days and is always reminded |
| Dashboard.TrialWarningWindow | khalti/views.py:636-643 | a running trial is warned exactly when less than four full days remain |
| Dashboard.UsageNotifications | khalti/views.py:654-674 | one error notice per resource over its limit, users first |
| Dashboard.Notifications | khalti/views.py:584-685 | no current subscription gives no notices; several are an error; a missing usage row or a zero plan limit is an error; one current subscription with a usage row and no zero limit gives the expiry notices followed by the usage notices |
| Dashboard.ResetKeepsNotifications | khalti/models.py:324-328 | resetting the monthly API counter never changes the dashboard's notices |

The predicates `Subscriptions.IsTrialActive`, `Subscriptions.IsActive`, `Subscriptions.Clean`,
`Payments.CanRetry` and `Payments.IsOverLimit` transcribe `is_trial_active`, `is_active`,
`clean`, `can_retry` and `is_over_limit`. Their meaning is stated by the lemmas and contracts
above that use them.

## Left out

- I/O: the HTTP client, real sleeping, headers, configuration checks, logging and e-mail
  rendering. The replies and delays are scripted inputs and outputs, and a notification is the
  pair (recipient, template name).
- Cache timeouts: cache entries never expire. The source keeps an initiation marker for 300
  seconds and a 'Completed' verification for 3600 seconds (khalti/khalti_service.py:186, 224).
  In the model the cache lives in the store across requests served at different times, so a
  marker refuses its order and a cached verification is served for ever. This is a deliberate
  simplification: expiry is wall-clock behaviour of the cache backend.
- Concurrency and transactions: every request is one atomic step of the store.
- `get_payment_details`: it calls `verify_payment`, with its cache, and reshapes the answer,
  converting `amount` and `fee` with `_convert_to_rupees` (khalti/khalti_service.py:236-260).
  No view of the core calls it. Its two ingredients are modelled as `Gateway.VerifyPayment`
  and `Money.ToRupees`.
- `get_refund_status`, the synchronous wrapper and `get_khalti_service`: the first is one
  `_make_request` call, and the others only construct or wrap the client.
- Gateway.GatewayError.Message: a 400 body whose `message` is a JSON object is shown as
  "{...}" rather than Python's dict repr, because the model's objects have no key order to
  print. Strings, null, booleans and integers are shown as Python shows them.
- OrderIds.UnixSeconds: truncates an exact microsecond reading. The source truncates the float
  `timestamp()` (khalti/utils.py:13), whose rounding can carry a reading just below a whole
  second into the next one. Float rounding is not modelled.
- `create_usage_record` and the usage row of a new subscription: `CreateSubscription` does not
  keep usage in the store.
- The views' HTTP response bodies, the dashboard's plans, recent payments and usage
  percentages (floating point), the stats views, permissions, URLs and the admin.
- Column lengths such as `max_length`, and the UUID format of ids. The placeholder pidx and
  new row ids are parameters, not random.
- `get_formatted_*`, `get_time_remaining` and other serializer display fields.
- A non-string JSON value under `pidx`, `payment_url`, `transaction_id`, `failure_reason` or
  `status` is treated as absent. The database would coerce it to text instead.
- Reconcile.InitiateView: the view calls the asynchronous client without awaiting it
  (khalti/views.py:350, 432, 532). The model follows the client's contract, as if the call
  were awaited, rather than the coroutine the view receives.
- Reconcile.InitiateView: an unexpected exception that is not a gateway error is not modelled
  beyond the KeyError of a reply missing `pidx` or `payment_url`.
- Reconcile.VerifyView: an unexpected exception other than a gateway error is not modelled.
  Its branch leaves the row unchanged.
- OrderIds.OrderIdInjective: proved only for timestamps from the epoch on, because before it
  ids collide (`OrderIds.NegativeTimestampCollides`).
- Subscription ids are assumed distinct: a payment's subscription is the first row with its
  id.

## Findings

| source | as written | input that shows it | evidently intended | confidence | as-written member | corrected member |
|---|---|---|---|---|---|---|
| khalti/views.py:520-525 | the refund view validates the `payment_id` of the request body, but refunds the payment named in the URL (`get_object`) | payments [A COMPLETED, B FAILED]; POST to B's refund URL with body payment_id = A: B becomes REFUNDED | the payment refunded is the one validated (COMPLETED, not yet refunded) | high; not executed | Reconcile.RefundViewAsWritten, Reconcile.RefundOfFailedPaymentAccepted | Reconcile.RefundView |
