/** The subscription plan and the subscription state machine of models.py:
    trial start, conversion to paid, trial extension, cancellation and
    renewal, the derived activity predicates and the `clean` date check. */
module Subscriptions {
  import opened Base

  datatype SubscriptionStatus = Trial | Active | Expired | Cancelled | Suspended

  /** Immutable reference data. `price` counts hundredths of a rupee. */
  datatype Plan = Plan(
    id: string,
    name: string,
    price: int,
    currency: string,
    duration: string,
    trialPeriodDays: nat,
    trialEnabled: bool,
    maxUsers: nat,
    maxProjects: nat,
    storageLimitGb: nat,
    isActive: bool)

  /** `get_duration_days`: the known duration names and a 30-day fallback
      for anything else stored in the column. */
  function DurationDays(duration: string): (days: int)
    ensures days == 30 || days == 90 || days == 365
    ensures days == 90 <==> duration == "quarterly"
    ensures days == 365 <==> duration == "yearly"
  {
    if duration == "quarterly" then 90
    else if duration == "yearly" then 365
    else 30
  }

  datatype Subscription = Subscription(
    id: string,
    user: string,
    plan: Plan,
    status: SubscriptionStatus,
    trialStart: Option<Time>,
    trialEnd: Option<Time>,
    startDate: Option<Time>,
    endDate: Option<Time>,
    trialUsed: bool,
    trialExtended: bool,
    trialExtensionDays: int,
    autoRenew: bool,
    cancelAtPeriodEnd: bool,
    cancelledAt: Option<Time>)

  /** The row `Subscription.objects.create(user, plan, auto_renew)` inserts:
      the column defaults, which put a fresh subscription in TRIAL with no dates. */
  function NewSubscription(id: string, user: string, plan: Plan, autoRenew: bool): (s: Subscription)
    ensures s.status == Trial && !s.trialUsed
    ensures s.trialStart.None? && s.trialEnd.None? && s.startDate.None? && s.endDate.None?
  {
    Subscription(id, user, plan, Trial, None, None, None, None,
                 false, false, 0, autoRenew, false, None)
  }

  /** The ValidationErrors the transitions raise, plus the TypeError of adding
      days to a missing date. */
  datatype SubscriptionError =
    | TrialAlreadyUsed
    | TrialNotEnabled
    | OnlyTrialConvertible
    | OnlyTrialExtendable
    | OnlyActiveRenewable
    | MissingTrialEnd
    | MissingEndDate

  /** A date window passes `clean` when, if both ends are set, it ends strictly
      after it starts. */
  predicate WindowOk(start: Option<Time>, end: Option<Time>)
  {
    start.Some? && end.Some? ==> start.value < end.value
  }

  /** `clean`: both the trial window and the paid window are well ordered. */
  predicate Clean(s: Subscription)
  {
    WindowOk(s.trialStart, s.trialEnd) && WindowOk(s.startDate, s.endDate)
  }

  /** `start_trial`. */
  function StartTrial(s: Subscription, now: Time): (r: Result<Subscription, SubscriptionError>)
    ensures r.Ok? <==> !s.trialUsed && s.plan.trialEnabled
    ensures s.trialUsed ==> r == Err(TrialAlreadyUsed)
    ensures !s.trialUsed && !s.plan.trialEnabled ==> r == Err(TrialNotEnabled)
    ensures r.Ok? ==>
      && r.value.status == Trial
      && r.value.trialUsed
      && r.value.trialStart == Some(now)
      && r.value.trialEnd == Some(now + Days(s.plan.trialPeriodDays))
      && r.value == s.(status := Trial, trialUsed := true,
                       trialStart := r.value.trialStart, trialEnd := r.value.trialEnd)
  {
    if s.trialUsed then Err(TrialAlreadyUsed)
    else if !s.plan.trialEnabled then Err(TrialNotEnabled)
    else
      Ok(s.(trialStart := Some(now),
            trialEnd := Some(now + Days(s.plan.trialPeriodDays)),
            status := Trial,
            trialUsed := true))
  }

  /** `convert_to_paid`: the paid window opens now and lasts one plan duration. */
  function ConvertToPaid(s: Subscription, now: Time): (r: Result<Subscription, SubscriptionError>)
    ensures r.Ok? <==> s.status == Trial
    ensures r.Err? ==> r.error == OnlyTrialConvertible
    ensures r.Ok? ==>
      && r.value.status == Active
      && r.value.startDate == Some(now)
      && r.value.endDate.Some?
      && r.value.endDate.value - r.value.startDate.value == Days(DurationDays(s.plan.duration))
      && r.value == s.(status := Active, startDate := r.value.startDate, endDate := r.value.endDate)
  {
    if s.status != Trial then Err(OnlyTrialConvertible)
    else
      Ok(s.(status := Active,
            startDate := Some(now),
            endDate := Some(now + Days(DurationDays(s.plan.duration)))))
  }

  /** `extend_trial`: a trial subscription created without `start_trial` has no
      trial end date, and adding days to it fails. */
  function ExtendTrial(s: Subscription, days: int): (r: Result<Subscription, SubscriptionError>)
    ensures r.Ok? <==> s.status == Trial && s.trialEnd.Some?
    ensures s.status != Trial ==> r == Err(OnlyTrialExtendable)
    ensures s.status == Trial && s.trialEnd.None? ==> r == Err(MissingTrialEnd)
    ensures r.Ok? ==>
      && r.value.status == s.status
      && r.value.trialExtended
      && r.value.trialEnd == Some(s.trialEnd.value + Days(days))
      && r.value.trialExtensionDays == s.trialExtensionDays + days
      && r.value == s.(trialEnd := r.value.trialEnd, trialExtended := true,
                       trialExtensionDays := r.value.trialExtensionDays)
  {
    if s.status != Trial then Err(OnlyTrialExtendable)
    else if s.trialEnd.None? then Err(MissingTrialEnd)
    else
      Ok(s.(trialEnd := Some(s.trialEnd.value + Days(days)),
            trialExtended := true,
            trialExtensionDays := s.trialExtensionDays + days))
  }

  /** `cancel`: an immediate cancel ends the subscription now; otherwise it only
      stops renewal at the end of the period. Either way the time is stamped. */
  function Cancel(s: Subscription, immediate: bool, now: Time): (r: Subscription)
    ensures r.cancelledAt == Some(now)
    ensures immediate ==>
      r == s.(status := Cancelled, endDate := Some(now), cancelledAt := Some(now))
    ensures !immediate ==>
      && r.status == s.status && r.endDate == s.endDate
      && r.cancelAtPeriodEnd && !r.autoRenew
      && r == s.(cancelAtPeriodEnd := true, autoRenew := false, cancelledAt := Some(now))
  {
    var stopped :=
      if immediate then s.(status := Cancelled, endDate := Some(now))
      else s.(cancelAtPeriodEnd := true, autoRenew := false);
    stopped.(cancelledAt := Some(now))
  }

  /** `renew`: the next window starts where the current one ended. */
  function Renew(s: Subscription): (r: Result<Subscription, SubscriptionError>)
    ensures r.Ok? <==> s.status == Active && s.endDate.Some?
    ensures s.status != Active ==> r == Err(OnlyActiveRenewable)
    ensures s.status == Active && s.endDate.None? ==> r == Err(MissingEndDate)
    ensures r.Ok? ==>
      && r.value.status == s.status
      && r.value.startDate == s.endDate
      && r.value.endDate.Some?
      && r.value.endDate.value - s.endDate.value == Days(DurationDays(s.plan.duration))
      && r.value == s.(startDate := r.value.startDate, endDate := r.value.endDate)
  {
    if s.status != Active then Err(OnlyActiveRenewable)
    else if s.endDate.None? then Err(MissingEndDate)
    else
      Ok(s.(startDate := s.endDate,
            endDate := Some(s.endDate.value + Days(DurationDays(s.plan.duration)))))
  }

  /** `is_trial_active`. */
  predicate IsTrialActive(s: Subscription, now: Time)
  {
    && s.trialStart.Some? && s.trialEnd.Some?
    && s.status == Trial
    && s.trialStart.value <= now <= s.trialEnd.value
  }

  /** `is_active`. */
  predicate IsActive(s: Subscription, now: Time)
  {
    if s.status == Cancelled then false
    else if IsTrialActive(s, now) then true
    else if s.status == Active && s.endDate.Some? then now <= s.endDate.value
    else false
  }

  /** `days_until_expiry`: whole days left in the applicable window, as
      `timedelta.days`, which rounds toward negative infinity. For a positive
      divisor Dafny's Euclidean `/` rounds the same way. */
  function DaysUntilExpiry(s: Subscription, now: Time): (d: int)
    ensures IsTrialActive(s, now) ==>
      d >= 0 && Days(d) <= s.trialEnd.value - now < Days(d + 1)
    ensures !IsTrialActive(s, now) && s.status == Active && s.endDate.Some? ==>
      Days(d) <= s.endDate.value - now < Days(d + 1)
    ensures !IsTrialActive(s, now) && !(s.status == Active && s.endDate.Some?) ==> d == 0
  {
    if IsTrialActive(s, now) then (s.trialEnd.value - now) / DAY
    else if s.status == Active && s.endDate.Some? then (s.endDate.value - now) / DAY
    else 0
  }

  // ---------------------------------------------------------------------------
  // Properties of the activity predicates

  /** What the transitions do to `is_active`: a started trial and a fresh
      conversion are active at once, an immediate cancel is never active again,
      and a cancel at period end leaves activity as it was until the period ends. */
  lemma TransitionsDecideIsActive(s: Subscription, now: Time, t: Time)
    ensures StartTrial(s, now).Ok? ==> IsActive(StartTrial(s, now).value, now)
    ensures ConvertToPaid(s, now).Ok? ==> IsActive(ConvertToPaid(s, now).value, now)
    ensures ConvertToPaid(s, now).Ok? ==>
      (IsActive(ConvertToPaid(s, now).value, t) <==> t <= now + Days(DurationDays(s.plan.duration)))
    ensures !IsActive(Cancel(s, true, now), t)
    ensures IsActive(Cancel(s, false, now), t) == IsActive(s, t)
  {
  }

  // ---------------------------------------------------------------------------
  // The transitions as one step relation

  /** A request a caller can make of a subscription. */
  datatype Request =
    | StartTrialRequest
    | ConvertRequest
    | ExtendRequest(days: int)
    | CancelRequest(immediate: bool)
    | RenewRequest

  /** Applies one request at time `now`. A transition that raises leaves the
      record as it was (the exception prevents `save()`). */
  function Step(s: Subscription, req: Request, now: Time): Subscription
  {
    var r := match req
      case StartTrialRequest => StartTrial(s, now)
      case ConvertRequest => ConvertToPaid(s, now)
      case ExtendRequest(days) => ExtendTrial(s, days)
      case CancelRequest(immediate) => Ok(Cancel(s, immediate, now))
      case RenewRequest => Renew(s);
    if r.Ok? then r.value else s
  }

  /** Applies a sequence of requests, the i-th at time `times[i]`. */
  function Run(s: Subscription, reqs: seq<Request>, times: seq<Time>): Subscription
    requires |reqs| == |times|
    decreases |reqs|
  {
    if |reqs| == 0 then s
    else Run(Step(s, reqs[0], times[0]), reqs[1..], times[1..])
  }

  /** No transition ever clears `trial_used`, and none changes the owner or the plan. */
  lemma StepKeepsTrialUsed(s: Subscription, req: Request, now: Time)
    ensures s.trialUsed ==> Step(s, req, now).trialUsed
    ensures Step(s, req, now).plan == s.plan && Step(s, req, now).user == s.user
  {
  }

  /** `trial_used` is monotone over any history of requests. */
  lemma {:induction false} TrialUsedMonotone(s: Subscription, reqs: seq<Request>, times: seq<Time>)
    requires |reqs| == |times|
    requires s.trialUsed
    ensures Run(s, reqs, times).trialUsed
    decreases |reqs|
  {
    if |reqs| > 0 {
      StepKeepsTrialUsed(s, reqs[0], times[0]);
      TrialUsedMonotone(Step(s, reqs[0], times[0]), reqs[1..], times[1..]);
    }
  }

  /** Once a trial has been started, every later `start_trial` is refused,
      whatever happened in between. */
  lemma {:induction false} NoSecondTrial(s: Subscription, now: Time, reqs: seq<Request>, times: seq<Time>, later: Time)
    requires |reqs| == |times|
    requires StartTrial(s, now).Ok?
    ensures StartTrial(Run(StartTrial(s, now).value, reqs, times), later) == Err(TrialAlreadyUsed)
  {
    TrialUsedMonotone(StartTrial(s, now).value, reqs, times);
  }

  // ---------------------------------------------------------------------------
  // The transitions and the `clean` invariant

  /** Converting to paid yields a paid window that `clean` accepts, and keeps
      a clean record clean. */
  lemma ConvertKeepsClean(s: Subscription, now: Time)
    requires ConvertToPaid(s, now).Ok?
    ensures WindowOk(ConvertToPaid(s, now).value.startDate, ConvertToPaid(s, now).value.endDate)
    ensures Clean(s) ==> Clean(ConvertToPaid(s, now).value)
  {
  }

  /** Renewal keeps a clean record clean: the new window has a full plan length. */
  lemma RenewKeepsClean(s: Subscription)
    requires Renew(s).Ok?
    ensures WindowOk(Renew(s).value.startDate, Renew(s).value.endDate)
    ensures Clean(s) ==> Clean(Renew(s).value)
  {
  }

  /** A started trial passes `clean` exactly when the plan's trial lasts at
      least one day: a zero-day trial (the column allows 0) ends when it starts. */
  lemma StartTrialClean(s: Subscription, now: Time)
    requires StartTrial(s, now).Ok?
    requires WindowOk(s.startDate, s.endDate)
    ensures Clean(StartTrial(s, now).value) <==> s.plan.trialPeriodDays > 0
  {
  }

  /** An extension by a positive number of days keeps a clean record clean. */
  lemma ExtendKeepsClean(s: Subscription, days: int)
    requires ExtendTrial(s, days).Ok?
    requires Clean(s) && days >= 1
    ensures Clean(ExtendTrial(s, days).value)
  {
  }

  /** An immediate cancel keeps the paid window clean exactly when the window
      had no start or started before now. */
  lemma CancelClean(s: Subscription, immediate: bool, now: Time)
    requires Clean(s)
    ensures !immediate ==> Clean(Cancel(s, immediate, now))
    ensures immediate ==> (Clean(Cancel(s, immediate, now)) <==> s.startDate.None? || s.startDate.value < now)
  {
  }
}
