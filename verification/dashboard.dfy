/** The notification logic of `DashboardViewSet.list` (views.py): the current
    subscription, the expiry reminders and the over-limit notices. */
module Dashboard {
  import opened Base
  import Sub = Subscriptions
  import opened Payments
  import Filters
  import Numerals

  datatype Kind = Warning | Info | Error

  datatype Notification = Notification(kind: Kind, message: string, action: string)

  /** Why the view answers with a server error instead of a dashboard. */
  datatype DashboardError =
    | SeveralCurrent   // `Subscription.objects.get` found more than one row
    | UsageMissing     // `current_subscription.usage` has no row behind it
    | ZeroLimit        // a usage percentage divides by a zero plan limit

  const TrialWarningDays: int := 3
  const RenewalReminderDays: int := 7

  predicate IsCurrent(s: Sub.Subscription, user: string)
  {
    s.user == user && (s.status == Sub.Active || s.status == Sub.Trial)
  }

  /** `Subscription.objects.get(user=user, status__in=[ACTIVE, TRIAL])`: none is
      no current subscription, two or more is an error. */
  function CurrentSubscription(subs: seq<Sub.Subscription>, user: string): (r: Result<Option<Sub.Subscription>, DashboardError>)
    ensures r == Ok(None) <==> forall s :: s in subs ==> !IsCurrent(s, user)
    ensures r.Ok? && r.value.Some? ==> r.value.value in subs && IsCurrent(r.value.value, user)
    ensures r.Ok? && r.value.Some? ==> forall s :: s in subs && IsCurrent(s, user) ==> s == r.value.value
    ensures r.Err? ==> r.error == SeveralCurrent
  {
    var current := Filters.Select(subs, (s: Sub.Subscription) => IsCurrent(s, user));
    if |current| == 0 then Ok(None)
    else if |current| == 1 then
      assert current[0] in current;
      Ok(Some(current[0]))
    else
      assert current[0] in current && current[1] in current;
      Err(SeveralCurrent)
  }

  /** Two current rows for one user make the dashboard fail. */
  lemma TwoCurrentFail(a: Sub.Subscription, b: Sub.Subscription)
    requires a != b && IsCurrent(a, b.user) && IsCurrent(b, b.user)
    ensures CurrentSubscription([a, b], b.user) == Err(SeveralCurrent)
  {
    assert a in [a, b] && b in [a, b];
  }

  /** The expiry reminder: a running trial with at most three days left is
      warned to upgrade; otherwise an ACTIVE subscription with at most seven
      days left is reminded to renew. */
  function ExpiryNotifications(s: Sub.Subscription, now: Time): (r: seq<Notification>)
    ensures |r| <= 1
    ensures |r| == 1 && r[0].action == "upgrade" <==>
      Sub.IsTrialActive(s, now) && Sub.DaysUntilExpiry(s, now) <= TrialWarningDays
    ensures |r| == 1 && r[0].action == "renew" <==>
      !Sub.IsTrialActive(s, now) && s.status == Sub.Active && Sub.DaysUntilExpiry(s, now) <= RenewalReminderDays
    ensures |r| == 1 ==> r[0].kind == (if r[0].action == "upgrade" then Warning else Info)
  {
    if Sub.IsTrialActive(s, now) then
      var days := Sub.DaysUntilExpiry(s, now);
      if days <= TrialWarningDays then
        [Notification(Warning, "Your trial expires in " + Numerals.IntToString(days) + " days", "upgrade")]
      else []
    else if s.status == Sub.Active then
      var days := Sub.DaysUntilExpiry(s, now);
      if days <= RenewalReminderDays then
        [Notification(Info, "Your subscription expires in " + Numerals.IntToString(days) + " days", "renew")]
      else []
    else []
  }

  /** An ACTIVE subscription without an end date counts zero days left, so it
      is always reminded to renew. */
  lemma OpenEndedActiveIsReminded(s: Sub.Subscription, now: Time)
    requires s.status == Sub.Active && s.endDate.None?
    ensures ExpiryNotifications(s, now) ==
      [Notification(Info, "Your subscription expires in 0 days", "renew")]
  {
    assert Sub.DaysUntilExpiry(s, now) == 0;
    assert Numerals.IntToString(0) == "0";
    assert "Your subscription expires in " + "0" + " days" == "Your subscription expires in 0 days";
  }

  /** A trial is warned on its last three days and no earlier. */
  lemma {:induction false} TrialWarningWindow(s: Sub.Subscription, now: Time)
    requires Sub.IsTrialActive(s, now)
    ensures |ExpiryNotifications(s, now)| == 1 <==> s.trialEnd.value - now < Days(TrialWarningDays + 1)
  {
    var d := Sub.DaysUntilExpiry(s, now);
    assert Days(d) <= s.trialEnd.value - now < Days(d + 1);
    if d <= TrialWarningDays {
      assert Days(d + 1) <= Days(TrialWarningDays + 1);
    } else {
      assert Days(TrialWarningDays + 1) <= Days(d);
    }
  }

  /** The over-limit notices, in the order users, projects, storage. */
  function UsageNotifications(u: Usage, plan: Sub.Plan): (r: seq<Notification>)
    ensures |r| <= 3
    ensures forall k :: 0 <= k < |r| ==> r[k].kind == Error && r[k].action == "upgrade"
    ensures |r| == (if IsOverLimit(u, plan, "users") then 1 else 0)
                 + (if IsOverLimit(u, plan, "projects") then 1 else 0)
                 + (if IsOverLimit(u, plan, "storage") then 1 else 0)
    ensures IsOverLimit(u, plan, "users") ==> r[0].message == "You have exceeded your user limit"
  {
    (if IsOverLimit(u, plan, "users") then [Notification(Error, "You have exceeded your user limit", "upgrade")] else [])
    + (if IsOverLimit(u, plan, "projects") then [Notification(Error, "You have exceeded your project limit", "upgrade")] else [])
    + (if IsOverLimit(u, plan, "storage") then [Notification(Error, "You have exceeded your storage limit", "upgrade")] else [])
  }

  /** The notifications of the dashboard, or the error that stops it. The
      usage summary, computed before the notifications, divides by every plan
      limit; a missing usage row is tolerated there but not when the notices
      are built. */
  function Notifications(subs: seq<Sub.Subscription>, user: string, usage: Option<Usage>, now: Time): (r: Result<seq<Notification>, DashboardError>)
    ensures CurrentSubscription(subs, user) == Ok(None) ==> r == Ok([])
    ensures CurrentSubscription(subs, user).Err? ==> r == Err(SeveralCurrent)
    ensures CurrentSubscription(subs, user).Ok? && CurrentSubscription(subs, user).value.Some? ==>
      var s := CurrentSubscription(subs, user).value.value;
      && (usage.None? ==> r == Err(UsageMissing))
      && (usage.Some? && (s.plan.maxUsers == 0 || s.plan.maxProjects == 0 || s.plan.storageLimitGb == 0) ==> r == Err(ZeroLimit))
      && (r.Ok? ==> r.value == ExpiryNotifications(s, now) + UsageNotifications(usage.value, s.plan))
      && (usage.Some? && s.plan.maxUsers != 0 && s.plan.maxProjects != 0 && s.plan.storageLimitGb != 0 ==> r.Ok?)
  {
    match CurrentSubscription(subs, user)
    case Err(e) => Err(e)
    case Ok(None) => Ok([])
    case Ok(Some(s)) =>
      if usage.Some? && (s.plan.maxUsers == 0 || s.plan.maxProjects == 0 || s.plan.storageLimitGb == 0) then Err(ZeroLimit)
      else if usage.None? then Err(UsageMissing)
      else Ok(ExpiryNotifications(s, now) + UsageNotifications(usage.value, s.plan))
  }

  /** Resetting the monthly API counter never changes the dashboard: none of
      the three over-limit notices depends on it. */
  lemma {:induction false} ResetKeepsNotifications(subs: seq<Sub.Subscription>, user: string, u: Usage, now: Time, resetAt: Time)
    ensures Notifications(subs, user, Some(ResetUsage(u, resetAt)), now) == Notifications(subs, user, Some(u), now)
  {
    match CurrentSubscription(subs, user)
    case Err(_) =>
    case Ok(None) =>
    case Ok(Some(s)) =>
      ResetKeepsLimits(u, s.plan, "users", resetAt);
      ResetKeepsLimits(u, s.plan, "projects", resetAt);
      ResetKeepsLimits(u, s.plan, "storage", resetAt);
      assert UsageNotifications(ResetUsage(u, resetAt), s.plan) == UsageNotifications(u, s.plan);
  }
}
