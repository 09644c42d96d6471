/** The boolean filter methods of filters.py: each keeps the rows of a query
    set matching a condition when its flag is set, and returns the query set
    unchanged otherwise. A query set is a sequence; filtering keeps order. */
module Filters {
  import opened Base
  import Sub = Subscriptions
  import opened Payments

  /** `queryset.filter(...)`: the rows satisfying `keep`, in their order. */
  function Select<T(!new)>(xs: seq<T>, keep: T -> bool): (r: seq<T>)
    ensures |r| <= |xs|
    ensures forall x :: x in r <==> x in xs && keep(x)
    ensures multiset(r) <= multiset(xs)
    decreases |xs|
  {
    if |xs| == 0 then []
    else if keep(xs[0]) then
      assert xs == [xs[0]] + xs[1..];
      [xs[0]] + Select(xs[1..], keep)
    else
      assert xs == [xs[0]] + xs[1..];
      Select(xs[1..], keep)
  }

  /** Filtering twice by the same condition is filtering once. */
  lemma {:induction false} SelectIdempotent<T(!new)>(xs: seq<T>, keep: T -> bool)
    ensures Select(Select(xs, keep), keep) == Select(xs, keep)
    decreases |xs|
  {
    if |xs| > 0 {
      SelectIdempotent(xs[1..], keep);
      if keep(xs[0]) {
        var rest := Select(xs[1..], keep);
        assert ([xs[0]] + rest)[1..] == rest;
      }
    }
  }

  /** Every row is kept exactly when the condition holds of every row. */
  lemma {:induction false} SelectKeepsAll<T(!new)>(xs: seq<T>, keep: T -> bool)
    ensures Select(xs, keep) == xs <==> forall i :: 0 <= i < |xs| ==> keep(xs[i])
    decreases |xs|
  {
    if |xs| > 0 {
      SelectKeepsAll(xs[1..], keep);
      if !keep(xs[0]) {
        assert |Select(xs, keep)| < |xs| by {
          assert Select(xs, keep) == Select(xs[1..], keep);
        }
      } else {
        assert forall i :: 1 <= i < |xs| ==> xs[i] == xs[1..][i - 1];
      }
    }
  }

  // ---------------------------------------------------------------------------
  // SubscriptionFilter

  const ExpiryWindowDays: nat := 7

  /** The row condition of `filter_active`. A NULL date never compares. */
  predicate ActiveAt(s: Sub.Subscription, now: Time)
  {
    || (s.status == Sub.Active && s.endDate.Some? && s.endDate.value >= now)
    || (s.status == Sub.Trial && s.trialEnd.Some? && s.trialEnd.value >= now)
  }

  /** The row condition of `filter_trial`. */
  predicate TrialAt(s: Sub.Subscription, now: Time)
  {
    && s.status == Sub.Trial
    && s.trialStart.Some? && s.trialStart.value <= now
    && s.trialEnd.Some? && s.trialEnd.value >= now
  }

  /** The row condition of `filter_expiring_soon`: the window ends no later
      than a week from now, with no lower bound. */
  predicate ExpiringBy(s: Sub.Subscription, now: Time)
  {
    || (s.status == Sub.Active && s.endDate.Some? && s.endDate.value <= now + Days(ExpiryWindowDays))
    || (s.status == Sub.Trial && s.trialEnd.Some? && s.trialEnd.value <= now + Days(ExpiryWindowDays))
  }

  function FilterActive(subs: seq<Sub.Subscription>, now: Time, value: bool): (r: seq<Sub.Subscription>)
    ensures !value ==> r == subs
    ensures value ==> forall s :: s in r <==> s in subs && ActiveAt(s, now)
  {
    if value then Select(subs, (s: Sub.Subscription) => ActiveAt(s, now)) else subs
  }

  function FilterTrial(subs: seq<Sub.Subscription>, now: Time, value: bool): (r: seq<Sub.Subscription>)
    ensures !value ==> r == subs
    ensures value ==> forall s :: s in r <==> s in subs && Sub.IsTrialActive(s, now)
  {
    if value then
      TrialFilterIsTrialActive(now);
      Select(subs, (s: Sub.Subscription) => TrialAt(s, now))
    else subs
  }

  function FilterExpiringSoon(subs: seq<Sub.Subscription>, now: Time, value: bool): (r: seq<Sub.Subscription>)
    ensures !value ==> r == subs
    ensures value ==> forall s :: s in r <==> s in subs && ExpiringBy(s, now)
  {
    if value then Select(subs, (s: Sub.Subscription) => ExpiringBy(s, now)) else subs
  }

  /** The trial filter's row condition is `is_trial_active`. */
  lemma TrialFilterIsTrialActive(now: Time)
    ensures forall s: Sub.Subscription :: TrialAt(s, now) <==> Sub.IsTrialActive(s, now)
  {
  }

  /** Every subscription `is_active` holds of passes the active filter. The
      converse fails: see `ActiveFilterAdmitsFutureTrial`. */
  lemma ActiveFilterAdmitsIsActive(s: Sub.Subscription, now: Time)
    ensures Sub.IsActive(s, now) ==> ActiveAt(s, now)
  {
  }

  /** A concrete row the active filter keeps although `is_active` is false: its
      trial starts tomorrow. */
  lemma ActiveFilterAdmitsFutureTrial(plan: Sub.Plan, now: Time)
    ensures var s := Sub.NewSubscription("s", "u", plan, true).(trialStart := Some(now + DAY), trialEnd := Some(now + 2 * DAY));
      ActiveAt(s, now) && !Sub.IsActive(s, now)
  {
  }

  /** The expiring-soon filter also keeps windows that have already closed. */
  lemma ExpiringSoonIncludesExpired(s: Sub.Subscription, now: Time)
    requires s.status == Sub.Active && s.endDate.Some? && s.endDate.value < now
    ensures ExpiringBy(s, now) && !ActiveAt(s, now)
  {
  }

  // ---------------------------------------------------------------------------
  // PaymentFilter

  function FilterCompleted(ps: seq<Payment>, value: bool): (r: seq<Payment>)
    ensures !value ==> r == ps
    ensures value ==> forall p :: p in r <==> p in ps && p.status == Completed
  {
    if value then Select(ps, (p: Payment) => p.status == Completed) else ps
  }

  function FilterFailed(ps: seq<Payment>, value: bool): (r: seq<Payment>)
    ensures !value ==> r == ps
    ensures value ==> forall p :: p in r <==> p in ps && p.status == Failed
  {
    if value then Select(ps, (p: Payment) => p.status == Failed) else ps
  }

  /** `filter_pending` keeps both PENDING and INITIATED payments. */
  function FilterPending(ps: seq<Payment>, value: bool): (r: seq<Payment>)
    ensures !value ==> r == ps
    ensures value ==> forall p :: p in r <==> p in ps && (p.status == Pending || p.status == Initiated)
  {
    if value then Select(ps, (p: Payment) => p.status == Pending || p.status == Initiated) else ps
  }

  function FilterRefunded(ps: seq<Payment>, value: bool): (r: seq<Payment>)
    ensures !value ==> r == ps
    ensures value ==> forall p :: p in r <==> p in ps && p.status == Refunded
  {
    if value then Select(ps, (p: Payment) => p.status == Refunded) else ps
  }

  /** The four status filters pick disjoint sets, and together they miss only
      CANCELLED payments. */
  lemma PaymentFiltersPartition(ps: seq<Payment>, p: Payment)
    requires p in ps
    ensures p in FilterCompleted(ps, true) ==> p !in FilterFailed(ps, true) && p !in FilterPending(ps, true) && p !in FilterRefunded(ps, true)
    ensures p in FilterFailed(ps, true) ==> p !in FilterPending(ps, true) && p !in FilterRefunded(ps, true)
    ensures p in FilterPending(ps, true) ==> p !in FilterRefunded(ps, true)
    ensures p.status != Cancelled <==>
      p in FilterCompleted(ps, true) || p in FilterFailed(ps, true) || p in FilterPending(ps, true) || p in FilterRefunded(ps, true)
  {
  }
}
