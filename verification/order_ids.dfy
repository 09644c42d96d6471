/** `generate_order_id` of utils.py: "SUB-<subscription id>-<unix seconds>",
    and the parser that recovers both parts from it. */
module OrderIds {
  import opened Base
  import opened Numerals
  import Money

  const OrderPrefix: string := "SUB-"

  const MicrosPerSecond: int := 1000000

  /** `int(timezone.now().timestamp())` for a clock reading in microseconds:
      whole seconds, the fraction cut off toward zero. */
  function UnixSeconds(clockMicros: int): (t: int)
    ensures clockMicros >= 0 ==> 0 <= t * MicrosPerSecond <= clockMicros < (t + 1) * MicrosPerSecond
    ensures clockMicros < 0 ==> (t - 1) * MicrosPerSecond < clockMicros <= t * MicrosPerSecond <= 0
  {
    Money.TruncDiv(clockMicros, MicrosPerSecond)
  }

  /** The order id of a subscription at a given whole-second timestamp. */
  function OrderId(subscriptionId: string, timestamp: int): string
  {
    OrderPrefix + subscriptionId + "-" + IntToString(timestamp)
  }

  /** `generate_order_id`. */
  function GenerateOrderId(subscriptionId: string, clockMicros: int): (id: string)
    ensures HasPrefix(id, OrderPrefix)
    ensures clockMicros >= 0 ==> ParseOrderId(id) == Some((subscriptionId, UnixSeconds(clockMicros)))
  {
    if clockMicros >= 0 then
      ParseOrderIdRoundTrip(subscriptionId, UnixSeconds(clockMicros));
      OrderId(subscriptionId, UnixSeconds(clockMicros))
    else
      OrderId(subscriptionId, UnixSeconds(clockMicros))
  }

  /** The position of the last occurrence of `c` in `s`. */
  function LastIndexOf(s: string, c: char): (r: Option<nat>)
    ensures r.Some? ==> r.value < |s| && s[r.value] == c && forall j :: r.value < j < |s| ==> s[j] != c
    ensures r.None? ==> forall j :: 0 <= j < |s| ==> s[j] != c
    decreases |s|
  {
    if |s| == 0 then None
    else if s[|s| - 1] == c then Some(|s| - 1)
    else LastIndexOf(s[..|s| - 1], c)
  }

  /** Splits an order id at its last '-' into the subscription id and the
      timestamp; None for a string not of that shape. */
  function ParseOrderId(s: string): (r: Option<(string, int)>)
    ensures r.Some? ==> r.value.1 >= 0
  {
    if !HasPrefix(s, OrderPrefix) then None
    else
      var rest := s[|OrderPrefix|..];
      match LastIndexOf(rest, '-')
      case None => None
      case Some(k) =>
        var digits := rest[k + 1..];
        if |digits| > 0 && AllDigits(digits) then Some((rest[..k], ParseNat(digits) as int)) else None
  }

  /** The last '-' of `a + "-" + d` is the one before `d` when `d` is all digits. */
  lemma LastDashBeforeDigits(a: string, d: string)
    requires AllDigits(d)
    ensures LastIndexOf(a + "-" + d, '-') == Some(|a|)
  {
    var s := a + "-" + d;
    assert s == a + ("-" + d);
    assert s[|a|..] == "-" + d;
    assert s[|a|] == '-';
    forall j | |a| < j < |s|
      ensures s[j] != '-'
    {
      assert s[j] == s[|a|..][j - |a|] == d[j - |a| - 1];
      assert IsDigit(d[j - |a| - 1]);
    }
    LastIndexUnique(s, '-', |a|);
  }

  /** An occurrence with none after it is the last one. */
  lemma LastIndexUnique(s: string, c: char, k: nat)
    requires k < |s| && s[k] == c
    requires forall j :: k < j < |s| ==> s[j] != c
    ensures LastIndexOf(s, c) == Some(k)
  {
  }

  /** Parsing recovers the subscription id and a non-negative timestamp. */
  lemma {:induction false} ParseOrderIdRoundTrip(subscriptionId: string, timestamp: int)
    requires timestamp >= 0
    ensures ParseOrderId(OrderId(subscriptionId, timestamp)) == Some((subscriptionId, timestamp))
  {
    var d := NatToString(timestamp);
    var s := OrderId(subscriptionId, timestamp);
    assert s == OrderPrefix + (subscriptionId + "-" + d);
    assert s[..|OrderPrefix|] == OrderPrefix;
    var rest := s[|OrderPrefix|..];
    assert rest == subscriptionId + "-" + d;
    LastDashBeforeDigits(subscriptionId, d);
    assert rest[|subscriptionId| + 1..] == d;
    assert rest[..|subscriptionId|] == subscriptionId;
    ParseNatToString(timestamp);
  }

  /** Order ids are unique per (subscription, second) for non-negative
      timestamps: equal ids have equal parts. */
  lemma OrderIdInjective(id1: string, t1: int, id2: string, t2: int)
    requires t1 >= 0 && t2 >= 0
    requires OrderId(id1, t1) == OrderId(id2, t2)
    ensures id1 == id2 && t1 == t2
  {
    ParseOrderIdRoundTrip(id1, t1);
    ParseOrderIdRoundTrip(id2, t2);
  }

  /** Before the epoch the minus sign of the timestamp makes two different
      pairs render alike. */
  lemma NegativeTimestampCollides()
    ensures OrderId("a", -1) == OrderId("a-", 1)
  {
    assert NatToString(1) == "1";
  }
}
