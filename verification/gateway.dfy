/** The decision logic of the gateway client (khalti_service.py): the bounded
    retry loop of `_make_request` over a scripted sequence of replies, the
    initiation de-duplication marker and verification cache (a key/value map),
    and the payloads of initiation, verification and refund. */
module Gateway {
  import opened Base
  import opened Money
  import Numerals

  /** What one attempt of a request got back: an HTTP reply or a transport error. */
  datatype Reply =
    | Http(code: nat, body: Json, text: string)
    | NetworkFailure(detail: string)

  /** The `KhaltiException`s the client raises, by cause. */
  datatype GatewayError =
    | BadRequest(data: Json)
    | Unauthorized
    | HttpError(code: nat, text: string)
    | NetworkError(detail: string)
    | MaxRetriesExceeded
    | DuplicateOrder
  {
    /** The exception's `response_data`: the reply body for a 400, else empty. */
    function ResponseData(): Json
    {
      if BadRequest? then data else map[]
    }

    /** The exception's `message`. */
    function Message(): string
    {
      match this
      case BadRequest(d) =>
        "Bad request: " + (if "message" in d then Str(d["message"]) else "Invalid request")
      case Unauthorized => "Unauthorized: Invalid API key"
      case HttpError(code, text) => "HTTP " + Numerals.IntToString(code) + ": " + text
      case NetworkError(detail) => "Network error: " + detail
      case MaxRetriesExceeded => "Max retries exceeded"
      case DuplicateOrder => "Payment already initiated for this order"
    }
  }

  /** Python's `str()` of a JSON value as an f-string prints it. An object is
      shown as "{...}": the model's objects carry no key order to print. */
  function Str(v: Value): string
  {
    match v
    case JNull => "None"
    case JBool(b) => if b then "True" else "False"
    case JInt(i) => Numerals.IntToString(i)
    case JStr(s) => s
    case JObj(_) => "{...}"
  }

  /** The message of a 400 shows the body's `message` as Python prints it: a
      string as itself, a null as "None"; only a missing key falls back to
      "Invalid request". */
  lemma BadRequestMessage(d: Json, text: string)
    ensures "message" in d && d["message"] == JStr(text) ==> BadRequest(d).Message() == "Bad request: " + text
    ensures "message" in d && d["message"] == JNull ==> BadRequest(d).Message() == "Bad request: " + "None"
    ensures "message" !in d ==> BadRequest(d).Message() == "Bad request: " + "Invalid request"
  {
  }

  /** The default attempt bound of the client configuration. */
  const DefaultMaxRetries: nat := 3

  /** A reply after which the loop sleeps and tries again: a 429, or a
      transport error on any attempt but the last. */
  predicate Retryable(reply: Reply, attempt: nat, maxRetries: nat)
  {
    (reply.Http? && reply.code == 429) || (reply.NetworkFailure? && attempt + 1 < maxRetries)
  }

  /** What a reply that ends the loop makes of the call. */
  function Final(reply: Reply): (r: Result<Json, GatewayError>)
    ensures r.Ok? <==> reply.Http? && reply.code == 200
    ensures r != Err(MaxRetriesExceeded) && r != Err(DuplicateOrder)
  {
    match reply
    case NetworkFailure(detail) => Err(NetworkError(detail))
    case Http(code, body, text) =>
      if code == 200 then Ok(body)
      else if code == 400 then Err(BadRequest(body))
      else if code == 401 then Err(Unauthorized)
      else Err(HttpError(code, text))
  }

  /** The outcome of a request, how many attempts it made and the back-off
      delays (in seconds) it slept between them. */
  datatype Exchange = Exchange(result: Result<Json, GatewayError>, attempts: nat, delays: seq<nat>)

  /** The loop of `_make_request` from attempt number `attempt` on; `replies[i]`
      is what attempt `i` gets back. */
  function Attempt(replies: seq<Reply>, maxRetries: nat, attempt: nat): (x: Exchange)
    requires attempt <= maxRetries <= |replies|
    ensures attempt <= x.attempts <= maxRetries
    ensures forall i :: attempt <= i < x.attempts - 1 ==> Retryable(replies[i], i, maxRetries)
    ensures x.result == Err(MaxRetriesExceeded) ==>
      && x.attempts == maxRetries
      && (attempt < maxRetries ==> Retryable(replies[maxRetries - 1], maxRetries - 1, maxRetries))
    ensures x.result != Err(MaxRetriesExceeded) ==>
      && attempt < x.attempts
      && !Retryable(replies[x.attempts - 1], x.attempts - 1, maxRetries)
      && x.result == Final(replies[x.attempts - 1])
    ensures |x.delays| == if x.result == Err(MaxRetriesExceeded) then x.attempts - attempt else x.attempts - attempt - 1
    ensures forall i :: 0 <= i < |x.delays| ==> x.delays[i] == Pow2(attempt + i)
    decreases maxRetries - attempt
  {
    if attempt == maxRetries then Exchange(Err(MaxRetriesExceeded), attempt, [])
    else if Retryable(replies[attempt], attempt, maxRetries) then
      var rest := Attempt(replies, maxRetries, attempt + 1);
      rest.(delays := [Pow2(attempt)] + rest.delays)
    else Exchange(Final(replies[attempt]), attempt + 1, [])
  }

  /** `_make_request`. */
  function MakeRequest(replies: seq<Reply>, maxRetries: nat): (x: Exchange)
    requires maxRetries <= |replies|
    ensures x.attempts <= maxRetries
    ensures forall i :: 0 <= i < x.attempts - 1 ==> Retryable(replies[i], i, maxRetries)
    ensures x.result == Err(MaxRetriesExceeded) ==> x.attempts == maxRetries
    ensures x.result != Err(MaxRetriesExceeded) ==>
      && 0 < x.attempts
      && !Retryable(replies[x.attempts - 1], x.attempts - 1, maxRetries)
      && x.result == Final(replies[x.attempts - 1])
    ensures x.result.Ok? ==> replies[x.attempts - 1] == Http(200, x.result.value, replies[x.attempts - 1].text)
    ensures forall i :: 0 <= i < |x.delays| ==> x.delays[i] == Pow2(i)
  {
    Attempt(replies, maxRetries, 0)
  }

  /** The first reply that is not retried decides the call, after exactly that
      many attempts: a 200 returns its body, and a 400, a 401 or any other
      status but 429 raises at once with no further attempt. */
  lemma FirstDecisiveReplyDecides(replies: seq<Reply>, maxRetries: nat, k: nat)
    requires maxRetries <= |replies| && k < maxRetries
    requires forall i :: 0 <= i < k ==> Retryable(replies[i], i, maxRetries)
    requires !Retryable(replies[k], k, maxRetries)
    ensures MakeRequest(replies, maxRetries).attempts == k + 1
    ensures MakeRequest(replies, maxRetries).result == Final(replies[k])
    ensures |MakeRequest(replies, maxRetries).delays| == k
  {
    assert Attempt(replies, maxRetries, 0) == MakeRequest(replies, maxRetries);
  }

  /** When every attempt is rate limited the call makes all `maxRetries`
      attempts, sleeps 1, 2, 4, ... seconds after each, and fails with
      "Max retries exceeded". */
  lemma AllRateLimitedExhausts(replies: seq<Reply>, maxRetries: nat)
    requires maxRetries <= |replies|
    requires forall i :: 0 <= i < maxRetries ==> replies[i].Http? && replies[i].code == 429
    ensures MakeRequest(replies, maxRetries).result == Err(MaxRetriesExceeded)
    ensures MakeRequest(replies, maxRetries).attempts == maxRetries
    ensures |MakeRequest(replies, maxRetries).delays| == maxRetries
  {
    assert Attempt(replies, maxRetries, 0) == MakeRequest(replies, maxRetries);
  }

  /** A transport error on the last allowed attempt is raised as a network error. */
  lemma NetworkErrorOnLastAttempt(replies: seq<Reply>, maxRetries: nat)
    requires 0 < maxRetries <= |replies|
    requires forall i :: 0 <= i < maxRetries - 1 ==> Retryable(replies[i], i, maxRetries)
    requires replies[maxRetries - 1].NetworkFailure?
    ensures MakeRequest(replies, maxRetries).result == Err(NetworkError(replies[maxRetries - 1].detail))
    ensures MakeRequest(replies, maxRetries).attempts == maxRetries
  {
    FirstDecisiveReplyDecides(replies, maxRetries, maxRetries - 1);
  }

  /** Two rate-limited replies and then a 200 succeed on the third attempt
      after sleeping 1 and 2 seconds. */
  lemma RateLimitedTwiceThenOk(body: Json)
    ensures var x := MakeRequest([Http(429, map[], ""), Http(429, map[], ""), Http(200, body, "")], DefaultMaxRetries);
      x.result == Ok(body) && x.attempts == 3 && x.delays == [1, 2]
  {
    var replies := [Http(429, map[], ""), Http(429, map[], ""), Http(200, body, "")];
    FirstDecisiveReplyDecides(replies, DefaultMaxRetries, 2);
    var x := MakeRequest(replies, DefaultMaxRetries);
    assert x.delays[0] == Pow2(0) && x.delays[1] == Pow2(1);
  }

  // ---------------------------------------------------------------------------
  // The cache shared by initiation and verification

  type Cache = map<string, Json>

  /** `cache.get(key)` is truthy: present and not an empty dict. */
  predicate Cached(c: Cache, key: string)
  {
    key in c && Truthy(c[key])
  }

  const InitiatePrefix: string := "khalti_payment_"
  const VerifyPrefix: string := "khalti_verify_"

  function InitiateKey(orderId: string): string
  {
    InitiatePrefix + orderId
  }

  function VerifyKey(pidx: string): string
  {
    VerifyPrefix + pidx
  }

  /** The two key families never collide, so a de-duplication marker is never
      mistaken for a verification result or the other way round. */
  lemma KeyFamiliesDisjoint(orderId: string, pidx: string)
    ensures InitiateKey(orderId) != VerifyKey(pidx)
    ensures !HasPrefix(InitiateKey(orderId), VerifyPrefix)
  {
    assert InitiateKey(orderId)[7] == 'p';
    assert VerifyKey(pidx)[7] == 'v';
  }

  /** The outcome of a client operation: the result, the cache afterwards,
      the payload sent (None when no request was made) and the exchange. */
  datatype Call = Call(result: Result<Json, GatewayError>, cache: Cache, payload: Option<Json>,
                       attempts: nat, delays: seq<nat>)

  const DefaultPhone: string := "9800000000"

  /** `customer_info.get(key, default)`. */
  function Lookup(info: map<string, string>, key: string, default: string): (v: string)
    ensures key in info ==> v == info[key]
    ensures key !in info ==> v == default
  {
    if key in info then info[key] else default
  }

  /** The body of an initiation request. */
  function InitiatePayload(amount: Decimal, orderId: string, orderName: string, returnUrl: string,
                           websiteUrl: string, customer: map<string, string>, customData: Json): (j: Json)
    ensures "amount" in j && j["amount"] == JInt(ToPaisa(amount))
    ensures "purchase_order_id" in j && j["purchase_order_id"] == JStr(orderId)
    ensures "customer_info" in j && j["customer_info"].JObj?
    ensures var info := j["customer_info"].fields;
      && "phone" in info
      && ("phone" !in customer ==> info["phone"] == JStr(DefaultPhone))
      && ("phone" in customer ==> info["phone"] == JStr(customer["phone"]))
    ensures var info := j["customer_info"].fields;
      && "name" in info && "email" in info
      && info["name"] == JStr(if "name" in customer then customer["name"] else "")
      && info["email"] == JStr(if "email" in customer then customer["email"] else "")
    ensures "custom_data" in j <==> Truthy(customData)
    ensures "custom_data" in j ==> j["custom_data"] == JObj(customData)
  {
    var info := map[
      "name" := JStr(Lookup(customer, "name", "")),
      "email" := JStr(Lookup(customer, "email", "")),
      "phone" := JStr(Lookup(customer, "phone", DefaultPhone))];
    var body := map[
      "return_url" := JStr(returnUrl),
      "website_url" := JStr(websiteUrl),
      "amount" := JInt(ToPaisa(amount)),
      "purchase_order_id" := JStr(orderId),
      "purchase_order_name" := JStr(orderName),
      "customer_info" := JObj(info)];
    if Truthy(customData) then body["custom_data" := JObj(customData)] else body
  }

  /** `initiate_payment`: refuses without a request when the order's marker is
      cached, and records the response as the marker on success. */
  function InitiatePayment(cache: Cache, amount: Decimal, orderId: string, orderName: string,
                           returnUrl: string, websiteUrl: string, customer: map<string, string>,
                           customData: Json, replies: seq<Reply>, maxRetries: nat): (c: Call)
    requires maxRetries <= |replies|
    ensures Cached(cache, InitiateKey(orderId)) ==>
      c.result == Err(DuplicateOrder) && c.payload.None? && c.attempts == 0 && c.cache == cache
    ensures !Cached(cache, InitiateKey(orderId)) ==>
      c.payload == Some(InitiatePayload(amount, orderId, orderName, returnUrl, websiteUrl, customer, customData))
    ensures !Cached(cache, InitiateKey(orderId)) ==>
      var x := MakeRequest(replies, maxRetries);
      c.result == x.result && c.attempts == x.attempts && c.delays == x.delays
    ensures c.result.Ok? ==> c.cache == cache[InitiateKey(orderId) := c.result.value]
    ensures c.result.Err? ==> c.cache == cache
    ensures c.attempts <= maxRetries
  {
    var key := InitiateKey(orderId);
    if Cached(cache, key) then Call(Err(DuplicateOrder), cache, None, 0, [])
    else
      var payload := InitiatePayload(amount, orderId, orderName, returnUrl, websiteUrl, customer, customData);
      var x := MakeRequest(replies, maxRetries);
      var cache' := if x.result.Ok? then cache[key := x.result.value] else cache;
      Call(x.result, cache', Some(payload), x.attempts, x.delays)
  }

  /** A second initiation of an order whose first initiation returned a
      non-empty response is refused without reaching the network. */
  lemma SecondInitiationIsDuplicate(cache: Cache, amount: Decimal, orderId: string, orderName: string,
                                    returnUrl: string, websiteUrl: string, customer: map<string, string>,
                                    customData: Json, replies: seq<Reply>, maxRetries: nat,
                                    replies2: seq<Reply>, maxRetries2: nat)
    requires maxRetries <= |replies| && maxRetries2 <= |replies2|
    requires var c := InitiatePayment(cache, amount, orderId, orderName, returnUrl, websiteUrl, customer, customData, replies, maxRetries);
      c.result.Ok? && Truthy(c.result.value)
    ensures var c := InitiatePayment(cache, amount, orderId, orderName, returnUrl, websiteUrl, customer, customData, replies, maxRetries);
      var d := InitiatePayment(c.cache, amount, orderId, orderName, returnUrl, websiteUrl, customer, customData, replies2, maxRetries2);
      d.result == Err(DuplicateOrder) && d.attempts == 0 && d.payload.None?
  {
  }

  /** `verify_payment`: a cached result is returned without a request; a fresh
      result is cached only when its status is 'Completed'. */
  function VerifyPayment(cache: Cache, pidx: string, replies: seq<Reply>, maxRetries: nat): (c: Call)
    requires maxRetries <= |replies|
    ensures Cached(cache, VerifyKey(pidx)) ==>
      c.result == Ok(cache[VerifyKey(pidx)]) && c.payload.None? && c.attempts == 0 && c.cache == cache
    ensures !Cached(cache, VerifyKey(pidx)) ==> c.payload == Some(map["pidx" := JStr(pidx)])
    ensures !Cached(cache, VerifyKey(pidx)) ==>
      var x := MakeRequest(replies, maxRetries);
      c.result == x.result && c.attempts == x.attempts && c.delays == x.delays
    ensures c.cache != cache ==>
      && !Cached(cache, VerifyKey(pidx))
      && c.result.Ok? && StatusCompleted(c.result.value)
      && c.cache == cache[VerifyKey(pidx) := c.result.value]
    ensures !Cached(cache, VerifyKey(pidx)) && c.result.Ok? && StatusCompleted(c.result.value) ==>
      c.cache == cache[VerifyKey(pidx) := c.result.value]
    ensures c.attempts <= maxRetries
  {
    var key := VerifyKey(pidx);
    if Cached(cache, key) then Call(Ok(cache[key]), cache, None, 0, [])
    else
      var x := MakeRequest(replies, maxRetries);
      var cache' := if x.result.Ok? && StatusCompleted(x.result.value) then cache[key := x.result.value] else cache;
      Call(x.result, cache', Some(map["pidx" := JStr(pidx)]), x.attempts, x.delays)
  }

  /** Every verification entry in the cache records a completed payment. */
  predicate VerifyCacheSound(c: Cache)
  {
    forall k :: k in c && HasPrefix(k, VerifyPrefix) ==> StatusCompleted(c[k])
  }

  /** Verification keeps the cache sound, and on a sound cache a verification
      served from the cache always reports 'Completed'. */
  lemma VerifyKeepsCacheSound(cache: Cache, pidx: string, replies: seq<Reply>, maxRetries: nat)
    requires maxRetries <= |replies|
    requires VerifyCacheSound(cache)
    ensures VerifyCacheSound(VerifyPayment(cache, pidx, replies, maxRetries).cache)
    ensures Cached(cache, VerifyKey(pidx)) ==> StatusCompleted(VerifyPayment(cache, pidx, replies, maxRetries).result.value)
  {
    assert HasPrefix(VerifyKey(pidx), VerifyPrefix);
  }

  /** Initiation markers never disturb the verification entries. */
  lemma InitiateKeepsCacheSound(cache: Cache, amount: Decimal, orderId: string, orderName: string,
                                returnUrl: string, websiteUrl: string, customer: map<string, string>,
                                customData: Json, replies: seq<Reply>, maxRetries: nat)
    requires maxRetries <= |replies|
    requires VerifyCacheSound(cache)
    ensures VerifyCacheSound(InitiatePayment(cache, amount, orderId, orderName, returnUrl, websiteUrl,
                                             customer, customData, replies, maxRetries).cache)
  {
    KeyFamiliesDisjoint(orderId, "");
  }

  /** The body of a refund request: the amount in paisa and the reason are
      sent only when given (a zero amount counts as not given). */
  function RefundPayload(pidx: string, amount: Option<Decimal>, reason: Option<string>): (j: Json)
    ensures "pidx" in j && j["pidx"] == JStr(pidx)
    ensures "amount" in j <==> amount.Some? && amount.value.units != 0
    ensures "amount" in j ==> j["amount"] == JInt(ToPaisa(amount.value))
    ensures "reason" in j <==> Given(reason)
    ensures "reason" in j ==> j["reason"] == JStr(reason.value)
    ensures j.Keys <= {"pidx", "amount", "reason"}
  {
    var base := map["pidx" := JStr(pidx)];
    var withAmount := if amount.Some? && amount.value.units != 0 then base["amount" := JInt(ToPaisa(amount.value))] else base;
    if Given(reason) then withAmount["reason" := JStr(reason.value)] else withAmount
  }

  /** `initiate_refund`: the refund payload goes through the retry loop; the
      cache is not involved. */
  function InitiateRefund(cache: Cache, pidx: string, amount: Option<Decimal>, reason: Option<string>,
                          replies: seq<Reply>, maxRetries: nat): (c: Call)
    requires maxRetries <= |replies|
    ensures c.cache == cache
    ensures c.payload == Some(RefundPayload(pidx, amount, reason))
    ensures var x := MakeRequest(replies, maxRetries);
      c.result == x.result && c.attempts == x.attempts && c.delays == x.delays
    ensures c.result.Ok? ==> 0 < c.attempts <= maxRetries
  {
    var x := MakeRequest(replies, maxRetries);
    Call(x.result, cache, Some(RefundPayload(pidx, amount, reason)), x.attempts, x.delays)
  }

  /** The amount an initiation sends for a price kept in hundredths of a rupee
      is that many paisa, and the gateway's paisa convert back to the price. */
  lemma {:induction false} InitiatePayloadCarriesPrice(price: int, orderId: string, orderName: string, returnUrl: string,
                                                       websiteUrl: string, customer: map<string, string>, customData: Json)
    ensures var j := InitiatePayload(FromHundredths(price), orderId, orderName, returnUrl, websiteUrl, customer, customData);
      j["amount"] == JInt(price) && SameValue(ToRupees(j["amount"].i), FromHundredths(price))
  {
    RupeesPaisaRoundTrip(FromHundredths(price));
    assert Pow10(0) == 1;
  }

  /** A refund of a non-zero amount in hundredths sends that many paisa, which
      convert back to the amount asked for; a zero amount sends none, and the
      gateway refunds in full. */
  lemma {:induction false} RefundPayloadCarriesAmount(pidx: string, hundredths: int, reason: Option<string>)
    ensures var j := RefundPayload(pidx, Some(FromHundredths(hundredths)), reason);
      && (hundredths != 0 ==> "amount" in j && j["amount"] == JInt(hundredths)
                              && SameValue(ToRupees(j["amount"].i), FromHundredths(hundredths)))
      && (hundredths == 0 ==> "amount" !in j)
  {
    RupeesPaisaRoundTrip(FromHundredths(hundredths));
    assert Pow10(0) == 1;
  }
}
