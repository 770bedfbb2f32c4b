/**
 * The Paycom (Payme) gateway client (app/services/payment/payme/index.js):
 * the shared `X-Auth` secret, the webhook signature check and dispatch,
 * the payment URL, and the two gateway calls with their error
 * normalisation. The HTTP client is an oracle taking the request body and
 * giving back the gateway's answer or a transport failure.
 */
module PaymeService {
  import opened Wrappers
  import opened Js
  import opened Sql
  import opened Http
  import Utf8
  import Base64

  /** `Buffer.from(key + ':').toString('base64')`: the `X-Auth` value for a cashier key. */
  function Signature(paycomKey: string): (sig: string)
    ensures |sig| == 4 * ((|Utf8.Encode(paycomKey + ":")| + 2) / 3)
  {
    Base64.Encode(Utf8.Encode(paycomKey + ":"))
  }

  /** The signature decodes back to the key followed by ':'. */
  lemma SignatureCarriesKey(paycomKey: string)
    ensures Utf8.Decode(Base64.Decode(Signature(paycomKey))) == paycomKey + ":"
  {
    Base64.DecodeEncode(Utf8.Encode(paycomKey + ":"));
    Utf8.DecodeEncode(paycomKey + ":");
  }

  /** Distinct keys have distinct signatures. */
  lemma SignatureInjective(k1: string, k2: string)
    requires Signature(k1) == Signature(k2)
    ensures k1 == k2
  {
    SignatureCarriesKey(k1);
    SignatureCarriesKey(k2);
    assert k1 == (k1 + ":")[..|k1|];
    assert k2 == (k2 + ":")[..|k2|];
  }

  /** How a call to the gateway came back: a transport failure, or the response's `data`. */
  datatype Reply = NetworkError | Reply(data: Json)

  /** How `createTransaction` or `checkTransaction` settles. */
  datatype Outcome =
    | Resolved(result: Option<Json>)                 // `response.data.result`
    | PaycomFailure(code: Option<Json>, message: string)  // a thrown `PaycomError`

  /** `new Error(message).message`: the text of the message, "" when it is `undefined`. */
  function MessageText(message: Option<Json>): string
  {
    if message.None? then "" else ToJsString(message)
  }

  /**
   * The `try`/`catch` shared by both calls: a truthy `data.error` becomes a
   * `PaycomError` with the gateway's code and message and is rethrown as it
   * is; any other failure — the transport, or reading `error` from a
   * `null` body — becomes `PaycomError(-32400, 'System Error')`.
   */
  function Normalise(r: Reply): (o: Outcome)
    ensures o.Resolved? <==>
              r.Reply? && Prop(Some(r.data), "error").Success? && !Truthy(Prop(Some(r.data), "error").value)
    ensures o.Resolved? ==> o == Resolved(Prop(Some(r.data), "result").value)
    ensures r.NetworkError? ==> o == PaycomFailure(Some(JNum(-32400)), "System Error")
    ensures r.Reply? && r.data == JNull ==> o == PaycomFailure(Some(JNum(-32400)), "System Error")
    ensures r.Reply? && r.data.JObj? && "error" in r.data.fields && Truthy(Some(r.data.fields["error"])) ==>
              var e := r.data.fields["error"];
              o == PaycomFailure(Prop(Some(e), "code").value, MessageText(Prop(Some(e), "message").value))
  {
    match r
    case NetworkError => PaycomFailure(Some(JNum(-32400)), "System Error")
    case Reply(data) =>
      match Prop(Some(data), "error")
      case Failure(_) => PaycomFailure(Some(JNum(-32400)), "System Error")
      case Success(error) =>
        if Truthy(error) then
          PaycomFailure(Prop(error, "code").value, MessageText(Prop(error, "message").value))
        else
          Resolved(Prop(Some(data), "result").value)
  }

  /** A JavaScript number as the integers model it: a finite integer, or NaN. */
  datatype Number = Finite(value: int) | NaN

  /** Every character is a decimal digit. */
  predicate AllDigits(s: string)
  {
    forall i :: 0 <= i < |s| ==> IsDigit(s[i])
  }

  /**
   * `Number(s)` for text: the empty string is 0, a decimal integer with an
   * optional sign is its value, anything else NaN.
   */
  function TextToNumber(s: string): Number
  {
    if s == "" then Finite(0)
    else
      var negative := s[0] == '-';
      var digits := if s[0] == '-' || s[0] == '+' then s[1..] else s;
      if digits == [] || !AllDigits(digits) then NaN
      else var m: int := DigitsValue(digits); Finite(if negative then 0 - m else m)
  }

  /** `String(n)` reads back as `n`. */
  lemma IntTextToNumber(n: int)
    ensures TextToNumber(IntToString(n)) == Finite(n)
  {
    var m := if n < 0 then -n else n;
    var digits := NatToString(m);
    DigitsValueNatToString(m);
    assert AllDigits(digits);
    if n < 0 {
      assert IntToString(n)[1..] == digits;
    } else {
      assert IsDigit(digits[0]);
    }
  }

  /** Joining two or more items puts a "," between them. */
  lemma JoinIsNaN(items: seq<Json>)
    requires |items| >= 2
    ensures TextToNumber(JoinItems(items)).NaN?
  {
    var first := if items[0] == JNull then "" else JsonToString(items[0]);
    assert JoinItems(items) == first + "," + JoinItems(items[1..]);
    if first == "" {
      NonDigitIsNaN(JoinItems(items), 0);
    } else {
      NonDigitIsNaN(JoinItems(items), |first|);
    }
  }

  /** Text with a character that is neither a digit nor a leading sign is not a number. */
  lemma NonDigitIsNaN(s: string, k: int)
    requires 0 <= k < |s| && !IsDigit(s[k])
    requires k == 0 ==> s[k] != '-' && s[k] != '+'
    ensures TextToNumber(s).NaN?
  {
    if s[0] == '-' || s[0] == '+' {
      assert s[1..][k - 1] == s[k];
    }
  }

  /**
   * `Number(v)`: booleans are 0 and 1, `null` is 0, numbers are themselves,
   * and text, arrays and objects are read from `String(v)` (an array joins
   * its items with ",", so `[]` is 0 and `[5]` is 5).
   */
  function ToNumber(v: Json): (n: Number)
    ensures v.JNum? ==> n == Finite(v.n)
    ensures v.JArr? && v.items == [] ==> n == Finite(0)
    ensures v.JArr? && |v.items| == 1 && v.items[0].JNum? ==> n == Finite(v.items[0].n)
    ensures v.JArr? && |v.items| == 1 && v.items[0].JStr? ==> n == TextToNumber(v.items[0].s)
    ensures v.JArr? && |v.items| >= 2 ==> n.NaN?
    ensures v.JObj? ==> n.NaN?
  {
    match v
    case JNull => Finite(0)
    case JBool(b) => Finite(if b then 1 else 0)
    case JNum(n) => Finite(n)
    case JStr(s) => TextToNumber(s)
    case JArr(items) =>
      assert JsonToString(v) == JoinItems(items);
      if |items| == 1 then
        assert items[0] != JNull ==> JoinItems(items) == JsonToString(items[0]);
        if items[0].JNum? then IntTextToNumber(items[0].n); TextToNumber(JsonToString(v))
        else TextToNumber(JsonToString(v))
      else if |items| >= 2 then JoinIsNaN(items); TextToNumber(JsonToString(v))
      else TextToNumber(JsonToString(v))
    case JObj(_) =>
      var t := JsonToString(v);
      assert t == "[object Object]";
      NonDigitIsNaN(t, 0);
      TextToNumber(t)
  }

  /** `amount * 100` as it is serialised: NaN becomes `null`. */
  function Tiyin(amount: Json): (t: Json)
    ensures ToNumber(amount).Finite? ==> t == JNum(100 * ToNumber(amount).value)
    ensures ToNumber(amount).NaN? ==> t == JNull
  {
    match ToNumber(amount)
    case Finite(n) => JNum(n * 100)
    case NaN => JNull
  }

  /** A sum in som, written in decimal, is sent as 100 times that many tiyin. */
  lemma TiyinOfDecimalText(n: nat)
    ensures Tiyin(JStr(NatToString(n))) == JNum(100 * n)
  {
    var s := NatToString(n);
    DigitsValueNatToString(n);
    assert IsDigit(s[0]);
    assert AllDigits(s);
  }

  /** The body `createTransaction` posts. */
  function CreateRequest(amount: Json, orderId: Json): (req: Json)
    ensures req.JObj? && req.fields.Keys == {"method", "params"}
    ensures req.fields["method"] == JStr("receipts.create")
    ensures req.fields["params"] ==
              JObj(map["amount" := Tiyin(amount), "account" := JObj(map["order_id" := orderId])])
  {
    JObj(map["method" := JStr("receipts.create"),
             "params" := JObj(map["amount" := Tiyin(amount),
                                  "account" := JObj(map["order_id" := orderId])])])
  }

  /** The body `checkTransaction` posts. */
  function CheckRequest(transactionId: string): (req: Json)
    ensures req.JObj? && req.fields.Keys == {"method", "params"}
    ensures req.fields["method"] == JStr("receipts.check")
    ensures req.fields["params"] == JObj(map["id" := JStr(transactionId)])
  {
    JObj(map["method" := JStr("receipts.check"), "params" := JObj(map["id" := JStr(transactionId)])])
  }

  const CheckoutBase: string := "https://checkout.paycom.uz/"

  /** The webhook's answer to a verified call, by its `method`. */
  function Dispatch(name: Option<Json>): (resp: Response)
    ensures resp.status == 200 <==> name == Some(JStr("receipts.pay")) || name == Some(JStr("receipts.cancel"))
    ensures resp.status == 200 ==> resp == Send(200, JObj(map["result" := JObj(map["success" := JBool(true)])]))
    ensures resp.status != 200 ==> resp == Error(400, "Unknown method")
  {
    if name == Some(JStr("receipts.pay")) || name == Some(JStr("receipts.cancel")) then
      Send(200, JObj(map["result" := JObj(map["success" := JBool(true)])]))
    else Error(400, "Unknown method")
  }

  /** The client, configured with the merchant's cashier key. */
  class Paycom {
    const paycomKey: string
    /** The `X-Auth` header the client sends with every gateway call. */
    const authHeader: string := Signature(paycomKey)

    constructor(paycomKey: string)
      ensures this.paycomKey == paycomKey
    {
      this.paycomKey := paycomKey;
    }

    /** `receivedHash === calculatedHash` on the `x-auth` header. */
    function VerifyWebhookSignature(xAuth: Option<string>): (ok: bool)
      ensures xAuth == Some(authHeader) ==> ok
      ensures ok ==> xAuth.Some? && Utf8.Decode(Base64.Decode(xAuth.value)) == paycomKey + ":"
    {
      SignatureCarriesKey(paycomKey);
      xAuth == Some(Signature(paycomKey))
    }

    /** `generatePaymentUrl(id)`: the checkout address followed by `String(id)`. */
    function GeneratePaymentUrl(transactionId: Option<Json>): (url: string)
      ensures |url| >= |CheckoutBase| && url[..|CheckoutBase|] == CheckoutBase
      ensures url[|CheckoutBase|..] == ToJsString(transactionId)
    {
      CheckoutBase + ToJsString(transactionId)
    }

    /** `createTransaction(amount, orderId)` with `post` standing for the gateway. */
    function CreateTransaction(amount: Json, orderId: Json, post: Json -> Reply): (o: Outcome)
      ensures var r := post(CreateRequest(amount, orderId));
              (o.Resolved? <==> r.Reply? && Prop(Some(r.data), "error").Success? &&
                                !Truthy(Prop(Some(r.data), "error").value)) &&
              (o.Resolved? ==> o.result == Prop(Some(r.data), "result").value) &&
              (r.NetworkError? ==> o == PaycomFailure(Some(JNum(-32400)), "System Error"))
    {
      Normalise(post(CreateRequest(amount, orderId)))
    }

    /** `checkTransaction(transactionId)` with `post` standing for the gateway. */
    function CheckTransaction(transactionId: string, post: Json -> Reply): (o: Outcome)
      ensures var r := post(CheckRequest(transactionId));
              (o.Resolved? <==> r.Reply? && Prop(Some(r.data), "error").Success? &&
                                !Truthy(Prop(Some(r.data), "error").value)) &&
              (o.Resolved? ==> o.result == Prop(Some(r.data), "result").value) &&
              (r.NetworkError? ==> o == PaycomFailure(Some(JNum(-32400)), "System Error"))
    {
      Normalise(post(CheckRequest(transactionId)))
    }

    /**
     * `handleWebhook`: the signature is checked first, then the body's
     * `method` is dispatched.
     */
    function HandleWebhook(xAuth: Option<string>, body: map<string, Json>): (resp: Response)
      ensures !VerifyWebhookSignature(xAuth) ==> resp == Error(401, "Invalid signature")
      ensures VerifyWebhookSignature(xAuth) ==> resp == Dispatch(Get(body, "method"))
    {
      if !VerifyWebhookSignature(xAuth) then Error(401, "Invalid signature")
      else Dispatch(Get(body, "method"))
    }
  }

  /** The client's own `X-Auth` header passes its own webhook check. */
  lemma OwnHeaderVerifies(p: Paycom)
    ensures p.VerifyWebhookSignature(Some(p.authHeader))
  {
  }

  /** Two transaction ids that are strings give the same payment URL only if they are equal. */
  lemma PaymentUrlInjective(p: Paycom, a: string, b: string)
    requires p.GeneratePaymentUrl(Some(JStr(a))) == p.GeneratePaymentUrl(Some(JStr(b)))
    ensures a == b
  {
    assert a == p.GeneratePaymentUrl(Some(JStr(a)))[|CheckoutBase|..];
    assert b == p.GeneratePaymentUrl(Some(JStr(b)))[|CheckoutBase|..];
  }
}
