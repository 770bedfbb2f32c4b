/**
 * The payments router (app/routes/payments.js): input validation in front
 * of the two gateway calls, the webhook, and the router's error-handling
 * middleware `handlePaycomError`. The router's single `Paycom` client is
 * a parameter.
 */
module PaymentsRoutes {
  import opened Wrappers
  import opened Js
  import opened Http
  import opened PaymeService

  /** An error a handler passes to `next`. */
  datatype Thrown =
    | PaycomError(code: Option<Json>, message: string)
    | TypeError(message: string)
    | ReferenceError(message: string)

  /** How a route ends: a response written, or an error passed to `next`. */
  datatype RouteOutcome = Respond(response: Response) | PassOn(error: Thrown)

  /** A rejected gateway call as the error it throws. */
  function Raised(o: Outcome): Thrown
    requires o.PaycomFailure?
  {
    PaycomError(o.code, o.message)
  }

  /** `{ ...fields, key: v }` where an `undefined` value is left out when serialised. */
  function WithOptional(fields: map<string, Json>, key: string, v: Option<Json>): (m: map<string, Json>)
    ensures v.Some? ==> m == fields[key := v.value]
    ensures v.None? ==> m == fields
  {
    if v.Some? then fields[key := v.value] else fields
  }

  /** The success body of `/create-payment`. */
  function PaymentCreated(transactionId: Option<Json>, paymentUrl: string): Json
  {
    JObj(WithOptional(map["success" := JBool(true), "paymentUrl" := JStr(paymentUrl)], "transactionId", transactionId))
  }

  /**
   * POST /create-payment: a falsy `amount` (0 and "" included) or `orderId`
   * is refused before the gateway is called; otherwise the gateway's
   * transaction id and the checkout URL built from it are returned, and a
   * failure is passed on.
   */
  function CreatePayment(p: Paycom, body: map<string, Json>, post: Json -> Reply): (o: RouteOutcome)
    ensures !Truthy(Get(body, "amount")) || !Truthy(Get(body, "orderId")) ==>
              o == Respond(Error(400, "Amount and orderId are required"))
    ensures Truthy(Get(body, "amount")) && Truthy(Get(body, "orderId")) ==>
              var t := p.CreateTransaction(body["amount"], body["orderId"], post);
              (t.PaycomFailure? ==> o == PassOn(PaycomError(t.code, t.message))) &&
              (t.Resolved? && Prop(t.result, "id").Failure? ==> o == PassOn(TypeError(Prop(t.result, "id").error))) &&
              (t.Resolved? && Prop(t.result, "id").Success? ==>
                 var id := Prop(t.result, "id").value;
                 o == Respond(Send(200, PaymentCreated(id, p.GeneratePaymentUrl(id)))))
  {
    var amount := Get(body, "amount");
    var orderId := Get(body, "orderId");
    if !Truthy(amount) || !Truthy(orderId) then Respond(Error(400, "Amount and orderId are required"))
    else
      var transaction := p.CreateTransaction(amount.value, orderId.value, post);
      match transaction
      case PaycomFailure(_, _) => PassOn(Raised(transaction))
      case Resolved(result) =>
        match Prop(result, "id")
        case Failure(e) => PassOn(TypeError(e))
        case Success(id) => Respond(Send(200, PaymentCreated(id, p.GeneratePaymentUrl(id))))
  }

  /** When the gateway's result carries a string id, the URL is the checkout address followed by that id. */
  lemma CreatedUrlNamesTransaction(p: Paycom, body: map<string, Json>, post: Json -> Reply,
                                   result: map<string, Json>, id: string)
    requires Truthy(Get(body, "amount")) && Truthy(Get(body, "orderId"))
    requires p.CreateTransaction(body["amount"], body["orderId"], post) == Resolved(Some(JObj(result)))
    requires "id" in result && result["id"] == JStr(id)
    ensures CreatePayment(p, body, post) == Respond(Send(200, PaymentCreated(Some(JStr(id)), CheckoutBase + id)))
  {
    assert Prop(Some(JObj(result)), "id") == Success(Some(JStr(id)));
  }

  /**
   * GET /check-payment/:transactionId: an empty id is refused before the
   * gateway is called; otherwise the gateway's result is returned as
   * `status`, and a failure is passed on.
   */
  function CheckPayment(p: Paycom, transactionId: string, post: Json -> Reply): (o: RouteOutcome)
    ensures transactionId == "" ==> o == Respond(Error(400, "Transaction ID is required"))
    ensures transactionId != "" ==>
              var t := p.CheckTransaction(transactionId, post);
              (t.PaycomFailure? ==> o == PassOn(PaycomError(t.code, t.message))) &&
              (t.Resolved? ==>
                 o == Respond(Send(200, JObj(WithOptional(map["success" := JBool(true)], "status", t.result)))))
  {
    if transactionId == "" then Respond(Error(400, "Transaction ID is required"))
    else
      var status := p.CheckTransaction(transactionId, post);
      match status
      case PaycomFailure(_, _) => PassOn(Raised(status))
      case Resolved(result) => Respond(Send(200, JObj(WithOptional(map["success" := JBool(true)], "status", result))))
  }

  /**
   * POST /webhook: the router's own copy of the client's webhook handler —
   * the signature first, then the dispatch on the body's `method`.
   */
  function Webhook(p: Paycom, xAuth: Option<string>, body: map<string, Json>): (resp: Response)
    ensures !p.VerifyWebhookSignature(xAuth) ==> resp == Error(401, "Invalid signature")
    ensures p.VerifyWebhookSignature(xAuth) ==>
              (resp.status == 200 <==> Get(body, "method") in {Some(JStr("receipts.pay")), Some(JStr("receipts.cancel"))})
    ensures resp.status == 200 || resp.status == 400 || resp.status == 401
  {
    if !p.VerifyWebhookSignature(xAuth) then Error(401, "Invalid signature")
    else Dispatch(Get(body, "method"))
  }

  /** The route answers every call exactly as the client's `handleWebhook` would. */
  lemma WebhookAgreesWithClient(p: Paycom, xAuth: Option<string>, body: map<string, Json>)
    ensures Webhook(p, xAuth, body) == p.HandleWebhook(xAuth, body)
  {
  }

  /** The error `instanceof PaycomError` raises: the class is not in scope in this file. */
  const UnboundPaycomError: Thrown := ReferenceError("PaycomError is not defined")

  /**
   * `handlePaycomError` as written: evaluating `PaycomError` throws, so every
   * error — a gateway error included — reaches the next error handler as
   * that ReferenceError.
   */
  function HandlePaycomErrorAsWritten(e: Thrown): (o: RouteOutcome)
    ensures o.PassOn? && o.error.ReferenceError?
  {
    PassOn(UnboundPaycomError)
  }

  /** As written, a gateway error is never answered with 400, and its code is lost. */
  lemma GatewayErrorNotMapped(code: Option<Json>, message: string)
    ensures !HandlePaycomErrorAsWritten(PaycomError(code, message)).Respond?
    ensures HandlePaycomErrorAsWritten(PaycomError(code, message)).error != PaycomError(code, message)
  {
  }

  /** The body `{ error: error.message, code: error.code }`. */
  function PaycomErrorBody(code: Option<Json>, message: string): Json
  {
    JObj(WithOptional(map["error" := JStr(message)], "code", code))
  }

  /**
   * `handlePaycomError` as its comment and test mean it: a `PaycomError`
   * becomes 400 with its message and code, every other error is passed on.
   */
  function HandlePaycomError(e: Thrown): (o: RouteOutcome)
    ensures o.Respond? <==> e.PaycomError?
    ensures e.PaycomError? ==> o == Respond(Send(400, PaycomErrorBody(e.code, e.message)))
    ensures !e.PaycomError? ==> o == PassOn(e)
  {
    match e
    case PaycomError(code, message) => Respond(Send(400, PaycomErrorBody(code, message)))
    case _ => PassOn(e)
  }

  /** A route's outcome after the router's error middleware. */
  function Settle(o: RouteOutcome): RouteOutcome
  {
    match o
    case Respond(_) => o
    case PassOn(e) => HandlePaycomError(e)
  }

  /**
   * With the intended middleware, a gateway that answers with an error
   * object gives the client 400 carrying the gateway's code and message;
   * a transport failure gives 400 with code -32400 and "System Error".
   */
  lemma GatewayFailureIs400(p: Paycom, body: map<string, Json>, post: Json -> Reply)
    requires Truthy(Get(body, "amount")) && Truthy(Get(body, "orderId"))
    requires post(CreateRequest(body["amount"], body["orderId"])).NetworkError?
    ensures Settle(CreatePayment(p, body, post)) ==
              Respond(Send(400, PaycomErrorBody(Some(JNum(-32400)), "System Error")))
  {
  }
}
