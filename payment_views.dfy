/**
 * The three payment endpoints (backend/apps/payments/views.py): creating a
 * gateway order for an order of the caller, the synchronous signature check
 * after checkout, and the gateway's webhook. The gateway is not modelled:
 * its order creation and both signature checks are function parameters.
 *
 * Each endpoint is a pure function from the payment rows and the orders table
 * to the reply and the new rows and table (`CreateOutcome`, `VerifyOutcome`,
 * `WebhookOutcome`), and a method of `PaymentStore` that performs the same
 * steps in place and is proved to end in that state.
 */
module PaymentViews {
  import opened Wrappers
  import opened Text
  import opened PaymentModels
  import OrderModels
  import OrderViews

  type Orders = map<OrderId, OrderModels.Order>

  /** `Order.objects.get(id=order_id, user=request.user)` finds a row. */
  predicate Owns(orders: Orders, user: OrderModels.UserId, id: OrderId) {
    id in orders && orders[id].user == Some(user)
  }

  /** Every payment belongs to an order in the table (deleting an order deletes its payments). */
  predicate Linked(ps: seq<Payment>, orders: Orders) {
    forall i :: 0 <= i < |ps| ==> ps[i].order in orders
  }

  /** The store invariant of the payment rows against the orders table. */
  predicate Consistent(ps: seq<Payment>, orders: Orders) {
    UniqueGatewayIds(ps) && Linked(ps, orders)
  }

  /** The order row with its status set to `PAID`. */
  function MarkPaid(orders: Orders, id: OrderId): (r: Orders)
    requires id in orders
    ensures r.Keys == orders.Keys
    ensures r[id].status == OrderModels.Paid
    ensures r[id] == orders[id].(status := OrderModels.Paid)
    ensures forall j :: j in orders && j != id ==> r[j] == orders[j]
  {
    orders[id := orders[id].(status := OrderModels.Paid)]
  }

  // ---------------------------------------------------------------------------
  // Creating a payment order

  /** The request body: the amount in paise, the currency and `orderId`, each possibly left out. */
  datatype PaymentOrderRequest = PaymentOrderRequest(amount: int, currency: Option<string>, orderId: Option<OrderId>)

  /** The largest amount `DecimalField(max_digits=10, decimal_places=2)` accepts is below ten to the eighth rupees. */
  const AmountLimit: int := 10_000_000_000

  /**
   * `PaymentOrderRequestSerializer.is_valid`: at most eight digits before the
   * point, a currency that is not blank and has at most three characters when
   * it is sent, and an `orderId`.
   */
  predicate SerializerAccepts(req: PaymentOrderRequest) {
    && -AmountLimit < req.amount < AmountLimit
    && (req.currency.Some? ==> req.currency.value != "" && |req.currency.value| <= 3)
    && req.orderId.Some?
  }

  function CurrencyOf(req: PaymentOrderRequest): (r: string)
    ensures req.currency.None? ==> r == DefaultCurrency
    ensures req.currency.Some? ==> r == req.currency.value
  {
    if req.currency.Some? then req.currency.value else DefaultCurrency
  }

  /** What the gateway is asked to create: amount in paise, currency, receipt and notes. */
  datatype GatewayOrder = GatewayOrder(amount: int, currency: string, receipt: string, notesOrderId: OrderId, notesOrderNumber: string)

  /** The gateway's answer: an order id, a `BadRequestError` with its description, or any other failure. */
  datatype GatewayReply = GatewayCreated(id: string) | GatewayBadRequest(description: string) | GatewayFailure(message: string)

  datatype CreateError =
    | InvalidRequest
    | InvalidAmount
    | OrderIdRequired
    | OrderNotFound(orderId: OrderId)
    | GatewayNotConfigured
    | GatewayAuthFailed
    | InvalidGatewayRequest
    | GatewayCreateFailed
    | SaveFailed

  function CreateErrorStatus(e: CreateError): nat {
    match e
    case InvalidRequest => 400
    case InvalidAmount => 400
    case OrderIdRequired => 400
    case OrderNotFound(_) => 404
    case GatewayNotConfigured => 500
    case GatewayAuthFailed => 401
    case InvalidGatewayRequest => 400
    case GatewayCreateFailed => 500
    case SaveFailed => 500
  }

  /** The payment the response describes: an existing pending one (200) or a new one (201). */
  datatype CreateReply = ExistingPayment(index: nat) | CreatedPayment(index: nat)

  function CreateReplyStatus(r: CreateReply): nat {
    if r.ExistingPayment? then 200 else 201
  }

  /** The gateway error text names an authentication failure. */
  predicate MentionsAuthentication(msg: string) {
    Contains(msg, "Authentication failed") || Contains(ToLower(msg), "authentication")
  }

  function GatewayRequest(req: PaymentOrderRequest, id: OrderId, order: OrderModels.Order): (r: GatewayOrder)
    ensures r.amount == req.amount && r.currency == CurrencyOf(req)
    ensures r.receipt == "order_" + order.orderNumber
    ensures r.notesOrderId == id && r.notesOrderNumber == order.orderNumber
  {
    GatewayOrder(req.amount, CurrencyOf(req), "order_" + order.orderNumber, id, order.orderNumber)
  }

  /** How a gateway failure is answered. */
  function GatewayError(reply: GatewayReply): (r: CreateError)
    requires !reply.GatewayCreated?
    ensures r == GatewayAuthFailed <==>
      (reply.GatewayBadRequest? && MentionsAuthentication(reply.description))
      || (reply.GatewayFailure? && MentionsAuthentication(reply.message))
    ensures r != GatewayAuthFailed ==> (r == InvalidGatewayRequest <==> reply.GatewayBadRequest?)
    ensures r in {GatewayAuthFailed, InvalidGatewayRequest, GatewayCreateFailed}
  {
    match reply
    case GatewayBadRequest(d) => if MentionsAuthentication(d) then GatewayAuthFailed else InvalidGatewayRequest
    case GatewayFailure(m) => if MentionsAuthentication(m) then GatewayAuthFailed else GatewayCreateFailed
  }

  /**
   * `create_payment_order_view`. `configured` says whether the gateway client
   * can be built; `gateway` answers an order creation.
   */
  function CreateOutcome(ps: seq<Payment>, orders: Orders, user: OrderModels.UserId, req: PaymentOrderRequest,
                         configured: bool, gateway: GatewayOrder -> GatewayReply): (r: Result<(CreateReply, seq<Payment>), CreateError>)
    ensures r == Err(InvalidRequest) <==> !SerializerAccepts(req)
    ensures r == Err(InvalidAmount) <==> SerializerAccepts(req) && req.amount <= 0
    ensures r != Err(OrderIdRequired)
    ensures SerializerAccepts(req) && req.amount > 0 && !Owns(orders, user, req.orderId.value) ==>
      r == Err(OrderNotFound(req.orderId.value))
    ensures r.Err? && r.error.OrderNotFound? ==> req.orderId == Some(r.error.orderId) && !Owns(orders, user, r.error.orderId)
    ensures r.Ok? ==> SerializerAccepts(req) && req.amount > 0 && Owns(orders, user, req.orderId.value)
    ensures (SerializerAccepts(req) && req.amount > 0 && Owns(orders, user, req.orderId.value)
             && Latest(ps, req.orderId.value, true).Some?) ==>
      r == Ok((ExistingPayment(Latest(ps, req.orderId.value, true).value), ps))
    ensures r.Ok? && r.value.0.ExistingPayment? ==>
      r.value.1 == ps && r.value.0.index < |ps|
      && ps[r.value.0.index].order == req.orderId.value && ps[r.value.0.index].status == Pending
    ensures r.Ok? && r.value.0.CreatedPayment? ==>
      var id := req.orderId.value;
      && Latest(ps, id, true).None? && configured
      && r.value.0.index == |ps| && |r.value.1| == |ps| + 1
      && gateway(GatewayRequest(req, id, orders[id])) == GatewayCreated(r.value.1[|ps|].paymentOrderId)
      && (forall j :: 0 <= j < |ps| ==> ps[j].paymentOrderId != r.value.1[|ps|].paymentOrderId)
      && r.value.1 == ps + [NewPayment(id, r.value.1[|ps|].paymentOrderId, req.amount, CurrencyOf(req))]
    ensures r.Err? && r.error == SaveFailed ==>
      gateway(GatewayRequest(req, req.orderId.value, orders[req.orderId.value])).GatewayCreated?
    ensures (SerializerAccepts(req) && req.amount > 0 && Owns(orders, user, req.orderId.value)
             && Latest(ps, req.orderId.value, true).None?) ==>
      var id := req.orderId.value;
      var reply := gateway(GatewayRequest(req, id, orders[id]));
      && (!configured ==> r == Err(GatewayNotConfigured))
      && (configured && !reply.GatewayCreated? ==> r == Err(GatewayError(reply)))
      && (configured && reply.GatewayCreated? && ByGatewayId(ps, reply.id).Some? ==> r == Err(SaveFailed))
      && (configured && reply.GatewayCreated? && ByGatewayId(ps, reply.id).None? ==>
            r == Ok((CreatedPayment(|ps|), ps + [NewPayment(id, reply.id, req.amount, CurrencyOf(req))])))
  {
    if !SerializerAccepts(req) then Err(InvalidRequest)
    else if req.amount <= 0 then Err(InvalidAmount)
    // The serializer has already required `orderId`.
    else if req.orderId.None? then Err(OrderIdRequired)
    else
      var id := req.orderId.value;
      if !Owns(orders, user, id) then Err(OrderNotFound(id))
      else
        match Latest(ps, id, true)
        case Some(k) => Ok((ExistingPayment(k), ps))
        case None =>
          if !configured then Err(GatewayNotConfigured)
          else
            var reply := gateway(GatewayRequest(req, id, orders[id]));
            if !reply.GatewayCreated? then Err(GatewayError(reply))
            else if ByGatewayId(ps, reply.id).Some? then Err(SaveFailed)
            else Ok((CreatedPayment(|ps|), ps + [NewPayment(id, reply.id, req.amount, CurrencyOf(req))]))
  }

  /** A second identical request answers with the payment the first one created and adds nothing. */
  lemma {:induction false} CreateTwiceReturnsExisting(ps: seq<Payment>, orders: Orders, user: OrderModels.UserId,
                                                      req: PaymentOrderRequest, configured: bool,
                                                      gateway: GatewayOrder -> GatewayReply, again: GatewayOrder -> GatewayReply)
    requires CreateOutcome(ps, orders, user, req, configured, gateway).Ok?
    ensures var (reply, ps') := CreateOutcome(ps, orders, user, req, configured, gateway).value;
      CreateOutcome(ps', orders, user, req, configured, again) == Ok((ExistingPayment(reply.index), ps'))
  {
    var (reply, ps') := CreateOutcome(ps, orders, user, req, configured, gateway).value;
    var id := req.orderId.value;
    if reply.CreatedPayment? {
      assert ps'[|ps|].order == id && ps'[|ps|].status == Pending;
      assert Latest(ps', id, true) == Some(|ps|);
    }
  }

  /** Creation keeps gateway ids unique and every payment tied to an order. */
  lemma {:induction false} CreateKeepsConsistent(ps: seq<Payment>, orders: Orders, user: OrderModels.UserId,
                                                 req: PaymentOrderRequest, configured: bool,
                                                 gateway: GatewayOrder -> GatewayReply)
    requires Consistent(ps, orders)
    requires CreateOutcome(ps, orders, user, req, configured, gateway).Ok?
    ensures Consistent(CreateOutcome(ps, orders, user, req, configured, gateway).value.1, orders)
  {
    var (reply, ps') := CreateOutcome(ps, orders, user, req, configured, gateway).value;
    if reply.CreatedPayment? {
      assert forall j :: 0 <= j < |ps| ==> ps'[j] == ps[j];
      assert ps'[|ps|].order == req.orderId.value;
    }
  }

  // ---------------------------------------------------------------------------
  // Verifying a payment

  datatype VerifyError = VerifyOrderNotFound | PaymentNotFound | VerificationFailed

  function VerifyErrorStatus(e: VerifyError): nat {
    match e
    case VerifyOrderNotFound => 404
    case PaymentNotFound => 404
    case VerificationFailed => 400
  }

  /** The reply of an endpoint with the payment rows and the orders table it leaves. */
  datatype Step<R> = Step(reply: R, payments: seq<Payment>, orders: Orders)

  /**
   * `verify_payment_view`: the newest payment of the caller's order is checked
   * with `check(paymentId, gateway order id, signature)`. The payment's status
   * before the call is not consulted.
   */
  function VerifyOutcome(ps: seq<Payment>, orders: Orders, user: OrderModels.UserId, paymentId: string,
                         orderId: OrderId, signature: string,
                         check: (string, string, string) -> bool): (r: Step<Result<string, VerifyError>>)
    ensures |r.payments| == |ps| && r.orders.Keys == orders.Keys
    ensures r.reply == Err(VerifyOrderNotFound) <==> !Owns(orders, user, orderId)
    ensures r.reply == Err(PaymentNotFound) <==> Owns(orders, user, orderId) && Latest(ps, orderId, false).None?
    ensures r.reply.Err? && r.reply.error != VerificationFailed ==> r.payments == ps && r.orders == orders
    ensures r.reply.Err? && r.reply.error == VerificationFailed ==>
      var k := Latest(ps, orderId, false).value;
      && Owns(orders, user, orderId)
      && !check(paymentId, ps[k].paymentOrderId, signature)
      && r.payments == ps[k := ps[k].(status := Failed)]
      && r.orders == orders
    ensures r.reply.Ok? ==>
      var k := Latest(ps, orderId, false).value;
      && r.reply.value == paymentId
      && Owns(orders, user, orderId)
      && check(paymentId, ps[k].paymentOrderId, signature)
      && r.payments == ps[k := ps[k].(razorpayPaymentId := Some(paymentId), razorpaySignature := Some(signature), status := Success)]
      && r.orders == MarkPaid(orders, orderId)
  {
    if !Owns(orders, user, orderId) then Step(Err(VerifyOrderNotFound), ps, orders)
    else
      match Latest(ps, orderId, false)
      case None => Step(Err(PaymentNotFound), ps, orders)
      case Some(k) =>
        var p := ps[k];
        if !check(paymentId, p.paymentOrderId, signature) then
          Step(Err(VerificationFailed), ps[k := p.(status := Failed)], orders)
        else
          Step(Ok(paymentId),
               ps[k := p.(razorpayPaymentId := Some(paymentId), razorpaySignature := Some(signature), status := Success)],
               MarkPaid(orders, orderId))
  }

  /**
   * `verify_payment_view` against the `Payment` that `payments/models.py`
   * declares: the gateway payment id and the signature are set on the loaded
   * instance, but `save()` writes declared fields only, so the table keeps the
   * new status and nothing else.
   */
  function VerifyAsWritten(ps: seq<Payment>, orders: Orders, user: OrderModels.UserId, paymentId: string,
                           orderId: OrderId, signature: string,
                           check: (string, string, string) -> bool): (r: Step<Result<string, VerifyError>>)
    ensures r.reply == VerifyOutcome(ps, orders, user, paymentId, orderId, signature, check).reply
    ensures r.orders == VerifyOutcome(ps, orders, user, paymentId, orderId, signature, check).orders
    ensures |r.payments| == |ps|
    ensures forall j :: 0 <= j < |ps| ==>
      r.payments[j] == ps[j].(status := VerifyOutcome(ps, orders, user, paymentId, orderId, signature, check).payments[j].status)
  {
    var intended := VerifyOutcome(ps, orders, user, paymentId, orderId, signature, check);
    if intended.reply.Ok? then
      var k := Latest(ps, orderId, false).value;
      Step(intended.reply, ps[k := ps[k].(status := Success)], intended.orders)
    else intended
  }

  /** A verified payment keeps, as written, no record of the gateway payment id it was verified with. */
  lemma {:induction false} VerifyAsWrittenDropsPaymentId(ps: seq<Payment>, orders: Orders, user: OrderModels.UserId,
                                                         paymentId: string, orderId: OrderId, signature: string,
                                                         check: (string, string, string) -> bool)
    requires VerifyOutcome(ps, orders, user, paymentId, orderId, signature, check).reply.Ok?
    requires Latest(ps, orderId, false).Some? && ps[Latest(ps, orderId, false).value].razorpayPaymentId == None
    ensures var k := Latest(ps, orderId, false).value;
      && VerifyAsWritten(ps, orders, user, paymentId, orderId, signature, check).payments[k].razorpayPaymentId == None
      && VerifyOutcome(ps, orders, user, paymentId, orderId, signature, check).payments[k].razorpayPaymentId == Some(paymentId)
  {
  }

  /**
   * The prior status of the checked payment makes no difference: a payment
   * already `SUCCESS` is set `FAILED` by a bad signature, and one already
   * `FAILED` is set `SUCCESS` by a good one.
   */
  lemma {:induction false} VerifyIgnoresPriorStatus(ps: seq<Payment>, orders: Orders, user: OrderModels.UserId,
                                                    paymentId: string, orderId: OrderId, signature: string,
                                                    check: (string, string, string) -> bool, k: nat, prior: PaymentStatus)
    requires Owns(orders, user, orderId) && Latest(ps, orderId, false) == Some(k)
    ensures var ps' := ps[k := ps[k].(status := prior)];
      VerifyOutcome(ps', orders, user, paymentId, orderId, signature, check)
      == VerifyOutcome(ps, orders, user, paymentId, orderId, signature, check)
  {
    var ps' := ps[k := ps[k].(status := prior)];
    assert forall j :: 0 <= j < |ps| ==> ps'[j].order == ps[j].order;
    assert Latest(ps', orderId, false) == Some(k);
    assert ps'[k := ps'[k].(status := Failed)] == ps[k := ps[k].(status := Failed)];
  }

  /** Verification keeps gateway ids unique and every payment tied to an order. */
  lemma {:induction false} VerifyKeepsConsistent(ps: seq<Payment>, orders: Orders, user: OrderModels.UserId,
                                                 paymentId: string, orderId: OrderId, signature: string,
                                                 check: (string, string, string) -> bool)
    requires Consistent(ps, orders)
    ensures var r := VerifyOutcome(ps, orders, user, paymentId, orderId, signature, check);
      Consistent(r.payments, r.orders)
  {
    var r := VerifyOutcome(ps, orders, user, paymentId, orderId, signature, check);
    assert forall j :: 0 <= j < |ps| ==>
      r.payments[j].paymentOrderId == ps[j].paymentOrderId && r.payments[j].order == ps[j].order;
  }

  // ---------------------------------------------------------------------------
  // The webhook

  /** The body as `json.loads` reads it: `event` and `payload.payment.entity`. */
  datatype WebhookBody = NotJson | Json(event: Option<string>, entity: map<string, string>)

  /** The `X-Razorpay-Signature` header (empty when missing), the raw payload and its parse. */
  datatype WebhookRequest = WebhookRequest(signature: string, payload: string, body: WebhookBody)

  datatype WebhookReply =
    | MissingSignature
    | InvalidSignature
    | InvalidJson
    | NoPaymentEntity
    | MissingPaymentInformation
    | UnknownPayment
    | AlreadyProcessed
    | Processed
    | ProcessingError

  function WebhookStatus(r: WebhookReply): nat {
    if r.MissingSignature? || r.InvalidSignature? || r.InvalidJson? then 400
    else if r.ProcessingError? then 500
    else 200
  }

  /** `payload_data.get(key)`. */
  function EntityField(entity: map<string, string>, key: string): (r: Option<string>)
    ensures r.Some? <==> key in entity
    ensures r.Some? ==> r.value == entity[key]
  {
    if key in entity then Some(entity[key]) else None
  }

  predicate Truthy(s: Option<string>) {
    s.Some? && s.value != ""
  }

  /** The row the webhook is about, when it gets that far. */
  function WebhookTarget(ps: seq<Payment>, req: WebhookRequest, valid: (string, string) -> bool): (r: Option<nat>)
    ensures r.Some? ==> r.value < |ps|
    ensures r.Some? <==>
      req.signature != "" && valid(req.payload, req.signature) && req.body.Json? && req.body.entity != map[]
      && Truthy(EntityField(req.body.entity, "id")) && Truthy(EntityField(req.body.entity, "order_id"))
      && ByGatewayId(ps, req.body.entity["order_id"]).Some?
    ensures r.Some? ==> r == ByGatewayId(ps, req.body.entity["order_id"])
  {
    if req.signature != "" && valid(req.payload, req.signature) && req.body.Json? && req.body.entity != map[]
       && Truthy(EntityField(req.body.entity, "id")) && Truthy(EntityField(req.body.entity, "order_id"))
    then ByGatewayId(ps, req.body.entity["order_id"])
    else None
  }

  predicate IsCapture(body: WebhookBody)
    requires body.Json?
  {
    body.event == Some("payment.captured") && EntityField(body.entity, "status") == Some("captured")
  }

  /**
   * `webhook_handler_view`. `valid(payload, signature)` is the gateway's
   * webhook signature check.
   */
  function WebhookOutcome(ps: seq<Payment>, orders: Orders, req: WebhookRequest,
                          valid: (string, string) -> bool): (r: Step<WebhookReply>)
    requires Linked(ps, orders)
    ensures r.reply == MissingSignature <==> req.signature == ""
    ensures r.reply == InvalidSignature <==> req.signature != "" && !valid(req.payload, req.signature)
    ensures r.reply == InvalidJson <==> req.signature != "" && valid(req.payload, req.signature) && req.body.NotJson?
    ensures r.reply == NoPaymentEntity <==>
      req.signature != "" && valid(req.payload, req.signature) && req.body.Json? && req.body.entity == map[]
    ensures r.reply == MissingPaymentInformation <==>
      req.signature != "" && valid(req.payload, req.signature) && req.body.Json? && req.body.entity != map[]
      && (!Truthy(EntityField(req.body.entity, "id")) || !Truthy(EntityField(req.body.entity, "order_id")))
    ensures r.reply == UnknownPayment <==>
      req.signature != "" && valid(req.payload, req.signature) && req.body.Json? && req.body.entity != map[]
      && Truthy(EntityField(req.body.entity, "id")) && Truthy(EntityField(req.body.entity, "order_id"))
      && ByGatewayId(ps, req.body.entity["order_id"]).None?
    ensures r.reply != ProcessingError && WebhookStatus(r.reply) != 500
    ensures r.reply != Processed ==> r.payments == ps && r.orders == orders
    ensures r.reply == AlreadyProcessed || r.reply == Processed <==> WebhookTarget(ps, req, valid).Some?
    ensures r.reply == AlreadyProcessed <==>
      WebhookTarget(ps, req, valid).Some?
      && ps[WebhookTarget(ps, req, valid).value].razorpayPaymentId == Some(req.body.entity["id"])
      && ps[WebhookTarget(ps, req, valid).value].webhookReceived
    ensures r.reply == Processed ==> |r.payments| == |ps|
    ensures r.reply == Processed ==>
      var k := WebhookTarget(ps, req, valid).value;
      var p := r.payments[k];
      && (forall j :: 0 <= j < |ps| && j != k ==> r.payments[j] == ps[j])
      && p == ps[k].(razorpayPaymentId := p.razorpayPaymentId, webhookReceived := p.webhookReceived, status := p.status)
      && p.razorpayPaymentId == Some(req.body.entity["id"]) && p.webhookReceived
      && (IsCapture(req.body) ==> p.status == Success && r.orders == MarkPaid(orders, ps[k].order))
      && (!IsCapture(req.body) && req.body.event == Some("payment.failed") ==> p.status == Failed && r.orders == orders)
      && (!IsCapture(req.body) && req.body.event != Some("payment.failed") ==> p.status == ps[k].status && r.orders == orders)
  {
    if req.signature == "" then Step(MissingSignature, ps, orders)
    else if !valid(req.payload, req.signature) then Step(InvalidSignature, ps, orders)
    else
      match req.body
      case NotJson => Step(InvalidJson, ps, orders)
      case Json(event, entity) =>
        var paymentId := EntityField(entity, "id");
        var orderId := EntityField(entity, "order_id");
        if entity == map[] then Step(NoPaymentEntity, ps, orders)
        else if !Truthy(paymentId) || !Truthy(orderId) then Step(MissingPaymentInformation, ps, orders)
        else
          match ByGatewayId(ps, orderId.value)
          case None => Step(UnknownPayment, ps, orders)
          case Some(k) =>
            var p := ps[k];
            if p.razorpayPaymentId == paymentId && p.webhookReceived then Step(AlreadyProcessed, ps, orders)
            else
              var seen := p.(razorpayPaymentId := paymentId, webhookReceived := true);
              if IsCapture(req.body) then
                Step(Processed, ps[k := seen.(status := Success)], MarkPaid(orders, p.order))
              else if event == Some("payment.failed") then
                Step(Processed, ps[k := seen.(status := Failed)], orders)
              else
                Step(Processed, ps[k := seen], orders)
  }

  /**
   * `webhook_handler_view` against the `Payment` that `payments/models.py`
   * declares, which has no `razorpay_payment_id` and no `webhook_received`:
   * once a row is found, reading `payment.razorpay_payment_id` raises
   * `AttributeError`, and the final `except Exception` answers 500 before
   * anything is written.
   */
  function WebhookAsWritten(ps: seq<Payment>, orders: Orders, req: WebhookRequest,
                            valid: (string, string) -> bool): (r: Step<WebhookReply>)
    requires Linked(ps, orders)
    ensures r.payments == ps && r.orders == orders
    ensures r.reply == ProcessingError <==> WebhookTarget(ps, req, valid).Some?
    ensures r.reply != Processed && r.reply != AlreadyProcessed
    ensures r.reply != ProcessingError ==> r.reply == WebhookOutcome(ps, orders, req, valid).reply
  {
    if req.signature == "" then Step(MissingSignature, ps, orders)
    else if !valid(req.payload, req.signature) then Step(InvalidSignature, ps, orders)
    else
      match req.body
      case NotJson => Step(InvalidJson, ps, orders)
      case Json(event, entity) =>
        if entity == map[] then Step(NoPaymentEntity, ps, orders)
        else if !Truthy(EntityField(entity, "id")) || !Truthy(EntityField(entity, "order_id")) then
          Step(MissingPaymentInformation, ps, orders)
        else if ByGatewayId(ps, entity["order_id"]).None? then Step(UnknownPayment, ps, orders)
        else Step(ProcessingError, ps, orders)
  }

  /**
   * The two handlers part exactly on the webhooks that reach a payment: the
   * handler as written answers 500 and loses a signed capture, which the
   * intended one records, marking the order `PAID`.
   */
  lemma {:induction false} WebhookAsWrittenLosesCapture(ps: seq<Payment>, orders: Orders, req: WebhookRequest,
                                                        valid: (string, string) -> bool)
    requires Consistent(ps, orders)
    requires WebhookTarget(ps, req, valid).Some? && IsCapture(req.body)
    requires ps[WebhookTarget(ps, req, valid).value].razorpayPaymentId == None
    ensures var k := WebhookTarget(ps, req, valid).value;
      var written := WebhookAsWritten(ps, orders, req, valid);
      var intended := WebhookOutcome(ps, orders, req, valid);
      && WebhookStatus(written.reply) == 500 && written.payments[k].status == ps[k].status
      && WebhookStatus(intended.reply) == 200 && intended.payments[k].status == Success
      && intended.orders[ps[k].order].status == OrderModels.Paid
  {
    var k := WebhookTarget(ps, req, valid).value;
    var intended := WebhookOutcome(ps, orders, req, valid);
    assert intended.reply == Processed;
    assert intended.orders == MarkPaid(orders, ps[k].order);
  }

  /** The webhook keeps gateway ids unique and every payment tied to an order. */
  lemma {:induction false} WebhookKeepsConsistent(ps: seq<Payment>, orders: Orders, req: WebhookRequest,
                                                  valid: (string, string) -> bool)
    requires Consistent(ps, orders)
    ensures var r := WebhookOutcome(ps, orders, req, valid);
      Consistent(r.payments, r.orders)
  {
    var r := WebhookOutcome(ps, orders, req, valid);
    if r.reply == Processed {
      var k := WebhookTarget(ps, req, valid).value;
      assert forall j :: 0 <= j < |ps| ==>
        r.payments[j].paymentOrderId == ps[j].paymentOrderId && r.payments[j].order == ps[j].order;
    }
  }

  /** A repeated delivery of a webhook already processed changes nothing. */
  lemma {:induction false} WebhookIdempotent(ps: seq<Payment>, orders: Orders, req: WebhookRequest,
                                             valid: (string, string) -> bool)
    requires Consistent(ps, orders)
    requires WebhookOutcome(ps, orders, req, valid).reply == Processed
    ensures var r := WebhookOutcome(ps, orders, req, valid);
      WebhookOutcome(r.payments, r.orders, req, valid) == Step(AlreadyProcessed, r.payments, r.orders)
  {
    var r := WebhookOutcome(ps, orders, req, valid);
    var k := WebhookTarget(ps, req, valid).value;
    WebhookKeepsConsistent(ps, orders, req, valid);
    assert r.payments[k].paymentOrderId == ps[k].paymentOrderId == req.body.entity["order_id"];
    ByGatewayIdUnique(r.payments, req.body.entity["order_id"], k);
    assert WebhookTarget(r.payments, req, valid) == Some(k);
  }

  /** A `payment.failed` event leaves every order's status as it was. */
  lemma {:induction false} FailedWebhookKeepsOrders(ps: seq<Payment>, orders: Orders, req: WebhookRequest,
                                                    valid: (string, string) -> bool)
    requires Linked(ps, orders)
    requires req.body.Json? && req.body.event == Some("payment.failed")
    ensures WebhookOutcome(ps, orders, req, valid).orders == orders
  {
    assert !IsCapture(req.body);
  }

  // ---------------------------------------------------------------------------
  // The payments table

  class PaymentStore {
    /** The payment rows in creation order. */
    var payments: seq<Payment>

    ghost predicate Valid()
      reads this
    {
      UniqueGatewayIds(payments)
    }

    constructor ()
      ensures Valid() && payments == []
    {
      payments := [];
    }

    /** `create_payment_order_view` for the signed-in `user`. */
    method CreatePaymentOrder(user: OrderModels.UserId, req: PaymentOrderRequest, os: OrderViews.OrderStore,
                              configured: bool, gateway: GatewayOrder -> GatewayReply)
      returns (r: Result<CreateReply, CreateError>)
      requires Valid() && Linked(payments, os.orders)
      modifies this
      ensures Valid() && Linked(payments, os.orders)
      ensures var outcome := CreateOutcome(old(payments), os.orders, user, req, configured, gateway);
        && (r.Ok? <==> outcome.Ok?)
        && (r.Err? ==> r.error == outcome.error && payments == old(payments))
        && (r.Ok? ==> r.value == outcome.value.0 && payments == outcome.value.1)
    {
      if !SerializerAccepts(req) {
        return Err(InvalidRequest);
      }
      if req.amount <= 0 {
        return Err(InvalidAmount);
      }
      if req.orderId.None? {
        return Err(OrderIdRequired);
      }
      var id := req.orderId.value;
      if !Owns(os.orders, user, id) {
        return Err(OrderNotFound(id));
      }
      var existing := Latest(payments, id, true);
      if existing.Some? {
        return Ok(ExistingPayment(existing.value));
      }
      if !configured {
        return Err(GatewayNotConfigured);
      }
      var reply := gateway(GatewayRequest(req, id, os.orders[id]));
      if !reply.GatewayCreated? {
        return Err(GatewayError(reply));
      }
      if ByGatewayId(payments, reply.id).Some? {
        return Err(SaveFailed);
      }
      r := Ok(CreatedPayment(|payments|));
      payments := payments + [NewPayment(id, reply.id, req.amount, CurrencyOf(req))];
    }

    /** `verify_payment_view` for the signed-in `user`. */
    method VerifyPayment(user: OrderModels.UserId, paymentId: string, orderId: OrderId, signature: string,
                         check: (string, string, string) -> bool, os: OrderViews.OrderStore)
      returns (r: Result<string, VerifyError>)
      requires Valid() && os.Valid() && Linked(payments, os.orders)
      modifies this, os
      ensures Valid() && os.Valid() && Linked(payments, os.orders)
      ensures Step(r, payments, os.orders)
        == VerifyOutcome(old(payments), old(os.orders), user, paymentId, orderId, signature, check)
      ensures os.nextOrder == old(os.nextOrder)
    {
      VerifyKeepsConsistent(payments, os.orders, user, paymentId, orderId, signature, check);
      if !Owns(os.orders, user, orderId) {
        return Err(VerifyOrderNotFound);
      }
      var latest := Latest(payments, orderId, false);
      if latest.None? {
        return Err(PaymentNotFound);
      }
      var k := latest.value;
      var payment := payments[k];
      if !check(paymentId, payment.paymentOrderId, signature) {
        payments := payments[k := payment.(status := Failed)];
        return Err(VerificationFailed);
      }
      payment := payment.(razorpayPaymentId := Some(paymentId), razorpaySignature := Some(signature), status := Success);
      payments := payments[k := payment];
      os.orders := os.orders[orderId := os.orders[orderId].(status := OrderModels.Paid)];
      r := Ok(paymentId);
    }

    /** `webhook_handler_view`. */
    method HandleWebhook(req: WebhookRequest, valid: (string, string) -> bool, os: OrderViews.OrderStore)
      returns (reply: WebhookReply)
      requires Valid() && os.Valid() && Linked(payments, os.orders)
      modifies this, os
      ensures Valid() && os.Valid() && Linked(payments, os.orders)
      ensures Step(reply, payments, os.orders) == WebhookOutcome(old(payments), old(os.orders), req, valid)
      ensures os.nextOrder == old(os.nextOrder)
    {
      WebhookKeepsConsistent(payments, os.orders, req, valid);
      if req.signature == "" {
        return MissingSignature;
      }
      if !valid(req.payload, req.signature) {
        return InvalidSignature;
      }
      if req.body.NotJson? {
        return InvalidJson;
      }
      var entity := req.body.entity;
      if entity == map[] {
        return NoPaymentEntity;
      }
      var paymentId := EntityField(entity, "id");
      var gatewayOrderId := EntityField(entity, "order_id");
      var status := EntityField(entity, "status");
      if !Truthy(paymentId) || !Truthy(gatewayOrderId) {
        return MissingPaymentInformation;
      }
      var found := ByGatewayId(payments, gatewayOrderId.value);
      if found.None? {
        return UnknownPayment;
      }
      var k := found.value;
      var payment := payments[k];
      if payment.razorpayPaymentId == paymentId && payment.webhookReceived {
        return AlreadyProcessed;
      }
      payment := payment.(razorpayPaymentId := paymentId, webhookReceived := true);
      if req.body.event == Some("payment.captured") && status == Some("captured") {
        payment := payment.(status := Success);
        os.orders := os.orders[payment.order := os.orders[payment.order].(status := OrderModels.Paid)];
      } else if req.body.event == Some("payment.failed") {
        payment := payment.(status := Failed);
      }
      payments := payments[k := payment];
      reply := Processed;
    }
  }
}
