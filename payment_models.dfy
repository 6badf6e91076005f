/**
 * The payment row (backend/apps/payments/models.py). Besides the declared
 * columns the record holds the three attributes the views read and write on
 * it: the gateway's payment id, the payment signature and whether a webhook
 * was received. The model does not declare them; the views' behaviour
 * against the declared model is `PaymentViews.WebhookAsWritten` and
 * `PaymentViews.VerifyAsWritten`. The amount is exact, in paise.
 */
module PaymentModels {
  import opened Wrappers

  datatype PaymentStatus = Pending | Success | Failed
  datatype Provider = Razorpay | Stripe | Other

  /** The stored values of the status choices. */
  function StatusValue(s: PaymentStatus): string {
    match s
    case Pending => "PENDING"
    case Success => "SUCCESS"
    case Failed => "FAILED"
  }

  /** Reading a stored status back; anything outside the choices is refused. */
  function ParseStatus(v: string): (r: Option<PaymentStatus>)
    ensures r.Some? ==> StatusValue(r.value) == v
    ensures forall s :: v == StatusValue(s) ==> r == Some(s)
  {
    if v == "PENDING" then Some(Pending)
    else if v == "SUCCESS" then Some(Success)
    else if v == "FAILED" then Some(Failed)
    else None
  }

  function ProviderValue(p: Provider): string {
    match p
    case Razorpay => "RAZORPAY"
    case Stripe => "STRIPE"
    case Other => "OTHER"
  }

  function ParseProvider(v: string): (r: Option<Provider>)
    ensures r.Some? ==> ProviderValue(r.value) == v
    ensures forall p :: v == ProviderValue(p) ==> r == Some(p)
  {
    if v == "RAZORPAY" then Some(Razorpay)
    else if v == "STRIPE" then Some(Stripe)
    else if v == "OTHER" then Some(Other)
    else None
  }

  const DefaultStatus: PaymentStatus := Pending
  const DefaultProvider: Provider := Razorpay
  const DefaultCurrency: string := "INR"

  /** The id of an order row in the orders table. */
  type OrderId = nat

  datatype Payment = Payment(
    order: OrderId,
    paymentOrderId: string,
    provider: Provider,
    amount: int,
    currency: string,
    status: PaymentStatus,
    razorpayPaymentId: Option<string>,
    razorpaySignature: Option<string>,
    webhookReceived: bool)

  /** A row as `Payment.objects.create` makes it when only the declared defaults apply. */
  function NewPayment(order: OrderId, paymentOrderId: string, amount: int, currency: string): (r: Payment)
    ensures r.order == order && r.paymentOrderId == paymentOrderId
    ensures r.amount == amount && r.currency == currency
    ensures r.status == DefaultStatus && r.provider == DefaultProvider
    ensures r.razorpayPaymentId.None? && r.razorpaySignature.None? && !r.webhookReceived
  {
    Payment(order, paymentOrderId, DefaultProvider, amount, currency, DefaultStatus, None, None, false)
  }

  /** No gateway order id is used by two rows (`unique=True`). */
  predicate UniqueGatewayIds(ps: seq<Payment>) {
    forall i, j :: 0 <= i < j < |ps| ==> ps[i].paymentOrderId != ps[j].paymentOrderId
  }

  /**
   * The rows are kept in creation order, so the default ordering (newest
   * first) lists them back to front: the newest row of an order satisfying
   * `pendingOnly` is the last such index.
   */
  function Latest(ps: seq<Payment>, order: OrderId, pendingOnly: bool): (r: Option<nat>)
    ensures r.Some? ==> r.value < |ps| && ps[r.value].order == order
    ensures r.Some? && pendingOnly ==> ps[r.value].status == Pending
    ensures r.Some? ==> forall j :: r.value < j < |ps| && ps[j].order == order ==> pendingOnly && ps[j].status != Pending
    ensures r.None? <==> forall j :: 0 <= j < |ps| ==> ps[j].order != order || (pendingOnly && ps[j].status != Pending)
  {
    if ps == [] then None
    else
      var last := |ps| - 1;
      if ps[last].order == order && (!pendingOnly || ps[last].status == Pending) then Some(last)
      else
        var r := Latest(ps[..last], order, pendingOnly);
        assert forall j :: 0 <= j < last ==> ps[..last][j] == ps[j];
        r
  }

  /** `Payment.objects.get(payment_order_id=...)`: the row with that gateway order id. */
  function ByGatewayId(ps: seq<Payment>, id: string): (r: Option<nat>)
    ensures r.Some? ==> r.value < |ps| && ps[r.value].paymentOrderId == id
    ensures r.None? <==> forall j :: 0 <= j < |ps| ==> ps[j].paymentOrderId != id
  {
    if ps == [] then None
    else
      var last := |ps| - 1;
      if ps[last].paymentOrderId == id then Some(last)
      else
        var r := ByGatewayId(ps[..last], id);
        assert forall j :: 0 <= j < last ==> ps[..last][j] == ps[j];
        r
  }

  /** With unique gateway ids the row found is the only one. */
  lemma {:induction false} ByGatewayIdUnique(ps: seq<Payment>, id: string, k: nat)
    requires UniqueGatewayIds(ps)
    requires k < |ps| && ps[k].paymentOrderId == id
    ensures ByGatewayId(ps, id) == Some(k)
  {
    assert ByGatewayId(ps, id).Some?;
  }
}
