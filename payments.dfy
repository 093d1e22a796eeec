/** The subscription lifecycle (controllers/paymentController.js): buying a
    subscription from the payment gateway, verifying the payment callback,
    and cancelling with a time-windowed refund. The state is the users
    collection, the Payment collection and the requests sent to the
    gateway. */
module Payments {
  import opened Common
  import opened Seqs
  import opened UserModel

  /** A row of the Payment collection (models/Payment.js). */
  datatype Payment = Payment(paymentId: string, subscriptionId: string, signature: string, createdAt: int)

  /** The three gateway fields are required strings; `createdAt` has a
      default and no validator. */
  function PaymentValid(p: Payment): (ok: bool)
    ensures ok <==> |p.paymentId| > 0 && |p.subscriptionId| > 0 && |p.signature| > 0
  {
    p.paymentId != "" && p.subscriptionId != "" && p.signature != ""
  }

  /** The Payment collection. */
  class PaymentCollection {
    var rows: seq<Payment>

    constructor ()
      ensures rows == []
    {
      rows := [];
    }
  }

  /** The requests the server sends to the payment gateway. */
  datatype GatewayCall =
    | CreateRequest(planId: string, customerNotify: int, totalCount: int)
    | CancelRequest(subscriptionId: Option<string>)
    | RefundRequest(paymentId: string)

  /** What the gateway answers to a subscription request. */
  datatype GatewaySubscription = GatewaySubscription(id: string, status: string)

  /** The gateway client. The model keeps every request it was sent, in
      order; what the gateway answers is given to each handler. */
  class Gateway {
    var sent: seq<GatewayCall>

    constructor ()
      ensures sent == []
    {
      sent := [];
    }

    method Send(call: GatewayCall)
      modifies this
      ensures sent == old(sent) + [call]
    {
      sent := sent + [call];
    }
  }

  const DefaultPlanId := "plan_NNbeBdR35bvAsR"
  const CustomerNotify := 1
  const TotalCount := 12
  const MsPerDay := 24 * 60 * 60 * 1000

  const AdminCannotBuy := "Admin can't buy Subscription"
  const RefundMessage := "Subscription cancelled successfully , You will get refund within 7 days"
  const NoRefundMessage := "Subscription cancelled successfully , No refund initiated as subscription is cancelled after 7 days"

  /** `process.env.PLAN_ID || default`: an unset or empty variable falls back. */
  function PlanId(env: Option<string>): (plan: string)
    ensures plan != ""
    ensures env.Some? && env.value != "" ==> plan == env.value
    ensures env == None || env == Some("") ==> plan == DefaultPlanId
  {
    if env.Some? && env.value != "" then env.value else DefaultPlanId
  }

  /** How JavaScript renders a possibly undefined string inside `+`. */
  function JsText(s: Option<string>): string {
    match s
    case Some(v) => v
    case None => "undefined"
  }

  /** The signature the server expects: the HMAC-SHA256, under the API
      secret, of the callback's payment id, "|" and the subscription id
      stored on the user. Either one missing is rendered as the text
      "undefined", exactly as if that were its value. */
  function ExpectedSignature(hmac: (string, string) -> string, secret: string,
                             paymentId: Option<string>, stored: Option<string>): (sig: string)
    ensures paymentId.Some? && stored.Some? ==> sig == hmac(secret, paymentId.value + "|" + stored.value)
    ensures paymentId.Some? && stored.None? ==> sig == hmac(secret, paymentId.value + "|" + "undefined")
    ensures paymentId.None? && stored.Some? ==> sig == hmac(secret, "undefined" + "|" + stored.value)
    ensures paymentId.None? && stored.None? ==> sig == hmac(secret, "undefined" + "|" + "undefined")
  {
    hmac(secret, JsText(paymentId) + "|" + JsText(stored))
  }

  /** So a user whose subscription id is unset verifies a callback exactly
      as a user whose stored id is the text "undefined", and a callback
      without a payment id is signed as one whose id is "undefined". */
  lemma MissingIdsSignAsUndefined(hmac: (string, string) -> string, secret: string,
                                  paymentId: Option<string>, stored: Option<string>)
    ensures ExpectedSignature(hmac, secret, paymentId, None)
            == ExpectedSignature(hmac, secret, paymentId, Some("undefined"))
    ensures ExpectedSignature(hmac, secret, None, stored)
            == ExpectedSignature(hmac, secret, Some("undefined"), stored)
  {
  }

  /** The Payment rows for a subscription id; an unset id matches none. */
  function ForSubscription(id: Option<string>): Payment -> bool {
    (p: Payment) => id == Some(p.subscriptionId)
  }

  /** `buySubscription`. Admins are refused before the gateway is asked.
      Anyone else gets a fresh gateway subscription (12 billing cycles,
      customer notified) whose id and status overwrite whatever the user
      held: there is no check for an existing subscription. */
  method BuySubscription(users: UserCollection, gateway: Gateway, uid: UserId,
                         planEnv: Option<string>, reply: Option<GatewaySubscription>)
    returns (r: Result<string>)
    requires First(users.docs, WithId(uid)).Some?
    modifies users, gateway
    ensures var i := First(old(users.docs), WithId(uid)).value;
            old(users.docs)[i].role == Admin ==>
              && r == Err(HttpError(400, AdminCannotBuy))
              && users.docs == old(users.docs) && gateway.sent == old(gateway.sent)
    ensures var i := First(old(users.docs), WithId(uid)).value;
            old(users.docs)[i].role != Admin ==>
              gateway.sent == old(gateway.sent) + [CreateRequest(PlanId(planEnv), CustomerNotify, TotalCount)]
    ensures var i := First(old(users.docs), WithId(uid)).value;
            old(users.docs)[i].role != Admin && reply.None? ==>
              r == Err(ServiceFailed) && users.docs == old(users.docs)
    ensures var i := First(old(users.docs), WithId(uid)).value;
            var u := old(users.docs)[i];
            u.role != Admin && reply.Some? ==>
              && r == Ok(reply.value.id)
              && users.docs == old(users.docs)[i := u.(subscription := Subscription(Some(reply.value.id), Some(reply.value.status)))]
  {
    var i := First(users.docs, WithId(uid)).value;
    var user := users.docs[i];
    if user.role == Admin {
      return Err(HttpError(400, AdminCannotBuy));
    }
    var planId := PlanId(planEnv);
    gateway.Send(CreateRequest(planId, CustomerNotify, TotalCount));
    if reply.None? {
      return Err(ServiceFailed);
    }
    var subscription := reply.value;
    user := user.(subscription := user.subscription.(id := Some(subscription.id)));
    user := user.(subscription := user.subscription.(status := Some(subscription.status)));
    users.docs := users.docs[i := user];  // user.save(); PreSave leaves the unmodified password
    r := Ok(subscription.id);
  }

  /** `paymentVerification`. The expected signature is computed from the
      subscription id stored on the user, not the one in the request, and
      compared with `===`. A mismatch redirects to the failure page and
      changes nothing. On a match, a missing payment id fails the Payment
      schema's `required` like an empty one; otherwise one Payment row
      holding the three request values is added, the subscription marked
      active and the client redirected to the success page with the
      payment id as reference. */
  method PaymentVerification(users: UserCollection, payments: PaymentCollection, uid: UserId,
                             paymentId: Option<string>, subscriptionId: string, signature: string,
                             secret: string, hmac: (string, string) -> string,
                             frontendUrl: string, now: int)
    returns (r: Result<string>)
    requires First(users.docs, WithId(uid)).Some?
    modifies users, payments
    ensures var i := First(old(users.docs), WithId(uid)).value;
            ExpectedSignature(hmac, secret, paymentId, old(users.docs)[i].subscription.id) != signature ==>
              && r == Ok(frontendUrl + "/paymentfail")
              && users.docs == old(users.docs) && payments.rows == old(payments.rows)
    ensures var i := First(old(users.docs), WithId(uid)).value;
            ExpectedSignature(hmac, secret, paymentId, old(users.docs)[i].subscription.id) == signature
            && (paymentId.None? || !PaymentValid(Payment(paymentId.value, subscriptionId, signature, now))) ==>
              && r == Err(ValidationFailed)
              && users.docs == old(users.docs) && payments.rows == old(payments.rows)
    ensures var i := First(old(users.docs), WithId(uid)).value;
            var u := old(users.docs)[i];
            ExpectedSignature(hmac, secret, paymentId, u.subscription.id) == signature
            && paymentId.Some? && PaymentValid(Payment(paymentId.value, subscriptionId, signature, now)) ==>
              var row := Payment(paymentId.value, subscriptionId, signature, now);
              && r == Ok(frontendUrl + "/paymentsuccess?reference=" + paymentId.value)
              && payments.rows == old(payments.rows) + [row]
              && users.docs == old(users.docs)[i := u.(subscription := u.subscription.(status := Some(Active)))]
  {
    var i := First(users.docs, WithId(uid)).value;
    var user := users.docs[i];
    var storedId := user.subscription.id;
    var generated := hmac(secret, JsText(paymentId) + "|" + JsText(storedId));
    var isAuthentic := generated == signature;
    if !isAuthentic {
      return Ok(frontendUrl + "/paymentfail");
    }
    if paymentId.None? {
      return Err(ValidationFailed);
    }
    var row := Payment(paymentId.value, subscriptionId, signature, now);
    if !PaymentValid(row) {
      return Err(ValidationFailed);
    }
    payments.rows := payments.rows + [row];
    user := user.(subscription := user.subscription.(status := Some(Active)));
    users.docs := users.docs[i := user];  // user.save(); PreSave leaves the unmodified password
    r := Ok(frontendUrl + "/paymentsuccess?reference=" + paymentId.value);
  }

  /** Whether `cancelSubscription` asks for a refund: strictly less than
      `refundDays` whole days, in milliseconds, since the payment. The
      window is open at its end, and a window of no days refunds nothing
      paid in the past. */
  function WithinRefundWindow(paidAt: int, now: int, refundDays: int): (refund: bool)
    ensures refundDays > 0 && paidAt <= now < paidAt + MsPerDay ==> refund
    ensures now >= paidAt + refundDays * 86400000 ==> !refund
    ensures refundDays <= 0 && now >= paidAt ==> !refund
  {
    now - paidAt < refundDays * MsPerDay
  }

  /** `cancelSubscription`. The gateway cancel is sent first. Then the
      Payment row for the stored subscription id is looked up; if there is
      none the handler throws, after the cancel. Within the refund window a
      refund is requested. In both branches the row is deleted, the user's
      subscription id and status are cleared, and the message says whether a
      refund was made. */
  method CancelSubscription(users: UserCollection, payments: PaymentCollection, gateway: Gateway,
                            uid: UserId, now: int, refundDays: int,
                            cancelAccepted: bool, refundAccepted: bool)
    returns (r: Result<string>)
    requires First(users.docs, WithId(uid)).Some?
    modifies users, payments, gateway
    ensures var i := First(old(users.docs), WithId(uid)).value;
            var id := old(users.docs)[i].subscription.id;
            !cancelAccepted ==>
              && r == Err(ServiceFailed)
              && gateway.sent == old(gateway.sent) + [CancelRequest(id)]
              && users.docs == old(users.docs) && payments.rows == old(payments.rows)
    ensures var i := First(old(users.docs), WithId(uid)).value;
            var id := old(users.docs)[i].subscription.id;
            cancelAccepted && First(old(payments.rows), ForSubscription(id)).None? ==>
              && r.Err? && r.failure.Thrown?
              && gateway.sent == old(gateway.sent) + [CancelRequest(id)]
              && users.docs == old(users.docs) && payments.rows == old(payments.rows)
    ensures var i := First(old(users.docs), WithId(uid)).value;
            var id := old(users.docs)[i].subscription.id;
            var k := First(old(payments.rows), ForSubscription(id));
            cancelAccepted && k.Some?
            && WithinRefundWindow(old(payments.rows)[k.value].createdAt, now, refundDays) && !refundAccepted ==>
              && r == Err(ServiceFailed)
              && gateway.sent == old(gateway.sent) + [CancelRequest(id), RefundRequest(old(payments.rows)[k.value].paymentId)]
              && users.docs == old(users.docs) && payments.rows == old(payments.rows)
    ensures var i := First(old(users.docs), WithId(uid)).value;
            var u := old(users.docs)[i];
            var k := First(old(payments.rows), ForSubscription(u.subscription.id));
            cancelAccepted && k.Some? ==>
              var p := old(payments.rows)[k.value];
              var refund := WithinRefundWindow(p.createdAt, now, refundDays);
              (!refund || refundAccepted) ==>
                && gateway.sent == old(gateway.sent) + [CancelRequest(u.subscription.id)]
                                   + (if refund then [RefundRequest(p.paymentId)] else [])
                && payments.rows == old(payments.rows)[..k.value] + old(payments.rows)[k.value + 1..]
                && users.docs == old(users.docs)[i := u.(subscription := NoSubscription)]
                && r == Ok(if refund then RefundMessage else NoRefundMessage)
  {
    var i := First(users.docs, WithId(uid)).value;
    var user := users.docs[i];
    var subscriptionId := user.subscription.id;
    var refund := false;
    gateway.Send(CancelRequest(subscriptionId));
    if !cancelAccepted {
      return Err(ServiceFailed);
    }
    var found := First(payments.rows, ForSubscription(subscriptionId));
    if found.None? {
      return Err(Thrown("Cannot read properties of null (reading 'createdAt')"));
    }
    var k := found.value;
    var payment := payments.rows[k];
    var gap := now - payment.createdAt;
    var refundTime := refundDays * MsPerDay;
    if gap < refundTime {
      gateway.Send(RefundRequest(payment.paymentId));
      if !refundAccepted {
        return Err(ServiceFailed);
      }
      refund := true;
    }
    payments.rows := payments.rows[..k] + payments.rows[k + 1..];
    user := user.(subscription := NoSubscription);  // id and status set to undefined
    users.docs := users.docs[i := user];  // user.save(); PreSave leaves the unmodified password
    r := Ok(if refund then RefundMessage else NoRefundMessage);
  }

  /** A payment callback delivered twice, then a cancellation. Nothing
      ties Payment rows to subscription episodes: both callbacks are
      accepted and each adds a row for the same subscription; cancelling
      deletes only the first of them and clears the user's subscription,
      so a row for a subscription the user no longer holds stays behind. */
  method RepeatedCallbackExample() returns (afterCallbacks: seq<Payment>, afterCancel: seq<Payment>, user: User)
    ensures |afterCallbacks| == 2
    ensures afterCallbacks[0].subscriptionId == "sub_1" && afterCallbacks[1].subscriptionId == "sub_1"
    ensures afterCancel == [afterCallbacks[1]]
    ensures user.subscription == NoSubscription
  {
    var users := new UserCollection();
    var u := NewUser("u1", "Asha", "asha@example.com", "secret-pass", Media("a", "b"), 0);
    users.docs := [u.(subscription := Subscription(Some("sub_1"), Some("created")))];
    assert WithId("u1")(users.docs[0]);
    var payments := new PaymentCollection();
    var gateway := new Gateway();
    var hmac := (key: string, message: string) => "sig";
    var first := PaymentVerification(users, payments, "u1", Some("pay_1"), "sub_1", "sig", "secret", hmac, "https://app", 1000);
    assert WithId("u1")(users.docs[0]);
    var second := PaymentVerification(users, payments, "u1", Some("pay_1"), "sub_1", "sig", "secret", hmac, "https://app", 2000);
    afterCallbacks := payments.rows;
    assert WithId("u1")(users.docs[0]);
    assert ForSubscription(Some("sub_1"))(afterCallbacks[0]);
    var cancelled := CancelSubscription(users, payments, gateway, "u1", 3000, 7, true, true);
    afterCancel := payments.rows;
    user := users.docs[0];
  }

  /** A second purchase over an active subscription. The new gateway
      subscription overwrites the user's id and status, so the user is no
      longer active although the Payment row of the first subscription is
      still there; cancelling then looks for a row of the new subscription,
      finds none and throws after the gateway cancel. */
  method BuyOverActiveExample() returns (rows: seq<Payment>, user: User, cancelled: Result<string>)
    ensures rows == [Payment("pay_1", "sub_1", "sig", 1000)]
    ensures user.subscription == Subscription(Some("sub_2"), Some("created"))
    ensures cancelled.Err? && cancelled.failure.Thrown?
  {
    var users := new UserCollection();
    var u := NewUser("u1", "Asha", "asha@example.com", "secret-pass", Media("a", "b"), 0);
    users.docs := [u.(subscription := Subscription(Some("sub_1"), Some(Active)))];
    assert WithId("u1")(users.docs[0]);
    var payments := new PaymentCollection();
    payments.rows := [Payment("pay_1", "sub_1", "sig", 1000)];
    var gateway := new Gateway();
    var bought := BuySubscription(users, gateway, "u1", None, Some(GatewaySubscription("sub_2", "created")));
    rows := payments.rows;
    user := users.docs[0];
    assert WithId("u1")(users.docs[0]);
    assert !ForSubscription(Some("sub_2"))(rows[0]);
    cancelled := CancelSubscription(users, payments, gateway, "u1", 2000, 7, true, true);
  }

  /** A callback without a payment id, signed over "undefined|sub_1": the
      signature is authentic, and the Payment row it would create fails
      the schema, so the request ends in a validation error rather than
      on the failure page. */
  method MissingPaymentIdExample() returns (r: Result<string>, rows: seq<Payment>)
    ensures r == Err(ValidationFailed)
    ensures rows == []
  {
    var users := new UserCollection();
    var u := NewUser("u1", "Asha", "asha@example.com", "secret-pass", Media("a", "b"), 0);
    users.docs := [u.(subscription := Subscription(Some("sub_1"), Some("created")))];
    assert WithId("u1")(users.docs[0]);
    var payments := new PaymentCollection();
    var hmac := (key: string, message: string) => if message == "undefined|sub_1" then "sig" else "other";
    r := PaymentVerification(users, payments, "u1", None, "sub_1", "sig", "secret", hmac, "https://app", 1000);
    rows := payments.rows;
  }
}
