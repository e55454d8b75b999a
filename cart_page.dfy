/**
 * The checkout of the cart page (app/cart/page.tsx): the effect that keeps
 * the payment method on card, and `handlePurchaseTickets`, which checks
 * its inputs, writes one pending purchase, issues the tickets of every
 * cart line, asks the payment gateway for a payment link and sends the
 * order e-mail. The gateway's reply is a parameter; the e-mail is
 * returned as the request the page sends, whose own failure is ignored.
 */
module CartPage {
  import opened Common
  import opened Api
  import opened AuthContext
  import opened Store

  /** One cart line as the cart context holds it (prices in cents). */
  datatype CartItem = CartItem(
    ticketTypeId: string,
    eventId: string,
    ticketTypeName: string,
    eventTitle: string,
    price: int,
    quantity: int)

  // ---------------------------------------------------------------------
  // The ticket requests of a cart

  /** The `createTicketsForPurchase` line for one cart item. */
  function LineOf(item: CartItem, userId: string): (line: LineItem)
    ensures line.request.purchaser_id == Some(userId) && line.quantity == item.quantity
    ensures line.request.ticket_type_id == item.ticketTypeId && line.request.event_id == item.eventId
    ensures line.request.price_paid == item.price
  {
    LineItem(TicketRequest(item.ticketTypeId, item.eventId, item.price, Some(userId)), item.quantity)
  }

  /** `ticketsData`: the cart lines, one request per item, in cart order. */
  function TicketLines(items: seq<CartItem>, userId: string): (lines: seq<LineItem>)
    ensures |lines| == |items|
    ensures forall k :: 0 <= k < |items| ==> lines[k] == LineOf(items[k], userId)
  {
    seq(|items|, k requires 0 <= k < |items| => LineOf(items[k], userId))
  }

  /** The number of tickets a cart asks for: Σ max(0, quantity). */
  function RequestedTickets(items: seq<CartItem>): (n: nat) {
    if |items| == 0 then 0
    else (if items[0].quantity < 0 then 0 else items[0].quantity) + RequestedTickets(items[1..])
  }

  /** The cart asks for exactly as many tickets as its lines request copies. */
  lemma {:induction false} TicketLinesCopies(items: seq<CartItem>, userId: string)
    ensures TotalCopies(TicketLines(items, userId)) == RequestedTickets(items)
    decreases |items|
  {
    if |items| > 0 {
      assert TicketLines(items, userId)[1..] == TicketLines(items[1..], userId);
      TicketLinesCopies(items[1..], userId);
    }
  }

  /** Every copy requested for a cart is the request of one of its items. */
  lemma {:induction false} TicketLinesUnits(items: seq<CartItem>, userId: string)
    ensures forall req :: req in Units(TicketLines(items, userId)) ==>
      exists j :: 0 <= j < |items| && req == LineOf(items[j], userId).request
    decreases |items|
  {
    var lines := TicketLines(items, userId);
    if |items| > 0 {
      assert lines[1..] == TicketLines(items[1..], userId);
      TicketLinesUnits(items[1..], userId);
      var head := Repeat(lines[0].request, Copies(lines[0]));
      assert Units(lines) == head + Units(TicketLines(items[1..], userId));
      forall req | req in Units(lines)
        ensures exists j :: 0 <= j < |items| && req == LineOf(items[j], userId).request
      {
        if req in head {
          assert req == LineOf(items[0], userId).request;
        } else {
          assert req in Units(TicketLines(items[1..], userId));
          var j :| 0 <= j < |items[1..]| && req == LineOf(items[1..][j], userId).request;
          assert req == LineOf(items[j + 1], userId).request;
        }
      }
    }
  }

  /**
   * When the database does not fail, the checkout writes one pending
   * ticket per requested copy, each owned by the buyer and carrying the
   * type, event and unit price of one of the cart's items.
   */
  lemma CheckoutIssuesWholeCart(items: seq<CartItem>, userId: string, env: IssueEnv, id: RowId)
    requires NoFaults(env)
    ensures var iss := IssueLines(TicketLines(items, userId), env, 0, id);
      && iss.failed.None?
      && |InsertedRows(iss.outs)| == RequestedTickets(items)
      && forall t :: t in InsertedRows(iss.outs) ==>
           && t.status == Pending && t.purchaser_id == Some(userId) && t.scanned_at.None?
           && exists j :: 0 <= j < |items| && t.ticket_type_id == items[j].ticketTypeId
                && t.event_id == items[j].eventId && t.price_paid == items[j].price
  {
    var lines := TicketLines(items, userId);
    var rows := InsertedRows(IssueLines(lines, env, 0, id).outs);
    IssuedTicketsMatchLines(lines, env, id);
    TicketLinesCopies(items, userId);
    TicketLinesUnits(items, userId);
    forall t | t in rows
      ensures && t.status == Pending && t.purchaser_id == Some(userId) && t.scanned_at.None?
              && exists j :: 0 <= j < |items| && t.ticket_type_id == items[j].ticketTypeId
                   && t.event_id == items[j].eventId && t.price_paid == items[j].price
    {
      var k :| 0 <= k < |rows| && rows[k] == t;
      assert Units(lines)[k] in Units(lines);
      var j :| 0 <= j < |items| && Units(lines)[k] == LineOf(items[j], userId).request;
    }
  }

  // ---------------------------------------------------------------------
  // The payment gateway and the order e-mail

  /** The `data` of a gateway reply. */
  datatype PaymentData = PaymentData(id: string, qr_code: string, paymentUrl: string)

  /**
   * What `fetch('/api/payment')` and `response.json()` yield: a thrown
   * error, or the response's `ok` flag with the body's `data` and `error`
   * (`""` standing for a missing error).
   */
  datatype GatewayReply =
    | Unreachable(message: string)
    | Reply(ok: bool, data: Option<PaymentData>, error: string)

  /** The body of the `/api/payment` request; `payer` is flattened into two fields. */
  datatype PaymentRequest = PaymentRequest(
    totalAmount: int,
    userId: string,
    eventId: string,
    purchaseId: RowId,
    payerEmail: Option<string>,
    payerName: Option<string>)

  /**
   * The request for one purchase: the payer is named by
   * `user_metadata.full_name || email`.
   */
  function PaymentRequestOf(u: AuthUser, purchaseId: RowId, eventId: string, totalAmount: int): (q: PaymentRequest)
    ensures q.totalAmount == totalAmount && q.userId == u.id && q.eventId == eventId && q.purchaseId == purchaseId
    ensures q.payerEmail == u.email
    ensures Truthy(u.user_metadata.full_name) ==> q.payerName == u.user_metadata.full_name
    ensures !Truthy(u.user_metadata.full_name) ==> q.payerName == u.email
    ensures Truthy(u.email) ==> Truthy(q.payerName)
  {
    PaymentRequest(totalAmount, u.id, eventId, purchaseId, u.email, Or(u.user_metadata.full_name, u.email))
  }

  /** `response.ok && result.data?.paymentUrl`. */
  predicate PaymentLinkIssued(reply: GatewayReply) {
    reply.Reply? && reply.ok && reply.data.Some? && reply.data.value.paymentUrl != ""
  }

  /**
   * The message that reaches the `catch` when no payment link came back: a
   * rejected `fetch` or `json()` carries its own message there, while an
   * answer without a link throws its `error` or 'Failed to create payment'.
   */
  function GatewayFailure(reply: GatewayReply): (m: string)
    ensures reply.Reply? ==> m != ""
    ensures reply.Reply? && reply.error != "" ==> m == reply.error
    ensures reply.Unreachable? ==> m == reply.message
  {
    match reply
    case Unreachable(message) => message
    case Reply(_, _, error) => if error == "" then "Failed to create payment" else error
  }

  /** One line of the order e-mail. */
  datatype EmailItem = EmailItem(name: string, size: string, quantity: int, price: int)

  /** The e-mail lines: one per cart item, priced at the line's total. */
  function EmailItems(items: seq<CartItem>): (r: seq<EmailItem>)
    ensures |r| == |items|
    ensures forall k :: 0 <= k < |items| ==>
      && r[k].name == items[k].ticketTypeName && r[k].size == items[k].eventTitle
      && r[k].quantity == items[k].quantity && r[k].price == items[k].price * items[k].quantity
  {
    seq(|items|, k requires 0 <= k < |items| =>
      EmailItem(items[k].ticketTypeName, items[k].eventTitle, items[k].quantity, items[k].price * items[k].quantity))
  }

  /** The body of the `new_order` e-mail request. */
  datatype OrderEmail = OrderEmail(
    email: Option<string>,
    orderNumber: string,
    qrCode: string,
    totalAmount: int,
    items: seq<EmailItem>,
    firstName: string)

  function OrderEmailOf(user: AuthUser, data: PaymentData, totalAmount: int, items: seq<CartItem>): (e: OrderEmail)
    ensures e.orderNumber == data.id && e.qrCode == data.qr_code && e.totalAmount == totalAmount
    ensures e.items == EmailItems(items) && e.email == user.email
    ensures user.user_metadata.first_name.Some? ==> e.firstName == user.user_metadata.first_name.value
    ensures user.user_metadata.first_name.None? ==> e.firstName == ""
  {
    OrderEmail(user.email, data.id, data.qr_code, totalAmount, EmailItems(items),
               user.user_metadata.first_name.GetOr(""))
  }

  // ---------------------------------------------------------------------
  // Checkout

  /** What the shopper is told, and where the page goes. */
  datatype Checkout =
    | SignInFirst               // toast, then `router.push('/auth')`
    | EmptyCart
    | CardOnly                  // method reset to card
    | CheckoutFailed(description: string)
    | OrderRejected             // the gateway's body carried an error
    | AwaitingPayment(url: string)

  /** `error.message || 'Please try again'`. */
  function Description(message: string): (d: string)
    ensures d != ""
    ensures message != "" ==> d == message
    ensures message == "" ==> d == "Please try again"
  {
    if message == "" then "Please try again" else message
  }

  /** The checks made before anything is written; `None` lets the checkout go on. */
  function Gate(user: Option<AuthUser>, items: seq<CartItem>, pm: PaymentMethod): (g: Option<Checkout>)
    ensures g.None? <==> user.Some? && |items| > 0 && pm == Card
  {
    if user.None? then Some(SignInFirst)
    else if |items| == 0 then Some(EmptyCart)
    else if pm != Card then Some(CardOnly)
    else None
  }

  /** Past the gate the method is card, so the "mark paid immediately" branch never runs. */
  lemma PastGateMethodIsCard(user: Option<AuthUser>, items: seq<CartItem>, pm: PaymentMethod)
    requires Gate(user, items, pm).None?
    ensures pm == Card
  {
  }

  class CartPage {
    const db: Database
    /** The cart context's items and payment method. */
    var items: seq<CartItem>
    var paymentMethod: PaymentMethod
    var isProcessing: bool
    var showPaymentUrl: bool
    var paymentUrl: string
    /** `localStorage` entries `pendingPurchaseId` and `cartItems`. */
    var storedPurchaseId: Option<RowId>
    var storedCart: Option<seq<CartItem>>

    constructor(db: Database, items: seq<CartItem>, paymentMethod: PaymentMethod)
      ensures this.db == db && this.items == items && this.paymentMethod == paymentMethod
      ensures !isProcessing && !showPaymentUrl && paymentUrl == ""
      ensures storedPurchaseId.None? && storedCart.None?
    {
      this.db := db;
      this.items := items;
      this.paymentMethod := paymentMethod;
      isProcessing := false;
      showPaymentUrl := false;
      paymentUrl := "";
      storedPurchaseId := None;
      storedCart := None;
    }

    /** The effect: any method other than card is replaced by card. */
    method EnforceCardMethod()
      modifies this
      ensures paymentMethod == Card
      ensures items == old(items) && isProcessing == old(isProcessing)
      ensures showPaymentUrl == old(showPaymentUrl) && paymentUrl == old(paymentUrl)
      ensures storedPurchaseId == old(storedPurchaseId) && storedCart == old(storedCart)
    {
      if paymentMethod != Card {
        paymentMethod := Card;
      }
    }

    /**
     * The card branch once purchase and tickets exist: `request` goes to
     * the gateway; with a payment link the order e-mail goes out; an error in the gateway's body stops there,
     * otherwise the purchase and cart are remembered and the link shown.
     */
    method RequestPayment(u: AuthUser, purchaseId: RowId, eventId: string, totalPrice: int, reply: GatewayReply)
      returns (outcome: Checkout, request: PaymentRequest, email: Option<OrderEmail>)
      modifies this
      ensures request == PaymentRequestOf(u, purchaseId, eventId, totalPrice)
      ensures items == old(items) && paymentMethod == old(paymentMethod) && isProcessing == old(isProcessing)
      ensures !PaymentLinkIssued(reply) ==>
        && outcome == CheckoutFailed(Description(GatewayFailure(reply))) && email.None?
        && paymentUrl == old(paymentUrl) && showPaymentUrl == old(showPaymentUrl)
        && storedPurchaseId == old(storedPurchaseId) && storedCart == old(storedCart)
      ensures PaymentLinkIssued(reply) ==>
        && email == Some(OrderEmailOf(u, reply.data.value, totalPrice, items))
        && (reply.error != "" ==>
              && outcome == OrderRejected
              && paymentUrl == old(paymentUrl) && showPaymentUrl == old(showPaymentUrl)
              && storedPurchaseId == old(storedPurchaseId) && storedCart == old(storedCart))
        && (reply.error == "" ==>
              && outcome == AwaitingPayment(reply.data.value.paymentUrl)
              && paymentUrl == reply.data.value.paymentUrl && showPaymentUrl
              && storedPurchaseId == Some(purchaseId) && storedCart == Some(items))
    {
      request := PaymentRequestOf(u, purchaseId, eventId, totalPrice);
      if !PaymentLinkIssued(reply) {
        return CheckoutFailed(Description(GatewayFailure(reply))), request, None;
      }
      var data := reply.data.value;
      email := Some(OrderEmailOf(u, data, totalPrice, items));
      if reply.error != "" {
        return OrderRejected, request, email;
      }
      storedPurchaseId := Some(purchaseId);
      storedCart := Some(items);
      paymentUrl := data.paymentUrl;
      showPaymentUrl := true;
      outcome := AwaitingPayment(data.paymentUrl);
    }

    /**
     * The `try` block of the checkout, reached with a signed-in user, a
     * non-empty cart and the method `pm` (card, past the checks): the
     * pending purchase, then the tickets, then the gateway. The purchase
     * is written before the tickets and is never rolled back.
     */
    method PlaceOrder(u: AuthUser, pm: PaymentMethod, totalPrice: int, now: nat,
                      purchaseFault: Option<ErrorObject>, env: IssueEnv, reply: GatewayReply)
      returns (outcome: Checkout, request: Option<PaymentRequest>, email: Option<OrderEmail>)
      requires db.Valid() && |items| > 0 && pm == Card
      modifies this, db
      ensures db.Valid() && items == old(items) && paymentMethod == old(paymentMethod) && !isProcessing
      ensures db.events == old(db.events) && db.ticketTypes == old(db.ticketTypes)
      ensures !outcome.AwaitingPayment? ==>
        && paymentUrl == old(paymentUrl) && showPaymentUrl == old(showPaymentUrl)
        && storedPurchaseId == old(storedPurchaseId) && storedCart == old(storedCart)
      ensures purchaseFault.Some? ==>
        && outcome == CheckoutFailed(Description("Failed to create purchase: " + MessageText(purchaseFault.value)))
        && request.None? && email.None?
        && db.purchases == old(db.purchases) && db.tickets == old(db.tickets) && db.nextId == old(db.nextId)
      ensures purchaseFault.None? ==>
        var p := Purchase(old(db.nextId), u.id, items[0].eventId, totalPrice, Pending, now, now, Card);
        var iss := IssueLines(TicketLines(items, u.id), env, 0, old(db.nextId) + 1);
        && db.purchases == old(db.purchases) + [p]
        && db.tickets == old(db.tickets) + InsertedRows(iss.outs)
        && db.nextId == old(db.nextId) + 1 + |InsertedRows(iss.outs)|
        && (iss.failed.Some? ==> outcome == CheckoutFailed(Description(iss.failed.value)) && request.None? && email.None?)
        && (iss.failed.None? ==> request == Some(PaymentRequestOf(u, p.id, p.event_id, p.total_price)))
        && (iss.failed.None? && !PaymentLinkIssued(reply) ==>
              outcome == CheckoutFailed(Description(GatewayFailure(reply))) && email.None?)
        && (iss.failed.None? && PaymentLinkIssued(reply) ==>
              && email == Some(OrderEmailOf(u, reply.data.value, totalPrice, items))
              && (reply.error != "" ==> outcome == OrderRejected)
              && (reply.error == "" ==>
                    && outcome == AwaitingPayment(reply.data.value.paymentUrl)
                    && paymentUrl == reply.data.value.paymentUrl && showPaymentUrl
                    && storedPurchaseId == Some(p.id) && storedCart == Some(items)))
    {
      request, email := None, None;
      isProcessing := true;
      var purchase := db.CreatePurchase(u.id, items[0].eventId, totalPrice, pm, now, purchaseFault);
      if purchase.Err? {
        outcome := CheckoutFailed(Description(purchase.message));
      } else {
        ghost var iss := IssueLines(TicketLines(items, u.id), env, 0, db.nextId);
        var issued := db.CreateTicketsForPurchase(TicketLines(items, u.id), env);
        if issued.Err? {
          assert iss.failed.Some? && issued.message == iss.failed.value;
          outcome := CheckoutFailed(Description(issued.message));
        } else if pm == Card {
          var sent;
          outcome, sent, email := RequestPayment(u, purchase.value.id, items[0].eventId, totalPrice, reply);
          request := Some(sent);
        } else {
          // the "mark paid immediately" branch: `pm` is card here
          assert false;
        }
      }
      isProcessing := false;
    }

    /**
     * `handlePurchaseTickets`. `totalPrice` is the cart's `getTotalPrice()`,
     * `now` the clock at the purchase insert, `purchaseFault` its database
     * error, `env` the inputs of the ticket inserts and `reply` the
     * gateway's answer. A failed check writes nothing; past the checks the
     * purchase stays pending whatever happens next, and `isProcessing` ends
     * false.
     */
    method HandlePurchaseTickets(user: Option<AuthUser>, totalPrice: int, now: nat,
                                 purchaseFault: Option<ErrorObject>, env: IssueEnv, reply: GatewayReply)
      returns (outcome: Checkout, request: Option<PaymentRequest>, email: Option<OrderEmail>)
      requires db.Valid()
      modifies this, db
      ensures db.Valid() && items == old(items)
      ensures db.events == old(db.events) && db.ticketTypes == old(db.ticketTypes)
      ensures !outcome.AwaitingPayment? ==>
        && paymentUrl == old(paymentUrl) && showPaymentUrl == old(showPaymentUrl)
        && storedPurchaseId == old(storedPurchaseId) && storedCart == old(storedCart)
      ensures Gate(user, items, old(paymentMethod)).Some? ==>
        && outcome == Gate(user, items, old(paymentMethod)).value && request.None? && email.None?
        && paymentMethod == (if outcome == CardOnly then Card else old(paymentMethod))
        && isProcessing == old(isProcessing)
        && db.purchases == old(db.purchases) && db.tickets == old(db.tickets) && db.nextId == old(db.nextId)
      ensures Gate(user, items, old(paymentMethod)).None? ==> !isProcessing && paymentMethod == Card
      ensures Gate(user, items, old(paymentMethod)).None? && purchaseFault.Some? ==>
        && outcome == CheckoutFailed(Description("Failed to create purchase: " + MessageText(purchaseFault.value)))
        && request.None? && email.None?
        && db.purchases == old(db.purchases) && db.tickets == old(db.tickets) && db.nextId == old(db.nextId)
      ensures Gate(user, items, old(paymentMethod)).None? && purchaseFault.None? ==>
        var u := user.value;
        var p := Purchase(old(db.nextId), u.id, items[0].eventId, totalPrice, Pending, now, now, Card);
        var iss := IssueLines(TicketLines(items, u.id), env, 0, old(db.nextId) + 1);
        && db.purchases == old(db.purchases) + [p]
        && db.tickets == old(db.tickets) + InsertedRows(iss.outs)
        && db.nextId == old(db.nextId) + 1 + |InsertedRows(iss.outs)|
        && (iss.failed.Some? ==> outcome == CheckoutFailed(Description(iss.failed.value)) && request.None? && email.None?)
        && (iss.failed.None? ==> request == Some(PaymentRequestOf(u, p.id, p.event_id, p.total_price)))
        && (iss.failed.None? && !PaymentLinkIssued(reply) ==>
              outcome == CheckoutFailed(Description(GatewayFailure(reply))) && email.None?)
        && (iss.failed.None? && PaymentLinkIssued(reply) ==>
              && email == Some(OrderEmailOf(u, reply.data.value, totalPrice, items))
              && (reply.error != "" ==> outcome == OrderRejected)
              && (reply.error == "" ==>
                    && outcome == AwaitingPayment(reply.data.value.paymentUrl)
                    && paymentUrl == reply.data.value.paymentUrl && showPaymentUrl
                    && storedPurchaseId == Some(p.id) && storedCart == Some(items)))
    {
      var pm := paymentMethod;
      var gate := Gate(user, items, pm);
      if gate.Some? {
        if gate.value == CardOnly {
          paymentMethod := Card;
        }
        return gate.value, None, None;
      }
      PastGateMethodIsCard(user, items, pm);
      outcome, request, email := PlaceOrder(user.value, pm, totalPrice, now, purchaseFault, env, reply);
    }
  }
}
