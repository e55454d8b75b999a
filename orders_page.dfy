/**
 * The orders page (app/orders/page.tsx): how a purchase is shown (status
 * badge, payment-method label, which buttons appear and when they are
 * disabled), completing the payment of a pending purchase (a payment link
 * from the gateway and the order e-mail built from the purchase's
 * tickets) and the two-step cancellation behind a confirmation dialog.
 */
module OrdersPage {
  import opened Common
  import opened Api
  import opened AuthContext
  import opened Store
  import opened CartPage

  // ---------------------------------------------------------------------
  // Display rules

  /** `getPaymentMethodLabel`: defined for every string, card being the default. */
  function PaymentMethodLabel(name: string): (text: string)
    ensures text != ""
  {
    match name
    case "card" => "Credit/Debit Card"
    case "wallet" => "Digital Wallet"
    case "promo_code" => "Promo Code"
    case "cash" => "Cash"
    case "bank_transfer" => "Bank Transfer"
    case _ => "Credit/Debit Card"
  }

  /**
   * An unknown method reads as a card payment, and the five methods a
   * purchase can carry read as five different labels.
   */
  lemma PaymentMethodLabels(name: string, m: PaymentMethod, n: PaymentMethod)
    ensures name !in {"card", "wallet", "promo_code", "cash", "bank_transfer"} ==>
      PaymentMethodLabel(name) == "Credit/Debit Card"
    ensures PaymentMethodLabel(MethodName(m)) == PaymentMethodLabel(MethodName(n)) <==> m == n
  {
  }

  /** The badge `getStatusBadge` draws; an unknown status shows itself. */
  datatype Badge = PaidBadge | PendingBadge | ValidatedBadge | CancelledBadge | PlainBadge(text: string)

  function StatusBadge(status: string): (b: Badge)
    ensures b.PlainBadge? <==> status !in {"paid", "pending", "validated", "cancelled"}
    ensures b.PlainBadge? ==> b.text == status
  {
    match status
    case "paid" => PaidBadge
    case "pending" => PendingBadge
    case "validated" => ValidatedBadge
    case "cancelled" => CancelledBadge
    case _ => PlainBadge(status)
  }

  /** Every status a purchase can have gets its own coloured badge. */
  lemma StatusBadgesDistinct(s: Status, t: Status)
    ensures !StatusBadge(StatusName(s)).PlainBadge?
    ensures StatusBadge(StatusName(s)) == StatusBadge(StatusName(t)) <==> s == t
  {
  }

  /** The pay/view button is shown for every purchase that is not cancelled. */
  predicate ShowsPayButton(p: Purchase) {
    p.status != Cancelled
  }

  /** The Cancel button is shown only for pending purchases. */
  predicate ShowsCancelButton(p: Purchase) {
    p.status == Pending
  }

  /**
   * A purchase shows a Cancel button only alongside a pay button; a
   * cancelled one shows neither, a paid or validated one only the view
   * button.
   */
  lemma ButtonRules(p: Purchase)
    ensures ShowsCancelButton(p) ==> ShowsPayButton(p)
    ensures p.status == Cancelled <==> !ShowsPayButton(p) && !ShowsCancelButton(p)
    ensures p.status in {Paid, Validated} <==> ShowsPayButton(p) && !ShowsCancelButton(p)
  {
  }

  // ---------------------------------------------------------------------
  // The e-mail sent when a payment link is requested

  /** A ticket with the names its embeddings carry (`ticket_types.name`, `events.title`). */
  datatype TicketDetails = TicketDetails(ticket: Ticket, typeName: Option<string>, eventTitle: Option<string>)

  function EmailItemOf(d: TicketDetails): (item: EmailItem)
    ensures item.quantity == 1 && item.price == d.ticket.price_paid
    ensures item.name == OrElse(d.typeName, "Ticket") && item.size == OrElse(d.eventTitle, "Event")
  {
    EmailItem(OrElse(d.typeName, "Ticket"), OrElse(d.eventTitle, "Event"), 1, d.ticket.price_paid)
  }

  /** One line per ticket; a purchase without tickets gets one line at its total. */
  function PaymentEmailItems(details: seq<TicketDetails>, totalPrice: int): (items: seq<EmailItem>)
    ensures |details| == 0 ==> items == [EmailItem("Event Ticket", "Event", 1, totalPrice)]
    ensures |details| > 0 ==> |items| == |details| && forall k :: 0 <= k < |details| ==> items[k] == EmailItemOf(details[k])
  {
    if |details| == 0 then [EmailItem("Event Ticket", "Event", 1, totalPrice)]
    else seq(|details|, k requires 0 <= k < |details| => EmailItemOf(details[k]))
  }

  function ItemQuantity(items: seq<EmailItem>): int {
    if |items| == 0 then 0 else items[0].quantity + ItemQuantity(items[1..])
  }

  function ItemPrice(items: seq<EmailItem>): int {
    if |items| == 0 then 0 else items[0].price + ItemPrice(items[1..])
  }

  function PricePaid(details: seq<TicketDetails>): int {
    if |details| == 0 then 0 else details[0].ticket.price_paid + PricePaid(details[1..])
  }

  lemma {:induction false} TicketItemsSum(details: seq<TicketDetails>)
    ensures var items := seq(|details|, k requires 0 <= k < |details| => EmailItemOf(details[k]));
      ItemQuantity(items) == |details| && ItemPrice(items) == PricePaid(details)
    decreases |details|
  {
    var items := seq(|details|, k requires 0 <= k < |details| => EmailItemOf(details[k]));
    if |details| > 0 {
      var rest := seq(|details[1..]|, k requires 0 <= k < |details[1..]| => EmailItemOf(details[1..][k]));
      assert items[1..] == rest;
      TicketItemsSum(details[1..]);
    }
  }

  /**
   * The e-mail counts one unit per ticket (one in all without tickets),
   * and its prices add up to what the tickets cost, or to the purchase
   * total without tickets.
   */
  lemma PaymentEmailTotals(details: seq<TicketDetails>, totalPrice: int)
    ensures ItemQuantity(PaymentEmailItems(details, totalPrice)) == if |details| == 0 then 1 else |details|
    ensures ItemPrice(PaymentEmailItems(details, totalPrice)) == if |details| == 0 then totalPrice else PricePaid(details)
  {
    var items := PaymentEmailItems(details, totalPrice);
    if |details| == 0 {
      assert items[1..] == [];
    } else {
      TicketItemsSum(details);
    }
  }

  /** `tickets[0]?.qr_code || ''`. */
  function FirstQRCode(details: seq<TicketDetails>): (qr: string)
    ensures |details| == 0 <==> qr == ""
    ensures |details| > 0 ==> ParseQRCode(qr) == Some(details[0].ticket.qr_code)
  {
    if |details| == 0 then ""
    else
      QRCodeRoundTrip(details[0].ticket.qr_code);
      QRText(details[0].ticket.qr_code)
  }

  /** `first_name || full_name || e-mail local part || ""`. */
  function FirstName(u: AuthUser): (name: string)
    ensures Truthy(u.user_metadata.first_name) ==> name == u.user_metadata.first_name.value
    ensures !Truthy(u.user_metadata.first_name) && Truthy(u.user_metadata.full_name) ==>
      name == u.user_metadata.full_name.value
    ensures !Truthy(u.user_metadata.first_name) && !Truthy(u.user_metadata.full_name) ==>
      name == (if Truthy(EmailLocalPart(u)) then EmailLocalPart(u).value else "")
    ensures name == "" ==> !Truthy(u.user_metadata.first_name) && !Truthy(u.user_metadata.full_name)
  {
    OrElse(Or(Or(u.user_metadata.first_name, u.user_metadata.full_name), EmailLocalPart(u)), "")
  }

  /** The body of the e-mail sent for an existing purchase. */
  datatype PaymentEmail = PaymentEmail(
    email: Option<string>,
    orderNumber: RowId,
    qrCode: string,
    totalAmount: int,
    items: seq<EmailItem>,
    firstName: string)

  function PaymentEmailOf(u: AuthUser, p: Purchase, details: seq<TicketDetails>): (e: PaymentEmail)
    ensures e.orderNumber == p.id && e.totalAmount == p.total_price && e.email == u.email
    ensures e.items == PaymentEmailItems(details, p.total_price)
    ensures e.qrCode == FirstQRCode(details) && e.firstName == FirstName(u)
  {
    PaymentEmail(u.email, p.id, FirstQRCode(details), p.total_price, PaymentEmailItems(details, p.total_price), FirstName(u))
  }

  /** The name of a ticket type by id, as the `ticket_types` embedding gives it. */
  function TypeName(types: seq<TicketType>, id: string): (name: Option<string>)
    ensures name.Some? ==> exists tt :: tt in types && tt.id == id && tt.name == name.value
    ensures name.None? ==> forall tt :: tt in types ==> tt.id != id
  {
    if |types| == 0 then None
    else if types[0].id == id then Some(types[0].name)
    else TypeName(types[1..], id)
  }

  function EventTitle(events: seq<Event>, id: string): (title: Option<string>)
    ensures title.Some? ==> exists e :: e in events && e.id == id && e.title == title.value
    ensures title.None? ==> forall e :: e in events ==> e.id != id
  {
    if |events| == 0 then None
    else if events[0].id == id then Some(events[0].title)
    else EventTitle(events[1..], id)
  }

  // ---------------------------------------------------------------------
  // Page state

  datatype PaymentOutcome =
    | SignInToPay
    | PaymentLink(url: string)
    | PaymentFailed(description: string)

  datatype ViewOutcome = ToTickets | Paying(outcome: PaymentOutcome)

  datatype CancelOutcome = NotCancellable | DialogOpened | OrderCancelled | CancelFailed(description: string) | NothingToCancel

  class OrdersPage {
    const db: Database
    var processingPurchaseId: Option<RowId>
    var cancellingPurchaseId: Option<RowId>
    var showCancelDialog: bool
    var purchaseToCancel: Option<Purchase>
    var showPaymentUrl: bool
    var paymentUrl: string
    /** `localStorage` entry `pendingPurchaseId`. */
    var storedPurchaseId: Option<RowId>

    constructor(db: Database)
      ensures this.db == db
      ensures processingPurchaseId.None? && cancellingPurchaseId.None? && purchaseToCancel.None?
      ensures !showCancelDialog && !showPaymentUrl && paymentUrl == "" && storedPurchaseId.None?
    {
      this.db := db;
      processingPurchaseId := None;
      cancellingPurchaseId := None;
      showCancelDialog := false;
      purchaseToCancel := None;
      showPaymentUrl := false;
      paymentUrl := "";
      storedPurchaseId := None;
    }

    /** The purchase's tickets with their embedded names. */
    function Details(tickets: seq<Ticket>): (r: seq<TicketDetails>)
      reads db
      ensures |r| == |tickets|
      ensures forall k :: 0 <= k < |tickets| ==> r[k].ticket == tickets[k]
    {
      var types, events := db.ticketTypes, db.events;
      seq(|tickets|, k requires 0 <= k < |tickets| =>
        TicketDetails(tickets[k], TypeName(types, tickets[k].ticket_type_id), EventTitle(events, tickets[k].event_id)))
    }

    /**
     * The e-mail sent once the gateway has answered: it is built from the
     * tickets `getTicketsForPurchase` finds (none when that lookup fails).
     */
    function OrderEmail(p: Purchase, user: AuthUser, reply: GatewayReply,
                        getFault: Option<ErrorObject>, queryFault: Option<ErrorObject>): (email: Option<PaymentEmail>)
      requires db.Valid()
      reads db
      ensures email.Some? <==> reply.Reply?
      ensures email.Some? ==> email.value.orderNumber == p.id && email.value.totalAmount == p.total_price
      ensures email.Some? && (db.GetPurchase(p.id, getFault).Err? || queryFault.Some?) ==>
        email.value.items == [EmailItem("Event Ticket", "Event", 1, p.total_price)] && email.value.qrCode == ""
      ensures email.Some? ==> forall item :: item in email.value.items ==> item.quantity == 1
    {
      if reply.Unreachable? then None
      else
        var details := Details(db.GetTicketsForPurchase(p.id, getFault, queryFault));
        assert forall item :: item in PaymentEmailItems(details, p.total_price) ==> item.quantity == 1;
        Some(PaymentEmailOf(user, p, details))
    }

    /**
     * What follows the e-mail: a payment link is remembered and shown (the
     * step `setTimeout` runs 500 ms later), anything else is reported; the
     * processing marker is cleared either way.
     */
    method ShowPaymentResult(p: Purchase, reply: GatewayReply) returns (outcome: PaymentOutcome)
      modifies this
      ensures cancellingPurchaseId == old(cancellingPurchaseId) && purchaseToCancel == old(purchaseToCancel)
      ensures showCancelDialog == old(showCancelDialog) && processingPurchaseId.None?
      ensures PaymentLinkIssued(reply) ==>
        && outcome == PaymentLink(reply.data.value.paymentUrl)
        && paymentUrl == reply.data.value.paymentUrl && showPaymentUrl && storedPurchaseId == Some(p.id)
      ensures !PaymentLinkIssued(reply) ==>
        && outcome == PaymentFailed(Description(GatewayFailure(reply)))
        && showPaymentUrl == old(showPaymentUrl) && paymentUrl == old(paymentUrl)
        && storedPurchaseId == old(storedPurchaseId)
    {
      if PaymentLinkIssued(reply) {
        storedPurchaseId := Some(p.id);
        paymentUrl := reply.data.value.paymentUrl;
        showPaymentUrl := true;
        outcome := PaymentLink(reply.data.value.paymentUrl);
      } else {
        outcome := PaymentFailed(Description(GatewayFailure(reply)));
      }
      processingPurchaseId := None;
    }

    /**
     * `handleCompletePayment`: sends `request` to the gateway. A reachable
     * gateway is always followed by the order e-mail (its own failure
     * ignored), built from the tickets `getTicketsForPurchase` finds; only
     * a reply with a payment link shows it. The processing marker is cleared in every case (after the link's
     * 500 ms delay when there is one).
     */
    method HandleCompletePayment(p: Purchase, user: Option<AuthUser>, reply: GatewayReply,
                                 getFault: Option<ErrorObject>, queryFault: Option<ErrorObject>)
      returns (outcome: PaymentOutcome, request: Option<PaymentRequest>, email: Option<PaymentEmail>)
      requires db.Valid()
      modifies this
      ensures cancellingPurchaseId == old(cancellingPurchaseId) && purchaseToCancel == old(purchaseToCancel)
      ensures showCancelDialog == old(showCancelDialog)
      ensures user.None? ==>
        && outcome == SignInToPay && request.None? && email.None?
        && processingPurchaseId == old(processingPurchaseId)
        && showPaymentUrl == old(showPaymentUrl) && paymentUrl == old(paymentUrl)
        && storedPurchaseId == old(storedPurchaseId)
      ensures user.Some? ==> processingPurchaseId.None?
      ensures user.Some? ==> request == Some(PaymentRequestOf(user.value, p.id, p.event_id, p.total_price))
      ensures user.Some? ==> email == OrderEmail(p, user.value, reply, getFault, queryFault)
      ensures user.Some? && PaymentLinkIssued(reply) ==>
        && outcome == PaymentLink(reply.data.value.paymentUrl)
        && paymentUrl == reply.data.value.paymentUrl && showPaymentUrl && storedPurchaseId == Some(p.id)
      ensures user.Some? && !PaymentLinkIssued(reply) ==>
        && outcome == PaymentFailed(Description(GatewayFailure(reply)))
        && showPaymentUrl == old(showPaymentUrl) && paymentUrl == old(paymentUrl)
        && storedPurchaseId == old(storedPurchaseId)
    {
      if user.None? {
        outcome, request, email := SignInToPay, None, None;
      } else {
        processingPurchaseId := Some(p.id);
        request := Some(PaymentRequestOf(user.value, p.id, p.event_id, p.total_price));
        email := OrderEmail(p, user.value, reply, getFault, queryFault);
        outcome := ShowPaymentResult(p, reply);
      }
    }

    /**
     * `handleViewPurchase`: pending purchases go to payment, exactly as
     * `handleCompletePayment` does; the others go to `/tickets`.
     */
    method HandleViewPurchase(p: Purchase, user: Option<AuthUser>, reply: GatewayReply,
                              getFault: Option<ErrorObject>, queryFault: Option<ErrorObject>)
      returns (outcome: ViewOutcome, request: Option<PaymentRequest>, email: Option<PaymentEmail>)
      requires db.Valid()
      modifies this
      ensures cancellingPurchaseId == old(cancellingPurchaseId) && purchaseToCancel == old(purchaseToCancel)
      ensures showCancelDialog == old(showCancelDialog)
      ensures p.status != Pending || user.None? ==>
        && processingPurchaseId == old(processingPurchaseId)
        && showPaymentUrl == old(showPaymentUrl) && paymentUrl == old(paymentUrl)
        && storedPurchaseId == old(storedPurchaseId)
        && request.None? && email.None?
      ensures p.status != Pending ==> outcome == ToTickets
      ensures p.status == Pending && user.None? ==> outcome == Paying(SignInToPay)
      ensures p.status == Pending && user.Some? ==>
        && processingPurchaseId.None?
        && request == Some(PaymentRequestOf(user.value, p.id, p.event_id, p.total_price))
        && email == OrderEmail(p, user.value, reply, getFault, queryFault)
      ensures p.status == Pending && user.Some? && PaymentLinkIssued(reply) ==>
        && outcome == Paying(PaymentLink(reply.data.value.paymentUrl))
        && paymentUrl == reply.data.value.paymentUrl && showPaymentUrl && storedPurchaseId == Some(p.id)
      ensures p.status == Pending && user.Some? && !PaymentLinkIssued(reply) ==>
        && outcome == Paying(PaymentFailed(Description(GatewayFailure(reply))))
        && showPaymentUrl == old(showPaymentUrl) && paymentUrl == old(paymentUrl)
        && storedPurchaseId == old(storedPurchaseId)
    {
      if p.status == Pending {
        var paid;
        paid, request, email := HandleCompletePayment(p, user, reply, getFault, queryFault);
        outcome := Paying(paid);
      } else {
        outcome, request, email := ToTickets, None, None;
      }
    }

    /** `handleCancelOrder`: only a pending purchase opens the confirmation dialog. */
    method HandleCancelOrder(p: Purchase) returns (outcome: CancelOutcome)
      modifies this
      ensures processingPurchaseId == old(processingPurchaseId) && cancellingPurchaseId == old(cancellingPurchaseId)
      ensures showPaymentUrl == old(showPaymentUrl) && paymentUrl == old(paymentUrl)
      ensures storedPurchaseId == old(storedPurchaseId)
      ensures p.status != Pending ==>
        outcome == NotCancellable && purchaseToCancel == old(purchaseToCancel) && showCancelDialog == old(showCancelDialog)
      ensures p.status == Pending ==> outcome == DialogOpened && purchaseToCancel == Some(p) && showCancelDialog
    {
      if p.status != Pending {
        return NotCancellable;
      }
      purchaseToCancel := Some(p);
      showCancelDialog := true;
      outcome := DialogOpened;
    }

    /**
     * `confirmCancelOrder`: cancels the purchase the dialog was opened for
     * (`cancelPurchase` decides again from the stored row), reports the
     * result, and always ends with no target and nothing being cancelled.
     */
    method ConfirmCancelOrder(now: nat, getFault: Option<ErrorObject>, updateFault: Option<ErrorObject>,
                              ticketsFault: Option<ErrorObject>) returns (outcome: CancelOutcome)
      requires db.Valid()
      modifies this, db
      ensures db.Valid()
      ensures db.events == old(db.events) && db.ticketTypes == old(db.ticketTypes) && db.nextId == old(db.nextId)
      ensures processingPurchaseId == old(processingPurchaseId)
      ensures showPaymentUrl == old(showPaymentUrl) && paymentUrl == old(paymentUrl)
      ensures storedPurchaseId == old(storedPurchaseId)
      ensures old(purchaseToCancel).None? ==>
        && outcome == NothingToCancel && purchaseToCancel.None?
        && cancellingPurchaseId == old(cancellingPurchaseId) && showCancelDialog == old(showCancelDialog)
        && db.purchases == old(db.purchases) && db.tickets == old(db.tickets)
      ensures old(purchaseToCancel).Some? ==>
        && purchaseToCancel.None? && cancellingPurchaseId.None? && !showCancelDialog
        && var g := old(db.GetPurchase(purchaseToCancel.value.id, getFault));
           && (g.Ok? && g.value.status == Pending && updateFault.None? <==> outcome == OrderCancelled)
           && (g.Ok? && g.value.status == Pending && updateFault.None? ==>
                 && db.purchases == old(db.purchases)[PurchaseIndex(old(db.purchases), g.value.id) := WithPurchaseStatus(g.value, Cancelled, now)]
                 && db.tickets == (if ticketsFault.None?
                                   then CancelPendingTickets(old(db.tickets), g.value.user_id, g.value.event_id, now)
                                   else old(db.tickets)))
           && (outcome != OrderCancelled ==> outcome == CancelFailed(CancelResult(g, updateFault, now).message))
           && (outcome != OrderCancelled ==>
                 && outcome.CancelFailed? && db.purchases == old(db.purchases) && db.tickets == old(db.tickets))
    {
      if purchaseToCancel.None? {
        return NothingToCancel;
      }
      var id := purchaseToCancel.value.id;
      cancellingPurchaseId := Some(id);
      showCancelDialog := false;
      var r := db.CancelPurchase(id, now, getFault, updateFault, ticketsFault);
      if r.Ok? {
        outcome := OrderCancelled;
      } else {
        outcome := CancelFailed(Description(r.message));
      }
      cancellingPurchaseId := None;
      purchaseToCancel := None;
    }
  }
}
