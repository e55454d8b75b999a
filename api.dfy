/**
 * The rows of the ticketing database and the pure parts of the API client
 * (lib/api.ts): statuses and payment methods, the QR identifier given to
 * every ticket, the shared error handler, and the selections and orderings
 * the client asks the database for.
 *
 * Timestamps are milliseconds since the epoch (`Date.now()`); ISO-8601
 * strings written by `toISOString` order the same way. Prices are integer
 * amounts in the smallest currency unit.
 */
module Api {
  import opened Common
  import opened Sorting

  /** Row ids assigned by the database. */
  type RowId = nat

  /** The one status vocabulary shared by purchases and tickets. */
  datatype Status = Pending | Paid | Validated | Cancelled

  datatype PaymentMethod = Card | Wallet | PromoCode | Cash | BankTransfer

  function StatusName(s: Status): string {
    match s
    case Pending => "pending"
    case Paid => "paid"
    case Validated => "validated"
    case Cancelled => "cancelled"
  }

  function MethodName(m: PaymentMethod): string {
    match m
    case Card => "card"
    case Wallet => "wallet"
    case PromoCode => "promo_code"
    case Cash => "cash"
    case BankTransfer => "bank_transfer"
  }

  datatype Event = Event(id: string, title: string)

  datatype TicketType = TicketType(
    id: string,
    event_id: string,
    name: string,
    price: int,
    total_quantity: int)

  datatype Purchase = Purchase(
    id: RowId,
    user_id: string,
    event_id: string,
    total_price: int,
    status: Status,
    purchased_at: nat,
    updated_at: nat,
    payment_method: PaymentMethod)

  datatype Ticket = Ticket(
    id: RowId,
    ticket_type_id: string,
    event_id: string,
    status: Status,
    scanned_at: Option<nat>,
    qr_code: QRCode,
    purchased_at: nat,
    price_paid: int,
    purchaser_id: Option<string>,
    updated_at: Option<nat>)

  // ---------------------------------------------------------------------
  // QR identifiers: `QR-<Date.now()>-<Math.random().toString(36).substring(2, 11)>`

  predicate IsBase36Digit(c: char) {
    ('0' <= c <= '9') || ('a' <= c <= 'z')
  }

  /**
   * `Math.random().toString(36)` for a random number whose base-36
   * fraction digits are `digits`: "0" for zero, else "0." and the digits.
   */
  function RandomToString36(digits: string): string {
    if digits == "" then "0" else "0." + digits
  }

  /** `s.substring(start, end)` for `start <= end`: both ends clamped to the string. */
  function Substring(s: string, start: nat, end: nat): (r: string)
    requires start <= end
    ensures |r| <= end - start
  {
    var a := if start < |s| then start else |s|;
    var b := if end < |s| then end else |s|;
    s[a..b]
  }

  /**
   * The random part of a QR identifier: the first nine random digits (all
   * of them when there are fewer). `RandomSuffixIsSubstring` shows this is
   * `Math.random().toString(36).substring(2, 11)`.
   */
  function RandomSuffix(digits: string): (r: string)
    ensures |r| <= 9
  {
    if |digits| < 9 then digits else digits[..9]
  }

  lemma RandomSuffixIsSubstring(digits: string)
    ensures RandomSuffix(digits) == Substring(RandomToString36(digits), 2, 11)
  {
    if digits != "" {
      assert RandomToString36(digits)[2..] == digits;
    }
  }

  /**
   * A ticket's QR identifier, kept as its two parts: the `Date.now()`
   * reading and the random suffix. `QRText` is the string stored in the
   * `qr_code` column; it determines both parts (`QRTextInjective`), so two
   * identifiers are equal exactly when their strings are.
   */
  datatype QRCode = QRCode(timestamp: nat, suffix: string)

  function QRText(q: QRCode): (qr: string)
    ensures "QR-" <= qr
  {
    "QR-" + DecimalString(q.timestamp) + "-" + q.suffix
  }

  /** `generateQRCode()` at time `timestamp`, `Math.random()` having base-36 digits `digits`. */
  function GenerateQRCode(timestamp: nat, digits: string): (q: QRCode)
    ensures q.timestamp == timestamp && |q.suffix| <= 9
  {
    QRCode(timestamp, RandomSuffix(digits))
  }

  /** Reads back the timestamp and suffix of a QR identifier. */
  function ParseQRCode(qr: string): Option<QRCode> {
    if !("QR-" <= qr) then None
    else
      var rest := qr[3..];
      var i := IndexOf(rest, '-');
      if i == |rest| || i == 0 || !(forall k :: 0 <= k < i ==> IsDigit(rest[k])) then None
      else Some(QRCode(ParseDecimal(rest[..i]), rest[i + 1..]))
  }

  /** The identifier's string gives back its timestamp and its suffix. */
  lemma QRCodeRoundTrip(q: QRCode)
    ensures ParseQRCode(QRText(q)) == Some(q)
  {
    var qr := QRText(q);
    var dec := DecimalString(q.timestamp);
    var rest := qr[3..];
    assert rest == dec + "-" + q.suffix;
    assert forall k :: 0 <= k < |dec| ==> rest[k] == dec[k] && rest[k] != '-';
    assert rest[|dec|] == '-';
    assert IndexOf(rest, '-') == |dec|;
    assert rest[..|dec|] == dec;
    assert rest[|dec| + 1..] == q.suffix;
    DecimalRoundTrip(q.timestamp);
  }

  /** Two identifiers with the same string are the same identifier. */
  lemma QRTextInjective(a: QRCode, b: QRCode)
    requires QRText(a) == QRText(b)
    ensures a == b
  {
    QRCodeRoundTrip(a);
    QRCodeRoundTrip(b);
  }

  /** The suffix consists of base-36 characters when the random digits do. */
  lemma RandomSuffixIsBase36(digits: string)
    requires forall k :: 0 <= k < |digits| ==> IsBase36Digit(digits[k])
    ensures forall k :: 0 <= k < |RandomSuffix(digits)| ==> IsBase36Digit(RandomSuffix(digits)[k])
  {
  }

  // ---------------------------------------------------------------------
  // The shared error handler (`handleSupabaseError`)

  datatype Handling = Swallowed | Thrown(message: string)

  /**
   * A registered handler that claims the error makes the call return
   * normally (with no data); otherwise the error's message is thrown.
   */
  function HandleSupabaseError(handler: Option<ErrorObject -> bool>, e: ErrorObject): (h: Handling)
    ensures h.Swallowed? <==> (handler.Some? && handler.value(e))
    ensures h.Thrown? ==> h.message == MessageOf(e)
  {
    if handler.Some? && handler.value(e) then Swallowed else Thrown(MessageOf(e))
  }

  /** PostgREST's answer to `.single()` when no row matches (code PGRST116). */
  const NoRowsMessage: string := "JSON object requested, multiple (or no) rows returned"

  const NoRowsError: ErrorObject := ErrorObject(Some(NoRowsMessage), None, None, None, Some("PGRST116"))

  // ---------------------------------------------------------------------
  // Orderings used by the queries

  function ByPurchasedAtAsc(): (Ticket, Ticket) -> bool {
    (a: Ticket, b: Ticket) => a.purchased_at <= b.purchased_at
  }

  function ByPurchasedAtDesc(): (Ticket, Ticket) -> bool {
    (a: Ticket, b: Ticket) => a.purchased_at >= b.purchased_at
  }

  function PurchasesNewestFirst(): (Purchase, Purchase) -> bool {
    (a: Purchase, b: Purchase) => a.purchased_at >= b.purchased_at
  }

  lemma OrderingsArePreorders()
    ensures TotalPreorder(ByPurchasedAtAsc())
    ensures TotalPreorder(ByPurchasedAtDesc())
    ensures TotalPreorder(PurchasesNewestFirst())
  {
  }

  // ---------------------------------------------------------------------
  // Selections

  /** The ±60 000 ms window `getTicketsForPurchase` looks in. */
  const PurchaseWindowMs: nat := 60000

  predicate InPurchaseWindow(p: Purchase, t: Ticket) {
    && t.purchaser_id == Some(p.user_id)
    && t.event_id == p.event_id
    && p.purchased_at - PurchaseWindowMs <= t.purchased_at <= p.purchased_at + PurchaseWindowMs
  }

  /** The tickets `getTicketsForPurchase` attributes to a purchase, oldest first. */
  function TicketsNearPurchase(tickets: seq<Ticket>, p: Purchase): (r: seq<Ticket>)
    ensures forall t :: t in r <==> t in tickets && InPurchaseWindow(p, t)
    ensures multiset(r) <= multiset(tickets)
    ensures SortedBy(r, ByPurchasedAtAsc())
  {
    OrderingsArePreorders();
    SortedFilter(tickets, (t: Ticket) => InPurchaseWindow(p, t), ByPurchasedAtAsc())
  }

  /** The page size of `getUserTickets`: 50 normally, 20 when the database is slow. */
  function UserTicketsLimit(healthy: bool): nat {
    if healthy then 50 else 20
  }

  /** A ticket `getUserTickets` lists: bought by the user and no longer pending. */
  predicate ShownToUser(userId: string, t: Ticket) {
    t.purchaser_id == Some(userId) && t.status != Pending
  }

  /** All tickets the user may see, newest first, before the page cut. */
  function EligibleTickets(tickets: seq<Ticket>, userId: string): (r: seq<Ticket>)
    ensures forall t :: t in r <==> t in tickets && ShownToUser(userId, t)
    ensures multiset(r) <= multiset(tickets)
    ensures SortedBy(r, ByPurchasedAtDesc())
  {
    OrderingsArePreorders();
    SortedFilter(tickets, (t: Ticket) => ShownToUser(userId, t), ByPurchasedAtDesc())
  }

  /** The user's non-pending tickets, newest first, cut to `limit`. */
  function UserTicketSelection(tickets: seq<Ticket>, userId: string, limit: nat): (r: seq<Ticket>)
    ensures |r| <= limit
    ensures forall t :: t in r ==> t in tickets && ShownToUser(userId, t)
    ensures multiset(r) <= multiset(tickets)
    ensures SortedBy(r, ByPurchasedAtDesc())
  {
    var sorted := EligibleTickets(tickets, userId);
    var r := Take(sorted, limit, ByPurchasedAtDesc());
    assert forall t :: t in r ==> t in sorted;
    r
  }

  /**
   * The cut keeps the most recent tickets: an eligible ticket is left out
   * only when the page is full, and then it is no newer than any ticket on it.
   */
  lemma UserTicketSelectionKeepsNewest(tickets: seq<Ticket>, userId: string, limit: nat, t: Ticket)
    requires t in tickets && ShownToUser(userId, t)
    requires t !in UserTicketSelection(tickets, userId, limit)
    ensures |UserTicketSelection(tickets, userId, limit)| == limit
    ensures forall k :: 0 <= k < limit ==>
      t.purchased_at <= UserTicketSelection(tickets, userId, limit)[k].purchased_at
  {
    var sorted := EligibleTickets(tickets, userId);
    var r := UserTicketSelection(tickets, userId, limit);
    var n := if |sorted| < limit then |sorted| else limit;
    assert r == sorted[..n];
    assert t in sorted;
    var j :| 0 <= j < |sorted| && sorted[j] == t;
    forall k | 0 <= k < n
      ensures t.purchased_at <= r[k].purchased_at
    {
      assert ByPurchasedAtDesc()(sorted[k], sorted[j]);
    }
  }

  /** The user's purchases, newest first (`getUserPurchases`). */
  function UserPurchaseSelection(purchases: seq<Purchase>, userId: string): (r: seq<Purchase>)
    ensures forall q :: q in r <==> q in purchases && q.user_id == userId
    ensures multiset(r) <= multiset(purchases)
    ensures SortedBy(r, PurchasesNewestFirst())
  {
    OrderingsArePreorders();
    SortedFilter(purchases, (q: Purchase) => q.user_id == userId, PurchasesNewestFirst())
  }

  // ---------------------------------------------------------------------
  // Ticket counts per ticket type (`getEvent`)

  /** The number of rows in `rows` whose ticket type is `typeId`. */
  function CountOfType(rows: seq<Ticket>, typeId: string): (n: nat)
    ensures n <= |rows|
  {
    if |rows| == 0 then 0
    else CountOfType(rows[..|rows| - 1], typeId) + (if rows[|rows| - 1].ticket_type_id == typeId then 1 else 0)
  }

  lemma {:induction false} CountOfTypeAppend(a: seq<Ticket>, b: seq<Ticket>, typeId: string)
    ensures CountOfType(a + b, typeId) == CountOfType(a, typeId) + CountOfType(b, typeId)
    decreases |b|
  {
    if |b| == 0 {
      assert a + b == a;
    } else {
      assert (a + b)[..|a + b| - 1] == a + b[..|b| - 1];
      CountOfTypeAppend(a, b[..|b| - 1], typeId);
    }
  }

  /** A ticket type as `getEvent` reports it, with its calculated fields. */
  datatype TicketTypeView = TicketTypeView(
    ticketType: TicketType,
    quantity_sold: nat,
    quantity_available: int)

  datatype EventView = EventView(event: Event, ticket_types: seq<TicketTypeView>)
}
