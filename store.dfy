/**
 * The database tables the API client writes to (events, ticket types,
 * purchases, tickets), held in memory, and the client's store operations
 * as methods over them (lib/api.ts).
 *
 * Every operation takes the database's possible failure as a parameter:
 * `Some(e)` means the query came back with error `e`, `None` that it
 * succeeded. The clock, the random QR suffix and the registered auth
 * error handler are parameters too.
 */
module Store {
  import opened Common
  import opened Api
  import opened Sorting

  // ---------------------------------------------------------------------
  // Lookups and row updates used by the specifications

  /** The index of the first purchase with id `id`, or `|ps|` if there is none. */
  function PurchaseIndex(ps: seq<Purchase>, id: RowId): (i: nat)
    ensures i <= |ps|
    ensures i < |ps| ==> ps[i].id == id
    ensures forall k :: 0 <= k < i ==> ps[k].id != id
  {
    if |ps| == 0 then 0
    else if ps[0].id == id then 0
    else 1 + PurchaseIndex(ps[1..], id)
  }

  function EventIndex(es: seq<Event>, id: string): (i: nat)
    ensures i <= |es|
    ensures i < |es| ==> es[i].id == id
    ensures forall k :: 0 <= k < i ==> es[k].id != id
  {
    if |es| == 0 then 0
    else if es[0].id == id then 0
    else 1 + EventIndex(es[1..], id)
  }

  /** The rows `.update({status, updated_at})` writes back for one purchase. */
  function WithPurchaseStatus(p: Purchase, status: Status, now: nat): (q: Purchase)
    ensures q.id == p.id && q.user_id == p.user_id && q.event_id == p.event_id
    ensures q.total_price == p.total_price && q.payment_method == p.payment_method
    ensures q.purchased_at == p.purchased_at
    ensures q.status == status && q.updated_at == now
  {
    p.(status := status, updated_at := now)
  }

  /** A ticket the cancel cascade selects: same purchaser and event, still pending. */
  predicate CascadeHits(t: Ticket, purchaserId: string, eventId: string) {
    t.purchaser_id == Some(purchaserId) && t.event_id == eventId && t.status == Pending
  }

  /** The tickets table after `cancelPurchase`'s ticket update. */
  function CancelPendingTickets(ts: seq<Ticket>, purchaserId: string, eventId: string, now: nat): (r: seq<Ticket>)
    ensures |r| == |ts|
  {
    seq(|ts|, k requires 0 <= k < |ts| =>
      if CascadeHits(ts[k], purchaserId, eventId)
      then ts[k].(status := Cancelled, updated_at := Some(now))
      else ts[k])
  }

  /**
   * The cascade changes exactly the pending tickets of that purchaser for
   * that event, turns each into a cancelled ticket with the same id,
   * type, price and code, and leaves paid and validated tickets alone.
   */
  lemma CancelPendingTicketsExact(ts: seq<Ticket>, purchaserId: string, eventId: string, now: nat)
    ensures forall k :: 0 <= k < |ts| ==>
      (CancelPendingTickets(ts, purchaserId, eventId, now)[k] != ts[k] <==> CascadeHits(ts[k], purchaserId, eventId))
    ensures forall k :: 0 <= k < |ts| && CascadeHits(ts[k], purchaserId, eventId) ==>
      var t := CancelPendingTickets(ts, purchaserId, eventId, now)[k];
      t.status == Cancelled && t.id == ts[k].id && t.ticket_type_id == ts[k].ticket_type_id
      && t.qr_code == ts[k].qr_code && t.price_paid == ts[k].price_paid
    ensures forall k :: 0 <= k < |ts| && ts[k].status in {Paid, Validated} ==>
      CancelPendingTickets(ts, purchaserId, eventId, now)[k] == ts[k]
  {
  }

  /**
   * The cascade is keyed on purchaser and event, not on the purchase: a
   * pending ticket bought under another purchase of the same user for the
   * same event is cancelled with it.
   */
  lemma CancelCascadeCrossesPurchases()
    ensures var other := Ticket(7, "general", "ev", Pending, None, QRCode(2, "b"), 200000, 1000, Some("u"), None);
      CancelPendingTickets([other], "u", "ev", 300000)[0].status == Cancelled
  {
  }

  /** The tickets table after `updateTicketsByPurchase`: status only, every status matched. */
  function SetTicketStatuses(ts: seq<Ticket>, userId: string, eventId: string, status: Status): (r: seq<Ticket>)
    ensures |r| == |ts|
  {
    seq(|ts|, k requires 0 <= k < |ts| =>
      if ts[k].purchaser_id == Some(userId) && ts[k].event_id == eventId
      then ts[k].(status := status)
      else ts[k])
  }

  predicate MatchesPurchaser(t: Ticket, userId: string, eventId: string) {
    t.purchaser_id == Some(userId) && t.event_id == eventId
  }

  /** The rows `updateTicketsByPurchase` returns: the updated rows, in table order. */
  function UpdatedRows(ts: seq<Ticket>, userId: string, eventId: string): (r: seq<Ticket>)
    ensures forall t :: t in r ==> MatchesPurchaser(t, userId, eventId)
  {
    Filter(ts, (t: Ticket) => MatchesPurchaser(t, userId, eventId))
  }

  lemma SetTicketStatusesExact(ts: seq<Ticket>, userId: string, eventId: string, status: Status)
    ensures forall k :: 0 <= k < |ts| && MatchesPurchaser(ts[k], userId, eventId) ==>
      SetTicketStatuses(ts, userId, eventId, status)[k] == ts[k].(status := status)
    ensures forall k :: 0 <= k < |ts| && !MatchesPurchaser(ts[k], userId, eventId) ==>
      SetTicketStatuses(ts, userId, eventId, status)[k] == ts[k]
    ensures forall t :: t in UpdatedRows(SetTicketStatuses(ts, userId, eventId, status), userId, eventId) ==>
      t.status == status
  {
    var r := SetTicketStatuses(ts, userId, eventId, status);
    forall t | t in UpdatedRows(r, userId, eventId)
      ensures t.status == status
    {
      var k :| 0 <= k < |r| && r[k] == t;
    }
  }

  // ---------------------------------------------------------------------
  // Ticket issuance

  /** What `createTicket` is asked to insert. */
  datatype TicketRequest = TicketRequest(
    ticket_type_id: string,
    event_id: string,
    price_paid: int,
    purchaser_id: Option<string>)

  /** One line of `createTicketsForPurchase`: a request and how many copies. */
  datatype LineItem = LineItem(request: TicketRequest, quantity: int)

  /** `Array.from({ length: quantity })` has `max(0, quantity)` elements. */
  function Copies(line: LineItem): (n: nat)
    ensures line.quantity >= 0 ==> n == line.quantity
    ensures line.quantity < 0 ==> n == 0
  {
    if line.quantity < 0 then 0 else line.quantity
  }

  /** The row `createTicket` inserts. */
  function NewTicket(req: TicketRequest, status: Option<Status>, now: nat, digits: string, id: RowId): (t: Ticket)
    ensures t.id == id && t.ticket_type_id == req.ticket_type_id && t.event_id == req.event_id
    ensures t.price_paid == req.price_paid && t.purchaser_id == req.purchaser_id
    ensures status.Some? ==> t.status == status.value
    ensures status.None? ==> t.status == Pending
    ensures t.scanned_at.None? && t.purchased_at == now
    ensures t.qr_code == GenerateQRCode(now, digits)
  {
    Ticket(id, req.ticket_type_id, req.event_id, status.GetOr(Pending), None,
           GenerateQRCode(now, digits), now, req.price_paid, req.purchaser_id, None)
  }

  /**
   * The result of one `createTicket` call: the inserted row, a `null` row
   * when the auth handler swallowed the error, or the thrown message.
   */
  datatype TicketInsert = Inserted(ticket: Ticket) | NullRow | Threw(message: string)

  function InsertOutcome(req: TicketRequest, status: Option<Status>, now: nat, digits: string,
                         fault: Option<ErrorObject>, handler: Option<ErrorObject -> bool>, id: RowId): (o: TicketInsert)
    ensures fault.None? ==> o == Inserted(NewTicket(req, status, now, digits, id))
    ensures fault.Some? ==> !o.Inserted?
    ensures o.Threw? <==> fault.Some? && HandleSupabaseError(handler, fault.value).Thrown?
  {
    match fault
    case None => Inserted(NewTicket(req, status, now, digits, id))
    case Some(e) =>
      match HandleSupabaseError(handler, e)
      case Swallowed => NullRow
      case Thrown(m) => Threw(m)
  }

  /** The rows actually written by a sequence of inserts. */
  function InsertedRows(outs: seq<TicketInsert>): (rows: seq<Ticket>)
    ensures |rows| <= |outs|
  {
    if |outs| == 0 then []
    else (if outs[0].Inserted? then [outs[0].ticket] else []) + InsertedRows(outs[1..])
  }

  lemma {:induction false} InsertedRowsAppend(a: seq<TicketInsert>, b: seq<TicketInsert>)
    ensures InsertedRows(a + b) == InsertedRows(a) + InsertedRows(b)
    decreases |a|
  {
    if |a| == 0 {
      assert a + b == b;
    } else {
      assert (a + b)[0] == a[0];
      assert (a + b)[1..] == a[1..] + b;
      InsertedRowsAppend(a[1..], b);
      var h := if a[0].Inserted? then [a[0].ticket] else [];
      assert InsertedRows(a + b) == h + InsertedRows(a[1..] + b);
      assert InsertedRows(a) == h + InsertedRows(a[1..]);
      ConcatAssoc(h, InsertedRows(a[1..]), InsertedRows(b));
    }
  }

  /** When every call wrote a row, none of them threw. */
  lemma {:induction false} FirstThrowOfInserts(outs: seq<TicketInsert>)
    requires |InsertedRows(outs)| == |outs|
    ensures FirstThrow(outs).None?
    decreases |outs|
  {
    if |outs| > 0 {
      assert |InsertedRows(outs[1..])| <= |outs| - 1;
      FirstThrowOfInserts(outs[1..]);
    }
  }

  /** `ticket` of every `createTicket` result, `None` standing for `null`. */
  function ReturnedTickets(outs: seq<TicketInsert>): (r: seq<Option<Ticket>>)
    ensures |r| == |outs|
  {
    seq(|outs|, k requires 0 <= k < |outs| => if outs[k].Inserted? then Some(outs[k].ticket) else None)
  }

  /** The message of the first thrown insert, which `Promise.all` rejects with. */
  function FirstThrow(outs: seq<TicketInsert>): Option<string> {
    if |outs| == 0 then None
    else if outs[0].Threw? then Some(outs[0].message)
    else FirstThrow(outs[1..])
  }

  /** What the world supplies to one `createTicket` call: its clock reading, its random digits, its database failure. */
  datatype CallInput = CallInput(now: nat, digits: string, fault: Option<ErrorObject>)

  /**
   * The inputs of a whole issuance: one per `createTicket` call, in call
   * order (calls past the list read clock 0, no random digits and succeed),
   * and the registered auth handler.
   */
  datatype IssueEnv = IssueEnv(calls: seq<CallInput>, handler: Option<ErrorObject -> bool>)

  function Input(env: IssueEnv, call: nat): (input: CallInput)
    ensures call < |env.calls| ==> input == env.calls[call]
    ensures call >= |env.calls| ==> input.fault.None?
  {
    if call < |env.calls| then env.calls[call] else CallInput(0, "", None)
  }

  /** The outcome of `createTicket` call number `call` when the next free id is `id`. */
  function CallOutcome(req: TicketRequest, env: IssueEnv, call: nat, id: RowId): TicketInsert {
    var input := Input(env, call);
    InsertOutcome(req, Some(Pending), input.now, input.digits, input.fault, env.handler, id)
  }

  /** `n` `createTicket` calls for one line, numbered from `call`, the first free id being `id`. */
  function LineOutcomes(req: TicketRequest, n: nat, env: IssueEnv, call: nat, id: RowId): (outs: seq<TicketInsert>)
    ensures |outs| == n
  {
    if n == 0 then []
    else
      var o := CallOutcome(req, env, call, id);
      [o] + LineOutcomes(req, n - 1, env, call + 1, if o.Inserted? then id + 1 else id)
  }

  /** The calls made and the message the issuance stopped with, if any. */
  datatype Issuance = Issuance(outs: seq<TicketInsert>, failed: Option<string>)

  /**
   * `createTicketsForPurchase` line by line: every copy of a line is
   * requested (they all start before `Promise.all` is awaited), and the
   * first line with a thrown insert ends the issuance with that error.
   */
  function IssueLines(lines: seq<LineItem>, env: IssueEnv, call: nat, id: RowId): Issuance {
    if |lines| == 0 then Issuance([], None)
    else
      var outs := LineOutcomes(lines[0].request, Copies(lines[0]), env, call, id);
      if FirstThrow(outs).Some? then Issuance(outs, FirstThrow(outs))
      else
        var rest := IssueLines(lines[1..], env, call + |outs|, id + |InsertedRows(outs)|);
        Issuance(outs + rest.outs, rest.failed)
  }

  /**
   * The first line of an issuance: a line that threw ends it, otherwise
   * the other lines follow from call `callB` and id `idB`.
   */
  lemma IssueLinesHead(lines: seq<LineItem>, env: IssueEnv, call: nat, id: RowId, outs: seq<TicketInsert>,
                       callB: nat, idB: RowId)
    requires |lines| > 0
    requires outs == LineOutcomes(lines[0].request, Copies(lines[0]), env, call, id)
    requires callB == call + |outs| && idB == id + |InsertedRows(outs)|
    ensures FirstThrow(outs).Some? ==> IssueLines(lines, env, call, id) == Issuance(outs, FirstThrow(outs))
    ensures FirstThrow(outs).None? ==>
      var rest := IssueLines(lines[1..], env, callB, idB);
      IssueLines(lines, env, call, id) == Issuance(outs + rest.outs, rest.failed)
  {
  }

  /** Line `i` of an issuance, as `IssueLinesHead` states it for the first. */
  lemma IssueLinesAt(lines: seq<LineItem>, i: nat, env: IssueEnv, call: nat, id: RowId, outs: seq<TicketInsert>,
                     callB: nat, idB: RowId)
    requires i < |lines|
    requires outs == LineOutcomes(lines[i].request, Copies(lines[i]), env, call, id)
    requires callB == call + |outs| && idB == id + |InsertedRows(outs)|
    ensures FirstThrow(outs).Some? ==> IssueLines(lines[i..], env, call, id) == Issuance(outs, FirstThrow(outs))
    ensures FirstThrow(outs).None? ==>
      var rest := IssueLines(lines[i + 1..], env, callB, idB);
      IssueLines(lines[i..], env, call, id) == Issuance(outs + rest.outs, rest.failed)
  {
    assert lines[i..][0] == lines[i] && lines[i..][1..] == lines[i + 1..];
    IssueLinesHead(lines[i..], env, call, id, outs, callB, idB);
  }

  /**
   * One line of a running issuance: `done` holds the outcomes of the
   * lines before `i`; after line `i` either the issuance ends with its
   * throw or `done + outs` is the prefix before line `i + 1`.
   */
  lemma IssueLinesStep(lines: seq<LineItem>, i: nat, env: IssueEnv, id0: RowId, done: seq<TicketInsert>,
                       id: RowId, outs: seq<TicketInsert>, idB: RowId)
    requires i < |lines|
    requires var rest := IssueLines(lines[i..], env, |done|, id);
      IssueLines(lines, env, 0, id0) == Issuance(done + rest.outs, rest.failed)
    requires outs == LineOutcomes(lines[i].request, Copies(lines[i]), env, |done|, id)
    requires idB == id + |InsertedRows(outs)|
    ensures FirstThrow(outs).Some? ==> IssueLines(lines, env, 0, id0) == Issuance(done + outs, FirstThrow(outs))
    ensures FirstThrow(outs).None? ==>
      var rest := IssueLines(lines[i + 1..], env, |done + outs|, idB);
      IssueLines(lines, env, 0, id0) == Issuance(done + outs + rest.outs, rest.failed)
  {
    IssueLinesAt(lines, i, env, |done|, id, outs, |done| + |outs|, idB);
    if FirstThrow(outs).None? {
      ConcatAssoc(done, outs, IssueLines(lines[i + 1..], env, |done| + |outs|, idB).outs);
    }
  }

  /** `n` copies of `req` (`Array.from({ length: n }, …)`). */
  function Repeat(req: TicketRequest, n: nat): (units: seq<TicketRequest>)
    ensures |units| == n
    ensures forall k :: 0 <= k < n ==> units[k] == req
  {
    if n == 0 then [] else [req] + Repeat(req, n - 1)
  }

  /** The copies of every line, in line order. */
  function Units(lines: seq<LineItem>): (units: seq<TicketRequest>)
    ensures |units| == TotalCopies(lines)
  {
    if |lines| == 0 then [] else Repeat(lines[0].request, Copies(lines[0])) + Units(lines[1..])
  }

  /** Σ max(0, quantity) over the lines. */
  function TotalCopies(lines: seq<LineItem>): nat {
    if |lines| == 0 then 0 else Copies(lines[0]) + TotalCopies(lines[1..])
  }

  /** The rows a fault-free issuance writes for `units`: consecutive calls, consecutive ids. */
  function PlannedTickets(units: seq<TicketRequest>, env: IssueEnv, call: nat, id: RowId): (rows: seq<Ticket>)
    ensures |rows| == |units|
  {
    if |units| == 0 then []
    else [NewTicket(units[0], Some(Pending), Input(env, call).now, Input(env, call).digits, id)]
         + PlannedTickets(units[1..], env, call + 1, id + 1)
  }

  /** Planning `a + b` plans `a`, then `b` from the calls and ids `|a|` further on. */
  lemma {:induction false} PlannedTicketsAppend(a: seq<TicketRequest>, b: seq<TicketRequest>, env: IssueEnv,
                                                call: nat, id: RowId, callB: nat, idB: RowId)
    requires callB == call + |a| && idB == id + |a|
    ensures PlannedTickets(a + b, env, call, id)
         == PlannedTickets(a, env, call, id) + PlannedTickets(b, env, callB, idB)
    decreases |a|
  {
    if |a| == 0 {
      assert a + b == b;
    } else {
      assert (a + b)[0] == a[0];
      assert (a + b)[1..] == a[1..] + b;
      PlannedTicketsAppend(a[1..], b, env, call + 1, id + 1, callB, idB);
      var h := [NewTicket(a[0], Some(Pending), Input(env, call).now, Input(env, call).digits, id)];
      var ta := PlannedTickets(a[1..], env, call + 1, id + 1);
      var tb := PlannedTickets(b, env, callB, idB);
      assert PlannedTickets(a + b, env, call, id) == h + (ta + tb);
      assert PlannedTickets(a, env, call, id) == h + ta;
      ConcatAssoc(h, ta, tb);
    }
  }

  /** Planned row `k` is a pending, unscanned ticket for unit `k`, with id `id + k`. */
  lemma {:induction false} PlannedTicketsFields(units: seq<TicketRequest>, env: IssueEnv, call: nat, id: RowId)
    ensures forall k :: 0 <= k < |units| ==>
      var t := PlannedTickets(units, env, call, id)[k];
      && t.ticket_type_id == units[k].ticket_type_id && t.event_id == units[k].event_id
      && t.price_paid == units[k].price_paid && t.purchaser_id == units[k].purchaser_id
      && t.status == Pending && t.scanned_at.None? && t.id == id + k
    decreases |units|
  {
    if |units| > 0 {
      PlannedTicketsFields(units[1..], env, call + 1, id + 1);
      var r := PlannedTickets(units, env, call, id);
      assert forall k :: 1 <= k < |units| ==> r[k] == PlannedTickets(units[1..], env, call + 1, id + 1)[k - 1];
    }
  }

  /** The rows a fault-free issuance writes for one line of `n` copies. */
  function PlannedCopies(req: TicketRequest, n: nat, env: IssueEnv, call: nat, id: RowId): (rows: seq<Ticket>)
    ensures |rows| == n
  {
    if n == 0 then []
    else [NewTicket(req, Some(Pending), Input(env, call).now, Input(env, call).digits, id)]
         + PlannedCopies(req, n - 1, env, call + 1, id + 1)
  }

  /** The rows a fault-free issuance writes, line after line. */
  function PlannedLines(lines: seq<LineItem>, env: IssueEnv, call: nat, id: RowId): (rows: seq<Ticket>)
    ensures |rows| == TotalCopies(lines)
  {
    if |lines| == 0 then []
    else PlannedCopies(lines[0].request, Copies(lines[0]), env, call, id)
         + PlannedLines(lines[1..], env, call + Copies(lines[0]), id + Copies(lines[0]))
  }

  lemma {:induction false} PlannedCopiesArePlanned(req: TicketRequest, n: nat, env: IssueEnv, call: nat, id: RowId)
    ensures PlannedCopies(req, n, env, call, id) == PlannedTickets(Repeat(req, n), env, call, id)
  {
    if n > 0 {
      PlannedCopiesArePlanned(req, n - 1, env, call + 1, id + 1);
      assert Repeat(req, n)[0] == req && Repeat(req, n)[1..] == Repeat(req, n - 1);
    }
  }

  /** One line of both plans: its copies first, then the other lines from `n` calls and ids further on. */
  lemma PlannedLinesHead(lines: seq<LineItem>, env: IssueEnv, call: nat, id: RowId)
    requires |lines| > 0
    ensures var n := Copies(lines[0]);
      PlannedLines(lines, env, call, id)
      == PlannedCopies(lines[0].request, n, env, call, id) + PlannedLines(lines[1..], env, call + n, id + n)
  {
  }

  lemma PlannedLinesStep(lines: seq<LineItem>, env: IssueEnv, call: nat, id: RowId)
    requires |lines| > 0
    ensures var n := Copies(lines[0]);
      PlannedTickets(Units(lines), env, call, id)
      == PlannedCopies(lines[0].request, n, env, call, id) + PlannedTickets(Units(lines[1..]), env, call + n, id + n)
  {
    var n := Copies(lines[0]);
    var head := Repeat(lines[0].request, n);
    PlannedCopiesArePlanned(lines[0].request, n, env, call, id);
    PlannedTicketsAppend(head, Units(lines[1..]), env, call, id, call + n, id + n);
  }

  /** Planning line by line plans the copies of every line in order. */
  lemma {:induction false} PlannedLinesArePlanned(lines: seq<LineItem>, env: IssueEnv, call: nat, id: RowId)
    ensures PlannedLines(lines, env, call, id) == PlannedTickets(Units(lines), env, call, id)
    decreases |lines|
  {
    if |lines| == 0 {
      assert Units(lines) == [];
    } else {
      PlannedLinesStep(lines, env, call, id);
      PlannedLinesHead(lines, env, call, id);
      PlannedLinesArePlanned(lines[1..], env, call + Copies(lines[0]), id + Copies(lines[0]));
    }
  }

  /** No `createTicket` call of the issuance fails. */
  predicate NoFaults(env: IssueEnv) {
    forall k :: 0 <= k < |env.calls| ==> env.calls[k].fault.None?
  }

  /** Without failures every call of a line writes its planned row. */
  lemma {:induction false} LineOutcomesNoFault(req: TicketRequest, n: nat, env: IssueEnv, call: nat, id: RowId)
    requires NoFaults(env)
    ensures InsertedRows(LineOutcomes(req, n, env, call, id)) == PlannedCopies(req, n, env, call, id)
  {
    if n > 0 {
      assert Input(env, call).fault.None?;
      LineOutcomesNoFault(req, n - 1, env, call + 1, id + 1);
    }
  }

  /** Without failures every copy of a line is written, and nothing throws. */
  lemma LineIssuedInFull(req: TicketRequest, n: nat, env: IssueEnv, call: nat, id: RowId)
    requires NoFaults(env)
    ensures var outs := LineOutcomes(req, n, env, call, id);
      && InsertedRows(outs) == PlannedCopies(req, n, env, call, id)
      && |InsertedRows(outs)| == n
      && FirstThrow(outs).None?
  {
    LineOutcomesNoFault(req, n, env, call, id);
    FirstThrowOfInserts(LineOutcomes(req, n, env, call, id));
  }

  /** Without failures the first line is issued in full and the issuance goes on with the rest. */
  lemma IssueHeadNoFault(lines: seq<LineItem>, env: IssueEnv, call: nat, id: RowId)
    requires NoFaults(env) && |lines| > 0
    ensures var n := Copies(lines[0]);
      var rest := IssueLines(lines[1..], env, call + n, id + n);
      && IssueLines(lines, env, call, id).failed == rest.failed
      && InsertedRows(IssueLines(lines, env, call, id).outs)
         == PlannedCopies(lines[0].request, n, env, call, id) + InsertedRows(rest.outs)
  {
    // The copy count is written out at each use: a local for it would leave
    // the solver to equate `call + n` with `call + Copies(lines[0])`.
    LineIssuedInFull(lines[0].request, Copies(lines[0]), env, call, id);
    IssueLinesHead(lines, env, call, id, LineOutcomes(lines[0].request, Copies(lines[0]), env, call, id),
                   call + Copies(lines[0]), id + Copies(lines[0]));
    InsertedRowsAppend(LineOutcomes(lines[0].request, Copies(lines[0]), env, call, id),
                       IssueLines(lines[1..], env, call + Copies(lines[0]), id + Copies(lines[0])).outs);
  }

  /** A fault-free issuance of the lines after the first extends to all of them. */
  lemma IssueConsNoFault(lines: seq<LineItem>, env: IssueEnv, call: nat, id: RowId)
    requires NoFaults(env) && |lines| > 0
    requires var n := Copies(lines[0]);
      var rest := IssueLines(lines[1..], env, call + n, id + n);
      rest.failed.None? && InsertedRows(rest.outs) == PlannedLines(lines[1..], env, call + n, id + n)
    ensures IssueLines(lines, env, call, id).failed.None?
    ensures InsertedRows(IssueLines(lines, env, call, id).outs) == PlannedLines(lines, env, call, id)
  {
    IssueHeadNoFault(lines, env, call, id);
    PlannedLinesHead(lines, env, call, id);
  }

  /**
   * Without database failures every line is issued in full: the issuance
   * does not fail and writes the planned rows, line after line.
   */
  lemma {:induction false} IssueLinesNoFault(lines: seq<LineItem>, env: IssueEnv, call: nat, id: RowId)
    requires NoFaults(env)
    ensures IssueLines(lines, env, call, id).failed.None?
    ensures InsertedRows(IssueLines(lines, env, call, id).outs) == PlannedLines(lines, env, call, id)
    decreases |lines|
  {
    if |lines| == 0 {
      assert IssueLines(lines, env, call, id) == Issuance([], None);
    } else {
      IssueLinesNoFault(lines[1..], env, call + Copies(lines[0]), id + Copies(lines[0]));
      IssueConsNoFault(lines, env, call, id);
    }
  }

  /**
   * Every ticket a fault-free issuance writes is a pending, unscanned
   * ticket for the matching copy of its line item, Σ max(0, quantity) in
   * all, in line-item order, with consecutive ids.
   */
  lemma IssuedTicketsMatchLines(lines: seq<LineItem>, env: IssueEnv, id: RowId)
    requires NoFaults(env)
    ensures IssueLines(lines, env, 0, id).failed.None?
    ensures var rows := InsertedRows(IssueLines(lines, env, 0, id).outs);
      && |rows| == TotalCopies(lines)
      && forall k :: 0 <= k < |rows| ==>
           && rows[k].ticket_type_id == Units(lines)[k].ticket_type_id
           && rows[k].event_id == Units(lines)[k].event_id
           && rows[k].price_paid == Units(lines)[k].price_paid
           && rows[k].purchaser_id == Units(lines)[k].purchaser_id
           && rows[k].status == Pending && rows[k].scanned_at.None? && rows[k].id == id + k
  {
    IssueLinesNoFault(lines, env, 0, id);
    PlannedLinesArePlanned(lines, env, 0, id);
    PlannedTicketsFields(Units(lines), env, 0, id);
  }

  // ---------------------------------------------------------------------
  // Sold counts (`getEvent`)

  /** A ticket type of an event as reported, with its sales. */
  function TicketTypeViewOf(tt: TicketType, sold: nat): (v: TicketTypeView)
    ensures v.ticketType == tt && v.quantity_sold == sold
    ensures v.quantity_available == tt.total_quantity
  {
    TicketTypeView(tt, sold, tt.total_quantity)
  }

  /** Tickets of every status count as sold; cancelling tickets does not change the count. */
  lemma {:induction false} CountOfTypeAfterCancel(ts: seq<Ticket>, purchaserId: string, eventId: string, now: nat, typeId: string)
    ensures CountOfType(CancelPendingTickets(ts, purchaserId, eventId, now), typeId) == CountOfType(ts, typeId)
    decreases |ts|
  {
    if |ts| > 0 {
      var init := ts[..|ts| - 1];
      assert CancelPendingTickets(ts, purchaserId, eventId, now)[..|ts| - 1]
          == CancelPendingTickets(init, purchaserId, eventId, now);
      CountOfTypeAfterCancel(init, purchaserId, eventId, now, typeId);
    }
  }

  /**
   * `soldCountMap`: one pass over the fetched tickets, adding one to the
   * count of each ticket's type. Every type present is counted exactly;
   * a type absent from the map has no ticket.
   */
  method CountSold(sold: seq<Ticket>) returns (counts: map<string, nat>)
    ensures forall key :: key in counts ==> counts[key] == CountOfType(sold, key) && counts[key] > 0
    ensures forall key :: key !in counts ==> CountOfType(sold, key) == 0
  {
    counts := map[];
    var s := 0;
    while s < |sold|
      invariant 0 <= s <= |sold|
      invariant forall key :: key in counts ==> counts[key] == CountOfType(sold[..s], key) && counts[key] > 0
      invariant forall key :: key !in counts ==> CountOfType(sold[..s], key) == 0
    {
      var key := sold[s].ticket_type_id;
      assert sold[..s + 1][..s] == sold[..s];
      var before := if key in counts then counts[key] else 0;
      counts := counts[key := before + 1];
      s := s + 1;
    }
    assert sold[..s] == sold;
  }

  /** `soldCountMap[ticketType.id] || 0`. */
  function SoldOf(counts: map<string, nat>, typeId: string): nat {
    if typeId in counts then counts[typeId] else 0
  }

  /** The ticket types as `getEvent` reports them, in order, with their sales. */
  function TicketTypeViews(types: seq<TicketType>, counts: map<string, nat>): (views: seq<TicketTypeView>)
    ensures |views| == |types|
    ensures forall k :: 0 <= k < |types| ==> views[k] == TicketTypeViewOf(types[k], SoldOf(counts, types[k].id))
  {
    seq(|types|, k requires 0 <= k < |types| => TicketTypeViewOf(types[k], SoldOf(counts, types[k].id)))
  }

  datatype TicketsFetch = TicketsFetched(tickets: seq<Ticket>) | TicketsFailed(message: string)

  // ---------------------------------------------------------------------
  // Row ids

  /** Every id is below `bound` (the database's next id) and no id repeats. */
  predicate IdsFresh(ids: seq<RowId>, bound: nat) {
    && (forall k :: 0 <= k < |ids| ==> ids[k] < bound)
    && (forall i, j :: 0 <= i < j < |ids| ==> ids[i] != ids[j])
  }

  function PurchaseIds(ps: seq<Purchase>): (ids: seq<RowId>)
    ensures |ids| == |ps| && forall k :: 0 <= k < |ps| ==> ids[k] == ps[k].id
  {
    seq(|ps|, k requires 0 <= k < |ps| => ps[k].id)
  }

  function TicketIds(ts: seq<Ticket>): (ids: seq<RowId>)
    ensures |ids| == |ts| && forall k :: 0 <= k < |ts| ==> ids[k] == ts[k].id
  {
    seq(|ts|, k requires 0 <= k < |ts| => ts[k].id)
  }

  /** Appending the next id and advancing the counter keeps the ids fresh. */
  lemma IdsFreshAppend(ids: seq<RowId>, bound: nat)
    requires IdsFresh(ids, bound)
    ensures IdsFresh(ids + [bound], bound + 1)
  {
  }

  lemma TicketIdsAppend(ts: seq<Ticket>, t: Ticket)
    ensures TicketIds(ts + [t]) == TicketIds(ts) + [t.id]
  {
    assert TicketIds(ts + [t])[|ts|] == t.id;
  }

  lemma PurchaseIdsAppend(ps: seq<Purchase>, p: Purchase)
    ensures PurchaseIds(ps + [p]) == PurchaseIds(ps) + [p.id]
  {
    assert PurchaseIds(ps + [p])[|ps|] == p.id;
  }

  /** Status updates keep every row's id. */
  lemma CancelKeepsTicketIds(ts: seq<Ticket>, purchaserId: string, eventId: string, now: nat)
    ensures TicketIds(CancelPendingTickets(ts, purchaserId, eventId, now)) == TicketIds(ts)
  {
  }

  lemma SetStatusesKeepsTicketIds(ts: seq<Ticket>, userId: string, eventId: string, status: Status)
    ensures TicketIds(SetTicketStatuses(ts, userId, eventId, status)) == TicketIds(ts)
  {
  }

  lemma UpdateKeepsPurchaseIds(ps: seq<Purchase>, i: nat, status: Status, now: nat)
    requires i < |ps|
    ensures PurchaseIds(ps[i := WithPurchaseStatus(ps[i], status, now)]) == PurchaseIds(ps)
  {
  }

  // ---------------------------------------------------------------------
  // The database

  class Database {
    var events: seq<Event>
    var ticketTypes: seq<TicketType>
    var purchases: seq<Purchase>
    var tickets: seq<Ticket>
    /** The next row id the database will assign. */
    var nextId: nat

    /** Row ids are below the counter and unique within each table. */
    ghost predicate Valid()
      reads this
    {
      IdsFresh(PurchaseIds(purchases), nextId) && IdsFresh(TicketIds(tickets), nextId)
    }

    constructor(events: seq<Event>, ticketTypes: seq<TicketType>)
      ensures Valid()
      ensures this.events == events && this.ticketTypes == ticketTypes
      ensures purchases == [] && tickets == [] && nextId == 0
    {
      this.events := events;
      this.ticketTypes := ticketTypes;
      purchases := [];
      tickets := [];
      nextId := 0;
    }

    /** `getPurchase`: the row with that id, or the error `.single()` reports. */
    function GetPurchase(id: RowId, fault: Option<ErrorObject>): (r: Result<Purchase>)
      reads this
      requires Valid()
      ensures fault.None? ==> forall k :: 0 <= k < |purchases| && purchases[k].id == id ==> r == Ok(purchases[k])
      ensures r.Ok? ==> r.value in purchases && r.value.id == id
      ensures fault.Some? ==> r == Err("Failed to get purchase: " + MessageText(fault.value))
      ensures fault.None? && r.Err? ==> r.message == "Failed to get purchase: " + NoRowsMessage
    {
      var i := PurchaseIndex(purchases, id);
      if fault.Some? then Err("Failed to get purchase: " + MessageText(fault.value))
      else if i == |purchases| then Err("Failed to get purchase: " + NoRowsMessage)
      else
        assert PurchaseIds(purchases)[i] == id;
        Ok(purchases[i])
    }

    /** `createPurchase`: one new pending purchase; nothing else changes. */
    method CreatePurchase(userId: string, eventId: string, totalPrice: int, paymentMethod: PaymentMethod,
                          now: nat, fault: Option<ErrorObject>) returns (r: Result<Purchase>)
      requires Valid()
      modifies this
      ensures Valid()
      ensures events == old(events) && ticketTypes == old(ticketTypes) && tickets == old(tickets)
      ensures fault.Some? ==>
        && r == Err("Failed to create purchase: " + MessageText(fault.value))
        && purchases == old(purchases) && nextId == old(nextId)
      ensures fault.None? ==>
        && r == Ok(Purchase(old(nextId), userId, eventId, totalPrice, Pending, now, now, paymentMethod))
        && purchases == old(purchases) + [r.value]
        && nextId == old(nextId) + 1
    {
      if fault.Some? {
        return Err("Failed to create purchase: " + MessageText(fault.value));
      }
      var p := Purchase(nextId, userId, eventId, totalPrice, Pending, now, now, paymentMethod);
      PurchaseIdsAppend(purchases, p);
      IdsFreshAppend(PurchaseIds(purchases), nextId);
      purchases := purchases + [p];
      nextId := nextId + 1;
      r := Ok(p);
    }

    /** `updatePurchaseStatus`: rewrites status and `updated_at` of the one matching row. */
    method UpdatePurchaseStatus(id: RowId, status: Status, now: nat, fault: Option<ErrorObject>)
      returns (r: Result<Purchase>)
      requires Valid()
      modifies this
      ensures Valid()
      ensures events == old(events) && ticketTypes == old(ticketTypes) && tickets == old(tickets)
      ensures nextId == old(nextId)
      ensures var i := PurchaseIndex(old(purchases), id);
        if fault.Some? then
          r == Err("Failed to update purchase status: " + MessageText(fault.value)) && purchases == old(purchases)
        else if i == |old(purchases)| then
          r == Err("Failed to update purchase status: " + NoRowsMessage) && purchases == old(purchases)
        else
          && r == Ok(WithPurchaseStatus(old(purchases)[i], status, now))
          && purchases == old(purchases)[i := r.value]
    {
      var i := PurchaseIndex(purchases, id);
      if fault.Some? {
        return Err("Failed to update purchase status: " + MessageText(fault.value));
      }
      if i == |purchases| {
        return Err("Failed to update purchase status: " + NoRowsMessage);
      }
      var p := WithPurchaseStatus(purchases[i], status, now);
      UpdateKeepsPurchaseIds(purchases, i, status, now);
      purchases := purchases[i := p];
      r := Ok(p);
    }

    /**
     * `cancelPurchase`: only a pending purchase can be cancelled; its
     * status becomes cancelled, then the purchaser's pending tickets for
     * the event are cancelled, a failure of that last update being
     * ignored. Every error is reported under "Failed to cancel purchase: ".
     */
    method CancelPurchase(id: RowId, now: nat, getFault: Option<ErrorObject>, updateFault: Option<ErrorObject>,
                          ticketsFault: Option<ErrorObject>) returns (r: Result<Purchase>)
      requires Valid()
      modifies this
      ensures Valid()
      ensures events == old(events) && ticketTypes == old(ticketTypes) && nextId == old(nextId)
      ensures r == CancelResult(old(GetPurchase(id, getFault)), updateFault, now)
      ensures var g := old(GetPurchase(id, getFault));
        g.Err? ==>
          r == Err("Failed to cancel purchase: " + g.message) && purchases == old(purchases) && tickets == old(tickets)
      ensures var g := old(GetPurchase(id, getFault));
        g.Ok? && g.value.status != Pending ==>
          && r == Err("Failed to cancel purchase: Cannot cancel purchase with status: " + StatusName(g.value.status))
          && purchases == old(purchases) && tickets == old(tickets)
      ensures var g := old(GetPurchase(id, getFault));
        g.Ok? && g.value.status == Pending && updateFault.Some? ==>
          && r == Err("Failed to cancel purchase: " + ("Failed to update purchase status: " + MessageText(updateFault.value)))
          && purchases == old(purchases) && tickets == old(tickets)
      ensures var g := old(GetPurchase(id, getFault));
        g.Ok? && g.value.status == Pending && updateFault.None? ==>
          && r == Ok(WithPurchaseStatus(g.value, Cancelled, now))
          && purchases == old(purchases)[PurchaseIndex(old(purchases), id) := r.value]
          && tickets == (if ticketsFault.None?
                         then CancelPendingTickets(old(tickets), g.value.user_id, g.value.event_id, now)
                         else old(tickets))
    {
      var g := GetPurchase(id, getFault);
      if g.Err? {
        return Err("Failed to cancel purchase: " + g.message);
      }
      var purchase := g.value;
      if purchase.status != Pending {
        return Err("Failed to cancel purchase: Cannot cancel purchase with status: " + StatusName(purchase.status));
      }
      ghost var i := PurchaseIndex(purchases, id);
      assert i < |purchases| && purchases[i] == purchase;
      var u := UpdatePurchaseStatus(id, Cancelled, now, updateFault);
      if u.Err? {
        assert updateFault.Some?;
        return Err("Failed to cancel purchase: " + u.message);
      }
      assert u.value == WithPurchaseStatus(purchase, Cancelled, now);
      if ticketsFault.None? {
        var cancelled := CancelPendingTickets(tickets, purchase.user_id, purchase.event_id, now);
        CancelKeepsTicketIds(tickets, purchase.user_id, purchase.event_id, now);
        tickets := cancelled;
      }
      r := Ok(u.value);
    }

    /**
     * `updateTicketsByPurchase`: sets the status of every ticket of the
     * user for the event, whatever its current status, and returns them.
     */
    method UpdateTicketsByPurchase(userId: string, eventId: string, status: Status, fault: Option<ErrorObject>)
      returns (r: Result<seq<Ticket>>)
      requires Valid()
      modifies this
      ensures Valid()
      ensures events == old(events) && ticketTypes == old(ticketTypes) && purchases == old(purchases)
      ensures nextId == old(nextId)
      ensures fault.Some? ==>
        r == Err("Failed to update tickets: " + MessageText(fault.value)) && tickets == old(tickets)
      ensures fault.None? ==>
        && tickets == SetTicketStatuses(old(tickets), userId, eventId, status)
        && r == Ok(UpdatedRows(tickets, userId, eventId))
    {
      if fault.Some? {
        return Err("Failed to update tickets: " + MessageText(fault.value));
      }
      var updated := SetTicketStatuses(tickets, userId, eventId, status);
      SetStatusesKeepsTicketIds(tickets, userId, eventId, status);
      tickets := updated;
      r := Ok(UpdatedRows(tickets, userId, eventId));
    }

    /**
     * `createTicket`: inserts one ticket with a fresh QR identifier, the
     * requested status or pending, and no scan time.
     */
    method CreateTicket(req: TicketRequest, status: Option<Status>, now: nat, digits: string,
                        fault: Option<ErrorObject>, handler: Option<ErrorObject -> bool>) returns (o: TicketInsert)
      requires Valid()
      modifies this
      ensures Valid()
      ensures events == old(events) && ticketTypes == old(ticketTypes) && purchases == old(purchases)
      ensures o == InsertOutcome(req, status, now, digits, fault, handler, old(nextId))
      ensures tickets == old(tickets) + InsertedRows([o])
      ensures nextId == old(nextId) + |InsertedRows([o])|
    {
      o := InsertOutcome(req, status, now, digits, fault, handler, nextId);
      assert [o][1..] == [];
      if o.Inserted? {
        TicketIdsAppend(tickets, o.ticket);
        IdsFreshAppend(TicketIds(tickets), nextId);
        tickets := tickets + [o.ticket];
        nextId := nextId + 1;
      }
    }

    /** The `n` `createTicket` calls of one line item, numbered from `call`. */
    method CreateLineTickets(req: TicketRequest, n: nat, env: IssueEnv, call: nat) returns (outs: seq<TicketInsert>)
      requires Valid()
      modifies this
      ensures Valid()
      ensures events == old(events) && ticketTypes == old(ticketTypes) && purchases == old(purchases)
      ensures outs == LineOutcomes(req, n, env, call, old(nextId))
      ensures tickets == old(tickets) + InsertedRows(outs)
      ensures nextId == old(nextId) + |InsertedRows(outs)|
    {
      outs := [];
      var c, left := call, n;
      assert LineOutcomes(req, n, env, call, nextId) == outs + LineOutcomes(req, left, env, c, nextId);
      while left > 0
        invariant Valid()
        invariant events == old(events) && ticketTypes == old(ticketTypes) && purchases == old(purchases)
        invariant tickets == old(tickets) + InsertedRows(outs)
        invariant nextId == old(nextId) + |InsertedRows(outs)|
        invariant LineOutcomes(req, n, env, call, old(nextId)) == outs + LineOutcomes(req, left, env, c, nextId)
      {
        ghost var before := nextId;
        var input := Input(env, c);
        var o := CreateTicket(req, Some(Pending), input.now, input.digits, input.fault, env.handler);
        ghost var later := LineOutcomes(req, left - 1, env, c + 1, nextId);
        assert LineOutcomes(req, left, env, c, before) == [o] + later;
        InsertedRowsAppend(outs, [o]);
        ConcatAssoc(old(tickets), InsertedRows(outs), InsertedRows([o]));
        ConcatAssoc(outs, [o], later);
        outs := outs + [o];
        c, left := c + 1, left - 1;
      }
      assert outs + LineOutcomes(req, 0, env, c, nextId) == outs;
    }

    /**
     * `createTicketsForPurchase`: for each line in order, requests every
     * copy of it and stops at the first line one of whose inserts threw.
     * Rows written before the failure stay.
     */
    method CreateTicketsForPurchase(lines: seq<LineItem>, env: IssueEnv) returns (r: Result<seq<Option<Ticket>>>)
      requires Valid()
      modifies this
      ensures Valid()
      ensures events == old(events) && ticketTypes == old(ticketTypes) && purchases == old(purchases)
      ensures var iss := IssueLines(lines, env, 0, old(nextId));
        && tickets == old(tickets) + InsertedRows(iss.outs)
        && nextId == old(nextId) + |InsertedRows(iss.outs)|
        && r == (if iss.failed.Some? then Err(iss.failed.value) else Ok(ReturnedTickets(iss.outs)))
    {
      var id0 := nextId;
      var outs: seq<TicketInsert> := [];
      var i := 0;
      assert outs + IssueLines(lines, env, 0, id0).outs == IssueLines(lines, env, 0, id0).outs;
      while i < |lines|
        invariant 0 <= i <= |lines|
        invariant Valid()
        invariant events == old(events) && ticketTypes == old(ticketTypes) && purchases == old(purchases)
        invariant tickets == old(tickets) + InsertedRows(outs)
        invariant nextId == id0 + |InsertedRows(outs)|
        invariant var rest := IssueLines(lines[i..], env, |outs|, nextId);
          IssueLines(lines, env, 0, id0) == Issuance(outs + rest.outs, rest.failed)
      {
        ghost var before := nextId;
        var lineOuts := CreateLineTickets(lines[i].request, Copies(lines[i]), env, |outs|);
        IssueLinesStep(lines, i, env, id0, outs, before, lineOuts, nextId);
        InsertedRowsAppend(outs, lineOuts);
        ConcatAssoc(old(tickets), InsertedRows(outs), InsertedRows(lineOuts));
        outs := outs + lineOuts;
        if FirstThrow(lineOuts).Some? {
          return Err(FirstThrow(lineOuts).value);
        }
        i := i + 1;
      }
      assert lines[i..] == [] && outs + [] == outs;
      r := Ok(ReturnedTickets(outs));
    }

    /** The event's ticket types, in table order (the `ticket_types(*)` embedding). */
    function TypesOfEvent(id: string): (r: seq<TicketType>)
      reads this
      ensures forall tt :: tt in r <==> tt in ticketTypes && tt.event_id == id
    {
      Filter(ticketTypes, (tt: TicketType) => tt.event_id == id)
    }

    function TicketsOfEvent(id: string): (r: seq<Ticket>)
      reads this
      ensures forall t :: t in r <==> t in tickets && t.event_id == id
    {
      Filter(tickets, (t: Ticket) => t.event_id == id)
    }

    /**
     * `getEvent`: the event with its ticket types, each with the number of
     * the event's tickets of that type (every status counted; 0 when the
     * count query fails) and an availability equal to the type's total.
     */
    method GetEvent(id: string, eventFault: Option<ErrorObject>, soldFault: Option<ErrorObject>,
                    handler: Option<ErrorObject -> bool>) returns (r: Result<EventView>)
      ensures var i := EventIndex(events, id);
        var failure := if eventFault.Some? then eventFault else if i == |events| then Some(NoRowsError) else None;
        match failure
        case Some(e) =>
          r == (match HandleSupabaseError(handler, e)
                case Swallowed => Err("Event not found")
                case Thrown(m) => Err(m))
        case None =>
          && r.Ok? && r.value.event == events[i]
          && |r.value.ticket_types| == |TypesOfEvent(id)|
          && forall k :: 0 <= k < |TypesOfEvent(id)| ==>
               var tt := TypesOfEvent(id)[k];
               r.value.ticket_types[k]
                 == TicketTypeViewOf(tt, if soldFault.None? then CountOfType(TicketsOfEvent(id), tt.id) else 0)
    {
      var i := EventIndex(events, id);
      var failure := if eventFault.Some? then eventFault else if i == |events| then Some(NoRowsError) else None;
      if failure.Some? {
        var h := HandleSupabaseError(handler, failure.value);
        if h.Swallowed? {
          return Err("Event not found");
        }
        return Err(h.message);
      }
      var sold := if soldFault.None? then TicketsOfEvent(id) else [];
      var soldCount := CountSold(sold);
      r := Ok(EventView(events[i], TicketTypeViews(TypesOfEvent(id), soldCount)));
    }

    /**
     * `getTicketsForPurchase`: the purchaser's tickets for the purchase's
     * event bought within a minute of it, oldest first; any failure,
     * including an unknown purchase, gives no tickets.
     */
    function GetTicketsForPurchase(id: RowId, getFault: Option<ErrorObject>, queryFault: Option<ErrorObject>): (r: seq<Ticket>)
      reads this
      requires Valid()
      ensures GetPurchase(id, getFault).Err? || queryFault.Some? ==> r == []
      ensures GetPurchase(id, getFault).Ok? && queryFault.None? ==>
        r == TicketsNearPurchase(tickets, GetPurchase(id, getFault).value)
      ensures forall t :: t in r ==> t in tickets
    {
      match GetPurchase(id, getFault)
      case Err(_) => []
      case Ok(p) => if queryFault.Some? then [] else TicketsNearPurchase(tickets, p)
    }

    /**
     * The failure that decides `getUserTickets`: the fallback query's when
     * the full query failed on a healthy database, the only query's on a
     * slow one.
     */
    static function DecidingFault(healthy: bool, mainFault: Option<ErrorObject>,
                                  fallbackFault: Option<ErrorObject>): Option<ErrorObject>
    {
      if healthy then (if mainFault.Some? then fallbackFault else None) else mainFault
    }

    /**
     * `getUserTickets`: with a healthy database the full query (limit 50)
     * and, if it fails, the simplified fallback (limit 50); with a slow
     * one the simplified query only (limit 20). A failure the auth handler
     * swallows yields no tickets; one it does not is thrown.
     */
    function GetUserTickets(userId: string, healthy: bool, mainFault: Option<ErrorObject>,
                            fallbackFault: Option<ErrorObject>, handler: Option<ErrorObject -> bool>): (r: TicketsFetch)
      reads this
      ensures r.TicketsFetched? ==> |r.tickets| <= UserTicketsLimit(healthy)
      ensures r.TicketsFetched? ==> forall t :: t in r.tickets ==> t in tickets && ShownToUser(userId, t)
      ensures r.TicketsFetched? ==> SortedBy(r.tickets, ByPurchasedAtDesc())
      ensures var last := DecidingFault(healthy, mainFault, fallbackFault);
        last.None? ==> r == TicketsFetched(UserTicketSelection(tickets, userId, UserTicketsLimit(healthy)))
      ensures var last := DecidingFault(healthy, mainFault, fallbackFault);
        last.Some? && HandleSupabaseError(handler, last.value).Swallowed? ==> r == TicketsFetched([])
      ensures r.TicketsFailed? <==>
        var last := DecidingFault(healthy, mainFault, fallbackFault);
        last.Some? && HandleSupabaseError(handler, last.value).Thrown?
    {
      var selection := UserTicketSelection(tickets, userId, UserTicketsLimit(healthy));
      if !healthy then
        match mainFault
        case None => TicketsFetched(selection)
        case Some(e) =>
          match HandleSupabaseError(handler, e)
          case Swallowed => TicketsFetched([])
          case Thrown(m) => TicketsFailed(m)
      else if mainFault.None? then TicketsFetched(selection)
      else
        match fallbackFault
        case None => TicketsFetched(selection)
        case Some(e) =>
          match HandleSupabaseError(handler, e)
          case Swallowed => TicketsFetched([])
          case Thrown(m) => TicketsFailed(m)
    }

    /** `getUserPurchases`: all of the user's purchases, newest first. */
    function GetUserPurchases(userId: string, fault: Option<ErrorObject>): (r: Result<seq<Purchase>>)
      reads this
      ensures fault.Some? ==> r == Err("Failed to get user purchases: " + MessageText(fault.value))
      ensures fault.None? ==> r.Ok?
      ensures r.Ok? ==> forall q :: q in r.value <==> q in purchases && q.user_id == userId
      ensures r.Ok? ==> SortedBy(r.value, PurchasesNewestFirst())
    {
      if fault.Some? then Err("Failed to get user purchases: " + MessageText(fault.value))
      else Ok(UserPurchaseSelection(purchases, userId))
    }
  }

  /**
   * What `cancelPurchase` returns for the looked-up purchase `g`: the
   * lookup's error, the refusal of a purchase that is not pending, or the
   * status update's error, each under "Failed to cancel purchase: ", and
   * otherwise the cancelled row.
   */
  function CancelResult(g: Result<Purchase>, updateFault: Option<ErrorObject>, now: nat): (r: Result<Purchase>)
    ensures r.Ok? <==> g.Ok? && g.value.status == Pending && updateFault.None?
    ensures r.Err? ==> r.message != ""
  {
    if g.Err? then Err("Failed to cancel purchase: " + g.message)
    else if g.value.status != Pending then
      Err("Failed to cancel purchase: Cannot cancel purchase with status: " + StatusName(g.value.status))
    else if updateFault.Some? then
      Err("Failed to cancel purchase: " + ("Failed to update purchase status: " + MessageText(updateFault.value)))
    else Ok(WithPurchaseStatus(g.value, Cancelled, now))
  }

  /** A successful cancellation leaves the purchase cancelled and the sold counts unchanged. */
  lemma CancelKeepsSoldCounts(ts: seq<Ticket>, p: Purchase, now: nat, typeId: string)
    ensures CountOfType(CancelPendingTickets(ts, p.user_id, p.event_id, now), typeId) == CountOfType(ts, typeId)
    ensures WithPurchaseStatus(p, Cancelled, now).status == Cancelled
  {
    CountOfTypeAfterCancel(ts, p.user_id, p.event_id, now, typeId);
  }
}
