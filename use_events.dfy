/**
 * The event hooks (hooks/use-events.ts): the ticket-quantity selector of
 * `useTicketQuantities` and the fetch-and-retry sequence of
 * `useUserTickets`.
 */
module UseEvents {
  import opened Common
  import opened Sorting
  import opened Api

  // ---------------------------------------------------------------------
  // `Array.prototype.sort` on strings: code-unit order

  predicate CodeUnitLe(a: string, b: string)
    decreases |a|
  {
    if |a| == 0 then true
    else if |b| == 0 then false
    else if a[0] != b[0] then a[0] < b[0]
    else CodeUnitLe(a[1..], b[1..])
  }

  lemma {:induction false} CodeUnitLeTotal(a: string, b: string)
    ensures CodeUnitLe(a, b) || CodeUnitLe(b, a)
    decreases |a|
  {
    if |a| > 0 && |b| > 0 && a[0] == b[0] {
      CodeUnitLeTotal(a[1..], b[1..]);
    }
  }

  lemma {:induction false} CodeUnitLeTransitive(a: string, b: string, c: string)
    requires CodeUnitLe(a, b) && CodeUnitLe(b, c)
    ensures CodeUnitLe(a, c)
    decreases |a|
  {
    if |a| > 0 && |b| > 0 && |c| > 0 && a[0] == b[0] && b[0] == c[0] {
      CodeUnitLeTransitive(a[1..], b[1..], c[1..]);
    }
  }

  lemma {:induction false} CodeUnitLeAntisymmetric(a: string, b: string)
    requires CodeUnitLe(a, b) && CodeUnitLe(b, a)
    ensures a == b
    decreases |a|
  {
    if |a| > 0 {
      CodeUnitLeAntisymmetric(a[1..], b[1..]);
      assert a == [a[0]] + a[1..] && b == [b[0]] + b[1..];
    }
  }

  function ByCodeUnits(): (string, string) -> bool {
    (a: string, b: string) => CodeUnitLe(a, b)
  }

  lemma CodeUnitOrder()
    ensures TotalPreorder(ByCodeUnits()) && Antisymmetric(ByCodeUnits())
  {
    forall a: string, b: string
      ensures CodeUnitLe(a, b) || CodeUnitLe(b, a)
    {
      CodeUnitLeTotal(a, b);
    }
    forall a: string, b: string, c: string | CodeUnitLe(a, b) && CodeUnitLe(b, c)
      ensures CodeUnitLe(a, c)
    {
      CodeUnitLeTransitive(a, b, c);
    }
    forall a: string, b: string | CodeUnitLe(a, b) && CodeUnitLe(b, a)
      ensures a == b
    {
      CodeUnitLeAntisymmetric(a, b);
    }
  }

  // ---------------------------------------------------------------------
  // The key the initialisation effect depends on

  function Ids(types: seq<TicketType>): (ids: seq<string>)
    ensures |ids| == |types|
    ensures forall k :: 0 <= k < |types| ==> ids[k] == types[k].id
  {
    seq(|types|, k requires 0 <= k < |types| => types[k].id)
  }

  /** `ticketTypes.map(t => t.id).sort().join(',')`. */
  function TicketTypeIdsKey(types: seq<TicketType>): (key: string)
    ensures |types| == 0 ==> key == ""
  {
    Join(Sort(Ids(types), ByCodeUnits()), ",")
  }

  /**
   * The key depends on the ids only as a multiset: reordering the ticket
   * types does not re-run the initialisation.
   */
  lemma TicketTypeIdsKeyIgnoresOrder(a: seq<TicketType>, b: seq<TicketType>)
    requires multiset(Ids(a)) == multiset(Ids(b))
    ensures TicketTypeIdsKey(a) == TicketTypeIdsKey(b)
  {
    CodeUnitOrder();
    SortIgnoresInputOrder(Ids(a), Ids(b), ByCodeUnits());
  }

  // ---------------------------------------------------------------------
  // Sums

  predicate Distinct(s: seq<string>) {
    forall i, j :: 0 <= i < j < |s| ==> s[i] != s[j]
  }

  lemma DistinctSnoc(s: seq<string>, x: string)
    requires Distinct(s) && x !in s
    ensures Distinct(s + [x])
  {
  }

  /** The values of `m` at `keys`, added up (`Object.values(…).reduce(+)`). */
  function SumAt(keys: seq<string>, m: map<string, int>): int
    requires forall k :: k in keys ==> k in m
  {
    if |keys| == 0 then 0 else SumAt(keys[..|keys| - 1], m) + m[keys[|keys| - 1]]
  }

  lemma {:induction false} SumAtZero(keys: seq<string>, m: map<string, int>)
    requires forall k :: k in keys ==> k in m && m[k] == 0
    ensures SumAt(keys, m) == 0
  {
    if |keys| > 0 {
      SumAtZero(keys[..|keys| - 1], m);
    }
  }

  /** Changing one key's value changes the sum by the difference, and only then. */
  lemma {:induction false} SumAtUpdate(keys: seq<string>, m: map<string, int>, id: string, v: int)
    requires forall k :: k in keys ==> k in m
    requires Distinct(keys)
    ensures id in keys ==> SumAt(keys, m[id := v]) == SumAt(keys, m) - m[id] + v
    ensures id !in keys ==> SumAt(keys, m[id := v]) == SumAt(keys, m)
  {
    if |keys| > 0 {
      var init := keys[..|keys| - 1];
      assert forall k :: k in init ==> k in keys;
      SumAtUpdate(init, m, id, v);
      if keys[|keys| - 1] == id {
        assert id !in init;
      } else {
        assert id in keys ==> id in init;
      }
    }
  }

  // ---------------------------------------------------------------------
  // `useTicketQuantities`

  /** A ticket type with the quantity chosen for it (`{...ticket, quantity}`). */
  datatype SelectedTicket = SelectedTicket(ticketType: TicketType, quantity: int)

  /** `ticket.price * quantity`. */
  function LineTotal(s: SelectedTicket): int {
    s.ticketType.price * s.quantity
  }

  function Subtotal(s: seq<SelectedTicket>): int {
    if |s| == 0 then 0 else LineTotal(s[0]) + Subtotal(s[1..])
  }

  predicate Chosen(s: SelectedTicket) {
    s.quantity > 0
  }

  /** Leaving out the unchosen entries (none negative) does not change the total. */
  lemma {:induction false} SubtotalOfChosen(s: seq<SelectedTicket>)
    requires forall k :: 0 <= k < |s| ==> s[k].quantity >= 0
    ensures Subtotal(Filter(s, Chosen)) == Subtotal(s)
  {
    if |s| > 0 {
      SubtotalOfChosen(s[1..]);
      if Chosen(s[0]) {
        var f := Filter(s, Chosen);
        assert f == [s[0]] + Filter(s[1..], Chosen);
        assert f[1..] == Filter(s[1..], Chosen);
      } else {
        assert s[0].quantity == 0;
        assert LineTotal(s[0]) == 0;
        assert Filter(s, Chosen) == Filter(s[1..], Chosen);
      }
    }
  }

  function QuantityIn(m: map<string, int>, id: string): (q: int)
    ensures id in m ==> q == m[id]
    ensures id !in m ==> q == 0
  {
    if id in m then m[id] else 0
  }

  /**
   * The selector's state. `quantities` is the React state object; `order`
   * lists its keys in insertion order, the order `Object.values` visits
   * them in; `typesKey` is the id key the initialisation effect last ran
   * for.
   */
  class TicketQuantities {
    var quantities: map<string, int>
    var order: seq<string>
    var typesKey: Option<string>

    ghost predicate Valid()
      reads this
    {
      && (forall id :: id in order <==> id in quantities)
      && Distinct(order)
      && (forall id :: id in quantities ==> quantities[id] >= 0)
    }

    constructor()
      ensures Valid()
      ensures quantities == map[] && order == [] && typesKey.None?
    {
      quantities := map[];
      order := [];
      typesKey := None;
    }

    /** `quantities[id] || 0`. */
    function Quantity(id: string): (q: int)
      reads this
      ensures id !in quantities ==> q == 0
      ensures Valid() ==> q >= 0
    {
      QuantityIn(quantities, id)
    }

    /** `getTotalQuantity`. */
    function TotalQuantity(): (total: int)
      requires Valid()
      reads this
    {
      SumAt(order, quantities)
    }

    /** The types with their chosen quantities, in input order. */
    function Annotated(types: seq<TicketType>): (r: seq<SelectedTicket>)
      reads this
      ensures |r| == |types|
      ensures forall k :: 0 <= k < |types| ==> r[k] == SelectedTicket(types[k], Quantity(types[k].id))
    {
      var m := quantities;
      seq(|types|, k requires 0 <= k < |types| => SelectedTicket(types[k], QuantityIn(m, types[k].id)))
    }

    /** `calculateTotal`: Σ price × quantity, a type without a quantity counting 0. */
    function CalculateTotal(types: seq<TicketType>): (total: int)
      reads this
      ensures |types| == 0 ==> total == 0
    {
      Subtotal(Annotated(types))
    }

    /** `getSelectedTickets`. */
    function SelectedTickets(types: seq<TicketType>): (r: seq<SelectedTicket>)
      reads this
      ensures forall s :: s in r ==> s.quantity > 0 && s.ticketType in types && s.quantity == Quantity(s.ticketType.id)
      ensures forall k :: 0 <= k < |types| && Quantity(types[k].id) > 0 ==>
        SelectedTicket(types[k], Quantity(types[k].id)) in r
      ensures Subsequence(r, Annotated(types))
    {
      var all := Annotated(types);
      FilterIsSubsequence(all, Chosen);
      assert forall s :: s in all ==> s.ticketType in types && s.quantity == Quantity(s.ticketType.id);
      Filter(all, Chosen)
    }

    /** The checkout total can be computed from the selected tickets alone. */
    lemma SelectedTicketsTotal(types: seq<TicketType>)
      requires Valid()
      ensures Subtotal(SelectedTickets(types)) == CalculateTotal(types)
    {
      SubtotalOfChosen(Annotated(types));
    }

    /**
     * The initialisation effect: every ticket-type id maps to 0 (an empty
     * list clears the map).
     */
    method Initialize(types: seq<TicketType>)
      modifies this
      ensures Valid() && typesKey == old(typesKey)
      ensures forall id :: id in quantities <==> id in Ids(types)
      ensures forall id :: id in quantities ==> quantities[id] == 0
      ensures TotalQuantity() == 0
    {
      // an empty list gives an empty map: the loop then adds nothing
      var m: map<string, int> := map[];
      var keys: seq<string> := [];
      var i := 0;
      while i < |types|
        invariant 0 <= i <= |types|
        invariant forall id :: id in keys <==> id in m
        invariant Distinct(keys)
        invariant forall id :: id in m <==> id in Ids(types)[..i]
        invariant forall id :: id in m ==> m[id] == 0
        invariant typesKey == old(typesKey)
      {
        assert Ids(types)[..i + 1] == Ids(types)[..i] + [types[i].id];
        if types[i].id !in m {
          DistinctSnoc(keys, types[i].id);
          keys := keys + [types[i].id];
        }
        m := m[types[i].id := 0];
        i := i + 1;
      }
      assert Ids(types)[..i] == Ids(types);
      SumAtZero(keys, m);
      quantities, order := m, keys;
    }

    /** The effect runs again only when the id key changes. */
    method OnTicketTypes(types: seq<TicketType>)
      requires Valid()
      modifies this
      ensures Valid() && typesKey == Some(TicketTypeIdsKey(types))
      ensures old(typesKey) == Some(TicketTypeIdsKey(types)) ==>
        quantities == old(quantities) && order == old(order)
      ensures old(typesKey) != Some(TicketTypeIdsKey(types)) ==>
        && (forall id :: id in quantities <==> id in Ids(types))
        && (forall id :: id in quantities ==> quantities[id] == 0)
    {
      var key := TicketTypeIdsKey(types);
      if typesKey != Some(key) {
        Initialize(types);
        typesKey := Some(key);
      }
    }

    /**
     * `updateQuantity`: the key moves by `change` and is clamped at 0;
     * the total moves with it and every other key keeps its value.
     */
    method UpdateQuantity(id: string, change: int)
      requires Valid()
      modifies this
      ensures Valid() && typesKey == old(typesKey)
      ensures quantities == old(quantities)[id := if old(Quantity(id)) + change < 0 then 0 else old(Quantity(id)) + change]
      ensures order == if id in old(quantities) then old(order) else old(order) + [id]
      ensures TotalQuantity() == old(TotalQuantity()) - old(Quantity(id)) + Quantity(id)
    {
      var q := Quantity(id) + change;
      Store(id, if q < 0 then 0 else q);
    }

    /** `setQuantity`: the key takes `quantity`, clamped at 0. */
    method SetQuantity(id: string, quantity: int)
      requires Valid()
      modifies this
      ensures Valid() && typesKey == old(typesKey)
      ensures quantities == old(quantities)[id := if quantity < 0 then 0 else quantity]
      ensures order == if id in old(quantities) then old(order) else old(order) + [id]
      ensures TotalQuantity() == old(TotalQuantity()) - old(Quantity(id)) + Quantity(id)
    {
      Store(id, if quantity < 0 then 0 else quantity);
    }

    /** `{...prev, [id]: v}`: a new key goes last, an existing one keeps its place. */
    method Store(id: string, v: nat)
      requires Valid()
      modifies this
      ensures Valid() && typesKey == old(typesKey)
      ensures quantities == old(quantities)[id := v]
      ensures order == if id in old(quantities) then old(order) else old(order) + [id]
      ensures TotalQuantity() == old(TotalQuantity()) - old(Quantity(id)) + v
    {
      SumAtUpdate(order, quantities, id, v);
      if id !in quantities {
        DistinctSnoc(order, id);
        order := order + [id];
        assert order[..|order| - 1] == old(order);
      }
      quantities := quantities[id := v];
    }
  }

  // ---------------------------------------------------------------------
  // `useUserTickets`: fetching with retries

  const TimeoutAdvice: string :=
    "Loading is taking longer than expected. Please check your internet connection and try again."

  const NetworkAdvice: string := "Network error. Please check your internet connection and try again."

  /** Another attempt follows only the first two failures, and never a timeout. */
  predicate ShouldRetry(retryCount: nat, message: string) {
    retryCount < 2 && !Contains(message, "timeout") && !Contains(message, "Request timeout")
  }

  /** The wait before the next attempt: 500 ms, then 1000 ms. */
  function RetryDelay(retryCount: nat): (ms: nat)
    ensures ms >= 500
  {
    (retryCount + 1) * 500
  }

  /** The message shown once no more attempts follow. */
  function FetchErrorMessage(message: string): (r: string)
    ensures r != ""
    ensures Contains(message, "timeout") ==> r == TimeoutAdvice
    ensures !Contains(message, "timeout") && (Contains(message, "network") || Contains(message, "fetch")) ==>
      r == NetworkAdvice
    ensures !Contains(message, "timeout") && !Contains(message, "network") && !Contains(message, "fetch") ==>
      r == if message == "" then "Failed to fetch tickets" else message
  {
    RequestTimeoutIsTimeout(message);
    if Contains(message, "timeout") || Contains(message, "Request timeout") then TimeoutAdvice
    else if Contains(message, "network") || Contains(message, "fetch") then NetworkAdvice
    else if message != "" then message
    else "Failed to fetch tickets"
  }

  lemma ContainsLength(s: string, sub: string)
    ensures Contains(s, sub) ==> |sub| <= |s|
  {
    if Contains(s, sub) {
      var i := ContainsWitness(s, sub);
    }
  }

  /** The `'Request timeout'` tests add nothing: that phrase contains `timeout`. */
  lemma RequestTimeoutIsTimeout(message: string)
    ensures Contains(message, "Request timeout") ==> Contains(message, "timeout")
  {
    if Contains(message, "Request timeout") {
      assert "Request timeout"[8..15] == "timeout";
      ContainsAt("Request timeout", "timeout", 8);
      ContainsTransitive(message, "Request timeout", "timeout");
    }
  }

  /** What one attempt yields: the tickets, or a rejection's message. */
  datatype Attempt = Loaded(tickets: seq<Ticket>) | FailedWith(message: string)

  /** The hook's visible state. */
  datatype TicketsView = TicketsView(tickets: seq<Ticket>, loading: bool, error: Option<string>, retrying: bool)

  /** The state a run of attempts ends in, how many attempts it took and the waits between them. */
  datatype FetchTrace = FetchTrace(view: TicketsView, attempts: nat, delays: seq<nat>)

  /** The `finally` block: only the first call clears `loading`. */
  function Settle(v: TicketsView, retryCount: nat): (r: TicketsView)
    ensures r.tickets == v.tickets && r.error == v.error && r.retrying == v.retrying
    ensures r.loading == (v.loading && retryCount != 0)
  {
    if retryCount == 0 then v.(loading := false) else v
  }

  /**
   * `fetchTickets(retryCount)` for a signed-in user, `results(n)` being
   * the outcome of the attempt made with retry count `n`.
   */
  function FetchRun(v: TicketsView, retryCount: nat, results: nat -> Attempt): FetchTrace
    decreases if retryCount < 2 then 2 - retryCount else 0
  {
    var started := v.(loading := true, error := None);
    match results(retryCount)
    case Loaded(t) => FetchTrace(Settle(started.(tickets := t), retryCount), 1, [])
    case FailedWith(m) =>
      if ShouldRetry(retryCount, m) then
        var rest := FetchRun(Settle(started.(retrying := true), retryCount), retryCount + 1, results);
        FetchTrace(rest.view, rest.attempts + 1, [RetryDelay(retryCount)] + rest.delays)
      else
        FetchTrace(started.(retrying := false, error := Some(FetchErrorMessage(m)), tickets := [], loading := false), 1, [])
  }

  /**
   * At most three attempts, waits of 500 ms and 1000 ms between them; the
   * run ends with the last attempt's tickets, or with its error message
   * and no tickets, no spinner and no retry banner.
   */
  lemma {:induction false} FetchRunEnds(v: TicketsView, retryCount: nat, results: nat -> Attempt)
    ensures var r := FetchRun(v, retryCount, results);
      && 1 <= r.attempts && (retryCount <= 2 ==> r.attempts <= 3 - retryCount)
      && |r.delays| == r.attempts - 1
      && (forall k :: 0 <= k < |r.delays| ==> r.delays[k] == RetryDelay(retryCount + k))
      && (r.view.error.None? ==> results(retryCount + r.attempts - 1) == Loaded(r.view.tickets))
      && (r.view.error.Some? ==>
            && results(retryCount + r.attempts - 1).FailedWith?
            && r.view.error == Some(FetchErrorMessage(results(retryCount + r.attempts - 1).message))
            && r.view.tickets == [] && !r.view.loading && !r.view.retrying)
    decreases if retryCount < 2 then 2 - retryCount else 0
  {
    match results(retryCount)
    case Loaded(_) =>
    case FailedWith(m) =>
      if ShouldRetry(retryCount, m) {
        var started := v.(loading := true, error := None);
        FetchRunEnds(Settle(started.(retrying := true), retryCount), retryCount + 1, results);
      }
  }

  /** The state `useState` starts the hook in. */
  const InitialView: TicketsView := TicketsView([], true, None, false)

  function FailThenLoad(n: nat): Attempt {
    if n == 0 then FailedWith("offline") else Loaded([])
  }

  /**
   * A first attempt that fails and a retry that succeeds leave the page
   * loading and retrying for good: the retry's `finally` does not clear
   * `loading`, and nothing clears `retrying` on success.
   */
  lemma RetriedSuccessStaysLoading()
    ensures var r := FetchRun(InitialView, 0, FailThenLoad);
      r.view.error.None? && r.attempts == 2 && r.view.loading && r.view.retrying
  {
    assert !Contains("offline", "timeout") by {
      assert "timeout"[0] != "offline"[0];
      assert "offline"[1..] == "ffline";
      ContainsLength("ffline", "timeout");
    }
    ContainsLength("offline", "Request timeout");
  }

  /**
   * The evidently intended run: every attempt that ends the sequence
   * clears `loading` and `retrying`, whatever its retry count.
   */
  function SettledFetchRun(v: TicketsView, retryCount: nat, results: nat -> Attempt): (r: FetchTrace)
    ensures !r.view.loading && !r.view.retrying
    ensures 1 <= r.attempts && (retryCount <= 2 ==> r.attempts <= 3 - retryCount)
    ensures r.view.error.None? ==> results(retryCount + r.attempts - 1) == Loaded(r.view.tickets)
    decreases if retryCount < 2 then 2 - retryCount else 0
  {
    var started := v.(loading := true, error := None);
    match results(retryCount)
    case Loaded(t) => FetchTrace(started.(tickets := t, loading := false, retrying := false), 1, [])
    case FailedWith(m) =>
      if ShouldRetry(retryCount, m) then
        var rest := SettledFetchRun(started.(retrying := true), retryCount + 1, results);
        FetchTrace(rest.view, rest.attempts + 1, [RetryDelay(retryCount)] + rest.delays)
      else
        FetchTrace(started.(retrying := false, error := Some(FetchErrorMessage(m)), tickets := [], loading := false), 1, [])
  }

  /** The corrected run differs from the one written only in those two flags. */
  lemma SettledRunAgrees(v: TicketsView, retryCount: nat, results: nat -> Attempt)
    ensures var a, b := FetchRun(v, retryCount, results), SettledFetchRun(v, retryCount, results);
      a.attempts == b.attempts && a.delays == b.delays && a.view.tickets == b.view.tickets && a.view.error == b.view.error
    decreases if retryCount < 2 then 2 - retryCount else 0
  {
    match results(retryCount)
    case Loaded(_) =>
    case FailedWith(m) =>
      if ShouldRetry(retryCount, m) {
        var started := v.(loading := true, error := None);
        SettledRunTail(started, retryCount, results);
        SettledRunAgrees(Settle(started.(retrying := true), retryCount), retryCount + 1, results);
      }
  }

  /** The rest of a run does not depend on the two flags it is started with. */
  lemma {:induction false} SettledRunTail(started: TicketsView, retryCount: nat, results: nat -> Attempt)
    requires retryCount < 2
    ensures SettledFetchRun(started.(retrying := true), retryCount + 1, results)
         == SettledFetchRun(Settle(started.(retrying := true), retryCount), retryCount + 1, results)
  {
    var a, b := started.(retrying := true), Settle(started.(retrying := true), retryCount);
    assert a.(loading := true, error := None) == b.(loading := true, error := None);
  }

  /** The hook's state, updated attempt by attempt. */
  class UserTickets {
    var tickets: seq<Ticket>
    var loading: bool
    var error: Option<string>
    var retrying: bool

    constructor()
      ensures View() == InitialView
    {
      tickets, loading, error, retrying := [], true, None, false;
    }

    function View(): TicketsView
      reads this
    {
      TicketsView(tickets, loading, error, retrying)
    }

    /**
     * Attempts made one after another, each retry after its delay; `v`
     * is the state the successive `set…` calls build.
     */
    method Attempts(retryCount: nat, results: nat -> Attempt) returns (attempts: nat, delays: seq<nat>)
      modifies this
      ensures FetchTrace(View(), attempts, delays) == FetchRun(old(View()), retryCount, results)
    {
      var v := View();
      ghost var whole := FetchRun(v, retryCount, results);
      var count := retryCount;
      attempts, delays := 0, [];
      var done := false;
      while !done
        invariant !done ==> count == retryCount + attempts
        invariant !done ==> var rest := FetchRun(v, count, results);
          whole == FetchTrace(rest.view, attempts + rest.attempts, delays + rest.delays)
        invariant done ==> whole == FetchTrace(v, attempts, delays)
        decreases if done then 0 else if count < 2 then 3 - count else 1
      {
        v := v.(loading := true, error := None);
        match results(count)
        case Loaded(t) =>
          v := Settle(v.(tickets := t), count);
          attempts, done := attempts + 1, true;
        case FailedWith(m) =>
          if ShouldRetry(count, m) {
            v := Settle(v.(retrying := true), count);
            ConcatAssoc(delays, [RetryDelay(count)], FetchRun(v, count + 1, results).delays);
            attempts, delays, count := attempts + 1, delays + [RetryDelay(count)], count + 1;
          } else {
            v := v.(retrying := false, error := Some(FetchErrorMessage(m)), tickets := [], loading := false);
            attempts, done := attempts + 1, true;
          }
      }
      tickets, loading, error, retrying := v.tickets, v.loading, v.error, v.retrying;
    }

    /**
     * `fetchTickets(retryCount)`: without a signed-in user (`!user?.id`:
     * no user, or an empty id) the list is emptied; otherwise attempts follow one another, each scheduled
     * retry after its delay, until one loads or no retry is allowed.
     */
    method FetchTickets(userId: Option<string>, retryCount: nat, results: nat -> Attempt)
      returns (attempts: nat, delays: seq<nat>)
      modifies this
      ensures !Truthy(userId) ==>
        && tickets == [] && !loading && error == old(error) && retrying == old(retrying)
        && attempts == 0 && delays == []
      ensures Truthy(userId) ==>
        FetchTrace(View(), attempts, delays) == FetchRun(old(View()), retryCount, results)
    {
      if !Truthy(userId) {
        tickets, loading := [], false;
        attempts, delays := 0, [];
      } else {
        attempts, delays := Attempts(retryCount, results);
      }
    }
  }
}
