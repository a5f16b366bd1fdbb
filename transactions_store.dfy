/**
 * The demo `TransactionsService` of `transactions.service.simulation.ts`:
 * sales records in an in-memory `mockTransactions` array that creation,
 * update, deletion and the fallback listing change in place.
 *
 * Every operation first awaits `apiCall`, which fails at random; whether it
 * succeeded is the `apiOk` parameter. `Date.now()` is `now`, and the random
 * customer of a created sale is chosen by `pick` and `phone`.
 */
module TransactionsSimulation {
  import opened Wrappers
  import opened JsText
  import opened Collections

  datatype Customer = Customer(name: string, phone: string)

  /** One sale; dates are milliseconds since the epoch. */
  datatype Transaction = Transaction(
    id: string, itemName: string, quantity: int, unitPrice: int, subtotal: int,
    saleDate: int, createdAt: int, customer: Customer)

  /** `CreateTransactionRequest`, with `sale_date` already read as a date. */
  datatype CreateRequest = CreateRequest(
    itemName: string, quantity: int, unitPrice: int, saleDate: int, customer: Option<Customer>)

  /** `Partial<CreateTransactionRequest>`: `None` is a key the request leaves out. */
  datatype UpdateRequest = UpdateRequest(
    itemName: Option<string>, quantity: Option<int>, unitPrice: Option<int>,
    saleDate: Option<int>, customer: Option<Customer>)

  function SaleDate(t: Transaction): int {
    t.saleDate
  }

  /** The subtotal is the quantity times the unit price. */
  predicate Consistent(t: Transaction) {
    t.subtotal == t.quantity * t.unitPrice
  }

  const IdPrefix: string := "TRX-"
  const CustomerNames: seq<string> := ["Ahmad", "Budi", "Cindy", "Diana"]
  const DemoCustomer: Customer := Customer("Demo Customer", "+6280000000000")

  /** The customer made up on the success path: one of four names and a `+628` number of ten digits. */
  function RandomCustomer(pick: nat, phone: nat): (c: Customer)
    requires pick < 4 && 1000000000 <= phone < 10000000000
    ensures c.name in CustomerNames && StartsWith(c.phone, "+628")
  {
    Customer(CustomerNames[pick], "+628" + NatToString(phone))
  }

  /** The object both paths of `createTransaction` build, with the given stand-in customer. */
  function NewTransaction(req: CreateRequest, now: nat, fallback: Customer): (t: Transaction)
    ensures Consistent(t)
    ensures StartsWith(t.id, IdPrefix) && ParseNat(t.id[|IdPrefix|..]) == Some(now)
    ensures t.itemName == req.itemName && t.quantity == req.quantity && t.unitPrice == req.unitPrice
      && t.saleDate == req.saleDate && t.createdAt == now
    ensures t.customer == req.customer.GetOr(fallback)
  {
    var id := IdPrefix + NatToString(now);
    ParseNatToString(now);
    assert id[|IdPrefix|..] == NatToString(now);
    Transaction(id, req.itemName, req.quantity, req.unitPrice, req.quantity * req.unitPrice,
      req.saleDate, now, req.customer.GetOr(fallback))
  }

  /** `{...t, ...request}`: every key the request carries replaces the stored one. */
  function Spread(t: Transaction, req: UpdateRequest): (r: Transaction)
    ensures r.id == t.id && r.createdAt == t.createdAt && r.subtotal == t.subtotal
    ensures r.itemName == req.itemName.GetOr(t.itemName) && r.quantity == req.quantity.GetOr(t.quantity)
    ensures r.unitPrice == req.unitPrice.GetOr(t.unitPrice) && r.saleDate == req.saleDate.GetOr(t.saleDate)
    ensures r.customer == req.customer.GetOr(t.customer)
  {
    t.(itemName := req.itemName.GetOr(t.itemName), quantity := req.quantity.GetOr(t.quantity),
      unitPrice := req.unitPrice.GetOr(t.unitPrice), saleDate := req.saleDate.GetOr(t.saleDate),
      customer := req.customer.GetOr(t.customer))
  }

  /** `(request.quantity || t.quantity) * (request.unit_price || t.unit_price)` */
  function MergedSubtotal(t: Transaction, req: UpdateRequest): int {
    OrNumber(req.quantity, t.quantity) * OrNumber(req.unitPrice, t.unitPrice)
  }

  /** The stored update: the request spread over the record and the subtotal recomputed with `||`. */
  function Updated(t: Transaction, req: UpdateRequest): (r: Transaction)
    ensures r.id == t.id && r.createdAt == t.createdAt
    ensures r.quantity == req.quantity.GetOr(t.quantity) && r.unitPrice == req.unitPrice.GetOr(t.unitPrice)
    ensures r.itemName == req.itemName.GetOr(t.itemName) && r.saleDate == req.saleDate.GetOr(t.saleDate)
    ensures r.customer == req.customer.GetOr(t.customer)
    ensures r.subtotal == OrNumber(req.quantity, t.quantity) * OrNumber(req.unitPrice, t.unitPrice)
  {
    Spread(t, req).(subtotal := MergedSubtotal(t, req))
  }

  /** The unstored fallback of `updateTransaction`: as the stored update, but name, quantity and price also use `||`. */
  function FallbackUpdated(t: Transaction, req: UpdateRequest): (r: Transaction)
    ensures r.id == t.id && r.createdAt == t.createdAt && r.customer == req.customer.GetOr(t.customer)
    ensures r.itemName == OrElse(req.itemName, t.itemName)
    ensures r.quantity == OrNumber(req.quantity, t.quantity) && r.unitPrice == OrNumber(req.unitPrice, t.unitPrice)
    ensures r.saleDate == req.saleDate.GetOr(t.saleDate)
  {
    Spread(t, req).(itemName := OrElse(req.itemName, t.itemName), quantity := OrNumber(req.quantity, t.quantity),
      unitPrice := OrNumber(req.unitPrice, t.unitPrice), subtotal := MergedSubtotal(t, req))
  }

  /** The fallback always keeps the subtotal in step with the quantity and the price it reports. */
  lemma FallbackConsistent(t: Transaction, req: UpdateRequest)
    ensures Consistent(FallbackUpdated(t, req))
  {
  }

  /** A stored update keeps a consistent record consistent unless it sets the quantity or the price to 0. */
  lemma UpdatedConsistent(t: Transaction, req: UpdateRequest)
    requires Consistent(t)
    requires req.quantity != Some(0) && req.unitPrice != Some(0)
    ensures Consistent(Updated(t, req))
  {
  }

  /**
   * A stored update to quantity 0 stores the 0 but keeps the old quantity in
   * the subtotal, since `0 || quantity` is the old quantity.
   */
  lemma ZeroQuantityKeepsSubtotal(t: Transaction, req: UpdateRequest)
    requires req.quantity == Some(0) && req.unitPrice.None? && t.quantity != 0 && t.unitPrice != 0
    ensures Updated(t, req).quantity == 0 && Updated(t, req).subtotal == t.quantity * t.unitPrice
    ensures !Consistent(Updated(t, req))
  {
  }

  /** `mockTransactions.findIndex(t => t.id === id)` */
  function IndexOfId(ts: seq<Transaction>, id: string): (i: int)
    ensures -1 <= i < |ts|
    ensures 0 <= i ==> ts[i].id == id && forall j :: 0 <= j < i ==> ts[j].id != id
    ensures i == -1 ==> forall j :: 0 <= j < |ts| ==> ts[j].id != id
  {
    if ts == [] then -1
    else if ts[0].id == id then 0
    else
      var k := IndexOfId(ts[1..], id);
      if k == -1 then -1 else k + 1
  }

  function NotId(id: string): Transaction -> bool {
    (t: Transaction) => t.id != id
  }

  /** The deletion of a failed call reports a change exactly when some sale had the id. */
  lemma DeleteReportsPresence(ts: seq<Transaction>, id: string)
    ensures |Filter(ts, NotId(id))| != |ts| <==> exists i :: 0 <= i < |ts| && ts[i].id == id
  {
    FilterDropsIff(ts, NotId(id));
  }

  /** What `getTransaction` returns: the sale with the id when the call succeeds and it is stored, else the first sale. */
  function Lookup(ts: seq<Transaction>, id: string, apiOk: bool): (r: Option<Transaction>)
    ensures r.None? <==> ts == []
    ensures r.Some? ==> r.value in ts
    ensures apiOk && IndexOfId(ts, id) >= 0 ==> r == Some(ts[IndexOfId(ts, id)])
    ensures (!apiOk || IndexOfId(ts, id) == -1) && ts != [] ==> r == Some(ts[0])
  {
    var i := IndexOfId(ts, id);
    if apiOk && i >= 0 then Some(ts[i])
    else if ts != [] then Some(ts[0])
    else None
  }

  /** The length `getTransactions` keeps on success: `7 + Math.floor(Math.random() * 3)`, capped by the length. */
  function ListedLength(n: nat, extra: nat): (k: nat)
    requires extra < 3
    ensures k <= n && (k == n || 7 <= k <= 9)
  {
    if 7 + extra <= n then 7 + extra else n
  }

  class TransactionsStore {
    /** `mockTransactions` */
    var records: seq<Transaction>

    constructor (initial: seq<Transaction>)
      ensures records == initial
    {
      records := initial;
    }

    /**
     * `getTransactions`: a successful call lists a newest-first copy cut to
     * 7 to 9 sales; a failed call sorts the stored array itself, newest
     * first, and returns it.
     */
    method GetTransactions(apiOk: bool, extra: nat) returns (r: seq<Transaction>)
      requires extra < 3
      modifies this
      ensures apiOk ==> (records == old(records) && r == SortDesc(records, SaleDate)[..ListedLength(|records|, extra)])
      ensures !apiOk ==> records == SortDesc(old(records), SaleDate) && r == records
    {
      if apiOk {
        var sorted := SortDesc(records, SaleDate);
        r := sorted[..ListedLength(|records|, extra)];
      } else {
        records := SortDesc(records, SaleDate);
        r := records;
      }
    }

    /** `getTransaction` */
    method GetTransaction(id: string, apiOk: bool) returns (r: Option<Transaction>)
      ensures r == Lookup(records, id, apiOk)
    {
      var i := IndexOfId(records, id);
      if apiOk && i != -1 {
        r := Some(records[i]);
      } else if records != [] {
        r := Some(records[0]);
      } else {
        r := None;
      }
    }

    /**
     * `createTransaction`: on success the sale, with a made-up customer if the
     * request has none, goes to the front of the array; on failure it is
     * returned with the demo customer and not stored.
     */
    method CreateTransaction(req: CreateRequest, now: nat, apiOk: bool, pick: nat, phone: nat) returns (t: Transaction)
      requires pick < 4 && 1000000000 <= phone < 10000000000
      modifies this
      ensures apiOk ==> t == NewTransaction(req, now, RandomCustomer(pick, phone)) && records == [t] + old(records)
      ensures !apiOk ==> t == NewTransaction(req, now, DemoCustomer) && records == old(records)
    {
      if apiOk {
        t := NewTransaction(req, now, RandomCustomer(pick, phone));
        records := [t] + records;
      } else {
        t := NewTransaction(req, now, DemoCustomer);
      }
    }

    /**
     * `updateTransaction`. When the call succeeds and the id is stored, that
     * sale is updated in place. Otherwise nothing is stored: the request is
     * merged over what a second `getTransaction` call (succeeding as
     * `lookupOk` says) returns, which is the first sale unless the update's
     * own call failed and the lookup found the id; an empty store throws
     * "Transaction not found".
     */
    method UpdateTransaction(id: string, req: UpdateRequest, apiOk: bool, lookupOk: bool)
      returns (r: Result<Transaction, string>)
      modifies this
      ensures var i := IndexOfId(old(records), id);
        if apiOk && i >= 0 then
          |records| == |old(records)| && records[i] == Updated(old(records)[i], req)
          && (forall j :: 0 <= j < |records| && j != i ==> records[j] == old(records)[j])
          && r == Ok(records[i])
        else
          records == old(records)
          && (records == [] ==> r == Err("Transaction not found"))
          && (records != [] ==> r == Ok(FallbackUpdated(Lookup(records, id, !apiOk && lookupOk).value, req)))
    {
      var i := IndexOfId(records, id);
      if apiOk && i != -1 {
        records := records[i := Updated(records[i], req)];
        r := Ok(records[i]);
        return;
      }
      // With a successful call the id is not stored, so the lookup answers the first sale whatever its outcome.
      var found := GetTransaction(id, !apiOk && lookupOk);
      if found.None? {
        r := Err("Transaction not found");
      } else {
        r := Ok(FallbackUpdated(found.value, req));
      }
    }

    /**
     * `deleteTransaction`: a successful call returns the stub's missing
     * `success` and removes nothing; a failed call removes every sale with
     * that id and reports whether the length changed.
     */
    method DeleteTransaction(id: string, apiOk: bool) returns (r: Option<bool>)
      modifies this
      ensures apiOk ==> r.None? && records == old(records)
      ensures !apiOk ==> records == Filter(old(records), NotId(id)) && r == Some(|records| != |old(records)|)
      ensures !apiOk ==> forall i :: 0 <= i < |records| ==> records[i].id != id
    {
      if apiOk {
        r := None;
      } else {
        var initialLength := |records|;
        records := Filter(records, NotId(id));
        r := Some(initialLength != |records|);
      }
    }
  }

  /**
   * The listing of a successful call holds the newest sales, newest first,
   * each one a stored sale; the fallback's in-place sort keeps every sale.
   */
  lemma ListingNewestFirst(ts: seq<Transaction>, extra: nat)
    requires extra < 3
    ensures var r := SortDesc(ts, SaleDate)[..ListedLength(|ts|, extra)];
      SortedDesc(r, SaleDate) && (forall i :: 0 <= i < |r| ==> r[i] in ts)
      && forall i, j :: 0 <= i < |r| && |r| <= j < |ts| ==> r[i].saleDate >= SortDesc(ts, SaleDate)[j].saleDate
  {
    var s := SortDesc(ts, SaleDate);
    SortDescSorted(ts, SaleDate);
    PermutationSameElements(s, ts);
  }

  /** A second failed listing finds the store already sorted and leaves it as it is. */
  lemma FallbackSortSettles(ts: seq<Transaction>)
    ensures SortDesc(SortDesc(ts, SaleDate), SaleDate) == SortDesc(ts, SaleDate)
  {
    SortDescSorted(ts, SaleDate);
    SortDescOfSorted(SortDesc(ts, SaleDate), SaleDate);
  }
}
