/**
 * The demo `ProductsService` of `products.service.simulation.ts`: products in
 * an in-memory `mockProducts` array that listing, creation, update and
 * deletion change in place. Ids are numbers; the string ids callers pass are
 * read with `parseInt`, and `NaN` (`None`) matches no product.
 *
 * Every operation first awaits `apiCall`, which fails at random; whether it
 * succeeded is the `apiOk` parameter. `new Date()` is `now`.
 */
module ProductsSimulation {
  import opened Wrappers
  import opened JsText
  import opened Collections

  /** One product; dates are milliseconds since the epoch. */
  datatype Product = Product(
    id: int, name: string, stock: int, price: int, category: string,
    description: string, status: string, createdAt: int, updatedAt: int)

  /** `CreateProductRequest`; `None` is a key the request leaves out. */
  datatype CreateRequest = CreateRequest(
    name: string, stock: int, price: int, category: Option<string>, description: Option<string>)

  /** `UpdateProductRequest`: the keys `updateProduct` reads. */
  datatype UpdateRequest = UpdateRequest(
    name: Option<string>, stock: Option<int>, price: Option<int>, category: Option<string>)

  /**
   * What `updateProduct` returns: the stored product, or an object that is
   * not stored, whose id may be `NaN` and which has no description.
   */
  datatype UpdateReply =
    | Stored(product: Product)
    | Unstored(id: Option<int>, name: string, stock: int, price: int, category: string,
        status: string, createdAt: int, updatedAt: int)

  const DefaultCategory: string := "Umum"
  const ActiveStatus: string := "active"
  const DemoName: string := "Produk Demo"
  const DemoStock: int := 50
  const DemoPrice: int := 5000000
  /** `new Date('2024-01-01')`, read as UTC midnight. */
  const DemoCreatedAt: int := 1704067200000

  /** `p.id === parseInt(id)`: `NaN` equals nothing. */
  predicate HasId(p: Product, pid: Option<int>) {
    pid.Some? && p.id == pid.value
  }

  /** `Math.max(...ps.map(p => p.id))` on a non-empty store. */
  function MaxId(ps: seq<Product>): (m: int)
    requires ps != []
    ensures forall i :: 0 <= i < |ps| ==> ps[i].id <= m
    ensures MaxIdAt(ps, m)
  {
    if |ps| == 1 then ps[0].id
    else
      var rest := MaxId(ps[1..]);
      if ps[0].id >= rest then ps[0].id else rest
  }

  predicate MaxIdAt(ps: seq<Product>, m: int) {
    exists i :: 0 <= i < |ps| && ps[i].id == m
  }

  /** The id `createProduct` gives: one more than the largest stored id. */
  function NextId(ps: seq<Product>): (n: int)
    requires ps != []
    ensures forall i :: 0 <= i < |ps| ==> ps[i].id < n
  {
    MaxId(ps) + 1
  }

  /** The product both paths of `createProduct` build. */
  function NewProduct(req: CreateRequest, id: int, now: int): (p: Product)
    ensures p.id == id && p.name == req.name && p.stock == req.stock && p.price == req.price
    ensures p.category == OrElse(req.category, DefaultCategory) && p.description == OrElse(req.description, "")
    ensures p.status == ActiveStatus && p.createdAt == now && p.updatedAt == now
  {
    Product(id, req.name, req.stock, req.price, OrElse(req.category, DefaultCategory),
      OrElse(req.description, ""), ActiveStatus, now, now)
  }

  /** `{...p, ...request, updatedAt: new Date()}` */
  function Updated(p: Product, req: UpdateRequest, now: int): (q: Product)
    ensures q.id == p.id && q.description == p.description && q.status == p.status && q.createdAt == p.createdAt
    ensures q.name == req.name.GetOr(p.name) && q.stock == req.stock.GetOr(p.stock)
      && q.price == req.price.GetOr(p.price) && q.category == req.category.GetOr(p.category)
    ensures q.updatedAt == now
  {
    p.(name := req.name.GetOr(p.name), stock := req.stock.GetOr(p.stock), price := req.price.GetOr(p.price),
      category := req.category.GetOr(p.category), updatedAt := now)
  }

  /** The unstored answer of `updateProduct`: demo values wherever the request has none, or a falsy one. */
  function Fallback(pid: Option<int>, req: UpdateRequest, now: int): (r: UpdateReply)
    ensures r.Unstored? && r.id == pid && r.status == ActiveStatus
    ensures r.name == OrElse(req.name, DemoName) && r.stock == OrNumber(req.stock, DemoStock)
      && r.price == OrNumber(req.price, DemoPrice) && r.category == OrElse(req.category, DefaultCategory)
    ensures r.createdAt == DemoCreatedAt && r.updatedAt == now
  {
    Unstored(pid, OrElse(req.name, DemoName), OrNumber(req.stock, DemoStock), OrNumber(req.price, DemoPrice),
      OrElse(req.category, DefaultCategory), ActiveStatus, DemoCreatedAt, now)
  }

  /** `mockProducts.findIndex(p => p.id === pid)` */
  function IndexOfId(ps: seq<Product>, pid: Option<int>): (i: int)
    ensures -1 <= i < |ps|
    ensures 0 <= i ==> HasId(ps[i], pid) && forall j :: 0 <= j < i ==> !HasId(ps[j], pid)
    ensures i == -1 ==> forall j :: 0 <= j < |ps| ==> !HasId(ps[j], pid)
  {
    if ps == [] then -1
    else if HasId(ps[0], pid) then 0
    else
      var k := IndexOfId(ps[1..], pid);
      if k == -1 then -1 else k + 1
  }

  function NotId(pid: Option<int>): Product -> bool {
    (p: Product) => !HasId(p, pid)
  }

  /** Descending `-id` is ascending id: the order of `sort((a, b) => a.id - b.id)`. */
  function NegId(p: Product): int {
    -p.id
  }

  /** No two products share an id. */
  predicate UniqueIds(ps: seq<Product>) {
    forall i, j :: 0 <= i < j < |ps| ==> ps[i].id != ps[j].id
  }

  class ProductsStore {
    /** `mockProducts` */
    var records: seq<Product>

    constructor (initial: seq<Product>)
      ensures records == initial
    {
      records := initial;
    }

    /** `getProducts`: a successful call sorts the stored array itself by id and returns it; a failed one returns it as it is. */
    method GetProducts(apiOk: bool) returns (r: seq<Product>)
      modifies this
      ensures apiOk ==> records == SortDesc(old(records), NegId)
      ensures !apiOk ==> records == old(records)
      ensures r == records
    {
      if apiOk {
        records := SortDesc(records, NegId);
      }
      r := records;
    }

    /** `getProduct`: the product with the parsed id when the call succeeds and it is stored, else the first product. */
    method GetProduct(id: string, apiOk: bool) returns (r: Option<Product>)
      ensures apiOk && IndexOfId(records, ParseInt(id)) >= 0 ==> r == Some(records[IndexOfId(records, ParseInt(id))])
      ensures (!apiOk || IndexOfId(records, ParseInt(id)) == -1) && records != [] ==> r == Some(records[0])
      ensures r.None? <==> records == []
    {
      var i := IndexOfId(records, ParseInt(id));
      if apiOk && i != -1 {
        r := Some(records[i]);
      } else if records != [] {
        r := Some(records[0]);
      } else {
        r := None;
      }
    }

    /** `createProduct`: the next id, the defaults, and an append on success only. */
    method CreateProduct(req: CreateRequest, now: int, apiOk: bool) returns (p: Product)
      requires records != []
      modifies this
      ensures p == NewProduct(req, NextId(old(records)), now)
      ensures apiOk ==> records == old(records) + [p]
      ensures !apiOk ==> records == old(records)
      ensures UniqueIds(old(records)) ==> UniqueIds(records)
    {
      p := NewProduct(req, NextId(records), now);
      if apiOk {
        records := records + [p];
      }
    }

    /**
     * `updateProduct`: when the call succeeds and the parsed id is stored,
     * the request is merged over that product in place; otherwise nothing
     * changes and the demo fallback is returned.
     */
    method UpdateProduct(id: string, req: UpdateRequest, now: int, apiOk: bool) returns (r: UpdateReply)
      modifies this
      ensures var i := IndexOfId(old(records), ParseInt(id));
        if apiOk && i >= 0 then
          |records| == |old(records)| && records[i] == Updated(old(records)[i], req, now)
          && (forall j :: 0 <= j < |records| && j != i ==> records[j] == old(records)[j])
          && r == Stored(records[i])
        else records == old(records) && r == Fallback(ParseInt(id), req, now)
    {
      var pid := ParseInt(id);
      if apiOk {
        var i := IndexOfId(records, pid);
        if i != -1 {
          records := records[i := Updated(records[i], req, now)];
          r := Stored(records[i]);
          return;
        }
      }
      r := Fallback(pid, req, now);
    }

    /**
     * `deleteProduct`: a successful call returns the stub's missing `success`;
     * a failed call removes every product with the parsed id and reports
     * whether any was removed.
     */
    method DeleteProduct(id: string, apiOk: bool) returns (r: Option<bool>)
      modifies this
      ensures apiOk ==> r.None? && records == old(records)
      ensures !apiOk ==> records == Filter(old(records), NotId(ParseInt(id))) && r == Some(|records| != |old(records)|)
      ensures !apiOk ==> forall i :: 0 <= i < |records| ==> !HasId(records[i], ParseInt(id))
    {
      if apiOk {
        r := None;
      } else {
        var initialLength := |records|;
        records := Filter(records, NotId(ParseInt(id)));
        r := Some(initialLength != |records|);
      }
    }
  }

  /** After a successful listing the products are in ascending id order, and none is lost or added. */
  lemma ListingAscending(ps: seq<Product>)
    ensures var r := SortDesc(ps, NegId);
      multiset(r) == multiset(ps) && forall i, j :: 0 <= i < j < |r| ==> r[i].id <= r[j].id
  {
    SortDescSorted(ps, NegId);
    var r := SortDesc(ps, NegId);
    forall i, j | 0 <= i < j < |r| ensures r[i].id <= r[j].id {
      assert NegId(r[i]) >= NegId(r[j]);
    }
  }

  /** A created product's id is new, so creation keeps the ids unique. */
  lemma NextIdIsFresh(ps: seq<Product>, p: Product)
    requires ps != [] && UniqueIds(ps) && p.id == NextId(ps)
    ensures UniqueIds(ps + [p])
  {
    var q := ps + [p];
    forall i, j | 0 <= i < j < |q| ensures q[i].id != q[j].id {
      if j == |ps| {
        assert q[i] == ps[i];
      } else {
        assert q[i] == ps[i] && q[j] == ps[j];
      }
    }
  }

  /** `NaN` matches no product, so deleting with an id that is not a number removes nothing. */
  lemma NaNDeletesNothing(ps: seq<Product>, id: string)
    requires ParseInt(id).None?
    ensures Filter(ps, NotId(ParseInt(id))) == ps
  {
    FilterKeepsAll(ps, NotId(ParseInt(id)));
  }

  /** A failed deletion by a printed id reports a removal exactly when a product had that id. */
  lemma DeleteByPrintedId(ps: seq<Product>, n: nat)
    ensures |Filter(ps, NotId(ParseInt(NatToString(n))))| != |ps| <==> exists i :: 0 <= i < |ps| && ps[i].id == n
  {
    ParseIntOfNat(n);
    FilterDropsIff(ps, NotId(Some(n)));
  }
}
