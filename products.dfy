/** The product handlers of the back end: `createProduct` and `updateProduct` with
    their category check, and the `getBestSellers` ranking over the order items. */
module ProductCatalog {
  import opened Wrappers
  import opened JsStrings
  import opened Sorting
  import OrderLedger

  // ------------------------------------------------------------ records

  /** The product fields a request may carry; `None` is absent. */
  datatype ProductFields = ProductFields(
    name: Option<string>,
    title: Option<string>,
    description: Option<string>,
    price: Option<int>,
    stock: Option<int>,
    images: Option<seq<string>>,
    size: Option<seq<string>>,
    averageRating: Option<real>)

  datatype Product = Product(id: string, createdAt: nat, fields: ProductFields, category: string)

  datatype ProductRequest = ProductRequest(fields: ProductFields, category: Option<string>)

  /** A best-seller entry: the product and its `totalSold`. */
  datatype Ranked = Ranked(product: Product, totalSold: int)

  /** An entry of the aggregation: a product id and the summed quantity. */
  datatype Sold = Sold(product: string, totalSold: int)

  datatype ProductResponse =
    | Created(product: Product)          // 201
    | Ok(product: Product)               // 200
    | Ranking(entries: seq<Ranked>)      // 200
    | BadRequest(message: string)        // 400
    | NotFound(message: string)          // 404
    | ServerError(message: string)       // 500

  /** `mongoose.Types.ObjectId.isValid` on a string: 24 hexadecimal digits. */
  predicate IsValidObjectId(s: string) {
    |s| == 24 && forall i | 0 <= i < |s| :: IsHexDigit(s[i])
  }

  /** No two stored products share an id. */
  predicate UniqueIds(ps: seq<Product>) {
    forall i, j | 0 <= i < j < |ps| :: ps[i].id != ps[j].id
  }

  // ------------------------------------------------------------ create and update

  /** The refusal of `createProduct`, if any: a missing or malformed category id, then a
      category that does not exist. */
  function CreateRefusal(category: Option<string>, categories: set<string>): (m: Option<string>)
    ensures m.None? <==> category.Some? && IsValidObjectId(category.value) && category.value in categories
  {
    if category.None? || category.value == "" || !IsValidObjectId(category.value) then Some("Invalid category ID")
    else if category.value !in categories then Some("Category not found")
    else None
  }

  /** The refusal of `updateProduct`, if any: the category is checked only when truthy. */
  function UpdateRefusal(category: Option<string>, categories: set<string>): (m: Option<string>)
    ensures category.None? || category.value == "" ==> m.None?
    ensures category.Some? && category.value != "" ==> m == CreateRefusal(category, categories)
  {
    if category.None? || category.value == "" then None
    else if !IsValidObjectId(category.value) then Some("Invalid category ID")
    else if category.value !in categories then Some("Category not found")
    else None
  }

  /** `findByIdAndUpdate` with the body fields: an undefined field is left out of the
      update, any other overwrites. */
  function Merge(old_: ProductFields, body: ProductFields): ProductFields {
    ProductFields(
      if body.name.Some? then body.name else old_.name,
      if body.title.Some? then body.title else old_.title,
      if body.description.Some? then body.description else old_.description,
      if body.price.Some? then body.price else old_.price,
      if body.stock.Some? then body.stock else old_.stock,
      if body.images.Some? then body.images else old_.images,
      if body.size.Some? then body.size else old_.size,
      if body.averageRating.Some? then body.averageRating else old_.averageRating)
  }

  function Updated(p: Product, body: ProductRequest): Product {
    p.(fields := Merge(p.fields, body.fields),
       category := if body.category.Some? then body.category.value else p.category)
  }

  /** The index of the first product with the given id. */
  function IndexOfId(ps: seq<Product>, id: string): (r: Option<nat>)
    ensures r.Some? ==> r.value < |ps| && ps[r.value].id == id
                        && forall j | 0 <= j < r.value :: ps[j].id != id
    ensures r.None? ==> forall j | 0 <= j < |ps| :: ps[j].id != id
  {
    if ps == [] then None
    else if ps[0].id == id then Some(0)
    else
      var r := IndexOfId(ps[1..], id);
      if r.Some? then Some(r.value + 1) else None
  }

  // ------------------------------------------------------------ the best-seller ranking

  /** `parseInt(request.query.limit) || 20`: `NaN` and 0 fall back to 20. */
  function Limit(query: Option<string>): (n: int)
    ensures n != 0
  {
    var parsed := if query.None? then None else ParseInt(query.value);
    if parsed.None? || parsed.value == 0 then 20 else parsed.value
  }

  /** `$sum: "$quantity"` over the items of product `p`. */
  function SoldOf(items: seq<OrderLedger.OrderItem>, p: string): int {
    if items == [] then 0
    else
      var last := items[|items| - 1];
      SoldOf(items[..|items| - 1], p) + if last.product == p then last.quantity else 0
  }

  /** Some item is of product `p`. */
  predicate Sells(items: seq<OrderLedger.OrderItem>, p: string) {
    exists i | 0 <= i < |items| :: items[i].product == p
  }

  /** The products that occur in the items, each once, in order of first occurrence. */
  function SoldProducts(items: seq<OrderLedger.OrderItem>): (ps: seq<string>)
    ensures forall i, j | 0 <= i < j < |ps| :: ps[i] != ps[j]
  {
    if items == [] then []
    else
      var before := SoldProducts(items[..|items| - 1]);
      var p := items[|items| - 1].product;
      if p in before then before else before + [p]
  }

  /** The `$group` stage: one entry per product sold, with its summed quantity. */
  function Grouped(items: seq<OrderLedger.OrderItem>): (g: seq<Sold>)
    ensures |g| == |SoldProducts(items)|
    ensures forall i | 0 <= i < |g| :: g[i] == Sold(SoldProducts(items)[i], SoldOf(items, SoldProducts(items)[i]))
  {
    var ps := SoldProducts(items);
    seq(|ps|, i requires 0 <= i < |ps| => Sold(ps[i], SoldOf(items, ps[i])))
  }

  /** `$sort: { totalSold: -1 }`. */
  function BySold(): (Sold, Sold) -> bool {
    (a: Sold, b: Sold) => a.totalSold >= b.totalSold
  }

  /** The aggregation: grouped, sorted by `totalSold` descending, then `$limit`. */
  function SoldData(items: seq<OrderLedger.OrderItem>, limit: nat): seq<Sold> {
    Take(Sort(Grouped(items), BySold()), limit)
  }

  /** A missing rating sorts below every present one. */
  predicate RatingAbove(a: Option<real>, b: Option<real>) {
    a.Some? && (b.None? || a.value > b.value)
  }

  /** `sort({ averageRating: -1, createdAt: -1 })`. */
  function ByRatingThenNewest(): (Product, Product) -> bool {
    (a: Product, b: Product) =>
      RatingAbove(a.fields.averageRating, b.fields.averageRating)
      || (a.fields.averageRating == b.fields.averageRating && a.createdAt >= b.createdAt)
  }

  /** The fallback listing: every product by rating, then newest, capped, with
      `totalSold: 0`. */
  function Fallback(products: seq<Product>, limit: nat): (r: seq<Ranked>)
    ensures |r| == |Take(Sort(products, ByRatingThenNewest()), limit)|
    ensures forall i | 0 <= i < |r| :: r[i] == Ranked(Take(Sort(products, ByRatingThenNewest()), limit)[i], 0)
  {
    var top := Take(Sort(products, ByRatingThenNewest()), limit);
    seq(|top|, i requires 0 <= i < |top| => Ranked(top[i], 0))
  }

  /** The `soldData.forEach` that fills `totalSoldMap`, as a function: later entries
      overwrite earlier ones. */
  function SoldMap(data: seq<Sold>): map<string, int> {
    if data == [] then map[]
    else SoldMap(data[..|data| - 1])[data[|data| - 1].product := data[|data| - 1].totalSold]
  }

  /** `totalSoldMap[id] || 0`. */
  function SoldOrZero(m: map<string, int>, id: string): int {
    if id in m then m[id] else 0
  }

  /** The final `map` over the ranked ids, with `find` in the fetched products and
      `filter(Boolean)` dropping the ids that have no product. */
  function AttachProducts(ids: seq<string>, fetched: seq<Product>, m: map<string, int>): (r: seq<Ranked>)
    ensures |r| <= |ids|
  {
    if ids == [] then []
    else
      var rest := AttachProducts(ids[..|ids| - 1], fetched, m);
      var id := ids[|ids| - 1];
      var k := IndexOfId(fetched, id);
      if k.Some? then rest + [Ranked(fetched[k.value], SoldOrZero(m, id))] else rest
  }

  function Ids(data: seq<Sold>): (ids: seq<string>)
    ensures |ids| == |data| && forall i | 0 <= i < |data| :: ids[i] == data[i].product
  {
    seq(|data|, i requires 0 <= i < |data| => data[i].product)
  }

  /** What `getBestSellers` answers for the given store and order items. */
  function BestSellersResult(query: Option<string>, items: seq<OrderLedger.OrderItem>, products: seq<Product>): ProductResponse {
    var limit := Limit(query);
    if limit < 0 then ServerError("Server error while fetching best sellers")
    else
      var data := SoldData(items, limit);
      if data == [] then Ranking(Fallback(products, limit))
      else
        var ids := Ids(data);
        var fetched := OrderLedger.Filter(products, (p: Product) => p.id in ids);
        Ranking(AttachProducts(ids, fetched, SoldMap(data)))
  }

  /** `soldData.forEach(d => totalSoldMap[d._id] = d.totalSold)`. */
  method FillSoldMap(data: seq<Sold>) returns (m: map<string, int>)
    ensures m == SoldMap(data)
  {
    m := map[];
    var i := 0;
    while i < |data|
      invariant 0 <= i <= |data|
      invariant m == SoldMap(data[..i])
    {
      m := m[data[i].product := data[i].totalSold];
      assert data[..i + 1][..i] == data[..i];
      i := i + 1;
    }
    assert data[..i] == data;
  }

  // ------------------------------------------------------------ the store

  class ProductStore {
    var products: seq<Product>
    var categories: set<string>

    ghost predicate Valid()
      reads this
    {
      UniqueIds(products)
    }

    constructor (categories: set<string>)
      ensures Valid() && products == [] && this.categories == categories
    {
      products := [];
      this.categories := categories;
    }

    /** `createProduct`; the store's fresh id and the clock are parameters. */
    method CreateProduct(body: ProductRequest, freshId: string, now: nat) returns (r: ProductResponse)
      requires Valid()
      requires forall i | 0 <= i < |products| :: products[i].id != freshId
      modifies this
      ensures Valid() && categories == old(categories)
      ensures CreateRefusal(body.category, categories).Some? ==>
                r == BadRequest(CreateRefusal(body.category, categories).value) && products == old(products)
      ensures CreateRefusal(body.category, categories).None? ==>
                r == Created(Product(freshId, now, body.fields, body.category.value))
                && products == old(products) + [r.product]
    {
      var category := body.category;
      if category.None? || category.value == "" || !IsValidObjectId(category.value) {
        return BadRequest("Invalid category ID");
      }
      if category.value !in categories {
        return BadRequest("Category not found");
      }
      var p := Product(freshId, now, body.fields, category.value);
      products := products + [p];
      r := Created(p);
    }

    /** `updateProduct`. */
    method UpdateProduct(id: string, body: ProductRequest) returns (r: ProductResponse)
      requires Valid()
      modifies this
      ensures Valid() && categories == old(categories)
      ensures UpdateRefusal(body.category, categories).Some? ==>
                r == BadRequest(UpdateRefusal(body.category, categories).value) && products == old(products)
      ensures UpdateRefusal(body.category, categories).None? && IndexOfId(old(products), id).None? ==>
                r == NotFound("Product not found with this ID") && products == old(products)
      ensures UpdateRefusal(body.category, categories).None? && IndexOfId(old(products), id).Some? ==>
                var k := IndexOfId(old(products), id).value;
                r == Ok(Updated(old(products)[k], body))
                && products == old(products)[k := r.product]
    {
      var category := body.category;
      if category.Some? && category.value != "" {
        if !IsValidObjectId(category.value) {
          return BadRequest("Invalid category ID");
        }
        if category.value !in categories {
          return BadRequest("Category not found");
        }
      }
      var k := IndexOfId(products, id);
      if k.None? {
        return NotFound("Product not found with this ID");
      }
      var p := Updated(products[k.value], body);
      products := products[k.value := p];
      assert forall i | 0 <= i < |products| :: products[i].id == old(products)[i].id;
      r := Ok(p);
    }

    /** `getBestSellers`. */
    method BestSellers(query: Option<string>, items: seq<OrderLedger.OrderItem>) returns (r: ProductResponse)
      ensures r == BestSellersResult(query, items, products)
    {
      var limit := Limit(query);
      if limit < 0 {
        return ServerError("Server error while fetching best sellers");
      }
      var data := SoldData(items, limit);
      if data == [] {
        return Ranking(Fallback(products, limit));
      }
      var ids := Ids(data);
      var m := FillSoldMap(data);
      var fetched := OrderLedger.Filter(products, (p: Product) => p.id in ids);
      r := Ranking(AttachProducts(ids, fetched, m));
    }
  }

  // ------------------------------------------------------------ lemmas: create and update

  /** An update body with no fields and no category leaves the product as it was;
      applying the same body twice is the same as once; `averageRating` is copied. */
  lemma UpdateLaws(p: Product, body: ProductRequest)
    ensures Updated(p, ProductRequest(ProductFields(None, None, None, None, None, None, None, None), None)) == p
    ensures Updated(Updated(p, body), body) == Updated(p, body)
    ensures body.fields.averageRating.Some? ==> Updated(p, body).fields.averageRating == body.fields.averageRating
    ensures Updated(p, body).id == p.id && Updated(p, body).createdAt == p.createdAt
  {
  }

  /** A malformed id such as the empty string, or one of the wrong length, is refused on
      create as "Invalid category ID", and ignored on update only when it is empty. */
  lemma CategoryChecks(categories: set<string>)
    ensures CreateRefusal(None, categories) == Some("Invalid category ID")
    ensures CreateRefusal(Some(""), categories) == Some("Invalid category ID")
    ensures CreateRefusal(Some("abc"), categories) == Some("Invalid category ID")
    ensures UpdateRefusal(Some("abc"), categories) == Some("Invalid category ID")
    ensures UpdateRefusal(Some(""), categories) == None && UpdateRefusal(None, categories) == None
  {
  }

  // ------------------------------------------------------------ lemmas: the ranking

  /** An absent or unreadable limit, or 0, is 20; a number is read as `parseInt` reads
      it. */
  lemma LimitCases(n: nat)
    ensures Limit(None) == 20 && Limit(Some("")) == 20 && Limit(Some("abc")) == 20
    ensures Limit(Some(NatToString(n))) == if n == 0 then 20 else n
  {
    LimitFallbacks();
    ParseIntOfNatToString(n);
  }

  lemma LimitFallbacks()
    ensures Limit(None) == 20 && Limit(Some("")) == 20 && Limit(Some("abc")) == 20
  {
    var t := "abc";
    assert !IsSpace(t[0]) && t[0] != '-' && t[0] != '+';
    assert TrimStart(t) == t;
    assert ParseUnsigned(t) == None by {
      assert t[0] != '0' && !IsDigit(t[0]);
      assert DigitPrefix(t) == [];
    }
    assert ParseInt(t) == None;
    assert ParseInt("") == None;
  }

  lemma BySoldIsOrder()
    ensures Total(BySold()) && Transitive(BySold())
  {
  }

  lemma ByRatingIsOrder()
    ensures Total(ByRatingThenNewest()) && Transitive(ByRatingThenNewest())
  {
  }

  lemma SellsSnoc(items: seq<OrderLedger.OrderItem>, p: string)
    requires items != []
    ensures Sells(items, p) <==> Sells(items[..|items| - 1], p) || items[|items| - 1].product == p
  {
    var n := |items| - 1;
    if Sells(items, p) && items[n].product != p {
      var i :| 0 <= i < |items| && items[i].product == p;
      assert items[..n][i] == items[i];
    }
    if Sells(items[..n], p) {
      var i :| 0 <= i < n && items[..n][i].product == p;
      assert items[i] == items[..n][i];
    }
  }

  /** The grouped products are exactly the products that occur in the items. */
  lemma {:induction false} SoldProductsSpec(items: seq<OrderLedger.OrderItem>)
    ensures forall p :: p in SoldProducts(items) <==> Sells(items, p)
  {
    if items != [] {
      SoldProductsSpec(items[..|items| - 1]);
      forall p ensures Sells(items, p) <==> Sells(items[..|items| - 1], p) || items[|items| - 1].product == p {
        SellsSnoc(items, p);
      }
    }
  }

  /** Each grouped entry carries the summed quantity of its product; every sold product
      has exactly one entry. */
  lemma GroupedSpec(items: seq<OrderLedger.OrderItem>)
    ensures forall e | e in Grouped(items) :: e.totalSold == SoldOf(items, e.product)
    ensures forall p :: Sells(items, p) <==> exists k | 0 <= k < |Grouped(items)| :: Grouped(items)[k].product == p
    ensures forall i, j | 0 <= i < j < |Grouped(items)| :: Grouped(items)[i].product != Grouped(items)[j].product
  {
    var g := Grouped(items);
    var ps := SoldProducts(items);
    SoldProductsSpec(items);
    forall p | Sells(items, p)
      ensures exists k | 0 <= k < |g| :: g[k].product == p
    {
      var k :| 0 <= k < |ps| && ps[k] == p;
      assert g[k].product == p;
    }
  }

  /** The aggregation has at most `limit` entries, in descending `totalSold`. */
  lemma SoldDataOrdered(items: seq<OrderLedger.OrderItem>, limit: nat)
    ensures |SoldData(items, limit)| <= limit
    ensures SortedBy(SoldData(items, limit), BySold())
  {
    var sorted := Sort(Grouped(items), BySold());
    BySoldIsOrder();
    SortSorted(Grouped(items), BySold());
    assert SoldData(items, limit) == sorted[..|SoldData(items, limit)|];
  }

  /** Each entry of the aggregation carries its product's summed quantity, and no
      product has two entries. */
  lemma SoldDataEntries(items: seq<OrderLedger.OrderItem>, limit: nat)
    ensures forall e | e in SoldData(items, limit) :: e.totalSold == SoldOf(items, e.product)
    ensures forall i, j | 0 <= i < j < |SoldData(items, limit)| ::
              SoldData(items, limit)[i].product != SoldData(items, limit)[j].product
  {
    var g := Grouped(items);
    var sorted := Sort(g, BySold());
    var data := SoldData(items, limit);
    GroupedSpec(items);
    assert data == sorted[..|data|];
    forall e | e in data ensures e.totalSold == SoldOf(items, e.product) {
      assert e in multiset(sorted);
      assert e in multiset(g);
    }
    forall i, j | 0 <= i < j < |data| ensures data[i].product != data[j].product {
      DistinctAfterPermutation(g, sorted, i, j);
    }
  }

  /** Every sold product that the limit cuts off sold no more than any product kept. */
  lemma SoldDataTop(items: seq<OrderLedger.OrderItem>, limit: nat)
    ensures forall p, k | 0 <= k < |SoldData(items, limit)| && p !in Ids(SoldData(items, limit))
              && Sells(items, p) ::
              SoldOf(items, p) <= SoldData(items, limit)[k].totalSold
  {
    var g := Grouped(items);
    var sorted := Sort(g, BySold());
    var data := SoldData(items, limit);
    BySoldIsOrder();
    SortSorted(g, BySold());
    GroupedSpec(items);
    TakeKeepsTop(sorted, limit, BySold());
    forall p, k | 0 <= k < |data| && p !in Ids(data) && Sells(items, p)
      ensures SoldOf(items, p) <= data[k].totalSold
    {
      var m :| 0 <= m < |g| && g[m].product == p;
      assert g[m] in multiset(sorted);
      var j :| 0 <= j < |sorted| && sorted[j] == g[m];
      assert j >= |data| by {
        assert forall x | 0 <= x < |data| :: Ids(data)[x] == sorted[x].product;
      }
      assert BySold()(sorted[k], sorted[j]);
    }
  }

  /** With at least one slot, the aggregation is empty exactly when there are no order
      items, which is when the fallback listing is used. */
  lemma SoldDataEmpty(items: seq<OrderLedger.OrderItem>, limit: nat)
    requires limit > 0
    ensures SoldData(items, limit) == [] <==> items == []
  {
    if items != [] {
      GroupedSpec(items);
      assert Sells(items, items[0].product);
    }
  }

  /** With distinct products, the filled map sends each ranked product to its
      `totalSold` and holds no other key. */
  lemma {:induction false} SoldMapSpec(data: seq<Sold>)
    requires forall i, j | 0 <= i < j < |data| :: data[i].product != data[j].product
    ensures forall i | 0 <= i < |data| :: SoldOrZero(SoldMap(data), data[i].product) == data[i].totalSold
    ensures forall p :: p in SoldMap(data) <==> p in Ids(data)
  {
    if data != [] {
      var n := |data| - 1;
      SoldMapSpec(data[..n]);
      assert Ids(data) == Ids(data[..n]) + [data[n].product];
      forall i | 0 <= i < n ensures SoldOrZero(SoldMap(data), data[i].product) == data[i].totalSold {
        assert data[..n][i] == data[i];
      }
    }
  }

  /** The ids of a result, in order. */
  function RankedIds(r: seq<Ranked>): (ids: seq<string>)
    ensures |ids| == |r| && forall i | 0 <= i < |r| :: ids[i] == r[i].product.id
  {
    seq(|r|, i requires 0 <= i < |r| => r[i].product.id)
  }

  /** Each joined entry is a fetched product with a ranked id and that id's count. */
  lemma {:induction false} AttachEntries(ids: seq<string>, fetched: seq<Product>, m: map<string, int>)
    ensures forall e | e in AttachProducts(ids, fetched, m) ::
              e.product in fetched && e.product.id in ids && e.totalSold == SoldOrZero(m, e.product.id)
  {
    if ids != [] {
      AttachEntries(ids[..|ids| - 1], fetched, m);
    }
  }

  /** The join keeps the ranked ids that have a product, in ranking order, and drops the
      rest. */
  lemma {:induction false} AttachIds(ids: seq<string>, fetched: seq<Product>, m: map<string, int>)
    ensures RankedIds(AttachProducts(ids, fetched, m))
            == OrderLedger.Filter(ids, (id: string) => IndexOfId(fetched, id).Some?)
  {
    if ids != [] {
      var n := |ids| - 1;
      AttachIds(ids[..n], fetched, m);
      var rest := AttachProducts(ids[..n], fetched, m);
      var k := IndexOfId(fetched, ids[n]);
      if k.Some? {
        assert RankedIds(rest + [Ranked(fetched[k.value], SoldOrZero(m, ids[n]))]) == RankedIds(rest) + [ids[n]];
      }
    }
  }

  predicate DescendingSold(r: seq<Ranked>) {
    forall a, b | 0 <= a < b < |r| :: r[a].totalSold >= r[b].totalSold
  }

  /** Ranked ids in descending count give joined entries in descending `totalSold`. */
  lemma {:induction false} AttachSorted(ids: seq<string>, fetched: seq<Product>, m: map<string, int>)
    requires forall a, b | 0 <= a < b < |ids| :: SoldOrZero(m, ids[a]) >= SoldOrZero(m, ids[b])
    ensures DescendingSold(AttachProducts(ids, fetched, m))
  {
    if ids != [] {
      var n := |ids| - 1;
      AttachSorted(ids[..n], fetched, m);
      AttachEntries(ids[..n], fetched, m);
      var rest := AttachProducts(ids[..n], fetched, m);
      var k := IndexOfId(fetched, ids[n]);
      if k.Some? {
        var r := rest + [Ranked(fetched[k.value], SoldOrZero(m, ids[n]))];
        assert AttachProducts(ids, fetched, m) == r;
        forall a, b | 0 <= a < b < |r| ensures r[a].totalSold >= r[b].totalSold {
          if b < |rest| {
            assert r[a] == rest[a] && r[b] == rest[b];
          } else {
            assert r[a] == rest[a] && r[b].totalSold == SoldOrZero(m, ids[n]);
            assert rest[a] in rest;
            var x :| 0 <= x < n && ids[..n][x] == rest[a].product.id;
            assert ids[x] == ids[..n][x];
          }
        }
      }
    }
  }

  /** Some stored product has the id. */
  predicate Stocked(products: seq<Product>, id: string) {
    exists j | 0 <= j < |products| :: products[j].id == id
  }

  /** A ranked id is found among the `$in` fetch exactly when the store has it. */
  lemma FetchedIffStocked(products: seq<Product>, ids: seq<string>, id: string)
    requires id in ids
    ensures IndexOfId(OrderLedger.Filter(products, (p: Product) => p.id in ids), id).Some? <==> Stocked(products, id)
  {
    var fetched := OrderLedger.Filter(products, (p: Product) => p.id in ids);
    if Stocked(products, id) {
      var j :| 0 <= j < |products| && products[j].id == id;
      assert products[j] in fetched;
      var x :| 0 <= x < |fetched| && fetched[x] == products[j];
    }
    var k := IndexOfId(fetched, id);
    if k.Some? {
      assert fetched[k.value] in products;
      var j :| 0 <= j < |products| && products[j] == fetched[k.value];
    }
  }

  /** With sales on record, the answer lists at most `limit` products, all stored, in
      descending `totalSold`, each with its summed quantity; it is the aggregation's
      ids in order with those that have no product dropped. */
  lemma BestSellersRanked(query: Option<string>, items: seq<OrderLedger.OrderItem>, products: seq<Product>)
    requires Limit(query) > 0 && items != []
    ensures BestSellersResult(query, items, products).Ranking?
    ensures var r := BestSellersResult(query, items, products).entries;
            |r| <= Limit(query)
            && DescendingSold(r)
            && (forall e | e in r :: e.product in products && Sells(items, e.product.id)
                                    && e.totalSold == SoldOf(items, e.product.id))
            && RankedIds(r) == OrderLedger.Filter(Ids(SoldData(items, Limit(query))), (id: string) => Stocked(products, id))
  {
    var limit := Limit(query);
    var data := SoldData(items, limit);
    SoldDataEmpty(items, limit);
    SoldDataOrdered(items, limit);
    SoldDataEntries(items, limit);
    var ids := Ids(data);
    var fetched := OrderLedger.Filter(products, (p: Product) => p.id in ids);
    var m := SoldMap(data);
    SoldMapSpec(data);
    var r := AttachProducts(ids, fetched, m);
    assert BestSellersResult(query, items, products) == Ranking(r);
    forall a, b | 0 <= a < b < |ids| ensures SoldOrZero(m, ids[a]) >= SoldOrZero(m, ids[b]) {
      assert BySold()(data[a], data[b]);
    }
    AttachSorted(ids, fetched, m);
    AttachEntries(ids, fetched, m);
    AttachIds(ids, fetched, m);
    forall e | e in r ensures e.product in products && Sells(items, e.product.id) && e.totalSold == SoldOf(items, e.product.id) {
      var x :| 0 <= x < |ids| && ids[x] == e.product.id;
      assert data[x] in data;
      GroupedSpec(items);
      assert data[x] in multiset(Sort(Grouped(items), BySold()));
      assert e.product in fetched;
    }
    FilterSame(ids, (id: string) => IndexOfId(fetched, id).Some?, (id: string) => Stocked(products, id)) by {
      forall id | id in ids ensures IndexOfId(fetched, id).Some? <==> Stocked(products, id) {
        FetchedIffStocked(products, ids, id);
      }
    }
  }

  /** Filtering by two tests that agree on the list gives the same result. */
  lemma {:induction false} FilterSame(s: seq<string>, f: string -> bool, g: string -> bool)
    requires forall x | x in s :: f(x) == g(x)
    ensures OrderLedger.Filter(s, f) == OrderLedger.Filter(s, g)
  {
    if s != [] {
      FilterSame(s[..|s| - 1], f, g);
    }
  }

  /** With no sales on record, the answer is the stored products by rating, then newest,
      capped at `limit`, each with `totalSold` 0. */
  lemma BestSellersFallback(query: Option<string>, products: seq<Product>)
    requires Limit(query) > 0
    ensures BestSellersResult(query, [], products) == Ranking(Fallback(products, Limit(query)))
    ensures var r := Fallback(products, Limit(query));
            |r| == (if Limit(query) < |products| then Limit(query) else |products|)
            && (forall a, b | 0 <= a < b < |r| :: ByRatingThenNewest()(r[a].product, r[b].product))
            && (forall e | e in r :: e.product in products && e.totalSold == 0)
  {
    var limit := Limit(query);
    SoldDataEmpty([], limit);
    var sorted := Sort(products, ByRatingThenNewest());
    ByRatingIsOrder();
    SortSorted(products, ByRatingThenNewest());
    var r := Fallback(products, limit);
    forall e | e in r ensures e.product in products && e.totalSold == 0 {
      var i :| 0 <= i < |r| && r[i] == e;
      assert sorted[i] in multiset(products);
    }
  }

  /** A limit that reads as a negative number makes the `$limit` stage fail. */
  lemma BestSellersNegativeLimit(query: string, items: seq<OrderLedger.OrderItem>, products: seq<Product>)
    requires ParseInt(query).Some? && ParseInt(query).value < 0
    ensures Limit(Some(query)) < 0
    ensures BestSellersResult(Some(query), items, products)
            == ServerError("Server error while fetching best sellers")
  {
  }

  /** Reordering a list whose products are distinct keeps them distinct. */
  lemma DistinctAfterPermutation(g: seq<Sold>, s: seq<Sold>, i: nat, j: nat)
    requires multiset(s) == multiset(g)
    requires forall a, b | 0 <= a < b < |g| :: g[a].product != g[b].product
    requires i < j < |s|
    ensures s[i].product != s[j].product
  {
    if s[i].product == s[j].product {
      assert s[i] in multiset(g) && s[j] in multiset(g);
      var a :| 0 <= a < |g| && g[a] == s[i];
      var b :| 0 <= b < |g| && g[b] == s[j];
      if a == b {
        // the same entry twice in `s` means it occurs twice in `g`
        assert s[i] == s[j];
        MultiplicityTwo(s, i, j);
        assert multiset(g)[g[a]] >= 2;
        OnlyOnce(g, a);
      }
    }
  }

  lemma MultiplicityTwo<T>(s: seq<T>, i: nat, j: nat)
    requires i < j < |s| && s[i] == s[j]
    ensures multiset(s)[s[i]] >= 2
  {
    assert s == s[..j] + [s[j]] + s[j + 1..];
    assert s[..j] == s[..i] + [s[i]] + s[i + 1..j];
    assert multiset(s[..j])[s[i]] >= 1;
  }

  /** An entry of a list with distinct products occurs in it once. */
  lemma {:induction false} OnlyOnce(g: seq<Sold>, a: nat)
    requires a < |g|
    requires forall x, y | 0 <= x < y < |g| :: g[x].product != g[y].product
    ensures multiset(g)[g[a]] == 1
  {
    assert g == g[..a] + [g[a]] + g[a + 1..];
    var rest := g[..a] + g[a + 1..];
    forall k | 0 <= k < |rest| ensures rest[k] != g[a] {
      if k < a {
        assert rest[k] == g[k];
      } else {
        assert rest[k] == g[k + 1];
      }
    }
    NotCounted(rest, g[a]);
    assert multiset(g) == multiset(g[..a]) + multiset{g[a]} + multiset(g[a + 1..]);
  }

  lemma NotCounted<T>(s: seq<T>, x: T)
    requires forall k | 0 <= k < |s| :: s[k] != x
    ensures multiset(s)[x] == 0
  {
  }
}
