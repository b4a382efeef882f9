/** The order and product routers: which handler, behind which gates, serves each verb
    and path. A router tries its routes in registration order and dispatches to the
    first whose verb and pattern match. */
module Routes {
  import opened Wrappers

  datatype Verb = Get | Post | Put | Delete

  /** A path pattern segment: a literal, or a placeholder such as `:id`, which matches
      any one non-empty segment. */
  datatype Segment = Lit(text: string) | Param(name: string)

  /** A middleware in front of a handler. */
  datatype Gate = Authenticate | RequireAdmin | RequirePermission(key: string)

  datatype Handler =
    | GetMyOrders | GetAllOrders | GetOrderById | CreateOrder | UpdateOrder | DeleteOrder
    | GetAllProducts | GetProductById | CreateProduct | UpdateProduct | DeleteProduct

  datatype Route = Route(verb: Verb, pattern: seq<Segment>, gates: seq<Gate>, handler: Handler)

  const ManageOrders := RequirePermission("manage_orders")

  /** The order router, in registration order. */
  const OrderRoutes: seq<Route> := [
    Route(Get, [Lit("my")], [Authenticate], GetMyOrders),
    Route(Get, [], [ManageOrders], GetAllOrders),
    Route(Get, [Param("id")], [ManageOrders], GetOrderById),
    Route(Post, [], [], CreateOrder),
    Route(Put, [Param("id")], [ManageOrders], UpdateOrder),
    Route(Delete, [Param("id")], [ManageOrders], DeleteOrder)
  ]

  /** The product router, in registration order. */
  const ProductRoutes: seq<Route> := [
    Route(Get, [], [], GetAllProducts),
    Route(Get, [Param("id")], [], GetProductById),
    Route(Post, [], [Authenticate, RequireAdmin], CreateProduct),
    Route(Put, [Param("id")], [Authenticate, RequireAdmin], UpdateProduct),
    Route(Delete, [Param("id")], [Authenticate, RequireAdmin], DeleteProduct)
  ]

  predicate SegmentMatches(p: Segment, s: string) {
    match p
    case Lit(t) => s == t
    case Param(_) => s != ""
  }

  predicate Matches(r: Route, verb: Verb, path: seq<string>) {
    r.verb == verb && |r.pattern| == |path|
    && forall i | 0 <= i < |path| :: SegmentMatches(r.pattern[i], path[i])
  }

  /** The index of the first route of `table` at or after `from` that matches. */
  function FirstMatchFrom(table: seq<Route>, verb: Verb, path: seq<string>, from: nat): (r: Option<nat>)
    requires from <= |table|
    ensures r.Some? ==> from <= r.value < |table| && Matches(table[r.value], verb, path)
    ensures forall j | from <= j < (if r.Some? then r.value else |table|) :: !Matches(table[j], verb, path)
    decreases |table| - from
  {
    if from == |table| then None
    else if Matches(table[from], verb, path) then Some(from)
    else FirstMatchFrom(table, verb, path, from + 1)
  }

  /** The route a request is dispatched to: the first that matches, if any. */
  function Dispatch(table: seq<Route>, verb: Verb, path: seq<string>): (r: Option<Route>)
    ensures r.None? ==> forall i | 0 <= i < |table| :: !Matches(table[i], verb, path)
  {
    var i := FirstMatchFrom(table, verb, path, 0);
    if i.Some? then Some(table[i.value]) else None
  }

  /** A request goes to route `i` exactly when route `i` matches and no earlier one
      does. */
  lemma DispatchTo(table: seq<Route>, verb: Verb, path: seq<string>, i: nat)
    requires i < |table| && Matches(table[i], verb, path)
    requires forall j | 0 <= j < i :: !Matches(table[j], verb, path)
    ensures FirstMatchFrom(table, verb, path, 0) == Some(i)
    ensures Dispatch(table, verb, path) == Some(table[i])
  {
  }

  /** `GET /my` reaches its own handler behind authentication only: it is registered
      before `/:id`, so it is never taken for an id. */
  lemma MyOrdersFirst()
    ensures Dispatch(OrderRoutes, Get, ["my"]) == Some(Route(Get, [Lit("my")], [Authenticate], GetMyOrders))
  {
    DispatchTo(OrderRoutes, Get, ["my"], 0);
  }

  /** Listing the orders, and reading, updating or deleting one by id, require the
      `manage_orders` permission; creating one has no gate. Only `GET /my` has its own
      route: `PUT /my` and `DELETE /my` reach the by-id handlers. */
  lemma OrderGates(id: string)
    requires id != ""
    ensures Dispatch(OrderRoutes, Get, []) == Some(OrderRoutes[1]) && OrderRoutes[1].gates == [ManageOrders]
    ensures id != "my" ==> Dispatch(OrderRoutes, Get, [id]) == Some(OrderRoutes[2])
    ensures OrderRoutes[2].gates == [ManageOrders]
    ensures Dispatch(OrderRoutes, Post, []) == Some(OrderRoutes[3]) && OrderRoutes[3].gates == []
    ensures Dispatch(OrderRoutes, Put, [id]) == Some(OrderRoutes[4]) && OrderRoutes[4].gates == [ManageOrders]
    ensures Dispatch(OrderRoutes, Delete, [id]) == Some(OrderRoutes[5]) && OrderRoutes[5].gates == [ManageOrders]
  {
    DispatchTo(OrderRoutes, Get, [], 1);
    if id != "my" {
      assert !SegmentMatches(OrderRoutes[0].pattern[0], [id][0]);
      DispatchTo(OrderRoutes, Get, [id], 2);
    }
    DispatchTo(OrderRoutes, Post, [], 3);
    DispatchTo(OrderRoutes, Put, [id], 4);
    DispatchTo(OrderRoutes, Delete, [id], 5);
  }

  /** Reading the products needs nothing; creating, updating and deleting one need
      authentication followed by the admin check. */
  lemma ProductGates(id: string)
    requires id != ""
    ensures Dispatch(ProductRoutes, Get, []) == Some(ProductRoutes[0]) && ProductRoutes[0].gates == []
    ensures Dispatch(ProductRoutes, Get, [id]) == Some(ProductRoutes[1]) && ProductRoutes[1].gates == []
    ensures Dispatch(ProductRoutes, Post, []) == Some(ProductRoutes[2])
    ensures Dispatch(ProductRoutes, Put, [id]) == Some(ProductRoutes[3])
    ensures Dispatch(ProductRoutes, Delete, [id]) == Some(ProductRoutes[4])
    ensures forall i | 2 <= i < 5 :: ProductRoutes[i].gates == [Authenticate, RequireAdmin]
  {
    DispatchTo(ProductRoutes, Get, [], 0);
    DispatchTo(ProductRoutes, Get, [id], 1);
    DispatchTo(ProductRoutes, Post, [], 2);
    DispatchTo(ProductRoutes, Put, [id], 3);
    DispatchTo(ProductRoutes, Delete, [id], 4);
  }

  /** Every route that changes products is behind the admin check. */
  lemma ProductWritesAdminOnly(verb: Verb, path: seq<string>)
    requires verb != Get
    requires Dispatch(ProductRoutes, verb, path).Some?
    ensures RequireAdmin in Dispatch(ProductRoutes, verb, path).value.gates
  {
  }
}
