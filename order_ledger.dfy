/** The order schema and the order handlers of the back end, over an in-memory store
    of orders (by id), order items and payments. Saving an order runs the schema's
    validators: the user is required, `totalAmount` must be at least 0 and `status`
    must be one of five values; a save that fails them throws, which the handlers turn
    into a 500. */
module OrderLedger {
  import opened Wrappers

  // ------------------------------------------------------------ records

  /** One line of a request's `items`. */
  datatype Line = Line(product: string, quantity: int, price: int)

  /** A stored order item, pointing at its order. */
  datatype OrderItem = OrderItem(order: nat, product: string, quantity: int, price: int)

  /** A stored payment, pointing at its order. */
  datatype Payment = Payment(order: nat)

  /** An order as the handlers see it. Only `user`, `totalAmount` and `status` are
      declared in the schema; the handlers also read and write the other four. */
  datatype Order = Order(
    user: string,
    totalAmount: int,
    status: string,
    email: Option<string>,
    shippingAddress: Option<string>,
    paymentMethod: Option<string>,
    shippingFee: Option<int>)

  /** A request body; `None` is a field the body does not carry. `items` is `None` also
      when it is not an array. */
  datatype OrderRequest = OrderRequest(
    user: Option<string>,
    items: Option<seq<Line>>,
    status: Option<string>,
    email: Option<string>,
    shippingAddress: Option<string>,
    paymentMethod: Option<string>,
    shippingFee: Option<int>)

  datatype Response =
    | Created(id: nat, order: Order, items: seq<OrderItem>)   // 201
    | Found(order: Order, items: seq<OrderItem>)              // 200
    | Updated(order: Order, replaced: Option<seq<OrderItem>>) // 200, `items: null` when None
    | Deleted(order: Order)                                   // 200
    | BadRequest(message: string)                             // 400
    | NotFound(message: string)                               // 404
    | ServerError(message: string)                            // 500

  // ------------------------------------------------------------ the schema

  const Statuses: seq<string> := ["pending", "paid", "shipped", "completed", "cancelled"]
  const DefaultStatus := "pending"

  /** What the validators demand of an order before it is saved. */
  predicate SchemaValid(o: Order) {
    o.user != "" && o.totalAmount >= 0 && o.status in Statuses
  }

  /** A present, non-empty string: JavaScript truthiness of a string field. */
  predicate Truthy(s: Option<string>) {
    s.Some? && s.value != ""
  }

  // ------------------------------------------------------------ totals

  /** `computeTotal`: `items.reduce((sum, item) => sum + item.price * item.quantity, 0)`. */
  function ComputeTotal(lines: seq<Line>): int {
    if lines == [] then 0
    else ComputeTotal(lines[..|lines| - 1]) + lines[|lines| - 1].price * lines[|lines| - 1].quantity
  }

  /** The same sum taken from the front: a reference definition for `ComputeTotal`. */
  function SumFromFront(lines: seq<Line>): int {
    if lines == [] then 0 else lines[0].price * lines[0].quantity + SumFromFront(lines[1..])
  }

  /** The sum of `price * quantity` over the stored items of order `id`. */
  function OrderTotal(items: seq<OrderItem>, id: nat): int {
    if items == [] then 0
    else
      var last := items[|items| - 1];
      OrderTotal(items[..|items| - 1], id) + if last.order == id then last.price * last.quantity else 0
  }

  /** Every stored order's total is the sum over its stored items. */
  ghost predicate TotalsConsistent(orders: map<nat, Order>, items: seq<OrderItem>) {
    forall id | id in orders :: orders[id].totalAmount == OrderTotal(items, id)
  }

  // ------------------------------------------------------------ pure building blocks

  /** The elements of `s` that satisfy `keep`, in order: a `deleteMany` keeps the rest. */
  function Filter<T(!new)>(s: seq<T>, keep: T -> bool): (r: seq<T>)
    ensures |r| <= |s|
    ensures forall x :: x in r <==> x in s && keep(x)
  {
    if s == [] then []
    else
      var rest := Filter(s[..|s| - 1], keep);
      assert forall x :: x in s <==> x in s[..|s| - 1] || x == s[|s| - 1];
      if keep(s[|s| - 1]) then rest + [s[|s| - 1]] else rest
  }

  function ItemsOfOrder(items: seq<OrderItem>, id: nat): seq<OrderItem> {
    Filter(items, (x: OrderItem) => x.order == id)
  }

  function ItemsWithout(items: seq<OrderItem>, id: nat): seq<OrderItem> {
    Filter(items, (x: OrderItem) => x.order != id)
  }

  function PaymentsWithout(payments: seq<Payment>, id: nat): seq<Payment> {
    Filter(payments, (p: Payment) => p.order != id)
  }

  /** The `insertMany` payload: one item per line, same product, quantity and price, all
      pointing at order `id`. */
  function ItemsFor(id: nat, lines: seq<Line>): (r: seq<OrderItem>)
    ensures |r| == |lines|
    ensures forall i | 0 <= i < |lines| ::
              r[i] == OrderItem(id, lines[i].product, lines[i].quantity, lines[i].price)
  {
    if lines == [] then []
    else
      var l := lines[|lines| - 1];
      ItemsFor(id, lines[..|lines| - 1]) + [OrderItem(id, l.product, l.quantity, l.price)]
  }

  /** `req.userId || user`. */
  function Requester(reqUserId: Option<string>, body: OrderRequest): Option<string> {
    if Truthy(reqUserId) then reqUserId else body.user
  }

  /** `!userId || !Array.isArray(items) || items.length === 0`. */
  predicate CreateRejected(reqUserId: Option<string>, body: OrderRequest) {
    !Truthy(Requester(reqUserId, body)) || body.items.None? || body.items.value == []
  }

  /** The order `createOrder` builds; an absent status takes the schema default. */
  function NewOrder(user: string, lines: seq<Line>, body: OrderRequest): (o: Order)
    ensures o.user == user && o.totalAmount == ComputeTotal(lines)
    ensures o.status == if body.status.None? then DefaultStatus else body.status.value
  {
    Order(user, ComputeTotal(lines), body.status.GetOr(DefaultStatus),
          body.email, body.shippingAddress, body.paymentMethod, body.shippingFee)
  }

  /** The field assignments of `updateOrder`: `user`, `status` and `paymentMethod` when
      truthy; `email`, `shippingAddress` and `shippingFee` when not undefined. */
  function Patch(o: Order, body: OrderRequest): Order {
    o.(user := if Truthy(body.user) then body.user.value else o.user,
       status := if Truthy(body.status) then body.status.value else o.status,
       email := if body.email.Some? then body.email else o.email,
       shippingAddress := if body.shippingAddress.Some? then body.shippingAddress else o.shippingAddress,
       paymentMethod := if Truthy(body.paymentMethod) then body.paymentMethod else o.paymentMethod,
       shippingFee := if body.shippingFee.Some? then body.shippingFee else o.shippingFee)
  }

  /** `Array.isArray(items) && items.length > 0`. */
  predicate ReplacesItems(body: OrderRequest) {
    body.items.Some? && body.items.value != []
  }

  /** The order `updateOrder` tries to save: patched, and with the total recomputed when
      the body replaces the items. */
  function UpdatedOrder(o: Order, body: OrderRequest): Order {
    var p := Patch(o, body);
    if ReplacesItems(body) then p.(totalAmount := ComputeTotal(body.items.value)) else p
  }

  /** The item collection after `updateOrder`'s `deleteMany` and `insertMany`. */
  function ItemsAfterUpdate(items: seq<OrderItem>, id: nat, body: OrderRequest): seq<OrderItem> {
    if ReplacesItems(body) then ItemsWithout(items, id) + ItemsFor(id, body.items.value) else items
  }

  // ------------------------------------------------------------ the store

  class OrderStore {
    var orders: map<nat, Order>
    var items: seq<OrderItem>
    var payments: seq<Payment>
    var nextId: nat

    /** Ids come from a counter, every stored order passed the validators, and every item
        and payment points at a stored order. */
    ghost predicate Valid()
      reads this
    {
      (forall id | id in orders :: id < nextId && SchemaValid(orders[id]))
      && (forall x | x in items :: x.order in orders)
      && (forall p | p in payments :: p.order in orders)
    }

    constructor ()
      ensures Valid() && orders == map[] && items == [] && payments == []
    {
      orders := map[];
      items := [];
      payments := [];
      nextId := 0;
    }

    /** `getOrderById`. */
    method GetOrderById(id: nat) returns (r: Response)
      ensures id !in orders ==> r == NotFound("Order not found")
      ensures id in orders ==> r == Found(orders[id], ItemsOfOrder(items, id))
    {
      if id !in orders {
        return NotFound("Order not found");
      }
      r := Found(orders[id], ItemsOfOrder(items, id));
    }

    /** `createOrder`. */
    method CreateOrder(reqUserId: Option<string>, body: OrderRequest) returns (r: Response)
      requires Valid()
      modifies this
      ensures Valid()
      ensures CreateRejected(reqUserId, body) ==>
                r == BadRequest("user and items are required")
                && orders == old(orders) && items == old(items) && payments == old(payments)
      ensures !CreateRejected(reqUserId, body) ==>
                var o := NewOrder(Requester(reqUserId, body).value, body.items.value, body);
                if !SchemaValid(o) then
                  r == ServerError("Server error while creating order")
                  && orders == old(orders) && items == old(items) && payments == old(payments)
                else
                  r == Created(old(nextId), o, ItemsFor(old(nextId), body.items.value))
                  && orders == old(orders)[old(nextId) := o]
                  && items == old(items) + ItemsFor(old(nextId), body.items.value)
                  && payments == old(payments)
                  && old(nextId) !in old(orders)
      ensures old(TotalsConsistent(orders, items)) ==> TotalsConsistent(orders, items)
    {
      var userId := Requester(reqUserId, body);
      if !Truthy(userId) || body.items.None? || body.items.value == [] {
        return BadRequest("user and items are required");
      }
      var lines := body.items.value;
      var o := NewOrder(userId.value, lines, body);
      if !SchemaValid(o) {
        return ServerError("Server error while creating order");
      }
      var id := nextId;
      assert id !in orders;
      ghost var before := items;
      orders := orders[id := o];
      nextId := nextId + 1;
      var created := ItemsFor(id, lines);
      items := items + created;
      forall x | x in items ensures x.order in orders {
        if x in created {
          var i :| 0 <= i < |created| && created[i] == x;
        }
      }
      if old(TotalsConsistent(orders, items)) {
        AddOrderKeepsTotals(old(orders), before, id, o, lines);
      }
      r := Created(id, o, created);
    }

    /** `updateOrder` as written: the items are replaced BEFORE the patched order is
        validated, so a save that the validators reject leaves the new items stored
        under the old order. */
    method UpdateOrder(id: nat, body: OrderRequest) returns (r: Response)
      requires Valid()
      modifies this
      ensures Valid()
      ensures id !in old(orders) ==>
                r == NotFound("Order not found")
                && orders == old(orders) && items == old(items) && payments == old(payments)
      ensures id in old(orders) ==>
                var o := UpdatedOrder(old(orders)[id], body);
                items == ItemsAfterUpdate(old(items), id, body)
                && payments == old(payments)
                && if SchemaValid(o) then
                     orders == old(orders)[id := o]
                     && r == Updated(o, if ReplacesItems(body) then Some(ItemsFor(id, body.items.value)) else None)
                   else
                     orders == old(orders) && r == ServerError("Server error while updating order")
    {
      if id !in orders {
        return NotFound("Order not found");
      }
      var o := Assign(orders[id], body);
      var updatedItems: Option<seq<OrderItem>> := None;
      if body.items.Some? && body.items.value != [] {
        items := ItemsWithout(items, id);
        o := o.(totalAmount := ComputeTotal(body.items.value));
        var inserted := ItemsFor(id, body.items.value);
        items := items + inserted;
        updatedItems := Some(inserted);
        forall x | x in items ensures x.order in orders {
          if x in inserted {
            var i :| 0 <= i < |inserted| && inserted[i] == x;
          }
        }
      }
      if !SchemaValid(o) {
        return ServerError("Server error while updating order");
      }
      orders := orders[id := o];
      r := Updated(o, updatedItems);
    }

    /** `updateOrder` with the validators run before anything is written: a rejected
        update changes nothing, so the totals stay consistent with the items. */
    method UpdateOrderValidated(id: nat, body: OrderRequest) returns (r: Response)
      requires Valid()
      modifies this
      ensures Valid()
      ensures id !in old(orders) ==>
                r == NotFound("Order not found")
                && orders == old(orders) && items == old(items) && payments == old(payments)
      ensures id in old(orders) ==>
                var o := UpdatedOrder(old(orders)[id], body);
                payments == old(payments)
                && if SchemaValid(o) then
                     orders == old(orders)[id := o]
                     && items == ItemsAfterUpdate(old(items), id, body)
                     && r == Updated(o, if ReplacesItems(body) then Some(ItemsFor(id, body.items.value)) else None)
                   else
                     orders == old(orders) && items == old(items)
                     && r == ServerError("Server error while updating order")
      ensures old(TotalsConsistent(orders, items)) ==> TotalsConsistent(orders, items)
    {
      if id !in orders {
        return NotFound("Order not found");
      }
      var o := UpdatedOrder(orders[id], body);
      if !SchemaValid(o) {
        return ServerError("Server error while updating order");
      }
      ghost var before := items;
      var updatedItems: Option<seq<OrderItem>> := None;
      if body.items.Some? && body.items.value != [] {
        var inserted := ItemsFor(id, body.items.value);
        items := ItemsWithout(items, id) + inserted;
        updatedItems := Some(inserted);
        forall x | x in items ensures x.order in orders {
          if x in inserted {
            var i :| 0 <= i < |inserted| && inserted[i] == x;
          }
        }
      }
      if old(TotalsConsistent(orders, items)) {
        UpdateKeepsTotals(old(orders), before, id, body);
      }
      orders := orders[id := o];
      r := Updated(o, updatedItems);
    }

    /** `deleteOrder`: removes the order, then its items, then its payments. */
    method DeleteOrder(id: nat) returns (r: Response)
      requires Valid()
      modifies this
      ensures Valid()
      ensures id !in old(orders) ==>
                r == NotFound("Order not found")
                && orders == old(orders) && items == old(items) && payments == old(payments)
      ensures id in old(orders) ==>
                r == Deleted(old(orders)[id])
                && orders == old(orders) - {id}
                && items == ItemsWithout(old(items), id)
                && payments == PaymentsWithout(old(payments), id)
      ensures old(TotalsConsistent(orders, items)) ==> TotalsConsistent(orders, items)
    {
      if id !in orders {
        return NotFound("Order not found");
      }
      var deleted := orders[id];
      ghost var before := items;
      var keptItems := ItemsWithout(items, id);
      var keptPayments := PaymentsWithout(payments, id);
      assert forall x | x in keptItems :: x.order in orders && x.order != id;
      assert forall p | p in keptPayments :: p.order in orders && p.order != id;
      orders := orders - {id};
      items := keptItems;
      payments := keptPayments;
      if old(TotalsConsistent(orders, items)) {
        DeleteKeepsTotals(old(orders), before, id);
      }
      r := Deleted(deleted);
    }
  }

  /** The six `if` statements of `updateOrder` that assign order fields, one by one. */
  method Assign(order: Order, body: OrderRequest) returns (o: Order)
    ensures o == Patch(order, body)
  {
    o := order;
    if body.user.Some? && body.user.value != "" {
      o := o.(user := body.user.value);
    }
    if body.status.Some? && body.status.value != "" {
      o := o.(status := body.status.value);
    }
    if body.email.Some? {
      o := o.(email := body.email);
    }
    if body.shippingAddress.Some? {
      o := o.(shippingAddress := body.shippingAddress);
    }
    if body.paymentMethod.Some? && body.paymentMethod.value != "" {
      o := o.(paymentMethod := body.paymentMethod);
    }
    if body.shippingFee.Some? {
      o := o.(shippingFee := body.shippingFee);
    }
  }

  // ------------------------------------------------------------ lemmas: totals

  lemma {:induction false} ComputeTotalAppend(a: seq<Line>, b: seq<Line>)
    ensures ComputeTotal(a + b) == ComputeTotal(a) + ComputeTotal(b)
  {
    if b == [] {
      assert a + b == a;
    } else {
      var n := |b| - 1;
      assert (a + b)[..|a + b| - 1] == a + b[..n];
      assert (a + b)[|a + b| - 1] == b[n];
      ComputeTotalAppend(a, b[..n]);
    }
  }

  /** `computeTotal` is the plain sum of `price * quantity` over the lines, 0 for none. */
  lemma {:induction false} ComputeTotalIsSum(lines: seq<Line>)
    ensures ComputeTotal(lines) == SumFromFront(lines)
  {
    if lines != [] {
      ComputeTotalIsSum(lines[1..]);
      assert lines == [lines[0]] + lines[1..];
      ComputeTotalAppend([lines[0]], lines[1..]);
      assert [lines[0]][..0] == [];
    }
  }

  /** Lines with no negative price or quantity never total below 0. */
  lemma {:induction false} ComputeTotalNonNegative(lines: seq<Line>)
    requires forall i | 0 <= i < |lines| :: lines[i].price >= 0 && lines[i].quantity >= 0
    ensures ComputeTotal(lines) >= 0
  {
    if lines != [] {
      ComputeTotalNonNegative(lines[..|lines| - 1]);
    }
  }

  lemma {:induction false} OrderTotalAppend(a: seq<OrderItem>, b: seq<OrderItem>, id: nat)
    ensures OrderTotal(a + b, id) == OrderTotal(a, id) + OrderTotal(b, id)
  {
    if b == [] {
      assert a + b == a;
    } else {
      var n := |b| - 1;
      assert (a + b)[..|a + b| - 1] == a + b[..n];
      assert (a + b)[|a + b| - 1] == b[n];
      OrderTotalAppend(a, b[..n], id);
    }
  }

  /** The items written for order `id` add up to the lines' total under `id`, and to
      nothing under any other order. */
  lemma {:induction false} OrderTotalItemsFor(id: nat, lines: seq<Line>, other: nat)
    ensures OrderTotal(ItemsFor(id, lines), other) == if other == id then ComputeTotal(lines) else 0
  {
    if lines != [] {
      var n := |lines| - 1;
      var l := lines[n];
      OrderTotalItemsFor(id, lines[..n], other);
      OrderTotalAppend(ItemsFor(id, lines[..n]), [OrderItem(id, l.product, l.quantity, l.price)], other);
      assert [OrderItem(id, l.product, l.quantity, l.price)][..0] == [];
    }
  }

  /** Dropping the items of order `id` zeroes its total and leaves every other order's. */
  lemma {:induction false} OrderTotalWithout(items: seq<OrderItem>, id: nat, other: nat)
    ensures OrderTotal(ItemsWithout(items, id), other) == if other == id then 0 else OrderTotal(items, other)
  {
    if items != [] {
      var n := |items| - 1;
      var rest := ItemsWithout(items[..n], id);
      OrderTotalWithout(items[..n], id, other);
      if items[n].order != id {
        assert ItemsWithout(items, id) == rest + [items[n]];
        OrderTotalAppend(rest, [items[n]], other);
        assert [items[n]][..0] == [];
      } else {
        assert ItemsWithout(items, id) == rest;
      }
    }
  }

  /** An order with no items yet, stored with the items of its lines, keeps every total
      consistent. */
  lemma AddOrderKeepsTotals(orders: map<nat, Order>, items: seq<OrderItem>, id: nat, o: Order, lines: seq<Line>)
    requires TotalsConsistent(orders, items)
    requires id !in orders && forall x | x in items :: x.order in orders
    requires o.totalAmount == ComputeTotal(lines)
    ensures TotalsConsistent(orders[id := o], items + ItemsFor(id, lines))
  {
    forall other | other in orders[id := o]
      ensures orders[id := o][other].totalAmount == OrderTotal(items + ItemsFor(id, lines), other)
    {
      OrderTotalAppend(items, ItemsFor(id, lines), other);
      OrderTotalItemsFor(id, lines, other);
      if other == id {
        OrderTotalAbsent(items, id);
      }
    }
  }

  lemma {:induction false} OrderTotalAbsent(items: seq<OrderItem>, id: nat)
    requires forall x | x in items :: x.order != id
    ensures OrderTotal(items, id) == 0
  {
    if items != [] {
      assert items[|items| - 1] in items;
      OrderTotalAbsent(items[..|items| - 1], id);
    }
  }

  /** A successful update keeps every total consistent with the items. */
  lemma UpdateKeepsTotals(orders: map<nat, Order>, items: seq<OrderItem>, id: nat, body: OrderRequest)
    requires TotalsConsistent(orders, items) && id in orders
    ensures TotalsConsistent(orders[id := UpdatedOrder(orders[id], body)], ItemsAfterUpdate(items, id, body))
  {
    var o := UpdatedOrder(orders[id], body);
    if ReplacesItems(body) {
      var lines := body.items.value;
      forall other | other in orders[id := o]
        ensures orders[id := o][other].totalAmount == OrderTotal(ItemsAfterUpdate(items, id, body), other)
      {
        OrderTotalAppend(ItemsWithout(items, id), ItemsFor(id, lines), other);
        OrderTotalWithout(items, id, other);
        OrderTotalItemsFor(id, lines, other);
      }
    }
  }

  /** Deleting an order with its items keeps every remaining total consistent. */
  lemma DeleteKeepsTotals(orders: map<nat, Order>, items: seq<OrderItem>, id: nat)
    requires TotalsConsistent(orders, items)
    ensures TotalsConsistent(orders - {id}, ItemsWithout(items, id))
  {
    forall other | other in orders - {id}
      ensures orders[other].totalAmount == OrderTotal(ItemsWithout(items, id), other)
    {
      OrderTotalWithout(items, id, other);
    }
  }

  // ------------------------------------------------------------ lemmas: the handlers

  /** A created order's total is the sum over its lines, whatever the body says, and an
      order created without a status is `pending`. */
  lemma CreatedOrderShape(user: string, lines: seq<Line>, body: OrderRequest)
    ensures NewOrder(user, lines, body).totalAmount == SumFromFront(lines)
    ensures body.status.None? ==> (SchemaValid(NewOrder(user, lines, body)) <==> user != "" && SumFromFront(lines) >= 0)
  {
    ComputeTotalIsSum(lines);
  }

  /** The refusal test of `createOrder` holds exactly when no requester id is truthy or
      the lines are missing or empty. */
  lemma CreateRejectedIff(reqUserId: Option<string>, body: OrderRequest)
    ensures CreateRejected(reqUserId, body) <==>
              (!Truthy(reqUserId) && !Truthy(body.user)) || body.items.None? || body.items.value == []
  {
  }

  /** An update body that carries none of the fields changes nothing, and applying the
      same body twice is the same as once. */
  lemma PatchLaws(o: Order, body: OrderRequest)
    ensures Patch(o, OrderRequest(None, None, None, None, None, None, None)) == o
    ensures Patch(Patch(o, body), body) == Patch(o, body)
    ensures UpdatedOrder(UpdatedOrder(o, body), body) == UpdatedOrder(o, body)
  {
  }

  /** Falsy values of `user`, `status` and `paymentMethod` are ignored, but an empty
      `email` or `shippingAddress`, or a present `shippingFee`, overwrites. */
  lemma PatchFalsyRules(o: Order, body: OrderRequest)
    requires body.user == Some("") && body.status == Some("") && body.paymentMethod == Some("")
    requires body.email == Some("") && body.shippingAddress == Some("") && body.shippingFee == Some(0)
    ensures Patch(o, body) == o.(email := Some(""), shippingAddress := Some(""), shippingFee := Some(0))
  {
  }

  /** The schema checks membership only: any status may follow any other. */
  lemma AnyStatusFollowsAny(o: Order, s: string)
    requires SchemaValid(o) && s in Statuses
    ensures SchemaValid(Patch(o, OrderRequest(None, None, Some(s), None, None, None, None)))
  {
  }

  /** An update with items leaves exactly the new lines as the order's items and no
      other order's items changed; an update without items touches no item. */
  lemma UpdateItemsSpec(items: seq<OrderItem>, id: nat, body: OrderRequest)
    ensures ReplacesItems(body) ==>
              ItemsOfOrder(ItemsAfterUpdate(items, id, body), id) == ItemsFor(id, body.items.value)
    ensures forall x: OrderItem | x.order != id :: x in ItemsAfterUpdate(items, id, body) <==> x in items
    ensures !ReplacesItems(body) ==> ItemsAfterUpdate(items, id, body) == items
  {
    if ReplacesItems(body) {
      ReplacedItems(items, id, body.items.value);
      OthersKept(items, id, body.items.value);
    }
  }

  lemma ReplacedItems(items: seq<OrderItem>, id: nat, lines: seq<Line>)
    ensures ItemsOfOrder(ItemsWithout(items, id) + ItemsFor(id, lines), id) == ItemsFor(id, lines)
  {
    var keep := (x: OrderItem) => x.order == id;
    var kept := ItemsWithout(items, id);
    var added := ItemsFor(id, lines);
    FilterAppend(kept, added, keep);
    FilterNone(kept, keep);
    FilterAll(added, keep);
  }

  lemma OthersKept(items: seq<OrderItem>, id: nat, lines: seq<Line>)
    ensures forall x: OrderItem | x.order != id ::
              x in ItemsWithout(items, id) + ItemsFor(id, lines) <==> x in items
  {
    var added := ItemsFor(id, lines);
    forall y | y in added ensures y.order == id {
      var i :| 0 <= i < |lines| && added[i] == y;
    }
  }

  lemma {:induction false} FilterAppend<T(!new)>(a: seq<T>, b: seq<T>, keep: T -> bool)
    ensures Filter(a + b, keep) == Filter(a, keep) + Filter(b, keep)
  {
    if b == [] {
      assert a + b == a;
    } else {
      var n := |b| - 1;
      assert (a + b)[..|a + b| - 1] == a + b[..n];
      assert (a + b)[|a + b| - 1] == b[n];
      FilterAppend(a, b[..n], keep);
    }
  }

  lemma FilterNone<T(!new)>(s: seq<T>, keep: T -> bool)
    requires forall x | x in s :: !keep(x)
    ensures Filter(s, keep) == []
  {
    if Filter(s, keep) != [] {
      assert Filter(s, keep)[0] in Filter(s, keep);
    }
  }

  lemma {:induction false} FilterAll<T(!new)>(s: seq<T>, keep: T -> bool)
    requires forall i | 0 <= i < |s| :: keep(s[i])
    ensures Filter(s, keep) == s
  {
    if s != [] {
      FilterAll(s[..|s| - 1], keep);
      assert s[..|s| - 1] + [s[|s| - 1]] == s;
    }
  }

  /** After a delete, no item or payment of the order is left and every other one is. */
  lemma DeleteCascade(items: seq<OrderItem>, payments: seq<Payment>, id: nat)
    ensures forall x :: x in ItemsWithout(items, id) <==> x in items && x.order != id
    ensures forall p :: p in PaymentsWithout(payments, id) <==> p in payments && p.order != id
  {
  }

  // ------------------------------------------------------------ the finding

  /** An update whose status is not in the enum, carrying new lines: the as-written
      handler stores the new items and then fails to save the order, so the stored
      total no longer matches the stored items. */
  lemma RejectedUpdateBreaksTotals()
    ensures var orders := map[0 := Order("u", 100, "pending", None, None, None, None)];
            var items := [OrderItem(0, "p", 1, 100)];
            var body := OrderRequest(None, Some([Line("p", 2, 100)]), Some("delivered"), None, None, None, None);
            TotalsConsistent(orders, items)
            && !SchemaValid(UpdatedOrder(orders[0], body))
            && !TotalsConsistent(orders, ItemsAfterUpdate(items, 0, body))
  {
    var orders := map[0 := Order("u", 100, "pending", None, None, None, None)];
    var items := [OrderItem(0, "p", 1, 100)];
    var body := OrderRequest(None, Some([Line("p", 2, 100)]), Some("delivered"), None, None, None, None);
    assert items[..0] == [];
    assert OrderTotal(items, 0) == 100;
    var after := ItemsAfterUpdate(items, 0, body);
    OrderTotalAppend(ItemsWithout(items, 0), ItemsFor(0, [Line("p", 2, 100)]), 0);
    OrderTotalWithout(items, 0, 0);
    OrderTotalItemsFor(0, [Line("p", 2, 100)], 0);
    assert [Line("p", 2, 100)][..0] == [];
    assert OrderTotal(after, 0) == 200;
  }
}
