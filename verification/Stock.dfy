/** The orders and the stock of the demo shop (demo/server.py). */
module Stock {
  import opened Wire

  datatype Product = Product(price: int, stock: int)

  datatype Order = Order(productId: int, quantity: int, total: int)

  /** Requests that reach the locked section; `authorized` is the session check before it. */
  datatype Request =
    | Create(authorized: bool, productId: Option<int>, quantity: Option<int>)
    | Delete(authorized: bool, id: int)

  /** The quantity of a product in the live orders with ids below `n`. */
  function Sold(orders: map<int, Order>, productId: int, n: nat): int {
    if n == 0 then 0
    else
      var last := if n - 1 in orders && orders[n - 1].productId == productId then orders[n - 1].quantity else 0;
      Sold(orders, productId, n - 1) + last
  }

  lemma {:induction false} SoldElsewhere(a: map<int, Order>, b: map<int, Order>, productId: int, n: nat)
    requires forall i :: 0 <= i < n ==> (i in a <==> i in b) && (i in a ==> a[i] == b[i])
    ensures Sold(a, productId, n) == Sold(b, productId, n)
  {
    if n > 0 { SoldElsewhere(a, b, productId, n - 1); }
  }

  lemma {:induction false} SoldWithout(orders: map<int, Order>, id: nat, productId: int, n: nat)
    requires id in orders && id < n
    ensures Sold(orders - {id}, productId, n)
         == Sold(orders, productId, n) - if orders[id].productId == productId then orders[id].quantity else 0
  {
    if id == n - 1 {
      SoldElsewhere(orders, orders - {id}, productId, id);
    } else {
      SoldWithout(orders, id, productId, n - 1);
    }
  }

  class DemoState {
    var products: map<int, Product>
    var orders: map<int, Order>
    var nextOrderId: nat
    ghost const initial: map<int, Product>

    constructor (products: map<int, Product>)
      requires forall p :: p in products ==> products[p].stock >= 0
      ensures Valid() && initial == products && orders == map[] && nextOrderId == 1
    {
      this.products, orders, nextOrderId, initial := products, map[], 1, products;
      new;
      forall p | p in products ensures Sold(orders, p, 1) == 0 { assert Sold(orders, p, 0) == 0; }
    }

    /** Stock plus live orders is the initial stock, product by product. */
    ghost predicate Conserved() reads this {
      && products.Keys == initial.Keys
      && (forall p :: p in products ==>
            products[p].stock >= 0 && products[p].price == initial[p].price
            && products[p].stock + Sold(orders, p, nextOrderId) == initial[p].stock)
    }

    /** Live orders have ids below the next one, and the total of an order is price times quantity. */
    ghost predicate Priced() reads this {
      forall i :: i in orders ==>
        && 1 <= i < nextOrderId && orders[i].productId in products && 1 <= orders[i].quantity <= 20
        && orders[i].total == products[orders[i].productId].price * orders[i].quantity
    }

    ghost predicate Valid() reads this { Conserved() && Priced() && nextOrderId >= 1 }

    /** `POST /api/orders` under the lock. */
    method CreateOrder(productId: int, quantity: int) returns (status: nat, id: nat)
      requires Valid() && 1 <= quantity <= 20
      modifies this
      ensures Valid()
      ensures status == 201 <==> productId in old(products) && old(products)[productId].stock >= quantity
      ensures status == 404 <==> productId !in old(products)
      ensures status == 201 ==>
                && id == old(nextOrderId) && nextOrderId == id + 1 && id !in old(orders)
                && orders == old(orders)[id := Order(productId, quantity, old(products)[productId].price * quantity)]
                && products == old(products)[productId :=
                   old(products)[productId].(stock := old(products)[productId].stock - quantity)]
      ensures status != 201 ==>
              status in {404, 409} && orders == old(orders) && products == old(products) &&
              nextOrderId == old(nextOrderId)
    {
      id := nextOrderId;
      if productId !in products { return 404, id; }
      var product := products[productId];
      if product.stock < quantity { return 409, id; }
      var order := Order(productId, quantity, product.price * quantity);
      forall p | p in products ensures Sold(orders[id := order], p, id) == Sold(orders, p, id) {
        SoldElsewhere(orders, orders[id := order], p, id);
      }
      orders := orders[id := order];
      nextOrderId := nextOrderId + 1;
      products := products[productId := product.(stock := product.stock - quantity)];
      status := 201;
    }

    /** `DELETE /api/orders/{id}` under the lock. */
    method DeleteOrder(id: int) returns (status: nat)
      requires Valid()
      modifies this
      ensures Valid() && nextOrderId == old(nextOrderId)
      ensures status == (if id in old(orders) then 200 else 404) && orders == old(orders) - {id}
      ensures status == 404 ==> products == old(products)
      ensures status == 200 ==>
                var p := old(orders)[id].productId;
                products == old(products)[p :=
                    old(products)[p].(stock := old(products)[p].stock + old(orders)[id].quantity)]
    {
      if id !in orders { return 404; }
      var order := orders[id];
      forall p | p in products
        ensures Sold(orders - {id}, p, nextOrderId)
             == Sold(orders, p, nextOrderId) - if order.productId == p then order.quantity else 0
      {
        SoldWithout(orders, id, p, nextOrderId);
      }
      orders := orders - {id};
      if order.productId in products {
        var product := products[order.productId];
        products := products[order.productId := product.(stock := product.stock + order.quantity)];
      }
      status := 200;
    }

    /** One request, with the checks before the lock. */
    method Serve(r: Request) returns (status: nat, created: Option<nat>)
      requires Valid()
      modifies this
      ensures Valid() && old(nextOrderId) <= nextOrderId
      ensures created.Some? <==> r.Create? && status == 201
      ensures created.Some? ==> created.value == old(nextOrderId) < nextOrderId
      ensures !r.authorized ==> status == 401 && products == old(products) && orders == old(orders)
      ensures r.authorized && r.Create? ==>
                (status == 400 <==>
                   r.productId.None? || r.quantity.None? || r.quantity.value < 1 || r.quantity.value > 20)
      ensures status == 400 ==> products == old(products) && orders == old(orders)
    {
      created := None;
      if !r.authorized { return 401, None; }
      match r {
        case Create(_, productId, quantity) =>
          if productId.None? || quantity.None? || !(1 <= quantity.value <= 20) { return 400, None; }
          var id;
          status, id := CreateOrder(productId.value, quantity.value);
          if status == 201 { created := Some(id); }
        case Delete(_, id) => status := DeleteOrder(id);
      }
    }
  }

  /** Every history of requests, in the order they get the lock: stock is conserved and never
      negative, and no order id is given twice, also after deletions. */
  method History(state: DemoState, requests: seq<Request>) returns (created: seq<nat>)
    requires state.Valid()
    modifies state
    ensures state.Valid()
    ensures forall i, j :: 0 <= i < j < |created| ==> created[i] < created[j]
    ensures forall i :: 0 <= i < |created| ==> old(state.nextOrderId) <= created[i] < state.nextOrderId
  {
    created := [];
    for i := 0 to |requests|
      invariant state.Valid() && old(state.nextOrderId) <= state.nextOrderId
      invariant forall i, j :: 0 <= i < j < |created| ==> created[i] < created[j]
      invariant forall i :: 0 <= i < |created| ==> old(state.nextOrderId) <= created[i] < state.nextOrderId
    {
      var _, id := state.Serve(requests[i]);
      if id.Some? { created := created + [id.value]; }
    }
  }
}
