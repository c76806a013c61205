/** The in-memory cart store: a map from cart id to cart, with carts created,
    loaded, added to with merge by variant, replaced wholesale and deleted.
    Ids and the current time are inputs. */
module LocalCart {
  import opened Wrappers
  import Js

  type CartId = string

  /** An ISO-8601 time stamp, as `new Date().toISOString()` gives it. */
  type Time = string

  datatype Item = Item(variantId: string, quantity: int, addedAt: Time)

  /** One line passed to `updateCart`; `addedAt` may be absent. */
  datatype Line = Line(variantId: string, quantity: int, addedAt: Option<Time>)

  datatype Cart = Cart(id: CartId, items: seq<Item>, createdAt: Time, updatedAt: Time)

  /** `{ body, status }`. */
  datatype Reply<T> = Reply(body: T, status: int)

  datatype Deleted = Deleted(success: bool)

  /** The one error the store raises: `Cart not found`. */
  datatype CartError = CartNotFound

  const CartNotFoundText: string := "Cart not found"

  /** `items.find(item => item.variantId === v)`, as the index of the match. */
  function FindVariant(items: seq<Item>, v: string): (r: Option<nat>)
    ensures r.Some? ==> r.value < |items| && items[r.value].variantId == v
    ensures r.Some? ==> forall j :: 0 <= j < r.value ==> items[j].variantId != v
    ensures r.None? <==> forall j :: 0 <= j < |items| ==> items[j].variantId != v
  {
    if items == [] then None
    else if items[0].variantId == v then Some(0)
    else match FindVariant(items[1..], v)
      case None => None
      case Some(i) => Some(i + 1)
  }

  /** The items after `addToCart(_, v, q)` at time `now`: the first line for
      `v` grows by `q`, or a new line is appended. */
  function AddItem(items: seq<Item>, v: string, q: int, now: Time): (r: seq<Item>)
    ensures FindVariant(items, v).None? ==> r == items + [Item(v, q, now)]
    ensures FindVariant(items, v).Some? ==>
              var i := FindVariant(items, v).value;
              |r| == |items| && r[i] == items[i].(quantity := items[i].quantity + q)
              && forall j :: 0 <= j < |items| && j != i ==> r[j] == items[j]
  {
    match FindVariant(items, v)
    case None => items + [Item(v, q, now)]
    case Some(i) => items[i := items[i].(quantity := items[i].quantity + q)]
  }

  /** The sum of the lines' quantities. */
  function TotalQuantity(items: seq<Item>): int {
    if items == [] then 0 else items[0].quantity + TotalQuantity(items[1..])
  }

  lemma {:induction false} TotalQuantityAppend(a: seq<Item>, b: seq<Item>)
    ensures TotalQuantity(a + b) == TotalQuantity(a) + TotalQuantity(b)
  {
    if a == [] {
      assert a + b == b;
    } else {
      assert (a + b)[1..] == a[1..] + b;
      TotalQuantityAppend(a[1..], b);
    }
  }

  lemma {:induction false} TotalQuantityUpdate(items: seq<Item>, i: nat, it: Item)
    requires i < |items|
    ensures TotalQuantity(items[i := it]) == TotalQuantity(items) - items[i].quantity + it.quantity
  {
    if i > 0 {
      assert items[i := it][1..] == items[1..][i - 1 := it];
      TotalQuantityUpdate(items[1..], i - 1, it);
    }
  }

  /** Adding `q` of a variant grows the total quantity by `q`, merged or not. */
  lemma AddItemTotal(items: seq<Item>, v: string, q: int, now: Time)
    ensures TotalQuantity(AddItem(items, v, q, now)) == TotalQuantity(items) + q
  {
    match FindVariant(items, v)
    case None =>
      TotalQuantityAppend(items, [Item(v, q, now)]);
      assert TotalQuantity([Item(v, q, now)]) == q;
    case Some(i) =>
      TotalQuantityUpdate(items, i, items[i].(quantity := items[i].quantity + q));
  }

  /** Each variant id appears on at most one line. */
  predicate DistinctVariants(items: seq<Item>) {
    forall i, j :: 0 <= i < j < |items| ==> items[i].variantId != items[j].variantId
  }

  function Variants(items: seq<Item>): set<string> {
    set i | 0 <= i < |items| :: items[i].variantId
  }

  /** Adding keeps variants distinct and the set of variants becomes the old
      one plus `v`. */
  lemma AddItemVariants(items: seq<Item>, v: string, q: int, now: Time)
    ensures DistinctVariants(items) ==> DistinctVariants(AddItem(items, v, q, now))
    ensures Variants(AddItem(items, v, q, now)) == Variants(items) + {v}
  {
    var r := AddItem(items, v, q, now);
    match FindVariant(items, v)
    case None =>
      assert r[|items|].variantId == v;
      assert forall i :: 0 <= i < |items| ==> r[i] == items[i];
    case Some(k) =>
      assert forall i :: 0 <= i < |items| ==> r[i].variantId == items[i].variantId;
  }

  /** Adding a variant twice leaves one line with the summed quantity and the
      first addition's time. */
  lemma AddTwiceMerges(v: string, q1: int, q2: int, t1: Time, t2: Time)
    ensures AddItem(AddItem([], v, q1, t1), v, q2, t2) == [Item(v, q1 + q2, t1)]
  {
    assert AddItem([], v, q1, t1) == [Item(v, q1, t1)];
  }

  /** `line.addedAt || now`. */
  function AddedAt(line: Line, now: Time): (t: Time)
    ensures Js.Present(line.addedAt) ==> t == line.addedAt.value
    ensures !Js.Present(line.addedAt) ==> t == now
  {
    if Js.Present(line.addedAt) then line.addedAt.value else now
  }

  /** `lines.map(...)` in updateCart. */
  function LinesToItems(lines: seq<Line>, now: Time): (items: seq<Item>)
    ensures |items| == |lines|
    ensures forall i :: 0 <= i < |lines| ==>
              items[i] == Item(lines[i].variantId, lines[i].quantity, AddedAt(lines[i], now))
  {
    if lines == [] then [] else [Item(lines[0].variantId, lines[0].quantity, AddedAt(lines[0], now))] + LinesToItems(lines[1..], now)
  }

  /** Lines that carry their own time are copied as they are, whatever the clock says. */
  lemma LinesWithTimesIgnoreClock(lines: seq<Line>, now1: Time, now2: Time)
    requires forall i :: 0 <= i < |lines| ==> Js.Present(lines[i].addedAt)
    ensures LinesToItems(lines, now1) == LinesToItems(lines, now2)
  {
  }

  /** The store. `Valid` says every cart is filed under its own id. */
  class CartStore {
    var carts: map<CartId, Cart>

    ghost predicate Valid()
      reads this
    {
      forall id :: id in carts ==> carts[id].id == id
    }

    constructor ()
      ensures Valid() && carts == map[]
    {
      carts := map[];
    }

    /** `createCart()`, with the generated id and the clock as inputs. */
    method CreateCart(id: CartId, now: Time) returns (r: Reply<Cart>)
      requires Valid() && id !in carts
      modifies this
      ensures Valid()
      ensures r.status == 201 && r.body == Cart(id, [], now, now)
      ensures carts == old(carts)[id := r.body]
    {
      var cart := Cart(id, [], now, now);
      carts := carts[id := cart];
      r := Reply(cart, 201);
    }

    /** `loadCart(id)`: reads the store and changes nothing. */
    method LoadCart(id: CartId) returns (r: Result<Reply<Cart>, CartError>)
      requires Valid()
      ensures r.Success? <==> id in carts
      ensures r.Success? ==> r.value == Reply(carts[id], 200) && r.value.body.id == id
      ensures r.Failure? ==> r.error == CartNotFound
    {
      if id !in carts {
        return Failure(CartNotFound);
      }
      r := Success(Reply(carts[id], 200));
    }

    /** `addToCart(id, v, q)` at time `now`. */
    method AddToCart(id: CartId, v: string, q: int, now: Time) returns (r: Result<Reply<Cart>, CartError>)
      requires Valid()
      modifies this
      ensures Valid()
      ensures id !in old(carts) ==> r == Failure(CartNotFound) && carts == old(carts)
      ensures id in old(carts) ==>
                var c := old(carts)[id];
                var c' := Cart(c.id, AddItem(c.items, v, q, now), c.createdAt, now);
                carts == old(carts)[id := c'] && r == Success(Reply(c', 200))
    {
      if id !in carts {
        return Failure(CartNotFound);
      }
      var cart := carts[id];
      cart := cart.(items := AddItem(cart.items, v, q, now));
      cart := cart.(updatedAt := now);
      carts := carts[id := cart];
      r := Success(Reply(cart, 200));
    }

    /** `updateCart(id, lines)` at time `now`: the items are replaced. */
    method UpdateCart(id: CartId, lines: seq<Line>, now: Time) returns (r: Result<Reply<Cart>, CartError>)
      requires Valid()
      modifies this
      ensures Valid()
      ensures id !in old(carts) ==> r == Failure(CartNotFound) && carts == old(carts)
      ensures id in old(carts) ==>
                var c := old(carts)[id];
                var c' := Cart(c.id, LinesToItems(lines, now), c.createdAt, now);
                carts == old(carts)[id := c'] && r == Success(Reply(c', 200))
    {
      if id !in carts {
        return Failure(CartNotFound);
      }
      var cart := carts[id];
      cart := cart.(items := LinesToItems(lines, now));
      cart := cart.(updatedAt := now);
      carts := carts[id := cart];
      r := Success(Reply(cart, 200));
    }

    /** `deleteCart(id)`. */
    method DeleteCart(id: CartId) returns (r: Result<Reply<Deleted>, CartError>)
      requires Valid()
      modifies this
      ensures Valid()
      ensures id !in old(carts) ==> r == Failure(CartNotFound) && carts == old(carts)
      ensures id in old(carts) ==>
                carts == old(carts) - {id} && r == Success(Reply(Deleted(true), 200))
    {
      if id !in carts {
        return Failure(CartNotFound);
      }
      carts := carts - {id};
      r := Success(Reply(Deleted(true), 200));
    }
  }
}
