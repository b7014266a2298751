/** The cart reducers of the application context (`src/Context/Context.jsx`) as pure functions on
    the cart, with the properties the views rely on: ids stay unique, quantities and totals move by
    exactly what was added or removed, and removing undoes adding. */
module CartOps {
  import opened Wrappers
  import opened Catalog
  import Seqs

  /** Some line of the cart carries product id `id`. */
  predicate HasId(cart: seq<CartLine>, id: int) {
    exists i :: 0 <= i < |cart| && cart[i].Id() == id
  }

  /** No two lines carry the same product id. */
  predicate DistinctIds(cart: seq<CartLine>) {
    forall i, j :: 0 <= i < j < |cart| ==> cart[i].Id() != cart[j].Id()
  }

  /** `cart.find(item => item.id === id)`: the first line with that id. */
  function Find(cart: seq<CartLine>, id: int): (r: Option<CartLine>)
    ensures r.None? <==> !HasId(cart, id)
    ensures r.Some? ==> r.value.Id() == id && r.value in cart
  {
    if cart == [] then None
    else if cart[0].Id() == id then Some(cart[0])
    else
      assert HasId(cart, id) ==> HasId(cart[1..], id) by {
        if HasId(cart, id) {
          var i :| 0 <= i < |cart| && cart[i].Id() == id;
          assert cart[1..][i - 1].Id() == id;
        }
      }
      Find(cart[1..], id)
  }

  /** With unique ids, the line `find` returns is the one line that carries the id. */
  lemma {:induction false} FindUnique(cart: seq<CartLine>, id: int, k: int)
    requires DistinctIds(cart) && 0 <= k < |cart| && cart[k].Id() == id
    ensures Find(cart, id) == Some(cart[k])
  {
    if k > 0 {
      assert cart[0].Id() != id;
      assert DistinctIds(cart[1..]);
      FindUnique(cart[1..], id, k - 1);
    }
  }

  /** Sum of the quantities on the lines with id `id` (0 when there is none). */
  function QuantityOf(cart: seq<CartLine>, id: int): int {
    if cart == [] then 0
    else (if cart[0].Id() == id then cart[0].quantity else 0) + QuantityOf(cart[1..], id)
  }

  /** One line of `prev.map(item => item.id === id ? { ...item, quantity: item.quantity + qty } : item)`. */
  function BumpLine(line: CartLine, id: int, qty: int): CartLine {
    if line.Id() == id then line.(quantity := line.quantity + qty) else line
  }

  /** The `map` branch of `addToCart`: every line with the id gains `qty`, the rest are untouched. */
  function Bump(cart: seq<CartLine>, id: int, qty: int): (r: seq<CartLine>)
    ensures |r| == |cart|
    ensures forall i :: 0 <= i < |cart| ==> r[i].product == cart[i].product
    ensures forall i :: 0 <= i < |cart| ==> r[i].quantity == cart[i].quantity + (if cart[i].Id() == id then qty else 0)
  {
    if cart == [] then [] else [BumpLine(cart[0], id, qty)] + Bump(cart[1..], id, qty)
  }

  /** The updater `addToCart(product, qty)` passes to `setCart`. */
  function WithAdded(cart: seq<CartLine>, product: Product, qty: int): (r: seq<CartLine>)
    ensures HasId(cart, product.id) ==> |r| == |cart|
    ensures HasId(cart, product.id) ==> forall i :: 0 <= i < |r| ==> r[i].product == cart[i].product
    ensures HasId(cart, product.id) ==>
      forall i :: 0 <= i < |r| ==> r[i].quantity == cart[i].quantity + (if cart[i].Id() == product.id then qty else 0)
    ensures !HasId(cart, product.id) ==> r == cart + [CartLine(product, qty)]
  {
    if Find(cart, product.id).Some? then Bump(cart, product.id, qty)
    else cart + [CartLine(product, qty)]
  }

  /** `item => item.id !== id`, the predicate `removeFromCart` filters by. */
  function OtherThan(id: int): CartLine -> bool {
    (line: CartLine) => line.Id() != id
  }

  /** The updater `removeFromCart(id)` passes to `setCart`. */
  function WithoutId(cart: seq<CartLine>, id: int): (r: seq<CartLine>)
    ensures !HasId(r, id)
    ensures forall i :: 0 <= i < |cart| && cart[i].Id() != id ==> cart[i] in r
    ensures forall i :: 0 <= i < |r| ==> r[i] in cart
  {
    var r := Seqs.Filter(cart, OtherThan(id));
    assert forall i :: 0 <= i < |r| ==> OtherThan(id)(r[i]);
    r
  }

  /** `Number(item.price) * item.quantity` */
  function LineTotal(line: CartLine): real {
    line.product.price * (line.quantity as real)
  }

  /** `cartTotal`: the sum of price times quantity over the lines. */
  function CartTotal(cart: seq<CartLine>): real {
    Seqs.Sum(cart, LineTotal)
  }

  /** Bumping an id no line carries changes nothing. */
  lemma {:induction false} BumpAbsent(cart: seq<CartLine>, id: int, qty: int)
    requires !HasId(cart, id)
    ensures Bump(cart, id, qty) == cart
  {
    var r := Bump(cart, id, qty);
    assert forall i :: 0 <= i < |cart| ==> r[i] == cart[i] by {
      forall i | 0 <= i < |cart| ensures r[i] == cart[i] {
        assert cart[i].Id() != id;
      }
    }
  }

  /** `addToCart` keeps product ids unique. */
  lemma AddKeepsDistinct(cart: seq<CartLine>, product: Product, qty: int)
    requires DistinctIds(cart)
    ensures DistinctIds(WithAdded(cart, product, qty))
  {
  }

  /** Two bumps of one id are one bump by their sum. */
  lemma BumpTwice(cart: seq<CartLine>, id: int, a: int, b: int)
    ensures Bump(Bump(cart, id, a), id, b) == Bump(cart, id, a + b)
  {
    var twice := Bump(Bump(cart, id, a), id, b);
    var once := Bump(cart, id, a + b);
    forall i | 0 <= i < |cart| ensures twice[i] == once[i] {
      assert twice[i].product == once[i].product && twice[i].quantity == once[i].quantity;
    }
  }

  /** A product added to a cart without it, then added again, is one line of the summed quantity. */
  lemma AddTwiceAbsent(cart: seq<CartLine>, product: Product, a: int, b: int)
    requires !HasId(cart, product.id)
    ensures WithAdded(WithAdded(cart, product, a), product, b) == cart + [CartLine(product, a + b)]
  {
    var once := cart + [CartLine(product, a)];
    assert once[|cart|].Id() == product.id;
    var twice := WithAdded(once, product, b);
    forall i | 0 <= i < |cart| ensures twice[i] == cart[i] {
      assert once[i] == cart[i];
      assert twice[i].product == cart[i].product && twice[i].quantity == cart[i].quantity;
    }
    assert twice[|cart|].product == product && twice[|cart|].quantity == a + b;
  }

  /** `addToCart(p, a)` then `addToCart(p, b)` is `addToCart(p, a + b)`. */
  lemma AddTwice(cart: seq<CartLine>, product: Product, a: int, b: int)
    ensures WithAdded(WithAdded(cart, product, a), product, b) == WithAdded(cart, product, a + b)
  {
    if HasId(cart, product.id) {
      var once := Bump(cart, product.id, a);
      var i :| 0 <= i < |cart| && cart[i].Id() == product.id;
      assert once[i].Id() == product.id;
      BumpTwice(cart, product.id, a, b);
    } else {
      AddTwiceAbsent(cart, product, a, b);
    }
  }

  /** The quantity of the added product grows by `qty`; every other product's stays. */
  lemma {:induction false} AddQuantity(cart: seq<CartLine>, product: Product, qty: int, other: int)
    requires DistinctIds(cart)
    ensures QuantityOf(WithAdded(cart, product, qty), product.id) == QuantityOf(cart, product.id) + qty
    ensures other != product.id ==> QuantityOf(WithAdded(cart, product, qty), other) == QuantityOf(cart, other)
  {
    if HasId(cart, product.id) {
      BumpQuantity(cart, product.id, qty, product.id);
      BumpQuantity(cart, product.id, qty, other);
    } else {
      QuantityAppend(cart, CartLine(product, qty), product.id);
      QuantityAppend(cart, CartLine(product, qty), other);
    }
  }

  lemma {:induction false} QuantityAppend(cart: seq<CartLine>, line: CartLine, id: int)
    ensures QuantityOf(cart + [line], id) == QuantityOf(cart, id) + (if line.Id() == id then line.quantity else 0)
  {
    if cart == [] {
      assert cart + [line] == [line];
    } else {
      assert (cart + [line])[1..] == cart[1..] + [line];
      QuantityAppend(cart[1..], line, id);
    }
  }

  lemma {:induction false} BumpQuantity(cart: seq<CartLine>, id: int, qty: int, other: int)
    requires DistinctIds(cart)
    ensures QuantityOf(Bump(cart, id, qty), other) ==
      QuantityOf(cart, other) + (if other == id && HasId(cart, id) then qty else 0)
  {
    if cart != [] {
      var tail := cart[1..];
      assert DistinctIds(tail);
      assert Bump(cart, id, qty)[1..] == Bump(tail, id, qty);
      BumpQuantity(tail, id, qty, other);
      if cart[0].Id() == id {
        assert !HasId(tail, id) by {
          forall i | 0 <= i < |tail| ensures tail[i].Id() != id {
            assert tail[i] == cart[i + 1];
          }
        }
      } else {
        assert HasId(cart, id) == HasId(tail, id) by {
          if HasId(cart, id) {
            var i :| 0 <= i < |cart| && cart[i].Id() == id;
            assert tail[i - 1].Id() == id;
          }
          if HasId(tail, id) {
            var i :| 0 <= i < |tail| && tail[i].Id() == id;
            assert cart[i + 1].Id() == id;
          }
        }
      }
    }
  }

  /** After `removeFromCart(id)` no quantity of that product is left and every other product's stays. */
  lemma {:induction false} RemoveQuantity(cart: seq<CartLine>, id: int, other: int)
    ensures QuantityOf(WithoutId(cart, id), id) == 0
    ensures other != id ==> QuantityOf(WithoutId(cart, id), other) == QuantityOf(cart, other)
  {
    if cart != [] {
      RemoveQuantity(cart[1..], id, other);
      var f := Seqs.Filter(cart, OtherThan(id));
      if OtherThan(id)(cart[0]) {
        assert f == [cart[0]] + WithoutId(cart[1..], id);
        assert f[1..] == WithoutId(cart[1..], id);
      }
    }
  }

  /** `removeFromCart` keeps the surviving lines in order, so ids stay unique. */
  lemma RemoveKeepsOrder(cart: seq<CartLine>, id: int)
    ensures Seqs.IsSubseq(WithoutId(cart, id), cart)
  {
    Seqs.FilterIsSubseq(cart, OtherThan(id));
  }

  lemma {:induction false} RemoveKeepsDistinct(cart: seq<CartLine>, id: int)
    requires DistinctIds(cart)
    ensures DistinctIds(WithoutId(cart, id))
  {
    if cart != [] {
      var tail := cart[1..];
      assert DistinctIds(tail);
      RemoveKeepsDistinct(tail, id);
      var r := WithoutId(tail, id);
      if cart[0].Id() != id {
        assert WithoutId(cart, id) == [cart[0]] + r;
        forall i | 0 <= i < |r| ensures r[i].Id() != cart[0].Id() {
          assert r[i] in tail;
        }
      }
    }
  }

  /** Removing an id no line carries returns the cart unchanged; removing twice is removing once. */
  lemma RemoveAbsentAndTwice(cart: seq<CartLine>, id: int)
    ensures !HasId(cart, id) ==> WithoutId(cart, id) == cart
    ensures WithoutId(WithoutId(cart, id), id) == WithoutId(cart, id)
  {
    if !HasId(cart, id) {
      Seqs.FilterAll(cart, OtherThan(id));
    }
    Seqs.FilterIdempotent(cart, OtherThan(id));
  }

  /** Removing a product that `addToCart` just appended restores the cart. */
  lemma RemoveUndoesAdd(cart: seq<CartLine>, product: Product, qty: int)
    requires !HasId(cart, product.id)
    ensures WithoutId(WithAdded(cart, product, qty), product.id) == cart
  {
    var p := OtherThan(product.id);
    Seqs.FilterAppend(cart, [CartLine(product, qty)], p);
    Seqs.FilterAll(cart, p);
  }

  /** Adding `qty` of a product grows the total by the total of a line of `qty` units. When the
      product is already in the cart, the units are priced as that line's stored product (not as the
      product passed in, whose price may have changed since). */
  lemma AddTotal(cart: seq<CartLine>, product: Product, qty: int)
    requires DistinctIds(cart)
    ensures var unit := if HasId(cart, product.id) then Find(cart, product.id).value.product else product;
      CartTotal(WithAdded(cart, product, qty)) == CartTotal(cart) + LineTotal(CartLine(unit, qty))
  {
    if HasId(cart, product.id) {
      BumpTotal(cart, product.id, qty);
      var line := Find(cart, product.id).value;
      LineShift(CartTotal(Bump(cart, product.id, qty)), CartTotal(cart), line, qty);
    } else {
      var line := CartLine(product, qty);
      Seqs.SumAppend(cart, [line], LineTotal);
      assert CartTotal([line]) == LineTotal(line);
    }
  }

  /** Replacing a line's total by its bumped total adds the total of `qty` units of its product. */
  lemma LineShift(after: real, before: real, line: CartLine, qty: int)
    requires after == before - LineTotal(line) + LineTotal(BumpLine(line, line.Id(), qty))
    ensures after == before + LineTotal(CartLine(line.product, qty))
  {
    BumpLineTotal(line, qty);
  }

  /** Adding `qty` to a line adds `qty` times its price to its total. */
  lemma BumpLineTotal(line: CartLine, qty: int)
    ensures LineTotal(line.(quantity := line.quantity + qty)) == LineTotal(line) + line.product.price * (qty as real)
  {
    var p := line.product.price;
    var a := line.quantity as real;
    var b := qty as real;
    assert ((line.quantity + qty) as real) == a + b;
    assert p * (a + b) == p * a + p * b;
  }

  /** Bumping a product's one line changes the total by that line's change. */
  lemma {:induction false} BumpTotal(cart: seq<CartLine>, id: int, qty: int)
    requires DistinctIds(cart) && HasId(cart, id)
    ensures var line := Find(cart, id).value;
      CartTotal(Bump(cart, id, qty)) == CartTotal(cart) - LineTotal(line) + LineTotal(BumpLine(line, id, qty))
  {
    var tail := cart[1..];
    var r := Bump(cart, id, qty);
    assert r[1..] == Bump(tail, id, qty);
    assert DistinctIds(tail);
    if cart[0].Id() == id {
      assert !HasId(tail, id) by {
        forall i | 0 <= i < |tail| ensures tail[i].Id() != id {
          assert tail[i] == cart[i + 1];
        }
      }
      BumpAbsent(tail, id, qty);
    } else {
      assert HasId(tail, id) by {
        var i :| 0 <= i < |cart| && cart[i].Id() == id;
        assert tail[i - 1].Id() == id;
      }
      BumpTotal(tail, id, qty);
    }
  }

  /** Removing a product takes exactly its line's total off the cart total. */
  lemma {:induction false} RemoveTotal(cart: seq<CartLine>, id: int)
    requires DistinctIds(cart) && HasId(cart, id)
    ensures CartTotal(WithoutId(cart, id)) == CartTotal(cart) - LineTotal(Find(cart, id).value)
  {
    var tail := cart[1..];
    assert DistinctIds(tail);
    if cart[0].Id() == id {
      assert !HasId(tail, id) by {
        forall i | 0 <= i < |tail| ensures tail[i].Id() != id {
          assert tail[i] == cart[i + 1];
        }
      }
      RemoveAbsentAndTwice(tail, id);
    } else {
      assert HasId(tail, id) by {
        var i :| 0 <= i < |cart| && cart[i].Id() == id;
        assert tail[i - 1].Id() == id;
      }
      RemoveTotal(tail, id);
      assert WithoutId(cart, id) == [cart[0]] + WithoutId(tail, id);
      assert ([cart[0]] + WithoutId(tail, id))[1..] == WithoutId(tail, id);
    }
  }

  /** One entry of the order request's `items`. */
  datatype ItemRequest = ItemRequest(productId: int, quantity: int)

  /** The body of `POST /api/orders`. */
  datatype OrderRequest = OrderRequest(customerName: string, email: string, items: seq<ItemRequest>)

  /** `cart.map(item => ({ productId: item.id, quantity: item.quantity }))` */
  function OrderItems(cart: seq<CartLine>): (r: seq<ItemRequest>)
    ensures |r| == |cart|
    ensures forall i :: 0 <= i < |cart| ==> r[i].productId == cart[i].Id() && r[i].quantity == cart[i].quantity
  {
    if cart == [] then [] else [ItemRequest(cart[0].Id(), cart[0].quantity)] + OrderItems(cart[1..])
  }

  /** The request `placeOrder` sends, if any: only with a token and a non-empty cart, and then it
      lists every line of the cart, in order. */
  function OrderRequestFor(token: Option<string>, cart: seq<CartLine>, customerName: string, email: string): (r: Option<OrderRequest>)
    ensures r.Some? <==> Truthy(token) && |cart| > 0
    ensures r.Some? ==> r.value.customerName == customerName && r.value.email == email
    ensures r.Some? ==> |r.value.items| == |cart|
    ensures r.Some? ==> forall i :: 0 <= i < |cart| ==> r.value.items[i] == ItemRequest(cart[i].Id(), cart[i].quantity)
  {
    if !Truthy(token) then None
    else if |cart| == 0 then None
    else Some(OrderRequest(customerName, email, OrderItems(cart)))
  }

  /** A cart with unique ids yields an order whose product ids are unique. */
  lemma OrderItemsDistinct(cart: seq<CartLine>)
    requires DistinctIds(cart)
    ensures forall i, j :: 0 <= i < j < |cart| ==> OrderItems(cart)[i].productId != OrderItems(cart)[j].productId
  {
  }
}
