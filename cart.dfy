/** The cart context: the cart is a sequence of product lines, and
    `addToCart`, `removeFromCart` and `clearCart` are functional updaters
    that return the next cart from the previous one. */
module Cart {
  import opened Wrappers

  /** A catalogue product; money is a whole number of pesos. */
  datatype Product = Product(
    id: string,
    name: string,
    description: Option<string>,
    price: int,
    imageUrl: Option<string>,
    category: Option<string>,
    stock: int,
    discount: Option<int>,
    isActive: bool,
    createdAt: string)

  /** `Product & { quantity: number }`: the product's fields plus a quantity. */
  datatype CartItem = CartItem(product: Product, quantity: int)

  predicate HasId(cart: seq<CartItem>, id: string)
  {
    exists i :: 0 <= i < |cart| && cart[i].product.id == id
  }

  /** No two lines share a product id. */
  predicate DistinctIds(cart: seq<CartItem>)
  {
    forall i, j :: 0 <= i < j < |cart| ==> cart[i].product.id != cart[j].product.id
  }

  /** `cart.reduce((acc, item) => acc + item.price * item.quantity, 0)` */
  function Total(cart: seq<CartItem>): int
  {
    if |cart| == 0 then 0 else cart[0].product.price * cart[0].quantity + Total(cart[1..])
  }

  /** `cart.reduce((acc, item) => acc + item.quantity, 0)` */
  function ItemCount(cart: seq<CartItem>): int
  {
    if |cart| == 0 then 0 else cart[0].quantity + ItemCount(cart[1..])
  }

  /** `prev.map(p => p.id === id ? { ...p, quantity: p.quantity + q } : p)` */
  function Increase(cart: seq<CartItem>, id: string, q: int): (r: seq<CartItem>)
    ensures |r| == |cart|
    ensures forall i :: 0 <= i < |cart| ==>
      r[i] == if cart[i].product.id == id then CartItem(cart[i].product, cart[i].quantity + q) else cart[i]
  {
    if |cart| == 0 then []
    else
      var head := if cart[0].product.id == id then CartItem(cart[0].product, cart[0].quantity + q) else cart[0];
      [head] + Increase(cart[1..], id, q)
  }

  /** `addToCart`: a product already in the cart has its line's quantity
      raised by `quantity ?? 1`; a new product is appended as a line of that
      quantity. */
  function AddToCart(cart: seq<CartItem>, product: Product, quantity: Option<int>): (r: seq<CartItem>)
    ensures HasId(cart, product.id) ==>
      && |r| == |cart|
      && (forall i :: 0 <= i < |cart| ==> r[i].product == cart[i].product)
      && (forall i :: 0 <= i < |cart| && cart[i].product.id != product.id ==> r[i] == cart[i])
      && (forall i :: 0 <= i < |cart| && cart[i].product.id == product.id ==>
            r[i].quantity == cart[i].quantity + quantity.GetOr(1))
    ensures !HasId(cart, product.id) ==> r == cart + [CartItem(product, quantity.GetOr(1))]
    ensures DistinctIds(cart) ==> DistinctIds(r)
    ensures HasId(r, product.id)
  {
    var quantityToAdd := quantity.GetOr(1);
    if HasId(cart, product.id) then Increase(cart, product.id, quantityToAdd)
    else
      var r := cart + [CartItem(product, quantityToAdd)];
      assert r[|cart|].product.id == product.id;
      r
  }

  /** `prev.filter(p => p.id !== id)` */
  function RemoveFromCart(cart: seq<CartItem>, id: string): (r: seq<CartItem>)
    ensures !HasId(r, id)
    ensures !HasId(cart, id) ==> r == cart
  {
    if |cart| == 0 then []
    else if cart[0].product.id == id then RemoveFromCart(cart[1..], id)
    else [cart[0]] + RemoveFromCart(cart[1..], id)
  }

  /** `setCart([])` */
  function ClearCart(cart: seq<CartItem>): (r: seq<CartItem>)
    ensures |r| == 0 && Total(r) == 0 && ItemCount(r) == 0
  {
    []
  }

  lemma {:induction false} TotalAppend(a: seq<CartItem>, b: seq<CartItem>)
    ensures Total(a + b) == Total(a) + Total(b)
    ensures ItemCount(a + b) == ItemCount(a) + ItemCount(b)
    decreases |a|
  {
    if |a| == 0 {
      assert a + b == b;
    } else {
      assert (a + b)[1..] == a[1..] + b;
      TotalAppend(a[1..], b);
    }
  }

  /** Raising the one line with `id` by `q` raises the item count by `q`
      and the total by that line's price times `q`. */
  lemma {:induction false} IncreaseTotals(cart: seq<CartItem>, id: string, q: int, k: int)
    requires DistinctIds(cart)
    requires 0 <= k < |cart| && cart[k].product.id == id
    ensures ItemCount(Increase(cart, id, q)) == ItemCount(cart) + q
    ensures Total(Increase(cart, id, q)) == Total(cart) + cart[k].product.price * q
    decreases |cart|
  {
    var r := Increase(cart, id, q);
    assert r[1..] == Increase(cart[1..], id, q);
    if k == 0 {
      IncreaseAbsent(cart[1..], id, q);
    } else {
      IncreaseTotals(cart[1..], id, q, k - 1);
    }
  }

  lemma {:induction false} IncreaseAbsent(cart: seq<CartItem>, id: string, q: int)
    requires !HasId(cart, id)
    ensures Increase(cart, id, q) == cart
    decreases |cart|
  {
    if |cart| > 0 {
      IncreaseAbsent(cart[1..], id, q);
    }
  }

  /** With distinct ids, adding `quantity ?? 1` of a product raises the item
      count by exactly that much, and the total by that much times the
      price of the product's line (the existing line's price when the
      product was already in the cart). */
  lemma AddToCartTotals(cart: seq<CartItem>, product: Product, quantity: Option<int>)
    requires DistinctIds(cart)
    ensures ItemCount(AddToCart(cart, product, quantity)) == ItemCount(cart) + quantity.GetOr(1)
    ensures !HasId(cart, product.id) ==>
      Total(AddToCart(cart, product, quantity)) == Total(cart) + product.price * quantity.GetOr(1)
    ensures forall k :: 0 <= k < |cart| && cart[k].product.id == product.id ==>
      Total(AddToCart(cart, product, quantity)) == Total(cart) + cart[k].product.price * quantity.GetOr(1)
  {
    var q := quantity.GetOr(1);
    if HasId(cart, product.id) {
      var k :| 0 <= k < |cart| && cart[k].product.id == product.id;
      IncreaseTotals(cart, product.id, q, k);
    } else {
      TotalAppend(cart, [CartItem(product, q)]);
    }
  }

  /** Removing a product that is not in the cart after adding it undoes the add. */
  lemma {:induction false} RemoveUndoesAdd(cart: seq<CartItem>, product: Product, quantity: Option<int>)
    requires !HasId(cart, product.id)
    ensures RemoveFromCart(AddToCart(cart, product, quantity), product.id) == cart
    decreases |cart|
  {
    var line := CartItem(product, quantity.GetOr(1));
    if |cart| == 0 {
      assert RemoveFromCart([line], product.id) == RemoveFromCart([], product.id);
    } else {
      assert (cart + [line])[1..] == cart[1..] + [line];
      forall i | 0 <= i < |cart[1..]| ensures cart[1..][i].product.id != product.id {
        assert cart[1..][i] == cart[i + 1];
      }
      RemoveUndoesAdd(cart[1..], product, quantity);
      assert AddToCart(cart[1..], product, quantity) == cart[1..] + [line];
    }
  }

  /** With distinct ids, the id of line `k` occurs in no other line. */
  lemma OthersLackId(cart: seq<CartItem>, k: int)
    requires DistinctIds(cart)
    requires 0 <= k < |cart|
    ensures !HasId(cart[..k], cart[k].product.id)
    ensures !HasId(cart[k + 1..], cart[k].product.id)
  {
    var pre, post := cart[..k], cart[k + 1..];
    forall i | 0 <= i < |pre| ensures pre[i].product.id != cart[k].product.id {
      assert pre[i] == cart[i];
    }
    forall i | 0 <= i < |post| ensures post[i].product.id != cart[k].product.id {
      assert post[i] == cart[k + 1 + i];
    }
  }

  lemma {:induction false} RemoveAppend(a: seq<CartItem>, b: seq<CartItem>, id: string)
    ensures RemoveFromCart(a + b, id) == RemoveFromCart(a, id) + RemoveFromCart(b, id)
    decreases |a|
  {
    if |a| == 0 {
      assert a + b == b;
    } else {
      assert (a + b)[1..] == a[1..] + b;
      RemoveAppend(a[1..], b, id);
    }
  }

  lemma RemoveLineShape(cart: seq<CartItem>, k: int)
    requires 0 <= k < |cart|
    requires !HasId(cart[..k], cart[k].product.id) && !HasId(cart[k + 1..], cart[k].product.id)
    ensures RemoveFromCart(cart, cart[k].product.id) == cart[..k] + cart[k + 1..]
  {
    var rest := cart[k..];
    assert rest[1..] == cart[k + 1..];
    RemoveHead(rest);
    assert cart == cart[..k] + rest;
    RemoveAppend(cart[..k], rest, cart[k].product.id);
  }

  lemma RemoveHead(cart: seq<CartItem>)
    requires |cart| > 0 && !HasId(cart[1..], cart[0].product.id)
    ensures RemoveFromCart(cart, cart[0].product.id) == cart[1..]
  {
  }

  /** The folds split around line `k`. */
  lemma SplitTotals(cart: seq<CartItem>, k: int)
    requires 0 <= k < |cart|
    ensures Total(cart) == Total(cart[..k]) + cart[k].product.price * cart[k].quantity + Total(cart[k + 1..])
    ensures ItemCount(cart) == ItemCount(cart[..k]) + cart[k].quantity + ItemCount(cart[k + 1..])
  {
    var pre, line, post := cart[..k], cart[k], cart[k + 1..];
    var rest := cart[k..];
    assert rest == [line] + post;
    assert cart == pre + rest;
    TotalAppend(pre, rest);
    TotalAppend([line], post);
  }

  /** With distinct ids, removing the product of line `k` deletes exactly that
      line and keeps the others in their order, taking its amount off the
      total and the item count. */
  lemma RemoveLine(cart: seq<CartItem>, k: int)
    requires DistinctIds(cart)
    requires 0 <= k < |cart|
    ensures RemoveFromCart(cart, cart[k].product.id) == cart[..k] + cart[k + 1..]
    ensures Total(RemoveFromCart(cart, cart[k].product.id)) == Total(cart) - cart[k].product.price * cart[k].quantity
    ensures ItemCount(RemoveFromCart(cart, cart[k].product.id)) == ItemCount(cart) - cart[k].quantity
  {
    OthersLackId(cart, k);
    RemoveLineShape(cart, k);
    SplitTotals(cart, k);
    TotalAppend(cart[..k], cart[k + 1..]);
  }

  /** `removeFromCart` keeps exactly the lines of other products. */
  lemma {:induction false} RemoveKeepsOthers(cart: seq<CartItem>, id: string, x: CartItem)
    ensures x in RemoveFromCart(cart, id) <==> x in cart && x.product.id != id
    decreases |cart|
  {
    if |cart| > 0 {
      RemoveKeepsOthers(cart[1..], id, x);
      assert cart == [cart[0]] + cart[1..];
    }
  }

  /** Distinct ids stay distinct after a removal. */
  lemma RemoveKeepsDistinct(cart: seq<CartItem>, id: string)
    requires DistinctIds(cart)
    ensures DistinctIds(RemoveFromCart(cart, id))
  {
    if HasId(cart, id) {
      var k :| 0 <= k < |cart| && cart[k].product.id == id;
      RemoveLine(cart, k);
      var r := cart[..k] + cart[k + 1..];
      forall i, j | 0 <= i < j < |r| ensures r[i].product.id != r[j].product.id {
        var i' := if i < k then i else i + 1;
        var j' := if j < k then j else j + 1;
        assert r[i] == cart[i'] && r[j] == cart[j'];
      }
    }
  }
}
