/** The floating cart bar: hidden for an empty cart or off the listed
    prefixes, otherwise it shows the item count with a plural ending and the
    cart total. */
module FloatingCartBar {
  import opened Wrappers
  import opened Strings
  import opened Cart

  const VisiblePrefixes: seq<string> := ["/fruver", "/sales", "/search"]

  datatype BarView = BarView(items: int, total: int, caption: string)

  /** `{items} producto{items > 1 ? "s" : ""}` */
  function ItemsCaption(items: int): (s: string)
    ensures items > 1 <==> s == IntToString(items) + " productos"
    ensures items <= 1 <==> s == IntToString(items) + " producto"
  {
    IntToString(items) + " producto" + (if items > 1 then "s" else "")
  }

  /** What the bar renders for a cart on a page: `None` when it renders nothing. */
  function Bar(cart: seq<CartItem>, pathname: string): (r: Option<BarView>)
    ensures r.None? <==> |cart| == 0 || !StartsWithAny(pathname, VisiblePrefixes)
    ensures r.Some? ==> r.value.total == Total(cart) && r.value.items == ItemCount(cart)
    ensures r.Some? ==> r.value.caption == ItemsCaption(ItemCount(cart))
  {
    if |cart| == 0 then None
    else if !StartsWithAny(pathname, VisiblePrefixes) then None
    else
      var total := Total(cart);
      var items := ItemCount(cart);
      Some(BarView(items, total, ItemsCaption(items)))
  }

  /** After clearing the cart the bar disappears on every page; adding a
      product shows it on every listed prefix. */
  lemma BarFollowsCart(cart: seq<CartItem>, product: Product, quantity: Option<int>, pathname: string)
    requires StartsWithAny(pathname, VisiblePrefixes)
    ensures Bar(ClearCart(cart), pathname).None?
    ensures Bar(AddToCart(cart, product, quantity), pathname).Some?
  {
    assert HasId(AddToCart(cart, product, quantity), product.id);
  }
}
