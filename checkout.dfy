/** The checkout page: the order total is the cart fold, the order's item
    rows mirror the cart lines, and `handleSubmit` runs the two inserts in
    sequence, clearing the cart and moving to `/thanks` only when both
    succeed. The database's answers are parameters. */
module Checkout {
  import opened Wrappers
  import opened Cart

  /** The checkout form. */
  datatype Form = Form(
    name: string,
    address: string,
    email: string,
    phone: string,
    deliveryOption: string,
    paymentMethod: string,
    confirmMethod: string)

  const InitialForm := Form("", "", "", "", "", "efectivo", "")

  /** The row sent to the `orders` table. */
  datatype OrderInsert = OrderInsert(
    customerName: string,
    address: string,
    phone: string,
    email: string,
    deliveryOption: string,
    paymentMethod: string,
    confirmMethod: string,
    total: int)

  /** A row sent to the `order_items` table. */
  datatype OrderItemRow = OrderItemRow(orderId: string, productId: string, quantity: int, price: int)

  const OrderFailedMessage := "❌ Error al crear pedido"
  const ItemsFailedMessage := "❌ Error al guardar productos del pedido"
  const SuccessMessage := "✅ Pedido realizado con éxito"
  const ThanksPath := "/thanks"

  /** The order row built from the form and the cart. */
  function NewOrder(form: Form, cart: seq<CartItem>): (o: OrderInsert)
    ensures o.total == Total(cart)
    ensures o.paymentMethod == form.paymentMethod && o.confirmMethod == form.confirmMethod
    ensures o.customerName == form.name && o.address == form.address
    ensures o.phone == form.phone && o.email == form.email && o.deliveryOption == form.deliveryOption
  {
    OrderInsert(form.name, form.address, form.phone, form.email, form.deliveryOption,
                form.paymentMethod, form.confirmMethod, Total(cart))
  }

  /** `cart.map(p => ({ order_id, product_id: p.id, quantity: p.quantity, price: p.price }))` */
  function OrderItems(cart: seq<CartItem>, orderId: string): (items: seq<OrderItemRow>)
    ensures |items| == |cart|
    ensures forall i :: 0 <= i < |cart| ==>
      items[i] == OrderItemRow(orderId, cart[i].product.id, cart[i].quantity, cart[i].product.price)
  {
    if |cart| == 0 then [] else [OrderItemRow(orderId, cart[0].product.id, cart[0].quantity, cart[0].product.price)] + OrderItems(cart[1..], orderId)
  }

  /** The amount the item rows add up to. */
  function ItemsTotal(items: seq<OrderItemRow>): int
  {
    if |items| == 0 then 0 else items[0].price * items[0].quantity + ItemsTotal(items[1..])
  }

  /** The order's stored total equals what its item rows add up to. */
  lemma {:induction false} OrderTotalMatchesItems(form: Form, cart: seq<CartItem>, orderId: string)
    ensures ItemsTotal(OrderItems(cart, orderId)) == NewOrder(form, cart).total
    decreases |cart|
  {
    if |cart| > 0 {
      OrderTotalMatchesItems(form, cart[1..], orderId);
    }
  }

  lemma EmptyCartTotal()
    ensures Total([]) == 0 && ItemCount([]) == 0
  {
  }

  class CheckoutPage {
    var form: Form
    /** The cart context's state, as the page sees it. */
    var cart: seq<CartItem>
    var loading: bool
    var message: string
    /** Where `router.push` last sent the user. */
    var location: Option<string>

    constructor (cart: seq<CartItem>)
      ensures form == InitialForm && this.cart == cart
      ensures !loading && message == "" && location == None
    {
      form := InitialForm;
      this.cart := cart;
      loading := false;
      message := "";
      location := None;
    }

    /** The submit button is disabled while loading or with an empty cart. */
    function SubmitDisabled(): (d: bool)
      reads this
      ensures |cart| == 0 ==> d
      ensures loading ==> d
      ensures !loading && |cart| > 0 ==> !d
    {
      loading || |cart| == 0
    }

    /** `handleSubmit`. `createdOrder` is the id the order insert returned
        (`None`: an error, or no row); `itemsFailed` is whether the item
        insert reported an error. Returns the rows it asked to insert. */
    method HandleSubmit(createdOrder: Option<string>, itemsFailed: bool)
      returns (orderRow: OrderInsert, itemRows: Option<seq<OrderItemRow>>)
      modifies this
      ensures orderRow == NewOrder(old(form), old(cart))
      ensures form == old(form) && !loading
      ensures createdOrder.None? ==>
        && itemRows.None?
        && cart == old(cart) && message == OrderFailedMessage && location == old(location)
      ensures createdOrder.Some? ==> itemRows == Some(OrderItems(old(cart), createdOrder.value))
      ensures createdOrder.Some? && itemsFailed ==>
        cart == old(cart) && message == ItemsFailedMessage && location == old(location)
      ensures createdOrder.Some? && !itemsFailed ==>
        cart == [] && message == SuccessMessage && location == Some(ThanksPath)
    {
      loading := true;
      message := "";
      orderRow := NewOrder(form, cart);
      if createdOrder.None? {
        message := OrderFailedMessage;
        loading := false;
        itemRows := None;
        return;
      }
      var items := OrderItems(cart, createdOrder.value);
      itemRows := Some(items);
      if itemsFailed {
        message := ItemsFailedMessage;
      } else {
        message := SuccessMessage;
        cart := ClearCart(cart);
        location := Some(ThanksPath);
      }
      loading := false;
    }
  }
}
