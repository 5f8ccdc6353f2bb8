/** The admin orders page: the CSV export, the payment/date filter, the
    local status update, the export guard and the admin cancel. */
module AdminOrders {
  import opened Wrappers
  import opened Strings
  import OrderStatus

  /** An `orders` row as the page reads it. `localeDate`, `localeTime` and
      `dayString` are `created_at` rendered by the browser's
      `toLocaleDateString`, `toLocaleTimeString` and `toDateString`; nullable
      columns are `Option`s. */
  datatype Order = Order(
    id: string,
    localeDate: string,
    localeTime: string,
    dayString: string,
    customerName: Option<string>,
    address: Option<string>,
    addressDetails: Option<string>,
    phone: Option<string>,
    email: Option<string>,
    deliveryOption: Option<string>,
    paymentMethod: Option<string>,
    confirmMethod: Option<string>,
    status: string,
    cancellationReason: Option<string>,
    canceledBy: Option<string>,
    total: int)

  /** An `order_items` row joined with its product's name (`None` when the
      product is missing). A joined product whose name is null is not
      told apart from a missing one: both are `None`. */
  datatype OrderItem = OrderItem(orderId: string, productName: Option<string>, quantity: int, price: int)

  // ---------------------------------------------------------------- CSV

  /** The keys of a CSV row object, in order. */
  const Columns: seq<string> := [
    "Fecha", "Hora", "Cliente", "Direccion", "Detalles", "Telefono", "Email", "Delivery",
    "Pago", "Notificacion", "Status", "Razon_de_cancelamiento", "Cancelado_por", "Total", "Productos"]

  /** `Array.prototype.join` writes a null value as the empty string. */
  function Cell(v: Option<string>): (s: string)
    ensures v.Some? ==> s == v.value
    ensures v.None? ==> s == ""
  {
    v.GetOr("")
  }

  /** `orderItems.filter(i => i.order_id === orderId)` */
  function ItemsOf(items: seq<OrderItem>, orderId: string): (r: seq<OrderItem>)
    ensures |r| <= |items|
    ensures forall it :: it in r <==> it in items && it.orderId == orderId
  {
    if |items| == 0 then []
    else if items[0].orderId == orderId then [items[0]] + ItemsOf(items[1..], orderId)
    else ItemsOf(items[1..], orderId)
  }

  /** An order's items keep their order: the selection filters a concatenation part by part. */
  lemma {:induction false} ItemsOfAppend(a: seq<OrderItem>, b: seq<OrderItem>, orderId: string)
    ensures ItemsOf(a + b, orderId) == ItemsOf(a, orderId) + ItemsOf(b, orderId)
  {
    if |a| > 0 {
      assert (a + b)[1..] == a[1..] + b;
      ItemsOfAppend(a[1..], b, orderId);
    } else {
      assert a + b == b;
    }
  }

  /** One item is kept exactly when it belongs to the order. */
  lemma ItemsOfSingle(item: OrderItem, orderId: string)
    ensures ItemsOf([item], orderId) == if item.orderId == orderId then [item] else []
  {
    assert [item][1..] == [];
  }

  /** `${i.product?.name} x${i.quantity}`: a missing product prints "undefined". */
  function ItemText(item: OrderItem): string
  {
    item.productName.GetOr("undefined") + " x" + IntToString(item.quantity)
  }

  function ItemTexts(items: seq<OrderItem>): (r: seq<string>)
    ensures |r| == |items|
    ensures forall i :: 0 <= i < |items| ==> r[i] == ItemText(items[i])
  {
    if |items| == 0 then [] else [ItemText(items[0])] + ItemTexts(items[1..])
  }

  /** The `Productos` column. */
  function Productos(order: Order, items: seq<OrderItem>): string
  {
    Join(ItemTexts(ItemsOf(items, order.id)), "; ")
  }

  /** The values of one CSV row object, in column order. */
  function Fields(order: Order, items: seq<OrderItem>): (f: seq<string>)
    ensures |f| == |Columns|
    ensures f[0] == order.localeDate
    ensures f[1] == order.localeTime
    ensures f[2] == Cell(order.customerName)
    ensures f[3] == Cell(order.address)
    ensures f[4] == Cell(order.addressDetails)
    ensures f[5] == Cell(order.phone)
    ensures f[6] == Cell(order.email)
    ensures f[7] == Cell(order.deliveryOption)
    ensures f[8] == Cell(order.paymentMethod)
    ensures f[9] == Cell(order.confirmMethod)
    ensures f[10] == order.status
    ensures f[11] == Cell(order.cancellationReason)
    ensures f[12] == Cell(order.canceledBy)
    ensures f[13] == IntToString(order.total)
    ensures f[14] == Productos(order, items)
  {
    var who := [order.localeDate, order.localeTime, Cell(order.customerName), Cell(order.address),
                Cell(order.addressDetails), Cell(order.phone), Cell(order.email)];
    var how := [Cell(order.deliveryOption), Cell(order.paymentMethod), Cell(order.confirmMethod), order.status];
    var what := [Cell(order.cancellationReason), Cell(order.canceledBy), IntToString(order.total),
                 Productos(order, items)];
    who + how + what
  }

  function Row(order: Order, items: seq<OrderItem>): string
  {
    Join(Fields(order, items), ",")
  }

  function Rows(orders: seq<Order>, items: seq<OrderItem>): (r: seq<string>)
    ensures |r| == |orders|
    ensures forall i :: 0 <= i < |orders| ==> r[i] == Row(orders[i], items)
  {
    if |orders| == 0 then [] else [Row(orders[0], items)] + Rows(orders[1..], items)
  }

  function Header(): string
  {
    Join(Columns, ",")
  }

  /** `generateCSV`: empty when either list is empty, else the header line
      followed by one line per order. */
  function GenerateCsv(orders: seq<Order>, items: seq<OrderItem>): (csv: string)
    ensures csv == "" <==> |orders| == 0 || |items| == 0
  {
    if |orders| == 0 || |items| == 0 then ""
    else Header() + "\n" + Join(Rows(orders, items), "\n")
  }

  /** A text cell that neither breaks a line nor a field (fields are not quoted). */
  predicate Clean(s: string)
  {
    '\n' !in s && ',' !in s
  }

  predicate CleanCell(v: Option<string>)
  {
    v.Some? ==> Clean(v.value)
  }

  predicate CleanOrder(o: Order)
  {
    Clean(o.localeDate) && Clean(o.localeTime) && CleanCell(o.customerName) &&
    CleanCell(o.address) && CleanCell(o.addressDetails) && CleanCell(o.phone) &&
    CleanCell(o.email) && CleanCell(o.deliveryOption) && CleanCell(o.paymentMethod) &&
    CleanCell(o.confirmMethod) && Clean(o.status) && CleanCell(o.cancellationReason) &&
    CleanCell(o.canceledBy)
  }

  predicate CleanItems(items: seq<OrderItem>)
  {
    forall i :: 0 <= i < |items| ==> CleanCell(items[i].productName)
  }

  lemma {:induction false} JoinCons(a: string, rest: seq<string>, sep: string)
    requires |rest| >= 1
    ensures Join([a] + rest, sep) == a + sep + Join(rest, sep)
  {
    assert ([a] + rest)[1..] == rest;
  }

  lemma ItemTextsClean(items: seq<OrderItem>)
    requires CleanItems(items)
    ensures forall i :: 0 <= i < |ItemTexts(items)| ==> Clean(ItemTexts(items)[i])
  {
    forall i | 0 <= i < |items| ensures Clean(ItemTexts(items)[i]) {
      ItemTextClean(items[i]);
    }
  }

  lemma ItemTextClean(item: OrderItem)
    requires CleanCell(item.productName)
    ensures Clean(ItemText(item))
  {
    var name, count := item.productName.GetOr("undefined"), IntToString(item.quantity);
    assert ItemText(item) == name + " x" + count;
    assert Clean(name) && Clean(" x") && Clean(count);
  }

  lemma ItemsOfClean(items: seq<OrderItem>, orderId: string)
    requires CleanItems(items)
    ensures CleanItems(ItemsOf(items, orderId))
  {
    var r := ItemsOf(items, orderId);
    forall i | 0 <= i < |r| ensures CleanCell(r[i].productName) {
      assert r[i] in items;
    }
  }

  lemma ProductosClean(order: Order, items: seq<OrderItem>)
    requires CleanItems(items)
    ensures Clean(Productos(order, items))
  {
    var mine := ItemsOf(items, order.id);
    ItemsOfClean(items, order.id);
    ItemTextsClean(mine);
    JoinAvoids(ItemTexts(mine), "; ", '\n');
    JoinAvoids(ItemTexts(mine), "; ", ',');
  }

  /** With clean cells, no field of a row holds a comma or a line break. */
  lemma FieldsClean(order: Order, items: seq<OrderItem>)
    requires CleanOrder(order) && CleanItems(items)
    ensures forall i :: 0 <= i < |Fields(order, items)| ==> Clean(Fields(order, items)[i])
  {
    ProductosClean(order, items);
    var f := Fields(order, items);
    assert Clean(f[0]) && Clean(f[1]) && Clean(f[2]) && Clean(f[3]) && Clean(f[4]);
    assert Clean(f[5]) && Clean(f[6]) && Clean(f[7]) && Clean(f[8]) && Clean(f[9]);
    assert Clean(f[10]) && Clean(f[11]) && Clean(f[12]) && Clean(f[13]) && Clean(f[14]);
  }

  lemma ColumnsLackBreak()
    ensures forall i :: 0 <= i < |Columns| ==> '\n' !in Columns[i]
  {
    assert Columns[0] == "Fecha";
  }

  lemma HeaderClean()
    ensures '\n' !in Header()
  {
    ColumnsLackBreak();
    JoinAvoids(Columns, ",", '\n');
  }

  /** Reading the export back: with clean cells, the comma-split of a row
      gives back exactly its 15 values. */
  lemma RowRoundTrip(order: Order, items: seq<OrderItem>)
    requires CleanOrder(order) && CleanItems(items)
    ensures Split(Row(order, items), ',') == Fields(order, items)
    ensures |Split(Row(order, items), ',')| == |Columns|
  {
    FieldsClean(order, items);
    SplitJoin(Fields(order, items), ',');
  }

  /** Reading the export back: with clean cells, the line-split of a
      non-empty export is the header followed by one row per order, in order. */
  lemma CsvRoundTrip(orders: seq<Order>, items: seq<OrderItem>)
    requires |orders| > 0 && |items| > 0
    requires forall i :: 0 <= i < |orders| ==> CleanOrder(orders[i])
    requires CleanItems(items)
    ensures Split(GenerateCsv(orders, items), '\n') == [Header()] + Rows(orders, items)
    ensures |Split(GenerateCsv(orders, items), '\n')| == |orders| + 1
  {
    var rows := Rows(orders, items);
    var lines := [Header()] + rows;
    JoinCons(Header(), rows, "\n");
    HeaderClean();
    forall i | 0 <= i < |orders| ensures '\n' !in rows[i] {
      RowLacksBreak(orders[i], items);
    }
    forall i | 0 <= i < |lines| ensures '\n' !in lines[i] {
      if i > 0 {
        assert lines[i] == rows[i - 1];
      }
    }
    SplitJoin(lines, '\n');
  }

  lemma RowLacksBreak(order: Order, items: seq<OrderItem>)
    requires CleanOrder(order) && CleanItems(items)
    ensures '\n' !in Row(order, items)
  {
    FieldsClean(order, items);
    JoinAvoids(Fields(order, items), ",", '\n');
  }

  // ---------------------------------------------------------------- Filters

  /** The payment filter: "" keeps every order. */
  predicate MatchesPayment(o: Order, paymentFilter: string)
  {
    paymentFilter == "" || o.paymentMethod == Some(paymentFilter)
  }

  /** The date filter: "" keeps every order, else the order's calendar day
      must equal `filterDay`, the `toDateString()` of the chosen date. */
  predicate MatchesDate(o: Order, dateFilter: string, filterDay: string)
  {
    dateFilter == "" || o.dayString == filterDay
  }

  /** `filteredOrders` */
  function FilterOrders(orders: seq<Order>, paymentFilter: string, dateFilter: string, filterDay: string): (r: seq<Order>)
    ensures |r| <= |orders|
    ensures forall o :: o in r <==> o in orders && MatchesPayment(o, paymentFilter) && MatchesDate(o, dateFilter, filterDay)
  {
    if |orders| == 0 then []
    else
      var rest := FilterOrders(orders[1..], paymentFilter, dateFilter, filterDay);
      if MatchesPayment(orders[0], paymentFilter) && MatchesDate(orders[0], dateFilter, filterDay)
      then [orders[0]] + rest else rest
  }

  /** The listed orders keep their order: the filter works on a concatenation part by part. */
  lemma {:induction false} FilterOrdersAppend(a: seq<Order>, b: seq<Order>, paymentFilter: string, dateFilter: string, filterDay: string)
    ensures FilterOrders(a + b, paymentFilter, dateFilter, filterDay) == FilterOrders(a, paymentFilter, dateFilter, filterDay) + FilterOrders(b, paymentFilter, dateFilter, filterDay)
  {
    if |a| > 0 {
      assert (a + b)[1..] == a[1..] + b;
      FilterOrdersAppend(a[1..], b, paymentFilter, dateFilter, filterDay);
    } else {
      assert a + b == b;
    }
  }

  /** One order is listed exactly when it passes both filters. */
  lemma FilterOrdersSingle(o: Order, paymentFilter: string, dateFilter: string, filterDay: string)
    ensures FilterOrders([o], paymentFilter, dateFilter, filterDay) == if MatchesPayment(o, paymentFilter) && MatchesDate(o, dateFilter, filterDay) then [o] else []
  {
    assert [o][1..] == [];
  }

  function ByPayment(orders: seq<Order>, paymentFilter: string): seq<Order>
  {
    if |orders| == 0 then []
    else if MatchesPayment(orders[0], paymentFilter) then [orders[0]] + ByPayment(orders[1..], paymentFilter)
    else ByPayment(orders[1..], paymentFilter)
  }

  function ByDate(orders: seq<Order>, dateFilter: string, filterDay: string): seq<Order>
  {
    if |orders| == 0 then []
    else if MatchesDate(orders[0], dateFilter, filterDay) then [orders[0]] + ByDate(orders[1..], dateFilter, filterDay)
    else ByDate(orders[1..], dateFilter, filterDay)
  }

  /** The two filters compose: filtering by both at once is filtering by
      payment method, then by day, keeping the order of the list; with both
      filters empty every order is kept. */
  lemma {:induction false} FilterComposes(orders: seq<Order>, paymentFilter: string, dateFilter: string, filterDay: string)
    ensures FilterOrders(orders, paymentFilter, dateFilter, filterDay) == ByDate(ByPayment(orders, paymentFilter), dateFilter, filterDay)
    ensures paymentFilter == "" && dateFilter == "" ==> FilterOrders(orders, paymentFilter, dateFilter, filterDay) == orders
  {
    if |orders| > 0 {
      FilterComposes(orders[1..], paymentFilter, dateFilter, filterDay);
      var p := ByPayment(orders[1..], paymentFilter);
      if MatchesPayment(orders[0], paymentFilter) {
        assert ByPayment(orders, paymentFilter) == [orders[0]] + p;
        assert ([orders[0]] + p)[1..] == p;
      }
    }
  }

  // ---------------------------------------------------------------- Updates

  /** The local update after a successful status change. */
  function SetStatus(orders: seq<Order>, orderId: string, newStatus: string): (r: seq<Order>)
    ensures |r| == |orders|
    ensures forall i :: 0 <= i < |orders| ==> r[i].(status := orders[i].status) == orders[i]
    ensures forall i :: 0 <= i < |orders| ==> r[i].status == if orders[i].id == orderId then newStatus else orders[i].status
  {
    if |orders| == 0 then []
    else
      var head := if orders[0].id == orderId then orders[0].(status := newStatus) else orders[0];
      [head] + SetStatus(orders[1..], orderId, newStatus)
  }

  /** Changing a status and changing it back restores the list; changing it
      twice is changing it once. */
  lemma SetStatusUndo(orders: seq<Order>, orderId: string, oldStatus: string, newStatus: string)
    requires forall i :: 0 <= i < |orders| && orders[i].id == orderId ==> orders[i].status == oldStatus
    ensures SetStatus(SetStatus(orders, orderId, newStatus), orderId, oldStatus) == orders
    ensures SetStatus(SetStatus(orders, orderId, newStatus), orderId, newStatus) == SetStatus(orders, orderId, newStatus)
  {
    var once := SetStatus(orders, orderId, newStatus);
    var back := SetStatus(once, orderId, oldStatus);
    forall i | 0 <= i < |orders| ensures back[i] == orders[i] {
      assert back[i].(status := once[i].status) == once[i];
      assert once[i].(status := orders[i].status) == orders[i];
    }
    var twice := SetStatus(once, orderId, newStatus);
    forall i | 0 <= i < |orders| ensures twice[i] == once[i] {
      assert twice[i].(status := once[i].status) == once[i];
    }
  }

  /** The row the admin cancel writes. */
  datatype CancelUpdate = CancelUpdate(orderId: string, status: string, cancellationReason: string, canceledBy: string)

  function CancelPayload(orderId: string, reason: string): (u: CancelUpdate)
    ensures u.status == OrderStatus.Value(OrderStatus.Cancelled)
    ensures u.orderId == orderId && u.cancellationReason == reason && u.canceledBy == "admin"
  {
    CancelUpdate(orderId, "cancelled", reason, "admin")
  }

  /** The cancel button shows only on pending orders. */
  predicate CanCancel(o: Order)
  {
    o.status == OrderStatus.Value(OrderStatus.Pending)
  }

  /** What the update does to the stored rows. */
  function ApplyCancel(orders: seq<Order>, u: CancelUpdate): (r: seq<Order>)
    ensures |r| == |orders|
    ensures forall i :: 0 <= i < |orders| && orders[i].id != u.orderId ==> r[i] == orders[i]
    ensures forall i :: 0 <= i < |orders| && orders[i].id == u.orderId ==>
      r[i] == orders[i].(status := u.status, cancellationReason := Some(u.cancellationReason), canceledBy := Some(u.canceledBy))
  {
    if |orders| == 0 then []
    else
      var o := orders[0];
      var head := if o.id == u.orderId
        then o.(status := u.status, cancellationReason := Some(u.cancellationReason), canceledBy := Some(u.canceledBy))
        else o;
      [head] + ApplyCancel(orders[1..], u)
  }

  /** After an admin cancel the order reads "Cancelado", shows the reason and
      "Administrador", and no longer offers the cancel button. */
  lemma CancelledOrderView(orders: seq<Order>, orderId: string, reason: string, i: int)
    requires 0 <= i < |orders| && orders[i].id == orderId
    ensures !CanCancel(ApplyCancel(orders, CancelPayload(orderId, reason))[i])
    ensures OrderStatus.GetStatusLabelFromList(ApplyCancel(orders, CancelPayload(orderId, reason))[i].status) == "Cancelado"
    ensures reason != "" ==> CancellationNotice(ApplyCancel(orders, CancelPayload(orderId, reason))[i]) == Some((reason, "Administrador"))
  {
    var u := CancelPayload(orderId, reason);
    var o := ApplyCancel(orders, u)[i];
    assert o == orders[i].(status := u.status, cancellationReason := Some(reason), canceledBy := Some("admin"));
    CancelledRowView(orders[i], reason);
  }

  lemma CancelledRowView(o: Order, reason: string)
    ensures var c := o.(status := OrderStatus.Value(OrderStatus.Cancelled), cancellationReason := Some(reason), canceledBy := Some("admin"));
      && !CanCancel(c)
      && OrderStatus.GetStatusLabelFromList(c.status) == "Cancelado"
      && (reason != "" ==> CancellationNotice(c) == Some((reason, "Administrador")))
  {
    var status := OrderStatus.Value(OrderStatus.Cancelled);
    assert OrderStatus.GetStatusLabelFromList(status) == OrderStatus.Label(OrderStatus.Cancelled);
  }

  /** The red box of a cancelled order: the reason (or a default) and who cancelled. */
  function CancellationNotice(o: Order): (r: Option<(string, string)>)
    ensures r.Some? <==> o.status == "cancelled"
    ensures r.Some? ==> r.value.0 != "" && (r.value.1 == "Administrador" <==> o.canceledBy == Some("admin"))
  {
    if o.status != "cancelled" then None
    else
      var reason := if o.cancellationReason.Some? && o.cancellationReason.value != "" then o.cancellationReason.value else "Sin motivo especificado";
      Some((reason, if o.canceledBy == Some("admin") then "Administrador" else "Cliente"))
  }

  // ---------------------------------------------------------------- Cancel dialogs

  /** Every listed order renders its own cancel dialog, and all of them are
      bound to the one `showCancelDialog` flag: the ids of the orders whose
      dialog is open, as written. */
  function OpenDialogsAsWritten(listed: seq<Order>, showCancelDialog: bool): (ids: seq<string>)
    ensures showCancelDialog ==> |ids| == |listed|
    ensures showCancelDialog ==> forall i :: 0 <= i < |listed| ==> ids[i] == listed[i].id
    ensures !showCancelDialog ==> ids == []
  {
    if !showCancelDialog || |listed| == 0 then []
    else [listed[0].id] + OpenDialogsAsWritten(listed[1..], showCancelDialog)
  }

  /** Pressing "Cancelar pedido" on a pending order opens the dialog of every
      other listed order too, including one that is not pending; confirming
      that one cancels the wrong order. */
  lemma SharedDialogOpensOthers(a: Order, b: Order)
    requires CanCancel(a) && !CanCancel(b) && a.id != b.id
    ensures b.id in OpenDialogsAsWritten([a, b], true)
  {
    assert OpenDialogsAsWritten([a, b], true)[1] == b.id by {
      assert [a, b][1..] == [b];
    }
  }

  /** The intended binding: a dialog is open only for the order whose cancel
      button was pressed. */
  function OpenDialogs(listed: seq<Order>, cancelTarget: Option<string>): (ids: seq<string>)
    ensures forall id :: id in ids ==> cancelTarget == Some(id)
    ensures cancelTarget.Some? ==> (cancelTarget.value in ids <==> exists o :: o in listed && o.id == cancelTarget.value)
  {
    if cancelTarget.None? || |listed| == 0 then []
    else
      var rest := OpenDialogs(listed[1..], cancelTarget);
      if listed[0].id == cancelTarget.value then [listed[0].id] + rest else rest
  }

  // ---------------------------------------------------------------- The page

  datatype ToastKind = Success | Failure | Warning | Loading

  datatype Toast = Toast(kind: ToastKind, text: string)

  class OrdersPage {
    var orders: seq<Order>
    var orderItems: seq<OrderItem>
    var paymentFilter: string
    var dateFilter: string
    /** The order whose cancel dialog is open (the intended form of the
        shared `showCancelDialog` flag). */
    var cancelTarget: Option<string>
    var loading: bool
    var toast: Option<Toast>

    constructor()
      ensures orders == [] && orderItems == [] && paymentFilter == "" && dateFilter == ""
      ensures cancelTarget == None && !loading && toast == None
    {
      orders := [];
      orderItems := [];
      paymentFilter := "";
      dateFilter := "";
      cancelTarget := None;
      loading := false;
      toast := None;
    }

    /** `fetchData`: a failed read leaves an empty list. */
    method FetchData(fetchedOrders: Option<seq<Order>>, fetchedItems: Option<seq<OrderItem>>)
      modifies this
      ensures orders == fetchedOrders.GetOr([]) && orderItems == fetchedItems.GetOr([])
      ensures !loading
      ensures paymentFilter == old(paymentFilter) && dateFilter == old(dateFilter)
      ensures cancelTarget == old(cancelTarget) && toast == old(toast)
    {
      loading := true;
      orders := fetchedOrders.GetOr([]);
      orderItems := fetchedItems.GetOr([]);
      loading := false;
    }

    function Filtered(filterDay: string): (r: seq<Order>)
      reads this
      ensures forall o :: o in r <==> o in orders && MatchesPayment(o, paymentFilter) && MatchesDate(o, dateFilter, filterDay)
    {
      FilterOrders(orders, paymentFilter, dateFilter, filterDay)
    }

    /** `handleExport`: nothing to export gives a warning and no file. */
    method HandleExport(filterDay: string) returns (csv: Option<string>, notice: Toast)
      ensures csv.None? <==> |Filtered(filterDay)| == 0
      ensures csv.None? ==> notice == Toast(Warning, "No hay pedidos para exportar")
      ensures csv.Some? ==> csv.value == GenerateCsv(Filtered(filterDay), orderItems) && notice == Toast(Success, "CSV exportado")
    {
      var listed := Filtered(filterDay);
      if |listed| == 0 {
        return None, Toast(Warning, "No hay pedidos para exportar");
      }
      csv := Some(GenerateCsv(listed, orderItems));
      notice := Toast(Success, "CSV exportado");
    }

    /** `handleStatusChange`; `failed` is the update's error. */
    method HandleStatusChange(orderId: string, newStatus: string, failed: bool)
      modifies this
      ensures failed ==> orders == old(orders) && toast == Some(Toast(Failure, "Error al actualizar estado"))
      ensures !failed ==> orders == SetStatus(old(orders), orderId, newStatus) && toast == Some(Toast(Success, "Estado actualizado"))
      ensures orderItems == old(orderItems) && cancelTarget == old(cancelTarget) && loading == old(loading)
      ensures paymentFilter == old(paymentFilter) && dateFilter == old(dateFilter)
    {
      if failed {
        toast := Some(Toast(Failure, "Error al actualizar estado"));
      } else {
        orders := SetStatus(orders, orderId, newStatus);
        toast := Some(Toast(Success, "Estado actualizado"));
      }
    }

    /** The "Cancelar pedido" button, shown only on pending orders. */
    method PressCancel(orderId: string)
      modifies this
      ensures (exists o :: o in orders && o.id == orderId && CanCancel(o)) ==> cancelTarget == Some(orderId)
      ensures !(exists o :: o in orders && o.id == orderId && CanCancel(o)) ==> cancelTarget == old(cancelTarget)
      ensures orders == old(orders) && orderItems == old(orderItems) && loading == old(loading) && toast == old(toast)
      ensures paymentFilter == old(paymentFilter) && dateFilter == old(dateFilter)
    {
      if exists o :: o in orders && o.id == orderId && CanCancel(o) {
        cancelTarget := Some(orderId);
      }
    }

    /** Closing the dialog. */
    method CloseDialog()
      modifies this
      ensures cancelTarget == None
      ensures orders == old(orders) && orderItems == old(orderItems) && loading == old(loading) && toast == old(toast)
      ensures paymentFilter == old(paymentFilter) && dateFilter == old(dateFilter)
    {
      cancelTarget := None;
    }

    /** Confirming the open dialog with a reason: the update is sent; on
        failure the dialog stays open, on success the lists are fetched again
        and the dialog closes. */
    method ConfirmCancel(reason: string, failed: bool, fetchedOrders: Option<seq<Order>>, fetchedItems: Option<seq<OrderItem>>)
      returns (sent: CancelUpdate)
      requires cancelTarget.Some?
      modifies this
      ensures sent == CancelPayload(old(cancelTarget).value, reason)
      ensures !loading
      ensures failed ==> orders == old(orders) && orderItems == old(orderItems) && cancelTarget == old(cancelTarget)
      ensures failed ==> toast == Some(Toast(Failure, "Error al cancelar el pedido"))
      ensures !failed ==> orders == fetchedOrders.GetOr([]) && orderItems == fetchedItems.GetOr([])
      ensures !failed ==> cancelTarget == None && toast == Some(Toast(Success, "Pedido cancelado"))
      ensures paymentFilter == old(paymentFilter) && dateFilter == old(dateFilter)
    {
      toast := Some(Toast(Loading, "Cancelando pedido..."));
      loading := true;
      sent := CancelPayload(cancelTarget.value, reason);
      if failed {
        toast := Some(Toast(Failure, "Error al cancelar el pedido"));
        loading := false;
        return;
      }
      FetchData(fetchedOrders, fetchedItems);
      toast := Some(Toast(Success, "Pedido cancelado"));
      cancelTarget := None;
      loading := false;
    }
  }
}
