/** The order-status tables (`ORDER_STATUS`, `ORDER_STATUS_LABELS`,
    `ORDER_STATUSES`, `STATUS_COLORS`) and the label lookup
    `getStatusLabelFromList`, which falls back to the raw status. */
module OrderStatus {
  import opened Wrappers

  /** The `ORDER_STATUS` enum. */
  datatype Status = Pending | Confirmed | Paid | Cancelled | Delivered | Refunded

  /** The enum's members in declaration order. */
  const AllStatuses: seq<Status> := [Pending, Confirmed, Paid, Cancelled, Delivered, Refunded]

  /** The string each enum member stands for. */
  function Value(s: Status): string
  {
    match s
    case Pending => "pending"
    case Confirmed => "confirmed"
    case Paid => "paid"
    case Cancelled => "cancelled"
    case Delivered => "delivered"
    case Refunded => "refunded"
  }

  /** `ORDER_STATUS_LABELS` */
  function Label(s: Status): string
  {
    match s
    case Pending => "Pendiente"
    case Confirmed => "Confirmado"
    case Paid => "Pagado"
    case Cancelled => "Cancelado"
    case Delivered => "Entregado"
    case Refunded => "Devuelto"
  }

  /** The status a stored string names, if any; the inverse of `Value`. */
  function Parse(value: string): (r: Option<Status>)
    ensures r.Some? ==> Value(r.value) == value
    ensures forall s :: Value(s) == value ==> r == Some(s)
  {
    match value
    case "pending" => Some(Pending)
    case "confirmed" => Some(Confirmed)
    case "paid" => Some(Paid)
    case "cancelled" => Some(Cancelled)
    case "delivered" => Some(Delivered)
    case "refunded" => Some(Refunded)
    case _ => None
  }

  /** An entry of `ORDER_STATUSES`. */
  datatype StatusOption = StatusOption(value: string, caption: string)

  /** `ORDER_STATUSES`: every status in enum order with its label. */
  const OrderStatuses: seq<StatusOption> :=
    [Entry(Pending), Entry(Confirmed), Entry(Paid), Entry(Cancelled), Entry(Delivered), Entry(Refunded)]

  function Entry(s: Status): StatusOption
  {
    StatusOption(Value(s), Label(s))
  }

  /** `STATUS_COLORS` */
  const StatusColors: map<string, string> := map[
    "pending" := "bg-yellow-200 text-yellow-800",
    "confirmed" := "bg-blue-200 text-blue-800",
    "paid" := "bg-green-200 text-green-800",
    "cancelled" := "bg-red-200 text-red-800",
    "delivered" := "bg-emerald-200 text-emerald-800",
    "refunded" := "bg-purple-200 text-purple-800"
  ]

  /** Six statuses, pairwise distinct as values, each with a non-empty label
      and a colour, listed in `ORDER_STATUSES` in enum order. */
  lemma StatusTables()
    ensures |AllStatuses| == 6 && |OrderStatuses| == 6
    ensures forall s :: s in AllStatuses
    ensures forall i, j :: 0 <= i < j < 6 ==> Value(AllStatuses[i]) != Value(AllStatuses[j])
    ensures forall s :: Label(s) != ""
    ensures forall s :: Value(s) in StatusColors
    ensures forall i :: 0 <= i < 6 ==>
      OrderStatuses[i].value == Value(AllStatuses[i]) && OrderStatuses[i].caption == Label(AllStatuses[i])
  {
    forall s ensures s in AllStatuses {
      match s
      case Pending => assert AllStatuses[0] == s;
      case Confirmed => assert AllStatuses[1] == s;
      case Paid => assert AllStatuses[2] == s;
      case Cancelled => assert AllStatuses[3] == s;
      case Delivered => assert AllStatuses[4] == s;
      case Refunded => assert AllStatuses[5] == s;
    }
  }

  /** Every entry of `ORDER_STATUSES` is some status's entry. */
  lemma EntriesOfStatuses()
    ensures forall i :: 0 <= i < |OrderStatuses| ==> OrderStatuses[i] == Entry(AllStatuses[i])
  {
  }

  /** `list.find(s => s.value === value)` */
  function Find(list: seq<StatusOption>, value: string): (r: Option<StatusOption>)
    ensures r.Some? ==> r.value in list && r.value.value == value
    ensures r.None? <==> forall i :: 0 <= i < |list| ==> list[i].value != value
    ensures |list| > 0 && list[0].value == value ==> r == Some(list[0])
  {
    if |list| == 0 then None
    else if list[0].value == value then Some(list[0])
    else Find(list[1..], value)
  }

  /** Looking a stored string up in `ORDER_STATUSES` finds exactly the
      entry of the status it names. */
  lemma FindInOrderStatuses(status: string)
    ensures Parse(status).Some? ==> Find(OrderStatuses, status) == Some(Entry(Parse(status).value))
    ensures Parse(status).None? ==> Find(OrderStatuses, status).None?
  {
    EntriesOfStatuses();
    if Parse(status).Some? {
      match Parse(status).value
      case Pending => assert OrderStatuses[0].value == status;
      case Confirmed => assert OrderStatuses[1].value == status;
      case Paid => assert OrderStatuses[2].value == status;
      case Cancelled => assert OrderStatuses[3].value == status;
      case Delivered => assert OrderStatuses[4].value == status;
      case Refunded => assert OrderStatuses[5].value == status;
    } else {
      forall i | 0 <= i < |OrderStatuses| ensures OrderStatuses[i].value != status {
        assert OrderStatuses[i].value == Value(AllStatuses[i]);
      }
    }
  }

  /** `ORDER_STATUSES.find(s => s.value === status)?.label || status` */
  function GetStatusLabelFromList(status: string): (r: string)
    ensures forall s :: status == Value(s) ==> r == Label(s)
    ensures Parse(status).None? ==> r == status
    ensures status != "" ==> r != ""
  {
    FindInOrderStatuses(status);
    var found := Find(OrderStatuses, status);
    if found.Some? && found.value.caption != "" then found.value.caption else status
  }
}
