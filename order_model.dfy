/**
 * The order record of the order service (order_service/model/order.go): the
 * status codes and the columns of the `orders` table with their constraints.
 */
module OrderModel {
  import opened Wrappers

  /** The order status enumeration, in declaration order. */
  datatype OrderStatus = StatusUnknown | StatusCreated | StatusDispatching | StatusInTransit | StatusDelivered | StatusCancelled

  /** The integer each status is stored as: its position, counted from 0 by `iota`. */
  function Code(s: OrderStatus): (c: int)
    ensures 0 <= c <= 5
  {
    match s
    case StatusUnknown => 0
    case StatusCreated => 1
    case StatusDispatching => 2
    case StatusInTransit => 3
    case StatusDelivered => 4
    case StatusCancelled => 5
  }

  /** The status a stored code names, when it names one. */
  function FromCode(c: int): (s: Option<OrderStatus>)
  {
    if c == 0 then Some(StatusUnknown)
    else if c == 1 then Some(StatusCreated)
    else if c == 2 then Some(StatusDispatching)
    else if c == 3 then Some(StatusInTransit)
    else if c == 4 then Some(StatusDelivered)
    else if c == 5 then Some(StatusCancelled)
    else None
  }

  /** The codes are consecutive from 0 to 5, one per status, and read back to the status. */
  lemma CodesConsecutive()
    ensures forall s :: FromCode(Code(s)) == Some(s)
    ensures forall c :: 0 <= c <= 5 <==> FromCode(c).Some?
  {
  }

  /** The column default `default:1`. */
  const DefaultStatusCode: int := 1

  /** The column default names StatusCreated, the status `CreateOrder` writes. */
  lemma DefaultIsCreated()
    ensures FromCode(DefaultStatusCode) == Some(StatusCreated)
    ensures Code(StatusCreated) == DefaultStatusCode
  {
  }

  /**
   * A row of the `orders` table. `id` is the auto-increment primary key,
   * separate from the caller-facing `orderId`; `userId`, `weight` and
   * `volume` are `not null`. Times are in seconds.
   */
  datatype Order = Order(
    id: nat,
    orderId: string,
    userId: nat,
    senderAddress: string,
    receiverAddress: string,
    itemName: string,
    weight: real,
    volume: real,
    logisticsCompany: string,
    preferredDeliveryTime: int,
    isUrgent: bool,
    isDelayed: bool,
    status: int,
    createdAt: int,
    updatedAt: int)

  /**
   * What the schema guarantees of the table, held in primary-key order: the
   * primary keys increase and lie below the next auto-increment value, and
   * the unique index on `order_id` admits each order id once.
   */
  ghost predicate WellFormed(rows: seq<Order>, nextId: nat) {
    && (forall i, j :: 0 <= i < j < |rows| ==> rows[i].id < rows[j].id)
    && (forall i :: 0 <= i < |rows| ==> 1 <= rows[i].id < nextId)
    && (forall i, j :: 0 <= i < j < |rows| ==> rows[i].orderId != rows[j].orderId)
  }

  /** Whether some row holds this order id. */
  predicate HasOrderId(rows: seq<Order>, orderId: string) {
    exists i :: 0 <= i < |rows| && rows[i].orderId == orderId
  }

  /** `First(&order, "order_id = ?", orderId)`: the first row, by primary key, with that order id. */
  function FindByOrderId(rows: seq<Order>, orderId: string): (r: Option<Order>)
    ensures r.Some? <==> HasOrderId(rows, orderId)
    ensures r.Some? ==> r.value in rows && r.value.orderId == orderId
    decreases |rows|
  {
    if rows == [] then None
    else if rows[0].orderId == orderId then Some(rows[0])
    else
      var r := FindByOrderId(rows[1..], orderId);
      assert forall i :: 1 <= i < |rows| ==> rows[i] == rows[1..][i - 1];
      r
  }

  /** Appending a row with a fresh order id and the next primary key keeps the table well formed. */
  lemma {:induction false} InsertKeepsWellFormed(rows: seq<Order>, nextId: nat, row: Order)
    requires WellFormed(rows, nextId)
    requires row.id == nextId && nextId >= 1 && !HasOrderId(rows, row.orderId)
    ensures WellFormed(rows + [row], nextId + 1)
  {
    var rows' := rows + [row];
    forall i, j | 0 <= i < j < |rows'|
      ensures rows'[i].id < rows'[j].id && rows'[i].orderId != rows'[j].orderId
    {
      if j == |rows| {
        assert rows'[i] == rows[i];
      }
    }
  }

  /** In a well-formed table an order id picks out at most one row. */
  lemma {:induction false} OrderIdUnique(rows: seq<Order>, nextId: nat, i: nat, j: nat)
    requires WellFormed(rows, nextId)
    requires i < |rows| && j < |rows| && rows[i].orderId == rows[j].orderId
    ensures i == j
  {
  }
}
