/**
 * The order tool server: order lookup, refund requests and logistics
 * tracking over the `orders` and `refunds` tables. The tables are held in
 * memory; the SELECTs that read the joined order rows are oracles.
 */
module Orders {
  import opened Base
  import opened Text

  // ------------------------------------------------------------------ code tables

  /** Order status codes and their labels, in the order the switch lists them. */
  const OrderStatuses: seq<(string, string)> :=
    [("PENDING", "待处理"), ("SHIPPED", "已发货"), ("DELIVERED", "已送达"), ("CANCELLED", "已取消")]

  const RefundStatuses: seq<(string, string)> :=
    [("PENDING", "待处理"), ("APPROVED", "已批准"), ("REJECTED", "已拒绝")]

  /** Tracking-number prefixes and carriers, in the order they are tried. */
  const Carriers: seq<(string, string)> :=
    [("SF", "顺丰速运"), ("YT", "圆通速递"), ("ZT", "中通快递"), ("YD", "韵达快递")]

  const UnknownCarrier: string := "快递公司"
  const Cancelled: string := "CANCELLED"
  const Pending: string := "PENDING"

  /** The codes of a table are distinct. */
  predicate CodesDistinct(table: seq<(string, string)>) {
    forall i, j :: 0 <= i < j < |table| ==> table[i].0 != table[j].0
  }

  /**
   * A `switch` over string codes with a `default` that returns the code:
   * the label of the entry with this code, or the code itself.
   */
  function Translate(table: seq<(string, string)>, code: string): (shown: string)
    ensures forall i: nat :: FirstCodeAt(table, code, i) ==> shown == table[i].1
    ensures (forall i :: 0 <= i < |table| ==> table[i].0 != code) ==> shown == code
  {
    if |table| == 0 then code
    else if table[0].0 == code then table[0].1
    else
      var shown := Translate(table[1..], code);
      assert forall i :: 1 <= i < |table| ==> table[1..][i - 1] == table[i];
      assert !FirstCodeAt(table, code, 0);
      assert forall i: nat :: 1 <= i && FirstCodeAt(table, code, i) ==> FirstCodeAt(table[1..], code, i - 1);
      shown
  }

  /** Entry `i` is the first with this code. */
  predicate FirstCodeAt(table: seq<(string, string)>, code: string, i: nat) {
    i < |table| && table[i].0 == code && forall j :: 0 <= j < i ==> table[j].0 != code
  }

  /** In a table with distinct codes, the entry with the code is the first with it. */
  lemma DistinctFirst(table: seq<(string, string)>, code: string, i: nat)
    requires CodesDistinct(table) && i < |table| && table[i].0 == code
    ensures FirstCodeAt(table, code, i)
  {
  }

  /** `translateOrderStatus`: PENDING, SHIPPED, DELIVERED and CANCELLED get their labels; any other code is shown as it is. */
  function TranslateOrderStatus(status: string): (shown: string)
    ensures forall i :: 0 <= i < |OrderStatuses| && OrderStatuses[i].0 == status ==> shown == OrderStatuses[i].1
    ensures (forall i :: 0 <= i < |OrderStatuses| ==> OrderStatuses[i].0 != status) ==> shown == status
  {
    assert CodesDistinct(OrderStatuses);
    forall i | 0 <= i < |OrderStatuses| && OrderStatuses[i].0 == status
      ensures FirstCodeAt(OrderStatuses, status, i)
    {
      DistinctFirst(OrderStatuses, status, i);
    }
    Translate(OrderStatuses, status)
  }

  /** `translateRefundStatus`: PENDING, APPROVED and REJECTED get their labels; any other code is shown as it is. */
  function TranslateRefundStatus(status: string): (shown: string)
    ensures forall i :: 0 <= i < |RefundStatuses| && RefundStatuses[i].0 == status ==> shown == RefundStatuses[i].1
    ensures (forall i :: 0 <= i < |RefundStatuses| ==> RefundStatuses[i].0 != status) ==> shown == status
  {
    assert CodesDistinct(RefundStatuses);
    forall i | 0 <= i < |RefundStatuses| && RefundStatuses[i].0 == status
      ensures FirstCodeAt(RefundStatuses, status, i)
    {
      DistinctFirst(RefundStatuses, status, i);
    }
    Translate(RefundStatuses, status)
  }

  /** Distinct order codes get distinct labels, so the label tells the code. */
  lemma OrderLabelsDistinct(a: string, b: string)
    requires exists i :: 0 <= i < |OrderStatuses| && OrderStatuses[i].0 == a
    requires exists i :: 0 <= i < |OrderStatuses| && OrderStatuses[i].0 == b
    requires a != b
    ensures TranslateOrderStatus(a) != TranslateOrderStatus(b)
  {
    var i :| 0 <= i < |OrderStatuses| && OrderStatuses[i].0 == a;
    var j :| 0 <= j < |OrderStatuses| && OrderStatuses[j].0 == b;
    OrderLabelsDiffer(i, j);
  }

  lemma OrderLabelsDiffer(i: nat, j: nat)
    requires i < |OrderStatuses| && j < |OrderStatuses| && i != j
    ensures OrderStatuses[i].1 != OrderStatuses[j].1
  {
  }

  /** Entry `i` is the first whose prefix the number starts with. */
  predicate FirstPrefixAt(table: seq<(string, string)>, trackingNo: string, i: nat) {
    i < |table| && StartsWith(trackingNo, table[i].0)
    && forall j :: 0 <= j < i ==> !StartsWith(trackingNo, table[j].0)
  }

  /** The carrier of the first entry whose prefix the number starts with, or the generic name. */
  function FirstCarrier(table: seq<(string, string)>, trackingNo: string): (carrier: string)
    ensures forall i: nat :: FirstPrefixAt(table, trackingNo, i) ==> carrier == table[i].1
    ensures (forall i :: 0 <= i < |table| ==> !StartsWith(trackingNo, table[i].0)) ==> carrier == UnknownCarrier
  {
    if |table| == 0 then UnknownCarrier
    else if StartsWith(trackingNo, table[0].0) then table[0].1
    else
      var carrier := FirstCarrier(table[1..], trackingNo);
      assert forall i :: 1 <= i < |table| ==> table[1..][i - 1] == table[i];
      assert !FirstPrefixAt(table, trackingNo, 0);
      assert forall i: nat :: 1 <= i && FirstPrefixAt(table, trackingNo, i) ==> FirstPrefixAt(table[1..], trackingNo, i - 1);
      carrier
  }

  /** Two prefixes of the same length that a number both starts with are equal. */
  lemma SameLengthPrefixes(trackingNo: string, a: string, b: string)
    requires |a| == |b| && StartsWith(trackingNo, a) && StartsWith(trackingNo, b)
    ensures a == b
  {
    assert a == trackingNo[..|a|] == b;
  }

  /** The carrier prefixes are distinct and two characters long, so at most one matches. */
  lemma CarrierPrefixesExclusive(trackingNo: string, i: nat, j: nat)
    requires i < j < |Carriers|
    ensures !(StartsWith(trackingNo, Carriers[i].0) && StartsWith(trackingNo, Carriers[j].0))
  {
    assert CodesDistinct(Carriers);
    assert |Carriers[i].0| == 2 == |Carriers[j].0|;
    if StartsWith(trackingNo, Carriers[i].0) {
      assert trackingNo[..2] == Carriers[i].0;
      assert Carriers[i].0 != Carriers[j].0;
      assert trackingNo[..2] != Carriers[j].0;
    }
  }

  /** `getCarrier`: tries SF, YT, ZT and YD in turn; a number with none of them gets the generic name. */
  function GetCarrier(trackingNo: string): (carrier: string)
    ensures forall i :: 0 <= i < |Carriers| && StartsWith(trackingNo, Carriers[i].0) ==> carrier == Carriers[i].1
    ensures (forall i :: 0 <= i < |Carriers| ==> !StartsWith(trackingNo, Carriers[i].0)) ==> carrier == UnknownCarrier
  {
    forall i | 0 <= i < |Carriers| && StartsWith(trackingNo, Carriers[i].0)
      ensures FirstPrefixAt(Carriers, trackingNo, i)
    {
      forall j | 0 <= j < i
        ensures !StartsWith(trackingNo, Carriers[j].0)
      {
        CarrierPrefixesExclusive(trackingNo, j, i);
      }
    }
    FirstCarrier(Carriers, trackingNo)
  }

  /** A missing or blank argument. */
  predicate Blank(s: Option<string>) {
    s.None? || IsBlank(s.value)
  }

  // ------------------------------------------------------------------ refunds

  datatype Order = Order(total: string, status: string)

  datatype Refund = Refund(refundNo: string, orderNo: string, reason: string, amount: string, status: string)

  /** The two tables: orders by order number, refunds in table order. */
  datatype Ledger = Ledger(orders: map<string, Order>, refunds: seq<Refund>)

  const AskOrderNo: string := "请提供需要退款的订单号"
  const AskReason: string := "请提供退款原因"

  function NotFound(orderNo: string): string {
    "未找到订单号为「" + orderNo + "」的订单"
  }

  function AlreadyCancelled(orderNo: string): string {
    "订单「" + orderNo + "」已取消，无法申请退款"
  }

  function ExistingRefund(orderNo: string, refund: Refund): string {
    "订单「" + orderNo + "」已有退款记录，退款单号: " + refund.refundNo + "，状态: " + TranslateRefundStatus(refund.status)
  }

  function Submitted(refundNo: string, orderNo: string, total: string, reason: string): string {
    "退款申请已提交！\n\n" + "退款单号: " + refundNo + "\n" + "关联订单: " + orderNo + "\n"
    + "退款金额: ¥" + total + "\n" + "退款原因: " + reason + "\n" + "当前状态: 待处理\n" + "预计处理时间: 1-3 个工作日\n"
  }

  /** The first refund row of an order, as the existing-refund query returns it. */
  function FirstRefund(refunds: seq<Refund>, orderNo: string): (r: Option<nat>)
    ensures r.Some? ==> r.value < |refunds| && refunds[r.value].orderNo == orderNo
    ensures r.Some? ==> forall j :: 0 <= j < r.value ==> refunds[j].orderNo != orderNo
    ensures r.None? <==> forall j :: 0 <= j < |refunds| ==> refunds[j].orderNo != orderNo
  {
    if |refunds| == 0 then None
    else if refunds[0].orderNo == orderNo then Some(0)
    else match FirstRefund(refunds[1..], orderNo)
      case None => None
      case Some(j) => Some(j + 1)
  }

  /** The first row of the order is the one before which no row of it comes. */
  lemma FirstRefundAt(refunds: seq<Refund>, orderNo: string, i: nat)
    requires i < |refunds| && refunds[i].orderNo == orderNo
    requires forall j :: 0 <= j < i ==> refunds[j].orderNo != orderNo
    ensures FirstRefund(refunds, orderNo) == Some(i)
  {
    var r := FirstRefund(refunds, orderNo);
    assert r.Some?;
    assert !(r.value < i);
  }

  /** A request that passes every check: both arguments given, a known order, not cancelled, no refund yet. */
  predicate Refundable(l: Ledger, orderNo: Option<string>, reason: Option<string>) {
    !Blank(orderNo) && !Blank(reason)
    && Trim(orderNo.value) in l.orders
    && l.orders[Trim(orderNo.value)].status != Cancelled
    && FirstRefund(l.refunds, Trim(orderNo.value)).None?
  }

  /**
   * `applyRefund`: the reply and the tables afterwards. The refund number
   * is a parameter (the source derives it from the clock).
   */
  function Refunded(l: Ledger, orderNo: Option<string>, reason: Option<string>, refundNo: string): (r: (string, Ledger))
    ensures Blank(orderNo) ==> r == (AskOrderNo, l)
    ensures !Blank(orderNo) && Blank(reason) ==> r == (AskReason, l)
    ensures !Blank(orderNo) && !Blank(reason) && Trim(orderNo.value) !in l.orders ==> r == (NotFound(orderNo.value), l)
    ensures r.1 != l <==> Refundable(l, orderNo, reason)
    ensures Refundable(l, orderNo, reason) ==>
              var key := Trim(orderNo.value);
              r.1.refunds == l.refunds + [Refund(refundNo, key, reason.value, l.orders[key].total, Pending)]
              && r.1.orders == l.orders[key := Order(l.orders[key].total, Cancelled)]
              && r.0 == Submitted(refundNo, orderNo.value, l.orders[key].total, reason.value)
    ensures (!Blank(orderNo) && !Blank(reason) && Trim(orderNo.value) in l.orders
             && l.orders[Trim(orderNo.value)].status == Cancelled) ==> r == (AlreadyCancelled(orderNo.value), l)
    ensures (!Blank(orderNo) && !Blank(reason) && Trim(orderNo.value) in l.orders
             && l.orders[Trim(orderNo.value)].status != Cancelled
             && FirstRefund(l.refunds, Trim(orderNo.value)).Some?) ==>
              r == (ExistingRefund(orderNo.value, l.refunds[FirstRefund(l.refunds, Trim(orderNo.value)).value]), l)
  {
    if Blank(orderNo) then (AskOrderNo, l)
    else if Blank(reason) then (AskReason, l)
    else
      var key := Trim(orderNo.value);
      if key !in l.orders then (NotFound(orderNo.value), l)
      else
        var order := l.orders[key];
        if order.status == Cancelled then (AlreadyCancelled(orderNo.value), l)
        else match FirstRefund(l.refunds, key)
          case Some(i) => (ExistingRefund(orderNo.value, l.refunds[i]), l)
          case None =>
            var refund := Refund(refundNo, key, reason.value, order.total, Pending);
            (Submitted(refundNo, orderNo.value, order.total, reason.value),
             Ledger(l.orders[key := Order(order.total, Cancelled)], l.refunds + [refund]))
  }

  /** A second request for an order that was just refunded changes nothing: the order is cancelled now. */
  lemma RefundOnce(l: Ledger, orderNo: Option<string>, reason: Option<string>, refundNo: string,
                   reason2: Option<string>, refundNo2: string)
    requires Refundable(l, orderNo, reason)
    ensures var after := Refunded(l, orderNo, reason, refundNo).1;
      Refunded(after, orderNo, reason2, refundNo2).1 == after
  {
  }

  /** Every order has at most one refund row. */
  predicate OneRefundPerOrder(refunds: seq<Refund>) {
    forall i, j :: 0 <= i < j < |refunds| ==> refunds[i].orderNo != refunds[j].orderNo
  }

  /** `applyRefund` keeps at most one refund per order. */
  lemma RefundKeepsOnePerOrder(l: Ledger, orderNo: Option<string>, reason: Option<string>, refundNo: string)
    requires OneRefundPerOrder(l.refunds)
    ensures OneRefundPerOrder(Refunded(l, orderNo, reason, refundNo).1.refunds)
  {
    if Refundable(l, orderNo, reason) {
      var key := Trim(orderNo.value);
      var refund := Refund(refundNo, key, reason.value, l.orders[key].total, Pending);
      assert Refunded(l, orderNo, reason, refundNo).1.refunds == l.refunds + [refund];
      OneRefundSnoc(l.refunds, refund);
    }
  }

  /** A row for an order with no row yet keeps one row per order. */
  lemma OneRefundSnoc(refunds: seq<Refund>, refund: Refund)
    requires OneRefundPerOrder(refunds) && FirstRefund(refunds, refund.orderNo).None?
    ensures OneRefundPerOrder(refunds + [refund])
  {
    var all := refunds + [refund];
    assert forall i :: 0 <= i < |refunds| ==> all[i] == refunds[i];
  }

  /** The refund tables as the tool server holds them. */
  class OrderStore {
    var orders: map<string, Order>
    var refunds: seq<Refund>

    constructor(orders: map<string, Order>, refunds: seq<Refund>)
      ensures this.orders == orders && this.refunds == refunds
    {
      this.orders := orders;
      this.refunds := refunds;
    }

    /** Looks the order's first refund row up, as the existing-refund query does. */
    method FindRefund(orderNo: string) returns (found: Option<nat>)
      ensures found == FirstRefund(refunds, orderNo)
    {
      var k := 0;
      while k < |refunds|
        invariant 0 <= k <= |refunds|
        invariant forall j :: 0 <= j < k ==> refunds[j].orderNo != orderNo
      {
        if refunds[k].orderNo == orderNo {
          FirstRefundAt(refunds, orderNo, k);
          return Some(k);
        }
        k := k + 1;
      }
      return None;
    }

    /** `applyRefund`, with the refund number given. */
    method ApplyRefund(orderNo: Option<string>, reason: Option<string>, refundNo: string) returns (reply: string)
      modifies this
      ensures (reply, Ledger(orders, refunds)) == Refunded(old(Ledger(orders, refunds)), orderNo, reason, refundNo)
    {
      if orderNo.None? || IsBlank(orderNo.value) {
        return AskOrderNo;
      }
      if reason.None? || IsBlank(reason.value) {
        return AskReason;
      }
      var key := Trim(orderNo.value);
      if key !in orders {
        return NotFound(orderNo.value);
      }
      var order := orders[key];
      if order.status == Cancelled {
        return AlreadyCancelled(orderNo.value);
      }
      var existing := FindRefund(key);
      if existing.Some? {
        return ExistingRefund(orderNo.value, refunds[existing.value]);
      }
      refunds := refunds + [Refund(refundNo, key, reason.value, order.total, Pending)];
      orders := orders[key := Order(order.total, Cancelled)];
      reply := Submitted(refundNo, orderNo.value, order.total, reason.value);
    }
  }

  // ------------------------------------------------------------------ order lookup

  /** The two lookups `queryOrder` can run. */
  datatype OrderQuery = ByOrderNo(orderNo: string) | ByUsername(username: string)

  /** One joined order row, each column as it prints. */
  datatype OrderRow = OrderRow(
    orderNo: string, username: string, productName: string, category: string, quantity: string,
    total: string, status: string, address: string, trackingNo: Option<string>, createdAt: string)

  const AskQuery: string := "请提供订单号（orderNo）或用户名（username）进行查询"
  const NoOrders: string := "未找到匹配的订单信息"

  /** `queryOrder`'s choice of lookup: the order number when given, else the user name, else none. */
  function QueryOf(orderNo: Option<string>, username: Option<string>): (q: Option<OrderQuery>)
    ensures !Blank(orderNo) ==> q == Some(ByOrderNo(Trim(orderNo.value)))
    ensures Blank(orderNo) && !Blank(username) ==> q == Some(ByUsername(Trim(username.value)))
    ensures q.None? <==> Blank(orderNo) && Blank(username)
  {
    if !Blank(orderNo) then Some(ByOrderNo(Trim(orderNo.value)))
    else if !Blank(username) then Some(ByUsername(Trim(username.value)))
    else None
  }

  /** The text block of one row; the tracking line only when there is a number. */
  function OrderBlock(row: OrderRow): string {
    "订单号: " + row.orderNo + "\n" + "用户: " + row.username + "\n"
    + "商品: " + row.productName + "（" + row.category + "）\n" + "数量: " + row.quantity + "\n"
    + "金额: ¥" + row.total + "\n" + "状态: " + TranslateOrderStatus(row.status) + "\n"
    + "地址: " + row.address + "\n"
    + (if row.trackingNo.Some? then "快递单号: " + row.trackingNo.value + "\n" else "")
    + "下单时间: " + row.createdAt + "\n" + "---\n"
  }

  /** The blocks of the rows, in result order. */
  function OrderBlocks(rows: seq<OrderRow>): string {
    if |rows| == 0 then "" else OrderBlocks(rows[..|rows| - 1]) + OrderBlock(rows[|rows| - 1])
  }

  lemma OrderBlocksSnoc(rows: seq<OrderRow>, k: nat)
    requires k < |rows|
    ensures OrderBlocks(rows[..k + 1]) == OrderBlocks(rows[..k]) + OrderBlock(rows[k])
  {
    assert rows[..k + 1][..k] == rows[..k];
  }

  lemma {:induction false} OrderBlocksAppend(a: seq<OrderRow>, b: seq<OrderRow>)
    ensures OrderBlocks(a + b) == OrderBlocks(a) + OrderBlocks(b)
    decreases |b|
  {
    if |b| == 0 {
      assert a + b == a;
    } else {
      var front := b[..|b| - 1];
      assert (a + b)[..|a + b| - 1] == a + front;
      assert (a + b)[|a + b| - 1] == b[|b| - 1];
      OrderBlocksAppend(a, front);
      AppendAssoc(OrderBlocks(a), OrderBlocks(front), OrderBlock(b[|b| - 1]));
    }
  }

  function OrdersHeader(count: nat): string {
    "找到 " + NatToString(count) + " 条订单记录：\n\n"
  }

  /** `queryOrder`: the reply for the arguments, the lookup being an oracle. */
  function OrderReply(orderNo: Option<string>, username: Option<string>, lookup: OrderQuery -> seq<OrderRow>): (reply: string)
    ensures Blank(orderNo) && Blank(username) ==> reply == AskQuery
    ensures QueryOf(orderNo, username).Some? && lookup(QueryOf(orderNo, username).value) == [] ==> reply == NoOrders
  {
    match QueryOf(orderNo, username)
    case None => AskQuery
    case Some(q) =>
      var rows := lookup(q);
      if |rows| == 0 then NoOrders else OrdersHeader(|rows|) + OrderBlocks(rows)
  }

  /** Without an order number or user name, nothing is looked up: the reply is the same whatever the tables hold. */
  lemma AskQueryWithoutLookup(orderNo: Option<string>, username: Option<string>,
                              lookup1: OrderQuery -> seq<OrderRow>, lookup2: OrderQuery -> seq<OrderRow>)
    requires Blank(orderNo) && Blank(username)
    ensures OrderReply(orderNo, username, lookup1) == OrderReply(orderNo, username, lookup2) == AskQuery
  {
  }

  /** An order number wins over a user name: the reply does not depend on the name. */
  lemma OrderNoWins(orderNo: Option<string>, username1: Option<string>, username2: Option<string>,
                    lookup: OrderQuery -> seq<OrderRow>)
    requires !Blank(orderNo)
    ensures OrderReply(orderNo, username1, lookup) == OrderReply(orderNo, username2, lookup)
  {
  }

  /** `queryOrder`: the lookup, then the text built row by row. */
  method QueryOrder(orderNo: Option<string>, username: Option<string>, lookup: OrderQuery -> seq<OrderRow>)
    returns (reply: string)
    ensures reply == OrderReply(orderNo, username, lookup)
  {
    var q := QueryOf(orderNo, username);
    if q.None? {
      return AskQuery;
    }
    var rows := lookup(q.value);
    if |rows| == 0 {
      return NoOrders;
    }
    var body := FormatOrders(rows);
    reply := OrdersHeader(|rows|) + body;
  }

  /** The row loop of `queryOrder`: one block per row, appended in result order. */
  method FormatOrders(rows: seq<OrderRow>) returns (body: string)
    ensures body == OrderBlocks(rows)
  {
    body := "";
    for k := 0 to |rows|
      invariant body == OrderBlocks(rows[..k])
    {
      OrderBlocksSnoc(rows, k);
      body := body + OrderBlock(rows[k]);
    }
    assert rows[..|rows|] == rows;
  }

  // ------------------------------------------------------------------ logistics

  /** The order row `trackLogistics` reads. */
  datatype TrackRow = TrackRow(orderNo: string, status: string, trackingNo: Option<string>,
                               address: string, createdAt: string, productName: string)

  const AskTrackOrderNo: string := "请提供需要追踪的订单号"
  const AwaitingShipment: string := "\n当前状态: 待发货\n商家正在处理您的订单，预计 1-2 天内发货。\n"
  const CancelledNote: string := "\n当前状态: 订单已取消\n"

  function TrackHead(row: TrackRow): string {
    "订单物流信息\n\n" + "订单号: " + row.orderNo + "\n" + "商品: " + row.productName + "\n"
    + "收货地址: " + row.address + "\n"
  }

  /** The note for an order without a tracking number. */
  function UnshippedNote(status: string): (note: string)
    ensures status == Pending ==> note == AwaitingShipment
    ensures status == Cancelled ==> note == CancelledNote
    ensures status != Pending && status != Cancelled ==> note == ""
  {
    if status == Pending then AwaitingShipment
    else if status == Cancelled then CancelledNote
    else ""
  }

  function CarrierLines(trackingNo: string): string {
    "快递公司: " + GetCarrier(trackingNo) + "\n" + "快递单号: " + trackingNo + "\n\n" + "物流轨迹：\n"
  }

  /**
   * `trackLogistics`: a prompt without an order number, a not-found reply
   * for an unknown order, else the order's head, then either the note for
   * an unshipped order or the carrier, number and timeline. The timeline
   * (date arithmetic on the order time) is an oracle.
   */
  function TrackReply(orderNo: Option<string>, lookup: string -> Option<TrackRow>,
                      timeline: (string, string, string) -> string): (reply: string)
    ensures Blank(orderNo) ==> reply == AskTrackOrderNo
    ensures !Blank(orderNo) && lookup(Trim(orderNo.value)).None? ==> reply == NotFound(orderNo.value)
    ensures !Blank(orderNo) && lookup(Trim(orderNo.value)).Some? ==>
              var row := lookup(Trim(orderNo.value)).value;
              StartsWith(reply, TrackHead(row))
              && (Blank(row.trackingNo) ==> reply == TrackHead(row) + UnshippedNote(row.status))
              && (!Blank(row.trackingNo) ==>
                    StartsWith(reply[|TrackHead(row)|..], "快递公司: " + GetCarrier(row.trackingNo.value) + "\n"))
  {
    if Blank(orderNo) then AskTrackOrderNo
    else match lookup(Trim(orderNo.value))
      case None => NotFound(orderNo.value)
      case Some(row) =>
        var head := TrackHead(row);
        if Blank(row.trackingNo) then head + UnshippedNote(row.status)
        else
          var t := row.trackingNo.value;
          var reply := head + CarrierLines(t) + timeline(row.status, row.address, row.createdAt);
          assert reply[|head|..] == CarrierLines(t) + timeline(row.status, row.address, row.createdAt);
          reply
  }
}
