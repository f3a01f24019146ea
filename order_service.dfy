/**
 * The order workflow: creating an order from requested items (stock check per
 * item, price snapshot, total), and changing an order's status, where moving to
 * Concluído debits every line's quantity from its product. Each operation is
 * all-or-nothing: on failure every table is as it was before the call.
 */
module OrderService {
  import opened Wrappers
  import opened Exceptions
  import opened ProductService

  datatype Status = Pendente | Concluido | Cancelado

  /**
   * A row of the orders table. total_pedido is DECIMAL(10,2), kept in cents.
   * create never sets userId, so the orders it writes carry None.
   */
  datatype Order = Order(id: int, userId: Option<int>, totalPedido: int, status: Status)

  /** A row of the order_items table. */
  datatype OrderItem = OrderItem(
    id: int,
    orderId: int,
    productId: int,
    quantidade: int,
    precoUnitario: int,
    subtotal: int)

  /** One requested item of CreateOrderDto. */
  datatype ItemRequest = ItemRequest(productId: int, quantidade: int)

  /** CreateOrderDto; an omitted status defaults to Pendente. */
  datatype CreateOrderDto = CreateOrderDto(items: seq<ItemRequest>, status: Status)

  /** One entry of orderItemsData: a line before it has an id and an order. */
  datatype LineData = LineData(productId: int, quantidade: int, precoUnitario: int, subtotal: int)

  /** An order loaded together with its items. */
  datatype OrderView = OrderView(order: Order, items: seq<OrderItem>)

  /**
   * What the dto validators let through: positive ids and quantities. The
   * item list may be empty (IsNotEmpty accepts an empty array), which yields
   * an order with total 0 and no items.
   */
  predicate ValidCreateOrderDto(dto: CreateOrderDto) {
    forall k | 0 <= k < |dto.items| :: dto.items[k].productId > 0 && dto.items[k].quantidade > 0
  }

  /**
   * The orders and order_items tables. Items are kept in insertion order,
   * every item belongs to an existing order, and item ids are the
   * auto-increment key: positive, below the next one, and increasing in
   * insertion order (so no two items share one).
   */
  class OrderTables {
    var orders: map<int, Order>
    var items: seq<OrderItem>
    var nextOrderId: int
    var nextItemId: int

    ghost predicate Valid()
      reads this
    {
      && 0 < nextOrderId
      && (forall id | id in orders :: orders[id].id == id && 0 < id < nextOrderId)
      && (forall k | 0 <= k < |items| :: items[k].orderId in orders)
      && 0 < nextItemId
      && (forall k | 0 <= k < |items| :: 0 < items[k].id < nextItemId)
      && (forall k, l | 0 <= k < l < |items| :: items[k].id < items[l].id)
    }

    constructor ()
      ensures Valid() && orders == map[] && items == []
    {
      orders := map[];
      items := [];
      nextOrderId := 1;
      nextItemId := 1;
    }
  }

  // ---------------------------------------------------------------------------
  // Order items of one order

  /** The items of one order, as loaded together with it, in table order. */
  function ItemsOf(items: seq<OrderItem>, orderId: int): (r: seq<OrderItem>)
    ensures |r| <= |items|
    ensures forall x :: x in r <==> x in items && x.orderId == orderId
  {
    if items == [] then []
    else if items[0].orderId == orderId then [items[0]] + ItemsOf(items[1..], orderId)
    else ItemsOf(items[1..], orderId)
  }

  lemma {:induction false} ItemsOfAppend(a: seq<OrderItem>, b: seq<OrderItem>, orderId: int)
    ensures ItemsOf(a + b, orderId) == ItemsOf(a, orderId) + ItemsOf(b, orderId)
  {
    if a == [] {
      assert a + b == b;
    } else {
      assert (a + b)[1..] == a[1..] + b;
      ItemsOfAppend(a[1..], b, orderId);
    }
  }

  lemma ItemsOfNone(items: seq<OrderItem>, orderId: int)
    requires forall k | 0 <= k < |items| :: items[k].orderId != orderId
    ensures ItemsOf(items, orderId) == []
  {
  }

  lemma {:induction false} ItemsOfAll(items: seq<OrderItem>, orderId: int)
    requires forall k | 0 <= k < |items| :: items[k].orderId == orderId
    ensures ItemsOf(items, orderId) == items
  {
    if items != [] {
      ItemsOfAll(items[1..], orderId);
    }
  }

  /** findOne: the order with its items, or BadRequest when there is none. */
  function FindOne(orders: map<int, Order>, items: seq<OrderItem>, id: int): (r: Result<OrderView, Exception>)
    ensures r.Ok? <==> id in orders
    ensures r.Ok? ==> r.value.order == orders[id] && r.value.items == ItemsOf(items, id)
    ensures r.Err? ==> r.error == BadRequest(OrderNotFound(id))
  {
    if id in orders then Ok(OrderView(orders[id], ItemsOf(items, id)))
    else Err(BadRequest(OrderNotFound(id)))
  }

  // ---------------------------------------------------------------------------
  // Creation: validation, price snapshot and total

  /**
   * The check create applies to one item against the product's CURRENT stock:
   * None when it passes, otherwise the exception thrown.
   */
  function CheckItem(products: map<int, Product>, item: ItemRequest): (r: Option<Exception>)
    ensures r.None? <==> item.productId in products && item.quantidade <= products[item.productId].quantidadeEstoque
    ensures item.productId !in products ==> r == Some(BadRequest(ProductNotFound(item.productId)))
    ensures item.productId in products && products[item.productId].quantidadeEstoque < item.quantidade ==>
              r == Some(BadRequest(InsufficientStock(products[item.productId].nome, products[item.productId].quantidadeEstoque)))
  {
    if item.productId !in products then
      Some(BadRequest(ProductNotFound(item.productId)))
    else if products[item.productId].quantidadeEstoque < item.quantidade then
      Some(BadRequest(InsufficientStock(products[item.productId].nome, products[item.productId].quantidadeEstoque)))
    else
      None
  }

  /** The line create records for an item: the product's price now, times the quantity. */
  function LineFor(products: map<int, Product>, item: ItemRequest): LineData
    requires item.productId in products
  {
    var preco := products[item.productId].preco;
    LineData(item.productId, item.quantidade, preco, preco * item.quantidade)
  }

  /**
   * The lines create would write for the requested items, or the exception of
   * the first item that fails its check. Every item is checked on its own,
   * so two items of one product each pass when each fits the stock.
   */
  function PriceItems(products: map<int, Product>, items: seq<ItemRequest>): (r: Result<seq<LineData>, Exception>)
    ensures r.Ok? <==> forall k | 0 <= k < |items| :: CheckItem(products, items[k]).None?
    ensures r.Ok? ==>
              && |r.value| == |items|
              && forall k | 0 <= k < |items| :: items[k].productId in products && r.value[k] == LineFor(products, items[k])
  {
    if items == [] then Ok([])
    else
      match CheckItem(products, items[0])
      case Some(e) => Err(e)
      case None =>
        match PriceItems(products, items[1..])
        case Err(e) => Err(e)
        case Ok(rest) => Ok([LineFor(products, items[0])] + rest)
  }

  /** The error PriceItems reports is the one of the first item that fails. */
  lemma {:induction false} PriceItemsFirstFailure(products: map<int, Product>, items: seq<ItemRequest>, i: nat)
    requires i < |items|
    requires forall k | 0 <= k < i :: CheckItem(products, items[k]).None?
    requires CheckItem(products, items[i]).Some?
    ensures PriceItems(products, items) == Err(CheckItem(products, items[i]).value)
  {
    if i > 0 {
      assert CheckItem(products, items[0]).None?;
      PriceItemsFirstFailure(products, items[1..], i - 1);
    }
  }

  /** Sum of the subtotals of orderItemsData: the order's totalPedido. */
  function Total(lines: seq<LineData>): int {
    if lines == [] then 0 else lines[0].subtotal + Total(lines[1..])
  }

  /** Sum of the subtotals of stored order items. */
  function SumSubtotals(items: seq<OrderItem>): int {
    if items == [] then 0 else items[0].subtotal + SumSubtotals(items[1..])
  }

  lemma {:induction false} TotalAppend(lines: seq<LineData>, line: LineData)
    ensures Total(lines + [line]) == Total(lines) + line.subtotal
  {
    if lines != [] {
      assert (lines + [line])[1..] == lines[1..] + [line];
      TotalAppend(lines[1..], line);
    }
  }

  /** The order item written for a line. */
  function Row(line: LineData, orderId: int, id: int): OrderItem {
    OrderItem(id, orderId, line.productId, line.quantidade, line.precoUnitario, line.subtotal)
  }

  /** The order items written for orderItemsData, with consecutive ids from firstId. */
  function Rows(lines: seq<LineData>, orderId: int, firstId: int): seq<OrderItem> {
    seq(|lines|, k requires 0 <= k < |lines| => Row(lines[k], orderId, firstId + k))
  }

  lemma RowsSnoc(lines: seq<LineData>, line: LineData, orderId: int, firstId: int)
    ensures Rows(lines + [line], orderId, firstId) == Rows(lines, orderId, firstId) + [Row(line, orderId, firstId + |lines|)]
  {
  }

  /** The stored items carry the same subtotals, so they add up to the same total. */
  lemma {:induction false} RowsPreserveTotal(lines: seq<LineData>, orderId: int, firstId: int)
    ensures SumSubtotals(Rows(lines, orderId, firstId)) == Total(lines)
  {
    if lines != [] {
      assert Rows(lines, orderId, firstId)[1..] == Rows(lines[1..], orderId, firstId + 1);
      RowsPreserveTotal(lines[1..], orderId, firstId + 1);
    }
  }

  // ---------------------------------------------------------------------------
  // Completion: stock debit

  /** Total quantity the items take from one product. */
  function QuantityOf(items: seq<OrderItem>, productId: int): int {
    if items == [] then 0
    else (if items[0].productId == productId then items[0].quantidade else 0) + QuantityOf(items[1..], productId)
  }

  /** The product with quantidade subtracted from its stock, with no lower bound. */
  function Debit(p: Product, quantidade: int): Product {
    p.(quantidadeEstoque := p.quantidadeEstoque - quantidade)
  }

  /**
   * The products table after the completion loop debits every item in turn,
   * or the exception of an item whose product is gone. There is no stock
   * check: stock may go below zero, and a product on several items is debited
   * once per item.
   */
  function DebitAll(products: map<int, Product>, items: seq<OrderItem>): (r: Result<map<int, Product>, Exception>)
    ensures r.Ok? <==> forall k | 0 <= k < |items| :: items[k].productId in products
    ensures r.Ok? ==> r.value.Keys == products.Keys
    ensures r.Ok? ==> forall id | id in products :: r.value[id] == Debit(products[id], QuantityOf(items, id))
    ensures r.Err? ==> exists pid | pid !in products :: r.error == BadRequest(ProductNotFoundDuringStockUpdate(pid))
  {
    if items == [] then Ok(products)
    else if items[0].productId !in products then
      Err(BadRequest(ProductNotFoundDuringStockUpdate(items[0].productId)))
    else
      var id := items[0].productId;
      DebitAll(products[id := Debit(products[id], items[0].quantidade)], items[1..])
  }

  /** Completing the same order twice debits its quantities twice. */
  lemma RepeatedCompletionDebitsTwice(products: map<int, Product>, items: seq<OrderItem>)
    requires DebitAll(products, items).Ok?
    ensures DebitAll(DebitAll(products, items).value, items).Ok?
    ensures forall id | id in products ::
              DebitAll(DebitAll(products, items).value, items).value[id].quantidadeEstoque
              == products[id].quantidadeEstoque - 2 * QuantityOf(items, id)
  {
  }

  /**
   * Because each item is checked on its own, two items of a product with
   * stock 3 asking for 2 each both pass creation, and completing the order
   * leaves the stock at -1.
   */
  lemma PerItemCheckAllowsOverselling()
    ensures var products := map[1 := Product(1, "Caneta", "Papelaria", None, 250, 3)];
            var request := [ItemRequest(1, 2), ItemRequest(1, 2)];
            && PriceItems(products, request).Ok?
            && DebitAll(products, Rows(PriceItems(products, request).value, 1, 1)).Ok?
            && DebitAll(products, Rows(PriceItems(products, request).value, 1, 1)).value[1].quantidadeEstoque == -1
  {
  }

  // ---------------------------------------------------------------------------
  // The two operations

  /**
   * updateOrderStatus: BadRequest for an unknown order; otherwise the status
   * is overwritten unconditionally, and when it is Concluído every item of the
   * order is debited from its product. If an item's product is missing the
   * whole change is rolled back.
   */
  method UpdateOrderStatus(tables: OrderTables, products: ProductTable, orderId: int, status: Status)
    returns (r: Result<(), Exception>)
    requires tables.Valid() && products.Valid()
    modifies tables, products
    ensures tables.Valid() && products.Valid()
    ensures tables.items == old(tables.items)
    ensures tables.nextOrderId == old(tables.nextOrderId) && tables.nextItemId == old(tables.nextItemId)
    ensures products.nextId == old(products.nextId)
    ensures orderId !in old(tables.orders) ==>
              && r == Err(BadRequest(OrderNotFound(orderId)))
              && tables.orders == old(tables.orders)
              && products.rows == old(products.rows)
    ensures orderId in old(tables.orders) && status != Concluido ==>
              && r == Ok(())
              && tables.orders == old(tables.orders)[orderId := old(tables.orders)[orderId].(status := status)]
              && products.rows == old(products.rows)
    ensures orderId in old(tables.orders) && status == Concluido ==>
              var debit := DebitAll(old(products.rows), ItemsOf(old(tables.items), orderId));
              && (debit.Ok? ==>
                    && r == Ok(())
                    && tables.orders == old(tables.orders)[orderId := old(tables.orders)[orderId].(status := status)]
                    && products.rows == debit.value)
              && (debit.Err? ==>
                    && r == Err(debit.error)
                    && tables.orders == old(tables.orders)
                    && products.rows == old(products.rows))
  {
    var savedOrders, savedRows := tables.orders, products.rows;
    if orderId !in tables.orders {
      return Err(BadRequest(OrderNotFound(orderId)));
    }
    var order := tables.orders[orderId];
    var items := ItemsOf(tables.items, orderId);

    tables.orders := tables.orders[orderId := order.(status := status)];

    if status == Concluido {
      var i := 0;
      while i < |items|
        invariant 0 <= i <= |items|
        invariant tables.orders == savedOrders[orderId := order.(status := status)]
        invariant tables.items == old(tables.items)
        invariant tables.nextOrderId == old(tables.nextOrderId) && tables.nextItemId == old(tables.nextItemId)
        invariant products.Valid() && products.nextId == old(products.nextId)
        invariant products.rows.Keys == savedRows.Keys
        invariant DebitAll(products.rows, items[i..]) == DebitAll(savedRows, items)
      {
        var item := items[i];
        assert items[i..][0] == item && items[i..][1..] == items[i + 1..];
        if item.productId !in products.rows {
          tables.orders, products.rows := savedOrders, savedRows;
          return Err(BadRequest(ProductNotFoundDuringStockUpdate(item.productId)));
        }
        var product := products.rows[item.productId];
        products.rows := products.rows[item.productId := Debit(product, item.quantidade)];
        i := i + 1;
      }
      assert items[i..] == [];
    }
    r := Ok(());
  }

  /** The items of a newly written order are exactly the rows written for it. */
  lemma NewOrderItems(itemsBefore: seq<OrderItem>, lines: seq<LineData>, orderId: int, firstId: int)
    requires forall k | 0 <= k < |itemsBefore| :: itemsBefore[k].orderId != orderId
    ensures ItemsOf(itemsBefore + Rows(lines, orderId, firstId), orderId) == Rows(lines, orderId, firstId)
  {
    var rows := Rows(lines, orderId, firstId);
    ItemsOfNone(itemsBefore, orderId);
    ItemsOfAll(rows, orderId);
    ItemsOfAppend(itemsBefore, rows, orderId);
    assert [] + rows == rows;
  }

  /** Every line create prices names an existing product, so completing the new order cannot fail. */
  lemma PricedItemsCanBeDebited(products: map<int, Product>, items: seq<ItemRequest>, orderId: int, firstId: int)
    requires PriceItems(products, items).Ok?
    ensures DebitAll(products, Rows(PriceItems(products, items).value, orderId, firstId)).Ok?
  {
  }

  /**
   * The rows create writes: one per requested item, in request order, each
   * under the new order, with the product's price at creation time as its
   * unit price and price times quantity as its subtotal.
   */
  lemma CreatedRowsSnapshotPrices(products: map<int, Product>, items: seq<ItemRequest>, orderId: int, firstId: int)
    requires PriceItems(products, items).Ok?
    ensures var rows := Rows(PriceItems(products, items).value, orderId, firstId);
            && |rows| == |items|
            && forall k | 0 <= k < |items| ::
                 && items[k].productId in products
                 && rows[k].orderId == orderId
                 && rows[k].productId == items[k].productId
                 && rows[k].quantidade == items[k].quantidade
                 && rows[k].precoUnitario == products[items[k].productId].preco
                 && rows[k].subtotal == rows[k].precoUnitario * rows[k].quantidade
  {
  }

  /**
   * The first loop of create: checks each requested item against the current
   * table and snapshots its price, accumulating the total; the first item that
   * fails ends the loop with its exception.
   */
  method CollectItems(stock: map<int, Product>, items: seq<ItemRequest>)
    returns (r: Result<seq<LineData>, Exception>, totalPedido: int)
    ensures r == PriceItems(stock, items)
    ensures r.Ok? ==> totalPedido == Total(r.value)
  {
    totalPedido := 0;
    var orderItemsData: seq<LineData> := [];
    var i := 0;
    while i < |items|
      invariant 0 <= i <= |items|
      invariant |orderItemsData| == i
      invariant forall k | 0 <= k < i :: CheckItem(stock, items[k]).None?
      invariant forall k | 0 <= k < i :: items[k].productId in stock && orderItemsData[k] == LineFor(stock, items[k])
      invariant totalPedido == Total(orderItemsData)
    {
      var item := items[i];
      if item.productId !in stock {
        PriceItemsFirstFailure(stock, items, i);
        return Err(BadRequest(ProductNotFound(item.productId))), totalPedido;
      }
      var product := stock[item.productId];
      if product.quantidadeEstoque < item.quantidade {
        PriceItemsFirstFailure(stock, items, i);
        return Err(BadRequest(InsufficientStock(product.nome, product.quantidadeEstoque))), totalPedido;
      }
      var subtotal := product.preco * item.quantidade;
      var line := LineData(item.productId, item.quantidade, product.preco, subtotal);
      TotalAppend(orderItemsData, line);
      totalPedido := totalPedido + subtotal;
      orderItemsData := orderItemsData + [line];
      i := i + 1;
    }
    assert PriceItems(stock, items).Ok?;
    assert PriceItems(stock, items).value == orderItemsData;
    r := Ok(orderItemsData);
  }

  /** The second loop of create: one order_items row per line, under orderId. */
  method InsertItems(tables: OrderTables, orderItemsData: seq<LineData>, orderId: int)
    requires tables.Valid() && orderId in tables.orders
    modifies tables
    ensures tables.Valid()
    ensures tables.items == old(tables.items) + Rows(orderItemsData, orderId, old(tables.nextItemId))
    ensures tables.nextItemId == old(tables.nextItemId) + |orderItemsData|
    ensures tables.orders == old(tables.orders) && tables.nextOrderId == old(tables.nextOrderId)
  {
    var firstItemId := tables.nextItemId;
    var j := 0;
    while j < |orderItemsData|
      invariant 0 <= j <= |orderItemsData|
      invariant tables.items == old(tables.items) + Rows(orderItemsData[..j], orderId, firstItemId)
      invariant tables.nextItemId == firstItemId + j
      invariant tables.orders == old(tables.orders) && tables.nextOrderId == old(tables.nextOrderId)
      invariant tables.Valid()
    {
      var line := orderItemsData[j];
      RowsSnoc(orderItemsData[..j], line, orderId, firstItemId);
      assert orderItemsData[..j + 1] == orderItemsData[..j] + [line];
      tables.items := tables.items + [Row(line, orderId, tables.nextItemId)];
      tables.nextItemId := tables.nextItemId + 1;
      j := j + 1;
    }
    assert orderItemsData[..j] == orderItemsData;
  }

  /**
   * create: validates and prices every item against the current table, then
   * writes one Pendente header with the summed total and one item per line,
   * in request order; a requested Concluído completes the order in the same
   * transaction. On a failed item nothing is written.
   */
  method Create(tables: OrderTables, products: ProductTable, dto: CreateOrderDto)
    returns (r: Result<OrderView, Exception>)
    requires tables.Valid() && products.Valid()
    requires ValidCreateOrderDto(dto)
    modifies tables, products
    ensures tables.Valid() && products.Valid()
    ensures products.nextId == old(products.nextId)
    ensures PriceItems(old(products.rows), dto.items).Err? ==>
              && r == Err(PriceItems(old(products.rows), dto.items).error)
              && tables.orders == old(tables.orders)
              && tables.items == old(tables.items)
              && tables.nextOrderId == old(tables.nextOrderId)
              && tables.nextItemId == old(tables.nextItemId)
              && products.rows == old(products.rows)
    ensures PriceItems(old(products.rows), dto.items).Ok? ==>
              var lines := PriceItems(old(products.rows), dto.items).value;
              var status := if dto.status == Concluido then Concluido else Pendente;
              var order := Order(old(tables.nextOrderId), None, Total(lines), status);
              var rows := Rows(lines, order.id, old(tables.nextItemId));
              && order.id !in old(tables.orders)
              && r == Ok(OrderView(order, rows))
              && tables.orders == old(tables.orders)[order.id := order]
              && tables.items == old(tables.items) + rows
              && tables.nextOrderId == order.id + 1
              && tables.nextItemId == old(tables.nextItemId) + |rows|
              && (if dto.status == Concluido then DebitAll(old(products.rows), rows) == Ok(products.rows)
                  else products.rows == old(products.rows))
    ensures r.Ok? ==> r.value.order.totalPedido == SumSubtotals(r.value.items)
  {
    var priced, totalPedido := CollectItems(products.rows, dto.items);
    if priced.Err? {
      return Err(priced.error);
    }
    var orderItemsData := priced.value;

    var order := Order(tables.nextOrderId, None, totalPedido, Pendente);
    tables.orders := tables.orders[order.id := order];
    tables.nextOrderId := tables.nextOrderId + 1;

    ghost var itemsBefore := tables.items;
    ghost var firstItemId := tables.nextItemId;
    InsertItems(tables, orderItemsData, order.id);

    ghost var rows := Rows(orderItemsData, order.id, firstItemId);
    NewOrderItems(itemsBefore, orderItemsData, order.id, firstItemId);
    RowsPreserveTotal(orderItemsData, order.id, firstItemId);

    if dto.status == Concluido {
      PricedItemsCanBeDebited(products.rows, dto.items, order.id, firstItemId);
      var s := UpdateOrderStatus(tables, products, order.id, Concluido);
      // Every item's product was found above, so the debit cannot fail and
      // the rollback path is not taken from here.
      assert s.Ok?;
    }

    r := FindOne(tables.orders, tables.items, order.id);
  }
}
