/**
 * The order detail view-model: the selected order, the priced products of
 * that order, and the two read-only queries over them.
 */
module OrderDetails {
  import opened Models
  import opened Orders

  class OrderDetailsComponent {
    var orders: seq<Order>
    /** The order being shown; None until it has been fetched. */
    var selectedOrder: Option<Order>
    /** The order's products with their prices (the catalog used for pricing). */
    var productsInOrder: seq<Product>
    var customer: Option<Customer>

    constructor ()
      ensures orders == [] && selectedOrder == None && productsInOrder == [] && customer == None
    {
      orders, selectedOrder, productsInOrder, customer := [], None, [], None;
    }

    /**
     * The quantity of the first line of the selected order with the given
     * id; 0 without a selected order or without such a line.
     */
    function GetProductQuantity(productId: ProductId): (r: int)
      reads this
      ensures selectedOrder.None? ==> r == 0
      ensures selectedOrder.Some? && NoMatch(selectedOrder.value.Products, OrderLineKey, productId) ==> r == 0
      ensures selectedOrder.Some? ==>
                forall k :: FirstMatch(selectedOrder.value.Products, OrderLineKey, productId, k) ==>
                  r == selectedOrder.value.Products[k].Quantity
    {
      match selectedOrder
      case None => 0
      case Some(order) =>
        var i := IndexOf(order.Products, OrderLineKey, productId);
        if i < |order.Products| then order.Products[i].Quantity else 0
    }

    /** The loop of calculateTotalOrderPrice: the selected order priced against productsInOrder. */
    method CalculateTotalOrderPrice() returns (totalPrice: int)
      ensures selectedOrder.None? ==> totalPrice == 0
      ensures selectedOrder.Some? ==> totalPrice == OrderPrice(selectedOrder.value.Products, productsInOrder)
    {
      totalPrice := 0;
      if selectedOrder.Some? {
        var lines := selectedOrder.value.Products;
        for n := 0 to |lines|
          invariant totalPrice == OrderPrice(lines[..n], productsInOrder)
        {
          var i := IndexOf(productsInOrder, ProductKey, lines[n].ProductId);
          assert lines[..n + 1] == lines[..n] + [lines[n]];
          OrderPriceAppend(lines[..n], lines[n], productsInOrder);
          if i < |productsInOrder| {
            totalPrice := totalPrice + productsInOrder[i].ProductPrice * lines[n].Quantity;
          }
        }
        assert lines[..|lines|] == lines;
      }
    }
  }

  /**
   * The detail view's total of its selected order equals the list view's
   * price of that order when the list's catalog is the detail's productsInOrder.
   */
  method TotalsAgree(details: OrderDetailsComponent, list: OrderListComponent)
    returns (detailTotal: int, listTotal: int)
    requires details.selectedOrder.Some? && list.products == details.productsInOrder
    ensures detailTotal == listTotal
  {
    detailTotal := details.CalculateTotalOrderPrice();
    listTotal := list.CalculateOrderPrice(details.selectedOrder.value);
  }
}
