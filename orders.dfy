/**
 * The order list view-model: order pricing against a product catalog and
 * the customer-name lookup.
 */
module Orders {
  import opened Models

  const UnknownCustomer := "Unknown Customer"

  /**
   * What one order line adds to the order total: price times quantity of
   * the first catalog product with the line's id, or nothing when the
   * catalog has no such product.
   */
  function LinePrice(line: ProductInOrder, catalog: seq<Product>): int {
    var i := IndexOf(catalog, ProductKey, line.ProductId);
    if i < |catalog| then catalog[i].ProductPrice * line.Quantity else 0
  }

  /** The order total: the sum of LinePrice over the lines. */
  function OrderPrice(lines: seq<ProductInOrder>, catalog: seq<Product>): int {
    if lines == [] then 0 else LinePrice(lines[0], catalog) + OrderPrice(lines[1..], catalog)
  }

  /** A line is priced from the first catalog product that carries its id. */
  lemma LinePriceMatched(line: ProductInOrder, catalog: seq<Product>, k: int)
    requires FirstMatch(catalog, ProductKey, line.ProductId, k)
    ensures LinePrice(line, catalog) == catalog[k].ProductPrice * line.Quantity
  {
    FirstMatchIsIndexOf(catalog, ProductKey, line.ProductId, k);
  }

  /** A line whose id matches no catalog product contributes nothing. */
  lemma LinePriceUnmatched(line: ProductInOrder, catalog: seq<Product>)
    requires NoMatch(catalog, ProductKey, line.ProductId)
    ensures LinePrice(line, catalog) == 0
  {
  }

  lemma OrderPriceEmpty(catalog: seq<Product>)
    ensures OrderPrice([], catalog) == 0
  {
  }

  lemma {:induction false} OrderPriceConcat(a: seq<ProductInOrder>, b: seq<ProductInOrder>, catalog: seq<Product>)
    ensures OrderPrice(a + b, catalog) == OrderPrice(a, catalog) + OrderPrice(b, catalog)
  {
    if a != [] {
      assert (a + b)[0] == a[0];
      assert (a + b)[1..] == a[1..] + b;
      OrderPriceConcat(a[1..], b, catalog);
    } else {
      assert a + b == b;
    }
  }

  /** Appending a line to an order adds exactly that line's price. */
  lemma OrderPriceAppend(lines: seq<ProductInOrder>, line: ProductInOrder, catalog: seq<Product>)
    ensures OrderPrice(lines + [line], catalog) == OrderPrice(lines, catalog) + LinePrice(line, catalog)
  {
    OrderPriceConcat(lines, [line], catalog);
    assert [line][1..] == [];
  }

  /** Dropping a line whose product is not in the catalog leaves the total as it was. */
  lemma OrderPriceSkipsUnmatched(a: seq<ProductInOrder>, line: ProductInOrder, b: seq<ProductInOrder>, catalog: seq<Product>)
    requires NoMatch(catalog, ProductKey, line.ProductId)
    ensures OrderPrice(a + [line] + b, catalog) == OrderPrice(a + b, catalog)
  {
    OrderPriceConcat(a + [line], b, catalog);
    OrderPriceAppend(a, line, catalog);
    OrderPriceConcat(a, b, catalog);
  }

  class OrderListComponent {
    var orders: seq<Order>
    var customers: seq<Customer>
    var products: seq<Product>

    constructor ()
      ensures orders == [] && customers == [] && products == []
    {
      orders, customers, products := [], [], [];
    }

    /** The two subscriptions of loadOrdersAndProducts, with the fetched data as parameters. */
    method LoadOrdersAndProducts(fetchedOrders: seq<Order>, fetchedProducts: seq<Product>)
      modifies this
      ensures orders == fetchedOrders && products == fetchedProducts
      ensures customers == old(customers)
    {
      orders := fetchedOrders;
      products := fetchedProducts;
    }

    /** The for-loop of calculateOrderPrice over the order's lines against `products`. */
    method CalculateOrderPrice(order: Order) returns (totalPrice: int)
      ensures totalPrice == OrderPrice(order.Products, products)
    {
      totalPrice := 0;
      var lines := order.Products;
      for n := 0 to |lines|
        invariant totalPrice == OrderPrice(lines[..n], products)
      {
        var i := IndexOf(products, ProductKey, lines[n].ProductId);
        assert lines[..n + 1] == lines[..n] + [lines[n]];
        OrderPriceAppend(lines[..n], lines[n], products);
        if i < |products| {
          totalPrice := totalPrice + products[i].ProductPrice * lines[n].Quantity;
        }
      }
      assert lines[..|lines|] == lines;
    }

    /** The name of the first customer with the given id, else the fallback text. */
    function GetCustomerName(userId: string): (r: string)
      reads this
      ensures NoMatch(customers, CustomerKey, userId) ==> r == UnknownCustomer
      ensures forall k :: FirstMatch(customers, CustomerKey, userId, k) ==> r == customers[k].Name
    {
      var i := IndexOf(customers, CustomerKey, userId);
      if i < |customers| then customers[i].Name else UnknownCustomer
    }
  }

  /**
   * `customers` starts empty and nothing ever fills it, so on a component
   * that has only been constructed and loaded every name lookup falls back.
   */
  method NameAlwaysUnknown(fetchedOrders: seq<Order>, fetchedProducts: seq<Product>, userId: string)
    returns (name: string)
    ensures name == UnknownCustomer
  {
    var view := new OrderListComponent();
    view.LoadOrdersAndProducts(fetchedOrders, fetchedProducts);
    name := view.GetCustomerName(userId);
  }
}
