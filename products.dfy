/**
 * The product listing view-model: the low-stock test and the guarded stock
 * edit of one product in the listed catalog.
 */
module Products {
  import opened Models

  const LowStockThreshold := 5

  /** Fewer than LowStockThreshold pieces are left. */
  predicate IsLowStock(product: Product) {
    product.AvailablePieces < LowStockThreshold
  }

  /**
   * The catalog after setting the stock of the first product with id `id`
   * to `quantity`; a negative quantity or an unknown id changes nothing.
   */
  function WithStock(products: seq<Product>, id: ProductId, quantity: int): seq<Product> {
    if quantity < 0 then products
    else
      var i := IndexOf(products, ProductKey, id);
      if i < |products| then products[i := products[i].(AvailablePieces := quantity)] else products
  }

  lemma StockNegativeIgnored(products: seq<Product>, id: ProductId, quantity: int)
    requires quantity < 0
    ensures WithStock(products, id, quantity) == products
  {
  }

  lemma StockUnknownIgnored(products: seq<Product>, id: ProductId, quantity: int)
    requires NoMatch(products, ProductKey, id)
    ensures WithStock(products, id, quantity) == products
  {
  }

  /**
   * A non-negative edit of a listed product changes only that product's
   * stock: same length, same other products, same id and price.
   */
  lemma StockEdited(products: seq<Product>, id: ProductId, quantity: int, k: int)
    requires quantity >= 0 && FirstMatch(products, ProductKey, id, k)
    ensures |WithStock(products, id, quantity)| == |products|
    ensures WithStock(products, id, quantity)[k] ==
              Product(products[k].ProductId, products[k].ProductPrice, quantity)
    ensures forall j :: 0 <= j < |products| && j != k ==> WithStock(products, id, quantity)[j] == products[j]
  {
    FirstMatchIsIndexOf(products, ProductKey, id, k);
  }

  /** After a successful edit the product is low on stock exactly when the new quantity is below the threshold. */
  lemma StockEditedLowStock(products: seq<Product>, id: ProductId, quantity: int, k: int)
    requires quantity >= 0 && FirstMatch(products, ProductKey, id, k)
    ensures IsLowStock(WithStock(products, id, quantity)[k]) <==> quantity < 5
  {
    StockEdited(products, id, quantity, k);
  }

  class ProductsComponent {
    var products: seq<Product>

    constructor ()
      ensures products == []
    {
      products := [];
    }

    /** The success callback of the product subscription in ngOnInit. */
    method OnProductsLoaded(data: seq<Product>)
      modifies this
      ensures products == data
    {
      products := data;
    }

    method EditProductQuantity(product: Product, quantity: int)
      modifies this
      ensures products == WithStock(old(products), product.ProductId, quantity)
    {
      if quantity >= 0 {
        var i := IndexOf(products, ProductKey, product.ProductId);
        if i < |products| {
          products := products[i := products[i].(AvailablePieces := quantity)];
        }
      }
    }
  }
}
