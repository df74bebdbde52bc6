/**
 * The records shared by the storefront: catalog products, cart line
 * items, orders and customers, plus a first-match search that stands for
 * every `Array.prototype.find` / `findIndex` the components use.
 */
module Models {

  datatype Option<T> = None | Some(value: T)

  /** Product identifiers are strings throughout (the cart compares them with string ids). */
  type ProductId = string

  /** A catalog product, with the fields the modelled code reads; prices are integer minor units. */
  datatype Product = Product(ProductId: ProductId, ProductPrice: int, AvailablePieces: int)

  /** One cart line: a product and how many pieces of it are in the cart. */
  datatype LineItem = LineItem(product: Product, quantity: int)

  /** One line of a placed order. */
  datatype ProductInOrder = ProductInOrder(ProductId: ProductId, Quantity: int)

  datatype Order = Order(
    OrderId: int,
    OrderDate: string,
    UserId: string,
    Products: seq<ProductInOrder>,
    PaymentType: string)

  datatype Customer = Customer(
    Id: string,
    Name: string,
    Email: string,
    Address: string,
    Phone: string,
    RegisterDate: string)

  // Key selectors, passed to IndexOf as the `find` callback's comparison key.
  function ProductKey(p: Product): ProductId { p.ProductId }
  function LineKey(l: LineItem): ProductId { l.product.ProductId }
  function OrderLineKey(l: ProductInOrder): ProductId { l.ProductId }
  function CustomerKey(c: Customer): string { c.Id }

  /** Index `i` is the first element of `s` whose key is `k`. */
  predicate FirstMatch<T, K(==)>(s: seq<T>, key: T -> K, k: K, i: int) {
    0 <= i < |s| && key(s[i]) == k && forall j :: 0 <= j < i ==> key(s[j]) != k
  }

  /** No element of `s` has key `k`. */
  predicate NoMatch<T, K(==)>(s: seq<T>, key: T -> K, k: K) {
    forall j :: 0 <= j < |s| ==> key(s[j]) != k
  }

  /**
   * The index of the first element of `s` whose key equals `k`, or `|s|`
   * when there is none: `find` returns `s[IndexOf(...)]` or `undefined`.
   */
  function IndexOf<T, K(==)>(s: seq<T>, key: T -> K, k: K): (r: nat)
    ensures r <= |s|
    ensures r < |s| ==> FirstMatch(s, key, k, r)
    ensures r == |s| <==> NoMatch(s, key, k)
  {
    if s == [] then 0
    else if key(s[0]) == k then 0
    else 1 + IndexOf(s[1..], key, k)
  }

  /** A first match found by any other means is the one IndexOf reports. */
  lemma FirstMatchIsIndexOf<T, K>(s: seq<T>, key: T -> K, k: K, i: int)
    requires FirstMatch(s, key, k, i)
    ensures IndexOf(s, key, k) == i
  {
  }
}
