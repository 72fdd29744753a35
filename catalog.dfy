/**
 * The product service as the cart workflow sees it: a read-only snapshot of
 * the catalogue. GetProductWithBasicInfo is a map lookup, GetTotalQty sums the
 * product's warehouse quantities, and CheckOutOfStock tests that sum.
 */
module Catalog {
  import opened Options

  type ProductId = string

  /**
   * A product: its list price, the sale price of its first sale record if it
   * has one, and the quantity each warehouse holds. Prices are decimals in the
   * source; here they are integers in the smallest currency unit.
   */
  datatype Product = Product(price: int, salePrice: Option<int>, warehouseQty: seq<int>)

  type Catalog = map<ProductId, Product>

  function Sum(s: seq<int>): int
  {
    if s == [] then 0 else s[0] + Sum(s[1..])
  }

  /**
   * Total stock of a product over all warehouses (GetTotalQty, and the
   * WarehouseProducts sum of the stock check). A product that does not
   * resolve holds none; the total is never negative while no warehouse is.
   */
  function TotalQty(c: Catalog, id: ProductId): (n: int)
    ensures id !in c ==> n == 0
    ensures id in c && (forall k :: 0 <= k < |c[id].warehouseQty| ==> c[id].warehouseQty[k] >= 0) ==> n >= 0
  {
    if id in c then
      SumNonNegative(c[id].warehouseQty);
      Sum(c[id].warehouseQty)
    else 0
  }

  /**
   * Whether the product service reports the product as out of stock. An
   * unknown product is out of stock, and a product it accepts holds at least
   * one unit.
   */
  predicate CheckOutOfStock(c: Catalog, id: ProductId)
    ensures id !in c ==> CheckOutOfStock(c, id)
    ensures !CheckOutOfStock(c, id) ==> id in c && TotalQty(c, id) >= 1
  {
    TotalQty(c, id) <= 0
  }

  /**
   * The price a customer pays: the sale price of the first sale record when
   * there is one, else the list price; an unresolved product is priced at 0.
   */
  function EffectivePrice(c: Catalog, id: ProductId): (p: int)
    ensures id in c && c[id].salePrice.Some? ==> p == c[id].salePrice.value
    ensures id !in c || c[id].salePrice.None? ==> p == ListPrice(c, id)
  {
    if id !in c then 0
    else match c[id].salePrice
      case Some(s) => s
      case None => c[id].price
  }

  /** The list price alone (0 if unresolved). */
  function ListPrice(c: Catalog, id: ProductId): int
  {
    if id in c then c[id].price else 0
  }

  /** Warehouse quantities are never negative, so neither is their sum. */
  lemma {:induction false} SumNonNegative(s: seq<int>)
    ensures (forall k :: 0 <= k < |s| ==> s[k] >= 0) ==> Sum(s) >= 0
  {
    if s != [] {
      SumNonNegative(s[1..]);
    }
  }
}
