/**
 * CartController: count, list, add, update-quantity and delete over two
 * stores chosen by who is calling. A guest's cart is the cookie's line list;
 * a signed-in user's cart is that user's rows in the cart table. Both live in
 * one map keyed by owner, so "nothing else changes" is a map update at one key.
 */
module CartApi {
  import opened Options
  import opened Catalog
  import opened CartLines
  import opened ApiResponses

  type UserId = string

  /** Who calls: a guest, or a signed-in user whose "Id" claim may be missing. */
  datatype Caller = Guest | Member(userId: Option<UserId>)

  /** Whose cart a request works on: the cookie, or one user's rows. */
  datatype Owner = Cookie | UserRows(userId: UserId)

  /** The cart a caller works on; None when a signed-in caller has no "Id" claim (a BadRequest). */
  function OwnerOf(caller: Caller): Option<Owner>
  {
    match caller
    case Guest => Some(Cookie)
    case Member(u) => if u.Some? then Some(UserRows(u.value)) else None
  }

  /** An owner's lines; an owner with nothing stored has an empty cart. */
  function CartIn(carts: map<Owner, seq<Line>>, o: Owner): seq<Line>
  {
    if o in carts then carts[o] else []
  }

  /**
   * CartUtils.UpdateCartItemQuantity: from the change type, the current
   * quantity and the requested quantity, the new quantity. Its definition is
   * not part of this model, so the caller supplies it.
   */
  type QuantityResolver = (Option<string>, int, int) -> int

  /**
   * The guest total loop, with the id-less lines dropped from the cookie as a
   * filter and lines whose product no longer resolves skipped, rather than
   * removed mid-enumeration and dereferenced as the source does (see
   * GuestTotalAsWritten). Returns the total at list price and the kept lines.
   */
  method GuestTotalPrice(c: Catalog, cookie: seq<Line>) returns (total: int, kept: seq<Line>)
    ensures total == Total(c, ListPriceOnly, cookie)
    ensures kept == WithoutNullIds(cookie)
    ensures total == Total(c, ListPriceOnly, kept)
  {
    total, kept := 0, [];
    var k := 0;
    while k < |cookie|
      invariant 0 <= k <= |cookie|
      invariant total == Total(c, ListPriceOnly, cookie[..k])
      invariant kept == WithoutNullIds(cookie[..k])
    {
      var l := cookie[k];
      assert cookie[..k + 1] == cookie[..k] + [l];
      TotalAppend(c, ListPriceOnly, cookie[..k], [l]);
      WithoutNullIdsAppend(cookie[..k], [l]);
      if l.productId.Some? {
        if l.productId.value in c {
          total := total + l.quantity * c[l.productId.value].price;
        }
        kept := kept + [l];
      }
      k := k + 1;
    }
    assert cookie[..k] == cookie;
    TotalIgnoresNullLines(c, ListPriceOnly, cookie);
  }

  class CartController {
    /** The product service's snapshot for this request. */
    const catalog: Catalog
    /** Every stored cart: the cookie's lines under Cookie, each user's rows under UserRows. */
    var carts: map<Owner, seq<Line>>

    /** Every stored cart holds at most one line per product. */
    ghost predicate Valid()
      reads this
    {
      forall o :: o in carts ==> UniqueProducts(carts[o])
    }

    constructor (catalog: Catalog, carts: map<Owner, seq<Line>>)
      ensures this.catalog == catalog && this.carts == carts
    {
      this.catalog := catalog;
      this.carts := carts;
    }

    /** GetCartCount: the number of lines of the caller's cart, id-less cookie lines included. */
    method GetCartCount(caller: Caller) returns (r: ActionResult)
      ensures OwnerOf(caller).None? ==> r == BadRequest
      ensures OwnerOf(caller).Some? ==>
        r == Ok(Reply(true, NoMessage, Count(|CartIn(carts, OwnerOf(caller).value)|)))
    {
      var o := OwnerOf(caller);
      if o.None? {
        return BadRequest;
      }
      r := Ok(Reply(true, NoMessage, Count(|CartIn(carts, o.value)|)));
    }

    /**
     * GetUserCart: a signed-in user gets their rows as stored; a guest gets
     * the cookie lines that carry an id resolving to a product, in cookie
     * order. Nothing is written back.
     */
    method GetUserCart(caller: Caller) returns (r: ActionResult)
      ensures OwnerOf(caller).None? ==> r == BadRequest
      ensures caller.Member? && caller.userId.Some? ==>
        r == Ok(Reply(true, NoMessage, Items(CartIn(carts, UserRows(caller.userId.value)))))
      ensures caller.Guest? ==>
        r == Ok(Reply(true, NoMessage, Items(ResolvedLines(catalog, CartIn(carts, Cookie)))))
      ensures caller.Guest? ==>
        forall l :: l in r.body.data.lines <==>
          l in CartIn(carts, Cookie) && l.productId.Some? && l.productId.value in catalog
    {
      match caller
      case Member(userId) =>
        if userId.None? {
          return BadRequest;
        }
        return Ok(Reply(true, NoMessage, Items(CartIn(carts, UserRows(userId.value)))));
      case Guest =>
        var cookie := CartIn(carts, Cookie);
        var cart: seq<Line> := [];
        var k := 0;
        while k < |cookie|
          invariant 0 <= k <= |cookie|
          invariant cart == ResolvedLines(catalog, cookie[..k])
        {
          var l := cookie[k];
          assert cookie[..k + 1] == cookie[..k] + [l];
          ResolvedLinesAppend(catalog, cookie[..k], [l]);
          k := k + 1;
          if l.productId.None? {
            continue;
          }
          if l.productId.value !in catalog {
            continue;
          }
          cart := cart + [l];
        }
        assert cookie[..k] == cookie;
        r := Ok(Reply(true, NoMessage, Items(cart)));
    }

    /**
     * AddToCart: a missing id or a product reported out of stock is a
     * BadRequest, and so is a signed-in caller without an "Id" claim; nothing
     * changes then. Otherwise the caller's cart gets a new line {id, 1}, or
     * its line for id raised by one and capped at stock; no other cart moves.
     */
    method AddToCart(caller: Caller, id: Option<ProductId>) returns (r: ActionResult)
      modifies this
      ensures id.None? || CheckOutOfStock(catalog, id.value) || OwnerOf(caller).None? ==>
        r == BadRequest && carts == old(carts)
      ensures id.Some? && !CheckOutOfStock(catalog, id.value) && OwnerOf(caller).Some? ==>
        var o := OwnerOf(caller).value;
        r == Ok(Reply(true, NoMessage, NoData)) &&
        carts == old(carts)[o := AddOne(CartIn(old(carts), o), id.value, TotalQty(catalog, id.value))]
      ensures old(Valid()) ==> Valid()
    {
      if id.None? || CheckOutOfStock(catalog, id.value) {
        return BadRequest;
      }
      var pid := id.value;
      var o := OwnerOf(caller);
      if o.None? {
        return BadRequest;
      }
      var lines := CartIn(carts, o.value);
      var found := FirstIndexOf(lines, pid);
      if found.None? {
        carts := carts[o.value := lines + [Line(Some(pid), 1)]];
      } else {
        var i := found.value;
        var warehouseQty := TotalQty(catalog, pid);
        var qty := lines[i].quantity + 1;
        if caller.Member? {
          if qty > warehouseQty {
            qty := warehouseQty;
          }
        } else {
          if qty >= warehouseQty {
            qty := warehouseQty;
          }
        }
        carts := carts[o.value := lines[i := Line(Some(pid), qty)]];
      }
      if old(Valid()) {
        AddOneKeepsUnique(lines, pid, TotalQty(catalog, pid));
      }
      r := Ok(Reply(true, NoMessage, NoData));
    }

    /**
     * UpdateQuantity: a missing id, a missing "Id" claim, or no line for the
     * product is a BadRequest with nothing changed. If the product has no
     * stock, its line is dropped (for a guest the drop is not saved to the
     * cookie) and the reply is a sold-out status false. Otherwise the
     * resolved quantity is capped at stock, with an "only N left" message
     * exactly when the cap applied, and the reply carries the new quantity,
     * the cart total (guest: list price over lines with an id; signed-in:
     * sale price preferred over all lines) and the line's own subtotal at
     * the sale-preferred price. A guest's saved cookie also loses its id-less
     * lines.
     */
    method UpdateQuantity(caller: Caller, id: Option<ProductId>, changeType: Option<string>, qty: int,
                          resolve: QuantityResolver) returns (r: ActionResult)
      modifies this
      ensures id.None? || OwnerOf(caller).None? ||
              FirstIndexOf(CartIn(old(carts), OwnerOf(caller).value), id.value).None? ==>
        r == BadRequest && carts == old(carts)
      ensures id.Some? && OwnerOf(caller).Some? ==>
        var o := OwnerOf(caller).value;
        var lines := CartIn(old(carts), o);
        var stock := TotalQty(catalog, id.value);
        FirstIndexOf(lines, id.value).Some? && stock <= 0 ==>
          var i := FirstIndexOf(lines, id.value).value;
          r == Ok(Reply(false, SoldOut(id), NoData)) &&
          carts == (if caller.Guest? then old(carts) else old(carts)[o := RemoveAt(lines, i)])
      ensures id.Some? && OwnerOf(caller).Some? ==>
        var o := OwnerOf(caller).value;
        var lines := CartIn(old(carts), o);
        var stock := TotalQty(catalog, id.value);
        FirstIndexOf(lines, id.value).Some? && stock > 0 ==>
          var i := FirstIndexOf(lines, id.value).value;
          var wanted := resolve(changeType, lines[i].quantity, qty);
          var q := ClampToStock(wanted, stock);
          var updated := SetQuantity(lines, i, q);
          var pricing := if caller.Guest? then ListPriceOnly else SalePreferred;
          r == Ok(Reply(true, if wanted > stock then OnlyLeft(id, stock) else NoMessage,
                        QuantityUpdate(q, Total(catalog, pricing, updated), q * EffectivePrice(catalog, id.value)))) &&
          carts == old(carts)[o := if caller.Guest? then WithoutNullIds(updated) else updated]
      ensures old(Valid()) ==> Valid()
    {
      if id.None? {
        return BadRequest;
      }
      var pid := id.value;
      var warehouseQty := TotalQty(catalog, pid);
      var price := EffectivePrice(catalog, pid);
      var o := OwnerOf(caller);
      if o.None? {
        return BadRequest;
      }
      var lines := CartIn(carts, o.value);
      var found := FirstIndexOf(lines, pid);
      if found.None? {
        return BadRequest;
      }
      var i := found.value;
      if warehouseQty <= 0 {
        if caller.Member? {
          carts := carts[o.value := RemoveAt(lines, i)];
          if old(Valid()) {
            RemoveAtKeepsUnique(lines, i);
          }
        }
        return Ok(Reply(false, SoldOut(id), NoData));
      }
      var message := NoMessage;
      var newQty := resolve(changeType, lines[i].quantity, qty);
      if newQty > warehouseQty {
        newQty := warehouseQty;
        message := OnlyLeft(id, warehouseQty);
      }
      var updated := SetQuantity(lines, i, newQty);
      if old(Valid()) {
        SetQuantityKeepsUnique(lines, i, newQty);
      }
      var totalPrice;
      if caller.Member? {
        carts := carts[o.value := updated];
        totalPrice := Total(catalog, SalePreferred, updated);
      } else {
        var kept;
        totalPrice, kept := GuestTotalPrice(catalog, updated);
        carts := carts[o.value := kept];
        if old(Valid()) {
          WithoutNullIdsKeepsUnique(updated);
        }
      }
      r := Ok(Reply(true, message, QuantityUpdate(newQty, totalPrice, newQty * price)));
    }

    /**
     * Delete: a missing id, a missing "Id" claim or no line for the product
     * is a BadRequest with nothing changed; otherwise that line is removed
     * from the caller's cart and every other line stays, in order.
     */
    method Delete(caller: Caller, id: Option<ProductId>) returns (r: ActionResult)
      modifies this
      ensures id.None? || OwnerOf(caller).None? ||
              FirstIndexOf(CartIn(old(carts), OwnerOf(caller).value), id.value).None? ==>
        r == BadRequest && carts == old(carts)
      ensures id.Some? && OwnerOf(caller).Some? ==>
        var o := OwnerOf(caller).value;
        var lines := CartIn(old(carts), o);
        FirstIndexOf(lines, id.value).Some? ==>
          r == Ok(Reply(true, NoMessage, NoData)) &&
          carts == old(carts)[o := RemoveAt(lines, FirstIndexOf(lines, id.value).value)]
      ensures old(Valid()) ==> Valid()
    {
      if id.None? {
        return BadRequest;
      }
      var o := OwnerOf(caller);
      if o.None? {
        return BadRequest;
      }
      var lines := CartIn(carts, o.value);
      var found := FirstIndexOf(lines, id.value);
      if found.None? {
        return BadRequest;
      }
      carts := carts[o.value := RemoveAt(lines, found.value)];
      if old(Valid()) {
        RemoveAtKeepsUnique(lines, found.value);
      }
      r := Ok(Reply(true, NoMessage, NoData));
    }
  }
}
