/**
 * OrderController.CheckQuantity: before checkout, check one product, or every
 * line of the signed-in user's cart, against warehouse stock. It only reads;
 * each problem adds one note to the reply, and the reply's status is true
 * exactly when there is no note.
 */
module OrderApi {
  import opened Options
  import opened Catalog
  import opened CartLines
  import opened ApiResponses
  import opened CartApi

  /** The stock a line's product holds; an id-less or unresolved line sees zero. */
  function StockOf(c: Catalog, l: Line): int
  {
    if l.productId.Some? then TotalQty(c, l.productId.value) else 0
  }

  /**
   * The note a cart line adds: "only N left" when stock is below the line's
   * quantity, otherwise "sold out" when stock is zero, otherwise none. The
   * sold-out note can only fire for a line whose quantity is at most zero.
   */
  function NoteFor(c: Catalog, l: Line): (n: Option<Message>)
    ensures n.Some? ==> n.value.OnlyLeft? || n.value.SoldOut?
    ensures (n.Some? && n.value.OnlyLeft?) <==> StockOf(c, l) < l.quantity
    ensures (n.Some? && n.value.SoldOut?) <==> StockOf(c, l) == 0 && l.quantity <= 0
    ensures n.Some? ==> n.value.product == l.productId
    ensures n.Some? && n.value.OnlyLeft? ==> n.value.left == StockOf(c, l)
  {
    var qty := StockOf(c, l);
    if qty < l.quantity then Some(OnlyLeft(l.productId, qty))
    else if qty == 0 then Some(SoldOut(l.productId))
    else None
  }

  /** The notes of a whole cart, in line order. */
  function StockNotes(c: Catalog, lines: seq<Line>): (notes: seq<Message>)
    ensures |notes| <= |lines|
    ensures forall m :: m in notes ==> m.OnlyLeft? || m.SoldOut?
  {
    if lines == [] then []
    else
      (match NoteFor(c, lines[0]) case Some(m) => [m] case None => []) + StockNotes(c, lines[1..])
  }

  lemma {:induction false} StockNotesAppend(c: Catalog, a: seq<Line>, b: seq<Line>)
    ensures StockNotes(c, a + b) == StockNotes(c, a) + StockNotes(c, b)
  {
    if a == [] {
      assert a + b == b;
    } else {
      assert (a + b)[0] == a[0] && (a + b)[1..] == a[1..] + b;
      StockNotesAppend(c, a[1..], b);
    }
  }

  /** A cart passes exactly when every line's stock covers its quantity and is not zero. */
  lemma {:induction false} StockNotesEmptyIff(c: Catalog, lines: seq<Line>)
    ensures StockNotes(c, lines) == [] <==>
      forall i :: 0 <= i < |lines| ==> StockOf(c, lines[i]) >= lines[i].quantity && StockOf(c, lines[i]) != 0
  {
    if lines != [] {
      StockNotesEmptyIff(c, lines[1..]);
      assert forall i :: 1 <= i < |lines| ==> lines[i] == lines[1..][i - 1];
    }
  }

  /**
   * Every line short of stock gets its "only N left" note, and every such
   * note comes from a line short of stock, naming its product and stock.
   */
  lemma {:induction false} ShortLinesAreFlagged(c: Catalog, lines: seq<Line>)
    ensures forall i :: 0 <= i < |lines| && StockOf(c, lines[i]) < lines[i].quantity ==>
      OnlyLeft(lines[i].productId, StockOf(c, lines[i])) in StockNotes(c, lines)
    ensures forall m :: m in StockNotes(c, lines) && m.OnlyLeft? ==>
      exists i :: 0 <= i < |lines| && lines[i].productId == m.product &&
        m.left == StockOf(c, lines[i]) < lines[i].quantity
  {
    if lines != [] {
      ShortLinesAreFlagged(c, lines[1..]);
      assert forall i :: 1 <= i < |lines| ==> lines[i] == lines[1..][i - 1];
      forall m | m in StockNotes(c, lines) && m.OnlyLeft?
        ensures exists i ::
          0 <= i < |lines| && lines[i].productId == m.product && m.left == StockOf(c, lines[i]) < lines[i].quantity
      {
        if m !in StockNotes(c, lines[1..]) {
          assert m == NoteFor(c, lines[0]).value;
        } else {
          var j :| 0 <= j < |lines[1..]| && lines[1..][j].productId == m.product &&
            m.left == StockOf(c, lines[1..][j]) < lines[1..][j].quantity;
          assert lines[j + 1] == lines[1..][j];
        }
      }
    }
  }

  /**
   * CheckQuantity. With a product id: status false, with a sold-out note,
   * exactly when the product's summed stock is at most zero (an unknown
   * product has none). Without one: BadRequest when the caller has no "Id"
   * claim; otherwise the notes of that user's cart, status true exactly when
   * there are none. The carts are read, never changed.
   */
  method CheckQuantity(c: Catalog, carts: map<Owner, seq<Line>>, userId: Option<UserId>, pId: Option<ProductId>)
    returns (r: ActionResult)
    ensures pId.Some? ==>
      r.Ok? && (r.body.status <==> TotalQty(c, pId.value) > 0) &&
      r.body == Reply(r.body.status, NoMessage, if r.body.status then NoData else Notes([SoldOut(pId)]))
    ensures pId.None? && userId.None? ==> r == BadRequest
    ensures pId.None? && userId.Some? ==>
      var notes := StockNotes(c, CartIn(carts, UserRows(userId.value)));
      r == Ok(Reply(notes == [], NoMessage, if notes == [] then NoData else Notes(notes)))
  {
    var notes: seq<Message> := [];
    if pId.Some? {
      var qty := TotalQty(c, pId.value);
      if qty <= 0 {
        notes := [SoldOut(pId)];
      }
    } else {
      if userId.None? {
        return BadRequest;
      }
      var cart := CartIn(carts, UserRows(userId.value));
      var k := 0;
      while k < |cart|
        invariant 0 <= k <= |cart|
        invariant notes == StockNotes(c, cart[..k])
      {
        var line := cart[k];
        assert cart[..k + 1] == cart[..k] + [line];
        StockNotesAppend(c, cart[..k], [line]);
        var qty := StockOf(c, line);
        if qty < line.quantity {
          notes := notes + [OnlyLeft(line.productId, qty)];
        } else if qty == 0 {
          notes := notes + [SoldOut(line.productId)];
        }
        k := k + 1;
      }
      assert cart[..k] == cart;
    }
    r := Ok(Reply(notes == [], NoMessage, if notes == [] then NoData else Notes(notes)));
  }
}
