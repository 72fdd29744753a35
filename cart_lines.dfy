/**
 * The cart as a list of lines and the pure rules both storage branches follow:
 * finding a product's line, adding one unit up to the stock ceiling, clamping
 * a requested quantity, removing a line, listing, and totalling.
 */
module CartLines {
  import opened Options
  import opened Catalog

  /** One cart entry: a CartVM of the guest cookie or a UserCart row. A cookie entry may carry no product id. */
  datatype Line = Line(productId: Option<ProductId>, quantity: int)

  predicate HasLine(lines: seq<Line>, id: ProductId)
  {
    exists i :: 0 <= i < |lines| && lines[i].productId == Some(id)
  }

  /** At most one line per product; lines without an id are not compared. */
  predicate UniqueProducts(lines: seq<Line>)
  {
    forall i, j :: 0 <= i < j < |lines| && lines[i].productId.Some? ==> lines[i].productId != lines[j].productId
  }

  /** The first line for `id`, as FirstOrDefault and GetUserCartItem find it. */
  function FirstIndexOf(lines: seq<Line>, id: ProductId): (r: Option<nat>)
    ensures r.Some? ==> r.value < |lines| && lines[r.value].productId == Some(id)
    ensures r.Some? ==> forall j :: 0 <= j < r.value ==> lines[j].productId != Some(id)
    ensures r.None? <==> !HasLine(lines, id)
  {
    if |lines| == 0 then None
    else if lines[0].productId == Some(id) then Some(0)
    else match FirstIndexOf(lines[1..], id)
      case None => None
      case Some(j) => Some(j + 1)
  }

  /** With one line per product, the first line for `id` is the only one. */
  lemma FirstIndexOfUnique(lines: seq<Line>, id: ProductId, i: nat)
    requires UniqueProducts(lines)
    requires i < |lines| && lines[i].productId == Some(id)
    ensures FirstIndexOf(lines, id) == Some(i)
  {
    assert HasLine(lines, id);
  }

  /** A line for `id` with none before it is the one the lookup finds. */
  lemma FirstIndexOfIs(lines: seq<Line>, id: ProductId, i: nat)
    requires i < |lines| && lines[i].productId == Some(id)
    requires forall j :: 0 <= j < i ==> lines[j].productId != Some(id)
    ensures FirstIndexOf(lines, id) == Some(i)
  {
    assert HasLine(lines, id);
  }

  lemma UniqueCons(h: Line, t: seq<Line>)
    ensures UniqueProducts([h] + t) <==>
      UniqueProducts(t) && (h.productId.Some? ==> forall l :: l in t ==> l.productId != h.productId)
  {
    var s := [h] + t;
    if UniqueProducts(s) {
      forall i, j | 0 <= i < j < |t| && t[i].productId.Some?
        ensures t[i].productId != t[j].productId
      {
        assert s[i + 1] == t[i] && s[j + 1] == t[j];
      }
      if h.productId.Some? {
        forall l | l in t ensures l.productId != h.productId {
          var j :| 0 <= j < |t| && t[j] == l;
          assert s[0] == h && s[j + 1] == l;
          assert s[0].productId != s[j + 1].productId;
        }
      }
    }
    if UniqueProducts(t) && (h.productId.Some? ==> forall l :: l in t ==> l.productId != h.productId) {
      forall i, j | 0 <= i < j < |s| && s[i].productId.Some?
        ensures s[i].productId != s[j].productId
      {
        if i == 0 {
          assert s[j] == t[j - 1] && s[j] in t;
        } else {
          assert s[i] == t[i - 1] && s[j] == t[j - 1];
        }
      }
    }
  }

  // ---------------------------------------------------------------- Add

  /** The quantity of an existing line after one more add: one more, but never above stock. */
  function AddOneTo(q: int, stock: int): (r: int)
    ensures r <= stock && r <= q + 1
    ensures r == q + 1 || r == stock
  {
    if q + 1 > stock then stock else q + 1
  }

  /** Add one unit of `id`: a new line of quantity 1, or the existing line raised by one up to `stock`. */
  function AddOne(lines: seq<Line>, id: ProductId, stock: int): (r: seq<Line>)
    ensures HasLine(r, id)
    ensures |r| == if HasLine(lines, id) then |lines| else |lines| + 1
    ensures forall j :: 0 <= j < |lines| && lines[j].productId != Some(id) ==> r[j] == lines[j]
  {
    match FirstIndexOf(lines, id)
    case None =>
      var r := lines + [Line(Some(id), 1)];
      assert r[|lines|].productId == Some(id);
      r
    case Some(i) =>
      var r := lines[i := Line(Some(id), AddOneTo(lines[i].quantity, stock))];
      assert r[i].productId == Some(id);
      r
  }

  /** Adding a product the cart does not hold appends exactly the line {id, 1}. */
  lemma AddOneAppendsNewLine(lines: seq<Line>, id: ProductId, stock: int)
    requires !HasLine(lines, id)
    ensures AddOne(lines, id, stock) == lines + [Line(Some(id), 1)]
  {
  }

  /**
   * Adding a product the cart holds raises only its first line, to
   * min(old + 1, stock), and that line stays the first for the product. A
   * cookie holding duplicates is covered too.
   */
  lemma AddOneRaisesExistingLine(lines: seq<Line>, id: ProductId, stock: int, i: nat)
    requires FirstIndexOf(lines, id) == Some(i)
    ensures |AddOne(lines, id, stock)| == |lines|
    ensures AddOne(lines, id, stock)[i] == Line(Some(id), AddOneTo(lines[i].quantity, stock))
    ensures forall j :: 0 <= j < |lines| && j != i ==> AddOne(lines, id, stock)[j] == lines[j]
    ensures FirstIndexOf(AddOne(lines, id, stock), id) == Some(i)
  {
    FirstIndexOfIs(AddOne(lines, id, stock), id, i);
  }

  /** Adding keeps one line per product. */
  lemma AddOneKeepsUnique(lines: seq<Line>, id: ProductId, stock: int)
    requires UniqueProducts(lines)
    ensures UniqueProducts(AddOne(lines, id, stock))
  {
    var r := AddOne(lines, id, stock);
    match FirstIndexOf(lines, id)
    case None =>
      forall i, j | 0 <= i < j < |r| && r[i].productId.Some?
        ensures r[i].productId != r[j].productId
      {
        if j == |lines| {
          assert r[j].productId == Some(id);
        }
      }
    case Some(k) =>
      forall i, j | 0 <= i < j < |r| && r[i].productId.Some?
        ensures r[i].productId != r[j].productId
      {
        assert r[i].productId == lines[i].productId && r[j].productId == lines[j].productId;
      }
  }

  /** `k` successive adds of the same product. */
  function AddTimes(lines: seq<Line>, id: ProductId, stock: int, k: nat): seq<Line>
  {
    if k == 0 then lines else AddOne(AddTimes(lines, id, stock, k - 1), id, stock)
  }

  /** Repeated adds raise an existing line by one per call and saturate at stock; nothing else moves. */
  lemma {:induction false} RepeatedAddSaturates(lines: seq<Line>, id: ProductId, stock: int, i: nat, k: nat)
    requires FirstIndexOf(lines, id) == Some(i)
    requires k >= 1
    ensures UniqueProducts(lines) ==> UniqueProducts(AddTimes(lines, id, stock, k))
    ensures |AddTimes(lines, id, stock, k)| == |lines|
    ensures FirstIndexOf(AddTimes(lines, id, stock, k), id) == Some(i)
    ensures AddTimes(lines, id, stock, k)[i].quantity ==
      if lines[i].quantity + k < stock then lines[i].quantity + k else stock
    ensures forall j :: 0 <= j < |lines| && j != i ==> AddTimes(lines, id, stock, k)[j] == lines[j]
  {
    var prev := AddTimes(lines, id, stock, k - 1);
    if k == 1 {
      assert prev == lines;
    } else {
      RepeatedAddSaturates(lines, id, stock, i, k - 1);
    }
    AddOneRaisesExistingLine(prev, id, stock, i);
    if UniqueProducts(lines) {
      AddOneKeepsUnique(prev, id, stock);
    }
  }

  /** From an empty cart, the first add of an in-stock product gives quantity 1, and k adds give min(k, stock). */
  lemma {:induction false} AddsFromEmptyCart(id: ProductId, stock: int, k: nat)
    requires stock >= 1 && k >= 1
    ensures AddTimes([], id, stock, k) == [Line(Some(id), if k < stock then k else stock)]
  {
    if k > 1 {
      AddsFromEmptyCart(id, stock, k - 1);
      var prev := AddTimes([], id, stock, k - 1);
      assert FirstIndexOf(prev, id) == Some(0);
    }
  }

  // ---------------------------------------------------------------- UpdateQuantity

  /** A resolved quantity capped at the warehouse stock. */
  function ClampToStock(q: int, stock: int): (r: int)
    ensures r <= stock
    ensures r == q <==> q <= stock
    ensures q > stock ==> r == stock
  {
    if q > stock then stock else q
  }

  /** The line at `i` with a new quantity. */
  function SetQuantity(lines: seq<Line>, i: nat, q: int): (r: seq<Line>)
    requires i < |lines|
  {
    lines[i := Line(lines[i].productId, q)]
  }

  /** Changing a quantity keeps one line per product. */
  lemma SetQuantityKeepsUnique(lines: seq<Line>, i: nat, q: int)
    requires i < |lines| && UniqueProducts(lines)
    ensures UniqueProducts(SetQuantity(lines, i, q))
  {
    var r := SetQuantity(lines, i, q);
    forall a, b | 0 <= a < b < |r| && r[a].productId.Some?
      ensures r[a].productId != r[b].productId
    {
      assert r[a].productId == lines[a].productId && r[b].productId == lines[b].productId;
    }
  }

  // ---------------------------------------------------------------- Delete

  function RemoveAt(lines: seq<Line>, i: nat): seq<Line>
    requires i < |lines|
  {
    lines[..i] + lines[i + 1..]
  }

  /**
   * Removing the line found for `id` leaves exactly the other lines, in order:
   * one line fewer, none for `id`, every other line kept, one line per product.
   */
  lemma RemoveLineForProduct(lines: seq<Line>, id: ProductId, i: nat)
    requires UniqueProducts(lines)
    requires i < |lines| && lines[i].productId == Some(id)
    ensures |RemoveAt(lines, i)| == |lines| - 1
    ensures !HasLine(RemoveAt(lines, i), id)
    ensures forall l :: l in RemoveAt(lines, i) <==> l in lines && l.productId != Some(id)
    ensures UniqueProducts(RemoveAt(lines, i))
  {
    RemoveAtKeepsOthers(lines, i);
    var r := RemoveAt(lines, i);
    forall j | 0 <= j < |r| ensures r[j].productId != Some(id) {
      if j < i {
        assert r[j] == lines[j] && lines[j].productId != lines[i].productId;
      } else {
        assert r[j] == lines[j + 1] && lines[i].productId != lines[j + 1].productId;
      }
    }
    forall l | l in r ensures l in lines && l.productId != Some(id) {
      var j :| 0 <= j < |r| && r[j] == l;
    }
    RemoveAtKeepsUnique(lines, i);
  }

  lemma RemoveAtKeepsOthers(lines: seq<Line>, i: nat)
    requires i < |lines|
    ensures forall j :: 0 <= j < i ==> RemoveAt(lines, i)[j] == lines[j]
    ensures forall j :: i <= j < |lines| - 1 ==> RemoveAt(lines, i)[j] == lines[j + 1]
    ensures forall j :: 0 <= j < |lines| && j != i ==> lines[j] in RemoveAt(lines, i)
  {
    var r := RemoveAt(lines, i);
    forall j | 0 <= j < |lines| && j != i ensures lines[j] in r {
      if j < i { assert r[j] == lines[j]; } else { assert r[j - 1] == lines[j]; }
    }
  }

  lemma RemoveAtKeepsUnique(lines: seq<Line>, i: nat)
    requires i < |lines| && UniqueProducts(lines)
    ensures UniqueProducts(RemoveAt(lines, i))
  {
    RemoveAtKeepsOthers(lines, i);
    var r := RemoveAt(lines, i);
    forall a, b | 0 <= a < b < |r| && r[a].productId.Some?
      ensures r[a].productId != r[b].productId
    {
      var a' := if a < i then a else a + 1;
      var b' := if b < i then b else b + 1;
      assert r[a] == lines[a'] && r[b] == lines[b'] && a' < b';
    }
  }

  // ---------------------------------------------------------------- Listing

  /** The guest listing: cookie lines whose id is present and resolves to a product, in cookie order. */
  function ResolvedLines(c: Catalog, lines: seq<Line>): (r: seq<Line>)
    ensures |r| <= |lines|
    ensures forall l :: l in r <==> l in lines && l.productId.Some? && l.productId.value in c
  {
    if lines == [] then []
    else
      var rest := ResolvedLines(c, lines[1..]);
      assert lines == [lines[0]] + lines[1..];
      if lines[0].productId.Some? && lines[0].productId.value in c then [lines[0]] + rest else rest
  }

  /** Listing distributes over concatenation, so it keeps the cookie's order. */
  lemma {:induction false} ResolvedLinesAppend(c: Catalog, a: seq<Line>, b: seq<Line>)
    ensures ResolvedLines(c, a + b) == ResolvedLines(c, a) + ResolvedLines(c, b)
  {
    if a == [] {
      assert a + b == b;
    } else {
      assert (a + b)[0] == a[0] && (a + b)[1..] == a[1..] + b;
      ResolvedLinesAppend(c, a[1..], b);
    }
  }

  /** The cookie with its id-less lines dropped, in order. */
  function WithoutNullIds(lines: seq<Line>): (r: seq<Line>)
    ensures |r| <= |lines|
    ensures forall l :: l in r <==> l in lines && l.productId.Some?
  {
    if lines == [] then []
    else
      var rest := WithoutNullIds(lines[1..]);
      assert lines == [lines[0]] + lines[1..];
      if lines[0].productId.Some? then [lines[0]] + rest else rest
  }

  lemma {:induction false} WithoutNullIdsAppend(a: seq<Line>, b: seq<Line>)
    ensures WithoutNullIds(a + b) == WithoutNullIds(a) + WithoutNullIds(b)
  {
    if a == [] {
      assert a + b == b;
    } else {
      assert (a + b)[0] == a[0] && (a + b)[1..] == a[1..] + b;
      WithoutNullIdsAppend(a[1..], b);
    }
  }

  /** Dropping id-less lines keeps one line per product. */
  lemma {:induction false} WithoutNullIdsKeepsUnique(lines: seq<Line>)
    requires UniqueProducts(lines)
    ensures UniqueProducts(WithoutNullIds(lines))
  {
    if lines != [] {
      assert lines == [lines[0]] + lines[1..];
      UniqueCons(lines[0], lines[1..]);
      WithoutNullIdsKeepsUnique(lines[1..]);
      if lines[0].productId.Some? {
        UniqueCons(lines[0], WithoutNullIds(lines[1..]));
      }
    }
  }

  // ---------------------------------------------------------------- Totals

  /** Which unit price a total uses: the guest loop reads the list price, the signed-in sum prefers the sale price. */
  datatype Pricing = ListPriceOnly | SalePreferred

  function UnitPrice(c: Catalog, pricing: Pricing, id: ProductId): int
  {
    match pricing
    case ListPriceOnly => ListPrice(c, id)
    case SalePreferred => EffectivePrice(c, id)
  }

  /** A line's share of the cart total; an id-less line contributes nothing. */
  function LineAmount(c: Catalog, pricing: Pricing, l: Line): int
  {
    if l.productId.Some? then l.quantity * UnitPrice(c, pricing, l.productId.value) else 0
  }

  /** The cart total: the sum of quantity times unit price over the lines. */
  function Total(c: Catalog, pricing: Pricing, lines: seq<Line>): (t: int)
    ensures (forall i :: 0 <= i < |lines| ==> LineAmount(c, pricing, lines[i]) >= 0) ==> t >= 0
    ensures (forall i :: 0 <= i < |lines| ==> lines[i].productId.None?) ==> t == 0
  {
    if lines == [] then 0 else LineAmount(c, pricing, lines[0]) + Total(c, pricing, lines[1..])
  }

  lemma {:induction false} TotalAppend(c: Catalog, pricing: Pricing, a: seq<Line>, b: seq<Line>)
    ensures Total(c, pricing, a + b) == Total(c, pricing, a) + Total(c, pricing, b)
  {
    if a == [] {
      assert a + b == b;
    } else {
      assert (a + b)[0] == a[0] && (a + b)[1..] == a[1..] + b;
      TotalAppend(c, pricing, a[1..], b);
    }
  }

  /** Changing one line's quantity moves the total by exactly that line's change. */
  lemma {:induction false} TotalAfterSetQuantity(c: Catalog, pricing: Pricing, lines: seq<Line>, i: nat, q: int)
    requires i < |lines|
    ensures Total(c, pricing, SetQuantity(lines, i, q)) ==
      Total(c, pricing, lines) - LineAmount(c, pricing, lines[i]) + LineAmount(c, pricing, SetQuantity(lines, i, q)[i])
  {
    if i == 0 {
      assert SetQuantity(lines, i, q)[1..] == lines[1..];
    } else {
      assert SetQuantity(lines, i, q)[1..] == SetQuantity(lines[1..], i - 1, q);
      TotalAfterSetQuantity(c, pricing, lines[1..], i - 1, q);
    }
  }

  /** Id-less lines contribute nothing, so dropping them does not change the total. */
  lemma {:induction false} TotalIgnoresNullLines(c: Catalog, pricing: Pricing, lines: seq<Line>)
    ensures Total(c, pricing, WithoutNullIds(lines)) == Total(c, pricing, lines)
  {
    if lines != [] {
      TotalIgnoresNullLines(c, pricing, lines[1..]);
    }
  }

  /** Under list prices, lines whose product does not resolve add nothing, so the total is that of the guest listing. */
  lemma {:induction false} TotalOfResolvedLines(c: Catalog, lines: seq<Line>)
    ensures Total(c, ListPriceOnly, lines) == Total(c, ListPriceOnly, ResolvedLines(c, lines))
  {
    if lines != [] {
      TotalOfResolvedLines(c, lines[1..]);
    }
  }

  // ---------------------------------------------------------------- The guest total as written

  /**
   * The guest total loop as the source writes it. None stands for the
   * exception it raises: removing an id-less line from the list being
   * enumerated makes the enumerator's next step throw, and a line whose
   * product no longer resolves is dereferenced as null.
   */
  function GuestTotalAsWritten(c: Catalog, lines: seq<Line>): (r: Option<int>)
    ensures r.Some? <==> forall i :: 0 <= i < |lines| ==> lines[i].productId.Some? && lines[i].productId.value in c
  {
    if lines == [] then Some(0)
    else if lines[0].productId.None? then None
    else if lines[0].productId.value !in c then None
    else match GuestTotalAsWritten(c, lines[1..])
      case None => None
      case Some(t) => Some(lines[0].quantity * c[lines[0].productId.value].price + t)
  }

  /** When the loop as written completes, it agrees with the corrected total. */
  lemma {:induction false} GuestTotalAsWrittenCompletes(c: Catalog, lines: seq<Line>)
    ensures GuestTotalAsWritten(c, lines).Some? ==>
      GuestTotalAsWritten(c, lines).value == Total(c, ListPriceOnly, lines)
  {
    if lines != [] {
      GuestTotalAsWrittenCompletes(c, lines[1..]);
      assert forall i :: 1 <= i < |lines| ==> lines[i] == lines[1..][i - 1];
    }
  }

  /**
   * When the loop as written completes, the corrected filter drops nothing:
   * the corrected update saves the very cookie the source would.
   */
  lemma {:induction false} GuestTotalAsWrittenKeepsCookie(c: Catalog, lines: seq<Line>)
    ensures GuestTotalAsWritten(c, lines).Some? ==> WithoutNullIds(lines) == lines
  {
    if lines != [] && GuestTotalAsWritten(c, lines).Some? {
      GuestTotalAsWrittenKeepsCookie(c, lines[1..]);
      assert lines == [lines[0]] + lines[1..];
    }
  }

  /** A cookie holding an id-less line makes the loop as written throw; the corrected total drops that line. */
  lemma NullCookieLineAbortsGuestTotal()
    ensures var c := map["p" := Product(100, None, [3])];
      var cookie := [Line(None, 1), Line(Some("p"), 2)];
      GuestTotalAsWritten(c, cookie) == None && Total(c, ListPriceOnly, cookie) == 200
  {
  }

  /** A cookie line for a product that was since deleted makes the loop as written throw; the corrected total skips it. */
  lemma DeletedProductAbortsGuestTotal()
    ensures var c := map["p" := Product(100, None, [3])];
      var cookie := [Line(Some("p"), 2), Line(Some("gone"), 1)];
      GuestTotalAsWritten(c, cookie) == None && Total(c, ListPriceOnly, cookie) == 200
  {
  }
}
