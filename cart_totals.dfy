/** The pure part of the cart engine: cart lines, the merge-on-add rule that `addToCart`
    applies, and the totals that `updateCartDisplay` and `orderProducts` compute.
    Money is counted in whole poisha, hundredths of a taka (BDT), so every sum is exact. */
module CartTotals {
  import JsText

  datatype Option<T> = None | Some(value: T)

  type ProductId = int

  /** The fixed delivery charge, 100 BDT. */
  const DeliveryCharge: nat := 10000

  /** The one coupon the shop recognises, compared after lowercasing. */
  const CouponKeyword: string := "lucky10"

  /** What an "Add to Cart" button hands over: id, title, price (in poisha) and image. */
  datatype Product = Product(id: ProductId, title: string, price: nat, image: string)

  /** A cart line: the product's fields spread out, plus a quantity. */
  datatype Line = Line(id: ProductId, title: string, price: nat, image: string, qty: nat)

  /** The derived figures shown in the cart panel; all are in poisha except the item count. */
  datatype Totals = Totals(itemCount: nat, subtotal: nat, deliveryCharge: nat, discount: nat,
                           discountedSubtotal: nat, grandTotal: nat)

  function NewLine(p: Product): Line {
    Line(p.id, p.title, p.price, p.image, 1)
  }

  ghost predicate UniqueIds(lines: seq<Line>) {
    forall i, j :: 0 <= i < j < |lines| ==> lines[i].id != lines[j].id
  }

  ghost predicate PositiveQty(lines: seq<Line>) {
    forall i :: 0 <= i < |lines| ==> lines[i].qty >= 1
  }

  function Ids(lines: seq<Line>): set<ProductId> {
    set l | l in lines :: l.id
  }

  /** Sum of the quantities, folded from the left as `reduce` does. */
  function ItemCount(lines: seq<Line>): nat {
    if lines == [] then 0 else ItemCount(lines[..|lines| - 1]) + lines[|lines| - 1].qty
  }

  /** `price * qty`, written as repeated addition so that the sums below stay linear. */
  function Amount(price: nat, qty: nat): nat
    decreases qty
  {
    if qty == 0 then 0 else Amount(price, qty - 1) + price
  }

  /** The line amount is the product of unit price and quantity. */
  lemma {:induction false} AmountIsProduct(price: nat, qty: nat)
    ensures Amount(price, qty) == price * qty
    decreases qty
  {
    if qty > 0 {
      AmountIsProduct(price, qty - 1);
      assert price * qty == price * (qty - 1) + price;
    }
  }

  /** Sum of price times quantity, folded from the left as `reduce` does. */
  function Subtotal(lines: seq<Line>): nat {
    if lines == [] then 0
    else Subtotal(lines[..|lines| - 1]) + Amount(lines[|lines| - 1].price, lines[|lines| - 1].qty)
  }

  /** `+(subtotal * 0.10).toFixed(2)` on a non-negative amount: ten percent, rounded half up
      to the nearest poisha. */
  function TenPercent(subtotal: nat): (d: nat)
    ensures d <= subtotal
    ensures 10 * d - 5 <= subtotal < 10 * d + 5
  {
    (subtotal + 5) / 10
  }

  /** The discount: ten percent only when the coupon flag is set and the stored code
      lowercases to the keyword. */
  function Discount(applied: bool, code: string, subtotal: nat): (d: nat)
    ensures d <= subtotal
    ensures applied && JsText.ToLower(code) == CouponKeyword ==> 10 * d - 5 <= subtotal < 10 * d + 5
    ensures !(applied && JsText.ToLower(code) == CouponKeyword) ==> d == 0
  {
    if applied && JsText.ToLower(code) == CouponKeyword then TenPercent(subtotal) else 0
  }

  /** The figures of the cart panel for the given lines and coupon state. */
  function ComputeTotals(lines: seq<Line>, applied: bool, code: string): (t: Totals)
    ensures t.itemCount == ItemCount(lines) && t.subtotal == Subtotal(lines)
    ensures t.deliveryCharge == (if t.subtotal > 0 then DeliveryCharge else 0)
    ensures t.discount == Discount(applied, code, t.subtotal) && t.discount <= t.subtotal
    ensures t.discountedSubtotal + t.discount == t.subtotal
    ensures t.grandTotal == t.discountedSubtotal + t.deliveryCharge
  {
    var subtotal := Subtotal(lines);
    var delivery := if subtotal > 0 then DeliveryCharge else 0;
    var discount := Discount(applied, code, subtotal);
    Totals(ItemCount(lines), subtotal, delivery, discount, subtotal - discount,
           subtotal - discount + delivery)
  }

  /** `cart.find(p => p.id === id)`, as the position of the first line with that id. */
  function IndexOf(lines: seq<Line>, id: ProductId): (r: Option<nat>)
    ensures r.Some? ==> r.value < |lines| && lines[r.value].id == id
    ensures r.Some? ==> forall j :: 0 <= j < r.value ==> lines[j].id != id
    ensures r.None? <==> id !in Ids(lines)
  {
    if lines == [] then None
    else if lines[0].id == id then Some(0)
    else
      match IndexOf(lines[1..], id)
      case None =>
        assert Ids(lines) == {lines[0].id} + Ids(lines[1..]);
        None
      case Some(k) =>
        assert Ids(lines) == {lines[0].id} + Ids(lines[1..]);
        Some(k + 1)
  }

  /** The new cart after `addToCart(p)`: the line with `p`'s id gets one more unit, or a line
      for `p` with quantity 1 is appended. */
  function AddLine(lines: seq<Line>, p: Product): (r: seq<Line>)
    ensures p.id !in Ids(lines) ==> r == lines + [NewLine(p)]
    ensures forall k :: 0 <= k < |lines| && lines[k].id == p.id &&
                        (forall j :: 0 <= j < k ==> lines[j].id != p.id) ==>
                          r == lines[k := lines[k].(qty := lines[k].qty + 1)]
    ensures |r| == |lines| + (if p.id in Ids(lines) then 0 else 1)
  {
    match IndexOf(lines, p.id)
    case Some(k) => lines[k := lines[k].(qty := lines[k].qty + 1)]
    case None => lines + [NewLine(p)]
  }

  /** The cart after clicking "Add to Cart" on each product of `ps` in turn. */
  function AddAll(lines: seq<Line>, ps: seq<Product>): (r: seq<Line>)
    ensures |lines| <= |r| <= |lines| + |ps|
    decreases |ps|
  {
    if ps == [] then lines else AddAll(AddLine(lines, ps[0]), ps[1..])
  }

  function ProductIds(ps: seq<Product>): set<ProductId> {
    set p | p in ps :: p.id
  }

  // ---------------------------------------------------------------------------------------
  // Sums under a one-line change

  /** Replacing one line changes the item count and the subtotal by the difference of that
      line's quantity and amount. */
  lemma {:induction false} SumsUpdate(lines: seq<Line>, k: nat, l: Line)
    requires k < |lines|
    ensures ItemCount(lines[k := l]) + lines[k].qty == ItemCount(lines) + l.qty
    ensures Subtotal(lines[k := l]) + Amount(lines[k].price, lines[k].qty)
            == Subtotal(lines) + Amount(l.price, l.qty)
  {
    var n := |lines|;
    var u := lines[k := l];
    if k < n - 1 {
      assert u[..n - 1] == lines[..n - 1][k := l];
      SumsUpdate(lines[..n - 1], k, l);
    } else {
      assert u[..n - 1] == lines[..n - 1];
    }
  }

  /** The item count is zero exactly when every quantity is, it is at least each line's
      quantity, and with positive quantities it is at least the number of lines. */
  lemma {:induction false} ItemCountBounds(lines: seq<Line>)
    ensures ItemCount(lines) == 0 <==> forall i :: 0 <= i < |lines| ==> lines[i].qty == 0
    ensures forall i :: 0 <= i < |lines| ==> lines[i].qty <= ItemCount(lines)
    ensures PositiveQty(lines) ==> |lines| <= ItemCount(lines)
  {
    if lines != [] {
      var init := lines[..|lines| - 1];
      ItemCountBounds(init);
      assert forall i :: 0 <= i < |init| ==> init[i] == lines[i];
    }
  }

  /** The subtotal is zero exactly when every line is free or empty, and it is at least each
      line's price times quantity. */
  lemma {:induction false} SubtotalBounds(lines: seq<Line>)
    ensures Subtotal(lines) == 0 <==>
              forall i :: 0 <= i < |lines| ==> lines[i].price == 0 || lines[i].qty == 0
    ensures forall i :: 0 <= i < |lines| ==> lines[i].price * lines[i].qty <= Subtotal(lines)
  {
    if lines != [] {
      var init, last := lines[..|lines| - 1], lines[|lines| - 1];
      SubtotalBounds(init);
      assert forall i :: 0 <= i < |init| ==> init[i] == lines[i];
      AmountIsProduct(last.price, last.qty);
      assert last.price * last.qty == 0 <==> last.price == 0 || last.qty == 0;
    }
  }

  /** Appending a line adds its quantity and its amount. */
  lemma SumsAppend(lines: seq<Line>, l: Line)
    ensures ItemCount(lines + [l]) == ItemCount(lines) + l.qty
    ensures Subtotal(lines + [l]) == Subtotal(lines) + Amount(l.price, l.qty)
  {
    assert (lines + [l])[..|lines|] == lines;
  }

  /** With distinct ids, there are as many lines as distinct ids. */
  lemma {:induction false} UniqueIdsCount(lines: seq<Line>)
    requires UniqueIds(lines)
    ensures |Ids(lines)| == |lines|
  {
    if lines != [] {
      var n := |lines|;
      var front := lines[..n - 1];
      assert Ids(lines) == Ids(front) + {lines[n - 1].id} by {
        assert lines == front + [lines[n - 1]];
      }
      assert lines[n - 1].id !in Ids(front);
      UniqueIdsCount(front);
    }
  }

  // ---------------------------------------------------------------------------------------
  // addToCart

  /** With distinct ids, `find` locates each line at its own position. */
  lemma IndexOfUnique(lines: seq<Line>, k: nat)
    requires UniqueIds(lines) && k < |lines|
    ensures IndexOf(lines, lines[k].id) == Some(k)
  {
    assert lines[k] in lines;
  }

  /** Adding a product whose id is already in the cart: that line's quantity rises by one and
      nothing else changes; the subtotal grows by that line's unit price. */
  lemma AddExisting(lines: seq<Line>, p: Product, k: nat)
    requires UniqueIds(lines)
    requires k < |lines| && lines[k].id == p.id
    ensures |AddLine(lines, p)| == |lines|
    ensures AddLine(lines, p)[k] == lines[k].(qty := lines[k].qty + 1)
    ensures forall j :: 0 <= j < |lines| && j != k ==> AddLine(lines, p)[j] == lines[j]
    ensures ItemCount(AddLine(lines, p)) == ItemCount(lines) + 1
    ensures Subtotal(AddLine(lines, p)) == Subtotal(lines) + lines[k].price
  {
    var bumped := lines[k].(qty := lines[k].qty + 1);
    IndexOfUnique(lines, k);
    var r := AddLine(lines, p);
    assert r == lines[k := bumped];
    SumsUpdate(lines, k, bumped);
    assert ItemCount(r) == ItemCount(lines) + 1;
    assert Subtotal(r) == Subtotal(lines) + lines[k].price;
  }

  /** Adding a product whose id is not in the cart appends a line with quantity 1. */
  lemma AddFresh(lines: seq<Line>, p: Product)
    requires p.id !in Ids(lines)
    ensures AddLine(lines, p) == lines + [Line(p.id, p.title, p.price, p.image, 1)]
    ensures ItemCount(AddLine(lines, p)) == ItemCount(lines) + 1
    ensures Subtotal(AddLine(lines, p)) == Subtotal(lines) + p.price
  {
    SumsAppend(lines, NewLine(p));
  }

  /** Replacing a line by one with the same id keeps the set of ids. */
  lemma IdsUpdate(lines: seq<Line>, k: nat, l: Line)
    requires k < |lines| && l.id == lines[k].id
    ensures Ids(lines[k := l]) == Ids(lines)
  {
    var r := lines[k := l];
    forall x | x in Ids(r) ensures x in Ids(lines) {
      var j :| 0 <= j < |r| && r[j].id == x;
      assert lines[j] in lines;
    }
    forall x | x in Ids(lines) ensures x in Ids(r) {
      var j :| 0 <= j < |lines| && lines[j].id == x;
      assert r[j] in r;
    }
  }

  /** Either way, ids stay unique, quantities stay positive, the item count grows by exactly
      one and the set of ids gains `p`'s id. */
  lemma AddLineKeepsInvariant(lines: seq<Line>, p: Product)
    requires UniqueIds(lines) && PositiveQty(lines)
    ensures UniqueIds(AddLine(lines, p)) && PositiveQty(AddLine(lines, p))
    ensures ItemCount(AddLine(lines, p)) == ItemCount(lines) + 1
    ensures Ids(AddLine(lines, p)) == Ids(lines) + {p.id}
  {
    match IndexOf(lines, p.id)
    case Some(k) =>
      AddExisting(lines, p, k);
      IdsUpdate(lines, k, lines[k].(qty := lines[k].qty + 1));
    case None =>
      AddFresh(lines, p);
      assert Ids(lines + [NewLine(p)]) == Ids(lines) + {p.id};
  }

  /** A run of "Add to Cart" clicks keeps ids unique and quantities positive, and the item
      count grows by the number of clicks. */
  lemma {:induction false} AddAllCounts(lines: seq<Line>, ps: seq<Product>)
    requires UniqueIds(lines) && PositiveQty(lines)
    ensures UniqueIds(AddAll(lines, ps)) && PositiveQty(AddAll(lines, ps))
    ensures ItemCount(AddAll(lines, ps)) == ItemCount(lines) + |ps|
    decreases |ps|
  {
    if ps != [] {
      AddLineKeepsInvariant(lines, ps[0]);
      AddAllCounts(AddLine(lines, ps[0]), ps[1..]);
    }
  }

  /** The ids of a non-empty run of products: the first one's and those of the rest. */
  lemma ProductIdsCons(ps: seq<Product>)
    requires ps != []
    ensures ProductIds(ps) == {ps[0].id} + ProductIds(ps[1..])
  {
    assert ps == [ps[0]] + ps[1..];
  }

  /** After a run of clicks the cart holds exactly the ids it held and the ids clicked. */
  lemma {:induction false} AddAllIds(lines: seq<Line>, ps: seq<Product>)
    requires UniqueIds(lines) && PositiveQty(lines)
    ensures Ids(AddAll(lines, ps)) == Ids(lines) + ProductIds(ps)
    decreases |ps|
  {
    if ps == [] {
      assert ProductIds(ps) == {};
    } else {
      var next, rest := AddLine(lines, ps[0]), ps[1..];
      AddLineKeepsInvariant(lines, ps[0]);
      AddAllIds(next, rest);
      ProductIdsCons(ps);
    }
  }

  /** From an empty cart: as many items as clicks, as many lines as distinct product ids. */
  lemma AddAllFromEmpty(ps: seq<Product>)
    ensures ItemCount(AddAll([], ps)) == |ps|
    ensures |AddAll([], ps)| == |ProductIds(ps)|
  {
    AddAllCounts([], ps);
    AddAllIds([], ps);
    UniqueIdsCount(AddAll([], ps));
    assert Ids([]) == {};
  }

  // ---------------------------------------------------------------------------------------
  // Totals

  /** An empty cart shows zero everywhere. */
  lemma EmptyCartTotals(applied: bool, code: string)
    ensures ComputeTotals([], applied, code) == Totals(0, 0, 0, 0, 0, 0)
  {
  }

  /** The delivery charge is due exactly when the subtotal is positive; the grand total is
      zero exactly when the subtotal is, and otherwise at least the delivery charge plus
      nine tenths of the subtotal (less half a poisha of rounding). */
  lemma GrandTotalBounds(lines: seq<Line>, applied: bool, code: string)
    ensures var t := ComputeTotals(lines, applied, code);
      (t.deliveryCharge == DeliveryCharge <==> t.subtotal > 0) &&
      (t.grandTotal == 0 <==> t.subtotal == 0) &&
      10 * t.grandTotal + 5 >= 9 * t.subtotal + 10 * t.deliveryCharge &&
      t.grandTotal <= t.subtotal + t.deliveryCharge
  {
  }

  /** After any change that clears the coupon state, the discount is zero. */
  lemma ClearedCouponNoDiscount(lines: seq<Line>)
    ensures ComputeTotals(lines, false, "").discount == 0
    ensures ComputeTotals(lines, false, "").grandTotal
            == Subtotal(lines) + (if Subtotal(lines) > 0 then DeliveryCharge else 0)
  {
  }
}
