/** The shop's module-level state (`cart`, `userBalance`, `couponApplied`,
    `couponCodeApplied`) and the handlers that update it: add to cart, apply coupon,
    order, add money. Alerts become returned outcomes; `confirm` becomes a parameter. */
module CartEngine {
  import JsText
  import opened CartTotals

  /** Wallet balance at page load, 1000 BDT. */
  const InitialBalance: int := 100000

  /** What the "Add money" button adds, 1000 BDT. */
  const TopUp: int := 100000

  /** The alert the coupon handler raises. */
  datatype CouponOutcome = CouponApplied | EmptyCode | InvalidCoupon

  /** How an order ends: an empty cart, the user declining to continue on a short balance,
      or the order placed with the amount deducted. */
  datatype OrderOutcome = EmptyCart | Declined | Placed(charged: nat)

  /** "lucky10" with each letter in either case. */
  predicate CouponSpelling(s: string) {
    |s| == 7 && forall i :: 0 <= i < 7 ==> s[i] == "lucky10"[i] || s[i] == "LUCKY10"[i]
  }

  /** Position by position, the case-insensitive spellings of the keyword are the ones that
      take each character from "lucky10" or from "LUCKY10". */
  lemma KeywordPositions(s: string)
    requires |s| == 7
    ensures JsText.SpellsIgnoringCase(s, CouponKeyword) <==> CouponSpelling(s)
  {
    var w, u := CouponKeyword, "LUCKY10";
    forall i | 0 <= i < 7
      ensures (s[i] == w[i] || ('a' <= w[i] <= 'z' && s[i] as int == w[i] as int - 32))
              <==> (s[i] == w[i] || s[i] == u[i])
    {
      if i < 5 {
        assert 'a' <= w[i] <= 'z' && u[i] as int == w[i] as int - 32;
      } else {
        assert w[i] == u[i] && (w[i] == '1' || w[i] == '0');
      }
    }
  }

  /** The codes the coupon handler accepts after trimming are exactly the spellings of
      "lucky10" with each letter in either case. */
  lemma CouponSpellings(s: string)
    ensures JsText.ToLower(s) == CouponKeyword <==> CouponSpelling(s)
  {
    var w := CouponKeyword;
    assert JsText.ToLower(w) == w by {
      forall i | 0 <= i < |w| ensures JsText.LowerChar(w[i]) == w[i] {
      }
    }
    JsText.ToLowerMatches(s, w);
    if |s| == 7 {
      KeywordPositions(s);
    }
  }

  class Shop {
    var lines: seq<Line>
    var balance: int
    var couponApplied: bool
    var couponCode: string

    /** Ids are unique and quantities positive (merge-on-add keeps them so); a coupon is
        recorded only together with a code that matches the keyword, and the code is blank
        whenever no coupon is applied. */
    ghost predicate Valid()
      reads this
    {
      UniqueIds(lines) && PositiveQty(lines) &&
      (if couponApplied then JsText.ToLower(couponCode) == CouponKeyword else couponCode == "")
    }

    /** The figures `updateCartDisplay` shows for the current state. */
    function CurrentTotals(): (t: Totals)
      reads this
      ensures Valid() ==> t.discount == (if couponApplied then TenPercent(t.subtotal) else 0)
    {
      ComputeTotals(lines, couponApplied, couponCode)
    }

    /** Page load: an empty cart, no coupon, 1000 BDT in the wallet. */
    constructor ()
      ensures Valid()
      ensures lines == [] && balance == InitialBalance && !couponApplied && couponCode == ""
    {
      lines := [];
      balance := InitialBalance;
      couponApplied := false;
      couponCode := "";
    }

    /** `addToCart`: find the line with the product's id; bump its quantity or append a new
        line; then clear the coupon so that it has to be applied again. */
    method AddToCart(p: Product)
      requires Valid()
      modifies this
      ensures Valid()
      ensures lines == AddLine(old(lines), p)
      ensures !couponApplied && couponCode == ""
      ensures balance == old(balance)
      ensures ItemCount(lines) == ItemCount(old(lines)) + 1
      ensures Ids(lines) == Ids(old(lines)) + {p.id}
      ensures CurrentTotals().discount == 0
    {
      var cart := lines;
      var i := 0;
      while i < |cart| && cart[i].id != p.id
        invariant 0 <= i <= |cart|
        invariant forall j :: 0 <= j < i ==> cart[j].id != p.id
      {
        i := i + 1;
      }
      AddLineKeepsInvariant(cart, p);
      if i < |cart| {
        IndexOfUnique(cart, i);
        cart := cart[i := cart[i].(qty := cart[i].qty + 1)];
      } else {
        assert p.id !in Ids(cart);
        cart := cart + [NewLine(p)];
      }
      assert cart == AddLine(lines, p);
      lines := cart;
      couponApplied := false;
      couponCode := "";
    }

    /** The "Apply" button: trim the input; a blank code is refused; a code whose lowercase
        is the keyword is stored as typed (trimmed) and turns the coupon on; any other code
        is refused. A refusal changes nothing. */
    method ApplyCoupon(input: string) returns (outcome: CouponOutcome)
      requires Valid()
      modifies this
      ensures Valid()
      ensures lines == old(lines) && balance == old(balance)
      ensures JsText.AllWhitespace(input) ==>
                outcome == EmptyCode &&
                couponApplied == old(couponApplied) && couponCode == old(couponCode)
      ensures !JsText.AllWhitespace(input) && JsText.ToLower(JsText.Trim(input)) == CouponKeyword ==>
                outcome == CouponApplied && couponApplied && couponCode == JsText.Trim(input)
      ensures !JsText.AllWhitespace(input) && JsText.ToLower(JsText.Trim(input)) != CouponKeyword ==>
                outcome == InvalidCoupon &&
                couponApplied == old(couponApplied) && couponCode == old(couponCode)
    {
      var code := JsText.Trim(input);
      if code == "" {
        return EmptyCode;
      }
      if JsText.ToLower(code) == CouponKeyword {
        couponApplied := true;
        couponCode := code;
        outcome := CouponApplied;
      } else {
        outcome := InvalidCoupon;
      }
    }

    /** `orderProducts`: an empty cart is refused; on a balance short of the grand total the
        order goes ahead only if the user confirms; placing it deducts the grand total, empties
        the cart and clears the coupon. */
    method OrderProducts(confirmed: bool) returns (outcome: OrderOutcome)
      requires Valid()
      modifies this
      ensures Valid()
      ensures old(lines) == [] ==> outcome == EmptyCart && unchanged(this)
      ensures old(lines) != [] && old(balance) < old(CurrentTotals()).grandTotal && !confirmed ==>
                outcome == Declined && unchanged(this)
      ensures old(lines) != [] && (old(balance) >= old(CurrentTotals()).grandTotal || confirmed) ==>
                outcome == Placed(old(CurrentTotals()).grandTotal) &&
                balance == old(balance) - old(CurrentTotals()).grandTotal &&
                lines == [] && !couponApplied && couponCode == ""
      ensures outcome.Placed? ==> CurrentTotals() == Totals(0, 0, 0, 0, 0, 0)
      ensures old(balance) >= old(CurrentTotals()).grandTotal ==> balance >= 0
    {
      if |lines| == 0 {
        return EmptyCart;
      }
      var subtotal := Subtotal(lines);
      var discount := if couponApplied && JsText.ToLower(couponCode) == CouponKeyword
                      then TenPercent(subtotal) else 0;
      var delivery := if subtotal > 0 then DeliveryCharge else 0;
      var grandTotal := subtotal - discount + delivery;
      assert grandTotal == CurrentTotals().grandTotal;
      if balance < grandTotal && !confirmed {
        return Declined;
      }
      balance := balance - grandTotal;
      lines := [];
      couponApplied := false;
      couponCode := "";
      outcome := Placed(grandTotal);
    }

    /** The "Add money" button: the balance grows by 1000 BDT and nothing else changes. */
    method AddMoney()
      requires Valid()
      modifies this
      ensures Valid()
      ensures balance == old(balance) + TopUp
      ensures lines == old(lines) && couponApplied == old(couponApplied)
      ensures couponCode == old(couponCode)
    {
      balance := balance + TopUp;
    }
  }

  /** The upper-case spelling lowercases to the keyword. */
  lemma UpperKeywordLowercases()
    ensures JsText.ToLower("LUCKY10") == CouponKeyword
  {
    CouponSpellings("LUCKY10");
  }

  /** "LUCKY10" as typed is not blank, has nothing to trim and lowercases to the keyword. */
  lemma TypedKeywordAccepted()
    ensures !JsText.AllWhitespace("LUCKY10")
    ensures JsText.Trim("LUCKY10") == "LUCKY10"
    ensures JsText.ToLower("LUCKY10") == CouponKeyword
  {
    var code := "LUCKY10";
    assert code[0] == 'L' && code[|code| - 1] == '0';
    assert JsText.SkipLeading(code, 0) == 0 && JsText.SkipTrailing(code, 0, |code|) == |code|;
    UpperKeywordLowercases();
  }

  /** A session on the shop: two clicks on a 250 BDT product, then the coupon typed as
      "LUCKY10"; the order follows in `SessionCheckout`. */
  method ShopSession(p: Product)
    requires p.price == 25000
  {
    var shop := new Shop();
    shop.AddToCart(p);
    shop.AddToCart(p);
    AddExisting([NewLine(p)], p, 0);
    var two := NewLine(p).(qty := 2);
    assert shop.lines == [two];
    assert Subtotal([two]) == 50000 by {
      assert [two][..0] == [];
      assert Amount(25000, 1) == 25000;
    }
    assert shop.CurrentTotals() == Totals(2, 50000, 10000, 0, 50000, 60000);

    var code := "LUCKY10";
    TypedKeywordAccepted();
    SessionCoupon(shop, two, code);
  }

  /** A code with no surrounding blanks that lowercases to the keyword is accepted on a cart
      of 2 x 250 BDT. */
  method SessionCoupon(shop: Shop, two: Line, code: string)
    requires shop.Valid() && shop.lines == [two] && two.qty == 2 && two.price == 25000
    requires shop.balance == InitialBalance
    requires !JsText.AllWhitespace(code) && JsText.Trim(code) == code
    requires JsText.ToLower(code) == CouponKeyword
    modifies shop
  {
    var c := shop.ApplyCoupon(code);
    assert c == CouponApplied;
    SessionCheckout(shop, two);
  }

  /** With 1000 BDT in the wallet and 2 x 250 BDT in the cart under the coupon, the order
      goes through without confirmation: 550 BDT is charged and 450 BDT is left. */
  method SessionCheckout(shop: Shop, two: Line)
    requires shop.Valid() && shop.lines == [two] && two.qty == 2 && two.price == 25000
    requires shop.couponApplied && shop.balance == InitialBalance
    modifies shop
  {
    assert shop.CurrentTotals().subtotal == 50000 by {
      assert [two][..0] == [];
      assert Amount(25000, 1) == 25000;
    }
    assert shop.CurrentTotals().discount == 5000;
    assert shop.CurrentTotals().grandTotal == 55000;
    var o := shop.OrderProducts(false);
    assert o == Placed(55000) && shop.balance == 45000 && shop.lines == [];
  }
}
