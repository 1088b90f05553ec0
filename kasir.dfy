/** The cashier page (`kasir`): a cart whose quantities are capped by the stock
    snapshot of each line, the subtotal under the standard or the reseller price,
    a discount in rupiah or percent, the grand total floored at zero, the change,
    and the checkout that records the sale and sets each product's stock. */
module Kasir {
  import opened Seqs
  import opened Catalog
  import opened Store

  /** `discountType`: 'rp' (a fixed amount) or '%' (a percentage of the subtotal). */
  datatype DiscountType = Rp | Percent

  /** What a quantity change did: applied it, ignored it (a quantity below 1), or
      refused it with the "Stok tidak mencukupi!" alert. */
  datatype QtyOutcome = Applied | Ignored | OutOfStock

  /** The two alerts that stop a checkout before anything is written. */
  datatype CheckoutError = EmptyCart | InsufficientCash

  /** `lastTrx`, the receipt shown after a checkout. */
  datatype Receipt = Receipt(
    saleId: nat,
    items: seq<CartLine>,
    total: real,
    subtotal: int,
    discount: real,
    paymentMethod: PaymentMethod,
    cash: real,
    change: real,
    isReseller: bool)

  /** The cashier cart's invariant: one line per product, each with
      1 <= qty <= the stock recorded on that line. */
  predicate CartOk(cart: seq<CartLine>)
  {
    DistinctIds(cart) && forall i :: 0 <= i < |cart| ==> 1 <= cart[i].qty <= cart[i].item.stock
  }

  /** `updateQty(id, newQty)`: a quantity below 1 is ignored, one above the line's
      stock is refused, any other replaces the quantity of the product's line. */
  function CartAfterUpdate(cart: seq<CartLine>, id: ProductId, newQty: int): (r: seq<CartLine>)
    ensures |r| == |cart|
    ensures forall i :: 0 <= i < |r| ==> r[i].item == cart[i].item
  {
    if newQty < 1 then cart
    else
      match Find(cart, id)
      case Some(line) => if newQty > line.item.stock then cart else SetQty(cart, id, newQty)
      case None => SetQty(cart, id, newQty)
  }

  /** `addToCart(product)`: one more of a product already in the cart, unless that
      exceeds the product's stock; otherwise a new line with qty 1. */
  function CartAfterAdd(cart: seq<CartLine>, p: Product): (r: seq<CartLine>)
    ensures HasLine(cart, p.id) ==> |r| == |cart|
    ensures !HasLine(cart, p.id) ==> r == cart + [CartLine(p, 1)]
  {
    match Find(cart, p.id)
    case Some(line) => if line.qty + 1 > p.stock then cart else CartAfterUpdate(cart, p.id, line.qty + 1)
    case None => cart + [CartLine(p, 1)]
  }

  /** Changing a quantity touches only the lines of that product, never removes a
      line, and applies exactly when 1 <= newQty <= the line's stock. */
  lemma UpdateQtyEffect(cart: seq<CartLine>, id: ProductId, newQty: int)
    requires DistinctIds(cart)
    ensures var r := CartAfterUpdate(cart, id, newQty);
      && |r| == |cart|
      && forall i :: 0 <= i < |cart| ==>
           && r[i].item == cart[i].item
           && (cart[i].item.id != id ==> r[i] == cart[i])
           && (cart[i].item.id == id ==>
                 r[i].qty == if 1 <= newQty <= cart[i].item.stock then newQty else cart[i].qty)
  {
    forall i | 0 <= i < |cart| && cart[i].item.id == id {
      FindDistinct(cart, i);
    }
  }

  /** Adding a product that is not in the cart appends exactly one line with qty 1. */
  lemma AddNewProduct(cart: seq<CartLine>, p: Product)
    requires !HasLine(cart, p.id)
    ensures CartAfterAdd(cart, p) == cart + [CartLine(p, 1)]
    ensures |CartAfterAdd(cart, p)| == |cart| + 1
  {
  }

  /** Adding a product already in the cart (with a quantity that is not negative)
      raises its line by one when both the product's stock and the line's stock allow
      it, and otherwise changes nothing; every other line stays as it was. */
  lemma AddExistingProduct(cart: seq<CartLine>, p: Product, k: nat)
    requires DistinctIds(cart)
    requires k < |cart| && cart[k].item.id == p.id
    ensures var r := CartAfterAdd(cart, p);
      && |r| == |cart|
      && r[k] == (if 0 <= cart[k].qty && cart[k].qty + 1 <= p.stock && cart[k].qty + 1 <= cart[k].item.stock
                  then cart[k].(qty := cart[k].qty + 1) else cart[k])
      && forall i :: 0 <= i < |cart| && i != k ==> r[i] == cart[i]
  {
    FindDistinct(cart, k);
    if cart[k].qty + 1 <= p.stock {
      var r := CartAfterUpdate(cart, p.id, cart[k].qty + 1);
      UpdateQtyEffect(cart, p.id, cart[k].qty + 1);
      assert CartAfterAdd(cart, p) == r;
      assert r[k] == CartLine(cart[k].item, r[k].qty);
    }
  }

  /** An update that is applied to a line and changes its quantity changes the cart. */
  lemma UpdateChangesCart(cart: seq<CartLine>, id: ProductId, newQty: int)
    requires DistinctIds(cart)
    requires Find(cart, id).Some?
    requires 1 <= newQty <= Find(cart, id).value.item.stock
    requires newQty != Find(cart, id).value.qty
    ensures CartAfterUpdate(cart, id, newQty) != cart
  {
    var line := Find(cart, id).value;
    var k :| 0 <= k < |cart| && cart[k] == line;
    FindDistinct(cart, k);
    UpdateQtyEffect(cart, id, newQty);
    assert CartAfterUpdate(cart, id, newQty)[k] != cart[k];
  }

  /** `updateQty` keeps the cart invariant. */
  lemma UpdateKeepsCartOk(cart: seq<CartLine>, id: ProductId, newQty: int)
    requires CartOk(cart)
    ensures CartOk(CartAfterUpdate(cart, id, newQty))
  {
    UpdateQtyEffect(cart, id, newQty);
  }

  /** `addToCart` keeps the cart invariant for a product already in the cart, and for
      a new product as long as it has stock (the page only lists products whose
      stock is above zero). */
  lemma AddKeepsCartOk(cart: seq<CartLine>, p: Product)
    requires CartOk(cart)
    requires HasLine(cart, p.id) || p.stock >= 1
    ensures CartOk(CartAfterAdd(cart, p))
  {
    if HasLine(cart, p.id) {
      var k :| 0 <= k < |cart| && cart[k].item.id == p.id;
      FindDistinct(cart, k);
      UpdateKeepsCartOk(cart, p.id, cart[k].qty + 1);
    }
  }

  /** Deleting a line keeps the cart invariant and leaves no line of that product. */
  lemma {:induction false} RemoveKeepsCartOk(cart: seq<CartLine>, id: ProductId)
    requires CartOk(cart)
    ensures CartOk(RemoveLine(cart, id))
    ensures !HasLine(RemoveLine(cart, id), id)
  {
    var r := RemoveLine(cart, id);
    if cart != [] {
      var n := |cart| - 1;
      var pre := cart[..n];
      assert cart == pre + [cart[n]];
      assert CartOk(pre);
      RemoveKeepsCartOk(pre, id);
      var rp := RemoveLine(pre, id);
      FilterAppend(pre, [cart[n]], (l: CartLine) => l.item.id != id);
      forall i | 0 <= i < |rp| ensures rp[i].item.id != cart[n].item.id {
        assert rp[i] in pre;
      }
    }
    forall i | 0 <= i < |r| ensures r[i].item.id != id && 1 <= r[i].qty <= r[i].item.stock {
      assert r[i] in cart;
    }
  }

  /** Deleting the line of a product that was just added as new gives back the cart
      as it was before the add. */
  lemma RemoveUndoesAdd(cart: seq<CartLine>, p: Product)
    requires !HasLine(cart, p.id)
    ensures RemoveLine(CartAfterAdd(cart, p), p.id) == cart
  {
    var keep := (l: CartLine) => l.item.id != p.id;
    FilterAppend(cart, [CartLine(p, 1)], keep);
    assert Filter([CartLine(p, 1)], keep) == [];
  }

  /** The price a line is sold at: `reseller_price` in reseller mode, `price`
      otherwise, an unset price counting as zero. */
  function UnitPrice(p: Product, isReseller: bool): int
  {
    if isReseller then OrZero(p.resellerPrice) else OrZero(p.price)
  }

  function LineSubtotal(line: CartLine, isReseller: bool): int
  {
    UnitPrice(line.item, isReseller) * line.qty
  }

  /** `calculateSubtotal()`: the sum of unit price times quantity over the cart. */
  function Subtotal(cart: seq<CartLine>, isReseller: bool): int
  {
    Sum(cart, (l: CartLine) => LineSubtotal(l, isReseller))
  }

  /** The subtotal of a cart is additive over its lines. */
  lemma SubtotalAppend(a: seq<CartLine>, b: seq<CartLine>, isReseller: bool)
    ensures Subtotal(a + b, isReseller) == Subtotal(a, isReseller) + Subtotal(b, isReseller)
  {
    SumAppend(a, b, (l: CartLine) => LineSubtotal(l, isReseller));
  }

  /** With non-negative prices and quantities the subtotal is non-negative. */
  lemma SubtotalNonNegative(cart: seq<CartLine>, isReseller: bool)
    requires forall i :: 0 <= i < |cart| ==> cart[i].qty >= 0 && UnitPrice(cart[i].item, isReseller) >= 0
    ensures Subtotal(cart, isReseller) >= 0
  {
    SumNonNegative(cart, (l: CartLine) => LineSubtotal(l, isReseller));
  }

  /** `discountAmount`: `subtotal * value / 100` for '%', `value` for 'rp'. The value
      is whatever number the cashier typed, fractions included. */
  function DiscountAmount(subtotal: int, discountType: DiscountType, value: real): real
  {
    if discountType == Percent then subtotal as real * value / 100.0 else value
  }

  /** `grandTotal = Math.max(0, subtotal - discountAmount)`. */
  function GrandTotal(subtotal: int, discount: real): (total: real)
    ensures total >= 0.0
    ensures total >= subtotal as real - discount
    ensures total == 0.0 || total == subtotal as real - discount
  {
    if subtotal as real - discount > 0.0 then subtotal as real - discount else 0.0
  }

  /** A zero discount, of either kind, leaves the grand total equal to the subtotal;
      any discount between zero and the subtotal is subtracted in full. */
  lemma GrandTotalDiscount(subtotal: int, discountType: DiscountType, value: real)
    requires subtotal >= 0
    ensures value == 0.0 ==> GrandTotal(subtotal, DiscountAmount(subtotal, discountType, value)) == subtotal as real
    ensures 0.0 <= value <= (if discountType == Percent then 100.0 else subtotal as real) ==>
      GrandTotal(subtotal, DiscountAmount(subtotal, discountType, value))
        == subtotal as real - DiscountAmount(subtotal, discountType, value)
  {
    var d := DiscountAmount(subtotal, discountType, value);
    if discountType == Percent {
      if 0.0 <= value <= 100.0 {
        PercentAtMostWhole(subtotal, value);
      }
    } else {
      assert d == value;
    }
  }

  /** A percentage between 0 and 100 of a subtotal is between 0 and the subtotal. */
  lemma PercentAtMostWhole(subtotal: int, value: real)
    requires subtotal >= 0 && 0.0 <= value <= 100.0
    ensures 0.0 <= subtotal as real * value <= subtotal as real * 100.0
    ensures 0.0 <= DiscountAmount(subtotal, Percent, value) <= subtotal as real
    ensures value == 0.0 ==> DiscountAmount(subtotal, Percent, value) == 0.0
  {
    var s := subtotal as real;
    assert s * 100.0 - s * value == s * (100.0 - value);
    assert s * value / 100.0 <= s * 100.0 / 100.0 == s;
  }

  /** `changeAmount`: what is handed back when cash was entered, else 0. */
  function ChangeAmount(cash: real, total: real): real
  {
    if cash > 0.0 then cash - total else 0.0
  }

  /** `cash_received: cashAmount || grandTotal`. */
  function CashReceived(cash: real, total: real): real
  {
    if cash != 0.0 then cash else total
  }

  /** The checks at the top of `handleCheckout`, in their order. */
  function Rejection(cart: seq<CartLine>, payment: PaymentMethod, cash: real, total: real): (r: Option<CheckoutError>)
    ensures r.None? <==> cart != [] && (payment == Cash ==> cash >= total)
  {
    if cart == [] then Some(EmptyCart)
    else if payment == Cash && cash < total then Some(InsufficientCash)
    else None
  }

  /** An accepted cash checkout records the cash that was entered and hands back a
      non-negative change of exactly cash minus grand total. */
  lemma AcceptedCashCheckout(cart: seq<CartLine>, cash: real, total: real)
    requires total >= 0.0
    requires Rejection(cart, Cash, cash, total) == None
    ensures cart != []
    ensures ChangeAmount(cash, total) == cash - total >= 0.0
    ensures CashReceived(cash, total) == cash
  {
  }

  /** The `transaction_items` row recorded for a cart line. */
  function SaleLineOf(saleId: nat, line: CartLine, isReseller: bool): SaleLine
  {
    SaleLine(saleId, line.item.id, line.qty, LineSubtotal(line, isReseller), if isReseller then Reseller else Umum)
  }

  function SaleLinesOf(saleId: nat, cart: seq<CartLine>, isReseller: bool): (lines: seq<SaleLine>)
    ensures |lines| == |cart|
  {
    seq(|cart|, i requires 0 <= i < |cart| => SaleLineOf(saleId, cart[i], isReseller))
  }

  /** The recorded sale lines add up to the cart's subtotal. */
  lemma {:induction false} SaleLinesAddUp(saleId: nat, cart: seq<CartLine>, isReseller: bool)
    ensures Sum(SaleLinesOf(saleId, cart, isReseller), (s: SaleLine) => s.subtotal) == Subtotal(cart, isReseller)
  {
    if cart != [] {
      var n := |cart| - 1;
      assert SaleLinesOf(saleId, cart, isReseller)[..n] == SaleLinesOf(saleId, cart[..n], isReseller);
      SaleLinesAddUp(saleId, cart[..n], isReseller);
    }
  }

  /** After a checkout of a valid cart, each product on a line holds its snapshot
      stock minus the quantity sold, which is never negative; other products keep
      their stock. */
  lemma CheckoutStock(stock: map<ProductId, int>, cart: seq<CartLine>)
    requires CartOk(cart)
    ensures var after := StockWrites(stock, cart);
      && after.Keys == stock.Keys
      && (forall k :: 0 <= k < |cart| && cart[k].item.id in stock ==>
            after[cart[k].item.id] == cart[k].item.stock - cart[k].qty >= 0)
      && (forall id :: id in stock && !HasLine(cart, id) ==> after[id] == stock[id])
  {
    forall k | 0 <= k < |cart| && cart[k].item.id in stock {
      StockWritesAt(stock, cart, k);
    }
    forall id | id in stock && !HasLine(cart, id) {
      StockWritesElsewhere(stock, cart, id);
    }
  }

  /** One line at 55000 with qty 2 and a 10% discount: subtotal 110000, discount
      11000, grand total 99000; paying 100000 in cash gives 1000 change. */
  lemma CheckoutScenario()
    ensures var p := Product("agl", None, "Aglonema", None, Some(55000), Some(50000), 10);
      var cart := [CartLine(p, 2)];
      var sub := Subtotal(cart, false);
      var disc := DiscountAmount(sub, Percent, 10.0);
      && sub == 110000
      && disc == 11000.0
      && GrandTotal(sub, disc) == 99000.0
      && ChangeAmount(100000.0, GrandTotal(sub, disc)) == 1000.0
  {
    var p := Product("agl", None, "Aglonema", None, Some(55000), Some(50000), 10);
    assert [CartLine(p, 2)][..0] == [];
  }

  /** One more cart line records one more sale line, after the earlier ones. */
  lemma SaleLinesStep(saleId: nat, cart: seq<CartLine>, isReseller: bool, i: nat)
    requires i < |cart|
    ensures SaleLinesOf(saleId, cart[..i + 1], isReseller)
      == SaleLinesOf(saleId, cart[..i], isReseller) + [SaleLineOf(saleId, cart[i], isReseller)]
  {
    assert cart[..i + 1][..i] == cart[..i];
  }

  /** The loop of `handleCheckout`: for each cart line, in order, insert its sale
      line, then set the product's stock to the line's snapshot stock minus its qty. */
  method RecordSaleLines(db: Database, saleId: nat, cart: seq<CartLine>, isReseller: bool)
    modifies db`saleLines, db`stock
    ensures db.saleLines == old(db.saleLines) + SaleLinesOf(saleId, cart, isReseller)
    ensures db.stock == StockWrites(old(db.stock), cart)
  {
    ghost var lines0 := db.saleLines;
    ghost var stock0 := db.stock;
    var i := 0;
    assert lines0 + [] == lines0;
    while i < |cart|
      invariant 0 <= i <= |cart|
      invariant db.saleLines == lines0 + SaleLinesOf(saleId, cart[..i], isReseller)
      invariant db.stock == StockWrites(stock0, cart[..i])
    {
      var line := cart[i];
      ghost var done := SaleLinesOf(saleId, cart[..i], isReseller);
      var saleLine := SaleLineOf(saleId, line, isReseller);
      db.InsertSaleLine(saleLine);
      ghost var recorded := db.saleLines;
      StockWritesStep(stock0, cart, i);
      db.SetStock(line.item.id, line.item.stock - line.qty);
      SaleLinesStep(saleId, cart, isReseller, i);
      assert db.saleLines == recorded == lines0 + done + [saleLine];
      assert lines0 + done + [saleLine] == lines0 + (done + [saleLine]);
      i := i + 1;
    }
    assert cart[..i] == cart;
  }

  /** The cashier page's state. */
  class KasirPage {
    const db: Database
    var cart: seq<CartLine>
    var isReseller: bool
    var discountType: DiscountType
    var discountValue: real
    var paymentMethod: PaymentMethod
    var cashAmount: real

    ghost predicate Valid()
      reads this
    {
      CartOk(cart)
    }

    constructor (db: Database)
      ensures Valid() && this.db == db
      ensures cart == [] && !isReseller && discountType == Rp && discountValue == 0.0
      ensures paymentMethod == Cash && cashAmount == 0.0
    {
      this.db := db;
      cart := [];
      isReseller := false;
      discountType, discountValue := Rp, 0.0;
      paymentMethod, cashAmount := Cash, 0.0;
    }

    method UpdateQty(id: ProductId, newQty: int) returns (outcome: QtyOutcome)
      requires Valid()
      modifies this`cart
      ensures Valid()
      ensures cart == CartAfterUpdate(old(cart), id, newQty)
      ensures outcome == if newQty < 1 then Ignored
        else if Find(old(cart), id).Some? && newQty > Find(old(cart), id).value.item.stock then OutOfStock
        else Applied
    {
      UpdateKeepsCartOk(cart, id, newQty);
      if newQty < 1 {
        return Ignored;
      }
      var item := Find(cart, id);
      if item.Some? && newQty > item.value.item.stock {
        return OutOfStock;
      }
      cart := SetQty(cart, id, newQty);
      outcome := Applied;
    }

    method AddToCart(p: Product) returns (outcome: QtyOutcome)
      requires Valid()
      requires HasLine(cart, p.id) || p.stock >= 1
      modifies this`cart
      ensures Valid()
      ensures cart == CartAfterAdd(old(cart), p)
      ensures outcome == OutOfStock <==> cart == old(cart)
    {
      var existing := Find(cart, p.id);
      if existing.Some? {
        if existing.value.qty + 1 > p.stock {
          return OutOfStock;
        }
        outcome := UpdateQty(p.id, existing.value.qty + 1);
        assert existing.value.qty + 1 >= 1;
        if outcome == Applied {
          UpdateChangesCart(old(cart), p.id, existing.value.qty + 1);
        }
      } else {
        cart := cart + [CartLine(p, 1)];
        outcome := Applied;
      }
      AddKeepsCartOk(old(cart), p);
    }

    /** The delete button of a cart line. */
    method DeleteLine(id: ProductId)
      requires Valid()
      modifies this`cart
      ensures Valid()
      ensures cart == RemoveLine(old(cart), id)
      ensures !HasLine(cart, id)
    {
      RemoveKeepsCartOk(cart, id);
      cart := RemoveLine(cart, id);
    }

    /** `handleCheckout`: refuse an empty cart or too little cash without writing
        anything; otherwise record the sale, then for each line record the sale
        line and set the product's stock to the line's snapshot stock minus its
        quantity, and finally clear the cart, the discount and the cash. */
    method Checkout() returns (r: Result<Receipt, CheckoutError>)
      modifies this, db
      ensures var sub := Subtotal(old(cart), old(isReseller));
        var disc := DiscountAmount(sub, old(discountType), old(discountValue));
        var total := GrandTotal(sub, disc);
        var rejection := Rejection(old(cart), old(paymentMethod), old(cashAmount), total);
        && (rejection.Some? ==> r == Err(rejection.value) && unchanged(this) && unchanged(db))
        && (rejection.None? ==>
              var saleId := |old(db.sales)|;
              && r == Ok(Receipt(saleId, old(cart), total, sub, disc, old(paymentMethod), old(cashAmount),
                                 ChangeAmount(old(cashAmount), total), old(isReseller)))
              && db.sales == old(db.sales) + [Sale(saleId, total, CashReceived(old(cashAmount), total), old(paymentMethod))]
              && db.saleLines == old(db.saleLines) + SaleLinesOf(saleId, old(cart), old(isReseller))
              && db.stock == StockWrites(old(db.stock), old(cart))
              && db.invoices == old(db.invoices) && db.nextInvoiceId == old(db.nextInvoiceId)
              && cart == [] && discountValue == 0.0 && cashAmount == 0.0
              && isReseller == old(isReseller) && discountType == old(discountType)
              && paymentMethod == old(paymentMethod))
    {
      var sub := Subtotal(cart, isReseller);
      var disc := DiscountAmount(sub, discountType, discountValue);
      var total := GrandTotal(sub, disc);
      if cart == [] {
        return Err(EmptyCart);
      }
      if paymentMethod == Cash && cashAmount < total {
        return Err(InsufficientCash);
      }
      var saleId := db.InsertSale(total, CashReceived(cashAmount, total), paymentMethod);
      RecordSaleLines(db, saleId, cart, isReseller);
      r := Ok(Receipt(saleId, cart, total, sub, disc, paymentMethod, cashAmount,
                      ChangeAmount(cashAmount, total), isReseller));
      cart := [];
      discountValue := 0.0;
      cashAmount := 0.0;
    }
  }
}
