/** The wholesale invoice page (`invoice`): a second cart, priced at the standard
    price and not capped by stock; issuing an invoice, which records its lines and
    sets each product's stock; marking an invoice paid; selecting invoices; and
    bulk deletion, which adds every line's quantity back to its product's stock
    before deleting the invoice. */
module Invoicing {
  import opened Seqs
  import opened Catalog
  import opened Store

  /** The "Lengkapi data pelanggan dan barang!" alert. */
  datatype SaveError = MissingData

  /** How a bulk delete ended: refused with nothing selected, cancelled at the
      confirmation dialog, or carried out for the given number of selected ids. */
  datatype BulkOutcome = NothingSelected | Cancelled | Deleted(count: nat)

  /** The invoice cart's invariant: one line per product, each with qty >= 1. */
  predicate InvoiceCartOk(cart: seq<CartLine>)
  {
    DistinctIds(cart) && forall i :: 0 <= i < |cart| ==> cart[i].qty >= 1
  }

  /** `updateQty(id, newQty)`: a quantity below 1 is ignored; there is no upper cap. */
  function CartAfterUpdate(cart: seq<CartLine>, id: ProductId, newQty: int): (r: seq<CartLine>)
    ensures |r| == |cart|
    ensures forall i :: 0 <= i < |r| ==> r[i].item == cart[i].item
  {
    if newQty < 1 then cart else SetQty(cart, id, newQty)
  }

  /** `addToCart(p)`: one more of a product already in the cart, with no stock check;
      otherwise a new line with qty 1. */
  function CartAfterAdd(cart: seq<CartLine>, p: Product): (r: seq<CartLine>)
    ensures HasLine(cart, p.id) ==> |r| == |cart|
    ensures !HasLine(cart, p.id) ==> r == cart + [CartLine(p, 1)]
  {
    match Find(cart, p.id)
    case Some(line) => CartAfterUpdate(cart, p.id, line.qty + 1)
    case None => cart + [CartLine(p, 1)]
  }

  /** Changing a quantity below 1 changes nothing; any other value becomes the
      quantity of the product's lines, whatever the stock, and no other line moves. */
  lemma UpdateQtyEffect(cart: seq<CartLine>, id: ProductId, newQty: int)
    ensures var r := CartAfterUpdate(cart, id, newQty);
      && |r| == |cart|
      && forall i :: 0 <= i < |cart| ==>
           && r[i].item == cart[i].item
           && (cart[i].item.id != id ==> r[i] == cart[i])
           && (cart[i].item.id == id ==> r[i].qty == if newQty >= 1 then newQty else cart[i].qty)
  {
  }

  /** Adding a new product appends one line with qty 1; adding one already in the
      cart raises its quantity by one with no stock check, and leaves the other lines. */
  lemma AddToCartEffect(cart: seq<CartLine>, p: Product)
    requires InvoiceCartOk(cart)
    ensures var r := CartAfterAdd(cart, p);
      && (!HasLine(cart, p.id) ==> r == cart + [CartLine(p, 1)])
      && (HasLine(cart, p.id) ==>
            && |r| == |cart|
            && forall i :: 0 <= i < |cart| ==>
                 r[i] == if cart[i].item.id == p.id then cart[i].(qty := cart[i].qty + 1) else cart[i])
  {
    if HasLine(cart, p.id) {
      var k :| 0 <= k < |cart| && cart[k].item.id == p.id;
      FindDistinct(cart, k);
      var r := CartAfterAdd(cart, p);
      forall i | 0 <= i < |cart| && cart[i].item.id == p.id
        ensures r[i] == cart[i].(qty := cart[i].qty + 1)
      {
        assert i == k;
      }
    }
  }

  /** Both cart operations keep the invoice cart's invariant. */
  lemma CartOpsKeepInvariant(cart: seq<CartLine>, p: Product, id: ProductId, newQty: int)
    requires InvoiceCartOk(cart)
    ensures InvoiceCartOk(CartAfterAdd(cart, p))
    ensures InvoiceCartOk(CartAfterUpdate(cart, id, newQty))
  {
    AddToCartEffect(cart, p);
    UpdateQtyEffect(cart, id, newQty);
  }

  /** `calculateTotal()`: the sum of standard price times quantity. */
  function InvoiceTotal(cart: seq<CartLine>): int
  {
    Sum(cart, (l: CartLine) => OrZero(l.item.price) * l.qty)
  }

  /** The `invoice_items` row recorded for a cart line. */
  function InvoiceLineOf(line: CartLine): InvoiceLine
  {
    InvoiceLine(line.item.id, line.item.name, line.qty, line.item.price, OrZero(line.item.price) * line.qty)
  }

  function IssueLines(cart: seq<CartLine>): (lines: seq<InvoiceLine>)
    ensures |lines| == |cart|
  {
    seq(|cart|, i requires 0 <= i < |cart| => InvoiceLineOf(cart[i]))
  }

  /** The recorded lines of an invoice add up to its total. */
  lemma {:induction false} IssueLinesAddUp(cart: seq<CartLine>)
    ensures Sum(IssueLines(cart), (l: InvoiceLine) => l.subtotal) == InvoiceTotal(cart)
  {
    if cart != [] {
      var n := |cart| - 1;
      assert IssueLines(cart)[..n] == IssueLines(cart[..n]);
      IssueLinesAddUp(cart[..n]);
    }
  }

  /** Issuing sets stock to snapshot minus quantity with no cap, so an invoice for
      more than the stock drives the product's stock below zero. */
  lemma IssueCanDriveStockNegative()
    ensures var p := Product("agl", None, "Aglonema", None, Some(55000), Some(50000), 3);
      StockWrites(map["agl" := 3], [CartLine(p, 5)])["agl"] == -2
  {
    var p := Product("agl", None, "Aglonema", None, Some(55000), Some(50000), 3);
    assert [CartLine(p, 5)][..0] == [];
  }

  predicate HasItem(lines: seq<InvoiceLine>, id: ProductId)
  {
    exists i :: 0 <= i < |lines| && lines[i].productId == id
  }

  /** The inner loop of `handleBulkDelete`: for each line, in order, read the
      product's current stock and write it back increased by the line's quantity.
      A product no longer in the table is read as 0 and its update matches no row. */
  function Restock(stock: map<ProductId, int>, lines: seq<InvoiceLine>): (r: map<ProductId, int>)
    ensures r.Keys == stock.Keys
  {
    if lines == [] then stock
    else
      var n := |lines| - 1;
      var s := Restock(stock, lines[..n]);
      var l := lines[n];
      WriteStock(s, l.productId, (if l.productId in s then s[l.productId] else 0) + l.quantity)
  }

  /** A product with no item on the invoice keeps its stock. */
  lemma {:induction false} RestockElsewhere(stock: map<ProductId, int>, lines: seq<InvoiceLine>, id: ProductId)
    requires id in stock && !HasItem(lines, id)
    ensures Restock(stock, lines)[id] == stock[id]
  {
    if lines != [] {
      var n := |lines| - 1;
      var prefix := lines[..n];
      assert !HasItem(prefix, id) by {
        forall i | 0 <= i < n ensures prefix[i].productId != id {
          assert prefix[i] == lines[i];
        }
      }
      RestockElsewhere(stock, prefix, id);
      assert lines[n].productId != id;
    }
  }

  /** No product appears on two lines. */
  predicate DistinctItems(lines: seq<InvoiceLine>)
  {
    forall i, j :: 0 <= i < j < |lines| ==> lines[i].productId != lines[j].productId
  }

  /** One more line performs one more read and write, on the stock left by the earlier ones. */
  lemma RestockStep(stock: map<ProductId, int>, lines: seq<InvoiceLine>, i: nat)
    requires i < |lines|
    ensures var s := Restock(stock, lines[..i]);
      var l := lines[i];
      Restock(stock, lines[..i + 1]) == WriteStock(s, l.productId, (if l.productId in s then s[l.productId] else 0) + l.quantity)
  {
    assert lines[..i + 1][..i] == lines[..i];
  }

  /** With distinct products, restocking adds each line's quantity to its product. */
  lemma {:induction false} RestockAt(stock: map<ProductId, int>, lines: seq<InvoiceLine>, k: nat)
    requires DistinctItems(lines)
    requires k < |lines|
    requires lines[k].productId in stock
    ensures Restock(stock, lines)[lines[k].productId] == stock[lines[k].productId] + lines[k].quantity
  {
    var n := |lines| - 1;
    var prefix := lines[..n];
    var id := lines[k].productId;
    RestockStep(stock, lines, n);
    assert lines[..n + 1] == lines;
    if k < n {
      assert prefix[k] == lines[k];
      assert DistinctItems(prefix) by {
        forall i, j | 0 <= i < j < |prefix| ensures prefix[i].productId != prefix[j].productId {
          assert prefix[i] == lines[i] && prefix[j] == lines[j];
        }
      }
      RestockAt(stock, prefix, k);
      assert lines[n].productId != id;
    } else {
      assert !HasItem(prefix, id) by {
        forall i | 0 <= i < n ensures prefix[i].productId != id {
          assert prefix[i] == lines[i];
        }
      }
      RestockElsewhere(stock, prefix, id);
    }
  }

  /** The item rows of an invoice name the cart's products in order, so they are
      distinct when the cart's are. */
  lemma IssueLinesDistinct(cart: seq<CartLine>)
    requires DistinctIds(cart)
    ensures DistinctItems(IssueLines(cart))
    ensures forall id :: HasItem(IssueLines(cart), id) ==> HasLine(cart, id)
  {
    var lines := IssueLines(cart);
    forall id | HasItem(lines, id) ensures HasLine(cart, id) {
      var i :| 0 <= i < |lines| && lines[i].productId == id;
      assert cart[i].item.id == id;
    }
  }

  /** A product on line `k` of the cart is restored to the stock it had. */
  lemma IssueThenRestockAt(stock: map<ProductId, int>, cart: seq<CartLine>, k: nat)
    requires DistinctIds(cart)
    requires k < |cart| && cart[k].item.id in stock
    requires cart[k].item.stock == stock[cart[k].item.id]
    ensures Restock(StockWrites(stock, cart), IssueLines(cart))[cart[k].item.id] == stock[cart[k].item.id]
  {
    IssueLinesDistinct(cart);
    StockWritesAt(stock, cart, k);
    RestockAt(StockWrites(stock, cart), IssueLines(cart), k);
  }

  /** Restocking the lines of an invoice undoes issuing it: when every product on
      the cart still had its snapshot stock at issue time and nothing else wrote
      stock in between, every product gets back the stock it had before. */
  lemma IssueThenRestock(stock: map<ProductId, int>, cart: seq<CartLine>)
    requires DistinctIds(cart)
    requires forall k :: 0 <= k < |cart| && cart[k].item.id in stock ==> cart[k].item.stock == stock[cart[k].item.id]
    ensures Restock(StockWrites(stock, cart), IssueLines(cart)) == stock
  {
    var back := Restock(StockWrites(stock, cart), IssueLines(cart));
    IssueLinesDistinct(cart);
    forall id | id in stock ensures back[id] == stock[id] {
      if HasLine(cart, id) {
        var k :| 0 <= k < |cart| && cart[k].item.id == id;
        IssueThenRestockAt(stock, cart, k);
      } else {
        StockWritesElsewhere(stock, cart, id);
        RestockElsewhere(StockWrites(stock, cart), IssueLines(cart), id);
      }
    }
  }

  /** The items of invoice `id`, or none when it does not exist. */
  function LinesOf(invoices: map<nat, Invoice>, id: nat): seq<InvoiceLine>
  {
    if id in invoices then invoices[id].lines else []
  }

  /** The stock and invoice tables after `handleBulkDelete` has worked through `ids`:
      each invoice's lines are restocked, then the invoice is deleted. */
  function AfterDelete(stock: map<ProductId, int>, invoices: map<nat, Invoice>, ids: seq<nat>)
    : (r: (map<ProductId, int>, map<nat, Invoice>))
    ensures r.0.Keys == stock.Keys
    ensures r.1 == invoices - set i | i in ids
  {
    if ids == [] then (stock, invoices)
    else
      var n := |ids| - 1;
      var before := AfterDelete(stock, invoices, ids[..n]);
      assert ids == ids[..n] + [ids[n]];
      (Restock(before.0, LinesOf(before.1, ids[n])), before.1 - {ids[n]})
  }

  /** Issuing an invoice with a fresh id and then bulk-deleting just that invoice,
      with no other write in between, restores every product's stock and leaves the
      other invoices as they were. */
  lemma IssueThenDelete(stock: map<ProductId, int>, invoices: map<nat, Invoice>, id: nat,
                        cart: seq<CartLine>, issued: Invoice)
    requires DistinctIds(cart)
    requires forall k :: 0 <= k < |cart| && cart[k].item.id in stock ==> cart[k].item.stock == stock[cart[k].item.id]
    requires id !in invoices
    requires issued.lines == IssueLines(cart)
    ensures AfterDelete(StockWrites(stock, cart), invoices[id := issued], [id]) == (stock, invoices)
  {
    IssueThenRestock(stock, cart);
    assert [id][..0] == [];
    assert invoices[id := issued] - {id} == invoices;
  }

  /** `toggleSelect(id)`: drop the id if selected, otherwise append it. */
  function Toggle(selected: seq<nat>, id: nat): (r: seq<nat>)
    ensures id in r <==> id !in selected
  {
    if id in selected then Filter(selected, (i: nat) => i != id) else selected + [id]
  }

  /** Toggling flips the membership of exactly that id and never creates duplicates. */
  lemma ToggleEffect(selected: seq<nat>, id: nat)
    requires NoDuplicates(selected)
    ensures NoDuplicates(Toggle(selected, id))
    ensures forall x :: x in Toggle(selected, id) <==> if x == id then id !in selected else x in selected
  {
    if id in selected {
      FilterNoDuplicates(selected, (i: nat) => i != id);
    }
  }

  /** Toggling twice gives back the same selection: the same set of ids, and the
      very same sequence when the id was not selected before. */
  lemma ToggleTwice(selected: seq<nat>, id: nat)
    requires NoDuplicates(selected)
    ensures forall x :: x in Toggle(Toggle(selected, id), id) <==> x in selected
    ensures id !in selected ==> Toggle(Toggle(selected, id), id) == selected
  {
    ToggleEffect(selected, id);
    ToggleEffect(Toggle(selected, id), id);
    if id !in selected {
      var keep := (i: nat) => i != id;
      FilterAppend(selected, [id], keep);
      assert Filter([id], keep) == [];
    }
  }

  /** The header checkbox: every listed invoice when checked, none otherwise. */
  function SelectAll(listed: seq<nat>, checked: bool): (r: seq<nat>)
    ensures checked ==> forall x :: x in r <==> x in listed
    ensures !checked ==> r == []
  {
    if checked then listed else []
  }

  /** `markAsLunas(id)`: the invoice's status becomes 'lunas'. */
  function MarkPaid(invoices: map<nat, Invoice>, id: nat): (r: map<nat, Invoice>)
    ensures r.Keys == invoices.Keys
    ensures id in invoices ==> r[id] == invoices[id].(status := Lunas)
    ensures forall j :: j in invoices && j != id ==> r[j] == invoices[j]
  {
    if id in invoices then invoices[id := invoices[id].(status := Lunas)] else invoices
  }

  /** Marking paid is idempotent and keeps each invoice's lines, so it never touches stock. */
  lemma MarkPaidIdempotent(invoices: map<nat, Invoice>, id: nat)
    ensures MarkPaid(MarkPaid(invoices, id), id) == MarkPaid(invoices, id)
    ensures forall j :: j in invoices ==> LinesOf(MarkPaid(invoices, id), j) == LinesOf(invoices, j)
  {
  }

  /** The invoice list as `fetchData` orders it: newest (highest id) first. */
  function NewestFirst(invoices: map<nat, Invoice>, below: nat): (r: seq<nat>)
    ensures forall x :: x in r <==> x in invoices && x < below
    ensures NoDuplicates(r)
  {
    if below == 0 then []
    else
      var rest := NewestFirst(invoices, below - 1);
      if below - 1 in invoices then [below - 1] + rest else rest
  }

  /** Invoice `id` with `extra` item rows added after its own. */
  function WithLines(invoices: map<nat, Invoice>, id: nat, extra: seq<InvoiceLine>): (r: map<nat, Invoice>)
    requires id in invoices
    ensures r.Keys == invoices.Keys
  {
    invoices[id := invoices[id].(lines := invoices[id].lines + extra)]
  }

  /** The loop of `handleSaveInvoice`: insert each line's item row, then set the
      product's stock to the line's snapshot stock minus its quantity. */
  method WriteInvoiceLines(db: Database, id: nat, cart: seq<CartLine>)
    requires id in db.invoices
    modifies db`invoices, db`stock
    ensures db.invoices == WithLines(old(db.invoices), id, IssueLines(cart))
    ensures db.stock == StockWrites(old(db.stock), cart)
  {
    ghost var start := db.invoices;
    var i := 0;
    assert start[id].lines + [] == start[id].lines;
    while i < |cart|
      invariant 0 <= i <= |cart|
      invariant db.invoices == WithLines(start, id, IssueLines(cart[..i]))
      invariant db.stock == StockWrites(old(db.stock), cart[..i])
    {
      var line := cart[i];
      ghost var done := IssueLines(cart[..i]);
      db.InsertInvoiceLine(id, InvoiceLineOf(line));
      assert start[id].lines + done + [InvoiceLineOf(line)] == start[id].lines + (done + [InvoiceLineOf(line)]);
      db.SetStock(line.item.id, line.item.stock - line.qty);
      assert cart[..i + 1][..i] == cart[..i];
      assert IssueLines(cart[..i + 1]) == done + [InvoiceLineOf(line)];
      i := i + 1;
    }
    assert cart[..i] == cart;
  }

  /** The inner loop of `handleBulkDelete` for one invoice's lines. */
  method RestockLines(db: Database, lines: seq<InvoiceLine>)
    modifies db`stock
    ensures db.stock == Restock(old(db.stock), lines)
  {
    ghost var stock0 := db.stock;
    var j := 0;
    while j < |lines|
      invariant 0 <= j <= |lines|
      invariant db.stock == Restock(stock0, lines[..j])
    {
      var line := lines[j];
      ghost var before := db.stock;
      var current := db.GetStock(line.productId);
      var value := (if current.Some? then current.value else 0) + line.quantity;
      assert value == (if line.productId in before then before[line.productId] else 0) + line.quantity;
      db.SetStock(line.productId, value);
      RestockStep(stock0, lines, j);
      j := j + 1;
    }
    assert lines[..j] == lines;
  }

  /** The wholesale invoice page's state. */
  class InvoicePage {
    const db: Database
    var cart: seq<CartLine>
    var selectedIds: seq<nat>
    var invoices: seq<nat>
    var customerName: string
    var customerWhatsapp: string
    var dueDate: string
    var dueDateNotes: string
    var status: InvoiceStatus

    ghost predicate Valid()
      reads this, db
    {
      InvoiceCartOk(cart) && NoDuplicates(selectedIds) && NoDuplicates(invoices) && db.Valid()
    }

    constructor (db: Database)
      requires db.Valid()
      ensures Valid() && this.db == db
      ensures cart == [] && selectedIds == [] && invoices == NewestFirst(db.invoices, db.nextInvoiceId)
      ensures customerName == [] && customerWhatsapp == [] && dueDate == [] && dueDateNotes == []
      ensures status == Pending
    {
      this.db := db;
      cart, selectedIds := [], [];
      invoices := NewestFirst(db.invoices, db.nextInvoiceId);
      customerName, customerWhatsapp, dueDate, dueDateNotes := [], [], [], [];
      status := Pending;
    }

    method UpdateQty(id: ProductId, newQty: int)
      requires Valid()
      modifies this`cart
      ensures Valid()
      ensures cart == CartAfterUpdate(old(cart), id, newQty)
    {
      CartOpsKeepInvariant(cart, Product(id, None, [], None, None, None, 0), id, newQty);
      if newQty < 1 {
        return;
      }
      cart := SetQty(cart, id, newQty);
    }

    method AddToCart(p: Product)
      requires Valid()
      modifies this`cart
      ensures Valid()
      ensures cart == CartAfterAdd(old(cart), p)
    {
      CartOpsKeepInvariant(cart, p, p.id, 1);
      var existing := Find(cart, p.id);
      if existing.Some? {
        UpdateQty(p.id, existing.value.qty + 1);
      } else {
        cart := cart + [CartLine(p, 1)];
      }
    }

    /** `fetchData`, as far as the invoice list goes. */
    method Refresh()
      modifies this`invoices
      ensures invoices == NewestFirst(db.invoices, db.nextInvoiceId)
    {
      invoices := NewestFirst(db.invoices, db.nextInvoiceId);
    }

    /** `handleSaveInvoice`: refuse a missing customer name or an empty cart without
        writing anything; otherwise insert the invoice with the cart's total, then
        each line's item row and stock write, and clear the cart. */
    method SaveInvoice() returns (r: Result<nat, SaveError>)
      requires Valid()
      modifies this`cart, this`invoices, db`invoices, db`nextInvoiceId, db`stock
      ensures Valid()
      ensures old(customerName) == [] || old(cart) == [] ==>
        r == Err(MissingData) && unchanged(this) && unchanged(db)
      ensures old(customerName) != [] && old(cart) != [] ==>
        && r.Ok?
        && r.value == old(db.nextInvoiceId) && r.value !in old(db.invoices)
        && db.invoices == old(db.invoices)[r.value := Invoice(
             old(customerName), old(customerWhatsapp), InvoiceTotal(old(cart)), old(status),
             if old(dueDate) == [] then None else Some(old(dueDate)), old(dueDateNotes),
             IssueLines(old(cart)))]
        && db.stock == StockWrites(old(db.stock), old(cart))
        && cart == []
        && invoices == NewestFirst(db.invoices, db.nextInvoiceId)
      ensures db.sales == old(db.sales) && db.saleLines == old(db.saleLines)
    {
      if customerName == [] || cart == [] {
        return Err(MissingData);
      }
      var invoice := Invoice(customerName, customerWhatsapp, InvoiceTotal(cart), status,
                             if dueDate == [] then None else Some(dueDate), dueDateNotes, []);
      var id := db.InsertInvoice(invoice);
      WriteInvoiceLines(db, id, cart);
      assert [] + IssueLines(cart) == IssueLines(cart);
      cart := [];
      Refresh();
      r := Ok(id);
    }

    /** `markAsLunas(id)`, followed by a refresh of the list. */
    method MarkAsLunas(id: nat)
      requires Valid()
      modifies db`invoices, this`invoices
      ensures Valid()
      ensures db.invoices == MarkPaid(old(db.invoices), id)
      ensures invoices == NewestFirst(db.invoices, db.nextInvoiceId)
    {
      db.SetInvoiceStatus(id, Lunas);
      Refresh();
    }

    method ToggleSelect(id: nat)
      requires Valid()
      modifies this`selectedIds
      ensures Valid()
      ensures selectedIds == Toggle(old(selectedIds), id)
    {
      ToggleEffect(selectedIds, id);
      if id in selectedIds {
        selectedIds := Filter(selectedIds, (i: nat) => i != id);
      } else {
        selectedIds := selectedIds + [id];
      }
    }

    /** The header checkbox of the invoice table. */
    method SelectAllListed(checked: bool)
      requires Valid()
      modifies this`selectedIds
      ensures Valid()
      ensures selectedIds == SelectAll(invoices, checked)
    {
      selectedIds := if checked then invoices else [];
    }

    /** `handleBulkDelete`: refuse an empty selection, stop if the confirmation is
        declined, otherwise restock and delete every selected invoice in turn and
        clear the selection. */
    method BulkDelete(confirmed: bool) returns (outcome: BulkOutcome)
      requires Valid()
      modifies this`selectedIds, this`invoices, db`stock, db`invoices
      ensures Valid()
      ensures old(selectedIds) == [] ==> outcome == NothingSelected && unchanged(this) && unchanged(db)
      ensures old(selectedIds) != [] && !confirmed ==> outcome == Cancelled && unchanged(this) && unchanged(db)
      ensures old(selectedIds) != [] && confirmed ==>
        && outcome == Deleted(|old(selectedIds)|)
        && (db.stock, db.invoices) == AfterDelete(old(db.stock), old(db.invoices), old(selectedIds))
        && selectedIds == []
        && invoices == NewestFirst(db.invoices, db.nextInvoiceId)
    {
      if selectedIds == [] {
        return NothingSelected;
      }
      if !confirmed {
        return Cancelled;
      }
      var i := 0;
      while i < |selectedIds|
        invariant 0 <= i <= |selectedIds|
        invariant (db.stock, db.invoices) == AfterDelete(old(db.stock), old(db.invoices), selectedIds[..i])
        invariant db.Valid()
        modifies db`stock, db`invoices
      {
        var id := selectedIds[i];
        var lines := db.InvoiceLines(id);
        RestockLines(db, lines);
        db.DeleteInvoice(id);
        assert selectedIds[..i + 1][..i] == selectedIds[..i];
        i := i + 1;
      }
      assert selectedIds[..i] == selectedIds;
      outcome := Deleted(|selectedIds|);
      selectedIds := [];
      Refresh();
    }
  }

  /** A whole session on the invoice page: issue an invoice from the cart, select
      just that invoice, and bulk-delete it. Every product's stock ends where it
      started, and the invoice table is as it was. */
  method IssueThenDeleteSession(page: InvoicePage) returns (id: nat)
    requires page.Valid()
    requires page.customerName != [] && page.cart != [] && page.selectedIds == []
    requires forall k :: 0 <= k < |page.cart| && page.cart[k].item.id in page.db.stock ==>
      page.cart[k].item.stock == page.db.stock[page.cart[k].item.id]
    modifies page, page.db
    ensures page.db.stock == old(page.db.stock)
    ensures page.db.invoices == old(page.db.invoices)
  {
    ghost var cart := page.cart;
    var saved := page.SaveInvoice();
    id := saved.value;
    ghost var issued := page.db.invoices[id];
    page.ToggleSelect(id);
    assert page.selectedIds == [id];
    var outcome := page.BulkDelete(true);
    IssueThenDelete(old(page.db.stock), old(page.db.invoices), id, cart, issued);
  }
}
