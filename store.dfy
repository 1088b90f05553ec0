/** The backend tables the cashier and invoice pages write to, held in memory:
    product stock, sales (`transactions`), sale lines (`transaction_items`) and
    invoices with their lines (`invoices`, `invoice_items`). Each method is one
    request the pages send; every request succeeds. */
module Store {
  import opened Seqs
  import opened Catalog

  datatype PaymentMethod = Cash | Qris | Transfer

  /** `price_type` of a sale line: 'reseller' or 'umum'. */
  datatype PriceType = Reseller | Umum

  /** A `transactions` row. Its id is its position in the table. */
  datatype Sale = Sale(id: nat, totalPrice: real, cashReceived: real, paymentMethod: PaymentMethod)

  /** A `transaction_items` row. */
  datatype SaleLine = SaleLine(saleId: nat, productId: ProductId, quantity: int, subtotal: int, priceType: PriceType)

  /** `status` of an invoice: 'pending' or 'lunas' (paid). */
  datatype InvoiceStatus = Pending | Lunas

  /** An `invoice_items` row. */
  datatype InvoiceLine = InvoiceLine(productId: ProductId, productName: string, quantity: int, price: Option<int>, subtotal: int)

  /** An `invoices` row together with the `invoice_items` rows that reference it. */
  datatype Invoice = Invoice(
    customerName: string,
    customerWhatsapp: string,
    totalAmount: int,
    status: InvoiceStatus,
    dueDate: Option<string>,
    dueDateNotes: string,
    lines: seq<InvoiceLine>)

  class Database {
    var stock: map<ProductId, int>
    var sales: seq<Sale>
    var saleLines: seq<SaleLine>
    var invoices: map<nat, Invoice>
    var nextInvoiceId: nat

    /** Invoice ids are handed out in increasing order. */
    ghost predicate Valid()
      reads this
    {
      forall id :: id in invoices ==> id < nextInvoiceId
    }

    constructor (stock: map<ProductId, int>)
      ensures Valid()
      ensures this.stock == stock && sales == [] && saleLines == [] && invoices == map[]
    {
      this.stock := stock;
      sales, saleLines := [], [];
      invoices, nextInvoiceId := map[], 0;
    }

    /** `select('stock').eq('id', id).single()`. */
    method GetStock(id: ProductId) returns (r: Option<int>)
      ensures r == if id in stock then Some(stock[id]) else None
    {
      r := if id in stock then Some(stock[id]) else None;
    }

    /** `update({ stock: value }).eq('id', id)`: a missing id matches no row. */
    method SetStock(id: ProductId, value: int)
      modifies this`stock
      ensures stock == WriteStock(old(stock), id, value)
    {
      if id in stock {
        stock := stock[id := value];
      }
    }

    method InsertSale(totalPrice: real, cashReceived: real, paymentMethod: PaymentMethod) returns (id: nat)
      modifies this`sales
      ensures id == |old(sales)|
      ensures sales == old(sales) + [Sale(id, totalPrice, cashReceived, paymentMethod)]
    {
      id := |sales|;
      sales := sales + [Sale(id, totalPrice, cashReceived, paymentMethod)];
    }

    method InsertSaleLine(line: SaleLine)
      modifies this`saleLines
      ensures saleLines == old(saleLines) + [line]
    {
      saleLines := saleLines + [line];
    }

    method InsertInvoice(invoice: Invoice) returns (id: nat)
      requires Valid()
      modifies this`invoices, this`nextInvoiceId
      ensures Valid()
      ensures id == old(nextInvoiceId) && id !in old(invoices)
      ensures invoices == old(invoices)[id := invoice]
    {
      id := nextInvoiceId;
      invoices := invoices[id := invoice];
      nextInvoiceId := nextInvoiceId + 1;
    }

    /** Inserts an `invoice_items` row for invoice `id`. */
    method InsertInvoiceLine(id: nat, line: InvoiceLine)
      modifies this`invoices
      ensures invoices == if id in old(invoices)
        then old(invoices)[id := old(invoices)[id].(lines := old(invoices)[id].lines + [line])]
        else old(invoices)
    {
      if id in invoices {
        invoices := invoices[id := invoices[id].(lines := invoices[id].lines + [line])];
      }
    }

    /** `from('invoice_items').select('*').eq('invoice_id', id)`. */
    method InvoiceLines(id: nat) returns (lines: seq<InvoiceLine>)
      ensures lines == if id in invoices then invoices[id].lines else []
    {
      lines := if id in invoices then invoices[id].lines else [];
    }

    /** `from('invoices').update({ status }).eq('id', id)`. */
    method SetInvoiceStatus(id: nat, status: InvoiceStatus)
      modifies this`invoices
      ensures invoices == if id in old(invoices) then old(invoices)[id := old(invoices)[id].(status := status)] else old(invoices)
    {
      if id in invoices {
        invoices := invoices[id := invoices[id].(status := status)];
      }
    }

    /** `from('invoices').delete().eq('id', id)`; the invoice's lines go with it. */
    method DeleteInvoice(id: nat)
      modifies this`invoices
      ensures invoices == old(invoices) - {id}
    {
      invoices := invoices - {id};
    }
  }
}
