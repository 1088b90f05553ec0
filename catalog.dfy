/** Rows of the `products` table and the cart lines the cashier page and the
    wholesale invoice page build from them, with the cart operations both pages share. */
module Catalog {
  import opened Seqs

  type ProductId = string

  /** A product row as the pages read it. `price` and `resellerPrice` may be unset
      (null) in the table; `categoryName` is the joined category's name, if any. */
  datatype Product = Product(
    id: ProductId,
    sku: Option<string>,
    name: string,
    categoryName: Option<string>,
    price: Option<int>,
    resellerPrice: Option<int>,
    stock: int)

  /** A cart line `{ ...product, qty }`: a snapshot of the product row taken when it
      was added to the cart, plus the quantity being sold. */
  datatype CartLine = CartLine(item: Product, qty: int)

  /** `price || 0`: an unset price counts as zero. */
  function OrZero(price: Option<int>): int
  {
    if price.Some? then price.value else 0
  }

  predicate HasLine(cart: seq<CartLine>, id: ProductId)
  {
    exists i :: 0 <= i < |cart| && cart[i].item.id == id
  }

  /** Each product appears on at most one line. */
  predicate DistinctIds(cart: seq<CartLine>)
  {
    forall i, j :: 0 <= i < j < |cart| ==> cart[i].item.id != cart[j].item.id
  }

  /** `cart.find(i => i.id === id)`: the first line for the product, if any. */
  function Find(cart: seq<CartLine>, id: ProductId): (r: Option<CartLine>)
    ensures r.Some? ==> r.value in cart && r.value.item.id == id
    ensures r.None? <==> !HasLine(cart, id)
  {
    if cart == [] then None
    else if cart[0].item.id == id then Some(cart[0])
    else
      var r := Find(cart[1..], id);
      assert HasLine(cart, id) ==> HasLine(cart[1..], id) by {
        if HasLine(cart, id) {
          var i :| 0 <= i < |cart| && cart[i].item.id == id;
          assert cart[1..][i - 1] == cart[i];
        }
      }
      assert HasLine(cart[1..], id) ==> HasLine(cart, id) by {
        if HasLine(cart[1..], id) {
          var i :| 0 <= i < |cart[1..]| && cart[1..][i].item.id == id;
          assert cart[i + 1] == cart[1..][i];
        }
      }
      r
  }

  /** When product ids are distinct, `find` returns the one line holding the id. */
  lemma {:induction false} FindDistinct(cart: seq<CartLine>, k: nat)
    requires DistinctIds(cart)
    requires k < |cart|
    ensures Find(cart, cart[k].item.id) == Some(cart[k])
  {
    if k > 0 {
      assert cart[1..][k - 1] == cart[k];
      FindDistinct(cart[1..], k - 1);
    }
  }

  /** `cart.map(i => i.id === id ? { ...i, qty } : i)`. */
  function SetQty(cart: seq<CartLine>, id: ProductId, qty: int): (r: seq<CartLine>)
    ensures |r| == |cart|
    ensures forall i :: 0 <= i < |r| ==> r[i].item == cart[i].item && (cart[i].item.id != id ==> r[i] == cart[i])
  {
    seq(|cart|, i requires 0 <= i < |cart| =>
      if cart[i].item.id == id then cart[i].(qty := qty) else cart[i])
  }

  /** `cart.filter(i => i.id !== id)`: the delete button of a cart line. */
  function RemoveLine(cart: seq<CartLine>, id: ProductId): (r: seq<CartLine>)
    ensures !HasLine(r, id)
    ensures forall l :: l in r <==> l in cart && l.item.id != id
  {
    var r := Filter(cart, (l: CartLine) => l.item.id != id);
    assert !HasLine(r, id) by {
      forall i | 0 <= i < |r|
        ensures r[i].item.id != id
      {
        assert r[i] in r;
      }
    }
    r
  }

  /** `update products set stock = value where id = id`: a missing id matches no
      row, and every other product keeps its stock. */
  function WriteStock(stock: map<ProductId, int>, id: ProductId, value: int): (r: map<ProductId, int>)
    ensures r.Keys == stock.Keys
    ensures id in stock ==> r[id] == value
  {
    if id in stock then stock[id := value] else stock
  }

  /** The stock writes a sale or an invoice performs, one line after another:
      `update products set stock = <snapshot stock> - qty where id = <line id>`.
      An id that is not in the table matches no row and changes nothing. */
  function StockWrites(stock: map<ProductId, int>, lines: seq<CartLine>): (r: map<ProductId, int>)
    ensures r.Keys == stock.Keys
  {
    if lines == [] then stock
    else
      var n := |lines| - 1;
      var l := lines[n];
      WriteStock(StockWrites(stock, lines[..n]), l.item.id, l.item.stock - l.qty)
  }

  /** A product with no line in the cart keeps its stock. */
  lemma {:induction false} StockWritesElsewhere(stock: map<ProductId, int>, lines: seq<CartLine>, id: ProductId)
    requires id in stock && !HasLine(lines, id)
    ensures StockWrites(stock, lines)[id] == stock[id]
  {
    if lines != [] {
      var n := |lines| - 1;
      var prefix := lines[..n];
      assert !HasLine(prefix, id) by {
        forall i | 0 <= i < n ensures prefix[i].item.id != id {
          assert prefix[i] == lines[i];
        }
      }
      StockWritesElsewhere(stock, prefix, id);
      assert lines[n].item.id != id;
    }
  }

  /** One more line performs one more write, on the stock left by the earlier ones. */
  lemma StockWritesStep(stock: map<ProductId, int>, lines: seq<CartLine>, i: nat)
    requires i < |lines|
    ensures var s := StockWrites(stock, lines[..i]);
      var l := lines[i];
      StockWrites(stock, lines[..i + 1]) == WriteStock(s, l.item.id, l.item.stock - l.qty)
  {
    assert lines[..i + 1][..i] == lines[..i];
  }

  /** With distinct ids, every product on a line ends at its snapshot stock minus
      the line's quantity. */
  lemma {:induction false} StockWritesAt(stock: map<ProductId, int>, lines: seq<CartLine>, k: nat)
    requires DistinctIds(lines)
    requires k < |lines|
    requires lines[k].item.id in stock
    ensures StockWrites(stock, lines)[lines[k].item.id] == lines[k].item.stock - lines[k].qty
  {
    var n := |lines| - 1;
    if k < n {
      var prefix := lines[..n];
      assert DistinctIds(prefix);
      assert prefix[k] == lines[k];
      StockWritesAt(stock, prefix, k);
      assert lines[n].item.id != lines[k].item.id;
    }
  }
}
