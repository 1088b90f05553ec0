/** The stock page (`stok`): bulk import of products from CSV text, the CSV template
    offered for download, and the product search. */
module Stok {
  import opened Seqs
  import opened Text
  import opened Catalog

  /** The value JavaScript's `Number(...)` gives: an integer, or NaN. */
  datatype Num = Finite(value: int) | NaN

  predicate IsDigit(c: char)
  {
    '0' <= c <= '9'
  }

  /** A non-empty run of decimal digits. */
  predicate IsDigits(s: string)
  {
    |s| >= 1 && forall i :: 0 <= i < |s| ==> IsDigit(s[i])
  }

  /** The value of a run of decimal digits, read left to right. */
  function DigitsValue(s: string): (n: nat)
    requires forall i :: 0 <= i < |s| ==> IsDigit(s[i])
  {
    if s == [] then 0
    else
      var last := s[|s| - 1];
      assert IsDigit(last);
      DigitsValue(s[..|s| - 1]) * 10 + (last as int - '0' as int)
  }

  /** `Number(s)` on a string: surrounding white space is ignored, an empty or blank
      string is 0, an optionally signed run of digits is its value, and anything
      else is NaN. */
  function NumberOf(s: string): Num
  {
    var t := Trim(s);
    if t == [] then Finite(0)
    else if IsDigits(t) then Finite(DigitsValue(t))
    else if t[0] == '-' && IsDigits(t[1..]) then Finite(-(DigitsValue(t[1..]) as int))
    else if t[0] == '+' && IsDigits(t[1..]) then Finite(DigitsValue(t[1..]))
    else NaN
  }

  /** `Number(field)`, where a field past the end of the row is `undefined`, which is NaN. */
  function ParseNumber(field: Option<string>): Num
  {
    if field.Some? then NumberOf(field.value) else NaN
  }

  /** The decimal digits of a natural number. */
  function ShowNat(n: nat): (s: string)
    ensures IsDigits(s)
  {
    if n < 10 then [('0' as int + n) as char]
    else ShowNat(n / 10) + [('0' as int + n % 10) as char]
  }

  /** How an integer is written in a CSV cell. */
  function ShowInt(n: int): string
  {
    if n < 0 then "-" + ShowNat(-n) else ShowNat(n)
  }

  lemma {:induction false} ShowNatValue(n: nat)
    ensures DigitsValue(ShowNat(n)) == n
  {
    if n >= 10 {
      var s := ShowNat(n);
      assert s[..|s| - 1] == ShowNat(n / 10);
      ShowNatValue(n / 10);
    }
  }

  /** Reading back a written integer gives the integer. */
  lemma NumberOfShow(n: int)
    ensures NumberOf(ShowInt(n)) == Finite(n)
  {
    var s := ShowInt(n);
    TrimUnpadded(s);
    if n < 0 {
      ShowNatValue(-n);
      assert s[1..] == ShowNat(-n);
      assert !IsDigit(s[0]);
    } else {
      ShowNatValue(n);
    }
  }

  /** A blank cell reads as 0, a missing cell and text that is not a number as NaN. */
  lemma NumberEdgeCases(blank: string)
    requires IsBlank(blank)
    ensures ParseNumber(Some(blank)) == Finite(0)
    ensures ParseNumber(None) == NaN
    ensures NumberOf("Rp10") == NaN
    ensures NumberOf(" 10\r") == Finite(10)
    ensures NumberOf("-") == NaN
  {
    TrimEmptyIffBlank(blank);
    assert Trim("Rp10") == "Rp10" by { TrimUnpadded("Rp10"); }
    assert !IsDigit('R');
    assert Trim(" 10\r") == "10";
    assert DigitsValue("10") == 10 by { assert "10"[..1] == "1"; }
    assert Trim("-") == "-" by { TrimUnpadded("-"); }
  }

  /** One product as `handleCSVUpload` builds it from a line. The text fields are
      the raw cells; a cell past the end of the line is undefined. */
  datatype ProductDraft = ProductDraft(
    sku: Option<string>,
    name: Option<string>,
    categoryId: Option<string>,
    costPrice: Num,
    price: Num,
    resellerPrice: Num,
    stock: Num)

  /** Destructuring `[a, b, ...] = parts`: position `i`, or undefined past the end. */
  function Field(parts: seq<string>, i: nat): (r: Option<string>)
    ensures r.Some? <==> i < |parts|
  {
    if i < |parts| then Some(parts[i]) else None
  }

  /** A line split on every comma, its cells taken by position in the order sku,
      name, category_id, cost_price, price, reseller_price, stock. */
  function ParseRow(row: string): ProductDraft
  {
    var parts := Split(row, ',');
    ProductDraft(Field(parts, 0), Field(parts, 1), Field(parts, 2),
                 ParseNumber(Field(parts, 3)), ParseNumber(Field(parts, 4)),
                 ParseNumber(Field(parts, 5)), ParseNumber(Field(parts, 6)))
  }

  /** `row.trim() !== ''`. */
  predicate KeepRow(row: string)
  {
    Trim(row) != []
  }

  function ParseRows(rows: seq<string>): (r: seq<ProductDraft>)
    ensures |r| == |rows|
  {
    seq(|rows|, i requires 0 <= i < |rows| => ParseRow(rows[i]))
  }

  /** `text.split('\n').slice(1).filter(row => row.trim() !== '').map(...)`. */
  function ParseCsv(text: string): seq<ProductDraft>
  {
    ParseRows(Filter(Split(text, '\n')[1..], KeepRow))
  }

  lemma ParseRowsAppend(a: seq<string>, b: seq<string>)
    ensures ParseRows(a + b) == ParseRows(a) + ParseRows(b)
  {
  }

  /** The first line is the header and never becomes a product, whatever it says. */
  lemma HeaderDiscarded(header: string, other: string, body: string)
    requires '\n' !in header && '\n' !in other
    ensures ParseCsv(header + "\n" + body) == ParseCsv(other + "\n" + body)
    ensures ParseCsv(header + "\n" + body) == ParseRows(Filter(Split(body, '\n'), KeepRow))
  {
    SplitFirstLine(header, body, '\n');
    SplitFirstLine(other, body, '\n');
  }

  /** A text of one line, a header alone, gives no products. */
  lemma HeaderOnly(header: string)
    requires '\n' !in header
    ensures ParseCsv(header) == []
  {
    SplitNoSep(header, '\n');
  }

  /** A line appended after a newline is one more line after the header. */
  lemma LinesAfterHeader(text: string, line: string)
    requires '\n' !in line
    ensures Split(text + "\n" + line, '\n')[1..] == Split(text, '\n')[1..] + [line]
  {
    SplitConcat(text, line, '\n');
    SplitNoSep(line, '\n');
    var lines := Split(text, '\n');
    assert (lines + [line])[1..] == lines[1..] + [line];
  }

  /** A kept line gives one more product; a blank line gives none. */
  lemma ParseRowsAppendLine(lines: seq<string>, line: string)
    ensures ParseRows(Filter(lines + [line], KeepRow))
      == ParseRows(Filter(lines, KeepRow)) + (if IsBlank(line) then [] else [ParseRow(line)])
  {
    FilterAppend(lines, [line], KeepRow);
    TrimEmptyIffBlank(line);
    assert [line][..0] == [];
    ParseRowsAppend(Filter(lines, KeepRow), Filter([line], KeepRow));
  }

  /** Each line after the header gives its product in order, a blank line gives
      none, and so the number of products reported is the number of non-blank lines. */
  lemma ParseCsvAppendLine(text: string, line: string)
    requires '\n' !in line
    ensures ParseCsv(text + "\n" + line) == ParseCsv(text) + (if IsBlank(line) then [] else [ParseRow(line)])
  {
    LinesAfterHeader(text, line);
    ParseRowsAppendLine(Split(text, '\n')[1..], line);
  }

  /** Cells beyond the seventh are ignored. */
  lemma ExtraCellsIgnored(row: string, extra: string)
    requires |Split(row, ',')| >= 7
    ensures ParseRow(row + "," + extra) == ParseRow(row)
  {
    SplitConcat(row, extra, ',');
  }

  /** A line with three cells or fewer has no numbers: all four are NaN, and the
      cells it lacks are undefined. */
  lemma ShortRow(row: string)
    requires |Split(row, ',')| <= 3
    ensures var d := ParseRow(row);
      d.costPrice == NaN && d.price == NaN && d.resellerPrice == NaN && d.stock == NaN
      && (|Split(row, ',')| <= 2 ==> d.categoryId == None)
  {
  }

  /** A product as the CSV template describes it. */
  datatype CsvProduct = CsvProduct(
    sku: string,
    name: string,
    categoryId: string,
    costPrice: int,
    price: int,
    resellerPrice: int,
    stock: int)

  /** The template's header line, `sku,name,category_id,cost_price,price,reseller_price,stock`,
      written here cell by cell. */
  const HeaderCells: seq<string> := ["sku", "name", "category_id", "cost_price", "price", "reseller_price", "stock"]

  const CsvHeader: string := Join(HeaderCells, ',')

  lemma HeaderIsOneLine()
    ensures '\n' !in CsvHeader
  {
    JoinAvoids(HeaderCells, ',', '\n');
  }

  /** A cell the naive split reads back unchanged. */
  predicate PlainCell(s: string)
  {
    ',' !in s && '\n' !in s
  }

  predicate Writable(p: CsvProduct)
  {
    PlainCell(p.sku) && PlainCell(p.name) && PlainCell(p.categoryId)
  }

  function Cells(p: CsvProduct): (cells: seq<string>)
    ensures |cells| == 7
  {
    [p.sku, p.name, p.categoryId, ShowInt(p.costPrice), ShowInt(p.price),
     ShowInt(p.resellerPrice), ShowInt(p.stock)]
  }

  /** The CSV line of a product, as in the template's example line. */
  function FormatRow(p: CsvProduct): string
  {
    Join(Cells(p), ',')
  }

  /** A CSV text in the template's layout: the header, then one line per product. */
  function CsvText(products: seq<CsvProduct>): string
  {
    if products == [] then CsvHeader
    else CsvText(products[..|products| - 1]) + "\n" + FormatRow(products[|products| - 1])
  }

  /** What importing a product written in the template layout should give. */
  function Expected(p: CsvProduct): ProductDraft
  {
    ProductDraft(Some(p.sku), Some(p.name), Some(p.categoryId),
                 Finite(p.costPrice), Finite(p.price), Finite(p.resellerPrice), Finite(p.stock))
  }

  lemma ShowIntPlain(n: int)
    ensures PlainCell(ShowInt(n))
  {
    var digits := ShowNat(if n < 0 then -n else n);
    assert forall i :: 0 <= i < |digits| ==> IsDigit(digits[i]);
    assert ShowInt(n) == if n < 0 then "-" + digits else digits;
  }

  /** A product's line is one non-blank line whose cells read back as the product. */
  lemma FormatRowRoundTrip(p: CsvProduct)
    requires Writable(p)
    ensures '\n' !in FormatRow(p) && !IsBlank(FormatRow(p))
    ensures ParseRow(FormatRow(p)) == Expected(p)
  {
    var cells := Cells(p);
    ShowIntPlain(p.costPrice);
    ShowIntPlain(p.price);
    ShowIntPlain(p.resellerPrice);
    ShowIntPlain(p.stock);
    assert forall i :: 0 <= i < 7 ==> PlainCell(cells[i]);
    SplitJoin(cells, ',');
    JoinAvoids(cells, ',', '\n');
    NumberOfShow(p.costPrice);
    NumberOfShow(p.price);
    NumberOfShow(p.resellerPrice);
    NumberOfShow(p.stock);
    var row := FormatRow(p);
    assert row == cells[0] + [','] + Join(cells[1..], ',');
    assert row[|cells[0]|] == ',' && !IsSpace(',');
  }

  function ExpectedAll(products: seq<CsvProduct>): (r: seq<ProductDraft>)
    ensures |r| == |products|
  {
    seq(|products|, i requires 0 <= i < |products| => Expected(products[i]))
  }

  lemma ExpectedAllSnoc(products: seq<CsvProduct>)
    requires products != []
    ensures ExpectedAll(products) == ExpectedAll(products[..|products| - 1]) + [Expected(products[|products| - 1])]
  {
  }

  /** Importing a CSV text in the template layout gives back its products, in order. */
  lemma {:induction false} CsvRoundTrip(products: seq<CsvProduct>)
    requires forall i :: 0 <= i < |products| ==> Writable(products[i])
    ensures ParseCsv(CsvText(products)) == ExpectedAll(products)
  {
    if products == [] {
      HeaderIsOneLine();
      HeaderOnly(CsvHeader);
    } else {
      var n := |products| - 1;
      var init := products[..n];
      var last := products[n];
      assert forall i :: 0 <= i < |init| ==> Writable(init[i]) by {
        forall i | 0 <= i < |init| ensures Writable(init[i]) {
          assert init[i] == products[i];
        }
      }
      CsvRoundTrip(init);
      FormatRowRoundTrip(last);
      ParseCsvAppendLine(CsvText(init), FormatRow(last));
      ExpectedAllSnoc(products);
    }
  }

  /** The template's example line, `AGL-001,Aglonema Suksom,ISI_ID_KATEGORI_DISINI,35000,55000,50000,10`,
      written here cell by cell. */
  const ExampleLine: string := Join(["AGL-001", "Aglonema Suksom", "ISI_ID_KATEGORI_DISINI", "35000", "55000", "50000", "10"], ',')

  /** The downloadable template: the header line, a line break, and the example line. */
  const Template: string := CsvHeader + "\n" + ExampleLine

  const Example: CsvProduct := CsvProduct("AGL-001", "Aglonema Suksom", "ISI_ID_KATEGORI_DISINI", 35000, 55000, 50000, 10)

  lemma ExampleCells()
    ensures Cells(Example) == ["AGL-001", "Aglonema Suksom", "ISI_ID_KATEGORI_DISINI", "35000", "55000", "50000", "10"]
  {
    assert ShowNat(10) == "10";
    assert ShowNat(35000) == "35000" by {
      assert ShowNat(35) == "35";
      assert ShowNat(350) == "350";
      assert ShowNat(3500) == "3500";
    }
    assert ShowNat(55000) == "55000" by {
      assert ShowNat(55) == "55";
      assert ShowNat(550) == "550";
      assert ShowNat(5500) == "5500";
    }
    assert ShowNat(50000) == "50000" by {
      assert ShowNat(50) == "50";
      assert ShowNat(500) == "500";
      assert ShowNat(5000) == "5000";
    }
  }

  /** The template is the CSV text of its example product. */
  lemma TemplateIsCsvText()
    ensures Template == CsvText([Example])
  {
    ExampleCells();
    assert [Example][..0] == [];
  }

  /** The example's three text cells hold no comma and no line break. */
  lemma SkuCellPlain() ensures PlainCell("AGL-001") {}
  lemma NameCellPlain() ensures PlainCell("Aglonema Suksom") {}
  lemma CategoryCellPlain() ensures PlainCell("ISI_ID_KATEGORI_DISINI") {}

  lemma ExampleWritable()
    ensures Writable(Example)
  {
    SkuCellPlain();
    NameCellPlain();
    CategoryCellPlain();
  }

  /** Importing the template unchanged adds exactly the example product. */
  lemma TemplateImport()
    ensures ParseCsv(Template) == [ProductDraft(Some("AGL-001"), Some("Aglonema Suksom"),
      Some("ISI_ID_KATEGORI_DISINI"), Finite(35000), Finite(55000), Finite(50000), Finite(10))]
  {
    TemplateIsCsvText();
    ExampleWritable();
    CsvRoundTrip([Example]);
    assert ExpectedAll([Example]) == [Expected(Example)];
  }

  /** `filteredProducts`: the search text is stored lower-cased, and a product is
      kept when its lower-cased name, category name or SKU includes it. A product
      without a category or SKU is matched on the fields it has. */
  predicate Matches(p: Product, search: string)
  {
    || Contains(Lower(p.name), search)
    || (p.categoryName.Some? && Contains(Lower(p.categoryName.value), search))
    || (p.sku.Some? && Contains(Lower(p.sku.value), search))
  }

  /** The product list for what the user typed into the search box. */
  function FilteredProducts(products: seq<Product>, typed: string): (r: seq<Product>)
    ensures forall p :: p in r <==> p in products && Matches(p, Lower(typed))
  {
    Filter(products, (p: Product) => Matches(p, Lower(typed)))
  }

  /** An empty search shows every product in its original order. */
  lemma EmptySearchKeepsAll(products: seq<Product>)
    ensures FilteredProducts(products, []) == products
  {
    forall p | p in products ensures Matches(p, Lower([])) {
      ContainsEmpty(Lower(p.name));
    }
  }

  /** The search ignores case: a product whose name, category or SKU includes the
      typed text exactly is shown, however the text's letters were cased. */
  lemma SearchIgnoresCase(products: seq<Product>, typed: string, p: Product)
    requires p in products
    requires Contains(p.name, typed)
      || (p.categoryName.Some? && Contains(p.categoryName.value, typed))
      || (p.sku.Some? && Contains(p.sku.value, typed))
    ensures p in FilteredProducts(products, typed)
  {
    if Contains(p.name, typed) {
      ContainsLower(p.name, typed);
    } else if p.categoryName.Some? && Contains(p.categoryName.value, typed) {
      ContainsLower(p.categoryName.value, typed);
    } else {
      ContainsLower(p.sku.value, typed);
    }
  }

  /** Typing more characters never brings a product back. */
  lemma SearchNarrows(products: seq<Product>, typed: string, more: string)
    ensures forall p :: p in FilteredProducts(products, typed + more) ==> p in FilteredProducts(products, typed)
  {
    LowerConcat(typed, more);
    forall p | p in FilteredProducts(products, typed + more)
      ensures Matches(p, Lower(typed))
    {
      if Contains(Lower(p.name), Lower(typed) + Lower(more)) {
        ContainsPrefix(Lower(p.name), Lower(typed), Lower(more));
      } else if p.categoryName.Some? && Contains(Lower(p.categoryName.value), Lower(typed) + Lower(more)) {
        ContainsPrefix(Lower(p.categoryName.value), Lower(typed), Lower(more));
      } else {
        ContainsPrefix(Lower(p.sku.value), Lower(typed), Lower(more));
      }
    }
  }
}
