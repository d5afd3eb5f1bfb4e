/** The components-stock page: inventory value, low-stock classification, the
    add-component form and the CSV export. */
module StockPage {
  import opened Wrappers
  import opened FinanceTypes
  import opened NumberInput
  import opened Ledger
  import opened FinanceContext
  import opened Text

  /** A component is low on stock strictly below its threshold. */
  predicate IsLow(c: Component)
  {
    c.quantity < c.minStock
  }

  /** The components flagged low, in order. */
  function LowStock(cs: seq<Component>): (r: seq<Component>)
    ensures |r| <= |cs|
    ensures forall i :: 0 <= i < |r| ==> IsLow(r[i]) && r[i] in cs
    ensures forall i :: 0 <= i < |cs| && IsLow(cs[i]) ==> cs[i] in r
  {
    if cs == [] then []
    else if IsLow(cs[0]) then [cs[0]] + LowStock(cs[1..])
    else LowStock(cs[1..])
  }

  /** The "Low Stock Items" card. */
  function LowStockCount(cs: seq<Component>): nat
  {
    |LowStock(cs)|
  }

  /** The low-stock list keeps list order and multiplicity: an appended component joins
      it exactly when it is low, at the end. */
  lemma {:induction false} LowStockAppend(cs: seq<Component>, c: Component)
    ensures LowStock(cs + [c]) == LowStock(cs) + (if IsLow(c) then [c] else [])
  {
    if cs == [] {
      assert cs + [c] == [c];
      assert [c][1..] == [];
    } else {
      assert (cs + [c])[0] == cs[0];
      assert (cs + [c])[1..] == cs[1..] + [c];
      LowStockAppend(cs[1..], c);
    }
  }

  /** The card counts the low components one by one: none for an empty inventory, one
      more for each low component added, and zero exactly when nothing is low. */
  lemma {:induction false} LowStockCountLaws(cs: seq<Component>, c: Component)
    ensures LowStockCount([]) == 0
    ensures LowStockCount(cs + [c]) == LowStockCount(cs) + (if IsLow(c) then 1 else 0)
    ensures LowStockCount(cs) == 0 <==> forall i :: 0 <= i < |cs| ==> !IsLow(cs[i])
  {
    LowStockAppend(cs, c);
    if LowStockCount(cs) == 0 {
      assert LowStock(cs) == [];
    } else {
      assert LowStock(cs)[0] in cs;
    }
  }

  /** The status badge the table shows. */
  function BadgeLabel(c: Component): string
  {
    if IsLow(c) then "Low Stock" else "In Stock"
  }

  /** The status cell of the CSV export. */
  function CsvStatus(c: Component): string
  {
    if IsLow(c) then "Low Stock" else "OK"
  }

  /** Badge and CSV agree on which components are low; they word the other case differently. */
  lemma StatusLabels(c: Component)
    ensures BadgeLabel(c) == "Low Stock" <==> IsLow(c)
    ensures CsvStatus(c) == "Low Stock" <==> IsLow(c)
    ensures !IsLow(c) ==> BadgeLabel(c) == "In Stock" && CsvStatus(c) == "OK"
  {
  }

  /** Of the sample inventory only the ultrasonic sensor (8 of 15) is low; the servo
      motors (50 of 20) are not. */
  lemma SampleLowStock()
    ensures LowStock(SampleComponents) == [SampleComponents[3]]
    ensures CsvStatus(SampleComponents[3]) == "Low Stock" && CsvStatus(SampleComponents[2]) == "OK"
  {
    var cs := SampleComponents;
    assert cs[1..][1..] == cs[2..];
    assert cs[2..][1..] == cs[3..];
    assert cs[3..][1..] == cs[4..];
    assert cs[4..][1..] == [];
  }

  /** The "Stock Expenses" card: expense rows of the stock category only. */
  function StockExpenses(ts: seq<Transaction>): real
  {
    CategoryTypeTotal(ts, Stock, Expense)
  }

  /** The card leaves stock income out, and with non-negative amounts it is a part of
      the dashboard's total expense. */
  lemma StockExpensesBounded(ts: seq<Transaction>)
    ensures StockExpenses(ts) + CategoryTypeTotal(ts, Stock, Income) == CategoryTotal(ts, Stock)
    ensures NonNegativeAmounts(ts) ==> 0.0 <= StockExpenses(ts) <= TypeTotal(ts, Expense)
  {
    CategorySplit(ts, Stock);
    if NonNegativeAmounts(ts) {
      var expenses := OfType(ts, Expense);
      assert forall i :: 0 <= i < |expenses| ==> expenses[i] in ts;
      FiltersCommute(ts, Stock, Expense);
      FilteredTotalsBounded(expenses, Stock, Expense);
    }
  }

  /** The add-component form; quantity, unit price and minimum are number inputs. */
  datatype ComponentForm = ComponentForm(
    name: string,
    quantity: Option<real>,
    unitPrice: Option<real>,
    minStock: Option<real>,
    category: string)

  const BlankComponentForm := ComponentForm("", None, None, None, "")

  /** The component `handleAddComponent` would add, or None when name, quantity or unit
      price is blank. A missing (or zero) minimum becomes 5, a missing category "General". */
  function ComponentFromForm(f: ComponentForm): (r: Option<Component>)
    ensures r.None? <==> f.name == "" || f.quantity.None? || f.unitPrice.None?
    ensures r.Some? ==> (r.value.name == f.name && r.value.quantity == Truncate(f.quantity.value)
                         && r.value.unitPrice == f.unitPrice.value)
    ensures r.Some? && f.minStock.None? ==> r.value.minStock == 5
    ensures r.Some? ==> r.value.minStock != 0 && r.value.minStock == IntOr(f.minStock, 5)
    ensures r.Some? ==> (r.value.category == if f.category == "" then "General" else f.category)
  {
    if f.name == "" || f.quantity.None? || f.unitPrice.None? then None
    else Some(Component("", f.name, Truncate(f.quantity.value), f.unitPrice.value,
                        IntOr(f.minStock, 5), if f.category == "" then "General" else f.category))
  }

  /** `handleAddComponent`: a refused form changes nothing; an accepted one appends one
      component, raises the stock value by its worth, and clears the form. */
  method HandleAddComponent(store: FinanceStore, f: ComponentForm, id: string)
    returns (accepted: bool, next: ComponentForm)
    modifies store`components
    ensures accepted <==> ComponentFromForm(f).Some?
    ensures !accepted ==> store.components == old(store.components) && next == f
    ensures accepted ==> store.components == old(store.components) + [ComponentFromForm(f).value.(id := id)]
    ensures accepted ==> next == BlankComponentForm
    ensures accepted ==> (StockValue(store.components) == StockValue(old(store.components))
                          + ComponentFromForm(f).value.quantity as real * ComponentFromForm(f).value.unitPrice)
  {
    var c := ComponentFromForm(f);
    if c.None? {
      return false, f;
    }
    store.AddComponent(c.value, id);
    StockValueAppend(old(store.components), c.value.(id := id));
    return true, BlankComponentForm;
  }

  /** How numbers turn into CSV text: `String(n)` and `n.toFixed(2)`. */
  datatype Formatter = Formatter(plain: real -> string, fixed2: real -> string)

  /** Formatted numbers never contain a comma or a line break. */
  ghost predicate CleanFormatter(fmt: Formatter)
  {
    (forall x :: ',' !in fmt.plain(x) && '\n' !in fmt.plain(x))
    && (forall x :: ',' !in fmt.fixed2(x) && '\n' !in fmt.fixed2(x))
  }

  /** A component's total value, `quantity * unitPrice`. */
  function Worth(c: Component): real
  {
    c.quantity as real * c.unitPrice
  }

  const CsvHeader: seq<string> :=
    ["Name", "Category", "Quantity", "Unit Price", "Total Value", "Min Stock", "Status"]

  /** One component's cells, in header order. Name and category are not escaped. */
  function CsvCells(c: Component, fmt: Formatter): (r: seq<string>)
    ensures |r| == |CsvHeader| == 7
    ensures r[0] == c.name && r[1] == c.category && r[6] == CsvStatus(c)
    ensures r[2] == fmt.plain(c.quantity as real) && r[3] == fmt.fixed2(c.unitPrice)
    ensures r[4] == fmt.fixed2(Worth(c)) && r[5] == fmt.plain(c.minStock as real)
  {
    [c.name, c.category, fmt.plain(c.quantity as real), fmt.fixed2(c.unitPrice),
     fmt.fixed2(Worth(c)), fmt.plain(c.minStock as real), CsvStatus(c)]
  }

  /** The exported lines: the header, then one line per component in list order. */
  function CsvLines(cs: seq<Component>, fmt: Formatter): (r: seq<string>)
    ensures |r| == |cs| + 1
    ensures r[0] == Join(CsvHeader, ',')
    ensures forall i :: 0 <= i < |cs| ==> r[i + 1] == Join(CsvCells(cs[i], fmt), ',')
  {
    [Join(CsvHeader, ',')] + seq(|cs|, i requires 0 <= i < |cs| => Join(CsvCells(cs[i], fmt), ','))
  }

  /** `exportInventory`'s file content. */
  function InventoryCsv(cs: seq<Component>, fmt: Formatter): string
  {
    Join(CsvLines(cs, fmt), '\n')
  }

  /** A component's line reads back as exactly seven fields iff neither its name nor its
      category contains a comma; then the fields are its cells. */
  lemma CsvRowFields(c: Component, fmt: Formatter)
    requires CleanFormatter(fmt)
    ensures |Split(Join(CsvCells(c, fmt), ','), ',')| == 7 <==> (',' !in c.name && ',' !in c.category)
    ensures ',' !in c.name && ',' !in c.category ==> Split(Join(CsvCells(c, fmt), ','), ',') == CsvCells(c, fmt)
  {
    var cells := CsvCells(c, fmt);
    FieldCount(cells, ',');
    CountAllZero(cells, ',');
    assert cells[2] == fmt.plain(c.quantity as real) && cells[3] == fmt.fixed2(c.unitPrice);
    assert cells[4] == fmt.fixed2(Worth(c));
    assert cells[5] == fmt.plain(c.minStock as real);
    if ',' !in c.name && ',' !in c.category {
      SplitJoin(cells, ',');
    }
  }

  /** A component's cells hold no line break when its name and category hold none. */
  lemma CsvCellsUnbroken(c: Component, fmt: Formatter)
    requires CleanFormatter(fmt)
    requires '\n' !in c.name && '\n' !in c.category
    ensures forall j :: 0 <= j < 7 ==> '\n' !in CsvCells(c, fmt)[j]
  {
    var cells := CsvCells(c, fmt);
    assert cells[2] == fmt.plain(c.quantity as real) && cells[3] == fmt.fixed2(c.unitPrice);
    assert cells[4] == fmt.fixed2(Worth(c));
    assert cells[5] == fmt.plain(c.minStock as real);
  }

  /** When no name or category holds a line break, the file splits back into the header
      line followed by one line per component. */
  lemma CsvFileLines(cs: seq<Component>, fmt: Formatter)
    requires CleanFormatter(fmt)
    requires forall i :: 0 <= i < |cs| ==> '\n' !in cs[i].name && '\n' !in cs[i].category
    ensures Split(InventoryCsv(cs, fmt), '\n') == CsvLines(cs, fmt)
  {
    var lines := CsvLines(cs, fmt);
    NoDelimiterJoin(CsvHeader, ',', '\n');
    forall i | 1 <= i < |lines| ensures '\n' !in lines[i] {
      CsvCellsUnbroken(cs[i - 1], fmt);
      NoDelimiterJoin(CsvCells(cs[i - 1], fmt), ',', '\n');
    }
    SplitJoin(lines, '\n');
  }

  /** Joining with one character adds no occurrence of another. */
  lemma {:induction false} NoDelimiterJoin(xs: seq<string>, d: char, e: char)
    requires d != e
    requires forall i :: 0 <= i < |xs| ==> e !in xs[i]
    ensures e !in Join(xs, d)
  {
    if |xs| > 1 {
      NoDelimiterJoin(xs[1..], d, e);
    }
  }
}
