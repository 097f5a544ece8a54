/** Profit analytics: one pass over the orders fills the totals and four keyed
    tables at once; the top-products report repeats the pass for one table.

    Money is integer pence before display rounding; margins are exact reals. A
    keyed table is the JavaScript object it is in the source, in insertion order:
    a key that every object inherits looks present from the start, so nothing is
    ever filed under it. */
module Analytics {
  import opened Wrappers
  import Sorting = StableSort

  /** The property names every JavaScript object inherits. */
  const INHERITED := {"constructor", "hasOwnProperty", "isPrototypeOf", "propertyIsEnumerable", "toLocaleString",
                      "toString", "valueOf", "__proto__", "__defineGetter__", "__defineSetter__",
                      "__lookupGetter__", "__lookupSetter__"}

  predicate IsInherited(key: string) {
    key in INHERITED
  }

  /** Document ids and month labels, which are never such names. */
  type Label = s: string | !IsInherited(s) witness ""

  datatype Variant = Variant(id: string, purchasePrice: Option<int>)

  datatype Product = Product(id: Label, category: string, specialist: Option<Label>,
                             variants: seq<Variant>, purchasePrice: Option<int>)

  datatype Item = Item(product: Option<Product>, variantId: Option<string>, price: int,
                       purchasePrice: Option<int>, quantity: int)

  datatype Order = Order(month: Label, items: seq<Item>)

  /** One order item that still has its product, priced and keyed. */
  datatype Line = Line(product: Label, category: string, month: Label, specialist: Label,
                       revenue: int, cost: int, quantity: int)

  datatype Bucket = Bucket(key: string, revenue: int, cost: int, profit: int, quantity: int, margin: real)

  datatype Totals = Totals(revenue: int, cost: int, profit: int, items: int)

  datatype Report = Report(totals: Totals, products: seq<Bucket>, categories: seq<Bucket>,
                           months: seq<Bucket>, specialists: seq<Bucket>)

  // ----------------------------------------------------------------- pricing

  /** A missing price and a zero price are both "not set". */
  function OrZero(price: Option<int>): int {
    if price.Some? then price.value else 0
  }

  function FindVariant(variants: seq<Variant>, id: Option<string>): Option<Variant> {
    if variants == [] then None
    else if id == Some(variants[0].id) then Some(variants[0])
    else FindVariant(variants[1..], id)
  }

  function PurchasePrice(item: Item, product: Product): int {
    if OrZero(item.purchasePrice) != 0 then OrZero(item.purchasePrice)
    else if |product.variants| > 0 then
      var variant := FindVariant(product.variants, item.variantId);
      if variant.Some? then OrZero(variant.value.purchasePrice) else 0
    else OrZero(product.purchasePrice)
  }

  function LineOf(month: Label, item: Item, product: Product): Line {
    Line(product.id,
         if product.category == [] then "Uncategorized" else product.category,
         month,
         if product.specialist.Some? then product.specialist.value else "platform",
         item.price * item.quantity,
         PurchasePrice(item, product) * item.quantity,
         item.quantity)
  }

  function ItemLines(month: Label, items: seq<Item>): seq<Line> {
    if items == [] then []
    else
      var item := items[|items| - 1];
      ItemLines(month, items[..|items| - 1]) +
      if item.product.None? then [] else [LineOf(month, item, item.product.value)]
  }

  function Lines(orders: seq<Order>): seq<Line> {
    if orders == [] then []
    else
      var order := orders[|orders| - 1];
      Lines(orders[..|orders| - 1]) + ItemLines(order.month, order.items)
  }

  // ----------------------------------------------------- items and their lines

  /** Position i holds the first variant with the id the item names. */
  ghost predicate IsTheVariant(variants: seq<Variant>, id: Option<string>, i: nat) {
    && i < |variants| && id == Some(variants[i].id)
    && forall j :: 0 <= j < i ==> id != Some(variants[j].id)
  }

  lemma {:induction false} FindVariantFinds(variants: seq<Variant>, id: Option<string>, i: nat)
    requires IsTheVariant(variants, id, i)
    ensures FindVariant(variants, id) == Some(variants[i])
  {
    if i > 0 {
      FindVariantFinds(variants[1..], id, i - 1);
    }
  }

  lemma {:induction false} FindVariantFindsNone(variants: seq<Variant>, id: Option<string>)
    requires forall i :: 0 <= i < |variants| ==> id != Some(variants[i].id)
    ensures FindVariant(variants, id) == None
  {
    if variants != [] {
      FindVariantFindsNone(variants[1..], id);
    }
  }

  /** The unit cost, by cases: the item's own price when it is set; else, for a
      product with variants, that of the variant the item names, if there is one and
      it has one; else the product's. A price that is missing or zero is not set. */
  lemma UnitCostByCases(item: Item, product: Product, i: nat)
    ensures var cost := PurchasePrice(item, product);
            var own := item.purchasePrice.Some? && item.purchasePrice.value != 0;
            && (own ==> Some(cost) == item.purchasePrice)
            && (!own && IsTheVariant(product.variants, item.variantId, i) ==>
                  Some(cost) == product.variants[i].purchasePrice
                  || (product.variants[i].purchasePrice == None && cost == 0))
            && (!own && product.variants != []
                && (forall j :: 0 <= j < |product.variants| ==> item.variantId != Some(product.variants[j].id)) ==>
                  cost == 0)
            && (!own && product.variants == [] ==>
                  Some(cost) == product.purchasePrice || (product.purchasePrice == None && cost == 0))
  {
    if IsTheVariant(product.variants, item.variantId, i) {
      FindVariantFinds(product.variants, item.variantId, i);
    } else if forall j :: 0 <= j < |product.variants| ==> item.variantId != Some(product.variants[j].id) {
      FindVariantFindsNone(product.variants, item.variantId);
    }
  }

  /** What the items that still have a product were sold for, and cost, and how many
      they were. */
  function Sold(items: seq<Item>): Totals {
    if items == [] then Totals(0, 0, 0, 0)
    else
      var t, item := Sold(items[1..]), items[0];
      if item.product.None? then t
      else
        var revenue, cost := item.price * item.quantity, PurchasePrice(item, item.product.value) * item.quantity;
        Totals(t.revenue + revenue, t.cost + cost, t.profit + (revenue - cost), t.items + item.quantity)
  }

  function AllItems(orders: seq<Order>): seq<Item> {
    if orders == [] then [] else AllItems(orders[..|orders| - 1]) + orders[|orders| - 1].items
  }

  function Plus(t: Totals, u: Totals): Totals {
    Totals(t.revenue + u.revenue, t.cost + u.cost, t.profit + u.profit, t.items + u.items)
  }

  lemma {:induction false} SoldJoins(xs: seq<Item>, ys: seq<Item>)
    ensures Sold(xs + ys) == Plus(Sold(xs), Sold(ys))
  {
    if xs == [] {
      assert xs + ys == ys;
    } else {
      assert (xs + ys)[1..] == xs[1..] + ys;
      SoldJoins(xs[1..], ys);
    }
  }

  lemma {:induction false} TotalsJoin(xs: seq<Line>, ys: seq<Line>)
    ensures TotalsOf(xs + ys) == Plus(TotalsOf(xs), TotalsOf(ys))
  {
    if ys == [] {
      assert xs + ys == xs;
    } else {
      assert (xs + ys)[..|xs + ys| - 1] == xs + ys[..|ys| - 1];
      TotalsJoin(xs, ys[..|ys| - 1]);
    }
  }

  /** The line of an item that still has its product. */
  function OwnLine(month: Label, item: Item): seq<Line> {
    if item.product.None? then [] else [LineOf(month, item, item.product.value)]
  }

  lemma OneLineTotal(month: Label, item: Item)
    ensures TotalsOf(OwnLine(month, item)) == Sold([item])
  {
  }

  lemma ItemLinesGrow(month: Label, before: seq<Item>, item: Item)
    ensures ItemLines(month, before + [item]) == ItemLines(month, before) + OwnLine(month, item)
  {
  }

  lemma ItemLinesStep(month: Label, before: seq<Item>, item: Item)
    requires TotalsOf(ItemLines(month, before)) == Sold(before)
    ensures TotalsOf(ItemLines(month, before + [item])) == Sold(before + [item])
  {
    var lines, own := ItemLines(month, before), OwnLine(month, item);
    ItemLinesGrow(month, before, item);
    TotalsJoin(lines, own);
    OneLineTotal(month, item);
    SoldJoins(before, [item]);
  }

  lemma {:induction false} ItemLinesTotal(month: Label, items: seq<Item>)
    ensures TotalsOf(ItemLines(month, items)) == Sold(items)
  {
    if items != [] {
      ItemLinesTotal(month, items[..|items| - 1]);
      ItemLinesStep(month, items[..|items| - 1], items[|items| - 1]);
      assert items == items[..|items| - 1] + [items[|items| - 1]];
    }
  }

  lemma {:induction false} LineTotalsAreOfTheItemsSold(orders: seq<Order>)
    ensures TotalsOf(Lines(orders)) == Sold(AllItems(orders))
  {
    if orders != [] {
      var before, order := orders[..|orders| - 1], orders[|orders| - 1];
      LineTotalsAreOfTheItemsSold(before);
      ItemLinesTotal(order.month, order.items);
      TotalsJoin(Lines(before), ItemLines(order.month, order.items));
      SoldJoins(AllItems(before), order.items);
    }
  }

  /** The overall totals are those of the items sold: revenue is the sum of price
      times quantity, and cost of unit cost times quantity, over the items that still
      have a product. */
  lemma {:induction false} TotalsAreOfTheItemsSold(orders: seq<Order>)
    ensures ReportOf(Lines(orders)).totals == Sold(AllItems(orders))
  {
    LineTotalsAreOfTheItemsSold(orders);
  }

  /** Under which key each table files an item, and with what amounts. */
  lemma LineInFields(month: Label, item: Item, product: Product)
    ensures var line := LineOf(month, item, product);
            && line.product == product.id && line.month == month
            && (if product.category == [] then line.category == "Uncategorized" else line.category == product.category)
            && (if product.specialist.None? then line.specialist == "platform"
                else line.specialist == product.specialist.value)
            && line.revenue == item.price * item.quantity
            && line.cost == PurchasePrice(item, product) * item.quantity
            && line.quantity == item.quantity
            && ByProduct(line) == line.product && ByCategory(line) == line.category
            && ByMonth(line) == line.month && BySpecialist(line) == line.specialist
  {
  }

  lemma {:induction false} AddingTwiceAddsTheSum(table: seq<Bucket>, key: string, l: Line, m: Line)
    ensures Add(Add(table, key, l.revenue, l.cost, l.quantity), key, m.revenue, m.cost, m.quantity)
         == Add(table, key, l.revenue + m.revenue, l.cost + m.cost, l.quantity + m.quantity)
    ensures Add(Add(table, key, l.revenue, l.cost, 0), key, m.revenue, m.cost, 0)
         == Add(table, key, l.revenue + m.revenue, l.cost + m.cost, 0)
  {
    if table != [] && table[0].key != key {
      AddingTwiceAddsTheSum(table[1..], key, l, m);
    }
  }

  lemma FilingTwiceFilesTheSum(table: seq<Bucket>, key: string, l: Line, m: Line)
    ensures File(File(table, key, l.revenue, l.cost, l.quantity), key, m.revenue, m.cost, m.quantity)
         == File(table, key, l.revenue + m.revenue, l.cost + m.cost, l.quantity + m.quantity)
    ensures File(File(table, key, l.revenue, l.cost, 0), key, m.revenue, m.cost, 0)
         == File(table, key, l.revenue + m.revenue, l.cost + m.cost, 0)
  {
    AddingTwiceAddsTheSum(table, key, l, m);
  }

  /** The line with another's amounts added to its own. */
  function Merged(l: Line, m: Line): Line {
    l.(revenue := l.revenue + m.revenue, cost := l.cost + m.cost, quantity := l.quantity + m.quantity)
  }

  lemma RecordingTwiceRecordsTheSum(r: Report, l: Line, m: Line)
    requires l.product == m.product && l.category == m.category && l.month == m.month && l.specialist == m.specialist
    ensures Recorded(Recorded(r, l), m) == Recorded(r, Merged(l, m))
  {
    var twice, once := Recorded(Recorded(r, l), m), Recorded(r, Merged(l, m));
    assert twice.products == once.products by {
      FilingTwiceFilesTheSum(r.products, l.product, l, m);
    }
    assert twice.categories == once.categories by {
      FilingTwiceFilesTheSum(r.categories, l.category, l, m);
    }
    assert twice.months == once.months by {
      FilingTwiceFilesTheSum(r.months, l.month, l, m);
    }
    assert twice.specialists == once.specialists by {
      FilingTwiceFilesTheSum(r.specialists, l.specialist, l, m);
    }
  }

  lemma LinesMerge(month: Label, item: Item, product: Product, m: int, n: int)
    requires item.quantity == m + n
    ensures var l, k := LineOf(month, item.(quantity := m), product), LineOf(month, item.(quantity := n), product);
            && l.product == k.product && l.category == k.category && l.month == k.month && l.specialist == k.specialist
            && LineOf(month, item, product) == Merged(l, k)
  {
  }

  /** An item of quantity m + n reports as two items of m and of n do, in the totals
      and in every table, whatever the report was before. */
  lemma QuantitiesAdd(r: Report, month: Label, item: Item, product: Product, m: int, n: int)
    requires item.quantity == m + n
    ensures Recorded(r, LineOf(month, item, product)) ==
            Recorded(Recorded(r, LineOf(month, item.(quantity := m), product)),
                     LineOf(month, item.(quantity := n), product))
  {
    LinesMerge(month, item, product, m, n);
    RecordingTwiceRecordsTheSum(r, LineOf(month, item.(quantity := m), product),
                                LineOf(month, item.(quantity := n), product));
  }

  // ------------------------------------------------------------ keyed tables

  function Margin(revenue: int, cost: int): real {
    if revenue > 0 then (revenue - cost) as real / revenue as real * 100.0 else 0.0
  }

  function Grown(b: Bucket, revenue: int, cost: int, quantity: int): Bucket {
    Bucket(b.key, b.revenue + revenue, b.cost + cost, b.profit + (revenue - cost), b.quantity + quantity,
           Margin(b.revenue + revenue, b.cost + cost))
  }

  function Empty(key: string): Bucket {
    Bucket(key, 0, 0, 0, 0, 0.0)
  }

  /** The table with one line's amounts added under its key. */
  function Add(table: seq<Bucket>, key: string, revenue: int, cost: int, quantity: int): seq<Bucket> {
    if table == [] then [Grown(Empty(key), revenue, cost, quantity)]
    else if table[0].key == key then [Grown(table[0], revenue, cost, quantity)] + table[1..]
    else [table[0]] + Add(table[1..], key, revenue, cost, quantity)
  }

  /** One line reaching the table: filed, unless its key is inherited. */
  function File(table: seq<Bucket>, key: string, revenue: int, cost: int, quantity: int): seq<Bucket> {
    if IsInherited(key) then table else Add(table, key, revenue, cost, quantity)
  }

  /** The table the loop builds for one way of keying and counting lines. */
  function Group(lines: seq<Line>, key: Line -> string, count: Line -> int): seq<Bucket> {
    if lines == [] then []
    else
      var line := lines[|lines| - 1];
      File(Group(lines[..|lines| - 1], key, count), key(line), line.revenue, line.cost, count(line))
  }

  function ByProduct(l: Line): string { l.product }
  function ByCategory(l: Line): string { l.category }
  function ByMonth(l: Line): string { l.month }
  function BySpecialist(l: Line): string { l.specialist }
  function Quantity(l: Line): int { l.quantity }
  function Uncounted(l: Line): int { 0 }

  function TotalsOf(lines: seq<Line>): Totals {
    if lines == [] then Totals(0, 0, 0, 0)
    else
      var t, line := TotalsOf(lines[..|lines| - 1]), lines[|lines| - 1];
      Totals(t.revenue + line.revenue, t.cost + line.cost, t.profit + (line.revenue - line.cost),
             t.items + line.quantity)
  }

  function ReportOf(lines: seq<Line>): Report {
    Report(TotalsOf(lines), Group(lines, ByProduct, Quantity), Group(lines, ByCategory, Quantity),
           Group(lines, ByMonth, Uncounted), Group(lines, BySpecialist, Quantity))
  }

  // ------------------------------------------------------------ conservation

  /** The sum of a table's buckets. */
  function SumOf(table: seq<Bucket>): Totals {
    if table == [] then Totals(0, 0, 0, 0)
    else
      var t := SumOf(table[1..]);
      Totals(t.revenue + table[0].revenue, t.cost + table[0].cost, t.profit + table[0].profit,
             t.items + table[0].quantity)
  }

  lemma {:induction false} AddAddsToTheSum(table: seq<Bucket>, key: string, revenue: int, cost: int, quantity: int)
    ensures var before, after := SumOf(table), SumOf(Add(table, key, revenue, cost, quantity));
            after == Totals(before.revenue + revenue, before.cost + cost, before.profit + (revenue - cost),
                            before.items + quantity)
  {
    if table != [] {
      AddAddsToTheSum(table[1..], key, revenue, cost, quantity);
      var rest := Add(table[1..], key, revenue, cost, quantity);
      assert ([table[0]] + rest)[1..] == rest;
      assert ([Grown(table[0], revenue, cost, quantity)] + table[1..])[1..] == table[1..];
    }
  }

  /** The lines that a table leaves out. */
  function Lost(lines: seq<Line>, key: Line -> string): seq<Line> {
    if lines == [] then []
    else
      var rest, line := Lost(lines[..|lines| - 1], key), lines[|lines| - 1];
      if IsInherited(key(line)) then rest + [line] else rest
  }

  lemma {:induction false} GroupConserves(lines: seq<Line>, key: Line -> string, count: Line -> int)
    ensures var s, t, lost := SumOf(Group(lines, key, count)), TotalsOf(lines), TotalsOf(Lost(lines, key));
            && s.revenue + lost.revenue == t.revenue
            && s.cost + lost.cost == t.cost
            && s.profit + lost.profit == t.profit
            && s.items + CountAll(Lost(lines, key), count) == CountAll(lines, count)
  {
    if lines != [] {
      var before, line := lines[..|lines| - 1], lines[|lines| - 1];
      GroupConserves(before, key, count);
      AddAddsToTheSum(Group(before, key, count), key(line), line.revenue, line.cost, count(line));
      var rest := Lost(before, key);
      assert (rest + [line])[..|rest|] == rest;
    }
  }

  lemma {:induction false} NothingLost(lines: seq<Line>, key: Line -> string)
    requires forall l :: l in lines ==> !IsInherited(key(l))
    ensures Lost(lines, key) == []
  {
    if lines != [] {
      assert lines[|lines| - 1] in lines;
      NothingLost(lines[..|lines| - 1], key);
    }
  }

  function CountAll(lines: seq<Line>, count: Line -> int): int {
    if lines == [] then 0 else CountAll(lines[..|lines| - 1], count) + count(lines[|lines| - 1])
  }

  lemma {:induction false} CountingQuantities(lines: seq<Line>)
    ensures CountAll(lines, Quantity) == TotalsOf(lines).items
    ensures TotalsOf(lines).profit == TotalsOf(lines).revenue - TotalsOf(lines).cost
  {
    if lines != [] {
      CountingQuantities(lines[..|lines| - 1]);
    }
  }

  function Less(t: Totals, lost: Totals): Totals {
    Totals(t.revenue - lost.revenue, t.cost - lost.cost, t.profit - lost.profit, t.items - lost.items)
  }

  lemma TableConserves(lines: seq<Line>, key: Line -> string)
    ensures SumOf(Group(lines, key, Quantity)) == Less(TotalsOf(lines), TotalsOf(Lost(lines, key)))
  {
    GroupConserves(lines, key, Quantity);
    CountingQuantities(lines);
    CountingQuantities(Lost(lines, key));
  }

  lemma LabelledTableConserves(lines: seq<Line>, key: Line -> string)
    requires forall l :: l in lines ==> !IsInherited(key(l))
    ensures SumOf(Group(lines, key, Quantity)) == TotalsOf(lines)
  {
    TableConserves(lines, key);
    NothingLost(lines, key);
  }

  lemma MonthsConserve(lines: seq<Line>)
    ensures SumOf(Group(lines, ByMonth, Uncounted)) == TotalsOf(lines).(items := 0)
  {
    NothingLost(lines, ByMonth);
    GroupConserves(lines, ByMonth, Uncounted);
    CountingNothing(lines);
    CountingNothing([]);
  }

  /** For every order list, the buckets of products and specialists sum to the
      overall totals, and those of months to the money totals; those of
      categories do together with the lines that table leaves out. */
  lemma {:induction false} AnalyticsConserve(orders: seq<Order>)
    ensures var r := ReportOf(Lines(orders));
            && SumOf(r.products) == r.totals
            && SumOf(r.specialists) == r.totals
            && SumOf(r.months) == r.totals.(items := 0)
            && SumOf(r.categories) == Less(r.totals, TotalsOf(Lost(Lines(orders), ByCategory)))
            && r.totals.profit == r.totals.revenue - r.totals.cost
  {
    var lines := Lines(orders);
    CountingQuantities(lines);
    LabelledTableConserves(lines, ByProduct);
    LabelledTableConserves(lines, BySpecialist);
    MonthsConserve(lines);
    TableConserves(lines, ByCategory);
  }

  lemma {:induction false} CountingNothing(lines: seq<Line>)
    ensures CountAll(lines, Uncounted) == 0
  {
    if lines != [] {
      CountingNothing(lines[..|lines| - 1]);
    }
  }

  /** Categories are conserved when none carries an inherited name. */
  lemma CategoriesConserve(orders: seq<Order>)
    requires forall l :: l in Lines(orders) ==> !IsInherited(l.category)
    ensures SumOf(ReportOf(Lines(orders)).categories) == ReportOf(Lines(orders)).totals
  {
    AnalyticsConserve(orders);
    NothingLost(Lines(orders), ByCategory);
  }

  lemma LineIsLost(line: Line)
    requires IsInherited(line.category)
    ensures TotalsOf([line]).revenue == line.revenue && Group([line], ByCategory, Quantity) == []
  {
  }

  /** A sale in a category named `constructor` is in the totals and in no
      category. */
  lemma {:induction false} InheritedCategoryIsLost(product: Product, price: int)
    requires product.category == "constructor"
    ensures var r := ReportOf(Lines([Order("2024-01", [Item(Some(product), None, price, None, 1)])]));
            r.totals.revenue == price && r.categories == []
  {
    var item := Item(Some(product), None, price, None, 1);
    var line := LineOf("2024-01", item, product);
    var order := Order("2024-01", [item]);
    assert ItemLines("2024-01", [item]) == [line] by {
      assert [item][..0] == [];
    }
    assert Lines([order]) == [line] by {
      assert [order][..0] == [];
    }
    LineIsLost(line);
  }

  // ------------------------------------------------ each bucket is its group

  function OfKey(lines: seq<Line>, key: Line -> string, k: string): seq<Line> {
    if lines == [] then []
    else
      var rest, line := OfKey(lines[..|lines| - 1], key, k), lines[|lines| - 1];
      if key(line) == k then rest + [line] else rest
  }

  function Keys(table: seq<Bucket>): set<string> {
    if table == [] then {} else {table[0].key} + Keys(table[1..])
  }

  predicate DistinctKeys(table: seq<Bucket>) {
    table == [] || (table[0].key !in Keys(table[1..]) && DistinctKeys(table[1..]))
  }

  /** The bucket of a key; an empty one where there is none. */
  function At(table: seq<Bucket>, key: string): Bucket {
    if table == [] then Empty(key) else if table[0].key == key then table[0] else At(table[1..], key)
  }

  lemma {:induction false} MemberIsAt(table: seq<Bucket>, b: Bucket)
    requires DistinctKeys(table) && b in table
    ensures b.key in Keys(table) && At(table, b.key) == b
  {
    if b != table[0] {
      MemberIsAt(table[1..], b);
    }
  }

  lemma {:induction false} AddGrowsOneBucket(table: seq<Bucket>, key: string, revenue: int, cost: int, quantity: int,
                                             k: string)
    requires DistinctKeys(table)
    ensures var after := Add(table, key, revenue, cost, quantity);
            && DistinctKeys(after) && Keys(after) == Keys(table) + {key}
            && At(after, k) == if k == key then Grown(At(table, key), revenue, cost, quantity) else At(table, k)
  {
    if table != [] {
      AddGrowsOneBucket(table[1..], key, revenue, cost, quantity, k);
      var rest := Add(table[1..], key, revenue, cost, quantity);
      assert ([table[0]] + rest)[1..] == rest;
      assert ([Grown(table[0], revenue, cost, quantity)] + table[1..])[1..] == table[1..];
    }
  }

  /** The bucket holding exactly the totals of some lines. */
  function Exactly(lines: seq<Line>, count: Line -> int, k: string): Bucket {
    var t := TotalsOf(lines);
    Bucket(k, t.revenue, t.cost, t.revenue - t.cost, CountAll(lines, count), Margin(t.revenue, t.cost))
  }

  lemma ExactlyGrows(lines: seq<Line>, line: Line, count: Line -> int, k: string)
    ensures Exactly(lines + [line], count, k) == Grown(Exactly(lines, count, k), line.revenue, line.cost, count(line))
  {
  }

  /** A key's bucket holds exactly the totals of the lines with that key, its
      profit is revenue less cost, and its margin is that of its final totals. */
  lemma {:induction false} GroupIsExact(lines: seq<Line>, key: Line -> string, count: Line -> int, k: string)
    ensures var table, own := Group(lines, key, count), OfKey(lines, key, k);
            && DistinctKeys(table)
            && (k in Keys(table) <==> own != [] && !IsInherited(k))
            && (!IsInherited(k) ==> At(table, k) == Exactly(own, count, k))
  {
    if lines != [] {
      var before, line := lines[..|lines| - 1], lines[|lines| - 1];
      GroupIsExact(before, key, count, k);
      AddGrowsOneBucket(Group(before, key, count), key(line), line.revenue, line.cost, count(line), k);
      ExactlyGrows(OfKey(before, key, k), line, count, k);
    }
  }

  ghost predicate Consistent(b: Bucket) {
    && b.profit == b.revenue - b.cost
    && (b.revenue > 0 ==> b.margin * b.revenue as real == 100.0 * b.profit as real)
    && (b.revenue <= 0 ==> b.margin == 0.0)
  }

  lemma MarginIsThePercentage(revenue: int, cost: int)
    ensures revenue > 0 ==> Margin(revenue, cost) * revenue as real == 100.0 * (revenue - cost) as real
    ensures revenue <= 0 ==> Margin(revenue, cost) == 0.0
  {
  }

  /** Every bucket of every table: profit is revenue less cost, and the margin
      kept while adding is the percentage that the final profit is of the final
      revenue. */
  lemma EveryBucketIsConsistent(orders: seq<Order>, b: Bucket)
    requires var r := ReportOf(Lines(orders));
             b in r.products || b in r.categories || b in r.months || b in r.specialists
    ensures Consistent(b)
  {
    var lines := Lines(orders);
    if b in Group(lines, ByProduct, Quantity) {
      BucketIsConsistent(lines, ByProduct, Quantity, b);
    } else if b in Group(lines, ByCategory, Quantity) {
      BucketIsConsistent(lines, ByCategory, Quantity, b);
    } else if b in Group(lines, ByMonth, Uncounted) {
      BucketIsConsistent(lines, ByMonth, Uncounted, b);
    } else {
      BucketIsConsistent(lines, BySpecialist, Quantity, b);
    }
  }

  lemma BucketIsConsistent(lines: seq<Line>, key: Line -> string, count: Line -> int, b: Bucket)
    requires b in Group(lines, key, count)
    ensures Consistent(b)
  {
    MarginIsThePercentage(b.revenue, b.cost);
    GroupIsExact(lines, key, count, b.key);
    MemberIsAt(Group(lines, key, count), b);
  }

  // ------------------------------------------------------------ the handlers

  /** The lines of the first i orders and of j items of the next. */
  ghost function Upto(orders: seq<Order>, i: nat, j: nat): seq<Line>
    requires i < |orders| && j <= |orders[i].items|
  {
    Lines(orders[..i]) + ItemLines(orders[i].month, orders[i].items[..j])
  }

  lemma UptoGrows(orders: seq<Order>, i: nat, j: nat)
    requires i < |orders| && j < |orders[i].items|
    ensures var o := orders[i];
            Upto(orders, i, j + 1) == if o.items[j].product.None? then Upto(orders, i, j)
                                      else Upto(orders, i, j) + [LineOf(o.month, o.items[j], o.items[j].product.value)]
  {
    assert orders[i].items[..j + 1][..j] == orders[i].items[..j];
  }

  lemma UptoSpansOrders(orders: seq<Order>, i: nat)
    requires i < |orders|
    ensures Upto(orders, i, 0) == Lines(orders[..i])
    ensures Upto(orders, i, |orders[i].items|) == Lines(orders[..i + 1])
  {
    assert orders[..i + 1][..i] == orders[..i];
    assert orders[i].items[..|orders[i].items|] == orders[i].items;
  }

  lemma GroupGrows(lines: seq<Line>, line: Line, key: Line -> string, count: Line -> int)
    ensures Group(lines + [line], key, count) ==
            File(Group(lines, key, count), key(line), line.revenue, line.cost, count(line))
  {
  }

  /** The report with one more line in its totals and its four tables. */
  function Recorded(r: Report, line: Line): Report {
    Report(Totals(r.totals.revenue + line.revenue, r.totals.cost + line.cost,
                  r.totals.profit + (line.revenue - line.cost), r.totals.items + line.quantity),
           File(r.products, line.product, line.revenue, line.cost, line.quantity),
           File(r.categories, line.category, line.revenue, line.cost, line.quantity),
           File(r.months, line.month, line.revenue, line.cost, 0),
           File(r.specialists, line.specialist, line.revenue, line.cost, line.quantity))
  }

  lemma ReportGrows(lines: seq<Line>, line: Line)
    ensures ReportOf(lines + [line]) == Recorded(ReportOf(lines), line)
  {
  }

  /** The pass over the orders, with its running totals and its four tables. */
  class ProfitPass {
    var totalRevenue: int
    var totalCost: int
    var totalProfit: int
    var totalItems: int
    var products: seq<Bucket>
    var categories: seq<Bucket>
    var months: seq<Bucket>
    var specialists: seq<Bucket>

    function View(): Report
      reads this
    {
      Report(Totals(totalRevenue, totalCost, totalProfit, totalItems), products, categories, months, specialists)
    }

    constructor ()
      ensures View() == ReportOf([])
    {
      totalRevenue, totalCost, totalProfit, totalItems := 0, 0, 0, 0;
      products, categories, months, specialists := [], [], [], [];
    }

    method AddItem(month: Label, item: Item, product: Product)
      modifies this
      ensures View() == Recorded(old(View()), LineOf(month, item, product))
      ensures totalRevenue == old(totalRevenue) + item.price * item.quantity
      ensures totalCost == old(totalCost) + PurchasePrice(item, product) * item.quantity
      ensures totalItems == old(totalItems) + item.quantity
    {
      var line := LineOf(month, item, product);
      totalRevenue := totalRevenue + line.revenue;
      totalCost := totalCost + line.cost;
      totalProfit := totalProfit + (line.revenue - line.cost);
      totalItems := totalItems + line.quantity;
      products := File(products, line.product, line.revenue, line.cost, line.quantity);
      categories := File(categories, line.category, line.revenue, line.cost, line.quantity);
      months := File(months, line.month, line.revenue, line.cost, 0);
      specialists := File(specialists, line.specialist, line.revenue, line.cost, line.quantity);
    }
  }

  method GetProfitAnalytics(orders: seq<Order>) returns (report: Report)
    ensures report == ReportOf(Lines(orders))
  {
    var pass := new ProfitPass();
    ghost var lines: seq<Line> := [];
    for i := 0 to |orders|
      invariant lines == Lines(orders[..i])
      invariant pass.View() == ReportOf(lines)
    {
      var order := orders[i];
      UptoSpansOrders(orders, i);
      for j := 0 to |order.items|
        invariant lines == Upto(orders, i, j)
        invariant pass.View() == ReportOf(lines)
      {
        UptoGrows(orders, i, j);
        var item := order.items[j];
        if item.product.None? {
          continue;
        }
        pass.AddItem(order.month, item, item.product.value);
        ReportGrows(lines, LineOf(order.month, item, item.product.value));
        lines := lines + [LineOf(order.month, item, item.product.value)];
      }
    }
    assert orders[..|orders|] == orders;
    report := pass.View();
  }

  // ------------------------------------------------------------ top products

  /** The second report keeps no running margin. */
  datatype Stat = Stat(key: string, revenue: int, cost: int, profit: int, quantity: int)

  function AddStat(table: seq<Stat>, key: string, revenue: int, cost: int, quantity: int): seq<Stat> {
    if table == [] then [Stat(key, revenue, cost, revenue - cost, quantity)]
    else if table[0].key == key then
      var s := table[0];
      [Stat(key, s.revenue + revenue, s.cost + cost, s.profit + (revenue - cost), s.quantity + quantity)] + table[1..]
    else [table[0]] + AddStat(table[1..], key, revenue, cost, quantity)
  }

  function WithMargin(s: Stat): Bucket {
    Bucket(s.key, s.revenue, s.cost, s.profit, s.quantity, Margin(s.revenue, s.cost))
  }

  function WithMargins(table: seq<Stat>): (r: seq<Bucket>)
    ensures |r| == |table| && forall i :: 0 <= i < |table| ==> r[i] == WithMargin(table[i])
  {
    if table == [] then [] else [WithMargin(table[0])] + WithMargins(table[1..])
  }

  function StatLoss(s: Stat): int { -s.profit }

  function Loss(b: Bucket): int { -b.profit }

  /** Array.prototype.slice(0, limit). */
  function Prefix<T>(xs: seq<T>, limit: int): (r: seq<T>)
    ensures r <= xs
    ensures |r| == if limit >= |xs| then |xs| else if limit >= 0 then limit
                   else if |xs| + limit >= 0 then |xs| + limit else 0
  {
    var end := if limit >= 0 then limit else |xs| + limit;
    if end <= 0 then [] else if end >= |xs| then xs else xs[..end]
  }

  lemma {:induction false} AddStatMatchesAdd(table: seq<Stat>, key: string, revenue: int, cost: int, quantity: int)
    ensures WithMargins(AddStat(table, key, revenue, cost, quantity))
              == Add(WithMargins(table), key, revenue, cost, quantity)
  {
    if table != [] {
      assert WithMargins(table)[1..] == WithMargins(table[1..]);
      var after := AddStat(table, key, revenue, cost, quantity);
      if table[0].key == key {
        assert after[1..] == table[1..];
      } else {
        AddStatMatchesAdd(table[1..], key, revenue, cost, quantity);
        assert after[1..] == AddStat(table[1..], key, revenue, cost, quantity);
      }
    }
  }

  lemma {:induction false} InsertCommutes(s: Stat, table: seq<Stat>)
    ensures WithMargins(Sorting.Insert(s, table, StatLoss)) == Sorting.Insert(WithMargin(s), WithMargins(table), Loss)
  {
    if table != [] {
      InsertCommutes(s, table[1..]);
      assert WithMargins(table)[1..] == WithMargins(table[1..]);
      var rest := Sorting.Insert(s, table[1..], StatLoss);
      assert ([table[0]] + rest)[1..] == rest;
    }
  }

  lemma {:induction false} SortCommutes(table: seq<Stat>)
    ensures WithMargins(Sorting.SortBy(table, StatLoss)) == Sorting.SortBy(WithMargins(table), Loss)
  {
    if table != [] {
      SortCommutes(table[1..]);
      assert WithMargins(table)[1..] == WithMargins(table[1..]);
      InsertCommutes(table[0], Sorting.SortBy(table[1..], StatLoss));
    }
  }

  lemma PrefixCommutes(table: seq<Stat>, limit: int)
    ensures WithMargins(Prefix(table, limit)) == Prefix(WithMargins(table), limit)
  {
  }

  /** The products table as the profit report presents it. */
  function ProductsByProfit(orders: seq<Order>): seq<Bucket> {
    Sorting.SortBy(ReportOf(Lines(orders)).products, Loss)
  }

  method GetTopProducts(orders: seq<Order>, limit: int) returns (top: seq<Bucket>)
    ensures top == Prefix(ProductsByProfit(orders), limit)
  {
    var stats := ProductStats(orders);
    SortCommutes(stats);
    var sorted := Sorting.SortBy(stats, StatLoss);
    PrefixCommutes(sorted, limit);
    top := WithMargins(Prefix(sorted, limit));
  }

  method ProductStats(orders: seq<Order>) returns (stats: seq<Stat>)
    ensures WithMargins(stats) == ReportOf(Lines(orders)).products
  {
    stats := [];
    ghost var lines: seq<Line> := [];
    for i := 0 to |orders|
      invariant lines == Lines(orders[..i])
      invariant WithMargins(stats) == Group(lines, ByProduct, Quantity)
    {
      var order := orders[i];
      UptoSpansOrders(orders, i);
      for j := 0 to |order.items|
        invariant lines == Upto(orders, i, j)
        invariant WithMargins(stats) == Group(lines, ByProduct, Quantity)
      {
        var item := order.items[j];
        UptoGrows(orders, i, j);
        if item.product.None? {
          continue;
        }
        var line := LineOf(order.month, item, item.product.value);
        GroupGrows(lines, line, ByProduct, Quantity);
        AddStatMatchesAdd(stats, line.product, line.revenue, line.cost, line.quantity);
        stats := AddStat(stats, line.product, line.revenue, line.cost, line.quantity);
        lines := lines + [line];
      }
    }
    assert orders[..|orders|] == orders;
  }

  lemma SortedByProfit(table: seq<Bucket>)
    ensures var sorted := Sorting.SortBy(table, Loss);
            && multiset(sorted) == multiset(table)
            && forall i, j :: 0 <= i < j < |sorted| ==> sorted[i].profit >= sorted[j].profit
  {
    Sorting.SortBySorts(table, Loss);
    var sorted := Sorting.SortBy(table, Loss);
    forall i, j | 0 <= i < j < |sorted| ensures sorted[i].profit >= sorted[j].profit {
      assert Loss(sorted[i]) <= Loss(sorted[j]);
    }
  }

  /** No product left out of the top earns more than one included. */
  lemma {:induction false} NoneLeftOutEarnsMore(orders: seq<Order>, limit: int, b: Bucket, out: Bucket)
    requires var sorted := ProductsByProfit(orders);
             b in Prefix(sorted, limit) && out in sorted[|Prefix(sorted, limit)|..]
    ensures out.profit <= b.profit
  {
    var sorted := ProductsByProfit(orders);
    var top := Prefix(sorted, limit);
    SortedByProfit(ReportOf(Lines(orders)).products);
    var i :| 0 <= i < |top| && top[i] == b;
    var j :| 0 <= j < |sorted| - |top| && sorted[|top|..][j] == out;
    assert sorted[i] == b && sorted[|top| + j] == out;
  }

  /** The top products are the first of a profit-descending permutation of the
      profit report's products, each with the totals of exactly its own lines. */
  lemma {:induction false} TopProductsAreTop(orders: seq<Order>, limit: int, b: Bucket)
    requires b in Prefix(ProductsByProfit(orders), limit)
    ensures var all, lines := ReportOf(Lines(orders)).products, OfKey(Lines(orders), ByProduct, b.key);
            && multiset(ProductsByProfit(orders)) == multiset(all)
            && b in all && lines != []
            && b.revenue == TotalsOf(lines).revenue && b.cost == TotalsOf(lines).cost
            && b.profit == TotalsOf(lines).profit && b.quantity == TotalsOf(lines).items
  {
    var all := ReportOf(Lines(orders)).products;
    SortedByProfit(all);
    assert b in multiset(ProductsByProfit(orders));
    GroupIsExact(Lines(orders), ByProduct, Quantity, b.key);
    MemberIsAt(all, b);
    CountingQuantities(OfKey(Lines(orders), ByProduct, b.key));
  }
}
