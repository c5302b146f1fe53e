/** The two reporting queries over `payments`: `/admin-stats` (counts and the revenue
    `$group`) and `/order-stats` (`$unwind`, `$lookup`, `$unwind`, `$group` by category). */
module Analytics {
  import opened Documents

  /** Some payment of a non-empty collection. The store's natural order is not modelled,
      so folds over a collection are proved not to depend on this choice. */
  ghost function PickPayment(payments: map<Key, Payment>): (k: Key)
    requires payments != map[]
    ensures k in payments
  {
    var k :| k in payments; k
  }

  // ---------------------------------------------------------------- /admin-stats

  /** The `$sum` of `price` over all payments: 0 for none, and never negative when no
      price is. */
  ghost function Revenue(payments: map<Key, Payment>): (r: real)
    ensures payments == map[] ==> r == 0.0
    ensures (forall k :: k in payments ==> payments[k].price >= 0.0) ==> r >= 0.0
    decreases |payments|
  {
    if payments == map[] then 0.0
    else
      var k := PickPayment(payments);
      payments[k].price + Revenue(payments - {k})
  }

  /** The revenue sum does not depend on the order of the payments: any one of them can be
      taken out first. */
  lemma {:induction false} RevenueRemove(payments: map<Key, Payment>, k: Key)
    requires k in payments
    ensures Revenue(payments) == payments[k].price + Revenue(payments - {k})
    decreases |payments|
  {
    var j := PickPayment(payments);
    if j != k {
      RevenueRemove(payments - {j}, k);
      RevenueRemove(payments - {k}, j);
      assert payments - {j} - {k} == payments - {k} - {j};
    }
  }

  /** Recording one more payment raises the revenue by exactly its price. */
  lemma RevenueInsert(payments: map<Key, Payment>, k: Key, p: Payment)
    requires k !in payments
    ensures Revenue(payments[k := p]) == Revenue(payments) + p.price
  {
    RevenueRemove(payments[k := p], k);
    assert payments[k := p] - {k} == payments;
  }

  /** Three payments priced 10, 20 and 5 bring in 35. */
  lemma RevenueExample(a: Key, b: Key, c: Key, pa: Payment, pb: Payment, pc: Payment)
    requires a != b && b != c && a != c
    requires pa.price == 10.0 && pb.price == 20.0 && pc.price == 5.0
    ensures Revenue(map[a := pa, b := pb, c := pc]) == 35.0
  {
    var m0: map<Key, Payment> := map[];
    assert Revenue(m0) == 0.0;
    RevenueInsert(m0, a, pa);
    RevenueInsert(m0[a := pa], b, pb);
    RevenueInsert(m0[a := pa][b := pb], c, pc);
    assert m0[a := pa][b := pb][c := pc] == map[a := pa, b := pb, c := pc];
  }

  /** The response of `/admin-stats`. */
  datatype AdminStats = AdminStats(users: nat, menuItems: nat, orders: nat, revenue: real)

  /** The revenue `$group` with `_id: null`: no output document for an empty collection,
      one holding the sum otherwise. */
  ghost function RevenueGroup(payments: map<Key, Payment>): (docs: seq<real>)
    ensures |docs| <= 1
    ensures |docs| == 0 <==> payments == map[]
  {
    if |payments| > 0 then [Revenue(payments)] else []
  }

  /** `/admin-stats`: the document counts (taken as exact) and the revenue, 0 when there
      is no payment. */
  ghost function Stats(users: map<Key, User>, menu: map<Key, MenuItem>, payments: map<Key, Payment>): (r: AdminStats)
    ensures r.users == |users| && r.menuItems == |menu| && r.orders == |payments|
    ensures r.revenue == Revenue(payments)
  {
    var docs := RevenueGroup(payments);
    AdminStats(|users|, |menu|, |payments|, if |docs| > 0 then docs[0] else 0.0)
  }

  // ---------------------------------------------------------------- /order-stats

  /** The `_id` a `menuItemIds` entry is compared with by `$lookup`: the entries are the
      strings the client posted, so they match only string `_id`s. */
  function LookupKey(id: string): (k: Key)
    ensures k.Text? && k.s == id
    ensures forall hex :: k != ObjectId(hex)
  {
    Text(id)
  }

  /** One payment's `$unwind` + `$lookup` + `$unwind`: the menu item each id resolves to,
      in order, with the ids that match nothing dropped. */
  function Joined(menu: map<Key, MenuItem>, ids: seq<string>): (items: seq<MenuItem>)
    ensures |items| <= |ids|
    ensures (forall i :: 0 <= i < |ids| ==> LookupKey(ids[i]) in menu) ==> |items| == |ids|
    ensures (forall i :: 0 <= i < |ids| ==> LookupKey(ids[i]) !in menu) ==> items == []
    ensures forall i :: 0 <= i < |items| ==> items[i] in menu.Values
    decreases |ids|
  {
    if ids == [] then []
    else
      var rest := Joined(menu, ids[1..]);
      assert forall i :: 1 <= i < |ids| ==> ids[1..][i - 1] == ids[i];
      if LookupKey(ids[0]) in menu then [menu[LookupKey(ids[0])]] + rest else rest
  }

  /** The join of a single id: the menu item stored under that id as a string `_id`, or
      nothing. */
  lemma JoinedOne(menu: map<Key, MenuItem>, id: string)
    ensures Joined(menu, [id]) == if LookupKey(id) in menu then [menu[LookupKey(id)]] else []
  {
    assert [id][1..] == [];
  }

  /** The join works id by id: joining two runs of ids is joining each and concatenating. */
  lemma {:induction false} JoinedAppend(menu: map<Key, MenuItem>, a: seq<string>, b: seq<string>)
    ensures Joined(menu, a + b) == Joined(menu, a) + Joined(menu, b)
    decreases |a|
  {
    if a == [] {
      assert a + b == b;
    } else {
      JoinedAppend(menu, a[1..], b);
      assert (a + b)[1..] == a[1..] + b;
    }
  }

  /** The line items of all payments after the join, one per matched id: none without
      payments. */
  ghost function Lines(payments: map<Key, Payment>, menu: map<Key, MenuItem>): (lines: seq<MenuItem>)
    ensures payments == map[] ==> lines == []
    decreases |payments|
  {
    if payments == map[] then []
    else
      var k := PickPayment(payments);
      Joined(menu, payments[k].menuItemIds) + Lines(payments - {k}, menu)
  }

  /** The number of line items of category `c`. */
  function Count(items: seq<MenuItem>, c: string): nat
    decreases |items|
  {
    if items == [] then 0
    else (if items[0].category == c then 1 else 0) + Count(items[1..], c)
  }

  /** The summed price of the line items of category `c`. */
  function CategoryRevenue(items: seq<MenuItem>, c: string): real
    decreases |items|
  {
    if items == [] then 0.0
    else (if items[0].category == c then items[0].price else 0.0) + CategoryRevenue(items[1..], c)
  }

  /** The summed price of all line items. */
  function SumPrices(items: seq<MenuItem>): real
    decreases |items|
  {
    if items == [] then 0.0 else items[0].price + SumPrices(items[1..])
  }

  /** Every line item is a menu item, so an empty menu leaves no line items. */
  lemma {:induction false} LinesFromMenu(payments: map<Key, Payment>, menu: map<Key, MenuItem>)
    ensures forall i :: 0 <= i < |Lines(payments, menu)| ==> Lines(payments, menu)[i] in menu.Values
    ensures menu == map[] ==> Lines(payments, menu) == []
    decreases |payments|
  {
    if payments != map[] {
      var k := PickPayment(payments);
      LinesFromMenu(payments - {k}, menu);
    }
  }

  /** `whole` holds exactly the line items of `part` and `rest` together, as far as every
      per-category tally and the totals can tell. */
  ghost predicate Splits(whole: seq<MenuItem>, part: seq<MenuItem>, rest: seq<MenuItem>) {
    && |whole| == |part| + |rest|
    && SumPrices(whole) == SumPrices(part) + SumPrices(rest)
    && (forall c :: Count(whole, c) == Count(part, c) + Count(rest, c))
    && (forall c :: CategoryRevenue(whole, c) == CategoryRevenue(part, c) + CategoryRevenue(rest, c))
  }

  lemma {:induction false} SplitsAppend(a: seq<MenuItem>, b: seq<MenuItem>)
    ensures Splits(a + b, a, b)
    decreases |a|
  {
    if a == [] {
      assert a + b == b;
    } else {
      SplitsAppend(a[1..], b);
      assert (a + b)[1..] == a[1..] + b;
    }
  }

  /** The joined line items do not depend on the order of the payments: any payment's
      items can be taken out first. */
  lemma {:induction false} LinesRemove(payments: map<Key, Payment>, menu: map<Key, MenuItem>, k: Key)
    requires k in payments
    ensures Splits(Lines(payments, menu), Joined(menu, payments[k].menuItemIds), Lines(payments - {k}, menu))
    decreases |payments|
  {
    var j := PickPayment(payments);
    var jk := Joined(menu, payments[k].menuItemIds);
    SplitsAppend(Joined(menu, payments[j].menuItemIds), Lines(payments - {j}, menu));
    if j != k {
      var jj := Joined(menu, payments[j].menuItemIds);
      LinesRemove(payments - {j}, menu, k);
      LinesRemove(payments - {k}, menu, j);
      assert payments - {j} - {k} == payments - {k} - {j};
      var both := Lines(payments - {j} - {k}, menu);
      SplitsSwap(Lines(payments, menu), jj, jk, Lines(payments - {j}, menu), Lines(payments - {k}, menu), both);
    }
  }

  /** Taking `first` out of `whole` and then `second`, or `second` and then `first`,
      leaves the same tallies. */
  lemma SplitsSwap(whole: seq<MenuItem>, first: seq<MenuItem>, second: seq<MenuItem>,
                   withoutFirst: seq<MenuItem>, withoutSecond: seq<MenuItem>, both: seq<MenuItem>)
    requires Splits(whole, first, withoutFirst)
    requires Splits(withoutFirst, second, both)
    requires Splits(withoutSecond, first, both)
    ensures Splits(whole, second, withoutSecond)
  {
  }

  /** One output document of the category `$group` (after its `$project`). */
  datatype Row = Row(category: string, quantity: nat, revenue: real)

  /** The categories the rows name. */
  function Categories(rows: seq<Row>): set<string>
    decreases |rows|
  {
    if rows == [] then {} else {rows[0].category} + Categories(rows[1..])
  }

  /** No category is named by two rows. */
  predicate DistinctCategories(rows: seq<Row>)
    decreases |rows|
  {
    rows == [] || (rows[0].category !in Categories(rows[1..]) && DistinctCategories(rows[1..]))
  }

  /** The quantity reported for category `c`, 0 when no row names it. */
  function QuantityOf(rows: seq<Row>, c: string): nat
    decreases |rows|
  {
    if rows == [] then 0
    else if rows[0].category == c then rows[0].quantity
    else QuantityOf(rows[1..], c)
  }

  /** The revenue reported for category `c`, 0 when no row names it. */
  function RevenueOf(rows: seq<Row>, c: string): real
    decreases |rows|
  {
    if rows == [] then 0.0
    else if rows[0].category == c then rows[0].revenue
    else RevenueOf(rows[1..], c)
  }

  function TotalQuantity(rows: seq<Row>): nat
    decreases |rows|
  {
    if rows == [] then 0 else rows[0].quantity + TotalQuantity(rows[1..])
  }

  function TotalRevenue(rows: seq<Row>): real
    decreases |rows|
  {
    if rows == [] then 0.0 else rows[0].revenue + TotalRevenue(rows[1..])
  }

  predicate AllPositive(rows: seq<Row>) {
    forall i :: 0 <= i < |rows| ==> rows[i].quantity >= 1
  }

  /** Distinct categories: each category is named by one row at most. */
  lemma {:induction false} DistinctMeansOnce(rows: seq<Row>, i: nat, j: nat)
    requires DistinctCategories(rows)
    requires i < j < |rows|
    ensures rows[i].category != rows[j].category
    decreases |rows|
  {
    if i == 0 {
      CategoriesHas(rows[1..], j - 1);
    } else {
      DistinctMeansOnce(rows[1..], i - 1, j - 1);
    }
  }

  lemma {:induction false} CategoriesHas(rows: seq<Row>, i: nat)
    requires i < |rows|
    ensures rows[i].category in Categories(rows)
    decreases |rows|
  {
    if i > 0 {
      CategoriesHas(rows[1..], i - 1);
    }
  }

  /** Counting one line item into the group rows: the row of its category gains one
      unit and the item's price, a new row is added when none exists, and no other
      category changes. */
  function AddItem(rows: seq<Row>, item: MenuItem): (r: seq<Row>)
    requires DistinctCategories(rows)
    ensures DistinctCategories(r)
    ensures Categories(r) == Categories(rows) + {item.category}
    ensures forall c :: QuantityOf(r, c) == QuantityOf(rows, c) + (if c == item.category then 1 else 0)
    ensures forall c :: RevenueOf(r, c) == RevenueOf(rows, c) + (if c == item.category then item.price else 0.0)
    ensures AllPositive(rows) ==> AllPositive(r)
    ensures TotalQuantity(r) == TotalQuantity(rows) + 1
    ensures TotalRevenue(r) == TotalRevenue(rows) + item.price
    decreases |rows|
  {
    if rows == [] then
      [Row(item.category, 1, item.price)]
    else if rows[0].category == item.category then
      var r := [rows[0].(quantity := rows[0].quantity + 1, revenue := rows[0].revenue + item.price)] + rows[1..];
      assert r[1..] == rows[1..];
      r
    else
      var r := [rows[0]] + AddItem(rows[1..], item);
      assert r[1..] == AddItem(rows[1..], item);
      assert AllPositive(rows) ==> AllPositive(rows[1..]) by {
        if AllPositive(rows) {
          forall i | 0 <= i < |rows[1..]| ensures rows[1..][i].quantity >= 1 {
            assert rows[1..][i] == rows[i + 1];
          }
        }
      }
      r
  }

  /** The category `$group`: one row per category of the line items, with its line count
      and summed price; the counts and prices of all rows add up to those of the items. */
  function Group(items: seq<MenuItem>): (rows: seq<Row>)
    ensures DistinctCategories(rows)
    ensures AllPositive(rows)
    ensures forall c :: c in Categories(rows) <==> Count(items, c) > 0
    ensures forall c :: QuantityOf(rows, c) == Count(items, c)
    ensures forall c :: RevenueOf(rows, c) == CategoryRevenue(items, c)
    ensures TotalQuantity(rows) == |items|
    ensures TotalRevenue(rows) == SumPrices(items)
    decreases |items|
  {
    if items == [] then []
    else
      var rest := Group(items[1..]);
      var rows := AddItem(rest, items[0]);
      assert forall c :: c in Categories(rows) <==> Count(items, c) > 0 by {
        forall c ensures c in Categories(rows) <==> Count(items, c) > 0 {
          assert c in Categories(rest) <==> Count(items[1..], c) > 0;
        }
      }
      rows
  }

  /** `/order-stats`: the grouped line items of all payments. Each category appears in
      one row at most, its quantity and revenue are those of the matched line items of
      that category, and the rows add up to all matched line items. */
  ghost function OrderStats(payments: map<Key, Payment>, menu: map<Key, MenuItem>): (rows: seq<Row>)
    ensures DistinctCategories(rows)
    ensures forall c :: QuantityOf(rows, c) == Count(Lines(payments, menu), c)
    ensures forall c :: RevenueOf(rows, c) == CategoryRevenue(Lines(payments, menu), c)
    ensures TotalQuantity(rows) == |Lines(payments, menu)|
    ensures TotalRevenue(rows) == SumPrices(Lines(payments, menu))
  {
    Group(Lines(payments, menu))
  }

  /** A new payment adds to each category exactly the line items its own ids resolve to,
      and to the total quantity exactly its matched ids. */
  lemma OrderStatsInsert(payments: map<Key, Payment>, menu: map<Key, MenuItem>, k: Key, p: Payment)
    requires k !in payments
    ensures forall c ::
      QuantityOf(OrderStats(payments[k := p], menu), c) ==
      QuantityOf(OrderStats(payments, menu), c) + Count(Joined(menu, p.menuItemIds), c)
    ensures forall c ::
      RevenueOf(OrderStats(payments[k := p], menu), c) ==
      RevenueOf(OrderStats(payments, menu), c) + CategoryRevenue(Joined(menu, p.menuItemIds), c)
    ensures TotalQuantity(OrderStats(payments[k := p], menu)) ==
      TotalQuantity(OrderStats(payments, menu)) + |Joined(menu, p.menuItemIds)|
  {
    var all := payments[k := p];
    LinesRemove(all, menu, k);
    assert all - {k} == payments;
    assert Splits(Lines(all, menu), Joined(menu, p.menuItemIds), Lines(payments, menu));
  }

  /** Two payments whose ids resolve to three salads (5, 6 and 5) and one soup (8), with
      one id that matches no menu item, give the rows Salad 3/16 and Soup 1/8. */
  lemma OrderStatsExample(
    payments: map<Key, Payment>, menu: map<Key, MenuItem>,
    k1: Key, k2: Key, p1: Payment, p2: Payment,
    salad1: MenuItem, salad2: MenuItem, soup: MenuItem)
    requires k1 != k2
    requires salad1.category == "Salad" && salad1.price == 5.0
    requires salad2.category == "Salad" && salad2.price == 6.0
    requires soup.category == "Soup" && soup.price == 8.0
    requires p1.menuItemIds == ["s1", "s2"] && p2.menuItemIds == ["s1", "soup", "gone"]
    requires menu == map[Text("s1") := salad1, Text("s2") := salad2, Text("soup") := soup]
    requires payments == map[k1 := p1, k2 := p2]
    ensures QuantityOf(OrderStats(payments, menu), "Salad") == 3
    ensures RevenueOf(OrderStats(payments, menu), "Salad") == 16.0
    ensures QuantityOf(OrderStats(payments, menu), "Soup") == 1
    ensures RevenueOf(OrderStats(payments, menu), "Soup") == 8.0
    ensures TotalQuantity(OrderStats(payments, menu)) == 4
  {
    var none: map<Key, Payment> := map[];
    var one := none[k1 := p1];
    assert one[k2 := p2] == payments;
    ExampleJoins(menu, p1, p2, salad1, salad2, soup);
    assert OrderStats(none, menu) == [];
    OrderStatsStep(none, menu, k1, p1, 0, 0.0, 0, 0.0, 0);
    OrderStatsStep(one, menu, k2, p2, 2, 11.0, 0, 0.0, 2);
  }

  /** One payment of the example added to the report. */
  lemma OrderStatsStep(
    payments: map<Key, Payment>, menu: map<Key, MenuItem>, k: Key, p: Payment,
    salads: nat, saladRevenue: real, soups: nat, soupRevenue: real, total: nat)
    requires k !in payments
    requires QuantityOf(OrderStats(payments, menu), "Salad") == salads
    requires RevenueOf(OrderStats(payments, menu), "Salad") == saladRevenue
    requires QuantityOf(OrderStats(payments, menu), "Soup") == soups
    requires RevenueOf(OrderStats(payments, menu), "Soup") == soupRevenue
    requires TotalQuantity(OrderStats(payments, menu)) == total
    ensures var j := Joined(menu, p.menuItemIds);
      var rows := OrderStats(payments[k := p], menu);
      && QuantityOf(rows, "Salad") == salads + Count(j, "Salad")
      && RevenueOf(rows, "Salad") == saladRevenue + CategoryRevenue(j, "Salad")
      && QuantityOf(rows, "Soup") == soups + Count(j, "Soup")
      && RevenueOf(rows, "Soup") == soupRevenue + CategoryRevenue(j, "Soup")
      && TotalQuantity(rows) == total + |j|
  {
    var j := Joined(menu, p.menuItemIds);
    var before, after := OrderStats(payments, menu), OrderStats(payments[k := p], menu);
    OrderStatsInsert(payments, menu, k, p);
    assert QuantityOf(after, "Salad") == QuantityOf(before, "Salad") + Count(j, "Salad");
    assert QuantityOf(after, "Soup") == QuantityOf(before, "Soup") + Count(j, "Soup");
    assert RevenueOf(after, "Salad") == RevenueOf(before, "Salad") + CategoryRevenue(j, "Salad");
    assert RevenueOf(after, "Soup") == RevenueOf(before, "Soup") + CategoryRevenue(j, "Soup");
  }

  lemma ExampleJoins(
    menu: map<Key, MenuItem>, p1: Payment, p2: Payment,
    salad1: MenuItem, salad2: MenuItem, soup: MenuItem)
    requires menu == map[Text("s1") := salad1, Text("s2") := salad2, Text("soup") := soup]
    requires salad1.category == "Salad" && salad1.price == 5.0
    requires salad2.category == "Salad" && salad2.price == 6.0
    requires soup.category == "Soup" && soup.price == 8.0
    requires p1.menuItemIds == ["s1", "s2"] && p2.menuItemIds == ["s1", "soup", "gone"]
    ensures var j1 := Joined(menu, p1.menuItemIds);
      && |j1| == 2
      && Count(j1, "Salad") == 2 && Count(j1, "Soup") == 0
      && CategoryRevenue(j1, "Salad") == 11.0 && CategoryRevenue(j1, "Soup") == 0.0
    ensures var j2 := Joined(menu, p2.menuItemIds);
      && |j2| == 2
      && Count(j2, "Salad") == 1 && Count(j2, "Soup") == 1
      && CategoryRevenue(j2, "Salad") == 5.0 && CategoryRevenue(j2, "Soup") == 8.0
  {
    assert "s1" != "s2" by { assert "s1"[1] != "s2"[1]; }
    assert "Salad" != "Soup" by { assert "Salad"[1] != "Soup"[1]; }
    assert "gone" != "soup" by { assert "gone"[0] != "soup"[0]; }
    assert menu[LookupKey("s1")] == salad1 && menu[LookupKey("s2")] == salad2;
    assert menu[LookupKey("soup")] == soup && LookupKey("gone") !in menu;
    var j1, j2 := Joined(menu, p1.menuItemIds), Joined(menu, p2.menuItemIds);
    assert j1 == [salad1, salad2] by {
      assert p1.menuItemIds[1..] == ["s2"] && ["s2"][1..] == [];
      assert Joined(menu, ["s2"]) == [salad2];
    }
    assert j2 == [salad1, soup] by {
      assert p2.menuItemIds[1..] == ["soup", "gone"];
      assert ["soup", "gone"][1..] == ["gone"] && ["gone"][1..] == [];
      assert Joined(menu, ["gone"]) == [];
      assert Joined(menu, ["soup", "gone"]) == [soup];
    }
    assert [salad1, salad2][1..] == [salad2] && [salad2][1..] == [];
    assert [salad1, soup][1..] == [soup] && [soup][1..] == [];
    var empty: seq<MenuItem> := [];
    assert CategoryRevenue(empty, "Soup") == 0.0 && CategoryRevenue(empty, "Salad") == 0.0;
    assert Count([salad2], "Salad") == 1 && Count([salad2], "Soup") == 0;
    assert CategoryRevenue([salad2], "Salad") == 6.0 && CategoryRevenue([salad2], "Soup") == 0.0;
    assert Count([salad1, salad2], "Salad") == 2 && Count([salad1, salad2], "Soup") == 0;
    assert CategoryRevenue([salad1, salad2], "Salad") == 11.0;
    assert CategoryRevenue([salad1, salad2], "Soup") == 0.0;
    assert CategoryRevenue([soup], "Soup") == 8.0;
  }
}
