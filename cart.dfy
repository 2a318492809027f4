/** The order's line items and what add_item, remove_item and modify_quantity do to them. */
module Cart {
  import opened Base
  import opened Text
  import opened Money
  import opened Menu

  const MaxPerAdd := 10
  const MaxPerType := 20
  const MaxTotalItems := 50
  /** $500.00, in cents. */
  const MaxOrderValue := 50000

  /** One line of the order; prices and totals in cents. */
  datatype LineItem = LineItem(sku: string, name: string, price: int, quantity: int, total: int)

  /** A fresh line for `q` of a menu entry. */
  function LineOf(item: MenuItem, q: int): (l: LineItem)
    ensures l.sku == item.sku && l.name == item.name && l.price == item.price
    ensures l.quantity == q && l.total == item.price * q
  {
    LineItem(item.sku, item.name, item.price, q, item.price * q)
  }

  /** The same line holding `q` units. */
  function WithQuantity(l: LineItem, q: int): (r: LineItem)
    ensures r.sku == l.sku && r.name == l.name && r.price == l.price
    ensures r.quantity == q && r.total == l.price * q
  {
    l.(quantity := q, total := l.price * q)
  }

  /** sum(item["quantity"] for item in items) */
  function SumQuantities(items: seq<LineItem>): int {
    if items == [] then 0 else SumQuantities(items[..|items| - 1]) + items[|items| - 1].quantity
  }

  /** sum(item["total"] for item in items) */
  function Subtotal(items: seq<LineItem>): int {
    if items == [] then 0 else Subtotal(items[..|items| - 1]) + items[|items| - 1].total
  }

  /** calculate_totals: the subtotal, ten percent tax rounded to the cent, and their sum. */
  function Totals(items: seq<LineItem>): (r: (int, int, int))
    ensures r.0 == Subtotal(items)
    ensures -5 <= r.0 - 10 * r.1 <= 5
    ensures r.2 == r.0 + r.1
  {
    var subtotal := Subtotal(items);
    (subtotal, Tax(subtotal), subtotal + Tax(subtotal))
  }

  /** Every line holds at least one unit of a positively priced item, and its total is
      its price times its quantity. */
  predicate WellFormed(items: seq<LineItem>) {
    forall i :: 0 <= i < |items| ==> LineOk(items[i])
  }

  predicate LineOk(l: LineItem) {
    l.price > 0 && l.quantity >= 1 && l.total == l.price * l.quantity
  }

  predicate UniqueSkus(items: seq<LineItem>) {
    forall i, j :: 0 <= i < j < |items| ==> items[i].sku != items[j].sku
  }

  /** With every line holding at least one unit, the order is empty exactly when it
      holds no units, so item_count == 0 and `not items` say the same. */
  lemma {:induction false} EmptyIffNoUnits(items: seq<LineItem>)
    requires WellFormed(items)
    ensures SumQuantities(items) >= |items|
    ensures items == [] <==> SumQuantities(items) == 0
  {
    if items != [] {
      EmptyIffNoUnits(items[..|items| - 1]);
      assert LineOk(items[|items| - 1]);
    }
  }

  function RemoveAt(items: seq<LineItem>, k: nat): (r: seq<LineItem>)
    requires k < |items|
    ensures |r| == |items| - 1
  {
    items[..k] + items[k + 1..]
  }

  /** A line of a menu item: its SKU, name and price are those of some entry. */
  predicate Listed(menu: seq<MenuItem>, l: LineItem) {
    exists m :: m in menu && m.sku == l.sku && m.name == l.name && m.price == l.price
  }

  predicate AllListed(menu: seq<MenuItem>, items: seq<LineItem>) {
    forall i :: 0 <= i < |items| ==> Listed(menu, items[i])
  }

  /** On a menu with one entry per SKU, a line of a menu item has that item's name and
      price when it has its SKU. */
  lemma ListedAgrees(menu: seq<MenuItem>, items: seq<LineItem>, item: MenuItem)
    requires forall i, j :: 0 <= i < j < |menu| ==> menu[i].sku != menu[j].sku
    requires item in menu && AllListed(menu, items)
    ensures forall i :: 0 <= i < |items| && items[i].sku == item.sku ==>
      items[i].price == item.price && items[i].name == item.name
  {
    forall i | 0 <= i < |items| && items[i].sku == item.sku
      ensures items[i].price == item.price && items[i].name == item.name
    {
      var m :| m in menu && m.sku == items[i].sku && m.name == items[i].name && m.price == items[i].price;
      var a :| 0 <= a < |menu| && menu[a] == m;
      var b :| 0 <= b < |menu| && menu[b] == item;
      assert a == b;
    }
  }

  /** Changing a line's quantity, dropping a line or appending a line of a menu item
      keeps every line one of a menu item. */
  lemma ListedKept(menu: seq<MenuItem>, items: seq<LineItem>, k: nat, q: int, item: MenuItem)
    requires AllListed(menu, items) && item in menu
    ensures k < |items| ==> AllListed(menu, items[k := WithQuantity(items[k], q)])
    ensures k < |items| ==> AllListed(menu, RemoveAt(items, k))
    ensures AllListed(menu, items + [LineOf(item, q)])
  {
    if k < |items| {
      var r := RemoveAt(items, k);
      forall i | 0 <= i < |r|
        ensures Listed(menu, r[i])
      {
        if i < k {
          assert r[i] == items[i];
        } else {
          assert r[i] == items[i + 1];
        }
      }
      assert Listed(menu, WithQuantity(items[k], q)) by {
        assert Listed(menu, items[k]);
      }
    }
    var a := items + [LineOf(item, q)];
    forall i | 0 <= i < |a|
      ensures Listed(menu, a[i])
    {
      if i < |items| {
        assert a[i] == items[i];
      }
    }
  }

  // ---------------------------------------------------------------------------
  // Arithmetic.

  lemma Distribute(p: int, a: int, b: int)
    ensures p * (a + b) == p * a + p * b
    ensures p * (a - b) == p * a - p * b
  {
  }

  lemma MulAtLeast(p: int, a: int)
    requires p > 0 && a >= 1
    ensures p <= p * a
  {
  }

  lemma MulMono(p: int, a: int, b: int)
    requires p > 0 && a <= b
    ensures p * a <= p * b
  {
    Distribute(p, b, b - a);
  }

  /** int(room / price): how many units of a price fit in the room left; none exactly
      when the room is less than one unit. */
  lemma FitUnits(room: int, price: int)
    requires price > 0
    ensures TruncDiv(room, price) <= 0 <==> room < price
    ensures TruncDiv(room, price) >= 1 ==> price * TruncDiv(room, price) <= room
  {
    var m := TruncDiv(room, price);
    if room >= 0 && m >= 1 {
      MulAtLeast(price, m);
      assert price * m == m * price;
    }
  }

  // ---------------------------------------------------------------------------
  // Sums.

  lemma {:induction false} SumsConcat(a: seq<LineItem>, b: seq<LineItem>)
    ensures SumQuantities(a + b) == SumQuantities(a) + SumQuantities(b)
    ensures Subtotal(a + b) == Subtotal(a) + Subtotal(b)
  {
    if b == [] {
      assert a + b == a;
    } else {
      assert (a + b)[..|a + b| - 1] == a + b[..|b| - 1];
      SumsConcat(a, b[..|b| - 1]);
    }
  }

  /** Replacing line k changes the sums by the difference of the two lines. */
  lemma SumsUpdate(items: seq<LineItem>, k: nat, x: LineItem)
    requires k < |items|
    ensures SumQuantities(items[k := x]) == SumQuantities(items) - items[k].quantity + x.quantity
    ensures Subtotal(items[k := x]) == Subtotal(items) - items[k].total + x.total
  {
    assert items == items[..k] + ([items[k]] + items[k + 1..]);
    assert items[k := x] == items[..k] + ([x] + items[k + 1..]);
    SumsConcat(items[..k], [items[k]] + items[k + 1..]);
    SumsConcat(items[..k], [x] + items[k + 1..]);
    SumsConcat([items[k]], items[k + 1..]);
    SumsConcat([x], items[k + 1..]);
  }

  /** Setting line k to q units changes the count by the difference in units and the
      subtotal by the price of that difference. */
  lemma SumsSetQuantity(items: seq<LineItem>, k: nat, q: int)
    requires k < |items|
    ensures SumQuantities(items[k := WithQuantity(items[k], q)]) == SumQuantities(items) - items[k].quantity + q
    ensures Subtotal(items[k := WithQuantity(items[k], q)]) == Subtotal(items) - items[k].total + items[k].price * q
  {
    SumsUpdate(items, k, WithQuantity(items[k], q));
  }

  /** Dropping line k takes that line out of the sums. */
  lemma {:induction false} SumsRemove(items: seq<LineItem>, k: nat)
    requires k < |items|
    ensures SumQuantities(RemoveAt(items, k)) == SumQuantities(items) - items[k].quantity
    ensures Subtotal(RemoveAt(items, k)) == Subtotal(items) - items[k].total
  {
    var a, b, x := items[..k], items[k + 1..], items[k];
    assert RemoveAt(items, k) == a + b;
    assert items[..k + 1] == a + [x];
    assert items == items[..k + 1] + b;
    SumsConcat(items[..k + 1], b);
    SumsConcat(a, [x]);
    SumsConcat(a, b);
  }

  /** With every quantity at least one, the item count bounds each line's quantity. */
  lemma {:induction false} LineBelowCount(items: seq<LineItem>, k: nat)
    requires WellFormed(items) && k < |items|
    ensures items[k].quantity <= SumQuantities(items)
    ensures SumQuantities(items) >= 0
  {
    var n := |items|;
    if n > 0 {
      assert WellFormed(items[..n - 1]);
      if k < n - 1 {
        LineBelowCount(items[..n - 1], k);
      } else if n > 1 {
        LineBelowCount(items[..n - 1], 0);
      }
    }
  }

  // ---------------------------------------------------------------------------
  // Finding a line.

  /** The three ways the handlers pick a line: by SKU, by the spoken name as a substring
      of the lower-cased line name, and by any word of one inside a word of the other. */
  datatype Probe = BySku(sku: string) | ByName(sub: string) | ByWords(words: seq<string>)

  predicate WordsOverlap(search: seq<string>, names: seq<string>) {
    exists i, j :: 0 <= i < |search| && 0 <= j < |names| &&
      (Contains(names[j], search[i]) || Contains(search[i], names[j]))
  }

  predicate Hits(line: LineItem, p: Probe) {
    match p
    case BySku(sku) => line.sku == sku
    case ByName(sub) => Contains(Lower(line.name), sub)
    case ByWords(words) => WordsOverlap(words, Split(Lower(line.name)))
  }

  /** The first line at or after i that the probe hits. */
  function FirstFrom(items: seq<LineItem>, p: Probe, i: nat): (r: Option<nat>)
    requires i <= |items|
    ensures r.Some? ==> i <= r.value < |items| && Hits(items[r.value], p)
    decreases |items| - i
  {
    if i == |items| then None
    else if Hits(items[i], p) then Some(i)
    else FirstFrom(items, p, i + 1)
  }

  function First(items: seq<LineItem>, p: Probe): (r: Option<nat>)
    ensures r.Some? ==> r.value < |items| && Hits(items[r.value], p)
  {
    FirstFrom(items, p, 0)
  }

  /** The search finds the first hit, and finds none only when no line is hit. */
  lemma {:induction false} FirstFromIsFirst(items: seq<LineItem>, p: Probe, i: nat)
    requires i <= |items|
    ensures var r := FirstFrom(items, p, i);
      (r.Some? ==> forall j :: i <= j < r.value ==> !Hits(items[j], p))
      && (r.None? <==> forall j :: i <= j < |items| ==> !Hits(items[j], p))
    decreases |items| - i
  {
    if i < |items| && !Hits(items[i], p) {
      FirstFromIsFirst(items, p, i + 1);
      var r := FirstFrom(items, p, i + 1);
      assert FirstFrom(items, p, i) == r;
      if r.Some? {
        forall j | i <= j < r.value ensures !Hits(items[j], p) {
          if j > i {
            assert i + 1 <= j < r.value;
          }
        }
      } else {
        forall j | i <= j < |items| ensures !Hits(items[j], p) {
          if j > i {
            assert i + 1 <= j < |items|;
          }
        }
      }
    }
  }

  lemma FirstIsFirst(items: seq<LineItem>, p: Probe)
    ensures First(items, p).Some? ==> forall j :: 0 <= j < First(items, p).value ==> !Hits(items[j], p)
    ensures First(items, p).None? <==> forall j :: 0 <= j < |items| ==> !Hits(items[j], p)
  {
    FirstFromIsFirst(items, p, 0);
  }

  /** With unique SKUs, the line with a SKU is the only one. */
  lemma FirstSkuUnique(items: seq<LineItem>, sku: string, k: nat)
    requires UniqueSkus(items) && k < |items| && items[k].sku == sku
    ensures First(items, BySku(sku)) == Some(k)
  {
    FirstIsFirst(items, BySku(sku));
  }

  /** The handlers' `for ... break` scan over the lines. */
  method Find(items: seq<LineItem>, p: Probe) returns (r: Option<nat>)
    ensures r == First(items, p)
  {
    var i := 0;
    while i < |items|
      invariant 0 <= i <= |items|
      invariant FirstFrom(items, p, i) == First(items, p)
    {
      if Hits(items[i], p) {
        return Some(i);
      }
      i := i + 1;
    }
    return None;
  }

  // ---------------------------------------------------------------------------
  // add_item.

  datatype AddError = NotOnMenu | OrderFull | TypeFull | OverValueLimit
  datatype AddResult = Added(items: seq<LineItem>, quantity: int) | AddFailed(error: AddError)

  /** The quantity after the per-SKU limit, or None when the SKU is already at it. */
  function TypeAllowance(items: seq<LineItem>, sku: string, q: int): (r: Option<int>)
    requires q >= 1
    ensures r.None? <==> var k := First(items, BySku(sku)); k.Some? && items[k.value].quantity >= MaxPerType
    ensures r.Some? ==> 1 <= r.value <= q
    ensures r.Some? ==> match First(items, BySku(sku))
                        case Some(k) => items[k].quantity + r.value <= MaxPerType
                        case None => r.value <= MaxPerType
  {
    match First(items, BySku(sku))
    case Some(k) =>
      if items[k].quantity + q > MaxPerType then
        if MaxPerType - items[k].quantity <= 0 then None else Some(MaxPerType - items[k].quantity)
      else Some(q)
    case None => Some(if q > MaxPerType then MaxPerType else q)
  }

  /** The quantity after the order-value limit, or None when not even one more fits. */
  function ValueAllowance(subtotal: int, price: int, q: int): (r: Option<int>)
    requires price > 0 && q >= 1
    ensures r.None? <==> subtotal + price > MaxOrderValue
    ensures r.Some? ==> 1 <= r.value <= q && subtotal + price * r.value <= MaxOrderValue
  {
    if subtotal + price * q > MaxOrderValue then
      var maxByValue := TruncDiv(MaxOrderValue - subtotal, price);
      FitUnits(MaxOrderValue - subtotal, price);
      if maxByValue <= 0 then None
      else
        var r := if q < maxByValue then q else maxByValue;
        MulMono(price, r, maxByValue);
        Some(r)
    else
      MulAtLeast(price, q);
      Some(q)
  }

  /** add_item on the lines, given what find_menu_item made of the spoken name. */
  function AddSpec(items: seq<LineItem>, found: Option<MenuItem>, quantity: int): AddResult
    requires found.Some? ==> found.value.price > 0
    requires quantity >= 1
  {
    if found.None? then AddFailed(NotOnMenu)
    else
      var item := found.value;
      var q0 := if quantity > MaxPerAdd then MaxPerAdd else quantity;
      var count := SumQuantities(items);
      if count >= MaxTotalItems then AddFailed(OrderFull)
      else
        var q1 := if count + q0 > MaxTotalItems then MaxTotalItems - count else q0;
        match TypeAllowance(items, item.sku, q1)
        case None => AddFailed(TypeFull)
        case Some(q2) =>
          match ValueAllowance(Subtotal(items), item.price, q2)
          case None => AddFailed(OverValueLimit)
          case Some(q) => Added(AddLines(items, item, q), q)
  }

  /** `q` more units of a menu entry: on the first line with its SKU, or a new last line. */
  function AddLines(items: seq<LineItem>, item: MenuItem, q: int): seq<LineItem> {
    match First(items, BySku(item.sku))
    case Some(k) => items[k := WithQuantity(items[k], items[k].quantity + q)]
    case None => items + [LineOf(item, q)]
  }

  /** add_item refuses exactly when the name is not on the menu, the order already holds
      50 units, the item's line already holds 20, or not one more unit fits under $500. */
  lemma AddFailsExactly(items: seq<LineItem>, found: Option<MenuItem>, quantity: int)
    requires found.Some? ==> found.value.price > 0
    requires quantity >= 1
    ensures AddSpec(items, found, quantity) == AddFailed(NotOnMenu) <==> found.None?
    ensures AddSpec(items, found, quantity) == AddFailed(OrderFull) <==>
      found.Some? && SumQuantities(items) >= MaxTotalItems
    ensures AddSpec(items, found, quantity) == AddFailed(TypeFull) <==>
      found.Some? && SumQuantities(items) < MaxTotalItems
      && var k := First(items, BySku(found.value.sku)); k.Some? && items[k.value].quantity >= MaxPerType
    ensures AddSpec(items, found, quantity) == AddFailed(OverValueLimit) <==>
      found.Some? && SumQuantities(items) < MaxTotalItems
      && (var k := First(items, BySku(found.value.sku)); k.None? || items[k.value].quantity < MaxPerType)
      && Subtotal(items) + found.value.price > MaxOrderValue
  {
  }

  /** A successful add puts between 1 and min(quantity, 10) units on the item's line,
      the one line with its SKU (a new last line if there was none), and changes no
      other line. */
  lemma AddOutcome(items: seq<LineItem>, item: MenuItem, quantity: int)
    requires item.price > 0 && quantity >= 1
    requires AddSpec(items, Some(item), quantity).Added?
    ensures var r := AddSpec(items, Some(item), quantity);
      var q := r.quantity;
      1 <= q <= quantity && q <= MaxPerAdd
      && match First(items, BySku(item.sku))
         case Some(k) =>
           r.items == items[k := WithQuantity(items[k], items[k].quantity + q)]
         case None =>
           r.items == items + [LineOf(item, q)]
  {
  }

  /** Adding q units raises the item count by q and the subtotal by q times the price. */
  lemma AddLinesSums(items: seq<LineItem>, item: MenuItem, q: int)
    requires WellFormed(items)
    requires forall i :: 0 <= i < |items| && items[i].sku == item.sku ==> items[i].price == item.price
    ensures SumQuantities(AddLines(items, item, q)) == SumQuantities(items) + q
    ensures Subtotal(AddLines(items, item, q)) == Subtotal(items) + item.price * q
  {
    var f := First(items, BySku(item.sku));
    if f.Some? {
      var k := f.value;
      assert items[k].price == item.price && LineOk(items[k]);
      var x := WithQuantity(items[k], items[k].quantity + q);
      assert AddLines(items, item, q) == items[k := x];
      SumsSetQuantity(items, k, items[k].quantity + q);
      Distribute(item.price, items[k].quantity, q);
    } else {
      assert AddLines(items, item, q) == items + [LineOf(item, q)];
      SumsConcat(items, [LineOf(item, q)]);
    }
  }

  /** After a successful add the order holds at most 50 units, the item's line at most
      20, and the subtotal is at most $500: each limit is enforced by the add itself. */
  lemma AddKeepsLimits(items: seq<LineItem>, item: MenuItem, quantity: int)
    requires item.price > 0 && quantity >= 1
    requires WellFormed(items)
    requires forall i :: 0 <= i < |items| && items[i].sku == item.sku ==> items[i].price == item.price
    requires AddSpec(items, Some(item), quantity).Added?
    ensures var r := AddSpec(items, Some(item), quantity);
      var k := First(items, BySku(item.sku));
      var at := if k.Some? then k.value else |items|;
      SumQuantities(r.items) == SumQuantities(items) + r.quantity <= MaxTotalItems
      && Subtotal(r.items) == Subtotal(items) + item.price * r.quantity <= MaxOrderValue
      && at < |r.items| && r.items[at].sku == item.sku && r.items[at].quantity <= MaxPerType
  {
    var r := AddSpec(items, Some(item), quantity);
    AddLinesSums(items, item, r.quantity);
  }

  /** A successful add keeps every line well formed, and every SKU on one line if it
      was so before. */
  lemma AddKeepsShape(items: seq<LineItem>, item: MenuItem, quantity: int)
    requires item.price > 0 && quantity >= 1
    requires WellFormed(items)
    requires AddSpec(items, Some(item), quantity).Added?
    ensures WellFormed(AddSpec(items, Some(item), quantity).items)
    ensures UniqueSkus(items) ==> UniqueSkus(AddSpec(items, Some(item), quantity).items)
  {
    FirstIsFirst(items, BySku(item.sku));
  }

  // ---------------------------------------------------------------------------
  // remove_item.

  datatype RemoveResult = Removed(items: seq<LineItem>, quantity: int, whole: bool) | RemoveNotFound

  /** The line remove_item picks: by the menu SKU if the name was found on the menu and
      that SKU is in the order, else by the lower-cased name as a substring, else by
      overlapping words. */
  function RemoveTarget(items: seq<LineItem>, found: Option<MenuItem>, itemName: string): (r: Option<nat>)
    ensures r.Some? ==> r.value < |items|
  {
    var bySku := if found.Some? then First(items, BySku(found.value.sku)) else None;
    if bySku.Some? then bySku
    else
      var byName := First(items, ByName(Lower(itemName)));
      if byName.Some? then byName else First(items, ByWords(Split(Lower(itemName))))
  }

  /** Taking `quantity` units off line k: -1 or at least the line's quantity drops the
      line; 0 or another negative count takes one; a line left empty is dropped. */
  function RemoveLine(items: seq<LineItem>, k: nat, quantity: int): (r: RemoveResult)
    requires k < |items|
    ensures r.Removed?
  {
    var line := items[k];
    if quantity == -1 || quantity >= line.quantity then Removed(RemoveAt(items, k), line.quantity, true)
    else
      var q := if quantity <= 0 then 1 else quantity;
      var removed := if q < line.quantity then q else line.quantity;
      if line.quantity - removed == 0 then Removed(RemoveAt(items, k), removed, true)
      else Removed(items[k := WithQuantity(line, line.quantity - removed)], removed, false)
  }

  /** remove_item on the lines. */
  function RemoveSpec(items: seq<LineItem>, found: Option<MenuItem>, itemName: string, quantity: int): RemoveResult {
    match RemoveTarget(items, found, itemName)
    case None => RemoveNotFound
    case Some(k) => RemoveLine(items, k, quantity)
  }

  /** remove_item finds nothing exactly when no line has the SKU found on the menu, no
      line name holds the spoken name, and no word of either holds a word of the other. */
  lemma RemoveNotFoundExactly(items: seq<LineItem>, found: Option<MenuItem>, itemName: string)
    ensures RemoveTarget(items, found, itemName).None? <==>
      (found.Some? ==> forall j :: 0 <= j < |items| ==> !Hits(items[j], BySku(found.value.sku)))
      && (forall j :: 0 <= j < |items| ==> !Hits(items[j], ByName(Lower(itemName))))
      && (forall j :: 0 <= j < |items| ==> !Hits(items[j], ByWords(Split(Lower(itemName)))))
  {
    if found.Some? {
      FirstIsFirst(items, BySku(found.value.sku));
    }
    FirstIsFirst(items, ByName(Lower(itemName)));
    FirstIsFirst(items, ByWords(Split(Lower(itemName))));
  }

  /** On a well-formed line, removal takes off what was asked (one for 0 or a negative
      count other than -1), drops the line exactly when -1 or at least its quantity was
      asked, and changes no other line. */
  lemma RemoveLineOutcome(items: seq<LineItem>, k: nat, quantity: int)
    requires WellFormed(items) && k < |items|
    ensures var r := RemoveLine(items, k, quantity);
      (r.whole <==> quantity == -1 || quantity >= items[k].quantity || (quantity <= 0 && items[k].quantity == 1))
      && (r.whole ==> r.items == RemoveAt(items, k) && r.quantity == items[k].quantity)
      && (!r.whole ==> r.quantity == (if quantity <= 0 then 1 else quantity) && r.quantity < items[k].quantity
                       && r.items == items[k := WithQuantity(items[k], items[k].quantity - r.quantity)])
  {
  }

  /** Removing lowers the item count and the subtotal by exactly what was taken off. */
  lemma RemoveLineSums(items: seq<LineItem>, k: nat, quantity: int)
    requires WellFormed(items) && k < |items|
    ensures var r := RemoveLine(items, k, quantity);
      1 <= r.quantity <= items[k].quantity
      && SumQuantities(r.items) == SumQuantities(items) - r.quantity
      && Subtotal(r.items) == Subtotal(items) - items[k].price * r.quantity
  {
    RemoveLineOutcome(items, k, quantity);
    var r := RemoveLine(items, k, quantity);
    assert LineOk(items[k]);
    if r.whole {
      SumsRemove(items, k);
    } else {
      var left := items[k].quantity - r.quantity;
      SumsSetQuantity(items, k, left);
      assert r.items == items[k := WithQuantity(items[k], left)];
      Distribute(items[k].price, items[k].quantity, r.quantity);
    }
  }

  /** Removing keeps lines well formed, and SKUs unique if they were. */
  lemma RemoveLineKeepsShape(items: seq<LineItem>, k: nat, quantity: int)
    requires WellFormed(items) && k < |items|
    ensures WellFormed(RemoveLine(items, k, quantity).items)
    ensures UniqueSkus(items) ==> UniqueSkus(RemoveLine(items, k, quantity).items)
  {
    RemoveLineOutcome(items, k, quantity);
    var r := RemoveLine(items, k, quantity);
    if !r.whole {
      assert LineOk(WithQuantity(items[k], items[k].quantity - r.quantity));
    }
  }

  // ---------------------------------------------------------------------------
  // modify_quantity.

  datatype ModifyResult = Modified(items: seq<LineItem>, quantity: int) | ModifyNotFound | ModifyOverValueLimit

  /** The quantity modify_quantity settles on for line k before its value check:
      at most 20, and at most what keeps the order at 50 units. */
  function ModifyClamp(items: seq<LineItem>, k: nat, newQuantity: int): (q: int)
    requires k < |items|
    ensures q <= newQuantity && q <= MaxPerType
    ensures SumQuantities(items) - items[k].quantity + q <= MaxTotalItems
  {
    var q1 := if newQuantity > MaxPerType then MaxPerType else newQuantity;
    var others := SumQuantities(items) - items[k].quantity;
    if others + q1 > MaxTotalItems then MaxTotalItems - others else q1
  }

  /** The value check of modify_quantity as written: past $500 the quantity becomes
      int(room / price), even when that is zero or negative. */
  function ModifyLineAsWritten(items: seq<LineItem>, k: nat, newQuantity: int): (r: ModifyResult)
    requires k < |items| && items[k].price > 0
    ensures r.Modified?
  {
    if newQuantity == 0 then Modified(RemoveAt(items, k), 0)
    else
      var line := items[k];
      var q := ModifyClamp(items, k, newQuantity);
      var othersSub := Subtotal(items) - line.total;
      var q' := if othersSub + line.price * q > MaxOrderValue
                then TruncDiv(MaxOrderValue - othersSub, line.price) else q;
      Modified(items[k := WithQuantity(line, q')], q')
  }

  /** The value check done as add_item does it: refused when not one unit fits under
      $500 beside the other lines. */
  function ModifyLine(items: seq<LineItem>, k: nat, newQuantity: int): (r: ModifyResult)
    requires WellFormed(items) && SumQuantities(items) <= MaxTotalItems && k < |items|
    requires newQuantity >= 0
    ensures !r.ModifyNotFound?
  {
    if newQuantity == 0 then Modified(RemoveAt(items, k), 0)
    else
      LineBelowCount(items, k);
      var line := items[k];
      match ValueAllowance(Subtotal(items) - line.total, line.price, ModifyClamp(items, k, newQuantity))
      case None => ModifyOverValueLimit
      case Some(q) => Modified(items[k := WithQuantity(line, q)], q)
  }

  /** modify_quantity as written, on the first line whose lower-cased name holds the
      lower-cased spoken name. */
  function ModifyAsWritten(items: seq<LineItem>, itemName: string, newQuantity: int): ModifyResult
    requires WellFormed(items)
  {
    match First(items, ByName(Lower(itemName)))
    case None => ModifyNotFound
    case Some(k) => ModifyLineAsWritten(items, k, newQuantity)
  }

  /** modify_quantity with the value check corrected. */
  function Modify(items: seq<LineItem>, itemName: string, newQuantity: int): ModifyResult
    requires WellFormed(items) && SumQuantities(items) <= MaxTotalItems
    requires newQuantity >= 0
  {
    match First(items, ByName(Lower(itemName)))
    case None => ModifyNotFound
    case Some(k) => ModifyLine(items, k, newQuantity)
  }

  /** As written, once the other lines leave less room under $500 than one unit of the
      chosen line costs, any positive new quantity leaves that line with none or fewer. */
  lemma ModifyAsWrittenEmptiesLine(items: seq<LineItem>, k: nat, newQuantity: int)
    requires WellFormed(items) && SumQuantities(items) <= MaxTotalItems && k < |items|
    requires newQuantity >= 1
    requires Subtotal(items) - items[k].total + items[k].price > MaxOrderValue
    ensures var r := ModifyLineAsWritten(items, k, newQuantity);
      r.quantity <= 0 && r.items[k].quantity <= 0
  {
    LineBelowCount(items, k);
    var q := ModifyClamp(items, k, newQuantity);
    var line := items[k];
    MulAtLeast(line.price, q);
    FitUnits(MaxOrderValue - (Subtotal(items) - line.total), line.price);
  }

  /** The corrected check agrees with the code as written whenever the code as written
      leaves the line with at least one unit, and refuses otherwise. */
  lemma ModifyAgreesWithAsWritten(items: seq<LineItem>, k: nat, newQuantity: int)
    requires WellFormed(items) && SumQuantities(items) <= MaxTotalItems && k < |items|
    requires newQuantity >= 0
    ensures var w := ModifyLineAsWritten(items, k, newQuantity);
      var c := ModifyLine(items, k, newQuantity);
      (newQuantity == 0 || w.quantity >= 1 ==> c == w)
      && (newQuantity != 0 && w.quantity <= 0 ==> c == ModifyOverValueLimit)
  {
    if newQuantity != 0 {
      LineBelowCount(items, k);
      var line := items[k];
      var q := ModifyClamp(items, k, newQuantity);
      var room := MaxOrderValue - (Subtotal(items) - line.total);
      FitUnits(room, line.price);
      var m := TruncDiv(room, line.price);
      if line.price * q > room && m >= q {
        MulMono(line.price, q, m);
      }
    }
  }

  /** The corrected modify: 0 drops the line; otherwise the line ends with at least one
      and at most min(new quantity, 20) units, the order with at most 50 units and a
      subtotal of at most $500, and no other line changes. */
  lemma ModifyLineOutcome(items: seq<LineItem>, k: nat, newQuantity: int)
    requires WellFormed(items) && SumQuantities(items) <= MaxTotalItems && k < |items|
    requires newQuantity >= 0
    requires ModifyLine(items, k, newQuantity).Modified?
    ensures var r := ModifyLine(items, k, newQuantity);
      (newQuantity == 0 ==> r.items == RemoveAt(items, k))
      && (newQuantity != 0 ==>
            1 <= r.quantity <= newQuantity && r.quantity <= MaxPerType
            && r.items == items[k := WithQuantity(items[k], r.quantity)]
            && SumQuantities(r.items) <= MaxTotalItems
            && Subtotal(r.items) <= MaxOrderValue)
  {
    if newQuantity != 0 {
      LineBelowCount(items, k);
      SumsSetQuantity(items, k, ModifyLine(items, k, newQuantity).quantity);
    }
  }

  /** The corrected modify keeps lines well formed, and SKUs unique if they were. */
  lemma ModifyLineKeepsShape(items: seq<LineItem>, k: nat, newQuantity: int)
    requires WellFormed(items) && SumQuantities(items) <= MaxTotalItems && k < |items|
    requires newQuantity >= 0
    requires ModifyLine(items, k, newQuantity).Modified?
    ensures WellFormed(ModifyLine(items, k, newQuantity).items)
    ensures UniqueSkus(items) ==> UniqueSkus(ModifyLine(items, k, newQuantity).items)
  {
    ModifyLineOutcome(items, k, newQuantity);
    var r := ModifyLine(items, k, newQuantity);
    if newQuantity != 0 {
      assert LineOk(WithQuantity(items[k], r.quantity));
    }
  }
}
