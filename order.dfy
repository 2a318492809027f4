/** The order state the agent's tools share, and the tools that read and change it. */
module Order {
  import opened Base
  import opened Text
  import opened Money
  import opened Menu
  import opened Cart
  import opened Combo
  import Steps
  import Words

  // ---------------------------------------------------------------------------
  // What each tool keeps of the order's shape, on the lines alone.

  /** The shape every tool keeps: well-formed lines of menu items, at most 50 units. */
  predicate Shaped(items: seq<LineItem>) {
    WellFormed(items) && AllListed(Items, items) && SumQuantities(items) <= MaxTotalItems
  }

  /** A menu entry has a positive price, and lines with its SKU have its price. */
  lemma MenuEntry(items: seq<LineItem>, item: MenuItem)
    requires item in Items && AllListed(Items, items)
    ensures item.price > 0
    ensures forall i :: 0 <= i < |items| && items[i].sku == item.sku ==> items[i].price == item.price
  {
    MenuFacts();
    var a :| 0 <= a < |Items| && Items[a] == item;
    ListedAgrees(Items, items, item);
  }

  /** A successful add keeps the shape, adds the units it reports, and leaves the
      subtotal at most $500. */
  lemma AddKeepsShaped(items: seq<LineItem>, item: MenuItem, quantity: int)
    requires Shaped(items) && item in Items && quantity >= 1
    requires item.price > 0
    requires AddSpec(items, Some(item), quantity).Added?
    ensures var r := AddSpec(items, Some(item), quantity);
      Shaped(r.items) && SumQuantities(r.items) == SumQuantities(items) + r.quantity
      && Subtotal(r.items) == Subtotal(items) + item.price * r.quantity <= MaxOrderValue
  {
    MenuEntry(items, item);
    AddKeepsLimits(items, item, quantity);
    AddKeepsShape(items, item, quantity);
    var r := AddSpec(items, Some(item), quantity);
    var f := First(items, BySku(item.sku));
    ListedKept(Items, items, if f.Some? then f.value else 0, if f.Some? then items[f.value].quantity + r.quantity else r.quantity, item);
  }

  /** A removal keeps the shape and takes off the units it reports. */
  lemma RemoveKeepsShaped(items: seq<LineItem>, k: nat, quantity: int)
    requires Shaped(items) && k < |items|
    ensures var r := RemoveLine(items, k, quantity);
      Shaped(r.items) && SumQuantities(r.items) == SumQuantities(items) - r.quantity
  {
    RemoveLineSums(items, k, quantity);
    RemoveLineKeepsShape(items, k, quantity);
    RemoveLineOutcome(items, k, quantity);
    var r := RemoveLine(items, k, quantity);
    ListedKept(Items, items, k, items[k].quantity - r.quantity, Items[0]);
  }

  /** A successful corrected modify keeps the shape and the subtotal at most $500. */
  lemma ModifyKeepsShaped(items: seq<LineItem>, k: nat, newQuantity: int)
    requires Shaped(items) && k < |items| && newQuantity >= 0
    requires ModifyLine(items, k, newQuantity).Modified?
    ensures Shaped(ModifyLine(items, k, newQuantity).items)
    ensures newQuantity != 0 ==> Subtotal(ModifyLine(items, k, newQuantity).items) <= MaxOrderValue
  {
    ModifyLineOutcome(items, k, newQuantity);
    ModifyLineKeepsShape(items, k, newQuantity);
    var r := ModifyLine(items, k, newQuantity);
    ListedKept(Items, items, k, r.quantity, Items[0]);
    if newQuantity == 0 {
      SumsRemove(items, k);
      assert LineOk(items[k]);
    }
  }

  /** The lines of an order all name menu items, each passing at most one kind's test. */
  lemma ShapedOneKindEach(items: seq<LineItem>)
    requires AllListed(Items, items)
    ensures OneKindEach(items)
  {
    MenuKindsExclusive();
    ListedExclusive(Items, items);
  }

  /** A successful upgrade (with the corrected classifier) keeps the shape, never adds
      units, and lowers the subtotal by exactly the savings it reports. */
  lemma UpgradeKeepsShaped(items: seq<LineItem>, comboType: string)
    requires Shaped(items)
    requires UpgradeSpec(ExcludingCombos, items, comboType).Upgraded?
    ensures var r := UpgradeSpec(ExcludingCombos, items, comboType);
      Shaped(r.items) && SumQuantities(r.items) <= SumQuantities(items)
      && Subtotal(r.items) == Subtotal(items) - Savings(r)
  {
    var c := ExcludingCombos;
    CombosOnMenu();
    UpgradeAccounts(c, Items, items, comboType);
    ShapedOneKindEach(items);
    var t := Lower(comboType);
    if t == "both" {
      UpgradeBoth(c, items);
    } else if t == "taco" {
      UpgradeTaco(c, items);
    } else {
      UpgradeBurrito(c, items);
    }
  }

  // ---------------------------------------------------------------------------
  // The upgrade loop.

  /** One iteration of the loop of upgrade_to_combo: the line is claimed by the first
      kind still needed whose test it passes, and removed whole or split; otherwise it
      is kept. */
  method StepLine(c: Classifier, dropEmpty: bool, p: Pass, item: LineItem) returns (p': Pass)
    ensures p' == Step(c, dropEmpty, p, item)
  {
    var kept, removed, need := p.kept, p.removed, p.need;
    match Claim(c, need, Lower(item.name)) {
      case None =>
        if !(dropEmpty && item.quantity <= 0) {
          kept := kept + [item];
        }
      case Some(k) =>
        var want := Get(need, k);
        if item.quantity <= want {
          removed := removed + [item];
          need := Put(need, k, want - item.quantity);
        } else {
          removed := removed + [WithQuantity(item, want)];
          kept := kept + [WithQuantity(item, item.quantity - want)];
          need := Put(need, k, 0);
        }
    }
    p' := Pass(kept, removed, need);
  }

  /** The loop of upgrade_to_combo over the lines, in order. */
  method RunPass(c: Classifier, dropEmpty: bool, need0: Need, items: seq<LineItem>) returns (p: Pass)
    ensures p == Process(c, dropEmpty, need0, items)
  {
    p := Pass([], [], need0);
    var i := 0;
    while i < |items|
      invariant 0 <= i <= |items|
      invariant p == Process(c, dropEmpty, need0, items[..i])
    {
      assert items[..i + 1][..i] == items[..i];
      p := StepLine(c, dropEmpty, p, items[i]);
      i := i + 1;
    }
    assert items[..|items|] == items;
  }

  // ---------------------------------------------------------------------------
  // The tools on the lines.

  /** add_item on the lines, for the menu entry the spoken name was matched to: clamps
      the quantity to 10 per call, 50 units in the order, 20 on the item's line and
      $500 in value, then adds to the item's line or appends one. */
  method AddToLines(items: seq<LineItem>, item: MenuItem, quantity: int) returns (r: AddResult)
    requires item.price > 0 && quantity >= 1
    ensures r == AddSpec(items, Some(item), quantity)
  {
    var q := if quantity > MaxPerAdd then MaxPerAdd else quantity;
    var count := SumQuantities(items);
    if count >= MaxTotalItems {
      return AddFailed(OrderFull);
    }
    if count + q > MaxTotalItems {
      q := MaxTotalItems - count;
    }
    ghost var q1 := q;
    var existing := Find(items, BySku(item.sku));
    if existing.Some? {
      var k := existing.value;
      if items[k].quantity + q > MaxPerType {
        var allowed := MaxPerType - items[k].quantity;
        if allowed <= 0 {
          assert TypeAllowance(items, item.sku, q1).None?;
          return AddFailed(TypeFull);
        }
        q := allowed;
      }
    } else if q > MaxPerType {
      q := MaxPerType;
    }
    assert TypeAllowance(items, item.sku, q1) == Some(q);
    ghost var q2 := q;
    var sub := Subtotal(items);
    if sub + item.price * q > MaxOrderValue {
      var maxByValue := TruncDiv(MaxOrderValue - sub, item.price);
      if maxByValue <= 0 {
        assert ValueAllowance(sub, item.price, q2).None?;
        return AddFailed(OverValueLimit);
      }
      q := if q < maxByValue then q else maxByValue;
    }
    assert ValueAllowance(sub, item.price, q2) == Some(q);
    AddSpecAdded(items, item, quantity, q1, q2, q);
    if existing.Some? {
      var k := existing.value;
      r := Added(items[k := WithQuantity(items[k], items[k].quantity + q)], q);
    } else {
      r := Added(items + [LineOf(item, q)], q);
    }
    assert r == Added(AddLines(items, item, q), q);
  }

  /** The units add_item adds once every clamp has let some through. */
  lemma AddSpecAdded(items: seq<LineItem>, item: MenuItem, quantity: int, q1: int, q2: int, q: int)
    requires item.price > 0 && quantity >= 1 && SumQuantities(items) < MaxTotalItems
    requires var q0 := if quantity > MaxPerAdd then MaxPerAdd else quantity;
      q1 == if SumQuantities(items) + q0 > MaxTotalItems then MaxTotalItems - SumQuantities(items) else q0
    requires TypeAllowance(items, item.sku, q1) == Some(q2)
    requires ValueAllowance(Subtotal(items), item.price, q2) == Some(q)
    ensures AddSpec(items, Some(item), quantity) == Added(AddLines(items, item, q), q)
  {
  }

  /** The line remove_item picks: by the menu SKU, else by the spoken name as a
      substring, else by overlapping words. */
  method RemoveTargetOf(items: seq<LineItem>, found: Option<MenuItem>, itemName: string) returns (target: Option<nat>)
    ensures target == RemoveTarget(items, found, itemName)
  {
    target := None;
    if found.Some? {
      target := Find(items, BySku(found.value.sku));
    }
    if target.None? {
      var itemLower := Lower(itemName);
      target := Find(items, ByName(itemLower));
      if target.None? {
        target := Find(items, ByWords(Split(itemLower)));
      }
    }
  }

  /** remove_item on the lines: picks the line and takes the units off it. */
  method RemoveLines(items: seq<LineItem>, found: Option<MenuItem>, itemName: string, quantity: int) returns (r: RemoveResult)
    requires Shaped(items)
    ensures r == RemoveSpec(items, found, itemName, quantity)
    ensures r.Removed? ==> Shaped(r.items) && SumQuantities(r.items) == SumQuantities(items) - r.quantity
  {
    var target := RemoveTargetOf(items, found, itemName);
    if target.None? {
      return RemoveNotFound;
    }
    var k := target.value;
    r := TakeOff(items, k, quantity);
    RemoveKeepsShaped(items, k, quantity);
  }

  /** Taking the units off line k: -1 or at least the line's quantity drops the line;
      0 or another negative count takes one. */
  method TakeOff(items: seq<LineItem>, k: nat, quantity: int) returns (r: RemoveResult)
    requires k < |items|
    ensures r == RemoveLine(items, k, quantity)
  {
    var line := items[k];
    if quantity == -1 || quantity >= line.quantity {
      r := Removed(RemoveAt(items, k), line.quantity, true);
    } else {
      var q := if quantity <= 0 then 1 else quantity;
      var removed := if q < line.quantity then q else line.quantity;
      if line.quantity - removed == 0 {
        r := Removed(RemoveAt(items, k), removed, true);
      } else {
        r := Removed(items[k := WithQuantity(line, line.quantity - removed)], removed, false);
      }
    }
  }

  /** modify_quantity on the lines, with the value check done as add_item does it: sets
      the first line whose name holds the spoken name to the new quantity, clamped to
      20 on the line, 50 units in the order and $500 in value; zero drops the line. */
  method ModifyLines(items: seq<LineItem>, itemName: string, newQuantity: int) returns (r: ModifyResult)
    requires WellFormed(items) && SumQuantities(items) <= MaxTotalItems
    requires newQuantity >= 0
    ensures r == Modify(items, itemName, newQuantity)
  {
    var target := Find(items, ByName(Lower(itemName)));
    if target.None? {
      return ModifyNotFound;
    }
    var k := target.value;
    if newQuantity == 0 {
      return Modified(RemoveAt(items, k), 0);
    }
    LineBelowCount(items, k);
    var line := items[k];
    var q := if newQuantity > MaxPerType then MaxPerType else newQuantity;
    var others := SumQuantities(items) - line.quantity;
    if others + q > MaxTotalItems {
      q := MaxTotalItems - others;
    }
    assert q == ModifyClamp(items, k, newQuantity);
    ghost var q1 := q;
    var othersSub := Subtotal(items) - line.total;
    if othersSub + line.price * q > MaxOrderValue {
      var maxByValue := TruncDiv(MaxOrderValue - othersSub, line.price);
      if maxByValue <= 0 {
        assert ValueAllowance(othersSub, line.price, q1).None?;
        return ModifyOverValueLimit;
      }
      q := if q < maxByValue then q else maxByValue;
    }
    assert ValueAllowance(othersSub, line.price, q1) == Some(q);
    r := Modified(items[k := WithQuantity(line, q)], q);
  }

  /** upgrade_to_combo on the lines, with combo lines not counted as tacos or burritos:
      works out how many combos the order makes, runs the loop over the lines, and
      appends the combo lines after the kept ones. */
  method UpgradeLines(items: seq<LineItem>, comboType: string) returns (r: UpgradeResult)
    ensures r == UpgradeSpec(ExcludingCombos, items, comboType)
  {
    var c := ExcludingCombos;
    var t := Lower(comboType);
    var need: Need;
    var dropEmpty: bool;
    var added: seq<LineItem>;
    if t == "both" {
      var tk, bk := BothTacoCombos(c, items), BothBurritoCombos(c, items);
      need, dropEmpty, added := Need(2 * tk, bk, tk + bk, tk + bk), true, BothLines(tk, bk);
    } else if t == "taco" {
      var k := TacoCombos(CountKind(c, Taco, items), CountKind(c, Chips, items), CountKind(c, Drink, items));
      if k <= 0 {
        return NotEnoughForTaco;
      }
      need, dropEmpty, added := Need(2 * k, 0, k, k), false, [LineOf(TacoComboItem, k)];
    } else if t == "burrito" {
      var k := Min3(CountKind(c, Burrito, items), CountKind(c, Chips, items), CountKind(c, Drink, items));
      if k <= 0 {
        return NotEnoughForBurrito;
      }
      need, dropEmpty, added := Need(0, k, k, k), false, [LineOf(BurritoComboItem, k)];
    } else {
      return UnknownCombo;
    }
    assert UpgradeSpec(c, items, comboType) == Finish(c, dropEmpty, need, items, added);
    var p := RunPass(c, dropEmpty, need, items);
    r := Upgraded(p.kept + added, p.removed, added);
  }

  // ---------------------------------------------------------------------------
  // The order state.

  /** order_state: the lines, the aggregates the customer sees, and the order number. */
  class OrderState {
    var items: seq<LineItem>
    var subtotal: int
    var tax: int
    var total: int
    var itemCount: int
    var orderNumber: Option<int>

    /** The lines keep their shape and the aggregates are those of the lines. */
    predicate Valid()
      reads this
    {
      Shaped(items) && (subtotal, tax, total) == Totals(items) && itemCount == SumQuantities(items)
    }

    /** The default state get_order_state starts from. */
    constructor()
      ensures Valid() && items == [] && orderNumber == None
      ensures subtotal == 0 && tax == 0 && total == 0 && itemCount == 0
    {
      items := [];
      subtotal, tax, total, itemCount := 0, 0, 0, 0;
      orderNumber := None;
    }

    /** calculate_totals and the item count, written back after a change to the lines. */
    method Recompute()
      modifies this
      ensures items == old(items) && orderNumber == old(orderNumber)
      ensures (subtotal, tax, total) == Totals(items) && itemCount == SumQuantities(items)
    {
      var t := Totals(items);
      subtotal, tax, total := t.0, t.1, t.2;
      itemCount := SumQuantities(items);
    }

    /** Empties the lines and zeroes the aggregates. */
    method Clear()
      modifies this
      ensures Valid() && items == [] && orderNumber == old(orderNumber)
      ensures subtotal == 0 && tax == 0 && total == 0 && itemCount == 0
    {
      items := [];
      subtotal, tax, total, itemCount := 0, 0, 0, 0;
    }

    /** add_item: looks the spoken name up on the menu and adds to the lines; a success
        moves the conversation to taking_order. */
    method AddItem(itemName: string, quantity: int) returns (r: AddResult, next: Option<Steps.Step>)
      requires Valid() && quantity >= 1
      modifies this
      ensures Valid() && orderNumber == old(orderNumber)
      ensures r == AddSpec(old(items), Lookup(itemName), quantity)
      ensures r.AddFailed? ==> unchanged(this)
      ensures r.Added? ==> items == r.items && itemCount == old(itemCount) + r.quantity
                           && subtotal <= MaxOrderValue
      ensures next.Some? <==> r.Added?
      ensures next.Some? ==> next == Steps.Target(Steps.AddItem, Steps.Greeting)
    {
      next := None;
      var found := FindOnMenu(itemName);
      if found.None? {
        return AddFailed(NotOnMenu), None;
      }
      r := AddToLines(items, found.value, quantity);
      if r.Added? {
        AddKeepsShaped(items, found.value, quantity);
        items := r.items;
        Recompute();
        next := Some(Steps.TakingOrder);
      }
    }

    /** remove_item: looks the spoken name up on the menu and removes from the lines. */
    method RemoveItem(itemName: string, quantity: int) returns (r: RemoveResult)
      requires Valid()
      modifies this
      ensures Valid() && orderNumber == old(orderNumber)
      ensures r == RemoveSpec(old(items), Lookup(itemName), itemName, quantity)
      ensures r.RemoveNotFound? ==> unchanged(this)
      ensures r.Removed? ==> items == r.items && itemCount == old(itemCount) - r.quantity
    {
      var found := FindOnMenu(itemName);
      r := RemoveLines(items, found, itemName, quantity);
      if r.Removed? {
        items := r.items;
        Recompute();
      }
    }

    /** modify_quantity, with the value check corrected. */
    method ModifyQuantity(itemName: string, newQuantity: int) returns (r: ModifyResult)
      requires Valid() && newQuantity >= 0
      modifies this
      ensures Valid() && orderNumber == old(orderNumber)
      ensures r == Modify(old(items), itemName, newQuantity)
      ensures !r.Modified? ==> unchanged(this)
      ensures r.Modified? ==> items == r.items
    {
      r := ModifyLines(items, itemName, newQuantity);
      if r.Modified? {
        var k := First(items, ByName(Lower(itemName))).value;
        ModifyKeepsShaped(items, k, newQuantity);
        items := r.items;
        Recompute();
      }
    }

    /** upgrade_to_combo, with combo lines not counted as tacos or burritos. */
    method UpgradeToCombo(comboType: string) returns (r: UpgradeResult)
      requires Valid()
      modifies this
      ensures Valid() && orderNumber == old(orderNumber)
      ensures r == UpgradeSpec(ExcludingCombos, old(items), comboType)
      ensures !r.Upgraded? ==> unchanged(this)
      ensures r.Upgraded? ==> items == r.items && itemCount <= old(itemCount)
                              && subtotal == old(subtotal) - Savings(r)
    {
      r := UpgradeLines(items, comboType);
      if r.Upgraded? {
        UpgradeKeepsShaped(items, comboType);
        items := r.items;
        Recompute();
      }
    }

    /** review_order: the total to announce, or None for an empty order. */
    method ReviewOrder() returns (r: Option<int>)
      requires Valid()
      ensures r.None? <==> itemCount == 0
      ensures r.Some? ==> r.value == Subtotal(items) + Tax(Subtotal(items))
    {
      EmptyIffNoUnits(items);
      if items == [] {
        return None;
      }
      return Some(total);
    }

    /** finalize_order: refuses an empty order; otherwise announces the total and moves
        the conversation to confirming the order. */
    method FinalizeOrder() returns (amount: Option<int>, next: Option<Steps.Step>)
      requires Valid()
      ensures amount.None? <==> itemCount == 0
      ensures next.Some? <==> amount.Some?
      ensures next.Some? ==> next == Steps.Target(Steps.FinalizeOrder, Steps.TakingOrder)
      ensures amount.Some? ==> amount.value == Subtotal(items) + Tax(Subtotal(items))
    {
      EmptyIffNoUnits(items);
      if items == [] {
        return None, None;
      }
      return Some(total), Some(Steps.ConfirmingOrder);
    }

    /** process_payment, with the random order number drawn from 100 to 999 given as
        `number`; returns the number as spoken, one word per digit, and the move to
        payment_processing. */
    method ProcessPayment(number: int) returns (spoken: string, next: Steps.Step)
      requires Valid() && 100 <= number <= 999
      modifies this
      ensures Valid() && orderNumber == Some(number)
      ensures items == old(items) && total == old(total) && itemCount == old(itemCount)
      ensures spoken == Words.OrderNumberToWords(number) && |Split(spoken)| == 3
      ensures Words.SpokenDigitsToNumber(spoken) == Some(number)
      ensures Steps.Target(Steps.ProcessPayment, Steps.ConfirmingOrder) == Some(next)
    {
      orderNumber := Some(number);
      spoken := Words.OrderNumberToWords(number);
      Words.OrderNumberSpoken(number);
      Steps.FixedTargets(Steps.ConfirmingOrder);
      next := Steps.PaymentProcessing;
    }

    /** complete_order: clears the lines and the aggregates but keeps the order number,
        which it returns to be announced, and moves to order_complete. */
    method CompleteOrder() returns (number: int, next: Steps.Step)
      requires Valid() && orderNumber.Some?
      modifies this
      ensures Valid() && items == [] && orderNumber == old(orderNumber)
      ensures subtotal == 0 && tax == 0 && total == 0 && itemCount == 0
      ensures number == old(orderNumber).value
      ensures Steps.Target(Steps.CompleteOrder, Steps.PaymentProcessing) == Some(next)
    {
      number := orderNumber.value;
      Clear();
      next := Steps.OrderComplete;
    }

    /** cancel_order: clears everything, the order number included; the conversation
        stays in taking_order when that is the recorded step and otherwise returns to
        the greeting. */
    method CancelOrder(recorded: Steps.Step) returns (next: Steps.Step)
      modifies this
      ensures Valid() && items == [] && orderNumber == None
      ensures subtotal == 0 && tax == 0 && total == 0 && itemCount == 0
      ensures Steps.Target(Steps.CancelOrder, recorded) == Some(next)
    {
      Clear();
      orderNumber := None;
      next := if recorded == Steps.TakingOrder then Steps.TakingOrder else Steps.Greeting;
    }

    /** new_order: clears everything, the order number included, and moves back to the
        greeting. */
    method NewOrder() returns (next: Steps.Step)
      modifies this
      ensures Valid() && items == [] && orderNumber == None
      ensures subtotal == 0 && tax == 0 && total == 0 && itemCount == 0
      ensures Steps.Target(Steps.NewOrder, Steps.OrderComplete) == Some(next)
    {
      Clear();
      orderNumber := None;
      next := Steps.Greeting;
    }
  }
}
