/** Combo meals: recognising tacos, burritos, chips & salsa and small drinks by name,
    suggesting a combo upgrade (check_combo_opportunity) and carrying it out
    (upgrade_to_combo). */
module Combo {
  import opened Base
  import opened Text
  import opened Menu
  import opened Cart

  // ---------------------------------------------------------------------------
  // Kinds of line, recognised by substrings of the lower-cased name.

  datatype Kind = Taco | Burrito | Chips | Drink

  /** The substring tests both tools use for each kind. */
  predicate Raw(k: Kind, n: string) {
    match k
    case Taco => Contains(n, "taco")
    case Burrito => Contains(n, "burrito")
    case Chips => Contains(n, "chips") && Contains(n, "salsa")
    case Drink => Contains(n, "small") && Contains(n, "drink")
  }

  /** upgrade_to_combo counts and consumes every line that passes the substring test
      (`AsWritten`); check_combo_opportunity also requires that the name does not hold
      "combo" (`ExcludingCombos`), which is the behaviour the upgrade evidently intends. */
  datatype Classifier = AsWritten | ExcludingCombos

  predicate Admits(c: Classifier, n: string) {
    c == AsWritten || !Contains(n, "combo")
  }

  predicate IsKind(c: Classifier, k: Kind, n: string) {
    Admits(c, n) && Raw(k, n)
  }

  /** A name that passes the substring test of at most one kind. */
  predicate Exclusive(n: string) {
    forall k1, k2 :: Raw(k1, n) && Raw(k2, n) ==> k1 == k2
  }

  /** Lines that each pass at most one kind's test. */
  predicate OneKindEach(items: seq<LineItem>) {
    forall i :: 0 <= i < |items| ==> Exclusive(Lower(items[i].name))
  }

  lemma ExclusiveBut(n: string, k: Kind)
    requires forall k' :: k' != k ==> !Raw(k', n)
    ensures Exclusive(n)
  {
  }

  // One lemma per menu name: its lower-cased form, and the kinds it cannot be, each
  // refuted by a character of the pattern the name lacks.

  lemma BeefTacoName()
    ensures Lower("Beef Taco") == "beef taco" && Exclusive("beef taco")
  {
    var n := "beef taco";
    NotContainsLacking(n, "burrito", 1);
    NotContainsLacking(n, "chips", 1);
    NotContainsLacking(n, "drink", 0);
    ExclusiveBut(n, Taco);
  }

  lemma ChickenTacoName()
    ensures Lower("Chicken Taco") == "chicken taco" && Exclusive("chicken taco")
  {
    var n := "chicken taco";
    NotContainsLacking(n, "burrito", 0);
    NotContainsLacking(n, "chips", 3);
    NotContainsLacking(n, "drink", 0);
    ExclusiveBut(n, Taco);
  }

  lemma BeanTacoName()
    ensures Lower("Bean Taco") == "bean taco" && Exclusive("bean taco")
  {
    var n := "bean taco";
    NotContainsLacking(n, "burrito", 1);
    NotContainsLacking(n, "chips", 1);
    NotContainsLacking(n, "drink", 0);
    ExclusiveBut(n, Taco);
  }

  lemma BeefBurritoName()
    ensures Lower("Beef Burrito") == "beef burrito" && Exclusive("beef burrito")
  {
    var n := "beef burrito";
    NotContainsLacking(n, "taco", 2);
    NotContainsLacking(n, "chips", 1);
    NotContainsLacking(n, "drink", 0);
    ExclusiveBut(n, Burrito);
  }

  lemma ChickenBurritoName()
    ensures Lower("Chicken Burrito") == "chicken burrito" && Exclusive("chicken burrito")
  {
    var n := "chicken burrito";
    NotContainsLacking(n, "taco", 1);
    NotContainsLacking(n, "chips", 3);
    NotContainsLacking(n, "drink", 0);
    ExclusiveBut(n, Burrito);
  }

  lemma BeanCheeseBurritoLower()
    ensures Lower("Bean & Cheese Burrito") == "bean & cheese burrito"
  {
  }

  lemma BeanCheeseBurritoName()
    ensures Exclusive("bean & cheese burrito")
  {
    var n := "bean & cheese burrito";
    NotContainsLate(n, "taco");
    NotContainsLacking(n, "chips", 3);
    NotContainsLacking(n, "drink", 0);
    ExclusiveBut(n, Burrito);
  }

  lemma CheeseQuesadillaName()
    ensures Lower("Cheese Quesadilla") == "cheese quesadilla" && Exclusive("cheese quesadilla")
  {
    var n := "cheese quesadilla";
    NotContainsLacking(n, "taco", 0);
    NotContainsLacking(n, "burrito", 0);
    NotContainsLacking(n, "chips", 3);
    NotContainsLacking(n, "drink", 1);
    ExclusiveBut(n, Taco);
  }

  lemma ChickenQuesadillaName()
    ensures Lower("Chicken Quesadilla") == "chicken quesadilla" && Exclusive("chicken quesadilla")
  {
    var n := "chicken quesadilla";
    NotContainsLacking(n, "taco", 0);
    NotContainsLacking(n, "burrito", 0);
    NotContainsLacking(n, "chips", 3);
    NotContainsLacking(n, "drink", 1);
    ExclusiveBut(n, Taco);
  }

  lemma ChipsSalsaName()
    ensures Lower("Chips & Salsa") == "chips & salsa" && Exclusive("chips & salsa")
  {
    var n := "chips & salsa";
    NotContainsLacking(n, "taco", 0);
    NotContainsLacking(n, "burrito", 0);
    NotContainsLacking(n, "drink", 0);
    ExclusiveBut(n, Chips);
  }

  lemma ChipsGuacamoleName()
    ensures Lower("Chips & Guacamole") == "chips & guacamole" && Exclusive("chips & guacamole")
  {
    var n := "chips & guacamole";
    NotContainsLacking(n, "taco", 0);
    NotContainsLacking(n, "burrito", 0);
    NotContainsLacking(n, "drink", 0);
    ExclusiveBut(n, Chips);
  }

  lemma SmallDrinkName()
    ensures Lower("Small Drink") == "small drink" && Exclusive("small drink")
  {
    var n := "small drink";
    NotContainsLacking(n, "taco", 0);
    NotContainsLacking(n, "burrito", 0);
    NotContainsLacking(n, "chips", 0);
    ExclusiveBut(n, Drink);
  }

  lemma LargeDrinkName()
    ensures Lower("Large Drink") == "large drink" && Exclusive("large drink")
  {
    var n := "large drink";
    NotContainsLacking(n, "taco", 0);
    NotContainsLacking(n, "burrito", 0);
    NotContainsLacking(n, "chips", 0);
    ExclusiveBut(n, Drink);
  }

  lemma BottledWaterName()
    ensures Lower("Bottled Water") == "bottled water" && Exclusive("bottled water")
  {
    var n := "bottled water";
    NotContainsLacking(n, "taco", 2);
    NotContainsLacking(n, "burrito", 1);
    NotContainsLacking(n, "chips", 0);
    NotContainsLacking(n, "drink", 2);
    ExclusiveBut(n, Drink);
  }

  lemma TacoComboName()
    ensures Lower("Taco Combo") == "taco combo" && Exclusive("taco combo")
  {
    var n := "taco combo";
    NotContainsLacking(n, "burrito", 1);
    NotContainsLacking(n, "chips", 1);
    NotContainsLacking(n, "drink", 0);
    ExclusiveBut(n, Taco);
  }

  lemma BurritoComboName()
    ensures Lower("Burrito Combo") == "burrito combo" && Exclusive("burrito combo")
  {
    var n := "burrito combo";
    NotContainsLacking(n, "taco", 1);
    NotContainsLacking(n, "chips", 1);
    NotContainsLacking(n, "drink", 0);
    ExclusiveBut(n, Burrito);
  }

  /** Every menu name passes the test of at most one kind, so the order in which the
      upgrade tries the kinds never matters for lines taken from the menu. */
  lemma MenuKindsExclusive()
    ensures forall i :: 0 <= i < |Items| ==> Exclusive(Lower(Items[i].name))
  {
    BeefTacoName();
    ChickenTacoName();
    BeanTacoName();
    BeefBurritoName();
    ChickenBurritoName();
    BeanCheeseBurritoLower();
    BeanCheeseBurritoName();
    CheeseQuesadillaName();
    ChickenQuesadillaName();
    ChipsSalsaName();
    ChipsGuacamoleName();
    SmallDrinkName();
    LargeDrinkName();
    BottledWaterName();
    TacoComboName();
    BurritoComboName();
  }

  /** Lines taken from a menu whose names each pass at most one kind's test do too. */
  lemma ListedExclusive(menu: seq<MenuItem>, items: seq<LineItem>)
    requires forall i :: 0 <= i < |menu| ==> Exclusive(Lower(menu[i].name))
    requires AllListed(menu, items)
    ensures OneKindEach(items)
  {
    forall i | 0 <= i < |items|
      ensures Exclusive(Lower(items[i].name))
    {
      var m :| m in menu && m.sku == items[i].sku && m.name == items[i].name && m.price == items[i].price;
      var j :| 0 <= j < |menu| && menu[j] == m;
    }
  }

  // ---------------------------------------------------------------------------
  // Counting.

  /** sum(item["quantity"] for item in items if <kind test on item["name"].lower()>) */
  function CountKind(c: Classifier, k: Kind, items: seq<LineItem>): int {
    if items == [] then 0
    else
      var l := items[|items| - 1];
      CountKind(c, k, items[..|items| - 1]) + (if IsKind(c, k, Lower(l.name)) then l.quantity else 0)
  }

  /** sum(item["quantity"] for item in items if sub in item["name"].lower()) */
  function CountHaving(items: seq<LineItem>, sub: string): int {
    if items == [] then 0
    else
      var l := items[|items| - 1];
      CountHaving(items[..|items| - 1], sub) + (if Contains(Lower(l.name), sub) then l.quantity else 0)
  }

  lemma {:induction false} CountKindBounds(c: Classifier, k: Kind, items: seq<LineItem>)
    requires WellFormed(items)
    ensures 0 <= CountKind(c, k, items) <= SumQuantities(items)
  {
    if items != [] {
      CountKindBounds(c, k, items[..|items| - 1]);
    }
  }

  function Min3(a: int, b: int, c: int): (m: int)
    ensures m <= a && m <= b && m <= c
    ensures m == a || m == b || m == c
  {
    if a <= b && a <= c then a else if b <= c then b else c
  }

  // ---------------------------------------------------------------------------
  // One pass over the lines, taking the units a combo needs.

  /** How many units of each kind are still to be taken (tacos_to_remove and so on). */
  datatype Need = Need(taco: int, burrito: int, chips: int, drink: int)

  function Get(need: Need, k: Kind): int {
    match k
    case Taco => need.taco
    case Burrito => need.burrito
    case Chips => need.chips
    case Drink => need.drink
  }

  function Put(need: Need, k: Kind, v: int): (r: Need)
    ensures Get(r, k) == v
    ensures forall k' :: k' != k ==> Get(r, k') == Get(need, k')
  {
    match k
    case Taco => need.(taco := v)
    case Burrito => need.(burrito := v)
    case Chips => need.(chips := v)
    case Drink => need.(drink := v)
  }

  function Total(need: Need): int {
    need.taco + need.burrito + need.chips + need.drink
  }

  lemma TotalPut(need: Need, k: Kind, v: int)
    ensures Total(Put(need, k, v)) == Total(need) - Get(need, k) + v
  {
  }

  /** The branch of the if/elif chain a line enters: the first kind, in the order taco,
      burrito, chips & salsa, small drink, whose test the name passes while units of
      that kind are still needed. */
  function Claim(c: Classifier, need: Need, n: string): (r: Option<Kind>)
    ensures r.Some? ==> IsKind(c, r.value, n) && Get(need, r.value) > 0
    ensures r.None? <==> forall k :: IsKind(c, k, n) ==> Get(need, k) <= 0
  {
    if IsKind(c, Taco, n) && need.taco > 0 then Some(Taco)
    else if IsKind(c, Burrito, n) && need.burrito > 0 then Some(Burrito)
    else if IsKind(c, Chips, n) && need.chips > 0 then Some(Chips)
    else if IsKind(c, Drink, n) && need.drink > 0 then Some(Drink)
    else None
  }

  /** The lines kept and removed so far, and the units still needed. */
  datatype Pass = Pass(kept: seq<LineItem>, removed: seq<LineItem>, need: Need)

  /** One iteration of the upgrade loop. A claimed line is removed whole when it holds
      no more units than are needed, and is otherwise split into a removed part of the
      needed units and a kept rest. An unclaimed line is kept; with `dropEmpty` (the
      "both" upgrade) a line left with no units is dropped. */
  function Step(c: Classifier, dropEmpty: bool, p: Pass, l: LineItem): Pass {
    match Claim(c, p.need, Lower(l.name))
    case None =>
      if dropEmpty && l.quantity <= 0 then p
      else Pass(p.kept + [l], p.removed, p.need)
    case Some(k) =>
      var want := Get(p.need, k);
      if l.quantity <= want then Pass(p.kept, p.removed + [l], Put(p.need, k, want - l.quantity))
      else Pass(p.kept + [WithQuantity(l, l.quantity - want)], p.removed + [WithQuantity(l, want)], Put(p.need, k, 0))
  }

  /** The loop over a prefix of the lines. */
  function Process(c: Classifier, dropEmpty: bool, need: Need, items: seq<LineItem>): Pass {
    if items == [] then Pass([], [], need)
    else Step(c, dropEmpty, Process(c, dropEmpty, need, items[..|items| - 1]), items[|items| - 1])
  }

  lemma SumsAppend(s: seq<LineItem>, x: LineItem)
    ensures SumQuantities(s + [x]) == SumQuantities(s) + x.quantity
    ensures Subtotal(s + [x]) == Subtotal(s) + x.total
    ensures WellFormed(s) && LineOk(x) ==> WellFormed(s + [x])
  {
    assert (s + [x])[..|s|] == s;
  }

  /** One iteration loses no unit and no cent. */
  lemma StepAccounts(c: Classifier, dropEmpty: bool, p: Pass, l: LineItem)
    requires LineOk(l)
    ensures var q := Step(c, dropEmpty, p, l);
      SumQuantities(q.kept) + SumQuantities(q.removed) == SumQuantities(p.kept) + SumQuantities(p.removed) + l.quantity
      && Subtotal(q.kept) + Subtotal(q.removed) == Subtotal(p.kept) + Subtotal(p.removed) + l.total
      && SumQuantities(q.removed) - SumQuantities(p.removed) == Total(p.need) - Total(q.need)
      && (WellFormed(p.kept) ==> WellFormed(q.kept))
      && (WellFormed(p.removed) ==> WellFormed(q.removed))
  {
    var claim := Claim(c, p.need, Lower(l.name));
    if claim.None? {
      SumsAppend(p.kept, l);
    } else {
      var k := claim.value;
      var want := Get(p.need, k);
      if l.quantity <= want {
        TotalPut(p.need, k, want - l.quantity);
        SumsAppend(p.removed, l);
      } else {
        TotalPut(p.need, k, 0);
        Distribute(l.price, l.quantity - want, want);
        var rest, taken := WithQuantity(l, l.quantity - want), WithQuantity(l, want);
        assert LineOk(rest) && LineOk(taken);
        SumsAppend(p.kept, rest);
        SumsAppend(p.removed, taken);
      }
    }
  }

  /** The pass loses no unit and no cent: what is kept and what is removed add up to the
      order, the removed units are exactly the needed units taken, and both parts are
      well formed. */
  lemma {:induction false} ProcessAccounts(c: Classifier, dropEmpty: bool, need: Need, items: seq<LineItem>)
    requires WellFormed(items)
    ensures var p := Process(c, dropEmpty, need, items);
      SumQuantities(p.kept) + SumQuantities(p.removed) == SumQuantities(items)
      && Subtotal(p.kept) + Subtotal(p.removed) == Subtotal(items)
      && SumQuantities(p.removed) == Total(need) - Total(p.need)
      && WellFormed(p.kept) && WellFormed(p.removed)
  {
    if items != [] {
      var init := items[..|items| - 1];
      assert LineOk(items[|items| - 1]);
      ProcessAccounts(c, dropEmpty, need, init);
      StepAccounts(c, dropEmpty, Process(c, dropEmpty, need, init), items[|items| - 1]);
    }
  }

  function Max0(x: int): int {
    if x < 0 then 0 else x
  }

  /** On a line of one kind at most, an iteration takes from that kind's need as many
      of the line's units as are still needed, and leaves the other needs alone. */
  lemma StepNeeds(c: Classifier, dropEmpty: bool, p: Pass, l: LineItem)
    requires l.quantity >= 1 && Exclusive(Lower(l.name))
    requires forall k :: Get(p.need, k) >= 0
    ensures forall k ::
              Get(Step(c, dropEmpty, p, l).need, k)
              == Max0(Get(p.need, k) - (if IsKind(c, k, Lower(l.name)) then l.quantity else 0))
  {
    var n := Lower(l.name);
    var claim := Claim(c, p.need, n);
    if claim.Some? {
      var k := claim.value;
      forall k' | k' != k
        ensures !IsKind(c, k', n)
      {
      }
    }
  }

  /** With lines of one kind at most and no negative need, the pass ends needing, of
      each kind, what was needed less the units of that kind the order holds, and
      never less than nothing. */
  lemma {:induction false} ProcessNeeds(c: Classifier, dropEmpty: bool, need: Need, items: seq<LineItem>)
    requires WellFormed(items)
    requires OneKindEach(items)
    requires forall k :: Get(need, k) >= 0
    ensures forall k :: Get(Process(c, dropEmpty, need, items).need, k) == Max0(Get(need, k) - CountKind(c, k, items))
  {
    if items != [] {
      var init := items[..|items| - 1];
      var l := items[|items| - 1];
      assert LineOk(l);
      ProcessNeeds(c, dropEmpty, need, init);
      StepNeeds(c, dropEmpty, Process(c, dropEmpty, need, init), l);
    }
  }

  predicate NoComboRemoved(p: Pass) {
    forall i :: 0 <= i < |p.removed| ==> !Contains(Lower(p.removed[i].name), "combo")
  }

  lemma StepSparesCombos(dropEmpty: bool, p: Pass, l: LineItem)
    requires NoComboRemoved(p)
    ensures NoComboRemoved(Step(ExcludingCombos, dropEmpty, p, l))
  {
    var claim := Claim(ExcludingCombos, p.need, Lower(l.name));
    if claim.Some? {
      var want := Get(p.need, claim.value);
      var x := if l.quantity <= want then l else WithQuantity(l, want);
      assert Step(ExcludingCombos, dropEmpty, p, l).removed == p.removed + [x];
    }
  }

  /** Under the corrected classifier the pass never takes a line whose name holds "combo". */
  lemma {:induction false} ProcessSparesCombos(dropEmpty: bool, need: Need, items: seq<LineItem>)
    ensures NoComboRemoved(Process(ExcludingCombos, dropEmpty, need, items))
  {
    if items != [] {
      var init := items[..|items| - 1];
      ProcessSparesCombos(dropEmpty, need, init);
      StepSparesCombos(dropEmpty, Process(ExcludingCombos, dropEmpty, need, init), items[|items| - 1]);
    }
  }

  /** Every kept line is a line of a menu item when every line of the order is. */
  lemma {:induction false} ProcessListed(c: Classifier, dropEmpty: bool, need: Need, menu: seq<MenuItem>, items: seq<LineItem>)
    requires AllListed(menu, items)
    ensures AllListed(menu, Process(c, dropEmpty, need, items).kept)
  {
    if items != [] {
      var init := items[..|items| - 1];
      var l := items[|items| - 1];
      assert Listed(menu, l);
      ProcessListed(c, dropEmpty, need, menu, init);
      var p := Process(c, dropEmpty, need, init);
      var claim := Claim(c, p.need, Lower(l.name));
      if claim.Some? && l.quantity > Get(p.need, claim.value) {
        assert Listed(menu, WithQuantity(l, l.quantity - Get(p.need, claim.value)));
      }
    }
  }

  lemma CountAppend(c: Classifier, k: Kind, s: seq<LineItem>, x: LineItem)
    ensures CountKind(c, k, s + [x]) == CountKind(c, k, s) + (if IsKind(c, k, Lower(x.name)) then x.quantity else 0)
  {
    assert (s + [x])[..|s|] == s;
  }

  /** On a line of one kind at most, what an iteration removes of each kind is what it
      takes off that kind's need. */
  lemma StepRemovesNeeded(c: Classifier, dropEmpty: bool, p: Pass, l: LineItem)
    requires Exclusive(Lower(l.name))
    ensures var q := Step(c, dropEmpty, p, l);
      forall k :: CountKind(c, k, q.removed) - CountKind(c, k, p.removed) == Get(p.need, k) - Get(q.need, k)
  {
    var n := Lower(l.name);
    var claim := Claim(c, p.need, n);
    if claim.Some? {
      var k := claim.value;
      var want := Get(p.need, k);
      var x := if l.quantity <= want then l else WithQuantity(l, want);
      assert Step(c, dropEmpty, p, l).removed == p.removed + [x];
      forall k' {
        CountAppend(c, k', p.removed, x);
      }
    }
  }

  /** With lines of one kind at most, the pass removes of each kind exactly the units it
      took off that kind's need. */
  lemma {:induction false} ProcessRemovesNeeded(c: Classifier, dropEmpty: bool, need: Need, items: seq<LineItem>)
    requires OneKindEach(items)
    ensures var p := Process(c, dropEmpty, need, items);
      forall k :: CountKind(c, k, p.removed) == Get(need, k) - Get(p.need, k)
  {
    if items != [] {
      var init := items[..|items| - 1];
      ProcessRemovesNeeded(c, dropEmpty, need, init);
      StepRemovesNeeded(c, dropEmpty, Process(c, dropEmpty, need, init), items[|items| - 1]);
    }
  }

  /** When no more of any kind is needed than the order holds, the pass meets every need:
      it removes of each kind exactly the units needed. */
  lemma ProcessMeetsNeed(c: Classifier, dropEmpty: bool, need: Need, items: seq<LineItem>)
    requires WellFormed(items)
    requires OneKindEach(items)
    requires forall k :: 0 <= Get(need, k) <= CountKind(c, k, items)
    ensures forall k :: Get(Process(c, dropEmpty, need, items).need, k) == 0
    ensures forall k :: CountKind(c, k, Process(c, dropEmpty, need, items).removed) == Get(need, k)
  {
    ProcessNeeds(c, dropEmpty, need, items);
    ProcessRemovesNeeded(c, dropEmpty, need, items);
  }

  // ---------------------------------------------------------------------------
  // upgrade_to_combo.

  const TacoComboItem := MenuItem("C001", "Taco Combo", 999, Combos)
  const BurritoComboItem := MenuItem("C002", "Burrito Combo", 1299, Combos)

  datatype UpgradeResult =
    | Upgraded(items: seq<LineItem>, removed: seq<LineItem>, added: seq<LineItem>)
    | NotEnoughForTaco
    | NotEnoughForBurrito
    | UnknownCombo

  /** How many taco combos the units at hand make: two tacos, one chips & salsa and one
      small drink each. */
  function TacoCombos(tacos: int, chips: int, drinks: int): int {
    Min3(tacos / 2, chips, drinks)
  }

  /** The combo lines the "both" upgrade appends: each only when it makes at least one. */
  function BothLines(tacoCombos: int, burritoCombos: int): seq<LineItem> {
    (if tacoCombos > 0 then [LineOf(TacoComboItem, tacoCombos)] else [])
    + (if burritoCombos > 0 then [LineOf(BurritoComboItem, burritoCombos)] else [])
  }

  /** The pass over the order, then the combo lines appended after the kept lines. */
  function Finish(c: Classifier, dropEmpty: bool, need: Need, items: seq<LineItem>, added: seq<LineItem>): UpgradeResult {
    var p := Process(c, dropEmpty, need, items);
    Upgraded(p.kept + added, p.removed, added)
  }

  /** The taco combos the "both" upgrade makes: as many as the units make. */
  function BothTacoCombos(c: Classifier, items: seq<LineItem>): int {
    TacoCombos(CountKind(c, Taco, items), CountKind(c, Chips, items), CountKind(c, Drink, items))
  }

  /** The burrito combos the "both" upgrade makes: as many as the burritos and the chips
      & salsa and small drinks left over from the taco combos allow. */
  function BothBurritoCombos(c: Classifier, items: seq<LineItem>): int {
    var tk := BothTacoCombos(c, items);
    Min3(CountKind(c, Burrito, items), CountKind(c, Chips, items) - tk, CountKind(c, Drink, items) - tk)
  }

  function BothNeed(c: Classifier, items: seq<LineItem>): Need {
    var tk, bk := BothTacoCombos(c, items), BothBurritoCombos(c, items);
    Need(2 * tk, bk, tk + bk, tk + bk)
  }

  /** upgrade_to_combo with combo type "both". */
  function UpgradeBothSpec(c: Classifier, items: seq<LineItem>): UpgradeResult {
    Finish(c, true, BothNeed(c, items), items, BothLines(BothTacoCombos(c, items), BothBurritoCombos(c, items)))
  }

  /** upgrade_to_combo with combo type "taco". */
  function UpgradeTacoSpec(c: Classifier, items: seq<LineItem>): UpgradeResult {
    var k := TacoCombos(CountKind(c, Taco, items), CountKind(c, Chips, items), CountKind(c, Drink, items));
    if k <= 0 then NotEnoughForTaco
    else Finish(c, false, Need(2 * k, 0, k, k), items, [LineOf(TacoComboItem, k)])
  }

  /** upgrade_to_combo with combo type "burrito". */
  function UpgradeBurritoSpec(c: Classifier, items: seq<LineItem>): UpgradeResult {
    var k := Min3(CountKind(c, Burrito, items), CountKind(c, Chips, items), CountKind(c, Drink, items));
    if k <= 0 then NotEnoughForBurrito
    else Finish(c, false, Need(0, k, k, k), items, [LineOf(BurritoComboItem, k)])
  }

  /** upgrade_to_combo: the combo type is compared in lower case; the counts and the
      pass use the classifier `c`. */
  function UpgradeSpec(c: Classifier, items: seq<LineItem>, comboType: string): UpgradeResult {
    var t := Lower(comboType);
    if t == "both" then UpgradeBothSpec(c, items)
    else if t == "taco" then UpgradeTacoSpec(c, items)
    else if t == "burrito" then UpgradeBurritoSpec(c, items)
    else UnknownCombo
  }

  /** The savings the upgrade announces: what the removed units cost less what the
      combos cost. */
  function Savings(r: UpgradeResult): int
    requires r.Upgraded?
  {
    Subtotal(r.removed) - Subtotal(r.added)
  }

  /** The upgrade refuses exactly an unknown combo type, and a taco or burrito combo the
      order lacks the units for. */
  lemma UpgradeFailsExactly(c: Classifier, items: seq<LineItem>, comboType: string)
    ensures var r := UpgradeSpec(c, items, comboType);
      var t := Lower(comboType);
      (r.UnknownCombo? <==> t != "both" && t != "taco" && t != "burrito")
      && (r.NotEnoughForTaco? <==>
            t == "taco" && (CountKind(c, Taco, items) < 2 || CountKind(c, Chips, items) < 1 || CountKind(c, Drink, items) < 1))
      && (r.NotEnoughForBurrito? <==>
            t == "burrito" && (CountKind(c, Burrito, items) < 1 || CountKind(c, Chips, items) < 1 || CountKind(c, Drink, items) < 1))
  {
  }

  /** The taco combo count is the largest number of combos the units make. */
  lemma TacoCombosIsLargest(tacos: int, chips: int, drinks: int)
    ensures var k := TacoCombos(tacos, chips, drinks);
      2 * k <= tacos && k <= chips && k <= drinks
      && (2 * (k + 1) > tacos || k + 1 > chips || k + 1 > drinks)
  {
  }

  lemma ComboLineFacts(menu: seq<MenuItem>, item: MenuItem, k: int)
    requires item in menu && item.price > 0 && k >= 1
    ensures LineOk(LineOf(item, k)) && Listed(menu, LineOf(item, k))
  {
    MulAtLeast(item.price, k);
  }

  /** The combo lines the upgrade writes out are those of the menu's combo entries. */
  lemma CombosOnMenu()
    ensures TacoComboItem in Items && BurritoComboItem in Items
  {
    assert Items[13] == TacoComboItem && Items[14] == BurritoComboItem;
  }

  /** Appending combo lines to the kept lines of a pass. */
  lemma AppendCombos(menu: seq<MenuItem>, kept: seq<LineItem>, added: seq<LineItem>)
    requires WellFormed(kept) && WellFormed(added)
    requires AllListed(menu, added)
    ensures WellFormed(kept + added)
    ensures AllListed(menu, kept) ==> AllListed(menu, kept + added)
    ensures SumQuantities(kept + added) == SumQuantities(kept) + SumQuantities(added)
    ensures Subtotal(kept + added) == Subtotal(kept) + Subtotal(added)
  {
    SumsConcat(kept, added);
    var all := kept + added;
    forall i | 0 <= i < |all|
      ensures LineOk(all[i]) && (AllListed(menu, kept) ==> Listed(menu, all[i]))
    {
      if i >= |kept| {
        assert all[i] == added[i - |kept|];
      }
    }
  }

  lemma BothLinesUnits(tk: int, bk: int)
    ensures WellFormed(BothLines(tk, bk))
    ensures SumQuantities(BothLines(tk, bk)) == (if tk > 0 then tk else 0) + (if bk > 0 then bk else 0)
  {
    var a := if tk > 0 then [LineOf(TacoComboItem, tk)] else [];
    var b := if bk > 0 then [LineOf(BurritoComboItem, bk)] else [];
    if tk > 0 {
      MulAtLeast(TacoComboItem.price, tk);
      assert LineOk(a[0]);
    }
    if bk > 0 {
      MulAtLeast(BurritoComboItem.price, bk);
      assert LineOk(b[0]);
    }
    SumsConcat(a, b);
    assert BothLines(tk, bk) == a + b;
  }

  lemma BothLinesListed(menu: seq<MenuItem>, tk: int, bk: int)
    requires TacoComboItem in menu && BurritoComboItem in menu
    ensures AllListed(menu, BothLines(tk, bk))
  {
  }

  /** What a pass followed by appending combo lines keeps track of. */
  predicate Accounted(c: Classifier, menu: seq<MenuItem>, items: seq<LineItem>, r: UpgradeResult)
    requires r.Upgraded?
  {
    WellFormed(r.items) && WellFormed(r.removed)
    && Subtotal(r.items) == Subtotal(items) - Savings(r)
    && SumQuantities(r.items) == SumQuantities(items) - SumQuantities(r.removed) + SumQuantities(r.added)
    && (AllListed(menu, items) ==> AllListed(menu, r.items))
    && (c == ExcludingCombos ==> NoComboRemoved(Pass(r.items, r.removed, Need(0, 0, 0, 0))))
  }

  lemma PassThenAppend(c: Classifier, dropEmpty: bool, need: Need, menu: seq<MenuItem>, items: seq<LineItem>, added: seq<LineItem>)
    requires WellFormed(items) && WellFormed(added) && AllListed(menu, added)
    ensures Accounted(c, menu, items, Finish(c, dropEmpty, need, items, added))
  {
    var p := Process(c, dropEmpty, need, items);
    ProcessAccounts(c, dropEmpty, need, items);
    if AllListed(menu, items) {
      ProcessListed(c, dropEmpty, need, menu, items);
    }
    AppendCombos(menu, p.kept, added);
    if c == ExcludingCombos {
      ProcessSparesCombos(dropEmpty, need, items);
    }
  }

  /** An upgrade loses no cent unaccounted for: the new subtotal is the old one less the
      announced savings, the units are the old ones less those removed plus the combos,
      the lines stay well formed and taken from the menu, and under the corrected
      classifier no combo line is taken apart. */
  lemma UpgradeAccounts(c: Classifier, menu: seq<MenuItem>, items: seq<LineItem>, comboType: string)
    requires WellFormed(items)
    requires TacoComboItem in menu && BurritoComboItem in menu
    requires UpgradeSpec(c, items, comboType).Upgraded?
    ensures Accounted(c, menu, items, UpgradeSpec(c, items, comboType))
  {
    var t := Lower(comboType);
    var chips, drinks := CountKind(c, Chips, items), CountKind(c, Drink, items);
    if t == "both" {
      var tk, bk := BothTacoCombos(c, items), BothBurritoCombos(c, items);
      BothLinesUnits(tk, bk);
      BothLinesListed(menu, tk, bk);
      PassThenAppend(c, true, BothNeed(c, items), menu, items, BothLines(tk, bk));
    } else if t == "taco" {
      var k := TacoCombos(CountKind(c, Taco, items), chips, drinks);
      ComboLineFacts(menu, TacoComboItem, k);
      PassThenAppend(c, false, Need(2 * k, 0, k, k), menu, items, [LineOf(TacoComboItem, k)]);
    } else {
      var k := Min3(CountKind(c, Burrito, items), chips, drinks);
      ComboLineFacts(menu, BurritoComboItem, k);
      PassThenAppend(c, false, Need(0, k, k, k), menu, items, [LineOf(BurritoComboItem, k)]);
    }
  }

  lemma NeedMet(need: Need)
    requires forall k :: Get(need, k) == 0
    ensures Total(need) == 0
  {
    assert Get(need, Taco) == 0 && Get(need, Burrito) == 0;
    assert Get(need, Chips) == 0 && Get(need, Drink) == 0;
  }

  lemma NeedFits(c: Classifier, need: Need, items: seq<LineItem>)
    requires 0 <= need.taco <= CountKind(c, Taco, items) && 0 <= need.burrito <= CountKind(c, Burrito, items)
    requires 0 <= need.chips <= CountKind(c, Chips, items) && 0 <= need.drink <= CountKind(c, Drink, items)
    ensures forall k :: 0 <= Get(need, k) <= CountKind(c, k, items)
  {
  }

  /** The combos the "both" upgrade makes never need more units than the order holds. */
  lemma BothCombosFit(c: Classifier, items: seq<LineItem>)
    requires WellFormed(items)
    ensures 0 <= BothTacoCombos(c, items) && 0 <= BothBurritoCombos(c, items)
    ensures forall k :: 0 <= Get(BothNeed(c, items), k) <= CountKind(c, k, items)
  {
    CountKindBounds(c, Taco, items);
    CountKindBounds(c, Burrito, items);
    CountKindBounds(c, Chips, items);
    CountKindBounds(c, Drink, items);
    NeedFits(c, BothNeed(c, items), items);
  }

  /** A pass that meets every need, followed by the combo lines: of each kind exactly
      the needed units go, and the order's units change by the combos less those units. */
  lemma FinishMeetsNeed(c: Classifier, dropEmpty: bool, need: Need, items: seq<LineItem>, added: seq<LineItem>)
    requires WellFormed(items) && OneKindEach(items)
    requires forall k :: 0 <= Get(need, k) <= CountKind(c, k, items)
    ensures var r := Finish(c, dropEmpty, need, items, added);
      CountKind(c, Taco, r.removed) == need.taco && CountKind(c, Burrito, r.removed) == need.burrito
      && CountKind(c, Chips, r.removed) == need.chips && CountKind(c, Drink, r.removed) == need.drink
      && SumQuantities(r.removed) == Total(need)
      && SumQuantities(r.items) == SumQuantities(items) - Total(need) + SumQuantities(added)
  {
    var p := Process(c, dropEmpty, need, items);
    assert Finish(c, dropEmpty, need, items, added) == Upgraded(p.kept + added, p.removed, added);
    ProcessMeetsNeed(c, dropEmpty, need, items);
    NeedMet(p.need);
    ProcessAccounts(c, dropEmpty, need, items);
    SumsConcat(p.kept, added);
    assert Get(need, Taco) == need.taco && Get(need, Burrito) == need.burrito;
    assert Get(need, Chips) == need.chips && Get(need, Drink) == need.drink;
  }

  /** A taco upgrade makes as many taco combos as the order allows, removes exactly two
      tacos, one chips & salsa and one small drink per combo and nothing else, and
      leaves three units fewer per combo. */
  lemma UpgradeTaco(c: Classifier, items: seq<LineItem>)
    requires WellFormed(items) && OneKindEach(items)
    requires UpgradeTacoSpec(c, items).Upgraded?
    ensures var r := UpgradeTacoSpec(c, items);
      var k := TacoCombos(CountKind(c, Taco, items), CountKind(c, Chips, items), CountKind(c, Drink, items));
      k >= 1 && r.added == [LineOf(TacoComboItem, k)]
      && CountKind(c, Taco, r.removed) == 2 * k && CountKind(c, Burrito, r.removed) == 0
      && CountKind(c, Chips, r.removed) == k && CountKind(c, Drink, r.removed) == k
      && SumQuantities(r.removed) == 4 * k
      && SumQuantities(r.items) == SumQuantities(items) - 3 * k
  {
    var k := TacoCombos(CountKind(c, Taco, items), CountKind(c, Chips, items), CountKind(c, Drink, items));
    TacoCombosIsLargest(CountKind(c, Taco, items), CountKind(c, Chips, items), CountKind(c, Drink, items));
    CountKindBounds(c, Burrito, items);
    NeedFits(c, Need(2 * k, 0, k, k), items);
    SumsAppend([], LineOf(TacoComboItem, k));
    FinishMeetsNeed(c, false, Need(2 * k, 0, k, k), items, [LineOf(TacoComboItem, k)]);
  }

  /** A burrito upgrade makes as many burrito combos as the order allows, removes exactly
      one burrito, one chips & salsa and one small drink per combo and nothing else,
      and leaves two units fewer per combo. */
  lemma UpgradeBurrito(c: Classifier, items: seq<LineItem>)
    requires WellFormed(items) && OneKindEach(items)
    requires UpgradeBurritoSpec(c, items).Upgraded?
    ensures var r := UpgradeBurritoSpec(c, items);
      var k := Min3(CountKind(c, Burrito, items), CountKind(c, Chips, items), CountKind(c, Drink, items));
      k >= 1 && r.added == [LineOf(BurritoComboItem, k)]
      && CountKind(c, Taco, r.removed) == 0 && CountKind(c, Burrito, r.removed) == k
      && CountKind(c, Chips, r.removed) == k && CountKind(c, Drink, r.removed) == k
      && SumQuantities(r.removed) == 3 * k
      && SumQuantities(r.items) == SumQuantities(items) - 2 * k
  {
    var k := Min3(CountKind(c, Burrito, items), CountKind(c, Chips, items), CountKind(c, Drink, items));
    CountKindBounds(c, Taco, items);
    NeedFits(c, Need(0, k, k, k), items);
    SumsAppend([], LineOf(BurritoComboItem, k));
    FinishMeetsNeed(c, false, Need(0, k, k, k), items, [LineOf(BurritoComboItem, k)]);
  }

  /** The "both" upgrade first makes as many taco combos as the order allows, then as
      many burrito combos as the remaining chips & salsa and small drinks allow, removes
      exactly the units those combos stand for, and leaves three units fewer per taco
      combo and two fewer per burrito combo. */
  lemma UpgradeBoth(c: Classifier, items: seq<LineItem>)
    requires WellFormed(items) && OneKindEach(items)
    ensures UpgradeBothSpec(c, items).Upgraded?
    ensures var r, tk, bk := UpgradeBothSpec(c, items), BothTacoCombos(c, items), BothBurritoCombos(c, items);
      tk >= 0 && bk >= 0 && r.added == BothLines(tk, bk)
      && CountKind(c, Taco, r.removed) == 2 * tk && CountKind(c, Burrito, r.removed) == bk
      && CountKind(c, Chips, r.removed) == tk + bk && CountKind(c, Drink, r.removed) == tk + bk
      && SumQuantities(r.items) == SumQuantities(items) - 3 * tk - 2 * bk
  {
    var tk, bk := BothTacoCombos(c, items), BothBurritoCombos(c, items);
    BothCombosFit(c, items);
    BothLinesUnits(tk, bk);
    FinishMeetsNeed(c, true, BothNeed(c, items), items, BothLines(tk, bk));
  }



  // ---------------------------------------------------------------------------
  // check_combo_opportunity.

  datatype Suggestion = NoSuggestion | SuggestTaco | SuggestBurrito | SuggestBoth

  /** The savings the suggestions announce, from the prices the function writes out:
      two $3.49 tacos, $2.99 chips & salsa and a $1.99 drink against a $9.99 combo, and
      an $8.99 burrito with the same sides against a $12.99 combo. */
  const TacoSavings := 2 * 349 + 299 + 199 - 999
  const BurritoSavings := 899 + 299 + 199 - 1299

  function SuggestedSavings(s: Suggestion): int {
    match s
    case NoSuggestion => 0
    case SuggestTaco => TacoSavings
    case SuggestBurrito => BurritoSavings
    case SuggestBoth => TacoSavings + BurritoSavings
  }

  /** check_combo_opportunity: a taco combo when the order holds no taco combo, two
      tacos, chips & salsa and a small drink; a burrito combo when it holds no burrito
      combo, a burrito, and chips & salsa and a small drink beyond those a suggested taco
      combo takes. Combo lines are not counted as tacos or burritos. */
  function ComboOpportunity(items: seq<LineItem>): Suggestion {
    if items == [] then NoSuggestion
    else
      var c := ExcludingCombos;
      var tacos, burritos := CountKind(c, Taco, items), CountKind(c, Burrito, items);
      var chips, drinks := CountKind(c, Chips, items), CountKind(c, Drink, items);
      var taco := CountHaving(items, "taco combo") == 0 && tacos >= 2 && chips >= 1 && drinks >= 1;
      var least := if tacos >= 2 && taco then 2 else 1;
      var burrito := CountHaving(items, "burrito combo") == 0 && burritos >= 1 && chips >= least && drinks >= least;
      if taco && burrito then SuggestBoth
      else if taco then SuggestTaco
      else if burrito then SuggestBurrito
      else NoSuggestion
  }

  /** The classifier as written counts every line the corrected one counts, and more. */
  lemma {:induction false} AsWrittenCountsMore(k: Kind, items: seq<LineItem>)
    requires WellFormed(items)
    ensures CountKind(ExcludingCombos, k, items) <= CountKind(AsWritten, k, items)
  {
    if items != [] {
      AsWrittenCountsMore(k, items[..|items| - 1]);
    }
  }

  /** A suggested combo can always be made: the upgrade of the suggested type succeeds,
      under either classifier, and a suggestion of both makes at least one taco combo. */
  lemma SuggestionIsAchievable(c: Classifier, items: seq<LineItem>)
    requires WellFormed(items)
    ensures var s := ComboOpportunity(items);
      ((s == SuggestTaco || s == SuggestBoth) ==> UpgradeTacoSpec(c, items).Upgraded?)
      && ((s == SuggestBurrito || s == SuggestBoth) ==> UpgradeBurritoSpec(c, items).Upgraded?)
      && (s == SuggestBoth ==> BothTacoCombos(c, items) >= 1)
  {
    AsWrittenCountsMore(Taco, items);
    AsWrittenCountsMore(Burrito, items);
    AsWrittenCountsMore(Chips, items);
    AsWrittenCountsMore(Drink, items);
  }

  /** A suggestion of both combos need not be kept: with four tacos, a burrito, two chips
      & salsa and two small drinks the "both" upgrade makes two taco combos and no
      burrito combo. */
  lemma BothSuggestionMakesNoBurritoCombo(items: seq<LineItem>)
    requires items != [] && CountHaving(items, "taco combo") == 0 && CountHaving(items, "burrito combo") == 0
    requires CountKind(ExcludingCombos, Taco, items) == 4 && CountKind(ExcludingCombos, Burrito, items) == 1
    requires CountKind(ExcludingCombos, Chips, items) == 2 && CountKind(ExcludingCombos, Drink, items) == 2
    ensures ComboOpportunity(items) == SuggestBoth
    ensures BothTacoCombos(ExcludingCombos, items) == 2 && BothBurritoCombos(ExcludingCombos, items) == 0
  {
  }

  // ---------------------------------------------------------------------------
  // Concrete orders.

  /** "Taco Combo" passes the taco test, holds "combo" and "taco combo", and nothing else. */
  lemma TacoComboKinds()
    ensures Lower("Taco Combo") == "taco combo"
    ensures Raw(Taco, "taco combo") && Exclusive("taco combo")
    ensures Contains("taco combo", "combo") && Contains("taco combo", "taco combo")
    ensures !Contains("taco combo", "burrito combo")
  {
    TacoComboName();
    TacoComboHolds();
    NotContainsLacking("taco combo", "burrito combo", 1);
  }

  lemma TacoComboHolds()
    ensures Raw(Taco, "taco combo")
    ensures Contains("taco combo", "combo") && Contains("taco combo", "taco combo")
  {
    TacoComboSlices();
    ContainsAt("taco combo", "taco", 0);
    ContainsAt("taco combo", "combo", 5);
    ContainsAt("taco combo", "taco combo", 0);
  }

  lemma TacoComboSlices()
    ensures "taco combo"[0..4] == "taco" && "taco combo"[5..10] == "combo"
    ensures "taco combo"[0..10] == "taco combo"
  {
  }

  /** "Chips & Salsa" passes the chips & salsa test and holds no "combo". */
  lemma ChipsSalsaKinds()
    ensures Lower("Chips & Salsa") == "chips & salsa"
    ensures Raw(Chips, "chips & salsa") && Exclusive("chips & salsa")
    ensures !Contains("chips & salsa", "combo") && !Contains("chips & salsa", "taco combo")
    ensures !Contains("chips & salsa", "burrito combo")
  {
    ChipsSalsaName();
    ChipsSalsaHolds();
    ChipsSalsaLacks();
  }

  lemma ChipsSalsaHolds()
    ensures Raw(Chips, "chips & salsa")
  {
    ChipsSalsaSlices();
    ContainsAt("chips & salsa", "chips", 0);
    ContainsAt("chips & salsa", "salsa", 8);
  }

  lemma ChipsSalsaSlices()
    ensures "chips & salsa"[0..5] == "chips" && "chips & salsa"[8..13] == "salsa"
  {
  }

  lemma ChipsSalsaLacks()
    ensures !Contains("chips & salsa", "combo") && !Contains("chips & salsa", "taco combo")
    ensures !Contains("chips & salsa", "burrito combo")
  {
    NotContainsLacking("chips & salsa", "combo", 1);
    NotContainsLacking("chips & salsa", "taco combo", 0);
    NotContainsLacking("chips & salsa", "burrito combo", 0);
  }

  /** "Small Drink" passes the small drink test and holds no "combo". */
  lemma SmallDrinkKinds()
    ensures Lower("Small Drink") == "small drink"
    ensures Raw(Drink, "small drink") && Exclusive("small drink")
    ensures !Contains("small drink", "combo") && !Contains("small drink", "taco combo")
    ensures !Contains("small drink", "burrito combo")
  {
    SmallDrinkName();
    SmallDrinkHolds();
    SmallDrinkLacks();
  }

  lemma SmallDrinkHolds()
    ensures Raw(Drink, "small drink")
  {
    SmallDrinkSlices();
    ContainsAt("small drink", "small", 0);
    ContainsAt("small drink", "drink", 6);
  }

  lemma SmallDrinkSlices()
    ensures "small drink"[0..5] == "small" && "small drink"[6..11] == "drink"
  {
  }

  lemma SmallDrinkLacks()
    ensures !Contains("small drink", "combo") && !Contains("small drink", "taco combo")
    ensures !Contains("small drink", "burrito combo")
  {
    NotContainsLacking("small drink", "combo", 0);
    NotContainsLacking("small drink", "taco combo", 0);
    NotContainsLacking("small drink", "burrito combo", 0);
  }

  function Contribution(c: Classifier, k: Kind, l: LineItem): int {
    if IsKind(c, k, Lower(l.name)) then l.quantity else 0
  }

  lemma CountThree(c: Classifier, k: Kind, a: LineItem, b: LineItem, d: LineItem)
    ensures CountKind(c, k, [a, b, d]) == Contribution(c, k, a) + Contribution(c, k, b) + Contribution(c, k, d)
  {
    assert [a, b, d][..2] == [a, b];
    assert [a, b][..1] == [a];
    assert [a][..0] == [];
    assert CountKind(c, k, [a]) == Contribution(c, k, a);
    assert CountKind(c, k, [a, b]) == Contribution(c, k, a) + Contribution(c, k, b);
  }

  lemma SubtotalThree(a: LineItem, b: LineItem, d: LineItem)
    ensures Subtotal([a, b, d]) == a.total + b.total + d.total
  {
    assert [a, b, d][..2] == [a, b];
    assert [a, b][..1] == [a];
    assert [a][..0] == [];
    assert Subtotal([a]) == a.total;
    assert Subtotal([a, b]) == a.total + b.total;
  }

  lemma ProcessThree(c: Classifier, dropEmpty: bool, need: Need, a: LineItem, b: LineItem, d: LineItem)
    ensures Process(c, dropEmpty, need, [a, b, d])
      == Step(c, dropEmpty, Step(c, dropEmpty, Step(c, dropEmpty, Pass([], [], need), a), b), d)
  {
    ProcessSnoc(c, dropEmpty, need, [], a);
    ProcessSnoc(c, dropEmpty, need, [a], b);
    ProcessSnoc(c, dropEmpty, need, [a, b], d);
    assert [] + [a] == [a] && [a] + [b] == [a, b] && [a, b] + [d] == [a, b, d];
  }

  /** The loop over one more line is one more iteration. */
  lemma ProcessSnoc(c: Classifier, dropEmpty: bool, need: Need, s: seq<LineItem>, x: LineItem)
    ensures Process(c, dropEmpty, need, s + [x]) == Step(c, dropEmpty, Process(c, dropEmpty, need, s), x)
  {
    assert (s + [x])[..|s|] == s;
  }

  const TwoTacoCombos := LineItem("C001", "Taco Combo", 999, 2, 1998)
  const OneChipsSalsa := LineItem("S001", "Chips & Salsa", 299, 1, 299)
  const OneSmallDrink := LineItem("D001", "Small Drink", 199, 1, 199)

  /** Two taco combos, chips & salsa and a small drink. */
  function TwoCombosAndSides(): seq<LineItem> {
    [TwoTacoCombos, OneChipsSalsa, OneSmallDrink]
  }

  lemma TwoCombosAndSidesCounts()
    ensures CountKind(AsWritten, Taco, TwoCombosAndSides()) == 2
    ensures CountKind(AsWritten, Chips, TwoCombosAndSides()) == 1
    ensures CountKind(AsWritten, Drink, TwoCombosAndSides()) == 1
    ensures CountKind(ExcludingCombos, Taco, TwoCombosAndSides()) == 0
  {
    TacoComboKinds();
    ChipsSalsaKinds();
    SmallDrinkKinds();
    CountThree(AsWritten, Taco, TwoTacoCombos, OneChipsSalsa, OneSmallDrink);
    CountThree(AsWritten, Chips, TwoTacoCombos, OneChipsSalsa, OneSmallDrink);
    CountThree(AsWritten, Drink, TwoTacoCombos, OneChipsSalsa, OneSmallDrink);
    CountThree(ExcludingCombos, Taco, TwoTacoCombos, OneChipsSalsa, OneSmallDrink);
  }

  lemma TwoCombosAndSidesPass()
    ensures Process(AsWritten, false, Need(2, 0, 1, 1), TwoCombosAndSides())
      == Pass([], TwoCombosAndSides(), Need(0, 0, 0, 0))
  {
    var a, b, d := TwoTacoCombos, OneChipsSalsa, OneSmallDrink;
    ProcessThree(AsWritten, false, Need(2, 0, 1, 1), a, b, d);
    TacoComboKinds();
    var p1 := Step(AsWritten, false, Pass([], [], Need(2, 0, 1, 1)), a);
    assert p1 == Pass([], [a], Need(0, 0, 1, 1));
    TwoCombosAndSidesTail(p1);
  }

  lemma TwoCombosAndSidesTail(p1: Pass)
    requires p1 == Pass([], [TwoTacoCombos], Need(0, 0, 1, 1))
    ensures Step(AsWritten, false, Step(AsWritten, false, p1, OneChipsSalsa), OneSmallDrink)
      == Pass([], [TwoTacoCombos, OneChipsSalsa, OneSmallDrink], Need(0, 0, 0, 0))
  {
    ChipsSalsaKinds();
    var p2 := Step(AsWritten, false, p1, OneChipsSalsa);
    assert p2 == Pass([], [TwoTacoCombos, OneChipsSalsa], Need(0, 0, 0, 1));
    SmallDrinkKinds();
  }

  /** As written, a taco upgrade of two taco combos, chips & salsa and a small drink
      counts the combos as tacos and turns the $24.96 order into one $9.99 taco combo;
      the corrected classifier refuses it for want of tacos. */
  lemma AsWrittenEatsTacoCombos()
    ensures var r := UpgradeTacoSpec(AsWritten, TwoCombosAndSides());
      r.Upgraded? && r.items == [LineOf(TacoComboItem, 1)]
      && Subtotal(TwoCombosAndSides()) == 2496 && Subtotal(r.items) == 999
    ensures UpgradeTacoSpec(ExcludingCombos, TwoCombosAndSides()) == NotEnoughForTaco
  {
    TwoCombosAndSidesCounts();
    assert TacoCombos(2, 1, 1) == 1;
    TwoCombosAndSidesPass();
    SubtotalThree(TwoTacoCombos, OneChipsSalsa, OneSmallDrink);
    SumsAppend([], LineOf(TacoComboItem, 1));
    assert [] + [LineOf(TacoComboItem, 1)] == [LineOf(TacoComboItem, 1)];
  }

  /** "Bean & Cheese Burrito" passes the burrito test and holds no "combo". */
  lemma BeanCheeseBurritoKinds()
    ensures Lower("Bean & Cheese Burrito") == "bean & cheese burrito"
    ensures Raw(Burrito, "bean & cheese burrito") && Exclusive("bean & cheese burrito")
    ensures !Contains("bean & cheese burrito", "combo") && !Contains("bean & cheese burrito", "taco combo")
    ensures !Contains("bean & cheese burrito", "burrito combo")
  {
    BeanCheeseBurritoLower();
    BeanCheeseBurritoName();
    BeanCheeseBurritoHolds();
    BeanCheeseBurritoLacks();
  }

  lemma BeanCheeseBurritoHolds()
    ensures Raw(Burrito, "bean & cheese burrito")
  {
    BeanCheeseBurritoSlice();
    ContainsAt("bean & cheese burrito", "burrito", 14);
  }

  lemma BeanCheeseBurritoSlice()
    ensures "bean & cheese burrito"[14..21] == "burrito"
  {
  }

  lemma BeanCheeseBurritoLacks()
    ensures !Contains("bean & cheese burrito", "combo") && !Contains("bean & cheese burrito", "taco combo")
    ensures !Contains("bean & cheese burrito", "burrito combo")
  {
    NotContainsLacking("bean & cheese burrito", "combo", 2);
    NotContainsLacking("bean & cheese burrito", "taco combo", 7);
    NotContainsLacking("bean & cheese burrito", "burrito combo", 10);
  }

  function Holding(sub: string, l: LineItem): int {
    if Contains(Lower(l.name), sub) then l.quantity else 0
  }

  lemma HavingThree(sub: string, a: LineItem, b: LineItem, d: LineItem)
    ensures CountHaving([a, b, d], sub) == Holding(sub, a) + Holding(sub, b) + Holding(sub, d)
  {
    assert [a, b, d][..2] == [a, b];
    assert [a, b][..1] == [a];
    assert [a][..0] == [];
    assert CountHaving([a], sub) == Holding(sub, a);
    assert CountHaving([a, b], sub) == Holding(sub, a) + Holding(sub, b);
  }

  const OneBeanBurrito := LineItem("B003", "Bean & Cheese Burrito", 699, 1, 699)

  /** A bean & cheese burrito, chips & salsa and a small drink. */
  function BeanBurritoAndSides(): seq<LineItem> {
    [OneBeanBurrito, OneChipsSalsa, OneSmallDrink]
  }

  lemma BeanBurritoAndSidesCounts()
    ensures CountKind(ExcludingCombos, Taco, BeanBurritoAndSides()) == 0
    ensures CountKind(ExcludingCombos, Burrito, BeanBurritoAndSides()) == 1
    ensures CountKind(ExcludingCombos, Chips, BeanBurritoAndSides()) == 1
    ensures CountKind(ExcludingCombos, Drink, BeanBurritoAndSides()) == 1
  {
    var c, a, b, d := ExcludingCombos, OneBeanBurrito, OneChipsSalsa, OneSmallDrink;
    BeanCheeseBurritoKinds();
    ChipsSalsaKinds();
    SmallDrinkKinds();
    CountThree(c, Taco, a, b, d);
    CountThree(c, Burrito, a, b, d);
    CountThree(c, Chips, a, b, d);
    CountThree(c, Drink, a, b, d);
  }

  lemma BeanBurritoAndSidesHolds()
    ensures CountHaving(BeanBurritoAndSides(), "taco combo") == 0
    ensures CountHaving(BeanBurritoAndSides(), "burrito combo") == 0
  {
    var a, b, d := OneBeanBurrito, OneChipsSalsa, OneSmallDrink;
    BeanCheeseBurritoKinds();
    ChipsSalsaKinds();
    SmallDrinkKinds();
    HavingThree("taco combo", a, b, d);
    HavingThree("burrito combo", a, b, d);
  }

  lemma BeanBurritoAndSidesPass()
    ensures Process(ExcludingCombos, false, Need(0, 1, 1, 1), BeanBurritoAndSides())
      == Pass([], BeanBurritoAndSides(), Need(0, 0, 0, 0))
  {
    var c, a, b, d := ExcludingCombos, OneBeanBurrito, OneChipsSalsa, OneSmallDrink;
    ProcessThree(c, false, Need(0, 1, 1, 1), a, b, d);
    BeanCheeseBurritoKinds();
    var p1 := Step(c, false, Pass([], [], Need(0, 1, 1, 1)), a);
    assert p1 == Pass([], [a], Need(0, 0, 1, 1));
    BeanBurritoAndSidesTail(p1);
  }

  lemma BeanBurritoAndSidesTail(p1: Pass)
    requires p1 == Pass([], [OneBeanBurrito], Need(0, 0, 1, 1))
    ensures Step(ExcludingCombos, false, Step(ExcludingCombos, false, p1, OneChipsSalsa), OneSmallDrink)
      == Pass([], [OneBeanBurrito, OneChipsSalsa, OneSmallDrink], Need(0, 0, 0, 0))
  {
    ChipsSalsaKinds();
    var p2 := Step(ExcludingCombos, false, p1, OneChipsSalsa);
    assert p2 == Pass([], [OneBeanBurrito, OneChipsSalsa], Need(0, 0, 0, 1));
    SmallDrinkKinds();
  }

  /** The suggestions announce fixed savings: for a bean & cheese burrito, chips & salsa
      and a small drink the burrito combo is suggested as saving $0.98, yet the upgrade
      turns the $11.97 order into a $12.99 combo, $1.02 more. The same upgrade is how
      an order's subtotal can grow past $500. */
  lemma BurritoSuggestionCostsMore()
    ensures ComboOpportunity(BeanBurritoAndSides()) == SuggestBurrito
    ensures SuggestedSavings(SuggestBurrito) == 98
    ensures var r := UpgradeSpec(ExcludingCombos, BeanBurritoAndSides(), "burrito");
      r.Upgraded? && r.items == [LineOf(BurritoComboItem, 1)]
      && Subtotal(BeanBurritoAndSides()) == 1197 && Subtotal(r.items) == 1299 && Savings(r) == -102
  {
    BeanBurritoAndSidesCounts();
    BeanBurritoAndSidesHolds();
    assert Lower("burrito") == "burrito";
    assert Min3(1, 1, 1) == 1;
    BeanBurritoAndSidesPass();
    SubtotalThree(OneBeanBurrito, OneChipsSalsa, OneSmallDrink);
    SumsAppend([], LineOf(BurritoComboItem, 1));
    assert [] + [LineOf(BurritoComboItem, 1)] == [LineOf(BurritoComboItem, 1)];
  }
}
