/** The menu, its alias table, and find_menu_item without the TF-IDF matcher:
    exact name, then alias, then the integer fuzzy score. */
module Menu {
  import opened Base
  import opened Text

  datatype Category = Tacos | Burritos | Quesadillas | Sides | Drinks | Combos

  /** One menu entry; the price is in cents. */
  datatype MenuItem = MenuItem(sku: string, name: string, price: int, category: Category)

  /** MENU, flattened in the order Python iterates it (categories, then SKUs). */
  const Items: seq<MenuItem> := [
    MenuItem("T001", "Beef Taco", 349, Tacos),
    MenuItem("T002", "Chicken Taco", 349, Tacos),
    MenuItem("T003", "Bean Taco", 299, Tacos),
    MenuItem("B001", "Beef Burrito", 899, Burritos),
    MenuItem("B002", "Chicken Burrito", 899, Burritos),
    MenuItem("B003", "Bean & Cheese Burrito", 699, Burritos),
    MenuItem("Q001", "Cheese Quesadilla", 599, Quesadillas),
    MenuItem("Q002", "Chicken Quesadilla", 799, Quesadillas),
    MenuItem("S001", "Chips & Salsa", 299, Sides),
    MenuItem("S002", "Chips & Guacamole", 499, Sides),
    MenuItem("D001", "Small Drink", 199, Drinks),
    MenuItem("D002", "Large Drink", 299, Drinks),
    MenuItem("D003", "Bottled Water", 199, Drinks),
    MenuItem("C001", "Taco Combo", 999, Combos),
    MenuItem("C002", "Burrito Combo", 1299, Combos)
  ]

  /** MENU_ALIASES, in its own order. */
  const Aliases: seq<(string, seq<string>)> := [
    ("D003", ["water", "bottled water", "water bottle", "aqua", "bottle of water", "h2o"]),
    ("D001", ["small soda", "small drink", "soda", "soft drink", "small fountain drink", "coke", "pepsi", "sprite"]),
    ("D002", ["large soda", "large drink", "big drink", "large fountain drink", "big soda"]),
    ("Q001", ["quesadilla", "cheese quesadilla", "plain quesadilla", "just cheese", "cheese only"]),
    ("Q002", ["chicken quesadilla", "chicken and cheese quesadilla"]),
    ("C001", ["taco meal", "taco combo", "taco deal", "taco special", "combo taco"]),
    ("C002", ["burrito meal", "burrito combo", "burrito deal", "burrito special", "combo burrito"]),
    ("S001", ["chips", "nachos", "chips and salsa", "chips with salsa", "salsa and chips", "just chips", "salsa", "chips n salsa"]),
    ("S002", ["guac", "chips and guac", "chips with guacamole", "guacamole and chips", "guac and chips", "guacamole", "chips n guacamole"]),
    ("T001", ["beef taco", "beef tacos", "ground beef taco", "regular taco", "taco beef"]),
    ("T002", ["chicken taco", "chicken tacos", "grilled chicken taco", "taco chicken"]),
    ("T003", ["bean taco", "bean tacos", "vegetarian taco", "veggie taco"]),
    ("B001", ["beef burrito", "beef burritos", "regular burrito", "burrito beef", "burrito with beef"]),
    ("B002", ["chicken burrito", "chicken burritos", "burrito chicken", "burrito with chicken"]),
    ("B003", ["bean burrito", "bean burritos", "bean and cheese burrito", "cheese and bean burrito"])
  ]

  /** Every price is positive, and no two entries share a SKU. */
  lemma MenuFacts()
    ensures forall i :: 0 <= i < |Items| ==> Items[i].price > 0
    ensures forall i, j :: 0 <= i < j < |Items| ==> Items[i].sku != Items[j].sku
  {
  }

  // ---------------------------------------------------------------------------
  // Exact and alias lookup.

  /** The first entry whose lower-cased name is exactly `s`. */
  function ExactMatch(items: seq<MenuItem>, s: string): (r: Option<MenuItem>)
    ensures r.Some? <==> exists i :: 0 <= i < |items| && Lower(items[i].name) == s
    ensures r.Some? ==> r.value in items && Lower(r.value.name) == s
  {
    if items == [] then None
    else if Lower(items[0].name) == s then Some(items[0])
    else
      var r := ExactMatch(items[1..], s);
      assert forall i :: 1 <= i < |items| ==> items[i] == items[1..][i - 1];
      r
  }

  /** The menu entry with the given SKU. */
  function ItemBySku(items: seq<MenuItem>, sku: string): (r: Option<MenuItem>)
    ensures r.Some? <==> exists i :: 0 <= i < |items| && items[i].sku == sku
    ensures r.Some? ==> r.value in items && r.value.sku == sku
  {
    if items == [] then None
    else if items[0].sku == sku then Some(items[0])
    else
      var r := ItemBySku(items[1..], sku);
      assert forall i :: 1 <= i < |items| ==> items[i] == items[1..][i - 1];
      r
  }

  predicate HasAlias(aliases: seq<string>, s: string) {
    exists j :: 0 <= j < |aliases| && Lower(aliases[j]) == s
  }

  /** The alias scan: the first SKU, in alias-table order, one of whose aliases is
      exactly `s` and which names a menu entry. */
  function AliasMatch(menu: seq<MenuItem>, table: seq<(string, seq<string>)>, s: string): (r: Option<MenuItem>)
    ensures r.Some? ==> r.value in menu
                        && exists k :: 0 <= k < |table| && table[k].0 == r.value.sku && HasAlias(table[k].1, s)
    ensures r.None? ==> forall k :: 0 <= k < |table| && HasAlias(table[k].1, s) ==> ItemBySku(menu, table[k].0).None?
  {
    if table == [] then None
    else if HasAlias(table[0].1, s) && ItemBySku(menu, table[0].0).Some? then ItemBySku(menu, table[0].0)
    else
      var r := AliasMatch(menu, table[1..], s);
      assert forall k :: 1 <= k < |table| ==> table[k] == table[1..][k - 1];
      r
  }

  // ---------------------------------------------------------------------------
  // Fuzzy score.

  /** The input with the filler words the fuzzy matcher drops, then stripped. */
  function Clean(s: string): string {
    Strip(Replace(Replace(Replace(Replace(Replace(s, "the ", ""), "a ", ""), "an ", ""), "just ", ""), "plain ", ""))
  }

  /** all(word in name for word in words) */
  predicate AllIn(words: seq<string>, name: string) {
    words == [] || (Contains(name, words[0]) && AllIn(words[1..], name))
  }

  /** any(word in alias for word in words) */
  predicate AnyIn(words: seq<string>, alias: string) {
    words != [] && (Contains(alias, words[0]) || AnyIn(words[1..], alias))
  }

  /** The aliases of a SKU, none when the alias table has no entry for it. */
  function AliasesOf(table: seq<(string, seq<string>)>, sku: string): seq<string> {
    if table == [] then []
    else if table[0].0 == sku then table[0].1
    else AliasesOf(table[1..], sku)
  }

  /** The alias part of the score: 40 for every alias sharing a word with the input,
      up to the first alias holding the whole input, which adds 70 and ends the scan. */
  function AliasScore(clean: string, words: seq<string>, aliases: seq<string>): (r: int)
    ensures 0 <= r <= 40 * |aliases| + 30
  {
    if aliases == [] then 0
    else if Contains(Lower(aliases[0]), clean) then 70
    else (if AnyIn(words, Lower(aliases[0])) then 40 else 0) + AliasScore(clean, words, aliases[1..])
  }

  function QuesadillaScore(clean: string, n: string): int {
    if Contains(clean, "quesadilla") && Contains(n, "quesadilla") then
      50 + (if !Contains(clean, "cheese") && Contains(n, "cheese") && !Contains(n, "chicken") then 30 else 0)
    else 0
  }

  function WaterScore(clean: string, n: string): int {
    if Contains(clean, "water") && Contains(n, "water") then 90 else 0
  }

  function ComboScore(clean: string, n: string): int {
    if Contains(clean, "combo") && Contains(n, "combo") then
      60 + (if Contains(clean, "taco") && Contains(n, "taco") then 40
            else if Contains(clean, "burrito") && Contains(n, "burrito") then 40
            else 0)
    else 0
  }

  function DrinkScore(clean: string, n: string): int {
    if (Contains(clean, "drink") || Contains(clean, "soda")) && Contains(n, "drink") then
      50 + (if Contains(clean, "small") && Contains(n, "small") then 40
            else if Contains(clean, "large") && Contains(n, "large") then 40
            else if !Contains(clean, "small") && !Contains(clean, "large") && Contains(n, "small") then 20
            else 0)
    else 0
  }

  function ChipsScore(clean: string, n: string): int {
    if Contains(clean, "chips") && Contains(n, "chips") then
      50 + (if Contains(clean, "guac") && Contains(n, "guacamole") then 40
            else if Contains(clean, "salsa") && Contains(n, "salsa") then 40
            else if !Contains(clean, "salsa") && !Contains(clean, "guac") && Contains(n, "salsa") then 20
            else 0)
    else 0
  }

  /** The fuzzy score of one menu entry against the cleaned input. */
  function Score(table: seq<(string, seq<string>)>, clean: string, item: MenuItem): (r: int)
    ensures r >= 0
  {
    var n := Lower(item.name);
    var words := Split(clean);
    (if AllIn(words, n) then 80 else 0)
    + AliasScore(clean, words, AliasesOf(table, item.sku))
    + QuesadillaScore(clean, n) + WaterScore(clean, n) + ComboScore(clean, n)
    + DrinkScore(clean, n) + ChipsScore(clean, n)
  }

  /** The score of every menu entry, in menu order. */
  function Scores(menu: seq<MenuItem>, table: seq<(string, seq<string>)>, clean: string): (r: seq<int>)
    ensures |r| == |menu|
    ensures forall j :: 0 <= j < |menu| ==> r[j] == Score(table, clean, menu[j])
  {
    seq(|menu|, j requires 0 <= j < |menu| => Score(table, clean, menu[j]))
  }

  /** The scan over the first n scores: the best score so far, starting from 0, and the
      index of the first entry that reached it. */
  function BestUpTo(scores: seq<int>, n: nat): (r: (int, Option<nat>))
    requires n <= |scores|
    ensures r.1.Some? ==> r.1.value < n && r.0 == scores[r.1.value]
    ensures r.1.None? ==> r.0 == 0
  {
    if n == 0 then (0, None)
    else
      var prev := BestUpTo(scores, n - 1);
      if scores[n - 1] > prev.0 then (scores[n - 1], Some(n - 1)) else prev
  }

  /** The scan's best entry when its score is at least 40. */
  function Pick(menu: seq<MenuItem>, scores: seq<int>): Option<MenuItem>
    requires |scores| == |menu|
  {
    var best := BestUpTo(scores, |menu|);
    if best.0 >= 40 && best.1.Some? then Some(menu[best.1.value]) else None
  }

  /** The fuzzy match: the best-scoring entry when its score is at least 40. */
  function FuzzyBest(menu: seq<MenuItem>, table: seq<(string, seq<string>)>, clean: string): Option<MenuItem> {
    Pick(menu, Scores(menu, table, clean))
  }

  /** The scan keeps the running maximum (never below 0), and the first entry that attains it. */
  lemma {:induction false} BestUpToIsFirstMax(scores: seq<int>, n: nat)
    requires n <= |scores|
    ensures var r := BestUpTo(scores, n);
      r.0 >= 0
      && (forall j :: 0 <= j < n ==> scores[j] <= r.0)
      && (r.1.Some? ==> forall j :: 0 <= j < r.1.value ==> scores[j] < r.0)
      && (r.1.None? ==> forall j :: 0 <= j < n ==> scores[j] <= 0)
  {
    if n > 0 {
      BestUpToIsFirstMax(scores, n - 1);
    }
  }

  /** The fuzzy match is the first entry of highest score, provided that score is at
      least 40; there is none exactly when every entry scores below 40. */
  lemma FuzzyBestIsFirstMax(menu: seq<MenuItem>, table: seq<(string, seq<string>)>, clean: string)
    ensures FuzzyBest(menu, table, clean).None? <==> forall j :: 0 <= j < |menu| ==> Score(table, clean, menu[j]) < 40
    ensures FuzzyBest(menu, table, clean).Some? ==>
      exists k :: 0 <= k < |menu| && FuzzyBest(menu, table, clean).value == menu[k]
        && Score(table, clean, menu[k]) >= 40
        && (forall j :: 0 <= j < |menu| ==> Score(table, clean, menu[j]) <= Score(table, clean, menu[k]))
        && (forall j :: 0 <= j < k ==> Score(table, clean, menu[j]) < Score(table, clean, menu[k]))
  {
    var scores := Scores(menu, table, clean);
    BestUpToIsFirstMax(scores, |menu|);
    var best := BestUpTo(scores, |menu|);
    if best.1.Some? {
      var k := best.1.value;
      if best.0 < 40 {
        assert scores[k] < 40;
      }
    }
  }

  /** The fuzzy scan of find_menu_item: keeps the best score and entry seen so far,
      replacing them only on a strictly higher score. */
  method ScanScores(menu: seq<MenuItem>, table: seq<(string, seq<string>)>, clean: string)
    returns (bestScore: int, bestMatch: Option<nat>)
    ensures bestScore == BestUpTo(Scores(menu, table, clean), |menu|).0
    ensures bestMatch == BestUpTo(Scores(menu, table, clean), |menu|).1
  {
    ghost var want := Scores(menu, table, clean);
    ghost var seen: seq<int> := [];
    bestScore := 0;
    bestMatch := None;
    var i := 0;
    while i < |menu|
      invariant 0 <= i <= |menu| && seen == want[..i]
      invariant bestScore == BestUpTo(seen, i).0 && bestMatch == BestUpTo(seen, i).1
    {
      var score := Score(table, clean, menu[i]);
      assert score == want[i];
      BestUpToPrefix(seen + [score], seen, i);
      assert want[..i + 1] == want[..i] + [want[i]];
      seen := seen + [score];
      if score > bestScore {
        bestScore := score;
        bestMatch := Some(i);
      }
      i := i + 1;
    }
    assert seen == want;
  }

  /** The fuzzy match: the scan's best entry when its score is at least 40. */
  method FuzzyMatch(menu: seq<MenuItem>, table: seq<(string, seq<string>)>, clean: string) returns (r: Option<MenuItem>)
    ensures r == FuzzyBest(menu, table, clean)
  {
    var bestScore, bestMatch := ScanScores(menu, table, clean);
    PickOfScan(menu, Scores(menu, table, clean), bestScore, bestMatch);
    if bestScore >= 40 && bestMatch.Some? {
      r := Some(menu[bestMatch.value]);
    } else {
      r := None;
    }
  }

  /** The scan over the first n scores looks at nothing after them. */
  lemma {:induction false} BestUpToPrefix(s: seq<int>, t: seq<int>, n: nat)
    requires n <= |s| && n <= |t| && s[..n] == t[..n]
    ensures BestUpTo(s, n) == BestUpTo(t, n)
  {
    if n > 0 {
      assert s[..n - 1] == s[..n][..n - 1];
      assert t[..n - 1] == t[..n][..n - 1];
      assert s[n - 1] == s[..n][n - 1];
      assert t[n - 1] == t[..n][n - 1];
      BestUpToPrefix(s, t, n - 1);
    }
  }

  lemma PickOfScan(menu: seq<MenuItem>, scores: seq<int>, bestScore: int, bestMatch: Option<nat>)
    requires |scores| == |menu|
    requires bestScore == BestUpTo(scores, |menu|).0 && bestMatch == BestUpTo(scores, |menu|).1
    ensures bestMatch.Some? ==> bestMatch.value < |menu|
    ensures Pick(menu, scores) == if bestScore >= 40 && bestMatch.Some? then Some(menu[bestMatch.value]) else None
  {
  }

  // ---------------------------------------------------------------------------
  // find_menu_item.

  /** What find_menu_item returns for a spoken name, with no TF-IDF model loaded. */
  function LookupIn(menu: seq<MenuItem>, table: seq<(string, seq<string>)>, itemName: string): Option<MenuItem> {
    var s := Strip(Lower(itemName));
    match ExactMatch(menu, s)
    case Some(item) => Some(item)
    case None =>
      match AliasMatch(menu, table, s)
      case Some(item) => Some(item)
      case None => FuzzyBest(menu, table, Clean(s))
  }

  /** The lookup against this restaurant's menu and aliases. */
  function Lookup(itemName: string): (r: Option<MenuItem>)
    ensures r.Some? ==> r.value in Items && r.value.price > 0
  {
    LookupFacts(Items, Aliases, itemName);
    MenuFacts();
    LookupIn(Items, Aliases, itemName)
  }

  /** find_menu_item against this restaurant's menu and aliases. */
  method FindOnMenu(itemName: string) returns (r: Option<MenuItem>)
    ensures r == Lookup(itemName)
  {
    r := FindMenuItem(Items, Aliases, itemName);
  }

  /** A lookup only ever yields a menu entry; an exact name wins, then an alias. */
  lemma LookupFacts(menu: seq<MenuItem>, table: seq<(string, seq<string>)>, itemName: string)
    ensures LookupIn(menu, table, itemName).Some? ==> LookupIn(menu, table, itemName).value in menu
    ensures var s := Strip(Lower(itemName));
      (exists i :: 0 <= i < |menu| && Lower(menu[i].name) == s) ==> LookupIn(menu, table, itemName) == ExactMatch(menu, s)
  {
    var s := Strip(Lower(itemName));
    if ExactMatch(menu, s).None? && AliasMatch(menu, table, s).None? {
      FuzzyBestIsFirstMax(menu, table, Clean(s));
      if FuzzyBest(menu, table, Clean(s)).Some? {
        var k :| 0 <= k < |menu| && FuzzyBest(menu, table, Clean(s)).value == menu[k];
        assert menu[k] in menu;
      }
    }
  }

  method FindMenuItem(menu: seq<MenuItem>, table: seq<(string, seq<string>)>, itemName: string) returns (r: Option<MenuItem>)
    ensures r == LookupIn(menu, table, itemName)
  {
    var s := Strip(Lower(itemName));
    r := ExactMatch(menu, s);
    if r.None? {
      r := AliasMatch(menu, table, s);
      if r.None? {
        r := FuzzyMatch(menu, table, Clean(s));
      }
    }
  }
}
