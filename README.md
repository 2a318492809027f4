# Holy Guacamole drive-thru order cart, in Dafny

Holy Guacamole is a voice ordering agent for a Mexican drive-thru. A customer speaks,
and the agent calls tools that change a session-scoped order:

- `add_item`, `remove_item` and `modify_quantity` add, remove and change lines;
- `upgrade_to_combo` folds tacos or burritos, chips & salsa and small drinks into combo meals;
- `review_order` and `finalize_order` read the total;
- `process_payment` draws an order number;
- `complete_order`, `cancel_order` and `new_order` reset the order.

Spoken replies spell money and order numbers in English words. A static table lists, for
each conversation step, the tools it enables and the steps it may move to.

This project models that order core with money in integer cents:

| file | module | what it holds |
|---|---|---|
| `text.dfy` | `Text` | the Python string operations the core relies on: lower, strip, split, replace, `in`, join |
| `money.dfy` | `Base`, `Money` | `Option`; truncating division (Python's `int(a / b)`); the 10% tax rounded to the cent |
| `words.dfy` | `Words` | `number_to_words`, `dollars_to_words` and `order_number_to_words`, with decoders that read the words back |
| `menu.dfy` | `Menu` | the `MENU` and `MENU_ALIASES` tables, and `find_menu_item`: exact name, then alias, then the integer fuzzy score with threshold 40 |
| `cart.dfy` | `Cart` | line items and the limits of `add_item`, `remove_item` and `modify_quantity`, as functions on the list of lines |
| `combo.dfy` | `Combo` | `check_combo_opportunity` and `upgrade_to_combo`: the counts, the greedy consumption pass, and the appended combo lines |
| `steps.dfy` | `Steps` | the step table and the step each tool switches to |
| `order.dfy` | `Order` | the tools as imperative code |

`order.dfy` has two layers:

- Loops over the lines are methods proved equal to the functions of `Cart` and `Combo`.
- The `OrderState` class holds the order's fields. Each tool method updates them in place and keeps one invariant, `Valid()`:
  - every line's total is its price times its quantity;
  - every line names a menu entry;
  - the order holds at most 50 units;
  - the subtotal, tax, total and item count agree with the lines.

Money is in cents. The tax is 10% of the subtotal, rounded to the nearest cent, with
halves rounded away from zero.

## Model

| member | source | states |
|---|---|---|
| Money.TruncDiv | holy_guacamole.py:880 | `int(a / b)` for a positive divisor: the quotient rounded toward zero, for negative dividends as well |
| Money.Tax | holy_guacamole.py:239 | the tax is within half a cent of a tenth of the subtotal |
| Money.TaxMonotonic | holy_guacamole.py:236-241 | a larger subtotal never gets a smaller tax |
| Cart.Totals | holy_guacamole.py:236-241 | calculate_totals: the subtotal is the sum of the line totals, the tax is a tenth of it to the cent, and total = subtotal + tax |
| Cart.LineOf | holy_guacamole.py:620-628 | a new line has the menu entry's SKU, name and price, and total = price × quantity |
| Cart.WithQuantity | holy_guacamole.py:611-612 | a line with a new quantity keeps its SKU, name and price, and its total is recomputed as price × quantity |
| Cart.EmptyIffNoUnits | holy_guacamole.py:931 | with every line holding a unit, the order is empty exactly when its item count is 0 |
| Cart.RemoveAt | holy_guacamole.py:753 | popping a line shortens the order by one |
| Cart.ListedAgrees | holy_guacamole.py:578-612 | with unique menu SKUs, a line with an entry's SKU has that entry's price and name |
| Cart.ListedKept | holy_guacamole.py:609-629 | changing a line's quantity, popping a line or appending a menu line keeps every line naming a menu entry |
| Cart.FitUnits | holy_guacamole.py:602-604 | `int(room / price)` is at most 0 exactly when less than one unit fits, and otherwise that many units fit |
| Cart.First | holy_guacamole.py:578-582 | the scan's result is a line that matches |
| Cart.FirstIsFirst | holy_guacamole.py:711-716 | the scan finds the first matching line, and finds none only when no line matches |
| Cart.FirstSkuUnique | holy_guacamole.py:578-582 | with unique SKUs, the scan by SKU finds the one line holding that SKU |
| Cart.Find | holy_guacamole.py:578-582 | the `for … break` loop returns the first matching index |
| Cart.TypeAllowance | holy_guacamole.py:584-596 | the per-SKU limit of 20: refused exactly when the SKU's line is full, otherwise 1 ≤ quantity ≤ asked, and the line stays within 20 |
| Cart.ValueAllowance | holy_guacamole.py:598-607 | the $500 limit: refused exactly when not one unit fits, otherwise 1 ≤ quantity ≤ asked, and the subtotal stays within $500 |
| Cart.AddFailsExactly | holy_guacamole.py:559-605 | add_item's four errors (not on the menu, 50 units, SKU line at 20, no room under $500), each exactly when its condition holds |
| Cart.AddOutcome | holy_guacamole.py:553-629 | a successful add adds 1 to 10 units to the first line with the SKU, or appends a new last line, and changes nothing else |
| Cart.AddLinesSums | holy_guacamole.py:609-633 | adding q units raises the item count by q and the subtotal by price × q |
| Cart.AddKeepsLimits | holy_guacamole.py:549-612 | after an add, the order has at most 50 units and at most $500, and the SKU's line has at most 20 |
| Cart.AddKeepsShape | holy_guacamole.py:609-629 | an add keeps lines well formed and keeps SKUs unique |
| Cart.RemoveTarget | holy_guacamole.py:706-745 | the line remove_item picks is a line of the order |
| Cart.RemoveNotFoundExactly | holy_guacamole.py:706-748 | remove_item finds nothing exactly when no line matches the menu SKU, the name as a substring, or any overlapping word |
| Cart.RemoveLine | holy_guacamole.py:750-777 | removal always succeeds on a found line |
| Cart.RemoveLineOutcome | holy_guacamole.py:750-777 | -1, or at least the line's quantity, drops the line; otherwise max(1, q) units come off; no other line changes |
| Cart.RemoveLineSums | holy_guacamole.py:750-782 | the item count and the subtotal fall by exactly the units taken off |
| Cart.RemoveLineKeepsShape | holy_guacamole.py:750-777 | removal keeps lines well formed and keeps SKUs unique |
| Cart.ModifyClamp | holy_guacamole.py:864-875 | the new quantity is capped at 20 and at what keeps the order within 50 units |
| Cart.ModifyLineAsWritten | holy_guacamole.py:857-886 | modify_quantity as written always changes the line it found |
| Cart.ModifyAsWrittenEmptiesLine | holy_guacamole.py:878-886 | as written, once the other lines leave less than one unit of room under $500, the line is set to a quantity ≤ 0 |
| Cart.ModifyLine | holy_guacamole.py:857-886 | the corrected modify never reports a missing line once it has one |
| Cart.ModifyAgreesWithAsWritten | holy_guacamole.py:878-886 | the corrected modify equals the code as written except where that code sets a quantity ≤ 0, which it refuses |
| Cart.ModifyLineOutcome | holy_guacamole.py:857-886 | 0 pops the line; otherwise 1 ≤ quantity ≤ min(new, 20), only that line changes, and the order has at most 50 units and $500 |
| Cart.ModifyLineKeepsShape | holy_guacamole.py:857-886 | the corrected modify keeps lines well formed and keeps SKUs unique |
| Words.NumberToWordsIsJoin | holy_guacamole.py:271-291 | number_to_words is its word list joined by single spaces: "X hundred and …", with tens and units hyphenated |
| Words.NumberRoundTrip | holy_guacamole.py:271-291 | the words for 1..999 read back to the number |
| Words.DollarsToWordsIsJoin | holy_guacamole.py:255-328 | dollars_to_words is its token list joined by spaces: thousands, dollars, "and", then cents |
| Words.NegativeIsZeroDollars | holy_guacamole.py:296-328 | a negative amount speaks as "zero dollars": no thousands, no dollars and no positive cents |
| Words.OnlyOneIsOne | holy_guacamole.py:307-311 | the figure reads "one" exactly for one dollar, the only case that says "dollar" |
| Words.DollarsToWordsSingular | holy_guacamole.py:258-321 | 0 gives "zero dollars", $1.00 gives "one dollar", $0.01 gives "one cent" |
| Words.DollarsToWordsHyphen | holy_guacamole.py:280 | $21.00 gives "twenty-one dollars" |
| Words.DollarsToWordsAnd | holy_guacamole.py:324-325 | $1.01 gives "one dollar and one cent" |
| Words.DollarsToWordsHundreds | holy_guacamole.py:282-291 | $120.00 gives "one hundred and twenty dollars" |
| Words.AmountRoundTrip | holy_guacamole.py:255-328 | splitting the spoken amount into words and reading it back gives the amount in cents |
| Words.DollarsToWordsInjective | holy_guacamole.py:255-328 | different amounts are never spoken alike |
| Words.DigitWordList | holy_guacamole.py:252 | one digit word per digit, in order |
| Words.OrderNumberRoundTrip | holy_guacamole.py:243-253 | the spoken digits read back to the order number |
| Words.OrderNumberThreeWords | holy_guacamole.py:1003 | an order number in 100..999 is spoken as exactly three digit words, hundreds first |
| Menu.MenuFacts | holy_guacamole.py:32-61 | every menu price is positive and no SKU appears twice |
| Menu.ExactMatch | holy_guacamole.py:391-395 | found exactly when some entry's lower-cased name is the input, and the entry found has that name |
| Menu.ItemBySku | holy_guacamole.py:402-405 | found exactly when some entry has the SKU |
| Menu.AliasMatch | holy_guacamole.py:397-406 | a hit is a menu entry whose SKU lists the input as an alias; a miss means no aliased SKU is on the menu |
| Menu.AliasScore | holy_guacamole.py:458-465 | the alias part of the score is between 0 and 40 per alias plus 30 |
| Menu.Scores | holy_guacamole.py:447-508 | one score per menu entry, in menu order |
| Menu.BestUpToIsFirstMax | holy_guacamole.py:507-509 | the scan keeps the first entry with the highest positive score |
| Menu.FuzzyBestIsFirstMax | holy_guacamole.py:445-516 | the fuzzy match fails exactly when every score is below 40; otherwise it is the first entry with the top score |
| Menu.ScanScores | holy_guacamole.py:445-510 | the scoring loop, scoring each entry in menu order and replacing the best only on a strictly higher score, ends with the scan of all the scores: the first entry of top score, kept only when that score is above 0 |
| Menu.FuzzyMatch | holy_guacamole.py:445-516 | the fuzzy step returns the fuzzy match: the scan's entry when its score reaches 40, else nothing |
| Menu.Lookup | holy_guacamole.py:385-518 | a found item is a menu entry with a positive price |
| Menu.LookupFacts | holy_guacamole.py:387-395 | a found item is on the menu, and an exact name match wins over aliases and the fuzzy score |
| Menu.FindMenuItem | holy_guacamole.py:385-518 | the lookup method agrees with the lookup function |
| Menu.FindOnMenu | holy_guacamole.py:385-518 | the lookup against this restaurant's menu and aliases agrees with the lookup function, so it yields only priced menu entries |
| Combo.MenuKindsExclusive | holy_guacamole.py:1180-1183 | every menu name passes at most one of the taco, burrito, chips & salsa and small-drink tests |
| Combo.ListedExclusive | holy_guacamole.py:1180-1183 | so every line naming a menu entry does too |
| Combo.CountKindBounds | holy_guacamole.py:1180-1183 | each kind's count is between 0 and the order's unit count |
| Combo.Claim | holy_guacamole.py:1203-1248 | the `if/elif` chain picks a kind the line passes and is still needed; none exactly when no such kind exists |
| Combo.StepAccounts | holy_guacamole.py:1199-1264 | each iteration moves every unit of the line to kept or removed, and removes exactly what it takes off the needs |
| Combo.ProcessAccounts | holy_guacamole.py:1199-1264 | over the whole loop, kept plus removed equals the order in units and money, and the removed units equal the needs met |
| Combo.StepNeeds | holy_guacamole.py:1203-1216 | an iteration lowers the line's kind by as many of its units as are still needed |
| Combo.ProcessNeeds | holy_guacamole.py:1199-1264 | after the loop, each need is what is left after subtracting that kind's count |
| Combo.ProcessSparesCombos | holy_guacamole.py:336-341 | with the classifier that excludes "combo", no combo line is ever consumed |
| Combo.ProcessListed | holy_guacamole.py:1199-1264 | the kept lines still name menu entries |
| Combo.ProcessRemovesNeeded | holy_guacamole.py:1199-1264 | the removed lines hold, per kind, exactly the needs met |
| Combo.ProcessMeetsNeed | holy_guacamole.py:1192-1264 | when the order holds enough of each kind, the loop meets every need exactly |
| Combo.TacoCombosIsLargest | holy_guacamole.py:1339 | k = min(tacos div 2, chips, drinks) is the largest number of taco combos the units allow |
| Combo.CombosOnMenu | holy_guacamole.py:55-59 | the appended Taco Combo (C001, $9.99) and Burrito Combo (C002, $12.99) are menu entries |
| Combo.BothLinesUnits | holy_guacamole.py:1266-1285 | "both" appends a combo line only for a positive count, and adds that many units |
| Combo.BothCombosFit | holy_guacamole.py:1185-1190 | "both" makes taco combos first, then burrito combos from the chips and drinks left over, never more than the order holds |
| Combo.UpgradeFailsExactly | holy_guacamole.py:1331-1501 | unknown combo type, too few for a taco combo, too few for a burrito combo: each exactly when its condition holds |
| Combo.UpgradeAccounts | holy_guacamole.py:1503-1511 | after an upgrade, the new lines are the kept ones plus the combos; units and money are conserved between the order and kept plus removed |
| Combo.FinishMeetsNeed | holy_guacamole.py:1349-1414 | the pass removes, per kind, exactly the units the combos need |
| Combo.UpgradeTaco | holy_guacamole.py:1331-1414 | "taco" removes 2k tacos, k chips & salsa and k small drinks, and appends one Taco Combo line of quantity k |
| Combo.UpgradeBurrito | holy_guacamole.py:1416-1499 | "burrito" removes k burritos, k chips & salsa and k small drinks, and appends one Burrito Combo line of quantity k |
| Combo.UpgradeBoth | holy_guacamole.py:1173-1296 | "both" removes 2t tacos, b burritos, t+b chips and t+b drinks, and appends the combo lines |
| Combo.AsWrittenCountsMore | holy_guacamole.py:1180-1183 | upgrade_to_combo's counts are at least check_combo_opportunity's |
| Combo.SuggestionIsAchievable | holy_guacamole.py:349-371 | every combo check_combo_opportunity suggests, upgrade_to_combo can make |
| Combo.BothSuggestionMakesNoBurritoCombo | holy_guacamole.py:359-377 | 4 tacos, 1 burrito, 2 chips and 2 drinks are offered both combos, but "both" makes two taco combos and no burrito combo |
| Combo.AsWrittenEatsTacoCombos | holy_guacamole.py:1334-1370 | as written, a "taco" upgrade of two Taco Combos, chips and a drink consumes the combos as tacos; the corrected count refuses |
| Combo.BurritoSuggestionCostsMore | holy_guacamole.py:363-371 | a bean & cheese burrito with chips & salsa and a drink is offered a burrito combo "saving" 98 cents, but the upgrade raises the subtotal by $1.02 |
| Steps.Target | holy_guacamole.py:1075-1102 | the step each tool switches to; cancel_order stays in taking_order and otherwise goes to greeting |
| Steps.CancelWithDefaultRecorded | holy_guacamole.py:1088-1102 | with the default recorded step, greeting, cancel_order from taking_order goes to greeting, which taking_order does not list as a next step |
| Steps.EnabledToolsAllowed | holy_guacamole.py:120-212 | with the current step as the recorded step, every enabled tool moves to its own step or a listed next step, except cancel_order from confirming_order |
| Steps.OrderCycle | holy_guacamole.py:673-1143 | add, finalize, pay, complete and new order bring the conversation back to greeting |
| Steps.PaymentNeedsConfirming | holy_guacamole.py:186-201 | payment_processing is entered only by process_payment from confirming_order |
| Steps.PaymentNeedsProcessPayment | holy_guacamole.py:1013 | every run that reaches payment_processing calls process_payment |
| Steps.PaymentNeedsFinalize | holy_guacamole.py:974 | from greeting, taking_order or order_complete, payment is reached only through finalize_order |
| Order.MenuEntry | holy_guacamole.py:578-612 | a menu entry has a positive price, and lines with its SKU have that price |
| Order.AddKeepsShaped | holy_guacamole.py:549-633 | a successful add keeps the invariant, raises the count by the added units, and keeps the subtotal within $500 |
| Order.RemoveKeepsShaped | holy_guacamole.py:750-782 | removal keeps the invariant and lowers the count by the units removed |
| Order.ModifyKeepsShaped | holy_guacamole.py:857-895 | the corrected modify keeps the invariant and a subtotal within $500 |
| Order.ShapedOneKindEach | holy_guacamole.py:1180-1183 | lines naming menu entries pass at most one kind test each |
| Order.UpgradeKeepsShaped | holy_guacamole.py:1503-1511 | an upgrade keeps the invariant, never raises the unit count, and lowers the subtotal by exactly the announced savings |
| Order.StepLine | holy_guacamole.py:1203-1264 | one iteration of the upgrade loop, as the pass function defines it |
| Order.RunPass | holy_guacamole.py:1199-1264 | the upgrade loop over the lines computes the pass |
| Order.AddToLines | holy_guacamole.py:553-629 | add_item's clamping and update of the lines, equal to the add specification |
| Order.RemoveTargetOf | holy_guacamole.py:706-745 | remove_item's three search loops pick the specified line |
| Order.TakeOff | holy_guacamole.py:750-777 | remove_item's pop or decrement, equal to the removal specification |
| Order.RemoveLines | holy_guacamole.py:706-777 | remove_item on the lines equals the removal specification, and a removal keeps the lines well formed and on the menu and lowers the unit count by the units it reports |
| Order.ModifyLines | holy_guacamole.py:857-889 | modify_quantity's search and update, equal to the corrected specification |
| Order.UpgradeLines | holy_guacamole.py:1167-1511 | upgrade_to_combo's counts, loop and appended combos, equal to the upgrade specification |
| Order.OrderState.constructor | holy_guacamole.py:219-226 | the default state: no lines, zero totals and count, no order number |
| Order.OrderState.Recompute | holy_guacamole.py:631-633 | recomputes subtotal, tax, total and item count from the lines |
| Order.OrderState.Clear | holy_guacamole.py:1044-1049 | empties the lines and zeroes the totals and the count |
| Order.OrderState.AddItem | holy_guacamole.py:542-673 | add_item: the specified result; an error changes nothing; success adds the units, stays within $500 and moves to taking_order |
| Order.OrderState.RemoveItem | holy_guacamole.py:697-782 | remove_item: the specified result; not found changes nothing; success lowers the count by the units removed |
| Order.OrderState.ModifyQuantity | holy_guacamole.py:842-895 | modify_quantity with the value check corrected: the specified result; a failure changes nothing |
| Order.OrderState.UpgradeToCombo | holy_guacamole.py:1167-1511 | upgrade_to_combo: the specified result; a failure changes nothing; success never raises the count and lowers the subtotal by the savings |
| Order.OrderState.ReviewOrder | holy_guacamole.py:927-936 | review_order: nothing for an empty order, otherwise the total, which is subtotal plus tax |
| Order.OrderState.FinalizeOrder | holy_guacamole.py:960-974 | finalize_order: nothing for an empty order, otherwise the total and the move to confirming_order |
| Order.OrderState.ProcessPayment | holy_guacamole.py:998-1013 | process_payment: records the order number, changes nothing else, speaks it as three digit words that read back to it, and moves to payment_processing |
| Order.OrderState.CompleteOrder | holy_guacamole.py:1034-1055 | complete_order: empties the order, keeps the order number and moves to order_complete |
| Order.OrderState.CancelOrder | holy_guacamole.py:1075-1102 | cancel_order: empties the order, clears the number, and moves to the step the recorded step calls for |
| Order.OrderState.NewOrder | holy_guacamole.py:1125-1143 | new_order: empties the order, clears the number and moves to the greeting |

## Left out

- The TF-IDF matcher of `find_menu_item` (scikit-learn, floating-point cosine similarity) is not part of this model. The model is the configuration without scikit-learn: exact name, then alias, then the fuzzy score.
- Money.Tax: Python rounds the float `subtotal * 0.10` to two places, and the outcome depends on the binary value of the float. The model rounds the exact tenth of the subtotal in cents, with halves away from zero. Prices and line totals are exact in cents, while the code sums them as floats.
- Menu item descriptions and categories in line items, the response wording, the UI events, `SwaigFunctionResult` and the `global_data` plumbing are left out. Each tool returns its outcome and, where it changes step, the step it asks for, as `Steps.Target` gives it.
- Cart.ValueAllowance: the code compares a float sum of line totals with $500 and takes `int(remaining / price)` in floats (holy_guacamole.py:599-603); the model uses exact cents. At the exact boundary the code can clamp one unit lower or refuse where the model does not: with 20 Burrito Combo, 3 Beef Taco and 20 Chicken Quesadilla in the order ($430.07), adding 7 Taco Combo brings the exact total to $500.00; the float sum can land just above $500, and the code then adds 6 where the model adds 7.
- Cart.ModifyLineAsWritten: its value clamp uses exact cents where the code computes `int(room / price)` in floats (holy_guacamole.py:878-880), with the same boundary difference as Cart.ValueAllowance.
- Order.OrderState.AddItem: built on Cart.ValueAllowance, it inherits that boundary difference: at exactly $500 the code can add one unit fewer or refuse.
- `random.randint` is left out. Order.OrderState.ProcessPayment takes the order number as a parameter in 100..999.
- Order.OrderState.CancelOrder takes as a parameter the step recorded in the global data, which this file reads but never writes.
- Order.OrderState.CompleteOrder requires an order number. The code spells `str(None)` digit by digit, which raises an error when no payment came first.
- Order.OrderState.AddItem requires a quantity of at least 1, the minimum the tool's schema declares.
- Order.OrderState.ModifyQuantity requires a new quantity of at least 0, the minimum the tool's schema declares. The schema's maximum of 10 is not enforced by the code, which caps the quantity at 20, and neither does the model.
- Order.OrderState.ModifyQuantity uses the corrected value check (see Findings). The as-written check is `Cart.ModifyLineAsWritten`.
- Order.OrderState.UpgradeToCombo uses the corrected classifier, which does not count combo lines (see Findings). The as-written one is the `AsWritten` classifier of `Combo`.
- Unique SKUs are not part of `OrderState.Valid`. An upgrade appends a fresh combo line even when the order already has one with that SKU. add_item, remove_item and modify_quantity keep SKUs unique where they were (`Cart.AddKeepsShape` and its siblings).
- Words.DollarsToWords is modelled only for amounts below one million dollars, because `number_to_words` cannot spell 1000 or more thousands. The order limit of $500 keeps every spoken total far below that bound.
- The text functions handle ASCII only: `lower()` folds A-Z, and `split()` and `strip()` treat the six common ASCII whitespace characters (space, tab, newline, carriage return, vertical tab, form feed) as blanks. The separators \x1c-\x1f and the Unicode spaces, which Python also drops, are not treated as blanks.
- Menu.AliasScore: the model follows the code's alias loop, which adds 40 for every alias sharing a word until an alias holds the whole input. Its contract bounds the score but does not restate each case.
- Steps.After: passes the current step as cancel_order's recorded step, assuming the agent runtime keeps `current_step` in the global data up to date. This file never writes it, so on this file alone `global_data.get("current_step", "greeting")` reads "greeting", and cancel from taking_order then returns to the greeting too, which taking_order does not list (`Steps.CancelWithDefaultRecorded`). The code also moves on cancel by setting `result.context` rather than calling `swml_change_step`.
- Steps.EnabledToolsAllowed: its single exception (cancel from confirming_order) rests on the same assumption; with the default recorded step, cancel from taking_order is a second one.
- The step table's transitions are owned by the agent runtime. `Steps` only checks each tool's requested step against the table, assuming the tool succeeds.

## Findings

| source | as written | input that shows it | evidently intended | confidence | as-written member | corrected member |
|---|---|---|---|---|---|---|
| holy_guacamole.py:1334-1370 | upgrade_to_combo counts and consumes every line whose name holds "taco" or "burrito", so a Taco Combo or Burrito Combo line counts as tacos or a burrito | a "taco" upgrade of 2 Taco Combo, 1 Chips & Salsa, 1 Small Drink: the two combos are consumed as tacos and replaced by one new Taco Combo | count only lines without "combo" in the name, as check_combo_opportunity does (lines 336-341) | not executed | Combo.AsWrittenEatsTacoCombos | Combo.ProcessSparesCombos |
| holy_guacamole.py:878-886 | past $500, modify_quantity sets the quantity to `int(room / price)` even when that is 0 or negative, leaving a line with no units or a negative total | an order pushed above $500 by a burrito upgrade (each bean & cheese burrito combo raises the subtotal by $1.02, `Combo.BurritoSuggestionCostsMore`), then a modify, with a positive new quantity, of a line whose other lines already leave less room under $500 than one unit of it costs (for example a single-unit line) | refuse the change when not one unit fits, as add_item does (lines 602-605) | not executed | Cart.ModifyAsWrittenEmptiesLine | Cart.ModifyLineOutcome |
