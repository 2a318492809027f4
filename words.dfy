/** Spoken English for amounts of money and for order numbers, as the agent says them. */
module Words {
  import opened Base
  import opened Text
  import Money

  const Ones: seq<string> := ["", "one", "two", "three", "four", "five", "six", "seven", "eight", "nine"]
  const Teens: seq<string> := ["ten", "eleven", "twelve", "thirteen", "fourteen", "fifteen",
                               "sixteen", "seventeen", "eighteen", "nineteen"]
  const Tens: seq<string> := ["", "", "twenty", "thirty", "forty", "fifty", "sixty", "seventy", "eighty", "ninety"]

  /** number_to_words: a number under a thousand in words, "" for zero. */
  function NumberToWords(n: int): string
    requires 0 <= n < 1000
  {
    if n == 0 then ""
    else if n < 10 then Ones[n]
    else if n < 20 then Teens[n - 10]
    else if n < 100 then Tens[n / 10] + (if n % 10 > 0 then "-" + Ones[n % 10] else "")
    else
      var hundredPart := Ones[n / 100] + " hundred";
      var remainder := n % 100;
      if remainder == 0 then hundredPart
      else if remainder < 10 then hundredPart + " and " + Ones[remainder]
      else if remainder < 20 then hundredPart + " and " + Teens[remainder - 10]
      else hundredPart + " and " + Tens[remainder / 10]
                       + (if remainder % 10 > 0 then "-" + Ones[remainder % 10] else "")
  }

  /** The figure of whole dollars as dollars_to_words collects it: "<n> thousand" for the
      thousands, then the words for the rest, each part present only when non-zero. */
  function FigureParts(whole: int): seq<string>
    requires whole < 1_000_000
  {
    var thousands := if whole >= 1000 then [NumberToWords(whole / 1000) + " thousand"] else [];
    var rest := if whole >= 1000 then whole % 1000 else whole;
    thousands + (if rest > 0 then [NumberToWords(rest)] else [])
  }

  /** The dollar phrase made of the figure: "one dollar", "<figure> dollars", or nothing. */
  function DollarPart(parts: seq<string>): seq<string> {
    if parts == [] then []
    else if Join(parts, " ") == "one" then ["one dollar"]
    else [Join(parts, " ") + " dollars"]
  }

  function CentPhrase(cents: int): string
    requires 1 <= cents < 100
  {
    if cents == 1 then "one cent" else NumberToWords(cents) + " cents"
  }

  /** dollars_to_words over an amount in cents. Amounts of a million dollars or more
      are outside what number_to_words can spell. */
  function DollarsToWords(amount: int): string
    requires amount < 100_000_000
  {
    if amount == 0 then "zero dollars"
    else
      var whole := Money.TruncDiv(amount, 100);
      var cents := amount - whole * 100;
      var dollarPart := DollarPart(FigureParts(whole));
      var result :=
        if cents > 0 then
          if dollarPart != [] then dollarPart + ["and " + CentPhrase(cents)] else [CentPhrase(cents)]
        else dollarPart;
      if result != [] then Join(result, " ") else "zero dollars"
  }

  const DigitWords: seq<string> := ["zero", "one", "two", "three", "four", "five", "six", "seven", "eight", "nine"]

  /** The decimal digits of n, most significant first, as str(n) writes them. */
  function Digits(n: nat): (ds: seq<nat>)
    ensures |ds| >= 1
    ensures forall i :: 0 <= i < |ds| ==> ds[i] < 10
  {
    if n < 10 then [n] else Digits(n / 10) + [n % 10]
  }

  function DigitWordList(ds: seq<nat>): (ws: seq<string>)
    requires forall i :: 0 <= i < |ds| ==> ds[i] < 10
    ensures |ws| == |ds|
    ensures forall i :: 0 <= i < |ds| ==> ws[i] == DigitWords[ds[i]]
  {
    if ds == [] then [] else DigitWordList(ds[..|ds| - 1]) + [DigitWords[ds[|ds| - 1]]]
  }

  /** order_number_to_words: one word per decimal digit, separated by single spaces. */
  function OrderNumberToWords(n: nat): string {
    Join(DigitWordList(Digits(n)), " ")
  }

  // ---------------------------------------------------------------------------
  // Reading the words back: decoders that invert the functions above.

  function IndexOf(table: seq<string>, w: string): (r: Option<nat>)
    ensures r.Some? ==> r.value < |table| && table[r.value] == w
  {
    if table == [] then None
    else if table[0] == w then Some(0)
    else match IndexOf(table[1..], w)
      case None => None
      case Some(i) => Some(i + 1)
  }

  /** The value of a digit word. */
  function DigitOf(w: string): Option<nat> {
    IndexOf(DigitWords, w)
  }

  function DigitsValue(ds: seq<nat>): nat {
    if ds == [] then 0 else DigitsValue(ds[..|ds| - 1]) * 10 + ds[|ds| - 1]
  }

  function DecodeDigitWords(ws: seq<string>): Option<seq<nat>> {
    if ws == [] then Some([])
    else match (DecodeDigitWords(ws[..|ws| - 1]), DigitOf(ws[|ws| - 1]))
      case (Some(ds), Some(d)) => Some(ds + [d])
      case _ => None
  }

  /** The order number a listener writes down from the spoken digits. */
  function SpokenDigitsToNumber(s: string): Option<nat> {
    match DecodeDigitWords(Split(s))
    case None => None
    case Some(ds) => if ds == [] then None else Some(DigitsValue(ds))
  }

  /** The index of the first '-' in w, if any. */
  function HyphenAt(w: string): (r: Option<nat>)
    ensures r.Some? ==> r.value < |w| && w[r.value] == '-'
  {
    if w == [] then None
    else if w[0] == '-' then Some(0)
    else match HyphenAt(w[1..])
      case None => None
      case Some(i) => Some(i + 1)
  }

  /** The value of one word for a number from 1 to 99 ("seven", "twelve", "forty", "twenty-one"). */
  function DecodeBelow100(w: string): Option<nat> {
    match IndexOf(Ones, w)
    case Some(i) => if i >= 1 then Some(i) else None
    case None =>
      match IndexOf(Teens, w)
      case Some(i) => Some(10 + i)
      case None =>
        match IndexOf(Tens, w)
        case Some(i) => if i >= 2 then Some(10 * i) else None
        case None =>
          match HyphenAt(w)
          case None => None
          case Some(k) => DecodeTensOnes(w[..k], w[k + 1..])
  }

  /** The value of "tens-ones" from its two halves. */
  function DecodeTensOnes(tens: string, ones: string): Option<nat> {
    var t, o := IndexOf(Tens, tens), IndexOf(Ones, ones);
    if t.Some? && o.Some? && t.value >= 2 && o.value >= 1 then Some(10 * t.value + o.value)
    else None
  }

  /** The value of the words for a number from 1 to 999. */
  function DecodeNumber(toks: seq<string>): Option<nat> {
    if |toks| == 1 then DecodeBelow100(toks[0])
    else if 2 <= |toks| && toks[1] == "hundred" then
      match IndexOf(Ones, toks[0])
      case None => None
      case Some(h) =>
        if h == 0 then None
        else if |toks| == 2 then Some(100 * h)
        else if |toks| == 4 && toks[2] == "and" then
          match DecodeBelow100(toks[3])
          case None => None
          case Some(r) => Some(100 * h + r)
        else None
    else None
  }

  function FirstOf(toks: seq<string>, words: set<string>): (r: Option<nat>)
    ensures r.Some? ==> r.value < |toks| && toks[r.value] in words
  {
    if toks == [] then None
    else if toks[0] in words then Some(0)
    else match FirstOf(toks[1..], words)
      case None => None
      case Some(i) => Some(i + 1)
  }

  function DecodeDollars(toks: seq<string>, unit: string): Option<nat> {
    if unit == "dollar" then (if toks == ["one"] then Some(1) else None)
    else match FirstOf(toks, {"thousand"})
      case None => DecodeNumber(toks)
      case Some(j) =>
        match DecodeNumber(toks[..j])
        case None => None
        case Some(th) =>
          if j + 1 == |toks| then Some(th * 1000)
          else match DecodeNumber(toks[j + 1..])
            case None => None
            case Some(lo) => Some(th * 1000 + lo)
  }

  function DecodeCents(toks: seq<string>): Option<nat> {
    if toks == ["one", "cent"] then Some(1)
    else if |toks| >= 2 && toks[|toks| - 1] == "cents" then DecodeNumber(toks[..|toks| - 1])
    else None
  }

  /** The amount in cents a listener hears in the words of DollarsToWords. */
  function DecodeAmount(toks: seq<string>): Option<nat> {
    if toks == ["zero", "dollars"] then Some(0)
    else match FirstOf(toks, {"dollar", "dollars"})
      case None => DecodeCents(toks)
      case Some(i) =>
        match DecodeDollars(toks[..i], toks[i])
        case None => None
        case Some(d) =>
          if i + 1 == |toks| then Some(100 * d)
          else if toks[i + 1] == "and" then
            match DecodeCents(toks[i + 2..])
            case None => None
            case Some(c) => Some(100 * d + c)
          else None
  }

  // ---------------------------------------------------------------------------
  // Facts about the word tables, one small lemma per table.

  predicate Letters(w: string) {
    w != [] && forall j :: 0 <= j < |w| ==> 'a' <= w[j] <= 'z'
  }

  /** Words that DollarsToWords uses around the numbers themselves. */
  const Reserved: set<string> := {"zero", "hundred", "and", "thousand", "dollar", "dollars", "cent", "cents"}

  lemma OnesFacts(i: int)
    requires 1 <= i < 10
    ensures Letters(Ones[i]) && Ones[i] !in Reserved && 3 <= |Ones[i]| <= 5
  {
  }

  lemma TeensFacts(i: int)
    requires 0 <= i < 10
    ensures Letters(Teens[i]) && Teens[i] !in Reserved
  {
  }

  lemma TensFacts(i: int)
    requires 2 <= i < 10
    ensures Letters(Tens[i]) && Tens[i] !in Reserved && 5 <= |Tens[i]|
  {
  }

  lemma OnesDistinct(i: int, j: int)
    requires 0 <= i < j < 10
    ensures Ones[i] != Ones[j]
  {
  }

  lemma TeensDistinct(i: int, j: int)
    requires 0 <= i < j < 10
    ensures Teens[i] != Teens[j]
  {
  }

  lemma TensDistinct(i: int, j: int)
    requires 0 <= i < j < 10 && 2 <= j
    ensures Tens[i] != Tens[j]
  {
  }

  lemma TeensNotOnes(i: int, j: int)
    requires 0 <= i < 10 && 0 <= j < 10
    ensures Teens[i] != Ones[j]
  {
  }

  lemma TensNotOnesOrTeens(i: int, j: int)
    requires 2 <= i < 10 && 0 <= j < 10
    ensures Tens[i] != Ones[j] && Tens[i] != Teens[j]
  {
  }

  lemma DigitWordsFacts(i: int, j: int)
    requires 0 <= i < 10 && 0 <= j < 10
    ensures Letters(DigitWords[i])
    ensures i != j ==> DigitWords[i] != DigitWords[j]
  {
  }

  lemma LettersIsWord(w: string)
    requires Letters(w)
    ensures IsWord(w) && HyphenAt(w).None?
  {
    HyphenAtAbsent(w);
  }

  /** A table whose entry i differs from all entries before it finds entry i at i. */
  lemma {:induction false} IndexOfFirst(table: seq<string>, i: nat)
    requires i < |table|
    requires forall j :: 0 <= j < i ==> table[j] != table[i]
    ensures IndexOf(table, table[i]) == Some(i)
  {
    if i > 0 {
      assert table[0] != table[i];
      IndexOfFirst(table[1..], i - 1);
    }
  }

  /** A word equal to no entry is not found. */
  lemma {:induction false} IndexOfAbsent(table: seq<string>, w: string)
    requires forall j :: 0 <= j < |table| ==> table[j] != w
    ensures IndexOf(table, w).None?
  {
    if table != [] {
      IndexOfAbsent(table[1..], w);
    }
  }

  /** The first hyphen is found where it is. */
  lemma {:induction false} HyphenAtFirst(w: string, k: nat)
    requires k < |w| && w[k] == '-'
    requires forall j :: 0 <= j < k ==> w[j] != '-'
    ensures HyphenAt(w) == Some(k)
  {
    if k > 0 {
      HyphenAtFirst(w[1..], k - 1);
    }
  }

  lemma {:induction false} HyphenAtAbsent(w: string)
    requires forall j :: 0 <= j < |w| ==> w[j] != '-'
    ensures HyphenAt(w).None?
  {
    if w != [] {
      HyphenAtAbsent(w[1..]);
    }
  }

  lemma {:induction false} FirstOfAt(toks: seq<string>, words: set<string>, k: nat)
    requires k < |toks| && toks[k] in words
    requires forall j :: 0 <= j < k ==> toks[j] !in words
    ensures FirstOf(toks, words) == Some(k)
  {
    if k > 0 {
      FirstOfAt(toks[1..], words, k - 1);
    }
  }

  lemma {:induction false} FirstOfAbsent(toks: seq<string>, words: set<string>)
    requires forall j :: 0 <= j < |toks| ==> toks[j] !in words
    ensures FirstOf(toks, words).None?
  {
    if toks != [] {
      FirstOfAbsent(toks[1..], words);
    }
  }

  // ---------------------------------------------------------------------------
  // Order numbers.

  lemma {:induction false} DigitsValueOfDigits(n: nat)
    ensures DigitsValue(Digits(n)) == n
  {
    if n >= 10 {
      DigitsValueOfDigits(n / 10);
      var ds := Digits(n / 10) + [n % 10];
      assert ds[..|ds| - 1] == Digits(n / 10);
    }
  }

  lemma {:induction false} DecodeDigitWordList(ds: seq<nat>)
    requires forall i :: 0 <= i < |ds| ==> ds[i] < 10
    ensures DecodeDigitWords(DigitWordList(ds)) == Some(ds)
  {
    if ds != [] {
      var init, d := ds[..|ds| - 1], ds[|ds| - 1];
      DecodeDigitWordList(init);
      var ws := DigitWordList(ds);
      assert ws[..|ws| - 1] == DigitWordList(init);
      forall j | 0 <= j < d ensures DigitWords[j] != DigitWords[d] {
        DigitWordsFacts(j, d);
      }
      IndexOfFirst(DigitWords, d);
      assert init + [d] == ds;
    }
  }

  lemma DigitWordListAreWords(ds: seq<nat>)
    requires forall i :: 0 <= i < |ds| ==> ds[i] < 10
    ensures forall i :: 0 <= i < |ds| ==> IsWord(DigitWordList(ds)[i])
  {
    forall i | 0 <= i < |ds| ensures IsWord(DigitWordList(ds)[i]) {
      DigitWordsFacts(ds[i], ds[i]);
      LettersIsWord(DigitWords[ds[i]]);
    }
  }

  /** Whoever hears the spoken order number can write the number back down. */
  lemma OrderNumberRoundTrip(n: nat)
    ensures SpokenDigitsToNumber(OrderNumberToWords(n)) == Some(n)
  {
    var ds := Digits(n);
    DigitWordListAreWords(ds);
    SplitJoin(DigitWordList(ds));
    DecodeDigitWordList(ds);
    DigitsValueOfDigits(n);
  }

  /** A three-digit order number, the kind process_payment draws, is spoken as exactly
      three digit words, each the word for the matching digit of the number. */
  /** What process_payment announces: three words that read back to the number. */
  lemma OrderNumberSpoken(n: nat)
    requires 100 <= n <= 999
    ensures |Split(OrderNumberToWords(n))| == 3
    ensures SpokenDigitsToNumber(OrderNumberToWords(n)) == Some(n)
  {
    OrderNumberThreeWords(n);
    OrderNumberRoundTrip(n);
  }

  lemma OrderNumberThreeWords(n: nat)
    requires 100 <= n <= 999
    ensures var ws := Split(OrderNumberToWords(n));
      |ws| == 3 && ws[0] == DigitWords[n / 100] && ws[1] == DigitWords[n / 10 % 10]
      && ws[2] == DigitWords[n % 10]
  {
    var ds := Digits(n);
    assert Digits(n / 10) == Digits(n / 100) + [n / 10 % 10];
    assert ds == [n / 100, n / 10 % 10, n % 10];
    DigitWordListAreWords(ds);
    SplitJoin(DigitWordList(ds));
  }

  // ---------------------------------------------------------------------------
  // Amounts: the words seen as a list of space-separated tokens.

  function HyphenWord(t: int, o: int): string
    requires 2 <= t < 10 && 1 <= o < 10
  {
    Tens[t] + "-" + Ones[o]
  }

  /** The single word for 1 to 99: "seven", "twelve", "forty", "twenty-one". */
  function Below100Word(n: int): string
    requires 1 <= n < 100
  {
    if n < 10 then Ones[n]
    else if n < 20 then Teens[n - 10]
    else if n % 10 == 0 then Tens[n / 10]
    else HyphenWord(n / 10, n % 10)
  }

  function NumberTokens(n: int): seq<string>
    requires 1 <= n < 1000
  {
    if n < 100 then [Below100Word(n)]
    else [Ones[n / 100], "hundred"] + (if n % 100 == 0 then [] else ["and", Below100Word(n % 100)])
  }

  /** The tokens of the dollar figure. */
  function DollarNumberTokens(whole: int): seq<string>
    requires 1 <= whole < 1_000_000
  {
    var rest := if whole >= 1000 then whole % 1000 else whole;
    (if whole >= 1000 then NumberTokens(whole / 1000) + ["thousand"] else [])
    + (if rest > 0 then NumberTokens(rest) else [])
  }

  function DollarTokens(whole: int): seq<string>
    requires 1 <= whole < 1_000_000
  {
    if whole == 1 then ["one", "dollar"] else DollarNumberTokens(whole) + ["dollars"]
  }

  function CentTokens(c: int): seq<string>
    requires 1 <= c < 100
  {
    if c == 1 then ["one", "cent"] else NumberTokens(c) + ["cents"]
  }

  function AmountTokens(a: int): seq<string>
    requires 0 <= a < 100_000_000
  {
    if a == 0 then ["zero", "dollars"]
    else if a / 100 == 0 then CentTokens(a % 100)
    else if a % 100 == 0 then DollarTokens(a / 100)
    else DollarTokens(a / 100) + ["and"] + CentTokens(a % 100)
  }

  /** A token of a number: a word that is no reserved word except "hundred" and "and". */
  predicate NumberToken(w: string) {
    IsWord(w) && w !in Reserved - {"hundred", "and"}
  }

  /** Two letter words joined by a hyphen make one word that splits at that hyphen. */
  lemma Hyphenated(x: string, y: string)
    requires Letters(x) && Letters(y)
    ensures var w := x + "-" + y;
      IsWord(w) && HyphenAt(w) == Some(|x|) && w[..|x|] == x && w[|x| + 1..] == y
  {
    var w, k := x + "-" + y, |x|;
    assert w[..k] == x;
    assert w[k + 1..] == y;
    forall j | 0 <= j < |w| ensures !IsSpace(w[j]) && (j < k ==> w[j] != '-') {
      if j < k {
        assert w[j] == x[j];
      } else if j > k {
        assert w[j] == y[j - k - 1];
      }
    }
    HyphenAtFirst(w, k);
  }

  lemma HyphenWordFacts(t: int, o: int)
    requires 2 <= t < 10 && 1 <= o < 10
    ensures IsWord(HyphenWord(t, o))
    ensures HyphenWord(t, o) !in Reserved
    ensures HyphenAt(HyphenWord(t, o)) == Some(|Tens[t]|)
    ensures HyphenWord(t, o)[..|Tens[t]|] == Tens[t]
    ensures HyphenWord(t, o)[|Tens[t]| + 1..] == Ones[o]
  {
    TensFacts(t);
    OnesFacts(o);
    Hyphenated(Tens[t], Ones[o]);
    assert |HyphenWord(t, o)| >= 9;
  }

  lemma HyphenWordNotInTables(t: int, o: int, j: int)
    requires 2 <= t < 10 && 1 <= o < 10 && 0 <= j < 10
    ensures var w := HyphenWord(t, o);
      Ones[j] != w && Teens[j] != w && Tens[j] != w
  {
    var w := HyphenWord(t, o);
    TensFacts(t);
    OnesFacts(o);
    var k := |Tens[t]|;
    assert w[k] == '-';
    if j >= 1 { OnesFacts(j); }
    TeensFacts(j);
    if j >= 2 { TensFacts(j); }
  }

  lemma Below100WordFacts(n: int)
    requires 1 <= n < 100
    ensures IsWord(Below100Word(n)) && Below100Word(n) !in Reserved
  {
    if n < 10 {
      OnesFacts(n);
      LettersIsWord(Ones[n]);
    } else if n < 20 {
      TeensFacts(n - 10);
      LettersIsWord(Teens[n - 10]);
    } else if n % 10 == 0 {
      TensFacts(n / 10);
      LettersIsWord(Tens[n / 10]);
    } else {
      HyphenWordFacts(n / 10, n % 10);
    }
  }

  lemma NumberTokensFacts(n: int)
    requires 1 <= n < 1000
    ensures forall i :: 0 <= i < |NumberTokens(n)| ==> NumberToken(NumberTokens(n)[i])
  {
    if n < 100 {
      Below100WordFacts(n);
    } else {
      var h := n / 100;
      OnesFacts(h);
      LettersIsWord(Ones[h]);
      HundredAndAreTokens();
      if n % 100 == 0 {
        assert NumberTokens(n) == [Ones[h], "hundred"];
      } else {
        Below100WordFacts(n % 100);
        assert NumberTokens(n) == [Ones[h], "hundred", "and", Below100Word(n % 100)];
      }
    }
  }

  lemma HundredAndAreTokens()
    ensures NumberToken("hundred") && NumberToken("and")
  {
    assert "hundred"[0] == 'h' && "and"[0] == 'a';
  }

  lemma OnesRoundTrip(n: int)
    requires 1 <= n < 10
    ensures DecodeBelow100(Ones[n]).Some? && DecodeBelow100(Ones[n]).value == n
  {
    OnesIndex(n);
  }

  lemma TeensRoundTrip(i: int)
    requires 0 <= i < 10
    ensures DecodeBelow100(Teens[i]).Some? && DecodeBelow100(Teens[i]).value == 10 + i
  {
    forall j | 0 <= j < 10 ensures Ones[j] != Teens[i] { TeensNotOnes(i, j); }
    forall j | 0 <= j < i ensures Teens[j] != Teens[i] { TeensDistinct(j, i); }
    IndexOfFirst(Teens, i);
  }

  lemma TensRoundTrip(t: int)
    requires 2 <= t < 10
    ensures DecodeBelow100(Tens[t]).Some? && DecodeBelow100(Tens[t]).value == 10 * t
  {
    forall j | 0 <= j < 10 ensures Ones[j] != Tens[t] && Teens[j] != Tens[t] { TensNotOnesOrTeens(t, j); }
    forall j | 0 <= j < t ensures Tens[j] != Tens[t] { TensDistinct(j, t); }
    IndexOfFirst(Tens, t);
  }

  lemma OnesIndex(o: int)
    requires 0 <= o < 10
    ensures IndexOf(Ones, Ones[o]) == Some(o)
  {
    forall j | 0 <= j < o ensures Ones[j] != Ones[o] { OnesDistinct(j, o); }
    IndexOfFirst(Ones, o);
  }

  lemma TensIndex(t: int)
    requires 2 <= t < 10
    ensures IndexOf(Tens, Tens[t]) == Some(t)
  {
    forall j | 0 <= j < t ensures Tens[j] != Tens[t] { TensDistinct(j, t); }
    IndexOfFirst(Tens, t);
  }

  lemma HyphenWordNotIndexed(t: int, o: int)
    requires 2 <= t < 10 && 1 <= o < 10
    ensures IndexOf(Ones, HyphenWord(t, o)).None?
    ensures IndexOf(Teens, HyphenWord(t, o)).None?
    ensures IndexOf(Tens, HyphenWord(t, o)).None?
  {
    forall j | 0 <= j < 10 ensures Ones[j] != HyphenWord(t, o) && Teens[j] != HyphenWord(t, o)
                                   && Tens[j] != HyphenWord(t, o) {
      HyphenWordNotInTables(t, o, j);
    }
    IndexOfAbsent(Ones, HyphenWord(t, o));
    IndexOfAbsent(Teens, HyphenWord(t, o));
    IndexOfAbsent(Tens, HyphenWord(t, o));
  }

  /** A word found in no table is read at its first hyphen. */
  lemma DecodeAtHyphen(w: string, x: string, y: string)
    requires IndexOf(Ones, w).None? && IndexOf(Teens, w).None? && IndexOf(Tens, w).None?
    requires HyphenAt(w) == Some(|x|)
    requires w[..|x|] == x && w[|x| + 1..] == y
    ensures DecodeBelow100(w) == DecodeTensOnes(x, y)
  {
  }

  lemma DecodeTensOnesOf(x: string, y: string, t: nat, o: nat)
    requires IndexOf(Tens, x) == Some(t) && IndexOf(Ones, y) == Some(o)
    requires t >= 2 && o >= 1
    ensures DecodeTensOnes(x, y).Some? && DecodeTensOnes(x, y).value == 10 * t + o
  {
  }

  /** A word in no table that splits at its first hyphen into a tens word and a ones
      word reads as their sum. */
  lemma DecodeHyphenated(w: string, x: string, y: string, t: nat, o: nat)
    requires IndexOf(Ones, w).None? && IndexOf(Teens, w).None? && IndexOf(Tens, w).None?
    requires HyphenAt(w) == Some(|x|)
    requires w[..|x|] == x && w[|x| + 1..] == y
    requires IndexOf(Tens, x) == Some(t) && IndexOf(Ones, y) == Some(o)
    requires t >= 2 && o >= 1
    ensures DecodeBelow100(w).Some? && DecodeBelow100(w).value == 10 * t + o
  {
    DecodeAtHyphen(w, x, y);
    DecodeTensOnesOf(x, y, t, o);
  }

  lemma HyphenRoundTrip(t: int, o: int)
    requires 2 <= t < 10 && 1 <= o < 10
    ensures DecodeBelow100(HyphenWord(t, o)).Some? && DecodeBelow100(HyphenWord(t, o)).value == 10 * t + o
  {
    var w := HyphenWord(t, o);
    HyphenWordNotIndexed(t, o);
    HyphenWordFacts(t, o);
    TensIndex(t);
    OnesIndex(o);
    DecodeHyphenated(w, Tens[t], Ones[o], t, o);
  }

  /** Below100Word spells exactly what DecodeBelow100 reads back. */
  lemma Below100RoundTrip(n: int)
    requires 1 <= n < 100
    ensures DecodeBelow100(Below100Word(n)).Some? && DecodeBelow100(Below100Word(n)).value == n
  {
    if n < 10 {
      OnesRoundTrip(n);
    } else if n < 20 {
      TeensRoundTrip(n - 10);
    } else {
      var t, o := n / 10, n % 10;
      assert 10 * t + o == n;
      if o == 0 {
        TensRoundTrip(t);
      } else {
        HyphenRoundTrip(t, o);
      }
    }
  }

  /** How DecodeNumber reads "h hundred and r". */
  lemma DecodeHundredsAnd(toks: seq<string>, h: nat, r: nat)
    requires |toks| == 4 && toks[1] == "hundred" && toks[2] == "and"
    requires IndexOf(Ones, toks[0]) == Some(h) && h >= 1 && DecodeBelow100(toks[3]) == Some(r)
    ensures DecodeNumber(toks).Some? && DecodeNumber(toks).value == 100 * h + r
  {
  }

  /** How DecodeNumber reads "h hundred". */
  lemma DecodeHundreds(toks: seq<string>, h: nat)
    requires |toks| == 2 && toks[1] == "hundred"
    requires IndexOf(Ones, toks[0]) == Some(h) && h >= 1
    ensures DecodeNumber(toks).Some? && DecodeNumber(toks).value == 100 * h
  {
  }

  lemma HundredsRoundTrip(n: int)
    requires 100 <= n < 1000
    ensures DecodeNumber(NumberTokens(n)).Some? && DecodeNumber(NumberTokens(n)).value == n
  {
    var h, r := n / 100, n % 100;
    var toks := NumberTokens(n);
    OnesIndex(h);
    if r != 0 {
      Below100RoundTrip(r);
      assert toks == [Ones[h], "hundred", "and", Below100Word(r)];
      DecodeHundredsAnd(toks, h, r);
    } else {
      assert toks == [Ones[h], "hundred"];
      DecodeHundreds(toks, h);
    }
  }

  /** NumberTokens spells exactly what DecodeNumber reads back. */
  lemma NumberRoundTrip(n: int)
    requires 1 <= n < 1000
    ensures DecodeNumber(NumberTokens(n)) == Some(n)
  {
    if n < 100 {
      Below100RoundTrip(n);
    } else {
      HundredsRoundTrip(n);
    }
  }

  lemma Below100IsNumberToWords(n: int)
    requires 1 <= n < 100
    ensures NumberToWords(n) == Below100Word(n)
  {
    if n >= 20 {
      if n % 10 == 0 {
        assert Tens[n / 10] + "" == Tens[n / 10];
      } else {
        assert Tens[n / 10] + ("-" + Ones[n % 10]) == Tens[n / 10] + "-" + Ones[n % 10];
      }
    }
  }

  lemma Assoc(a: string, b: string, c: string)
    ensures a + b + c == a + (b + c)
  {
  }

  lemma HundredsToWords(n: int)
    requires 100 <= n < 1000 && n % 100 != 0
    ensures NumberToWords(n) == Ones[n / 100] + " hundred" + " and " + NumberToWords(n % 100)
  {
    var r := n % 100;
    if r >= 20 {
      var hp := Ones[n / 100] + " hundred";
      var tail := if r % 10 > 0 then "-" + Ones[r % 10] else "";
      assert NumberToWords(r) == Tens[r / 10] + tail;
      assert NumberToWords(n) == hp + " and " + Tens[r / 10] + tail;
      Assoc(hp + " and ", Tens[r / 10], tail);
    }
  }

  lemma JoinHundreds(a: string, w: string)
    ensures a + " hundred" + " and " + w == Join([a, "hundred", "and", w], " ")
  {
    var xs := [a, "hundred", "and", w];
    assert xs[1..] == ["hundred", "and", w];
    assert xs[1..][1..] == ["and", w];
    assert Join(["and", w], " ") == "and" + " " + w;
    assert Join(["hundred", "and", w], " ") == "hundred" + " " + ("and" + " " + w);
    assert " hundred" == " " + "hundred";
    assert " and " == " " + "and" + " ";
  }

  lemma NumberToWordsIsJoin(n: int)
    requires 1 <= n < 1000
    ensures NumberToWords(n) == Join(NumberTokens(n), " ")
  {
    if n < 100 {
      Below100IsNumberToWords(n);
    } else if n % 100 != 0 {
      var h, w := n / 100, Below100Word(n % 100);
      HundredsToWords(n);
      Below100IsNumberToWords(n % 100);
      assert NumberTokens(n) == [Ones[h], "hundred", "and", w];
      JoinHundreds(Ones[h], w);
    } else {
      assert NumberTokens(n) == [Ones[n / 100], "hundred"];
      assert " hundred" == " " + "hundred";
    }
  }

  /** The figure spoken by dollars_to_words is the figure's tokens joined by spaces. */
  lemma FigurePartsIsJoin(whole: int)
    requires 1 <= whole < 1_000_000
    ensures FigureParts(whole) != []
    ensures Join(FigureParts(whole), " ") == Join(DollarNumberTokens(whole), " ")
  {
    if whole < 1000 {
      NumberToWordsIsJoin(whole);
      assert DollarNumberTokens(whole) == NumberTokens(whole);
    } else {
      ThousandsIsJoin(whole);
    }
  }

  lemma ThousandsIsJoin(whole: int)
    requires 1000 <= whole < 1_000_000
    ensures FigureParts(whole) != []
    ensures Join(FigureParts(whole), " ") == Join(DollarNumberTokens(whole), " ")
  {
    var th, rest := whole / 1000, whole % 1000;
    var thx := NumberToWords(th) + " thousand";
    var thTokens := NumberTokens(th) + ["thousand"];
    ThousandPart(th);
    if rest == 0 {
      assert DollarNumberTokens(whole) == thTokens;
      assert FigureParts(whole) == [thx];
    } else {
      NumberToWordsIsJoin(rest);
      assert DollarNumberTokens(whole) == thTokens + NumberTokens(rest);
      JoinAppend(thTokens, NumberTokens(rest), " ");
      assert FigureParts(whole) == [thx] + [NumberToWords(rest)];
      JoinTwo(thx, NumberToWords(rest), " ");
    }
  }

  lemma ThousandPart(th: int)
    requires 1 <= th < 1000
    ensures Join(NumberTokens(th) + ["thousand"], " ") == NumberToWords(th) + " thousand"
  {
    NumberToWordsIsJoin(th);
    JoinAppend(NumberTokens(th), ["thousand"], " ");
    assert Join(["thousand"], " ") == "thousand";
    assert " thousand" == " " + "thousand";
  }

  lemma CentPhraseIsJoin(c: int)
    requires 1 <= c < 100
    ensures CentPhrase(c) == Join(CentTokens(c), " ")
  {
    if c == 1 {
      assert Join(["one", "cent"], " ") == "one" + " " + "cent";
    } else {
      NumberToWordsIsJoin(c);
      JoinAppend(NumberTokens(c), ["cents"], " ");
      assert " cents" == " " + "cents";
    }
  }

  /** Words a figure never contains: the unit words and "zero". */
  const Units: set<string> := {"zero", "dollar", "dollars", "cent", "cents"}

  predicate FigureToken(w: string) {
    IsWord(w) && w !in Units
  }

  predicate FigureTokens(ts: seq<string>) {
    forall i :: 0 <= i < |ts| ==> FigureToken(ts[i])
  }

  lemma FigureTokensAppend(xs: seq<string>, ys: seq<string>)
    requires FigureTokens(xs) && FigureTokens(ys)
    ensures FigureTokens(xs + ys)
  {
    forall i | 0 <= i < |xs + ys| ensures FigureToken((xs + ys)[i]) {
      if i >= |xs| {
        assert (xs + ys)[i] == ys[i - |xs|];
      }
    }
  }

  lemma NumberTokensAreFigure(n: int)
    requires 1 <= n < 1000
    ensures FigureTokens(NumberTokens(n))
  {
    NumberTokensFacts(n);
  }

  lemma ThousandIsFigure()
    ensures FigureTokens(["thousand"])
  {
    assert "thousand"[0] == 't';
  }

  lemma DollarNumberTokensFacts(whole: int)
    requires 1 <= whole < 1_000_000
    ensures DollarNumberTokens(whole) != []
    ensures FigureTokens(DollarNumberTokens(whole))
  {
    if whole < 1000 {
      NumberTokensAreFigure(whole);
      assert DollarNumberTokens(whole) == NumberTokens(whole);
    } else {
      var th, rest := whole / 1000, whole % 1000;
      NumberTokensAreFigure(th);
      ThousandIsFigure();
      FigureTokensAppend(NumberTokens(th), ["thousand"]);
      if rest == 0 {
        assert DollarNumberTokens(whole) == NumberTokens(th) + ["thousand"];
      } else {
        NumberTokensAreFigure(rest);
        FigureTokensAppend(NumberTokens(th) + ["thousand"], NumberTokens(rest));
        assert DollarNumberTokens(whole) == NumberTokens(th) + ["thousand"] + NumberTokens(rest);
      }
    }
  }

  /** How DecodeDollars reads "<th> thousand <lo>". */
  lemma DecodeThousands(xs: seq<string>, ys: seq<string>, th: nat, lo: nat)
    requires forall i :: 0 <= i < |xs| ==> xs[i] != "thousand"
    requires DecodeNumber(xs).Some? && DecodeNumber(xs).value == th
    requires ys == [] ==> lo == 0
    requires ys != [] ==> DecodeNumber(ys).Some? && DecodeNumber(ys).value == lo
    ensures var d := DecodeDollars(xs + ["thousand"] + ys, "dollars");
      d.Some? && d.value == th * 1000 + lo
  {
    var toks := xs + ["thousand"] + ys;
    FirstOfAt(toks, {"thousand"}, |xs|);
    assert toks[..|xs|] == xs;
    assert toks[|xs| + 1..] == ys;
  }

  lemma DecodeNoThousand(xs: seq<string>)
    requires FigureTokens(xs)
    requires forall i :: 0 <= i < |xs| ==> xs[i] != "thousand"
    ensures DecodeDollars(xs, "dollars") == DecodeNumber(xs)
  {
    FirstOfAbsent(xs, {"thousand"});
  }

  lemma ThousandsRoundTrip(whole: int)
    requires 1000 <= whole < 1_000_000
    ensures var d := DecodeDollars(DollarNumberTokens(whole), "dollars");
      d.Some? && d.value == whole
  {
    var th, rest := whole / 1000, whole % 1000;
    NumberTokensFacts(th);
    NumberRoundTrip(th);
    if rest == 0 {
      assert DollarNumberTokens(whole) == NumberTokens(th) + ["thousand"] + [];
      DecodeThousands(NumberTokens(th), [], th, 0);
    } else {
      NumberRoundTrip(rest);
      assert DollarNumberTokens(whole) == NumberTokens(th) + ["thousand"] + NumberTokens(rest);
      DecodeThousands(NumberTokens(th), NumberTokens(rest), th, rest);
    }
  }

  /** The words of a dollar figure read back as the figure. */
  lemma DollarNumberRoundTrip(whole: int)
    requires 1 <= whole < 1_000_000
    ensures var d := DecodeDollars(DollarNumberTokens(whole), "dollars");
      d.Some? && d.value == whole
  {
    if whole < 1000 {
      NumberTokensFacts(whole);
      NumberTokensAreFigure(whole);
      assert DollarNumberTokens(whole) == NumberTokens(whole);
      DecodeNoThousand(NumberTokens(whole));
      NumberRoundTrip(whole);
    } else {
      ThousandsRoundTrip(whole);
    }
  }

  lemma SplitOne()
    ensures Split("one") == ["one"]
  {
    OnesFacts(1);
    LettersIsWord("one");
    SplitJoin(["one"]);
    assert Join(["one"], " ") == "one";
  }

  lemma DecodeOne()
    ensures DecodeDollars(["one"], "dollars") == Some(1)
  {
    FirstOfAbsent(["one"], {"thousand"});
    OnesIndex(1);
  }

  /** A figure is spoken "one" only for one dollar, so "one dollar" is said exactly then. */
  lemma OnlyOneIsOne(whole: int)
    requires 1 <= whole < 1_000_000
    ensures Join(DollarNumberTokens(whole), " ") == "one" <==> whole == 1
  {
    var toks := DollarNumberTokens(whole);
    if whole == 1 {
      assert toks == ["one"];
    } else if Join(toks, " ") == "one" {
      DollarNumberTokensFacts(whole);
      SplitJoin(toks);
      SplitOne();
      DollarNumberRoundTrip(whole);
      DecodeOne();
    }
  }

  lemma OneDollar()
    ensures DollarPart(FigureParts(1)) == [Join(DollarTokens(1), " ")]
  {
    assert FigureParts(1) == ["one"];
    assert Join(["one"], " ") == "one";
    assert DollarPart(["one"]) == ["one dollar"];
    assert DollarTokens(1) == ["one", "dollar"];
    assert Join(["one", "dollar"], " ") == "one" + " " + Join(["dollar"], " ");
    assert Join(["dollar"], " ") == "dollar";
    assert "one dollar" == "one" + " " + "dollar";
  }

  lemma DollarPartIsJoin(whole: int)
    requires 1 <= whole < 1_000_000
    ensures DollarPart(FigureParts(whole)) == [Join(DollarTokens(whole), " ")]
  {
    FigurePartsIsJoin(whole);
    OnlyOneIsOne(whole);
    if whole == 1 {
      OneDollar();
    } else {
      var parts, ts := FigureParts(whole), DollarNumberTokens(whole);
      assert DollarPart(parts) == [Join(ts, " ") + " dollars"];
      assert DollarTokens(whole) == ts + ["dollars"];
      JoinAppend(ts, ["dollars"], " ");
      assert Join(["dollars"], " ") == "dollars";
      assert " dollars" == " " + "dollars";
      Assoc(Join(ts, " "), " ", "dollars");
    }
  }

  /** The cents split off an amount in cents, as dollars_to_words splits them. */
  lemma SplitAmount(a: int)
    requires a >= 0
    ensures Money.TruncDiv(a, 100) == a / 100
    ensures a - Money.TruncDiv(a, 100) * 100 == a % 100
  {
  }

  lemma CentsOnlyIsJoin(a: int)
    requires 1 <= a < 100
    ensures DollarsToWords(a) == Join(AmountTokens(a), " ")
  {
    CentsOnlyShape(a);
    CentPhraseIsJoin(a);
    assert a / 100 == 0 && a % 100 == a;
    assert AmountTokens(a) == CentTokens(a);
  }

  lemma CentsOnlyShape(a: int)
    requires 1 <= a < 100
    ensures DollarsToWords(a) == CentPhrase(a)
  {
    SplitAmount(a);
    assert Money.TruncDiv(a, 100) == 0;
    assert FigureParts(0) == [] && DollarPart([]) == [];
    assert Join([CentPhrase(a)], " ") == CentPhrase(a);
  }

  lemma DollarsOnlyIsJoin(a: int)
    requires 100 <= a < 100_000_000 && a % 100 == 0
    ensures DollarsToWords(a) == Join(AmountTokens(a), " ")
  {
    SplitAmount(a);
    DollarPartIsJoin(a / 100);
  }

  lemma JoinAnd(xs: seq<string>, ys: seq<string>)
    requires xs != [] && ys != []
    ensures Join(xs + ["and"] + ys, " ") == Join([Join(xs, " "), "and " + Join(ys, " ")], " ")
  {
    JoinAppend(xs, ["and"], " ");
    JoinAppend(xs + ["and"], ys, " ");
    assert Join(["and"], " ") == "and";
    var jx, jy := Join(xs, " "), Join(ys, " ");
    assert Join([jx, "and " + jy], " ") == jx + " " + ("and " + jy);
    assert "and " + jy == "and" + " " + jy;
  }

  lemma DollarsAndCentsShape(a: int)
    requires 100 <= a < 100_000_000 && a % 100 != 0
    ensures DollarsToWords(a) == Join(DollarPart(FigureParts(a / 100)) + ["and " + CentPhrase(a % 100)], " ")
  {
    SplitAmount(a);
    DollarPartIsJoin(a / 100);
  }

  lemma DollarsAndCentsIsJoin(a: int)
    requires 100 <= a < 100_000_000 && a % 100 != 0
    ensures DollarsToWords(a) == Join(AmountTokens(a), " ")
  {
    var whole, c := a / 100, a % 100;
    DollarsAndCentsShape(a);
    DollarPartIsJoin(whole);
    CentPhraseIsJoin(c);
    JoinAnd(DollarTokens(whole), CentTokens(c));
  }

  /** The spoken amount is the amount's tokens joined by single spaces. */
  lemma DollarsToWordsIsJoin(a: int)
    requires 0 <= a < 100_000_000
    ensures DollarsToWords(a) == Join(AmountTokens(a), " ")
  {
    if a == 0 {
      assert Join(["zero", "dollars"], " ") == "zero" + " " + "dollars";
    } else if a < 100 {
      CentsOnlyIsJoin(a);
    } else if a % 100 == 0 {
      DollarsOnlyIsJoin(a);
    } else {
      DollarsAndCentsIsJoin(a);
    }
  }

  /** A negative amount is spoken as zero dollars. */
  lemma NegativeIsZeroDollars(a: int)
    requires a < 0
    ensures DollarsToWords(a) == "zero dollars"
  {
    assert FigureParts(Money.TruncDiv(a, 100)) == [];
  }

  // Reading a whole amount back.

  const DollarUnits: set<string> := {"dollar", "dollars"}

  predicate NoDollarWord(ts: seq<string>) {
    forall i :: 0 <= i < |ts| ==> ts[i] !in DollarUnits
  }

  /** What DecodeAmount needs of the dollar tokens: a figure free of unit words and
      not starting with "zero", then the unit, reading back as `d`. */
  predicate DollarShaped(dt: seq<string>, d: nat) {
    |dt| >= 2 && dt[|dt| - 1] in DollarUnits && dt[0] != "zero"
    && NoDollarWord(dt[..|dt| - 1])
    && var v := DecodeDollars(dt[..|dt| - 1], dt[|dt| - 1]); v.Some? && v.value == d
  }

  lemma FigureHasNoDollar(ts: seq<string>)
    requires FigureTokens(ts)
    ensures NoDollarWord(ts)
  {
  }

  lemma DollarTokensShaped(whole: int)
    requires 1 <= whole < 1_000_000
    ensures DollarShaped(DollarTokens(whole), whole)
  {
    var dt := DollarTokens(whole);
    if whole == 1 {
      assert dt == ["one", "dollar"];
      assert dt[..1] == ["one"];
    } else {
      var ts := DollarNumberTokens(whole);
      DollarNumberTokensFacts(whole);
      FigureHasNoDollar(ts);
      DollarNumberRoundTrip(whole);
      assert dt[..|dt| - 1] == ts;
      assert dt[0] == ts[0];
    }
  }

  lemma DecodeDollarsOnly(dt: seq<string>, d: nat)
    requires DollarShaped(dt, d)
    ensures DecodeAmount(dt).Some? && DecodeAmount(dt).value == 100 * d
  {
    var i := |dt| - 1;
    forall j | 0 <= j < i ensures dt[j] !in DollarUnits {
      assert dt[j] == dt[..i][j];
    }
    FirstOfAt(dt, DollarUnits, i);
  }

  lemma DecodeDollarsAndCents(dt: seq<string>, d: nat, cs: seq<string>, c: nat)
    requires DollarShaped(dt, d)
    requires DecodeCents(cs).Some? && DecodeCents(cs).value == c
    ensures var v := DecodeAmount(dt + ["and"] + cs); v.Some? && v.value == 100 * d + c
  {
    var toks, i := dt + ["and"] + cs, |dt| - 1;
    forall j | 0 <= j < i ensures toks[j] !in DollarUnits {
      assert toks[j] == dt[..i][j];
    }
    FirstOfAt(toks, DollarUnits, i);
    assert toks[..i] == dt[..i];
    assert toks[i + 1] == "and";
    assert toks[i + 2..] == cs;
  }

  lemma OneCentFacts()
    ensures var cs := CentTokens(1);
      cs != [] && NoDollarWord(cs) && cs[0] != "zero"
      && (forall i :: 0 <= i < |cs| ==> IsWord(cs[i]))
      && DecodeCents(cs).Some? && DecodeCents(cs).value == 1
  {
    var cs := CentTokens(1);
    assert cs == ["one", "cent"];
    assert IsWord("one") && IsWord("cent") by {
      assert "one"[0] == 'o' && "cent"[0] == 'c';
    }
  }

  lemma CentsDecode(c: int)
    requires 2 <= c < 100
    ensures DecodeCents(CentTokens(c)) == Some(c)
  {
    var cs, ns := CentTokens(c), NumberTokens(c);
    NumberRoundTrip(c);
    assert cs == ns + ["cents"];
    assert cs[|cs| - 1] == "cents" != "cent";
    assert cs[..|cs| - 1] == ns;
  }

  lemma CentsWords(c: int)
    requires 2 <= c < 100
    ensures var cs := CentTokens(c);
      cs != [] && NoDollarWord(cs) && cs[0] != "zero"
      && (forall i :: 0 <= i < |cs| ==> IsWord(cs[i]))
  {
    var cs, ns := CentTokens(c), NumberTokens(c);
    NumberTokensAreFigure(c);
    assert cs == ns + ["cents"];
    assert IsWord("cents") by { assert "cents"[0] == 'c'; }
    forall i | 0 <= i < |cs| ensures cs[i] !in DollarUnits && IsWord(cs[i]) {
      if i < |ns| {
        assert cs[i] == ns[i];
        assert FigureToken(ns[i]);
      }
    }
    assert ns != [] && FigureToken(ns[0]);
  }

  lemma CentTokensFacts(c: int)
    requires 1 <= c < 100
    ensures var cs := CentTokens(c);
      cs != [] && NoDollarWord(cs) && cs[0] != "zero"
      && (forall i :: 0 <= i < |cs| ==> IsWord(cs[i]))
      && DecodeCents(cs).Some? && DecodeCents(cs).value == c
  {
    if c == 1 {
      OneCentFacts();
    } else {
      CentsDecode(c);
      CentsWords(c);
    }
  }

  lemma DecodeCentsOnly(cs: seq<string>, c: nat)
    requires cs != [] && NoDollarWord(cs) && cs[0] != "zero"
    requires DecodeCents(cs).Some? && DecodeCents(cs).value == c
    ensures DecodeAmount(cs).Some? && DecodeAmount(cs).value == c
  {
    FirstOfAbsent(cs, DollarUnits);
  }

  lemma WholeDollarsRoundTrip(a: int)
    requires 100 <= a < 100_000_000 && a % 100 == 0
    ensures var v := DecodeAmount(AmountTokens(a)); v.Some? && v.value == a
  {
    var whole := a / 100;
    DollarTokensShaped(whole);
    DecodeDollarsOnly(DollarTokens(whole), whole);
  }

  lemma DollarsAndCentsRoundTrip(a: int)
    requires 100 <= a < 100_000_000 && a % 100 != 0
    ensures var v := DecodeAmount(AmountTokens(a)); v.Some? && v.value == a
  {
    var whole, c := a / 100, a % 100;
    DollarTokensShaped(whole);
    CentTokensFacts(c);
    DecodeDollarsAndCents(DollarTokens(whole), whole, CentTokens(c), c);
  }

  lemma ZeroRoundTrip()
    ensures var v := DecodeAmount(AmountTokens(0)); v.Some? && v.value == 0
  {
    assert AmountTokens(0) == ["zero", "dollars"];
  }

  lemma CentsOnlyRoundTrip(a: int)
    requires 1 <= a < 100
    ensures var v := DecodeAmount(AmountTokens(a)); v.Some? && v.value == a
  {
    assert a / 100 == 0 && a % 100 == a;
    assert AmountTokens(a) == CentTokens(a);
    CentTokensFacts(a);
    DecodeCentsOnly(CentTokens(a), a);
  }

  /** The amount's tokens read back as the amount. */
  lemma AmountTokensRoundTrip(a: int)
    requires 0 <= a < 100_000_000
    ensures var v := DecodeAmount(AmountTokens(a)); v.Some? && v.value == a
  {
    if a == 0 {
      ZeroRoundTrip();
    } else if a < 100 {
      CentsOnlyRoundTrip(a);
    } else if a % 100 == 0 {
      WholeDollarsRoundTrip(a);
    } else {
      DollarsAndCentsRoundTrip(a);
    }
  }

  lemma AllWordsAppend(xs: seq<string>, ys: seq<string>)
    requires forall i :: 0 <= i < |xs| ==> IsWord(xs[i])
    requires forall i :: 0 <= i < |ys| ==> IsWord(ys[i])
    ensures forall i :: 0 <= i < |xs + ys| ==> IsWord((xs + ys)[i])
  {
    forall i | 0 <= i < |xs + ys| ensures IsWord((xs + ys)[i]) {
      if i >= |xs| {
        assert (xs + ys)[i] == ys[i - |xs|];
      }
    }
  }

  lemma DollarTokensAreWords(whole: int)
    requires 1 <= whole < 1_000_000
    ensures forall i :: 0 <= i < |DollarTokens(whole)| ==> IsWord(DollarTokens(whole)[i])
  {
    assert IsWord("one") && IsWord("dollar") && IsWord("dollars") by {
      assert "one"[0] == 'o' && "dollar"[0] == 'd' && "dollars"[0] == 'd';
    }
    if whole != 1 {
      DollarNumberTokensFacts(whole);
      AllWordsAppend(DollarNumberTokens(whole), ["dollars"]);
    }
  }

  lemma AmountTokensAreWords(a: int)
    requires 0 <= a < 100_000_000
    ensures forall i :: 0 <= i < |AmountTokens(a)| ==> IsWord(AmountTokens(a)[i])
  {
    if a == 0 {
      assert IsWord("zero") && IsWord("dollars") by {
        assert "zero"[0] == 'z' && "dollars"[0] == 'd';
      }
    } else if a < 100 {
      CentTokensFacts(a);
    } else if a % 100 == 0 {
      DollarTokensAreWords(a / 100);
    } else {
      DollarsAndCentsAreWords(a / 100, a % 100);
    }
  }

  lemma DollarsAndCentsAreWords(whole: int, c: int)
    requires 1 <= whole < 1_000_000 && 1 <= c < 100
    ensures var ts := DollarTokens(whole) + ["and"] + CentTokens(c);
      forall i :: 0 <= i < |ts| ==> IsWord(ts[i])
  {
    DollarTokensAreWords(whole);
    CentTokensFacts(c);
    assert IsWord("and") by { assert "and"[0] == 'a'; }
    AllWordsAppend(DollarTokens(whole), ["and"]);
    AllWordsAppend(DollarTokens(whole) + ["and"], CentTokens(c));
  }

  /** Whoever hears a total spoken can write the exact amount back down: splitting the
      words into tokens and reading them gives the amount in cents. */
  lemma AmountRoundTrip(a: int)
    requires 0 <= a < 100_000_000
    ensures DecodeAmount(Split(DollarsToWords(a))) == Some(a)
  {
    DollarsToWordsIsJoin(a);
    AmountTokensAreWords(a);
    SplitJoin(AmountTokens(a));
    AmountTokensRoundTrip(a);
  }

  /** Different amounts are never spoken alike. */
  lemma DollarsToWordsInjective(a: int, b: int)
    requires 0 <= a < 100_000_000 && 0 <= b < 100_000_000
    requires DollarsToWords(a) == DollarsToWords(b)
    ensures a == b
  {
    AmountRoundTrip(a);
    AmountRoundTrip(b);
  }

  /** dollars_to_words on sample amounts: zero, exactly one dollar and exactly one cent. */
  lemma DollarsToWordsSingular()
    ensures DollarsToWords(0) == "zero dollars"
    ensures DollarsToWords(100) == "one dollar"
    ensures DollarsToWords(1) == "one cent"
  {
    assert Money.TruncDiv(100, 100) == 1;
    assert FigureParts(1) == ["one"];
    assert Join(["one"], " ") == "one";
    assert Money.TruncDiv(1, 100) == 0;
  }

  lemma TwentyOneDollars()
    ensures DollarPart(FigureParts(21)) == ["twenty-one dollars"]
  {
    assert NumberToWords(21) == "twenty-one";
    assert Join(["twenty-one"], " ") == "twenty-one";
    assert "twenty-one" + " dollars" == "twenty-one dollars";
  }

  lemma JoinTwo(a: string, b: string, sep: string)
    ensures Join([a] + [b], sep) == a + sep + b
  {
    assert ([a] + [b])[1..] == [b];
  }

  /** Tens and units are hyphenated. */
  lemma DollarsToWordsHyphen()
    ensures DollarsToWords(2100) == "twenty-one dollars"
  {
    assert Money.TruncDiv(2100, 100) == 21;
    TwentyOneDollars();
  }

  /** Dollars and cents are joined by "and". */
  lemma DollarsToWordsAnd()
    ensures DollarsToWords(101) == "one dollar and one cent"
  {
    assert 101 / 100 == 1 && 101 % 100 == 1;
    DollarsAndCentsShape(101);
    OneDollarOneCent();
    JoinTwo("one dollar", "and one cent", " ");
  }

  lemma OneDollarOneCent()
    ensures DollarPart(FigureParts(1)) + ["and " + CentPhrase(1)] == ["one dollar"] + ["and one cent"]
  {
    assert FigureParts(1) == ["one"];
    assert Join(["one"], " ") == "one";
    assert DollarPart(["one"]) == ["one dollar"];
    assert "and " + "one cent" == "and one cent";
  }

  lemma HundredTwentyDollars()
    ensures DollarPart(FigureParts(120)) == ["one hundred and twenty dollars"]
  {
    OneHundredTwenty();
    assert FigureParts(120) == ["one hundred and twenty"];
    assert Join(["one hundred and twenty"], " ") == "one hundred and twenty";
    assert "one hundred and twenty" + " dollars" == "one hundred and twenty dollars";
  }

  lemma OneHundredTwenty()
    ensures NumberToWords(120) == "one hundred and twenty"
  {
    assert 120 / 100 == 1 && 120 % 100 == 20 && 20 / 10 == 2 && 20 % 10 == 0;
    assert Ones[1] + " hundred" + " and " + Tens[2] == "one hundred and twenty";
  }

  /** Hundreds are spoken "X hundred and ...". */
  lemma DollarsToWordsHundreds()
    ensures DollarsToWords(12_000) == "one hundred and twenty dollars"
  {
    assert Money.TruncDiv(12_000, 100) == 120;
    HundredTwentyDollars();
  }
}
