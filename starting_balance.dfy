/**
 * `parse_starting_balance`: the account size written into an MT5 account name
 * ("$6K", "7.5k", "$1M", "$50,000", "$25000"). The three regular expressions
 * of the source are written out here as hand scanners over the name:
 *
 *   `\$?([\d.]+)\s*[Mm]`              — SearchUnit(s, 'M', 'm')
 *   `\$?([\d.]+)\s*[Kk]`              — SearchUnit(s, 'K', 'k')
 *   `\$(\d{1,3}(?:,\d{3})+|\d{4,})`   — SearchRaw(s)
 *
 * each tried at every position from the left, as `re.search` does, with the
 * backtracking of the greedy quantifiers resolved by hand (see UnitNumberAt and
 * RawMatchAt). The captured text then goes through Python's `float`, which
 * raises on text such as "1.2.3" or ".".
 */
module StartingBalance {
  import opened Wrappers
  import opened Text

  /** Outcome of `parse_starting_balance`: None, a float, or the ValueError that `float` raises. */
  datatype Parsed = NoBalance | Balance(amount: real) | FloatRaises

  /** `[\d.]`: the characters of the captured number (ASCII digits). */
  predicate IsNumChar(c: char) { IsDigit(c) || c == '.' }

  /** What `([\d.]+)` captures. */
  predicate IsNumber(g: string) {
    g != [] && forall k :: 0 <= k < |g| ==> IsNumChar(g[k])
  }

  /** Length of the longest run of `[\d.]` starting at `j`. */
  function NumRun(s: string, j: nat): (n: nat)
    requires j <= |s|
    ensures j + n <= |s|
    ensures forall k :: j <= k < j + n ==> IsNumChar(s[k])
    ensures j + n == |s| || !IsNumChar(s[j + n])
    decreases |s| - j
  {
    if j < |s| && IsNumChar(s[j]) then 1 + NumRun(s, j + 1) else 0
  }

  /** Length of the longest run of `\s` starting at `j`. */
  function SpaceRun(s: string, j: nat): (n: nat)
    requires j <= |s|
    ensures j + n <= |s|
    ensures forall k :: j <= k < j + n ==> IsPySpace(s[k])
    ensures j + n == |s| || !IsPySpace(s[j + n])
    decreases |s| - j
  {
    if j < |s| && IsPySpace(s[j]) then 1 + SpaceRun(s, j + 1) else 0
  }

  /** Length of the longest run of `\d` starting at `j`. */
  function DigitRun(s: string, j: nat): (n: nat)
    requires j <= |s|
    ensures j + n <= |s|
    ensures forall k :: j <= k < j + n ==> IsDigit(s[k])
    ensures j + n == |s| || !IsDigit(s[j + n])
    decreases |s| - j
  {
    if j < |s| && IsDigit(s[j]) then 1 + DigitRun(s, j + 1) else 0
  }

  /**
   * `([\d.]+)\s*[Uu]` at position `j`. Neither a digit nor a dot is a space or
   * the unit letter, and no space is the unit letter, so of all the ways the
   * greedy quantifiers can back off only the longest number followed by the
   * longest space run can be followed by the unit: the match exists exactly
   * when that character is the unit.
   */
  function NumberBeforeUnit(s: string, j: nat, upper: char, lower: char): (r: Option<string>)
    requires j <= |s|
    ensures r.Some? ==> IsNumber(r.value)
  {
    var n := NumRun(s, j);
    var k := j + n + SpaceRun(s, j + n);
    if n > 0 && k < |s| && (s[k] == upper || s[k] == lower) then Some(s[j..j + n]) else None
  }

  /** `\$?([\d.]+)\s*[Uu]` at position `i`: with the `$` when there is one (a `$` cannot start the number). */
  function UnitMatchAt(s: string, i: nat, upper: char, lower: char): (r: Option<string>)
    requires i < |s|
    ensures r.Some? ==> IsNumber(r.value)
  {
    if s[i] == '$' then NumberBeforeUnit(s, i + 1, upper, lower) else NumberBeforeUnit(s, i, upper, lower)
  }

  /** `re.search` of the unit pattern from position `i`: the leftmost match's group. */
  function SearchUnitFrom(s: string, i: nat, upper: char, lower: char): (r: Option<string>)
    ensures r.Some? ==> IsNumber(r.value)
    decreases |s| - i
  {
    if i >= |s| then None
    else match UnitMatchAt(s, i, upper, lower)
      case Some(g) => Some(g)
      case None => SearchUnitFrom(s, i + 1, upper, lower)
  }

  function SearchUnit(s: string, upper: char, lower: char): (r: Option<string>)
    ensures r.Some? ==> IsNumber(r.value)
  {
    SearchUnitFrom(s, 0, upper, lower)
  }

  /** When the unit search finds nothing, no position matches. */
  lemma {:induction false} SearchUnitFromNoneNoMatch(s: string, i: nat, upper: char, lower: char)
    ensures SearchUnitFrom(s, i, upper, lower).None? ==>
              forall p :: i <= p < |s| ==> UnitMatchAt(s, p, upper, lower).None?
    decreases |s| - i
  {
    if i < |s| && UnitMatchAt(s, i, upper, lower).None? {
      SearchUnitFromNoneNoMatch(s, i + 1, upper, lower);
    }
  }

  /** The unit search finds nothing exactly when no position matches. */
  lemma SearchUnitFromNone(s: string, i: nat, upper: char, lower: char)
    ensures SearchUnitFrom(s, i, upper, lower).None? <==>
              forall p :: i <= p < |s| ==> UnitMatchAt(s, p, upper, lower).None?
  {
    SearchUnitFromNoneNoMatch(s, i, upper, lower);
    SearchUnitFromIsLeftmost(s, i, upper, lower);
  }

  /** The unit search returns the group of the leftmost position that matches. */
  lemma {:induction false} SearchUnitFromIsLeftmost(s: string, i: nat, upper: char, lower: char)
    ensures SearchUnitFrom(s, i, upper, lower).Some? ==>
              exists p :: i <= p < |s| && UnitMatchAt(s, p, upper, lower) == SearchUnitFrom(s, i, upper, lower)
                          && forall q :: i <= q < p ==> UnitMatchAt(s, q, upper, lower).None?
    decreases |s| - i
  {
    if i < |s| && UnitMatchAt(s, i, upper, lower).None? {
      SearchUnitFromIsLeftmost(s, i + 1, upper, lower);
    }
  }

  /** A name without the unit letter never matches the unit pattern. */
  lemma {:induction false} NoUnitLetterNoMatch(s: string, i: nat, upper: char, lower: char)
    requires forall k :: 0 <= k < |s| ==> s[k] != upper && s[k] != lower
    ensures SearchUnitFrom(s, i, upper, lower) == None
    decreases |s| - i
  {
    if i < |s| {
      NoUnitLetterNoMatch(s, i + 1, upper, lower);
    }
  }

  /** Number of consecutive `,\d{3}` groups starting at `j`. */
  function CommaGroups(s: string, j: nat): (g: nat)
    requires j <= |s|
    ensures j + 4 * g <= |s|
    ensures forall k :: j <= k < j + 4 * g ==> s[k] == ',' || IsDigit(s[k])
    decreases |s| - j
  {
    if j + 4 <= |s| && s[j] == ',' && IsDigit(s[j + 1]) && IsDigit(s[j + 2]) && IsDigit(s[j + 3])
    then 1 + CommaGroups(s, j + 4)
    else 0
  }

  /** `s` with every ',' removed (`.replace(",", "")`). */
  function DropCommas(s: string): (r: string)
    ensures |r| <= |s| && forall k :: 0 <= k < |r| ==> r[k] != ','
    ensures (forall k :: 0 <= k < |s| ==> s[k] == ',' || IsDigit(s[k])) ==> AllDigits(r)
    ensures s != [] && s[0] != ',' ==> r != [] && r[0] == s[0]
  {
    if s == [] then []
    else if s[0] == ',' then DropCommas(s[1..])
    else [s[0]] + DropCommas(s[1..])
  }

  /**
   * `\$(\d{1,3}(?:,\d{3})+|\d{4,})` at position `i`, giving the group without
   * its commas. The first alternative needs the digit run after `$` to be one
   * to three long and followed by at least one `,ddd` group (the greedy group
   * repetition then takes all consecutive groups); a longer run cannot be
   * followed by a comma within three digits, so the second alternative, the
   * whole run of four digits or more, is the only one left.
   */
  function RawMatchAt(s: string, i: nat): (r: Option<string>)
    requires i < |s|
    ensures r.Some? ==> r.value != [] && AllDigits(r.value)
  {
    if s[i] != '$' then None
    else
      var n := DigitRun(s, i + 1);
      if 1 <= n <= 3 && CommaGroups(s, i + 1 + n) > 0 then
        Some(DropCommas(s[i + 1..i + 1 + n + 4 * CommaGroups(s, i + 1 + n)]))
      else if n >= 4 then Some(s[i + 1..i + 1 + n])
      else None
  }

  function SearchRawFrom(s: string, i: nat): (r: Option<string>)
    ensures r.Some? ==> r.value != [] && AllDigits(r.value)
    decreases |s| - i
  {
    if i >= |s| then None
    else match RawMatchAt(s, i)
      case Some(g) => Some(g)
      case None => SearchRawFrom(s, i + 1)
  }

  /** The raw search finds nothing exactly when no position matches. */
  lemma {:induction false} SearchRawFromNone(s: string, i: nat)
    ensures SearchRawFrom(s, i).None? <==> forall p :: i <= p < |s| ==> RawMatchAt(s, p).None?
    decreases |s| - i
  {
    if i < |s| && RawMatchAt(s, i).None? {
      SearchRawFromNone(s, i + 1);
    }
  }

  /** The raw search returns the match of the leftmost position that matches. */
  lemma {:induction false} SearchRawFromIsLeftmost(s: string, i: nat)
    ensures SearchRawFrom(s, i).Some? ==>
              exists p :: i <= p < |s| && RawMatchAt(s, p) == SearchRawFrom(s, i)
                          && forall q :: i <= q < p ==> RawMatchAt(s, q).None?
    decreases |s| - i
  {
    if i < |s| && RawMatchAt(s, i).None? {
      SearchRawFromIsLeftmost(s, i + 1);
    }
  }

  /** Every raw match begins at a `$`, so a name without one has no raw number. */
  lemma {:induction false} NoDollarNoRaw(s: string, i: nat)
    requires forall k :: 0 <= k < |s| ==> s[k] != '$'
    ensures SearchRawFrom(s, i) == None
    decreases |s| - i
  {
    if i < |s| {
      NoDollarNoRaw(s, i + 1);
    }
  }

  /** The value of a string of decimal digits ("" reads as 0). */
  function NatOf(d: string): nat
    requires AllDigits(d)
  {
    if d == [] then 0 else 10 * NatOf(d[..|d| - 1]) + DigitValue(d[|d| - 1])
  }

  function Pow10(n: nat): (p: nat)
    ensures p >= 1
  {
    if n == 0 then 1 else 10 * Pow10(n - 1)
  }

  /** Index of the first '.' in `s`, if any. */
  function FirstDot(s: string): (r: Option<nat>)
    ensures r.Some? ==> r.value < |s| && s[r.value] == '.' && forall k :: 0 <= k < r.value ==> s[k] != '.'
    ensures r.None? ==> forall k :: 0 <= k < |s| ==> s[k] != '.'
  {
    if s == [] then None
    else if s[0] == '.' then Some(0)
    else match FirstDot(s[1..])
      case Some(p) => Some(p + 1)
      case None => None
  }

  /**
   * Python's `float` on a run of `[\d.]`: digits with at most one dot and at
   * least one digit; anything else ("", ".", "1.2.3") raises.
   */
  function FloatOf(t: string): (r: Option<real>)
    requires forall k :: 0 <= k < |t| ==> IsNumChar(t[k])
    ensures r.Some? ==> r.value >= 0.0
    ensures AllDigits(t) && t != [] ==> r == Some(NatOf(t) as real)
  {
    var dot := FirstDot(t);
    if dot.None? then
      assert forall k :: 0 <= k < |t| ==> t[k] != '.' && IsNumChar(t[k]);
      if t == [] then None else Some(NatOf(t) as real)
    else
      var p := dot.value;
      var whole := t[..p];
      var frac := t[p + 1..];
      assert forall k :: 0 <= k < |whole| ==> whole[k] == t[k] && t[k] != '.' && IsNumChar(t[k]);
      assert forall k :: 0 <= k < |frac| ==> frac[k] == t[p + 1 + k];
      if !AllDigits(frac) || (whole == [] && frac == []) then None
      else Some(DecimalValue(whole, frac))
  }

  /** The value of "<whole>.<frac>": the whole digits plus the fraction digits over their power of ten. */
  function DecimalValue(whole: string, frac: string): (r: real)
    requires AllDigits(whole) && AllDigits(frac)
    ensures r >= 0.0
  {
    NatOf(whole) as real + NatOf(frac) as real / Pow10(|frac|) as real
  }

  /** `float(group) * factor`, or the ValueError. */
  function Scaled(g: string, factor: real): Parsed
    requires forall k :: 0 <= k < |g| ==> IsNumChar(g[k])
  {
    match FloatOf(g)
    case Some(v) => Balance(v * factor)
    case None => FloatRaises
  }

  /**
   * `parse_starting_balance(mt5_name)`: empty name → None; otherwise the
   * millions form, then the thousands form, then the `$` raw number.
   */
  function ParseStartingBalance(name: string): Parsed {
    if name == [] then NoBalance
    else
      match SearchUnit(name, 'M', 'm')
      case Some(g) => Scaled(g, 1000000.0)
      case None =>
        match SearchUnit(name, 'K', 'k')
        case Some(g) => Scaled(g, 1000.0)
        case None =>
          match SearchRawFrom(name, 0)
          case Some(d) => Balance(NatOf(d) as real)
          case None => NoBalance
  }

  /**
   * The order of the three forms: a millions match decides the result whatever
   * else the name holds; a thousands match decides it when there is no millions
   * match; the raw number counts only when neither unit form matches; and every
   * balance found is non-negative.
   */
  lemma ParsePrecedence(name: string)
    ensures name == [] ==> ParseStartingBalance(name) == NoBalance
    ensures name != [] && SearchUnit(name, 'M', 'm').Some? ==>
              ParseStartingBalance(name) != NoBalance
              && (ParseStartingBalance(name).Balance? ==>
                    exists v: real :: FloatOf(SearchUnit(name, 'M', 'm').value) == Some(v)
                                      && ParseStartingBalance(name).amount == v * 1000000.0)
    ensures name != [] && SearchUnit(name, 'M', 'm').None? && SearchUnit(name, 'K', 'k').Some? ==>
              ParseStartingBalance(name) != NoBalance
              && (ParseStartingBalance(name).Balance? ==>
                    exists v: real :: FloatOf(SearchUnit(name, 'K', 'k').value) == Some(v)
                                      && ParseStartingBalance(name).amount == v * 1000.0)
    ensures ParseStartingBalance(name) == NoBalance <==>
              name == [] || (SearchUnit(name, 'M', 'm').None? && SearchUnit(name, 'K', 'k').None?
                             && SearchRawFrom(name, 0).None?)
    ensures ParseStartingBalance(name).Balance? ==> ParseStartingBalance(name).amount >= 0.0
  {
  }

  /** Reading back a rendered number gives the number. */
  lemma {:induction false} NatOfDigits(n: nat)
    ensures NatOf(Digits(n)) == n
  {
    if n >= 10 {
      NatOfDigits(n / 10);
      var d := Digits(n);
      assert d[..|d| - 1] == Digits(n / 10);
    }
  }

  /** Numbers of 1000 or more render with at least four digits, smaller ones with at most three. */
  lemma {:induction false} DigitsLength(n: nat)
    ensures n >= 1000 ==> |Digits(n)| >= 4
    ensures n >= 10 ==> |Digits(n)| >= 2
    ensures n < 10 ==> |Digits(n)| == 1
    ensures n < 100 ==> |Digits(n)| <= 2
    ensures n < 1000 ==> |Digits(n)| <= 3
  {
    if n >= 10 {
      DigitsLength(n / 10);
    }
  }

  /** The run scanners find exactly a digit block that ends at a non-digit, non-dot character. */
  lemma RunOfBlock(s: string, j: nat, len: nat)
    requires j + len < |s|
    requires forall k :: j <= k < j + len ==> IsDigit(s[k])
    requires !IsNumChar(s[j + len])
    ensures NumRun(s, j) == len && DigitRun(s, j) == len
  {
  }

  /** The thousands form: "$<n>K" reads as n × 1000. */
  lemma ParseThousands(n: nat)
    ensures ParseStartingBalance("$" + Digits(n) + "K") == Balance(n as real * 1000.0)
  {
    var d := Digits(n);
    var s := "$" + d + "K";
    assert forall k :: 1 <= k < 1 + |d| ==> s[k] == d[k - 1];
    assert forall k :: 0 <= k < |s| ==> s[k] != 'M' && s[k] != 'm';
    NoUnitLetterNoMatch(s, 0, 'M', 'm');
    RunOfBlock(s, 1, |d|);
    assert SpaceRun(s, 1 + |d|) == 0;
    assert s[1..1 + |d|] == d;
    assert UnitMatchAt(s, 0, 'K', 'k') == Some(d);
    NatOfDigits(n);
  }

  /** The millions form: "<n>M" (no `$`) reads as n × 1000000. */
  lemma ParseMillions(n: nat)
    ensures ParseStartingBalance(Digits(n) + "M") == Balance(n as real * 1000000.0)
  {
    var d := Digits(n);
    var s := d + "M";
    RunOfBlock(s, 0, |d|);
    assert SpaceRun(s, |d|) == 0;
    assert s[0..|d|] == d;
    assert UnitMatchAt(s, 0, 'M', 'm') == Some(d);
    NatOfDigits(n);
  }

  /** The raw form: "$<n>" with n ≥ 1000 (four digits or more) reads as n. */
  lemma ParseRaw(n: nat)
    requires n >= 1000
    ensures ParseStartingBalance("$" + Digits(n) + " ") == Balance(n as real)
  {
    var d := Digits(n);
    var s := "$" + d + " ";
    assert forall k :: 1 <= k < 1 + |d| ==> s[k] == d[k - 1];
    assert forall k :: 0 <= k < |s| ==> s[k] != 'M' && s[k] != 'm' && s[k] != 'K' && s[k] != 'k';
    NoUnitLetterNoMatch(s, 0, 'M', 'm');
    NoUnitLetterNoMatch(s, 0, 'K', 'k');
    DigitsLength(n);
    RunOfBlock(s, 1, |d|);
    assert s[1..1 + |d|] == d;
    assert RawMatchAt(s, 0) == Some(d);
    NatOfDigits(n);
  }

  /** A name with no `$` and no unit letter has no starting balance. */
  lemma ParseNothing(name: string)
    requires forall k :: 0 <= k < |name| ==> name[k] !in {'$', 'M', 'm', 'K', 'k'}
    ensures ParseStartingBalance(name) == NoBalance
  {
    NoUnitLetterNoMatch(name, 0, 'M', 'm');
    NoUnitLetterNoMatch(name, 0, 'K', 'k');
    NoDollarNoRaw(name, 0);
  }

  /** `float` raises on any captured text holding two dots ("1.2.3", "..5"). */
  lemma FloatOfTwoDots(t: string, i: nat, j: nat)
    requires forall k :: 0 <= k < |t| ==> IsNumChar(t[k])
    requires i < j < |t| && t[i] == '.' && t[j] == '.'
    ensures FloatOf(t) == None
  {
    var p := FirstDot(t).value;
    var frac := t[p + 1..];
    if p == i {
      assert frac[j - p - 1] == '.';
    } else {
      assert frac[i - p - 1] == '.';
    }
  }

  lemma FirstDotAt(t: string, p: nat)
    requires p < |t| && t[p] == '.' && forall k :: 0 <= k < p ==> t[k] != '.'
    ensures FirstDot(t) == Some(p)
  {
    var r := FirstDot(t);
    assert r.Some?;
    assert !(r.value < p);
  }

  /** `float` on "<a>.<b>" is a plus b's digits read as a fraction ("7.5" is 7.5). */
  lemma FloatOfDecimal(a: nat, b: nat)
    ensures var t := Digits(a) + "." + Digits(b);
            (forall k :: 0 <= k < |t| ==> IsNumChar(t[k]))
            && FloatOf(t) == Some(a as real + b as real / Pow10(|Digits(b)|) as real)
  {
    var x, y := Digits(a), Digits(b);
    var t := x + "." + y;
    DecimalText(x, y);
    FloatOfAtDot(t, |x|);
    NatOfDigits(a);
    NatOfDigits(b);
    assert DecimalValue(x, y) == a as real + b as real / Pow10(|y|) as real;
  }

  /** "<x>.<y>" for digit strings x and y: its one dot sits right after x. */
  lemma DecimalText(x: string, y: string)
    requires AllDigits(x) && AllDigits(y)
    ensures var t := x + "." + y;
            && (forall k :: 0 <= k < |t| ==> IsNumChar(t[k]))
            && (forall k :: 0 <= k < |x| ==> t[k] != '.')
            && t[|x|] == '.' && t[..|x|] == x && t[|x| + 1..] == y
  {
    var t := x + "." + y;
    forall k | 0 <= k < |t| ensures IsNumChar(t[k]) && (k < |x| ==> t[k] != '.') {
      if k < |x| {
        assert t[k] == x[k];
      } else if k > |x| {
        assert t[k] == y[k - |x| - 1];
      }
    }
    assert t[..|x|] == x;
    assert t[|x| + 1..] == y;
  }

  /** `float` on digits, one dot at `p` and digits after it, not the lone dot: whole part plus fraction. */
  lemma FloatOfAtDot(t: string, p: nat)
    requires forall k :: 0 <= k < |t| ==> IsNumChar(t[k])
    requires p < |t| && t[p] == '.' && forall k :: 0 <= k < p ==> t[k] != '.'
    requires AllDigits(t[p + 1..]) && |t| > 1
    ensures AllDigits(t[..p]) && FloatOf(t) == Some(DecimalValue(t[..p], t[p + 1..]))
  {
    FirstDotAt(t, p);
    assert forall k :: 0 <= k < p ==> t[..p][k] == t[k];
  }

  /** `float(".")` raises too: a dot needs a digit on one side. */
  lemma FloatOfLoneDot()
    ensures FloatOf(".") == None
  {
    assert FirstDot(".") == Some(0);
  }

  /** Reading digits appended to digits: the left part is shifted by the right part's length. */
  lemma {:induction false} NatOfAppend(a: string, b: string)
    requires AllDigits(a) && AllDigits(b)
    ensures AllDigits(a + b)
    ensures NatOf(a + b) == NatOf(a) * Pow10(|b|) + NatOf(b)
    decreases |b|
  {
    assert AllDigits(a + b);
    if b == [] {
      assert a + b == a;
    } else {
      var b' := b[..|b| - 1];
      var last := DigitValue(b[|b| - 1]);
      assert (a + b)[..|a + b| - 1] == a + b';
      assert (a + b)[|a + b| - 1] == b[|b| - 1];
      NatOfAppend(a, b');
      assert NatOf(a + b) == 10 * NatOf(a + b') + last;
      assert NatOf(b) == 10 * NatOf(b') + last;
      assert Pow10(|b|) == 10 * Pow10(|b'|);
      ShiftDigit(NatOf(a), Pow10(|b'|), NatOf(b'), last);
    }
  }

  lemma ShiftDigit(x: int, p: int, y: int, d: int)
    ensures 10 * (x * p + y) + d == x * (10 * p) + (10 * y + d)
  {
  }

  /** Dropping commas distributes over concatenation and leaves digits alone. */
  lemma {:induction false} DropCommasAppend(a: string, b: string)
    ensures DropCommas(a + b) == DropCommas(a) + DropCommas(b)
    decreases |a|
  {
    if a == [] {
      assert a + b == b;
    } else {
      assert (a + b)[1..] == a[1..] + b;
      DropCommasAppend(a[1..], b);
    }
  }

  lemma {:induction false} DropCommasDigits(a: string)
    requires AllDigits(a)
    ensures DropCommas(a) == a
    decreases |a|
  {
    if a != [] {
      DropCommasDigits(a[1..]);
    }
  }

  /** Three digits with leading zeros: the `\d{3}` of one comma group. */
  function Pad3(m: nat): (d: string)
    requires m < 1000
    ensures |d| == 3 && AllDigits(d)
  {
    ['0' + (m / 100) as char, '0' + (m / 10 % 10) as char, '0' + (m % 10) as char]
  }

  lemma NatOfPad3(m: nat)
    requires m < 1000
    ensures NatOf(Pad3(m)) == m
  {
    var d := Pad3(m);
    assert DigitValue(d[0]) == m / 100 && DigitValue(d[1]) == m / 10 % 10 && DigitValue(d[2]) == m % 10;
    assert d[..2][..1] == d[..1];
    assert d[..|d| - 1] == d[..2];
    assert NatOf(d[..1]) == m / 100;
    assert NatOf(d[..2]) == 10 * (m / 100) + m / 10 % 10 == m / 10;
  }

  /** The raw pattern at a `$` followed by one to three digits and one `,ddd` group. */
  lemma CommaRawMatch(d: string, e: string)
    requires 1 <= |d| <= 3 && AllDigits(d) && |e| == 3 && AllDigits(e)
    ensures RawMatchAt("$" + d + "," + e, 0) == Some(d + e)
  {
    var s := "$" + d + "," + e;
    var j := 1 + |d|;
    assert forall k :: 1 <= k < j ==> s[k] == d[k - 1];
    assert s[j] == ',' && s[j + 1] == e[0] && s[j + 2] == e[1] && s[j + 3] == e[2];
    RunOfBlock(s, 1, |d|);
    assert CommaGroups(s, j + 4) == 0;
    assert CommaGroups(s, j) == 1;
    assert s[1..j + 4] == d + "," + e;
    DropCommasGroup(d, e);
  }

  /** Dropping the comma of "<d>,<e>" joins the two digit strings. */
  lemma DropCommasGroup(d: string, e: string)
    requires AllDigits(d) && AllDigits(e)
    ensures DropCommas(d + "," + e) == d + e
  {
    assert d + "," + e == d + ("," + e);
    DropCommasAppend(d, "," + e);
    DropCommasAppend(",", e);
    DropCommasDigits(d);
    DropCommasDigits(e);
    assert DropCommas(",") == [];
  }

  lemma NoLetters(d: string, e: string)
    requires AllDigits(d) && AllDigits(e)
    ensures var s := "$" + d + "," + e;
            forall k :: 0 <= k < |s| ==> s[k] != 'M' && s[k] != 'm' && s[k] != 'K' && s[k] != 'k'
  {
    var s := "$" + d + "," + e;
    forall k | 0 <= k < |s| ensures s[k] == '$' || s[k] == ',' || IsDigit(s[k]) {
      if 1 <= k < 1 + |d| {
        assert s[k] == d[k - 1];
      } else if 2 + |d| <= k {
        assert s[k] == e[k - 2 - |d|];
      }
    }
  }

  /** The comma-grouped raw form: "$<n>,<mmm>" with n < 1000 reads as n × 1000 + m ("$50,000" is 50000). */
  lemma ParseCommaGrouped(n: nat, m: nat)
    requires n < 1000 && m < 1000
    ensures ParseStartingBalance("$" + Digits(n) + "," + Pad3(m)) == Balance((n * 1000 + m) as real)
  {
    var d := Digits(n);
    var e := Pad3(m);
    var s := "$" + d + "," + e;
    DigitsLength(n);
    NoLetters(d, e);
    NoUnitLetterNoMatch(s, 0, 'M', 'm');
    NoUnitLetterNoMatch(s, 0, 'K', 'k');
    CommaRawMatch(d, e);
    assert SearchRawFrom(s, 0) == Some(d + e);
    ParseFallsToRaw(s, d + e);
    NatOfAppend(d, e);
    NatOfDigits(n);
    NatOfPad3(m);
    assert Pow10(|e|) == 1000;
  }

  /** With neither unit form matching, the raw match's digits are the balance. */
  lemma ParseFallsToRaw(name: string, d: string)
    requires name != [] && SearchUnit(name, 'M', 'm').None? && SearchUnit(name, 'K', 'k').None?
    requires SearchRawFrom(name, 0) == Some(d)
    ensures AllDigits(d) && ParseStartingBalance(name) == Balance(NatOf(d) as real)
  {
  }
}
