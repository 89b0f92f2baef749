/**
 * The numbering generator of src/lib/prefix-service.ts: `convertNum` turns an
 * ordinal into a label in one of four counter styles, and `applyCustomPrefix`
 * prefixes every title of an outline tree with its hierarchical label.
 */
module Numbering {
  import opened JsText
  import opened Outline

  /** A style string other than the four tags `convertNum` compares against. */
  type OtherName = s: string | s != "decimal" && s != "roman_upper" && s != "alpha_upper" && s != "chinese_simple"
    witness ""

  /**
   * `CounterStyle`: the four tags of the union type; a stored configuration may carry
   * any other string, which `convertNum` prints as decimal.
   */
  datatype CounterStyle = Decimal | RomanUpper | AlphaUpper | ChineseSimple | OtherStyle(name: OtherName)

  /** The string a configuration stores for a style. */
  function StyleTag(style: CounterStyle): string
  {
    match style
    case Decimal => "decimal"
    case RomanUpper => "roman_upper"
    case AlphaUpper => "alpha_upper"
    case ChineseSimple => "chinese_simple"
    case OtherStyle(name) => name
  }

  /** The `style === '...'` comparisons of `convertNum`: which branch a stored string selects. */
  function ParseStyle(tag: string): (style: CounterStyle)
    ensures StyleTag(style) == tag
  {
    if tag == "decimal" then Decimal
    else if tag == "roman_upper" then RomanUpper
    else if tag == "alpha_upper" then AlphaUpper
    else if tag == "chinese_simple" then ChineseSimple
    else OtherStyle(tag)
  }

  /** Every style is told apart by its stored string: parsing the tag gives the style back. */
  lemma StyleTagRoundTrip(style: CounterStyle)
    ensures ParseStyle(StyleTag(style)) == style
  {
  }

  /** `LevelConfig`: the numbering style of one depth of the outline. */
  datatype LevelConfig = LevelConfig(
    style: CounterStyle,
    prefix: string,
    suffix: string,
    inheritParent: bool,
    separator: string)

  /** `DEFAULT_PREFIX_CONFIG`: "1." at the top level, "1.2" (inheriting the parent path) below it. */
  const DefaultPrefixConfig: seq<LevelConfig> := [
    LevelConfig(Decimal, "", ".", false, "."),
    LevelConfig(Decimal, "", "", true, ".")
  ]

  /** The lookup table of the `roman_upper` branch, largest value first. */
  const RomanTable: seq<(nat, string)> := [(10, "X"), (9, "IX"), (5, "V"), (4, "IV"), (1, "I")]

  /** The ideographs 零 (0) to 十 (10) of the `chinese_simple` branch. */
  const ChineseNumerals: string :=
    "\U{96F6}\U{4E00}\U{4E8C}\U{4E09}\U{56DB}\U{4E94}\U{516D}\U{4E03}\U{516B}\U{4E5D}\U{5341}"

  lemma RomanTableValuesPositive()
    ensures forall i :: 0 <= i < |RomanTable| ==> RomanTable[i].0 >= 1
  {
  }

  /**
   * What the nested loop of the `roman_upper` branch appends once it has reached
   * table entry `i` with `n` still to write: while `n` is at least the entry's
   * value, emit its symbol; then move to the next entry.
   */
  function RomanFrom(n: nat, i: nat): string
    requires i <= |RomanTable|
    decreases |RomanTable| - i, n
  {
    RomanTableValuesPositive();
    if i == |RomanTable| then ""
    else if n >= RomanTable[i].0 then RomanTable[i].1 + RomanFrom(n - RomanTable[i].0, i)
    else RomanFrom(n, i + 1)
  }

  /** The label `convertNum(num, style)` returns. */
  function Numeral(num: nat, style: CounterStyle): string
  {
    match style
    case Decimal => NumberToString(num)
    case AlphaUpper => FromCharCode(64 + num)
    case RomanUpper => RomanFrom(num, 0)
    case ChineseSimple => if num <= 10 then [ChineseNumerals[num]] else NumberToString(num)
    case OtherStyle(_) => NumberToString(num)
  }

  /** One symbol of entry `i` while `n` still reaches its value. */
  lemma RomanTake(n: nat, i: nat)
    requires i < |RomanTable| && n >= RomanTable[i].0
    ensures RomanFrom(n, i) == RomanTable[i].1 + RomanFrom(n - RomanTable[i].0, i)
  {
  }

  /** Once `n` is below the value of entry `i`, the loop moves on to entry `i + 1`. */
  lemma RomanSkip(n: nat, i: nat)
    requires i < |RomanTable| && n < RomanTable[i].0
    ensures RomanFrom(n, i) == RomanFrom(n, i + 1)
  {
  }

  /** The nested loop of the `roman_upper` branch. */
  method RomanLoop(num: nat) returns (roman: string)
    ensures roman == RomanFrom(num, 0)
  {
    RomanTableValuesPositive();
    roman := "";
    var n := num;
    var i := 0;
    while i < |RomanTable|
      invariant 0 <= i <= |RomanTable|
      invariant roman + RomanFrom(n, i) == RomanFrom(num, 0)
    {
      var (val, sym) := RomanTable[i];
      while n >= val
        invariant roman + RomanFrom(n, i) == RomanFrom(num, 0)
      {
        RomanTake(n, i);
        assert roman + RomanFrom(n, i) == (roman + sym) + RomanFrom(n - val, i);
        roman := roman + sym;
        n := n - val;
      }
      RomanSkip(n, i);
      i := i + 1;
    }
  }

  /** `convertNum`: the Roman branch runs the source's nested loop over the lookup table. */
  method ConvertNum(num: nat, style: CounterStyle) returns (s: string)
    ensures s == Numeral(num, style)
  {
    match style {
      case Decimal =>
        s := NumberToString(num);
      case AlphaUpper =>
        s := FromCharCode(64 + num);
      case RomanUpper =>
        s := RomanLoop(num);
      case ChineseSimple =>
        s := if num <= 10 then [ChineseNumerals[num]] else NumberToString(num);
      case OtherStyle(_) =>
        s := NumberToString(num);
    }
  }

  // ---------------------------------------------------------------------------
  // Properties of the labels

  /** Value of one Roman symbol; 0 for anything else. */
  function SymbolValue(c: char): nat {
    if c == 'I' then 1 else if c == 'V' then 5 else if c == 'X' then 10 else 0
  }

  /** The usual reading of a Roman numeral: a symbol smaller than the one after it is subtracted. */
  function RomanValue(s: string): int
    decreases |s|
  {
    if |s| == 0 then 0
    else if |s| >= 2 && SymbolValue(s[0]) < SymbolValue(s[1]) then
      SymbolValue(s[1]) - SymbolValue(s[0]) + RomanValue(s[2..])
    else SymbolValue(s[0]) + RomanValue(s[1..])
  }

  function Ones(m: nat): (s: string)
    ensures |s| == m && forall k :: 0 <= k < m ==> s[k] == 'I'
  {
    if m == 0 then "" else "I" + Ones(m - 1)
  }

  /** Below 4, from the "V" entry on, the loop writes only "I"s. */
  lemma {:induction false} RomanBelowFour(m: nat, i: nat)
    requires 2 <= i <= 4 && m < 4
    ensures RomanFrom(m, i) == Ones(m)
    decreases 4 - i, m
  {
    if i < 4 {
      RomanBelowFour(m, i + 1);
    } else if m > 0 {
      RomanBelowFour(m - 1, i);
    }
  }

  lemma RomanValueOnes(m: nat)
    ensures RomanValue(Ones(m)) == m
  {
    if m > 0 {
      assert Ones(m)[1..] == Ones(m - 1);
    }
  }

  /** A symbol at least as large as what follows it simply adds its value. */
  lemma RomanValueCons(c: char, rest: string)
    requires rest == [] || SymbolValue(c) >= SymbolValue(rest[0])
    ensures RomanValue([c] + rest) == SymbolValue(c) + RomanValue(rest)
  {
    assert ([c] + rest)[1..] == rest;
  }

  /** A two-symbol subtractive pair adds its value whatever follows it. */
  lemma RomanValuePair(pair: string, rest: string)
    requires pair == "IX" || pair == "IV"
    ensures RomanValue(pair + rest) == (if pair == "IX" then 9 else 4) + RomanValue(rest)
  {
    assert (pair + rest)[2..] == rest;
  }

  /**
   * Reading back what the loop writes from entry `i` yields `n`, provided `n` is
   * below the previous entry's value (which the loop guarantees on reaching `i`).
   */
  lemma {:induction false} RomanFromRoundTrip(n: nat, i: nat)
    requires i <= |RomanTable|
    requires 0 < i ==> n < RomanTable[i - 1].0
    ensures RomanValue(RomanFrom(n, i)) == n
    decreases |RomanTable| - i, n
  {
    RomanTableValuesPositive();
    if i == |RomanTable| {
    } else if n >= RomanTable[i].0 {
      var rest := RomanFrom(n - RomanTable[i].0, i);
      RomanFromRoundTrip(n - RomanTable[i].0, i);
      if i == 0 {
        assert rest == [] || SymbolValue('X') >= SymbolValue(rest[0]);
        RomanValueCons('X', rest);
      } else if i == 1 {
        RomanValuePair("IX", rest);
      } else if i == 2 {
        RomanBelowFour(n - 5, 2);
        RomanValueCons('V', rest);
      } else if i == 3 {
        RomanValuePair("IV", rest);
      } else {
        RomanBelowFour(n - 1, 4);
        RomanValueCons('I', rest);
      }
    } else {
      RomanFromRoundTrip(n, i + 1);
    }
  }

  /** The table entries the loop emits from entry `i` on, in the order it emits them. */
  function RomanIndices(n: nat, i: nat): seq<nat>
    requires i <= |RomanTable|
    decreases |RomanTable| - i, n
  {
    RomanTableValuesPositive();
    if i == |RomanTable| then []
    else if n >= RomanTable[i].0 then [i] + RomanIndices(n - RomanTable[i].0, i)
    else RomanIndices(n, i + 1)
  }

  predicate InTable(idx: seq<nat>) {
    forall k :: 0 <= k < |idx| ==> idx[k] < |RomanTable|
  }

  /** The symbols of the entries `idx`, concatenated. */
  function SymbolsOf(idx: seq<nat>): string
    requires InTable(idx)
  {
    if idx == [] then "" else RomanTable[idx[0]].1 + SymbolsOf(idx[1..])
  }

  /** The values of the entries `idx`, added up. */
  function ValuesOf(idx: seq<nat>): nat
    requires InTable(idx)
  {
    if idx == [] then 0 else RomanTable[idx[0]].0 + ValuesOf(idx[1..])
  }

  lemma RomanTableDescending()
    ensures forall a, b :: 0 <= a <= b < |RomanTable| ==> RomanTable[a].0 >= RomanTable[b].0
  {
  }

  /** Entries from `i` on, each at least the one before. */
  predicate Forward(idx: seq<nat>, i: nat)
  {
    && (forall k :: 0 <= k < |idx| ==> i <= idx[k] < |RomanTable|)
    && (forall k :: 0 <= k < |idx| - 1 ==> idx[k] <= idx[k + 1])
  }

  /** The loop only moves forward through the table: the entries it emits from `i` on are in range and never go back. */
  lemma {:induction false} RomanIndicesForward(n: nat, i: nat)
    requires i <= |RomanTable|
    ensures Forward(RomanIndices(n, i), i)
    decreases |RomanTable| - i, n
  {
    RomanTableValuesPositive();
    if i < |RomanTable| {
      var v := RomanTable[i].0;
      if n >= v {
        RomanIndicesForward(n - v, i);
        ForwardCons(RomanIndices(n - v, i), i);
      } else {
        RomanIndicesForward(n, i + 1);
      }
    }
  }

  lemma ForwardCons(rest: seq<nat>, i: nat)
    requires i < |RomanTable| && Forward(rest, i)
    ensures Forward([i] + rest, i)
  {
    var idx := [i] + rest;
    forall k | 0 < k < |idx|
      ensures idx[k] == rest[k - 1]
    {
    }
  }

  /** The emitted entries spell the label and add up to the ordinal. */
  lemma {:induction false} RomanIndicesSpell(n: nat, i: nat)
    requires i <= |RomanTable|
    requires 0 < i ==> n < RomanTable[i - 1].0
    ensures InTable(RomanIndices(n, i))
    ensures RomanFrom(n, i) == SymbolsOf(RomanIndices(n, i)) && ValuesOf(RomanIndices(n, i)) == n
    decreases |RomanTable| - i, n
  {
    RomanTableValuesPositive();
    RomanIndicesForward(n, i);
    if i < |RomanTable| {
      var v := RomanTable[i].0;
      if n >= v {
        RomanIndicesSpell(n - v, i);
        var rest := RomanIndices(n - v, i);
        assert ([i] + rest)[1..] == rest;
      } else {
        RomanIndicesSpell(n, i + 1);
      }
    }
  }

  /**
   * The loop is greedy: from entry `i` on it writes the symbols of a run of
   * table entries whose values never increase and add up to `n`.
   */
  lemma RomanGreedy(n: nat, i: nat)
    requires i <= |RomanTable|
    requires 0 < i ==> n < RomanTable[i - 1].0
    ensures var idx := RomanIndices(n, i);
      && (forall k :: 0 <= k < |idx| ==> i <= idx[k] < |RomanTable|)
      && (forall k :: 0 <= k < |idx| - 1 ==> RomanTable[idx[k]].0 >= RomanTable[idx[k + 1]].0)
      && RomanFrom(n, i) == SymbolsOf(idx)
      && ValuesOf(idx) == n
  {
    RomanIndicesForward(n, i);
    RomanIndicesSpell(n, i);
    RomanTableDescending();
  }

  /** `roman_upper` is faithful to the standard reading: the label reads back as the ordinal. */
  lemma RomanRoundTrip(n: nat)
    ensures RomanValue(Numeral(n, RomanUpper)) == n
  {
    RomanFromRoundTrip(n, 0);
  }

  /** The table has no 50 or 40, so every ten becomes one more "X": 40 is "XXXX". */
  lemma RomanTens(n: nat)
    requires n >= 10
    ensures Numeral(n, RomanUpper) == "X" + Numeral(n - 10, RomanUpper)
  {
  }

  lemma RomanExamples()
    ensures Numeral(4, RomanUpper) == "IV"
    ensures Numeral(9, RomanUpper) == "IX"
    ensures Numeral(14, RomanUpper) == "XIV"
    ensures Numeral(39, RomanUpper) == "XXXIX"
    ensures Numeral(40, RomanUpper) == "XXXX"
  {
    RomanBelowFour(0, 4);
    assert RomanFrom(4, 0) == "IV";
    assert RomanFrom(9, 0) == "IX";
    assert RomanFrom(14, 0) == "X" + RomanFrom(4, 0);
    assert RomanFrom(29, 0) == "X" + RomanFrom(19, 0);
    assert RomanFrom(19, 0) == "X" + RomanFrom(9, 0);
    assert RomanFrom(39, 0) == "X" + RomanFrom(29, 0);
    assert RomanFrom(40, 0) == "X" + RomanFrom(30, 0);
    assert RomanFrom(30, 0) == "X" + RomanFrom(20, 0);
    assert RomanFrom(20, 0) == "X" + RomanFrom(10, 0);
    assert RomanFrom(10, 0) == "X" + RomanFrom(0, 0);
    assert RomanFrom(0, 0) == "";
  }

  /** `alpha_upper` maps 1..26 onto "A".."Z"; past 26 it runs on into "[", "\\", ... */
  lemma AlphaLetters(n: nat)
    requires 1 <= n <= 26
    ensures Numeral(n, AlphaUpper) == [(('A' as int) + n - 1) as char]
  {
  }

  lemma AlphaExamples()
    ensures Numeral(1, AlphaUpper) == "A"
    ensures Numeral(26, AlphaUpper) == "Z"
    ensures Numeral(27, AlphaUpper) == "["
  {
    AlphaLetters(1);
    AlphaLetters(26);
  }

  /** `decimal` and unrecognised styles print the base-10 digits, which read back as the ordinal. */
  lemma DecimalRoundTrip(n: nat, name: OtherName)
    ensures Numeral(n, Decimal) == Numeral(n, OtherStyle(name)) == NumberToString(n)
    ensures DigitsValue(Numeral(n, Decimal)) == n
  {
    NumberToStringRoundTrip(n);
  }

  /** `chinese_simple`: one ideograph up to ten, base-10 digits above. */
  lemma ChineseExamples(n: nat)
    ensures n <= 10 ==> |Numeral(n, ChineseSimple)| == 1 && !IsDigit(Numeral(n, ChineseSimple)[0])
    ensures n > 10 ==> Numeral(n, ChineseSimple) == NumberToString(n)
    ensures Numeral(3, ChineseSimple) == "\U{4E09}" && Numeral(10, ChineseSimple) == "\U{5341}"
  {
  }

  /** Reverse lookup in the ideograph table. */
  function ChineseValue(c: char): int {
    if c == '\U{96F6}' then 0 else if c == '\U{4E00}' then 1 else if c == '\U{4E8C}' then 2
    else if c == '\U{4E09}' then 3 else if c == '\U{56DB}' then 4 else if c == '\U{4E94}' then 5
    else if c == '\U{516D}' then 6 else if c == '\U{4E03}' then 7 else if c == '\U{516B}' then 8
    else if c == '\U{4E5D}' then 9 else if c == '\U{5341}' then 10 else -1
  }

  lemma ChineseRoundTrip(n: nat)
    requires n <= 10
    ensures ChineseValue(Numeral(n, ChineseSimple)[0]) == n
  {
  }

  /**
   * Every style except `alpha_upper` gives different ordinals different labels,
   * so siblings are told apart.
   */
  lemma NumeralInjective(a: nat, b: nat, style: CounterStyle)
    requires !style.AlphaUpper?
    requires Numeral(a, style) == Numeral(b, style)
    ensures a == b
  {
    match style {
      case Decimal => NumberToStringInjective(a, b);
      case OtherStyle(_) => NumberToStringInjective(a, b);
      case RomanUpper => RomanRoundTrip(a); RomanRoundTrip(b);
      case ChineseSimple =>
        if a <= 10 && b <= 10 {
          ChineseRoundTrip(a); ChineseRoundTrip(b);
        } else if a > 10 && b > 10 {
          NumberToStringInjective(a, b);
        }
    }
  }

  // ---------------------------------------------------------------------------
  // applyCustomPrefix

  /** `configs[level] || configs[configs.length - 1]`: the style table saturates at its last entry. */
  function ConfigAt(configs: seq<LevelConfig>, level: nat): (c: LevelConfig)
    requires |configs| > 0
    ensures c in configs
    ensures level < |configs| ==> c == configs[level]
  {
    if level < |configs| then configs[level] else configs[|configs| - 1]
  }

  /** Every depth from the last entry on uses the last entry. */
  lemma ConfigAtSaturates(configs: seq<LevelConfig>, level: nat)
    requires |configs| > 0 && level >= |configs| - 1
    ensures ConfigAt(configs, level) == configs[|configs| - 1]
  {
  }

  /**
   * The core label of the `num`-th sibling under the ordinal path `parentPath`:
   * with `inheritParent` and a parent, the raw decimal parent ordinals joined by
   * the separator, the separator, then the styled own ordinal.
   */
  function CoreNumber(config: LevelConfig, parentPath: seq<nat>, num: nat): string
  {
    if config.inheritParent && |parentPath| > 0 then
      JoinNumbers(parentPath, config.separator) + config.separator + Numeral(num, config.style)
    else Numeral(num, config.style)
  }

  /** `applyCustomPrefix(items, configs, parentPath, level)`. */
  function ApplyCustomPrefix(items: seq<TocItem>, configs: seq<LevelConfig>,
                             parentPath: seq<nat> := [], level: nat := 0): (r: seq<TocItem>)
    requires |items| > 0 ==> |configs| > 0
    ensures |r| == |items|
    ensures forall i :: 0 <= i < |r| ==>
              && r[i].id == items[i].id && r[i].to == items[i].to && r[i].open == items[i].open
              && |r[i].children| == |items[i].children|
    decreases items
  {
    seq(|items|, i requires 0 <= i < |items| => PrefixItem(items[i], i, configs, parentPath, level))
  }

  /** `finalPrefix`: the level's prefix, the core label and the level's suffix. */
  function FinalPrefix(config: LevelConfig, parentPath: seq<nat>, currentNum: nat): string
  {
    config.prefix + CoreNumber(config, parentPath, currentNum) + config.suffix
  }

  /** The callback of `items.map`: the item with a prefixed title and numbered children. */
  function PrefixItem(item: TocItem, index: nat, configs: seq<LevelConfig>,
                      parentPath: seq<nat>, level: nat): TocItem
    requires |configs| > 0
    decreases item
  {
    var config := ConfigAt(configs, level);
    var currentNum := index + 1;
    var finalPrefix := FinalPrefix(config, parentPath, currentNum);
    item.(title := finalPrefix + " " + item.title,
          children := ApplyCustomPrefix(item.children, configs, parentPath + [currentNum], level + 1))
  }

  /** Two forests with the same shape: same lengths and, item by item, the same id, target, open flag and child shape. */
  predicate SameShape(a: seq<TocItem>, b: seq<TocItem>)
    decreases a
  {
    && |a| == |b|
    && forall i :: 0 <= i < |a| ==>
         && a[i].id == b[i].id && a[i].to == b[i].to && a[i].open == b[i].open
         && SameShape(a[i].children, b[i].children)
  }

  /** Numbering changes titles only: the tree keeps its shape and every other field. */
  lemma {:induction false} PrefixKeepsShape(items: seq<TocItem>, configs: seq<LevelConfig>,
                                            parentPath: seq<nat>, level: nat)
    requires |configs| > 0
    ensures SameShape(ApplyCustomPrefix(items, configs, parentPath, level), items)
    decreases items
  {
    var r := ApplyCustomPrefix(items, configs, parentPath, level);
    forall i | 0 <= i < |items|
      ensures SameShape(r[i].children, items[i].children)
    {
      assert r[i] == PrefixItem(items[i], i, configs, parentPath, level);
      PrefixKeepsShape(items[i].children, configs, parentPath + [i + 1], level + 1);
    }
  }

  /** A 0-based index path leads to an item of the forest. */
  predicate ValidPath(items: seq<TocItem>, path: seq<nat>)
    decreases path
  {
    |path| > 0 && path[0] < |items| && (|path| > 1 ==> ValidPath(items[path[0]].children, path[1..]))
  }

  function At(items: seq<TocItem>, path: seq<nat>): TocItem
    requires ValidPath(items, path)
    decreases path
  {
    if |path| == 1 then items[path[0]] else At(items[path[0]].children, path[1..])
  }

  /** The 1-based ordinals of a 0-based index path. */
  function Ordinals(path: seq<nat>): (r: seq<nat>)
    ensures |r| == |path| && forall k :: 0 <= k < |path| ==> r[k] == path[k] + 1
  {
    seq(|path|, k requires 0 <= k < |path| => path[k] + 1)
  }

  /**
   * The title of the item reached by `path` after numbering: the style of its
   * depth (saturated), the core label built from the ordinals of its ancestors
   * and its own ordinal, the suffix, a space and the original title.
   */
  predicate NumberedAt(items: seq<TocItem>, configs: seq<LevelConfig>, parentPath: seq<nat>, level: nat, path: seq<nat>)
    requires |configs| > 0 && ValidPath(items, path)
  {
    var r := ApplyCustomPrefix(items, configs, parentPath, level);
    var config := ConfigAt(configs, level + |path| - 1);
    && ValidPath(r, path)
    && At(r, path).title
       == FinalPrefix(config, parentPath + Ordinals(path[..|path| - 1]), path[|path| - 1] + 1) + " " + At(items, path).title
  }

  /** Every item of the forest is numbered as `NumberedAt` describes. */
  lemma {:induction false} PrefixedTitleAt(items: seq<TocItem>, configs: seq<LevelConfig>,
                                           parentPath: seq<nat>, level: nat, path: seq<nat>)
    requires |configs| > 0 && ValidPath(items, path)
    ensures NumberedAt(items, configs, parentPath, level, path)
    decreases path
  {
    var i := path[0];
    if |path| == 1 {
      var r := ApplyCustomPrefix(items, configs, parentPath, level);
      PrefixedChild(items, configs, parentPath, level, i);
      assert parentPath + Ordinals(path[..0]) == parentPath;
      assert At(r, path) == r[i];
    } else {
      PrefixedTitleAt(items[i].children, configs, parentPath + [i + 1], level + 1, path[1..]);
      PrefixedTitleStep(items, configs, parentPath, level, path);
    }
  }

  /** A path of length two or more is numbered as its tail is in the first item's children. */
  lemma PrefixedTitleStep(items: seq<TocItem>, configs: seq<LevelConfig>,
                          parentPath: seq<nat>, level: nat, path: seq<nat>)
    requires |configs| > 0 && ValidPath(items, path) && |path| > 1
    requires NumberedAt(items[path[0]].children, configs, parentPath + [path[0] + 1], level + 1, path[1..])
    ensures NumberedAt(items, configs, parentPath, level, path)
  {
    var r := ApplyCustomPrefix(items, configs, parentPath, level);
    var i := path[0];
    var path' := path[1..];
    var kids := ApplyCustomPrefix(items[i].children, configs, parentPath + [i + 1], level + 1);
    PrefixedChild(items, configs, parentPath, level, i);
    AncestorLabel(configs, parentPath, level, path);
    assert At(r, path) == At(kids, path');
    assert At(items, path) == At(items[i].children, path');
  }

  /** The `i`-th item after numbering: its prefixed title, and its children numbered one level down under ordinal `i + 1`. */
  lemma PrefixedChild(items: seq<TocItem>, configs: seq<LevelConfig>, parentPath: seq<nat>, level: nat, i: nat)
    requires |configs| > 0 && i < |items|
    ensures var r := ApplyCustomPrefix(items, configs, parentPath, level);
      var config := ConfigAt(configs, level);
      && r[i].title == FinalPrefix(config, parentPath, i + 1) + " " + items[i].title
      && r[i].children == ApplyCustomPrefix(items[i].children, configs, parentPath + [i + 1], level + 1)
  {
    assert ApplyCustomPrefix(items, configs, parentPath, level)[i] == PrefixItem(items[i], i, configs, parentPath, level);
  }

  /** The label the children's numbering gives at `path[1..]` is the one `NumberedAt` asks for at `path`. */
  lemma AncestorLabel(configs: seq<LevelConfig>, parentPath: seq<nat>, level: nat, path: seq<nat>)
    requires |configs| > 0 && |path| > 1
    ensures var path' := path[1..];
      FinalPrefix(ConfigAt(configs, level + 1 + |path'| - 1), parentPath + [path[0] + 1] + Ordinals(path'[..|path'| - 1]), path'[|path'| - 1] + 1)
      == FinalPrefix(ConfigAt(configs, level + |path| - 1), parentPath + Ordinals(path[..|path| - 1]), path[|path| - 1] + 1)
  {
    OrdinalsCons(path, parentPath);
    assert level + 1 + |path[1..]| - 1 == level + |path| - 1;
  }

  lemma OrdinalsCons(path: seq<nat>, parentPath: seq<nat>)
    requires |path| > 1
    ensures parentPath + [path[0] + 1] + Ordinals(path[1..][..|path[1..]| - 1])
            == parentPath + Ordinals(path[..|path| - 1])
  {
    assert path[1..][..|path[1..]| - 1] == path[..|path| - 1][1..];
  }

  /**
   * With the default table, the third child of the second top-level item is
   * labelled "2.3", and the top-level items "1.", "2.", ...
   */
  lemma DefaultNumbering(items: seq<TocItem>)
    requires |items| >= 2 && |items[1].children| >= 3
    ensures ApplyCustomPrefix(items, DefaultPrefixConfig)[1].title == "2. " + items[1].title
    ensures ApplyCustomPrefix(items, DefaultPrefixConfig)[1].children[2].title
            == "2.3 " + items[1].children[2].title
  {
    var r := ApplyCustomPrefix(items, DefaultPrefixConfig);
    assert r[1] == PrefixItem(items[1], 1, DefaultPrefixConfig, [], 0);
    var kids := ApplyCustomPrefix(items[1].children, DefaultPrefixConfig, [2], 1);
    assert [] + [1 + 1] == [2];
    assert r[1].children == kids;
    assert kids[2] == PrefixItem(items[1].children[2], 2, DefaultPrefixConfig, [2], 1);
    JoinNumbersSingle(2, ".");
    assert JoinNumbers([2], ".") == "2";
  }

  /** Inheritance chains the raw parent ordinals whatever the style of the level: "2.III" under Roman numerals. */
  lemma InheritedPathIgnoresStyle(items: seq<TocItem>, top: LevelConfig)
    requires |items| >= 2 && |items[1].children| >= 3
    ensures var configs := [top, LevelConfig(RomanUpper, "", "", true, ".")];
            ApplyCustomPrefix(items, configs)[1].children[2].title
            == "2.III " + items[1].children[2].title
  {
    var configs := [top, LevelConfig(RomanUpper, "", "", true, ".")];
    var r := ApplyCustomPrefix(items, configs);
    assert r[1] == PrefixItem(items[1], 1, configs, [], 0);
    var kids := ApplyCustomPrefix(items[1].children, configs, [2], 1);
    assert [] + [1 + 1] == [2];
    assert r[1].children == kids;
    assert kids[2] == PrefixItem(items[1].children[2], 2, configs, [2], 1);
    JoinNumbersSingle(2, ".");
    assert RomanFrom(3, 0) == "III" by { RomanBelowFour(3, 2); }
  }

  /** Siblings get different core labels under every style except `alpha_upper`. */
  lemma SiblingNumbersDistinct(config: LevelConfig, parentPath: seq<nat>, a: nat, b: nat)
    requires !config.style.AlphaUpper? && a != b
    ensures CoreNumber(config, parentPath, a) != CoreNumber(config, parentPath, b)
  {
    if CoreNumber(config, parentPath, a) == CoreNumber(config, parentPath, b) {
      if config.inheritParent && |parentPath| > 0 {
        var head := JoinNumbers(parentPath, config.separator) + config.separator;
        assert CoreNumber(config, parentPath, a)[|head|..] == Numeral(a, config.style);
        assert CoreNumber(config, parentPath, b)[|head|..] == Numeral(b, config.style);
      }
      NumeralInjective(a, b, config.style);
    }
  }
}
