/**
 * The documented scenarios of ListPhrase, worked through the model: the patterns
 * `{a} and {b}`, `{a}, {b}` and `{a}, and {b}`, lists of strings, nulls and numbers, a
 * formatter, a non-list iterable, and patterns with the wrong placeholders.
 */
module ListPhraseExamples {
  import opened Wrappers
  import opened Templates
  import opened ListPhrases
  import opened ListPhraseProperties

  /** The test patterns: `{a} and {b}`, `{a}, {b}`, `{a}, and {b}`. */
  function TestPhrase(): (lp: ListPhrase)
    ensures lp.Valid()
  {
    ListPhrase(SeparatorPattern(" and "), SeparatorPattern(", "), SeparatorPattern(", and "))
  }

  /** `String.toString()`: a string is its own text. */
  function StringText(s: string): string {
    s
  }

  /** The decimal digits of `n`, as `Integer.toString()` writes a non-negative number. */
  function Decimal(n: nat): string
  {
    if n < 10 then ["0123456789"[n]] else Decimal(n / 10) + ["0123456789"[n % 10]]
  }

  /** The test's formatter, `String.format("0x%d", item)`, which writes a null as `null`. */
  function HexPrefixed(item: Option<nat>): string {
    match item
    case Some(n) => "0x" + Decimal(n)
    case None => "0xnull"
  }

  /** The texts of the numbers 1, 2 and 3, by `toString()` and by the test's formatter. */
  lemma SmallNumberTexts()
    ensures Decimal(1) == "1" && Decimal(2) == "2" && Decimal(3) == "3"
    ensures HexPrefixed(Some(1)) == "0x1" && HexPrefixed(Some(2)) == "0x2" && HexPrefixed(Some(3)) == "0x3"
  {
  }

  /** The test patterns are accepted, in the order the slots are given. */
  lemma TestPatternsAccepted()
    ensures From(SeparatorPattern(" and "), SeparatorPattern(", "), SeparatorPattern(", and ")) == Success(TestPhrase())
  {
  }

  /** A pattern with other keys than `{a}` and `{b}` is rejected, naming the first slot it fills. */
  lemma OtherKeysRejected()
    ensures FromSingle([Key("one"), Key("two")]) == Failure("two-element" + InvalidPatternMessage)
  {
    var twoKeys := [Key("one"), Key("two")];
    assert twoKeys[1..] == [Key("two")] && twoKeys[1..][1..] == [];
    assert Keys(twoKeys) == {"one", "two"};
    assert !IsListPattern(twoKeys);
  }

  /** A pattern with `{a}` alone is rejected; in the non-final slot, the error names that slot. */
  lemma MissingKeyRejected()
    ensures FromSingle([Key("a")]) == Failure("two-element" + InvalidPatternMessage)
    ensures From(SeparatorPattern(" and "), [Key("a")], SeparatorPattern(", and "))
         == Failure("non-final" + InvalidPatternMessage)
  {
    assert [Key("a")][1..] == [];
    assert Keys([Key("a")]) == {"a"};
    assert !IsListPattern([Key("a")]);
  }

  /** The test patterns on two items: the two-element pattern between their texts. */
  lemma TestPhraseTwo<T>(x: Option<T>, y: Option<T>, formatter: Option<Formatter<T>>, show: T -> string)
    ensures FormatTexts(TestPhrase(), Texts([x, y], formatter, show))
         == FormatIfNotNull(x, formatter, show) + " and " + FormatIfNotNull(y, formatter, show)
  {
    assert Texts([x, y], formatter, show) == [FormatIfNotNull(x, formatter, show), FormatIfNotNull(y, formatter, show)];
  }

  /** The test patterns on three items: one non-final join, then the final join. */
  lemma TestPhraseThree<T>(x: Option<T>, y: Option<T>, z: Option<T>, formatter: Option<Formatter<T>>, show: T -> string)
    ensures FormatTexts(TestPhrase(), Texts([x, y, z], formatter, show))
         == FormatIfNotNull(x, formatter, show) + ", " + FormatIfNotNull(y, formatter, show) + ", and "
            + FormatIfNotNull(z, formatter, show)
  {
    var tx, ty, tz := FormatIfNotNull(x, formatter, show), FormatIfNotNull(y, formatter, show),
                      FormatIfNotNull(z, formatter, show);
    assert Texts([x, y, z], formatter, show) == [tx, ty, tz];
    FormatTriple(TestPhrase(), tx, ty, tz);
  }

  /** The test patterns on four items: two non-final joins, then the final join. */
  lemma TestPhraseFour<T>(x: Option<T>, y: Option<T>, z: Option<T>, w: Option<T>, formatter: Option<Formatter<T>>,
                          show: T -> string)
    ensures FormatTexts(TestPhrase(), Texts([x, y, z, w], formatter, show))
         == FormatIfNotNull(x, formatter, show) + ", " + FormatIfNotNull(y, formatter, show) + ", "
            + FormatIfNotNull(z, formatter, show) + ", and " + FormatIfNotNull(w, formatter, show)
  {
    var lp := TestPhrase();
    var tx, ty, tz, tw := FormatIfNotNull(x, formatter, show), FormatIfNotNull(y, formatter, show),
                          FormatIfNotNull(z, formatter, show), FormatIfNotNull(w, formatter, show);
    assert Texts([x, y, z, w], formatter, show) == [tx, ty, tz, tw];
    assert [tx, ty, tz, tw][1..] == [ty, tz, tw] && [ty, tz, tw][1..] == [tz, tw] && [tz, tw][1..] == [tw];
    var xy := Join(lp.nonFinalElement, tx, ty);
    var xyz := Join(lp.nonFinalElement, xy, tz);
    assert FoldFrom(lp, tx, [ty, tz, tw]) == FoldFrom(lp, xy, [tz, tw]);
    assert FoldFrom(lp, xy, [tz, tw]) == FoldFrom(lp, xyz, [tw]);
  }

  /** The pattern `{a}, {b}` in every slot, as the single-pattern factory builds it. */
  function CommaPhrase(): (lp: ListPhrase)
    ensures lp.Valid()
    ensures FromSingle(SeparatorPattern(", ")) == Success(lp)
  {
    ListPhrase(SeparatorPattern(", "), SeparatorPattern(", "), SeparatorPattern(", "))
  }

  /** With `{a}, {b}` in every slot, two items are separated by a comma. */
  lemma CommaPhraseTwo<T>(x: Option<T>, y: Option<T>, formatter: Option<Formatter<T>>, show: T -> string)
    ensures FormatTexts(CommaPhrase(), Texts([x, y], formatter, show))
         == FormatIfNotNull(x, formatter, show) + ", " + FormatIfNotNull(y, formatter, show)
  {
    assert Texts([x, y], formatter, show) == [FormatIfNotNull(x, formatter, show), FormatIfNotNull(y, formatter, show)];
  }

  /** With `{a}, {b}` in every slot, three items are separated by commas alike. */
  lemma CommaPhraseThree<T>(x: Option<T>, y: Option<T>, z: Option<T>, formatter: Option<Formatter<T>>,
                            show: T -> string)
    ensures FormatTexts(CommaPhrase(), Texts([x, y, z], formatter, show))
         == FormatIfNotNull(x, formatter, show) + ", " + FormatIfNotNull(y, formatter, show) + ", "
            + FormatIfNotNull(z, formatter, show)
  {
    var tx, ty, tz := FormatIfNotNull(x, formatter, show), FormatIfNotNull(y, formatter, show),
                      FormatIfNotNull(z, formatter, show);
    assert Texts([x, y, z], formatter, show) == [tx, ty, tz];
    FormatTriple(CommaPhrase(), tx, ty, tz);
  }

  /** The expected strings of the examples, spelled as the joins put them together. */
  lemma Spellings()
    ensures "one" + " and " + "two" == "one and two"
    ensures "one" + ", " + "two" + ", and " + "three" == "one, two, and three"
    ensures "one" + ", " + "two" + ", " + "three" + ", and " + "four" == "one, two, three, and four"
    ensures "" + " and " + "" == " and "
    ensures "" + ", " + "" + ", and " + "" == ", , and "
    ensures "1" + ", " + "2" + ", and " + "3" == "1, 2, and 3"
    ensures "0x1" + ", " + "0x2" + ", and " + "0x3" == "0x1, 0x2, and 0x3"
    ensures "one" + ", " + "two" == "one, two"
    ensures "one" + ", " + "two" + ", " + "three" == "one, two, three"
  {
  }

  /** `format("one", "two")`: the two-element pattern. */
  lemma TwoStringsExample()
    ensures FormatTexts(TestPhrase(), Texts([Some("one"), Some("two")], None, StringText)) == "one and two"
  {
    TestPhraseTwo(Some("one"), Some("two"), None, StringText);
    Spellings();
  }

  /** `format("one", "two", "three")`: a non-final join, then the final join. */
  lemma ThreeStringsExample()
    ensures FormatTexts(TestPhrase(), Texts([Some("one"), Some("two"), Some("three")], None, StringText))
         == "one, two, and three"
  {
    TestPhraseThree(Some("one"), Some("two"), Some("three"), None, StringText);
    Spellings();
  }

  /** `format("one", "two", "three", "four")`: two non-final joins, then the final join. */
  lemma FourStringsExample()
    ensures FormatTexts(TestPhrase(), Texts([Some("one"), Some("two"), Some("three"), Some("four")], None, StringText))
         == "one, two, three, and four"
  {
    TestPhraseFour(Some("one"), Some("two"), Some("three"), Some("four"), None, StringText);
    Spellings();
  }

  /** Two nulls without a formatter: two empty texts around the two-element separator. */
  lemma TwoNullsExample()
    ensures FormatTexts(TestPhrase(), Texts<string>([None, None], None, StringText)) == " and "
  {
    TestPhraseTwo<string>(None, None, None, StringText);
    Spellings();
  }

  /** Three nulls without a formatter: empty texts, joined by both separators. */
  lemma ThreeNullsExample()
    ensures FormatTexts(TestPhrase(), Texts<string>([None, None, None], None, StringText)) == ", , and "
  {
    TestPhraseThree<string>(None, None, None, None, StringText);
    Spellings();
  }

  /** The numbers 1, 2 and 3 without a formatter: their `toString()`. */
  lemma ToStringExample()
    ensures FormatTexts(TestPhrase(), Texts<nat>([Some(1), Some(2), Some(3)], None, Decimal)) == "1, 2, and 3"
  {
    TestPhraseThree<nat>(Some(1), Some(2), Some(3), None, Decimal);
    SmallNumberTexts();
    Spellings();
  }

  /** The numbers 1, 2 and 3 with the test's formatter, which alone decides their texts. */
  lemma FormatterExample()
    ensures FormatTexts(TestPhrase(), Texts<nat>([Some(1), Some(2), Some(3)], Some(HexPrefixed), Decimal))
         == "0x1, 0x2, and 0x3"
  {
    TestPhraseThree<nat>(Some(1), Some(2), Some(3), Some(HexPrefixed), Decimal);
    SmallNumberTexts();
    Spellings();
  }

  /** `format("one", "two")` with `{a}, {b}` in every slot. */
  lemma CommaTwoExample()
    ensures FormatTexts(CommaPhrase(), Texts([Some("one"), Some("two")], None, StringText)) == "one, two"
  {
    CommaPhraseTwo(Some("one"), Some("two"), None, StringText);
    Spellings();
  }

  /** `format("one", "two", "three")` with `{a}, {b}` in every slot. */
  lemma CommaThreeExample()
    ensures FormatTexts(CommaPhrase(), Texts([Some("one"), Some("two"), Some("three")], None, StringText))
         == "one, two, three"
  {
    CommaPhraseThree(Some("one"), Some("two"), Some("three"), None, StringText);
    Spellings();
  }

  /** `format()`, `format("one")` and `format("one", "two")` through the formatting methods. */
  method ShortStringLists() returns (zero: string, one: string, two: string)
    ensures zero == "" && one == "one" && two == "one and two"
  {
    var lp := TestPhrase();
    zero := FormatIterable(lp, List([]), StringText);
    one := FormatItems(lp, [Some("one")], StringText);
    two := FormatItems(lp, [Some("one"), Some("two")], StringText);
    TwoStringsExample();
  }

  /** `format("one", "two", "three")` through the formatting methods. */
  method ThreeStrings() returns (result: string)
    ensures result == "one, two, and three"
  {
    result := FormatItems(TestPhrase(), [Some("one"), Some("two"), Some("three")], StringText);
    ThreeStringsExample();
  }

  /** `format("one", "two", "three", "four")` through the formatting methods. */
  method FourStrings() returns (result: string)
    ensures result == "one, two, three, and four"
  {
    result := FormatItems(TestPhrase(), [Some("one"), Some("two"), Some("three"), Some("four")], StringText);
    FourStringsExample();
  }

  /** Null items without a formatter are empty texts; the patterns still apply. */
  method NullItems() returns (one: string, two: string, three: string)
    ensures one == "" && two == " and " && three == ", , and "
  {
    var lp := TestPhrase();
    one := FormatItems<string>(lp, [None], StringText);
    two := FormatIterable<string>(lp, List([None, None]), StringText);
    three := FormatIterable<string>(lp, List([None, None, None]), StringText);
    TwoNullsExample();
    ThreeNullsExample();
  }

  /** Numbers by `toString()` without a formatter, and by the test's formatter when it is given. */
  method NumberItems() returns (plain: string, formatted: string)
    ensures plain == "1, 2, and 3"
    ensures formatted == "0x1, 0x2, and 0x3"
  {
    var items: seq<Option<nat>> := [Some(1), Some(2), Some(3)];
    plain := FormatItems(TestPhrase(), items, Decimal);
    formatted := FormatIterableWith(TestPhrase(), List(items), Some(HexPrefixed), Decimal);
    ToStringExample();
    FormatterExample();
  }

  /** An iterable that is not a list, such as a one-element set, is formatted in its iteration order. */
  method NonListIterable() returns (result: string)
    ensures result == "item"
  {
    result := FormatIterable(TestPhrase(), Collection([Some("item")]), StringText);
  }

  /** The same pattern `{a}, {b}` in every slot, from the single-pattern factory, separates neighbours alike. */
  method CommaInEverySlot() returns (one: string, two: string, three: string)
    ensures one == "one" && two == "one, two" && three == "one, two, three"
  {
    var made := FromSingle(SeparatorPattern(", "));
    var lp := made.value;
    one := FormatItems(lp, [Some("one")], StringText);
    two := FormatItems(lp, [Some("one"), Some("two")], StringText);
    three := FormatItems(lp, [Some("one"), Some("two"), Some("three")], StringText);
    CommaTwoExample();
    CommaThreeExample();
  }
}
