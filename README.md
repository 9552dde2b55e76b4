# ListPhrase, modelled in Dafny

`ListPhrase` (package `com.squareup.phrase`) formats a list of items as one piece of text. The
size of the list decides the result:

- no items give the empty string;
- one item gives that item's text;
- two items are joined by the two-element pattern;
- three or more items are folded from the left: every join but the last uses the non-final
  pattern, and the last join uses the final pattern.

Each pattern is a `Phrase` template with exactly the placeholders `{a}` and `{b}`. A join binds
`a` to the text so far and `b` to the next item's text, then renders the template. The three
patterns are validated once, when the phrase is built: each is probed by binding `a` and `b` to
the empty string and rendering it. A failed probe is reported with the slot's name
(`two-element`, `non-final` or `final`).

An item's text comes from the caller's formatter when one is given, and the formatter also gets
null items. Without a formatter, a null item is the empty string and any other item is its
`toString()`. Any iterable is accepted: a `List` is used as it is, and anything else is first
copied into a list in its iteration order.

The project has five modules:

- `Wrappers` (wrappers.dfy): `Option` and `Result`.
- `Templates` (templates.dfy): a small stand-in for the `Phrase` template engine. `Phrase.java`
  is not part of this model.
  - A compiled pattern is a sequence of literal text and `{name}` keys.
  - `Render` succeeds exactly when the bound keys are the pattern's keys, and then substitutes
    each key's value. That is the only part of `Phrase` that `ListPhrase` relies on.
- `ListPhrases` (list_phrase.dfy): the core itself.
  - Pattern validation, the factories and the private constructor.
  - Stringification.
  - The size-dependent specification of formatting (`FormatTexts`, with the fold `FoldFrom`).
  - The imperative fold loop (`FormatList`), proved against that specification.
  - Normalising an iterable into a list (`AsList`), and the three `format` overloads.
- `ListPhraseProperties` (list_phrase_properties.dfy): lemmas on the specification.
  - The result for each list size, and the shape of the fold.
  - The stringification policy.
  - Closed forms for patterns of the form `{a}<separator>{b}`.
- `ListPhraseExamples` (list_phrase_examples.dfy): the scenarios of the class's doc comment and
  of `ListPhraseTest`, stated over the model.

How Java constructs map onto the model:

- A nullable item is an `Option<T>`.
- An item's `toString()` is a parameter `show: T -> string`.
- A formatter is an optional function on `Option<T>`.
- A thrown `IllegalArgumentException` is a `Failure` carrying its message.
- An `Iterable` is the sequence of elements it yields, tagged `List` or `Collection`.

## Model

| member | source | states |
|---|---|---|
| Templates.KeysOccur | src/main/java/com/squareup/phrase/ListPhrase.java:225-226 | the keys of a pattern are exactly the names of the placeholders that occur in it |
| ListPhrases.JoinRenders | src/main/java/com/squareup/phrase/ListPhrase.java:263-266 | binding `a` and `b` in a valid list pattern and rendering never fails, and gives the join used by the fold |
| ListPhrases.ValidateListPattern | src/main/java/com/squareup/phrase/ListPhrase.java:230-239 | the probe succeeds exactly when the pattern's keys are `{a, b}`, and then returns the pattern unchanged; otherwise the error is `<name> list pattern should only contain keys {a} and {b}` |
| ListPhrases.From | src/main/java/com/squareup/phrase/ListPhrase.java:191-210 | construction succeeds exactly when all three patterns are list patterns, and keeps them in their slots; otherwise it fails with the message for the first invalid slot, in the order two-element, non-final, final |
| ListPhrases.FromSingle | src/main/java/com/squareup/phrase/ListPhrase.java:165-167 | the single-pattern factory puts the same pattern in all three slots; an invalid pattern is reported as the two-element slot |
| ListPhrases.FormatIfNotNull | src/main/java/com/squareup/phrase/ListPhrase.java:288-294 | the text of one item, chosen as the source does: the formatter if one is given, otherwise `""` for null and `toString()` for anything else; what it promises is stated by `FormatSingle` (a single item's result), `FormatterAloneDecides` (a formatter decides alone, null items included) and `NoFormatterIsDefault` (without a formatter, each text is `""` for a null item and `toString()` otherwise) |
| ListPhrases.Texts | src/main/java/com/squareup/phrase/ListPhrase.java:246-265 | the texts the fold consumes, one per item, in list order, each being `formatIfNotNull` of that item, as at the calls on lines 246, 249-250, 254 and 265 |
| ListPhrases.AsList | src/main/java/com/squareup/phrase/ListPhrase.java:273-286 | a list is used as it is; any other iterable is copied element by element, and the copy holds its elements in iteration order |
| ListPhrases.FormatList | src/main/java/com/squareup/phrase/ListPhrase.java:241-271 | the loop computes the size-dependent result of the texts. The ghost trace of rendered patterns shows no render for 0 or 1 items, and one render of the two-element pattern for 2. For n ≥ 3 there are exactly n−1 renders: every one renders the non-final pattern except the last, which renders the final pattern |
| ListPhrases.FormatItems | src/main/java/com/squareup/phrase/ListPhrase.java:212-214 | formatting varargs items is formatting them as a list without a formatter |
| ListPhrases.FormatIterable | src/main/java/com/squareup/phrase/ListPhrase.java:216-218 | formatting an iterable without a formatter is the size-dependent result of its texts in iteration order |
| ListPhrases.FormatIterableWith | src/main/java/com/squareup/phrase/ListPhrase.java:220-222 | formatting an iterable with a formatter is the size-dependent result of the formatter's texts, in iteration order |
| ListPhraseProperties.FormatEmpty | src/main/java/com/squareup/phrase/ListPhrase.java:243-244 | an empty list formats to the empty string, whatever the patterns |
| ListPhraseProperties.FormatSingle | src/main/java/com/squareup/phrase/ListPhrase.java:245-246 | one item formats to its own text: the formatter's text if there is a formatter; otherwise `""` for null and `toString()` for anything else |
| ListPhraseProperties.FormatPair | src/main/java/com/squareup/phrase/ListPhrase.java:247-251 | two items format to the two-element pattern rendered with `a` and `b` bound to their texts |
| ListPhraseProperties.FormatTriple | src/main/java/com/squareup/phrase/ListPhrase.java:252-269 | three texts give the final pattern joining (the non-final join of the first two) with the third |
| ListPhraseProperties.FoldFromLastJoin | src/main/java/com/squareup/phrase/ListPhrase.java:258-268 | the fold is a plain left fold with the non-final pattern over all but the last element, followed by one join with the final pattern |
| ListPhraseProperties.FormatLongList | src/main/java/com/squareup/phrase/ListPhrase.java:252-269 | for n ≥ 3, the result starts from the first text, folds in the second to second-to-last texts with the non-final pattern, and joins the last text with the final pattern |
| ListPhraseProperties.FormatterAloneDecides | src/main/java/com/squareup/phrase/ListPhrase.java:292-293 | with a formatter every text, null items included, is the formatter's; `toString()` plays no part |
| ListPhraseProperties.NoFormatterIsDefault | src/main/java/com/squareup/phrase/ListPhrase.java:289-290 | without a formatter, the text of every null item is `""` and the text of every other item is its `toString()` |
| ListPhraseProperties.SeparatorPattern | src/main/java/com/squareup/phrase/ListPhrase.java:29-36 | `{a}<sep>{b}` is a valid list pattern, and joining with it puts `sep` between the two texts |
| ListPhraseProperties.FormatWithSeparators | src/main/java/com/squareup/phrase/ListPhrase.java:29-36 | with three separator patterns, two texts are joined by the two-element separator. Three or more are the first text, then each middle text after the non-final separator, then the last text after the final separator |
| ListPhraseProperties.UniformSeparator | src/main/java/com/squareup/phrase/ListPhrase.java:49-57 | with one separator pattern in every slot, the empty list gives `""` and every non-empty list gives its texts joined by that separator |
| ListPhraseExamples.TestPhrase | src/test/java/com/squareup/phrase/ListPhraseTest.java:34-36 | the test's patterns `{a} and {b}`, `{a}, {b}` and `{a}, and {b}` make a valid phrase |
| ListPhraseExamples.SmallNumberTexts | src/test/java/com/squareup/phrase/ListPhraseTest.java:87-92 | `toString()` writes 1, 2 and 3 as `1`, `2` and `3`, and the test's formatter as `0x1`, `0x2` and `0x3` |
| ListPhraseExamples.TestPatternsAccepted | src/test/java/com/squareup/phrase/ListPhraseTest.java:42-44 | the three test patterns are accepted, in their slots |
| ListPhraseExamples.OtherKeysRejected | src/test/java/com/squareup/phrase/ListPhraseTest.java:98-103 | `{one}{two}` is rejected with the two-element message |
| ListPhraseExamples.MissingKeyRejected | src/test/java/com/squareup/phrase/ListPhraseTest.java:105-110 | `{a}` is rejected with the two-element message. In the non-final slot alone, the message names that slot |
| ListPhraseExamples.TestPhraseTwo | src/test/java/com/squareup/phrase/ListPhraseTest.java:54-56 | with the test patterns, two items are their texts around ` and ` |
| ListPhraseExamples.TestPhraseThree | src/test/java/com/squareup/phrase/ListPhraseTest.java:58-60 | with the test patterns, three items are joined by `, ` and then `, and ` |
| ListPhraseExamples.TestPhraseFour | src/test/java/com/squareup/phrase/ListPhraseTest.java:62-65 | with the test patterns, four items are joined by `, `, `, ` and then `, and ` |
| ListPhraseExamples.CommaPhrase | src/main/java/com/squareup/phrase/ListPhrase.java:50-53 | `{a}, {b}` in every slot is valid, and is what the single-pattern factory builds from it |
| ListPhraseExamples.CommaPhraseTwo | src/main/java/com/squareup/phrase/ListPhrase.java:56 | with `{a}, {b}` everywhere, two items are separated by `, ` |
| ListPhraseExamples.CommaPhraseThree | src/main/java/com/squareup/phrase/ListPhrase.java:57 | with `{a}, {b}` everywhere, three items are separated by `, ` alike |
| ListPhraseExamples.TwoStringsExample | src/test/java/com/squareup/phrase/ListPhraseTest.java:54-56 | `format("one", "two")` is `one and two` |
| ListPhraseExamples.ThreeStringsExample | src/test/java/com/squareup/phrase/ListPhraseTest.java:58-60 | `format("one", "two", "three")` is `one, two, and three` |
| ListPhraseExamples.FourStringsExample | src/test/java/com/squareup/phrase/ListPhraseTest.java:62-65 | `format("one", "two", "three", "four")` is `one, two, three, and four` |
| ListPhraseExamples.TwoNullsExample | src/test/java/com/squareup/phrase/ListPhraseTest.java:75-77 | two nulls format to ` and ` |
| ListPhraseExamples.ThreeNullsExample | src/test/java/com/squareup/phrase/ListPhraseTest.java:79-81 | three nulls format to `, , and ` |
| ListPhraseExamples.ToStringExample | src/test/java/com/squareup/phrase/ListPhraseTest.java:83-85 | 1, 2 and 3 without a formatter format to `1, 2, and 3` |
| ListPhraseExamples.FormatterExample | src/test/java/com/squareup/phrase/ListPhraseTest.java:87-96 | 1, 2 and 3 with the `0x%d` formatter format to `0x1, 0x2, and 0x3` |
| ListPhraseExamples.CommaTwoExample | src/main/java/com/squareup/phrase/ListPhrase.java:56 | with `{a}, {b}` everywhere, `format("one", "two")` is `one, two` |
| ListPhraseExamples.CommaThreeExample | src/main/java/com/squareup/phrase/ListPhrase.java:57 | with `{a}, {b}` everywhere, `format("one", "two", "three")` is `one, two, three` |
| ListPhraseExamples.ShortStringLists | src/test/java/com/squareup/phrase/ListPhraseTest.java:46-56 | through the formatting methods, the empty list, `one` and `one`, `two` give `""`, `one` and `one and two` |
| ListPhraseExamples.ThreeStrings | src/test/java/com/squareup/phrase/ListPhraseTest.java:58-60 | through the formatting methods, three strings give `one, two, and three` |
| ListPhraseExamples.FourStrings | src/test/java/com/squareup/phrase/ListPhraseTest.java:62-65 | through the formatting methods, four strings give `one, two, three, and four` |
| ListPhraseExamples.NullItems | src/test/java/com/squareup/phrase/ListPhraseTest.java:71-81 | through the formatting methods, one, two and three nulls give `""`, ` and ` and `, , and ` |
| ListPhraseExamples.NumberItems | src/test/java/com/squareup/phrase/ListPhraseTest.java:83-96 | through the formatting methods, 1, 2, 3 give `1, 2, and 3`, and `0x1, 0x2, and 0x3` with the formatter |
| ListPhraseExamples.NonListIterable | src/test/java/com/squareup/phrase/ListPhraseTest.java:67-69 | a one-element set is formatted to its one element |
| ListPhraseExamples.CommaInEverySlot | src/main/java/com/squareup/phrase/ListPhrase.java:49-57 | with the single-pattern factory and `{a}, {b}`, one, two and three strings give `one`, `one, two` and `one, two, three` |

## Left out

- The Android entry points taking a `Fragment`, `View`, `Context` or `Resources`
  (ListPhrase.java:68-157). They only look up string resources and delegate to the factories
  that are modelled. This includes the call `Phrase.from(res, 5)` at :154, whose result is
  discarded.
- `from(CharSequence, CharSequence, CharSequence)` (ListPhrase.java:177-181). It compiles the
  pattern text with `Phrase.from` and then calls the factory on compiled patterns. The model
  starts from compiled patterns, so this factory is `From`. Parsing, `{`-escaping and syntax
  errors in pattern text are left out.
- `Phrase` internals: span and rich-text preservation of `CharSequence` results. Texts are plain
  strings.
- `Phrase.put` binds keys in place on the shared template objects, and the class is not safe for
  concurrent use (ListPhrase.java:39). Each bind-then-render is modelled as one pure `Render` of
  a fresh binding. Keys left bound by an earlier call are not modelled.
- Java object identity: the `LinkedList` built by `asList` and the `subList` views. `FormatList`
  shrinks a `seq` in place of the view, and `AsList` returns the elements as a value.
- `toString()` of arbitrary objects and `String.format` are parameters. The examples define
  `Decimal`, which covers non-negative integers only, and the test's `0x%d` formatter over it.
- Formatters and `toString()` are total and return non-null text. A formatter or `toString()`
  that returns null or throws is not modelled (ListPhrase.java:246, :290, :293): the source would
  return that null for a one-element list, or hand it to `Phrase.put` for longer lists.
- `Arrays.asList` on varargs (ListPhrase.java:213): the items arrive as a sequence.
