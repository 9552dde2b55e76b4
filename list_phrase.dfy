/**
 * ListPhrase: formats a list in a size-dependent way. Three list patterns, each a template
 * with the placeholders `{a}` and `{b}`, say how two neighbouring parts of the list are
 * joined: one for lists of exactly two elements, one for the non-final joins of longer lists
 * and one for their final join. The list is folded from the left, the running result bound
 * to `a` and the next element's text bound to `b`.
 */
module ListPhrases {
  import opened Wrappers
  import opened Templates

  /** The two placeholder names every list pattern must contain, and no others. */
  const KeyA: string := "a"
  const KeyB: string := "b"

  /** The tail of the message thrown for a pattern with the wrong placeholders. */
  const InvalidPatternMessage: string := " list pattern should only contain keys {a} and {b}"

  /** `p` has exactly the placeholders `{a}` and `{b}`. */
  predicate IsListPattern(p: Pattern) {
    Keys(p) == {KeyA, KeyB}
  }

  /** The bindings of one join step: `a` to the left text, `b` to the right text. */
  function Bindings(a: string, b: string): map<string, string> {
    map[KeyA := a, KeyB := b]
  }

  /** Bind `a` to `left` and `b` to `right` in a list pattern, then render it. */
  function Join(p: Pattern, left: string, right: string): string
    requires IsListPattern(p)
  {
    Substitute(p, Bindings(left, right))
  }

  /** Binding `a` and `b` in a list pattern and rendering it never fails, and gives the join. */
  lemma JoinRenders(p: Pattern, left: string, right: string)
    requires IsListPattern(p)
    ensures Render(p, Bindings(left, right)) == Success(Join(p, left, right))
  {
  }

  /**
   * Probe a pattern by binding `a` and `b` to the empty string and rendering it; a failed
   * render becomes an error naming the pattern's slot.
   */
  function ValidateListPattern(name: string, p: Pattern): (r: Result<Pattern, string>)
    ensures r.Success? <==> IsListPattern(p)
    ensures r.Success? ==> r.value == p
    ensures r.Failure? ==> r.error == name + InvalidPatternMessage
  {
    match Render(p, Bindings("", ""))
    case Success(_) => Success(p)
    case Failure(_) => Failure(name + InvalidPatternMessage)
  }

  /** A list phrase: its three list patterns, never changed after construction. */
  datatype ListPhrase = ListPhrase(twoElement: Pattern, nonFinalElement: Pattern, finalElement: Pattern)
  {
    /** What construction establishes: all three patterns are list patterns. */
    predicate Valid() {
      IsListPattern(twoElement) && IsListPattern(nonFinalElement) && IsListPattern(finalElement)
    }
  }

  /**
   * The factory taking three compiled patterns, with the constructor it calls: the patterns
   * are validated in slot order and the first invalid one is reported.
   */
  function From(twoElement: Pattern, nonFinalElement: Pattern, finalElement: Pattern)
    : (r: Result<ListPhrase, string>)
    ensures r.Success? <==>
      IsListPattern(twoElement) && IsListPattern(nonFinalElement) && IsListPattern(finalElement)
    ensures r.Success? ==>
      r.value == ListPhrase(twoElement, nonFinalElement, finalElement) && r.value.Valid()
    ensures !IsListPattern(twoElement) ==>
      r == Failure("two-element" + InvalidPatternMessage)
    ensures IsListPattern(twoElement) && !IsListPattern(nonFinalElement) ==>
      r == Failure("non-final" + InvalidPatternMessage)
    ensures IsListPattern(twoElement) && IsListPattern(nonFinalElement) && !IsListPattern(finalElement) ==>
      r == Failure("final" + InvalidPatternMessage)
  {
    var two :- ValidateListPattern("two-element", twoElement);
    var nonFinal :- ValidateListPattern("non-final", nonFinalElement);
    var final :- ValidateListPattern("final", finalElement);
    Success(ListPhrase(two, nonFinal, final))
  }

  /** The factory taking one pattern, used for every join. */
  function FromSingle(pattern: Pattern): (r: Result<ListPhrase, string>)
    ensures r.Success? <==> IsListPattern(pattern)
    ensures r.Success? ==> r.value == ListPhrase(pattern, pattern, pattern)
    ensures r.Failure? ==> r.error == "two-element" + InvalidPatternMessage
  {
    From(pattern, pattern, pattern)
  }

  /**
   * A caller-supplied formatter: the text of an item, given the item or null
   * (a formatter is handed null items too).
   */
  type Formatter<!T> = Option<T> -> string

  /**
   * The text of one item. A formatter, when given, decides alone; without one a null item
   * is the empty string and any other item is its `toString()`, here `show`.
   */
  function FormatIfNotNull<T>(item: Option<T>, formatter: Option<Formatter<T>>, show: T -> string): string
  {
    match formatter
    case Some(f) => f(item)
    case None =>
      match item
      case None => ""
      case Some(x) => show(x)
  }

  /** The texts of all items, in list order. */
  function Texts<T>(items: seq<Option<T>>, formatter: Option<Formatter<T>>, show: T -> string)
    : (ts: seq<string>)
    ensures |ts| == |items|
    ensures forall i :: 0 <= i < |items| ==> ts[i] == FormatIfNotNull(items[i], formatter, show)
  {
    if items == [] then []
    else [FormatIfNotNull(items[0], formatter, show)] + Texts(items[1..], formatter, show)
  }

  /**
   * The fold for lists of three or more: `acc` joined with every text of `rest` in turn,
   * the last join with the final pattern and every earlier one with the non-final pattern.
   */
  function FoldFrom(lp: ListPhrase, acc: string, rest: seq<string>): string
    requires lp.Valid() && |rest| >= 1
    decreases |rest|
  {
    if |rest| == 1 then Join(lp.finalElement, acc, rest[0])
    else FoldFrom(lp, Join(lp.nonFinalElement, acc, rest[0]), rest[1..])
  }

  /** What a list phrase makes of a list of texts, by the list's size. */
  function FormatTexts(lp: ListPhrase, texts: seq<string>): string
    requires lp.Valid()
  {
    if |texts| == 0 then ""
    else if |texts| == 1 then texts[0]
    else if |texts| == 2 then Join(lp.twoElement, texts[0], texts[1])
    else FoldFrom(lp, texts[0], texts[1..])
  }

  /** The plain left fold of `texts` onto `acc` with one pattern. */
  function FoldLeft(p: Pattern, acc: string, texts: seq<string>): string
    requires IsListPattern(p)
    decreases |texts|
  {
    if texts == [] then acc else FoldLeft(p, Join(p, acc, texts[0]), texts[1..])
  }

  /** An iterable, seen through the order in which it yields its elements. */
  datatype Iterable<T> =
    | List(elements: seq<T>)         // a java.util.List: used as it is
    | Collection(elements: seq<T>)   // any other Iterable, e.g. a set, in its iteration order

  /** The list view of an iterable: a list as it is, anything else copied in iteration order. */
  method AsList<T>(iterable: Iterable<T>) returns (list: seq<T>)
    ensures list == iterable.elements
  {
    match iterable
    case List(elements) =>
      list := elements;
    case Collection(elements) =>
      list := [];
      for i := 0 to |elements|
        invariant list == elements[..i]
      {
        list := list + [elements[i]];
      }
  }

  /**
   * Format a list. Lists of three or more are folded in a loop that drops the head of the
   * remaining list on every step and switches to the final pattern when one element remains.
   * The ghost `joins` records the pattern of every render, in order.
   */
  method FormatList<T>(lp: ListPhrase, list: seq<Option<T>>, formatter: Option<Formatter<T>>, show: T -> string)
    returns (result: string, ghost joins: seq<Pattern>)
    requires lp.Valid()
    ensures result == FormatTexts(lp, Texts(list, formatter, show))
    ensures |list| <= 1 ==> joins == []
    ensures |list| == 2 ==> joins == [lp.twoElement]
    ensures |list| >= 3 ==>
      |joins| == |list| - 1 && joins[|joins| - 1] == lp.finalElement &&
      forall j :: 0 <= j < |joins| - 1 ==> joins[j] == lp.nonFinalElement
  {
    ghost var texts := Texts(list, formatter, show);
    if |list| == 0 {
      result, joins := "", [];
    } else if |list| == 1 {
      result, joins := FormatIfNotNull(list[0], formatter, show), [];
    } else if |list| == 2 {
      result := Join(lp.twoElement, FormatIfNotNull(list[0], formatter, show),
                     FormatIfNotNull(list[1], formatter, show));
      joins := [lp.twoElement];
    } else {
      var phrase := lp.nonFinalElement;
      result := FormatIfNotNull(list[0], formatter, show);
      var rest := list[1..];
      joins := [];
      ghost var restTexts := texts[1..];
      while rest != []
        invariant restTexts == Texts(rest, formatter, show)
        invariant |joins| + |rest| == |list| - 1
        invariant rest != [] ==>
          phrase == lp.nonFinalElement &&
          FoldFrom(lp, result, restTexts) == FormatTexts(lp, texts) &&
          forall j :: 0 <= j < |joins| ==> joins[j] == lp.nonFinalElement
        invariant rest == [] ==>
          result == FormatTexts(lp, texts) && |joins| >= 1 && joins[|joins| - 1] == lp.finalElement &&
          forall j :: 0 <= j < |joins| - 1 ==> joins[j] == lp.nonFinalElement
        decreases |rest|
      {
        if |rest| == 1 {
          phrase := lp.finalElement;
        }
        result := Join(phrase, result, FormatIfNotNull(rest[0], formatter, show));
        joins := joins + [phrase];
        rest := rest[1..];
        restTexts := restTexts[1..];
      }
    }
  }

  /** `format(T...)`: the items as a list, without a formatter. */
  method FormatItems<T>(lp: ListPhrase, items: seq<Option<T>>, show: T -> string) returns (result: string)
    requires lp.Valid()
    ensures result == FormatTexts(lp, Texts(items, None, show))
  {
    result := FormatIterable(lp, List(items), show);
  }

  /** `format(Iterable)`: without a formatter. */
  method FormatIterable<T>(lp: ListPhrase, items: Iterable<Option<T>>, show: T -> string)
    returns (result: string)
    requires lp.Valid()
    ensures result == FormatTexts(lp, Texts(items.elements, None, show))
  {
    result := FormatIterableWith(lp, items, None, show);
  }

  /** `format(Iterable, Formatter)`: the iterable as a list, then formatted. */
  method FormatIterableWith<T>(lp: ListPhrase, items: Iterable<Option<T>>, formatter: Option<Formatter<T>>,
                               show: T -> string)
    returns (result: string)
    requires lp.Valid()
    ensures result == FormatTexts(lp, Texts(items.elements, formatter, show))
  {
    var list := AsList(items);
    ghost var joins;
    result, joins := FormatList(lp, list, formatter, show);
  }
}
