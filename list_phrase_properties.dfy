/**
 * What formatting a list promises, stated over the specification functions of ListPhrases:
 * the result for each list size, the shape of the fold for three or more elements, the
 * stringification policy, and closed forms for patterns that put fixed text between `{a}`
 * and `{b}`.
 */
module ListPhraseProperties {
  import opened Wrappers
  import opened Templates
  import opened ListPhrases

  /** An empty list formats to the empty string, whatever the patterns. */
  lemma FormatEmpty<T>(lp: ListPhrase, formatter: Option<Formatter<T>>, show: T -> string)
    requires lp.Valid()
    ensures FormatTexts(lp, Texts([], formatter, show)) == ""
  {
  }

  /**
   * A one-element list formats to that element's text; without a formatter a null element
   * gives the empty string and any other element its `toString()`.
   */
  lemma FormatSingle<T>(lp: ListPhrase, x: Option<T>, formatter: Option<Formatter<T>>, show: T -> string)
    requires lp.Valid()
    ensures FormatTexts(lp, Texts([x], formatter, show)) == FormatIfNotNull(x, formatter, show)
    ensures formatter.Some? ==> FormatTexts(lp, Texts([x], formatter, show)) == formatter.value(x)
    ensures formatter == None && x == None ==> FormatTexts(lp, Texts([x], formatter, show)) == ""
    ensures formatter == None && x.Some? ==> FormatTexts(lp, Texts([x], formatter, show)) == show(x.value)
  {
  }

  /** A two-element list is the two-element pattern rendered with `a` and `b` bound to the two texts. */
  lemma FormatPair<T>(lp: ListPhrase, x: Option<T>, y: Option<T>, formatter: Option<Formatter<T>>, show: T -> string)
    requires lp.Valid()
    ensures Render(lp.twoElement, Bindings(FormatIfNotNull(x, formatter, show), FormatIfNotNull(y, formatter, show)))
         == Success(FormatTexts(lp, Texts([x, y], formatter, show)))
  {
  }

  /** Three texts: the final pattern joins the non-final join of the first two with the third. */
  lemma FormatTriple(lp: ListPhrase, x: string, y: string, z: string)
    requires lp.Valid()
    ensures FormatTexts(lp, [x, y, z]) == Join(lp.finalElement, Join(lp.nonFinalElement, x, y), z)
  {
    assert [x, y, z][1..] == [y, z];
    assert [y, z][1..] == [z];
    assert FoldFrom(lp, x, [y, z]) == FoldFrom(lp, Join(lp.nonFinalElement, x, y), [z]);
  }

  /**
   * The fold makes one join per element of `rest`: the non-final pattern folds in all but the
   * last element, and only the last join uses the final pattern.
   */
  lemma {:induction false} FoldFromLastJoin(lp: ListPhrase, acc: string, rest: seq<string>)
    requires lp.Valid() && |rest| >= 1
    ensures FoldFrom(lp, acc, rest)
         == Join(lp.finalElement, FoldLeft(lp.nonFinalElement, acc, rest[..|rest| - 1]), rest[|rest| - 1])
    decreases |rest|
  {
    if |rest| > 1 {
      var n := |rest|;
      FoldFromLastJoin(lp, Join(lp.nonFinalElement, acc, rest[0]), rest[1..]);
      assert rest[..n - 1][1..] == rest[1..][..n - 2];
    }
  }

  /**
   * Three or more texts: start from the first, fold in the second to second-to-last with the
   * non-final pattern, and join the last with the final pattern.
   */
  lemma FormatLongList(lp: ListPhrase, texts: seq<string>)
    requires lp.Valid() && |texts| >= 3
    ensures FormatTexts(lp, texts)
         == Join(lp.finalElement, FoldLeft(lp.nonFinalElement, texts[0], texts[1..|texts| - 1]), texts[|texts| - 1])
  {
    FoldFromLastJoin(lp, texts[0], texts[1..]);
    assert texts[1..][..|texts| - 2] == texts[1..|texts| - 1];
  }

  /** When a formatter is given it alone decides every text: `toString()` plays no part. */
  lemma FormatterAloneDecides<T>(items: seq<Option<T>>, f: Formatter<T>, show1: T -> string, show2: T -> string)
    ensures Texts(items, Some(f), show1) == Texts(items, Some(f), show2)
    ensures forall i :: 0 <= i < |items| ==> Texts(items, Some(f), show1)[i] == f(items[i])
  {
  }

  /** Without a formatter, every null item is the empty string and every other item its `toString()`. */
  lemma NoFormatterIsDefault<T>(items: seq<Option<T>>, show: T -> string)
    ensures forall i :: 0 <= i < |items| ==>
      Texts(items, None, show)[i] == (if items[i].None? then "" else show(items[i].value))
  {
  }

  /** The pattern `{a}<sep>{b}`. */
  function SeparatorPattern(sep: string): (p: Pattern)
    ensures IsListPattern(p)
    ensures forall a, b :: Join(p, a, b) == a + sep + b
  {
    var last := [Key(KeyB)];
    var tail := [Lit(sep), Key(KeyB)];
    var p := [Key(KeyA), Lit(sep), Key(KeyB)];
    assert last[1..] == [] && tail[1..] == last && p[1..] == tail;
    assert Keys(p) == {KeyA, KeyB} by {
      assert Keys(last) == {KeyB};
      assert Keys(tail) == {KeyB};
    }
    assert forall a, b :: Join(p, a, b) == a + sep + b by {
      forall a, b ensures Join(p, a, b) == a + sep + b {
        var m := Bindings(a, b);
        assert Substitute(last, m) == b;
        assert Substitute(tail, m) == sep + b;
      }
    }
    p
  }

  /** Each text preceded by `sep`, concatenated. */
  function Prefixed(sep: string, texts: seq<string>): string
    decreases |texts|
  {
    if texts == [] then "" else sep + texts[0] + Prefixed(sep, texts[1..])
  }

  /** Prefixing one text more appends it, preceded by `sep`. */
  lemma {:induction false} PrefixedSnoc(sep: string, texts: seq<string>, t: string)
    ensures Prefixed(sep, texts + [t]) == Prefixed(sep, texts) + sep + t
    decreases |texts|
  {
    if texts == [] {
      assert texts + [t] == [t];
    } else {
      assert (texts + [t])[1..] == texts[1..] + [t];
      PrefixedSnoc(sep, texts[1..], t);
    }
  }

  /** Folding with a separator pattern appends each text after the separator. */
  lemma {:induction false} FoldLeftSeparator(sep: string, acc: string, texts: seq<string>)
    ensures FoldLeft(SeparatorPattern(sep), acc, texts) == acc + Prefixed(sep, texts)
    decreases |texts|
  {
    if texts != [] {
      FoldLeftSeparator(sep, acc + sep + texts[0], texts[1..]);
    }
  }

  /**
   * With separator patterns the result is plain concatenation: for three or more texts, the
   * first, then the non-final separator before each middle text, then the final separator
   * before the last.
   */
  lemma FormatWithSeparators(texts: seq<string>, two: string, nonFinal: string, final: string)
    requires |texts| >= 2
    ensures ListPhrase(SeparatorPattern(two), SeparatorPattern(nonFinal), SeparatorPattern(final)).Valid()
    ensures |texts| == 2 ==>
      FormatTexts(ListPhrase(SeparatorPattern(two), SeparatorPattern(nonFinal), SeparatorPattern(final)), texts)
      == texts[0] + two + texts[1]
    ensures |texts| >= 3 ==>
      FormatTexts(ListPhrase(SeparatorPattern(two), SeparatorPattern(nonFinal), SeparatorPattern(final)), texts)
      == texts[0] + Prefixed(nonFinal, texts[1..|texts| - 1]) + final + texts[|texts| - 1]
  {
    var lp := ListPhrase(SeparatorPattern(two), SeparatorPattern(nonFinal), SeparatorPattern(final));
    if |texts| >= 3 {
      FormatLongList(lp, texts);
      FoldLeftSeparator(nonFinal, texts[0], texts[1..|texts| - 1]);
    }
  }

  /** With one separator pattern in all three slots, the texts are the separator-joined list; no texts give `""`. */
  lemma UniformSeparator(texts: seq<string>, sep: string)
    ensures texts == [] ==>
      FormatTexts(ListPhrase(SeparatorPattern(sep), SeparatorPattern(sep), SeparatorPattern(sep)), texts) == ""
    ensures texts != [] ==>
      FormatTexts(ListPhrase(SeparatorPattern(sep), SeparatorPattern(sep), SeparatorPattern(sep)), texts)
      == texts[0] + Prefixed(sep, texts[1..])
  {
    var n := |texts|;
    if n == 2 {
      var tail := texts[1..];
      assert tail == [texts[1]] && tail[1..] == [];
      assert Prefixed(sep, tail) == sep + texts[1];
      FormatWithSeparators(texts, sep, sep, sep);
    } else if n >= 3 {
      var tail := texts[1..];
      assert Prefixed(sep, tail) == Prefixed(sep, texts[1..n - 1]) + sep + texts[n - 1] by {
        assert tail == texts[1..n - 1] + [texts[n - 1]];
        PrefixedSnoc(sep, texts[1..n - 1], texts[n - 1]);
      }
      FormatWithSeparators(texts, sep, sep, sep);
    }
  }
}
