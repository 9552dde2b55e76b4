/**
 * A minimal stand-in for the single-pair template engine (`Phrase`) that ListPhrase
 * binds and renders. A pattern is a sequence of literal text and named keys; rendering
 * succeeds exactly when the bound keys are the pattern's keys, and then substitutes each
 * key's value. Parsing of pattern text, escaping and span preservation are not modelled.
 */
module Templates {
  import opened Wrappers

  /** One piece of a compiled pattern: literal text, or a `{name}` placeholder. */
  datatype Segment = Lit(text: string) | Key(name: string)

  type Pattern = seq<Segment>

  /** Why a render failed: the keys that were bound and the keys the pattern has. */
  datatype TemplateError = KeySetMismatch(bound: set<string>, expected: set<string>)

  /** The names of the placeholders that occur in `p`. */
  function Keys(p: Pattern): set<string>
  {
    if p == [] then {}
    else
      var first := match p[0] case Key(k) => {k} case Lit(_) => {};
      first + Keys(p[1..])
  }

  /** The text of one segment: literal text as it is, a key by its value in `m`. */
  function SegmentText(s: Segment, m: map<string, string>): string
    requires s.Key? ==> s.name in m
  {
    match s
    case Lit(t) => t
    case Key(k) => m[k]
  }

  /** The text of `p` with every key replaced by its value in `m`. */
  function Substitute(p: Pattern, m: map<string, string>): string
    requires Keys(p) <= m.Keys
  {
    if p == [] then "" else SegmentText(p[0], m) + Substitute(p[1..], m)
  }

  /** A name is a key of `p` exactly when a placeholder of that name occurs in `p`. */
  lemma {:induction false} KeysOccur(p: Pattern)
    ensures forall k :: k in Keys(p) <==> Key(k) in p
  {
    if p != [] {
      KeysOccur(p[1..]);
      assert forall s :: s in p <==> s == p[0] || s in p[1..];
    }
  }

  /**
   * Bind the keys of `m`, then render. Fails, without output, unless the bound keys are
   * exactly the placeholders of `p`.
   */
  function Render(p: Pattern, m: map<string, string>): Result<string, TemplateError>
  {
    if m.Keys == Keys(p) then Success(Substitute(p, m))
    else Failure(KeySetMismatch(m.Keys, Keys(p)))
  }
}
