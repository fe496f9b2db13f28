/** The part of the TypeScript syntax tree the transformer looks at, and the
    quote-stripping applied to the raw text of a property's value. */
module Syntax {
  import opened Results

  /** A node as the visitor sees it. Only the kinds the visitor tests for are
      distinguished; every other kind is `Other`, with the children that
      `ts.visitEachChild` visits, in order. The binding keyword (`const`,
      `let`, `var`) is not part of a declaration: the visitor never reads it. */
  datatype Node =
    | VarDecl(kids: seq<Node>)
    | Ident(text: string)
    | TypeRef(text: string, kids: seq<Node>)
    | ObjLit(props: seq<Prop>)
    | StrLit(value: string)
    | Other(kids: seq<Node>)

  /** A member of an object literal. `name` is the source text of its name
      (absent for a spread element), `valueText` the source text of its third
      child (for a property assignment `name: value` that is the value, quotes
      included; absent when the member has fewer than three children), and
      `kids` the children `ts.visitEachChild` visits inside it. */
  datatype Prop = Prop(name: Option<string>, valueText: Option<string>, kids: seq<Node>)

  predicate IsQuote(c: char) {
    c == '"' || c == '\'' || c == '`'
  }

  /** The value of `text.replace(/(^["'`])|(["'`]$)/g, '')`: one quote
      character (any of the three, unmatched pairs included) is removed from
      the start and one from the end. A text that is a single quote character
      becomes empty: the first alternative consumes it and nothing is left for
      the second. */
  function StripQuotes(t: string): (r: string)
    ensures |t| == 1 && IsQuote(t[0]) ==> r == []
    ensures |t| >= 2 && IsQuote(t[0]) && IsQuote(t[|t| - 1]) ==> r == t[1..|t| - 1]
    ensures |t| >= 1 && IsQuote(t[0]) && !IsQuote(t[|t| - 1]) ==> r == t[1..]
    ensures |t| >= 1 && !IsQuote(t[0]) && IsQuote(t[|t| - 1]) ==> r == t[..|t| - 1]
    ensures (|t| == 0 || (!IsQuote(t[0]) && !IsQuote(t[|t| - 1]))) ==> r == t
    // so the result is the text with at most one character cut from each end
    ensures |t| <= |r| + 2
    ensures r == t[..|r|] || (|r| < |t| && r == t[1..|r| + 1])
  {
    var start := if |t| > 0 && IsQuote(t[0]) then 1 else 0;
    var end := if |t| > start && IsQuote(t[|t| - 1]) then |t| - 1 else |t|;
    t[start..end]
  }

  /** The text of a string literal holding `v`, as the printer writes a
      literal made by `ts.factory.createStringLiteral(v)`. */
  function Quote(v: string): string {
    ['"'] + v + ['"']
  }

  /** Stripping undoes quoting: the literal the rewrite creates reads back as
      the value it was made from. */
  lemma StripQuotesOfQuote(v: string)
    ensures StripQuotes(Quote(v)) == v
  {
    var t := Quote(v);
    assert t[1..|t| - 1] == v;
  }

  /** A property assignment `name: "value"` as created by
      `ts.factory.createPropertyAssignment(name, ts.factory.createStringLiteral(value))`. */
  function StringProperty(name: string, value: string): (p: Prop)
    ensures p.name == Some(name) && p.valueText.Some?
    ensures StripQuotes(p.valueText.value) == value
  {
    StripQuotesOfQuote(value);
    Prop(Some(name), Some(Quote(value)), [Ident(name), StrLit(value)])
  }

  /** The literal that replaces a scope literal: exactly two properties,
      `query` first and `token` second. */
  function Replacement(query: string, token: string): (n: Node)
    ensures n.ObjLit? && |n.props| == 2
    ensures n.props[0].name == Some("query") && n.props[1].name == Some("token")
    ensures n.props[0].valueText.Some? && n.props[1].valueText.Some?
    ensures StripQuotes(n.props[0].valueText.value) == query
    ensures StripQuotes(n.props[1].valueText.value) == token
  {
    ObjLit([StringProperty("query", query), StringProperty("token", token)])
  }
}
