/** Properties of the visitor specified in `Scanner`. */
module ScannerProofs {
  import opened Results
  import opened Syntax
  import opened Signer
  import opened Scanner

  /** The state machine's invariant: `QSObjectLiteralExpression` is never
      entered, and while a declaration is being matched no query or token is
      left over from an earlier literal. */
  predicate Inv(s: Scan) {
    && s.state != QSObjectLiteralExpression
    && (s.state == VariableDeclaration || s.state == QSTypeReference ==> s.query.None? && s.token.None?)
  }

  // ---------------------------------------------------------------------------
  // The state machine

  /** Each file starts in a state that satisfies the invariant. */
  lemma InitialSatisfiesInv()
    ensures Initial.state == Unknown && Inv(Initial)
  {
  }

  lemma {:induction false} VisitKeepsInv(cfg: Config, s: Scan, n: Node)
    requires Inv(s)
    ensures Visit(cfg, s, n).Visited? ==> Inv(Visit(cfg, s, n).scan)
    decreases n, 1
  {
    if cfg.SigningEnabled() && !(n.ObjLit? && s.state == QSTypeReference) {
      VisitChildrenKeepsInv(cfg, Enter(s, n), n);
    }
  }

  lemma {:induction false} VisitChildrenKeepsInv(cfg: Config, s: Scan, n: Node)
    requires Inv(s)
    ensures VisitChildren(cfg, s, n).Visited? ==> Inv(VisitChildren(cfg, s, n).scan)
    decreases n, 0
  {
    match n
    case VarDecl(kids) => VisitAllKeepsInv(cfg, s, kids);
    case TypeRef(_, kids) => VisitAllKeepsInv(cfg, s, kids);
    case Other(kids) => VisitAllKeepsInv(cfg, s, kids);
    case ObjLit(props) => VisitPropsKeepsInv(cfg, s, props);
    case Ident(_) =>
    case StrLit(_) =>
  }

  lemma {:induction false} VisitAllKeepsInv(cfg: Config, s: Scan, ns: seq<Node>)
    requires Inv(s)
    ensures VisitAll(cfg, s, ns).Visited? ==> Inv(VisitAll(cfg, s, ns).scan)
    decreases ns
  {
    if ns != [] {
      VisitKeepsInv(cfg, s, ns[0]);
      var first := Visit(cfg, s, ns[0]);
      if first.Visited? {
        VisitAllKeepsInv(cfg, first.scan, ns[1..]);
      }
    }
  }

  lemma {:induction false} VisitPropsKeepsInv(cfg: Config, s: Scan, ps: seq<Prop>)
    requires Inv(s)
    ensures VisitProps(cfg, s, ps).Visited? ==> Inv(VisitProps(cfg, s, ps).scan)
    decreases ps
  {
    if ps != [] {
      VisitAllKeepsInv(cfg, s, ps[0].kids);
      var first := VisitAll(cfg, s, ps[0].kids);
      if first.Visited? {
        VisitPropsKeepsInv(cfg, first.scan, ps[1..]);
      }
    }
  }

  /** A declaration resets the scan, so what happens inside it does not depend
      on anything visited before it. */
  lemma DeclarationForgetsHistory(cfg: Config, s1: Scan, s2: Scan, kids: seq<Node>)
    requires cfg.SigningEnabled()
    ensures Visit(cfg, s1, VarDecl(kids)) == Visit(cfg, s2, VarDecl(kids))
  {
  }

  /** With a credential missing the transformer hands back the file untouched. */
  lemma DisabledIsIdentity(cfg: Config, root: Node)
    requires !cfg.SigningEnabled()
    ensures Transform(cfg, root) == Ok(root)
  {
  }

  // ---------------------------------------------------------------------------
  // The property scan

  /** `LastNamed` is the value of the last property with that name, and absent
      exactly when no property has that name. */
  lemma {:induction false} LastNamedIsLast(ps: seq<Prop>, name: string)
    requires AllHaveValues(ps)
    ensures LastNamed(ps, name).None? <==> forall i :: 0 <= i < |ps| ==> ps[i].name != Some(name)
    ensures LastNamed(ps, name).Some? ==>
      exists i :: 0 <= i < |ps| && ps[i].name == Some(name)
        && LastNamed(ps, name).value == StripQuotes(ps[i].valueText.value)
        && forall j :: i < j < |ps| ==> ps[j].name != Some(name)
  {
    if ps != [] {
      var init := ps[..|ps| - 1];
      LastNamedIsLast(init, name);
      if ps[|ps| - 1].name != Some(name) {
        if LastNamed(ps, name).Some? {
          var i :| 0 <= i < |init| && init[i].name == Some(name)
            && LastNamed(init, name).value == StripQuotes(init[i].valueText.value)
            && forall j :: i < j < |init| ==> init[j].name != Some(name);
          assert ps[i] == init[i];
        }
      }
    }
  }

  /** The property loop finds, for `query` and for `token`, the value of the
      last property with that name (keeping the starting value when there is
      none), and aborts if any property lacks a value text. */
  lemma {:induction false} ScanPropsFindsLast(ps: seq<Prop>, init: Fields)
    ensures ScanProps(ps, init) ==
      if AllHaveValues(ps) then
        Ok(Fields(OrElse(LastNamed(ps, "query"), init.query), OrElse(LastNamed(ps, "token"), init.token)))
      else
        Fail(MissingInitializer)
  {
    if ps != [] {
      var prefix := ps[..|ps| - 1];
      ScanPropsFindsLast(prefix, init);
      if !AllHaveValues(prefix) {
        var i :| 0 <= i < |prefix| && prefix[i].valueText.None?;
        assert ps[i] == prefix[i];
      }
    }
  }

  /** Inserting a property with another name, anywhere, does not change the
      last value found for `name`. */
  lemma {:induction false} LastNamedSkipsOtherNames(xs: seq<Prop>, k: nat, p: Prop, name: string)
    requires k <= |xs| && AllHaveValues(xs) && p.valueText.Some? && p.name != Some(name)
    ensures AllHaveValues(xs[..k] + [p] + xs[k..])
    ensures LastNamed(xs[..k] + [p] + xs[k..], name) == LastNamed(xs, name)
    decreases |xs|
  {
    var ys := xs[..k] + [p] + xs[k..];
    forall i | 0 <= i < |ys|
      ensures ys[i].valueText.Some?
    {
      if i < k {
        assert ys[i] == xs[i];
      } else if i == k {
        assert ys[i] == p;
      } else {
        assert ys[i] == xs[i - 1];
      }
    }
    if k == |xs| {
      assert ys[..|ys| - 1] == xs;
    } else {
      var init := xs[..|xs| - 1];
      LastNamedSkipsOtherNames(init, k, p, name);
      assert ys[..|ys| - 1] == init[..k] + [p] + init[k..];
      assert ys[|ys| - 1] == xs[|xs| - 1];
    }
  }

  /** The literal the rewrite creates reads back as its own query and token. */
  lemma ReplacementReadsBack(q: string, t: string, init: Fields)
    ensures ScanProps(Replacement(q, t).props, init) == Ok(Fields(Some(q), Some(t)))
  {
    var ps := Replacement(q, t).props;
    ScanPropsFindsLast(ps, init);
    assert ps[..1][..0] == [];
    assert LastNamed(ps, "query") == LastNamed(ps[..1], "query") == Some(q);
    assert LastNamed(ps, "token") == Some(t);
  }

  // ---------------------------------------------------------------------------
  // The rewrite decision

  /** What becomes of an object literal that follows a `QueryScope` type: a
      property without a value text aborts the pass; with no `query` property
      the literal stays as it is; otherwise the signer either throws or gives
      a token, and then the literal is replaced by `{ query, token }` made of
      the last query found and that token. With credentials present the
      signer never answers "no token", so a found query is always rewritten. */
  lemma ScopeLiteralOutcome(cfg: Config, s: Scan, ps: seq<Prop>)
    requires cfg.SigningEnabled() && s.state == QSTypeReference && Inv(s)
    ensures var r := Visit(cfg, s, ObjLit(ps));
      if !AllHaveValues(ps) then r == Aborted(MissingInitializer)
      else
        match LastNamed(ps, "query")
        case None => r == Visited(ObjLit(ps), Scan(Unknown, s.variableId, LastNamed(ps, "token"), None))
        case Some(q) =>
          match cfg.signRs256(Claims(QueryDigest(cfg, cfg.clientId.value, q), cfg.issuedAt), cfg.privateKey.value)
          case None => r == Aborted(SigningFailed)
          case Some(t) => r == Visited(Replacement(q, t), Scan(Unknown, s.variableId, Some(t), Some(q)))
  {
    ScanPropsFindsLast(ps, Fields(s.query, s.token));
  }

  /** Neither a `token` property nor any other property not called `query`,
      wherever it stands and whatever its value, changes what a scope literal
      with a query becomes. */
  lemma OtherPropertiesIgnored(cfg: Config, s: Scan, xs: seq<Prop>, k: nat, p: Prop)
    requires cfg.SigningEnabled() && s.state == QSTypeReference && Inv(s)
    requires k <= |xs| && AllHaveValues(xs) && LastNamed(xs, "query").Some?
    requires p.valueText.Some? && p.name != Some("query")
    ensures Visit(cfg, s, ObjLit(xs[..k] + [p] + xs[k..])) == Visit(cfg, s, ObjLit(xs))
  {
    LastNamedSkipsOtherNames(xs, k, p, "query");
    ScopeLiteralOutcome(cfg, s, xs);
    ScopeLiteralOutcome(cfg, s, xs[..k] + [p] + xs[k..]);
  }

  // ---------------------------------------------------------------------------
  // Everything else is left alone

  /** Some type reference in the tree reads exactly `QueryScope`. */
  predicate MentionsScopeType(n: Node)
    decreases n, 1
  {
    match n
    case TypeRef(text, kids) => text == "QueryScope" || AnyMentionsScopeType(kids)
    case VarDecl(kids) => AnyMentionsScopeType(kids)
    case Other(kids) => AnyMentionsScopeType(kids)
    case ObjLit(props) => PropsMentionScopeType(props)
    case Ident(_) => false
    case StrLit(_) => false
  }

  predicate AnyMentionsScopeType(ns: seq<Node>)
    decreases ns
  {
    ns != [] && (MentionsScopeType(ns[0]) || AnyMentionsScopeType(ns[1..]))
  }

  predicate PropsMentionScopeType(ps: seq<Prop>)
    decreases ps
  {
    ps != [] && (AnyMentionsScopeType(ps[0].kids) || PropsMentionScopeType(ps[1..]))
  }

  /** A tree without a `QueryScope` type, visited outside a scope, comes back
      unchanged and never reaches the scope state. */
  lemma {:induction false} UnscopedNodeUnchanged(cfg: Config, s: Scan, n: Node)
    requires s.state != QSTypeReference && !MentionsScopeType(n)
    ensures Visit(cfg, s, n).Visited?
    ensures Visit(cfg, s, n).out == n && Visit(cfg, s, n).scan.state != QSTypeReference
    decreases n, 1
  {
    if cfg.SigningEnabled() {
      UnscopedChildrenUnchanged(cfg, Enter(s, n), n);
    }
  }

  lemma {:induction false} UnscopedChildrenUnchanged(cfg: Config, s: Scan, n: Node)
    requires s.state != QSTypeReference && !MentionsScopeType(n)
    ensures VisitChildren(cfg, s, n).Visited?
    ensures VisitChildren(cfg, s, n).out == n && VisitChildren(cfg, s, n).scan.state != QSTypeReference
    decreases n, 0
  {
    match n
    case VarDecl(kids) => UnscopedListUnchanged(cfg, s, kids);
    case TypeRef(_, kids) => UnscopedListUnchanged(cfg, s, kids);
    case Other(kids) => UnscopedListUnchanged(cfg, s, kids);
    case ObjLit(props) => UnscopedPropsUnchanged(cfg, s, props);
    case Ident(_) =>
    case StrLit(_) =>
  }

  lemma {:induction false} UnscopedListUnchanged(cfg: Config, s: Scan, ns: seq<Node>)
    requires s.state != QSTypeReference && !AnyMentionsScopeType(ns)
    ensures VisitAll(cfg, s, ns).Visited?
    ensures VisitAll(cfg, s, ns).out == ns && VisitAll(cfg, s, ns).scan.state != QSTypeReference
    decreases ns
  {
    if ns != [] {
      UnscopedNodeUnchanged(cfg, s, ns[0]);
      UnscopedListUnchanged(cfg, Visit(cfg, s, ns[0]).scan, ns[1..]);
    }
  }

  lemma {:induction false} UnscopedPropsUnchanged(cfg: Config, s: Scan, ps: seq<Prop>)
    requires s.state != QSTypeReference && !PropsMentionScopeType(ps)
    ensures VisitProps(cfg, s, ps).Visited?
    ensures VisitProps(cfg, s, ps).out == ps && VisitProps(cfg, s, ps).scan.state != QSTypeReference
    decreases ps
  {
    if ps != [] {
      UnscopedListUnchanged(cfg, s, ps[0].kids);
      UnscopedPropsUnchanged(cfg, VisitAll(cfg, s, ps[0].kids).scan, ps[1..]);
    }
  }

  /** A source file that never names the type `QueryScope` comes out as it went in. */
  lemma FileWithoutScopesUnchanged(cfg: Config, root: Node)
    requires !MentionsScopeType(root)
    ensures Transform(cfg, root) == Ok(root)
  {
    UnscopedNodeUnchanged(cfg, Initial, root);
  }

  // ---------------------------------------------------------------------------
  // Only scope literals are replaced

  /** `b` is `a` with nothing changed except that some object literals may
      have become a `{ query, token }` replacement: every other node keeps its
      kind and text, and its children are related the same way, in order. */
  ghost predicate OnlyLiteralsReplaced(a: Node, b: Node)
    decreases a
  {
    match a
    case VarDecl(kids) => b.VarDecl? && AllOnlyLiteralsReplaced(kids, b.kids)
    case TypeRef(text, kids) => b.TypeRef? && b.text == text && AllOnlyLiteralsReplaced(kids, b.kids)
    case Other(kids) => b.Other? && AllOnlyLiteralsReplaced(kids, b.kids)
    case ObjLit(props) =>
      || b == a
      || (exists q, t :: b == Replacement(q, t))
      || (b.ObjLit? && PropsOnlyLiteralsReplaced(props, b.props))
    case Ident(_) => b == a
    case StrLit(_) => b == a
  }

  ghost predicate AllOnlyLiteralsReplaced(xs: seq<Node>, ys: seq<Node>)
    decreases xs
  {
    && |xs| == |ys|
    && (xs != [] ==> OnlyLiteralsReplaced(xs[0], ys[0]) && AllOnlyLiteralsReplaced(xs[1..], ys[1..]))
  }

  /** Members keep their name and value text; only inside them may literals change. */
  ghost predicate PropsOnlyLiteralsReplaced(ps: seq<Prop>, qs: seq<Prop>)
    decreases ps
  {
    && |ps| == |qs|
    && (ps != [] ==>
          && qs[0].name == ps[0].name && qs[0].valueText == ps[0].valueText
          && AllOnlyLiteralsReplaced(ps[0].kids, qs[0].kids)
          && PropsOnlyLiteralsReplaced(ps[1..], qs[1..]))
  }

  lemma {:induction false} VisitOnlyReplacesLiterals(cfg: Config, s: Scan, n: Node)
    ensures Visit(cfg, s, n).Visited? ==> OnlyLiteralsReplaced(n, Visit(cfg, s, n).out)
    decreases n, 1
  {
    if !cfg.SigningEnabled() {
      OnlyLiteralsReplacedReflexive(n);
    } else if !(n.ObjLit? && s.state == QSTypeReference) {
      ChildrenOnlyReplaceLiterals(cfg, Enter(s, n), n);
    }
  }

  lemma {:induction false} ChildrenOnlyReplaceLiterals(cfg: Config, s: Scan, n: Node)
    ensures VisitChildren(cfg, s, n).Visited? ==> OnlyLiteralsReplaced(n, VisitChildren(cfg, s, n).out)
    decreases n, 0
  {
    match n
    case VarDecl(kids) => ListOnlyReplacesLiterals(cfg, s, kids);
    case TypeRef(_, kids) => ListOnlyReplacesLiterals(cfg, s, kids);
    case Other(kids) => ListOnlyReplacesLiterals(cfg, s, kids);
    case ObjLit(props) => PropsOnlyReplaceLiterals(cfg, s, props);
    case Ident(_) =>
    case StrLit(_) =>
  }

  lemma {:induction false} ListOnlyReplacesLiterals(cfg: Config, s: Scan, ns: seq<Node>)
    ensures VisitAll(cfg, s, ns).Visited? ==> AllOnlyLiteralsReplaced(ns, VisitAll(cfg, s, ns).out)
    decreases ns
  {
    if ns != [] {
      VisitOnlyReplacesLiterals(cfg, s, ns[0]);
      var first := Visit(cfg, s, ns[0]);
      if first.Visited? {
        ListOnlyReplacesLiterals(cfg, first.scan, ns[1..]);
        var r := VisitAll(cfg, s, ns);
        if r.Visited? {
          assert r.out[0] == first.out && r.out[1..] == VisitAll(cfg, first.scan, ns[1..]).out;
        }
      }
    }
  }

  lemma {:induction false} PropsOnlyReplaceLiterals(cfg: Config, s: Scan, ps: seq<Prop>)
    ensures VisitProps(cfg, s, ps).Visited? ==> PropsOnlyLiteralsReplaced(ps, VisitProps(cfg, s, ps).out)
    decreases ps
  {
    if ps != [] {
      ListOnlyReplacesLiterals(cfg, s, ps[0].kids);
      var first := VisitAll(cfg, s, ps[0].kids);
      if first.Visited? {
        PropsOnlyReplaceLiterals(cfg, first.scan, ps[1..]);
        var r := VisitProps(cfg, s, ps);
        if r.Visited? {
          assert r.out[0] == ps[0].(kids := first.out) && r.out[1..] == VisitProps(cfg, first.scan, ps[1..]).out;
        }
      }
    }
  }

  lemma {:induction false} OnlyLiteralsReplacedReflexive(n: Node)
    ensures OnlyLiteralsReplaced(n, n)
    decreases n
  {
    match n
    case VarDecl(kids) => AllOnlyLiteralsReplacedReflexive(kids);
    case TypeRef(_, kids) => AllOnlyLiteralsReplacedReflexive(kids);
    case Other(kids) => AllOnlyLiteralsReplacedReflexive(kids);
    case ObjLit(_) =>
    case Ident(_) =>
    case StrLit(_) =>
  }

  lemma {:induction false} AllOnlyLiteralsReplacedReflexive(ns: seq<Node>)
    ensures AllOnlyLiteralsReplaced(ns, ns)
    decreases ns
  {
    if ns != [] {
      OnlyLiteralsReplacedReflexive(ns[0]);
      AllOnlyLiteralsReplacedReflexive(ns[1..]);
    }
  }

  /** Whatever the file holds, the transformed file is the original with some
      object literals replaced by `{ query, token }` literals and nothing else
      changed. */
  lemma TransformOnlyReplacesLiterals(cfg: Config, root: Node)
    ensures Transform(cfg, root).Ok? ==> OnlyLiteralsReplaced(root, Transform(cfg, root).value)
  {
    VisitOnlyReplacesLiterals(cfg, Initial, root);
  }

  // ---------------------------------------------------------------------------
  // Whole declarations, in the shape the test files use

  /** `const name: QueryScope = { query: `text` }` becomes
      `const name: QueryScope = { query: "text", token: "…" }`: the query is
      the template's raw text with its backticks stripped, so an interpolation
      such as `${querypart4}` stays in it as written. */
  lemma ScopeDeclarationSigned(cfg: Config, name: string, text: string, token: string)
    requires cfg.SigningEnabled()
    requires cfg.signRs256(Claims(QueryDigest(cfg, cfg.clientId.value, text), cfg.issuedAt),
                           cfg.privateKey.value) == Some(token)
    ensures Transform(cfg, VarDecl([Ident(name), TypeRef("QueryScope", [Ident("QueryScope")]),
                                    ObjLit([Prop(Some("query"), Some(['`'] + text + ['`']), [Ident("query")])])]))
         == Ok(VarDecl([Ident(name), TypeRef("QueryScope", [Ident("QueryScope")]), Replacement(text, token)]))
  {
    var raw := ['`'] + text + ['`'];
    var lit := ObjLit([Prop(Some("query"), Some(raw), [Ident("query")])]);
    var ty := TypeRef("QueryScope", [Ident("QueryScope")]);
    var decl := Scan(VariableDeclaration, None, None, None);
    var named := decl.(variableId := Some(name));
    var scope := named.(state := QSTypeReference);
    var done := Scan(Unknown, Some(name), Some(token), Some(text));
    assert StripQuotes(raw) == text by {
      assert raw[1..|raw| - 1] == text;
    }
    assert LastNamed(lit.props, "query") == Some(text) by {
      assert lit.props[..0] == [];
    }
    ScopeLiteralOutcome(cfg, scope, lit.props);
    assert VisitAll(cfg, scope, [lit]) == Visited([Replacement(text, token)], done) by {
      assert [lit][1..] == [] && [lit][0] == lit;
      assert [Replacement(text, token)] + [] == [Replacement(text, token)];
    }
    assert VisitAll(cfg, named, [ty, lit]) == Visited([ty, Replacement(text, token)], done) by {
      assert [Ident("QueryScope")][1..] == [];
      assert [Ident("QueryScope")] + [] == [Ident("QueryScope")];
      assert VisitAll(cfg, scope, [Ident("QueryScope")]) == Visited([Ident("QueryScope")], scope);
      assert Visit(cfg, named, ty) == Visited(ty, scope);
      assert [ty, lit][1..] == [lit] && [ty, lit][0] == ty;
      assert [ty] + [Replacement(text, token)] == [ty, Replacement(text, token)];
    }
    var kids := [Ident(name), ty, lit];
    assert VisitAll(cfg, decl, kids) == Visited([Ident(name), ty, Replacement(text, token)], done) by {
      assert Visit(cfg, decl, Ident(name)) == Visited(Ident(name), named);
      assert kids[1..] == [ty, lit] && kids[0] == Ident(name);
      assert [Ident(name)] + [ty, Replacement(text, token)] == [Ident(name), ty, Replacement(text, token)];
    }
    assert Visit(cfg, Initial, VarDecl(kids)) == Visited(VarDecl([Ident(name), ty, Replacement(text, token)]), done);
  }

  /** `const querypart2: QueryScopePart = '  2'` passes through untouched. */
  lemma PartDeclarationUntouched(cfg: Config, name: string, value: Node)
    requires !MentionsScopeType(value)
    ensures Transform(cfg, VarDecl([Ident(name), TypeRef("QueryScopePart", [Ident("QueryScopePart")]), value]))
         == Ok(VarDecl([Ident(name), TypeRef("QueryScopePart", [Ident("QueryScopePart")]), value]))
  {
    var n := VarDecl([Ident(name), TypeRef("QueryScopePart", [Ident("QueryScopePart")]), value]);
    assert !MentionsScopeType(n) by {
      var kids := n.kids;
      assert |"QueryScopePart"| != |"QueryScope"|;
      assert !AnyMentionsScopeType([Ident("QueryScopePart")]) by {
        assert [Ident("QueryScopePart")][1..] == [];
      }
      assert !AnyMentionsScopeType([value]) by {
        assert [value][1..] == [] && [value][0] == value;
      }
      assert !MentionsScopeType(kids[1]);
      assert kids[1..][1..] == [value] && kids[1..][0] == kids[1];
      assert !AnyMentionsScopeType(kids[1..]);
      assert !MentionsScopeType(kids[0]);
      assert !AnyMentionsScopeType(kids);
    }
    FileWithoutScopesUnchanged(cfg, n);
  }
}
