/** The visitor of `transformer` as pure functions: the `QSState` machine, the
    property scan and the rewrite decision. A step takes the scan state (the
    closure variables `state`, `variableId`, `token`, `query`) and a node and
    gives the node to put in its place and the new scan state, or the fault
    that aborted the pass. */
module Scanner {
  import opened Results
  import opened Syntax
  import opened Signer

  datatype QSState =
    | Unknown
    | VariableDeclaration
    | QSTypeReference
    | QSObjectLiteralExpression

  /** The four variables the visitor closure updates. */
  datatype Scan = Scan(state: QSState, variableId: Option<string>, token: Option<string>, query: Option<string>)

  /** The closure's variables when a source file starts. */
  const Initial := Scan(Unknown, None, None, None)

  /** The result of visiting a node or a list of nodes. */
  datatype Visited<+T> = Visited(out: T, scan: Scan) | Aborted(fault: Fault)

  /** The values the property scan has found so far. */
  datatype Fields = Fields(query: Option<string>, token: Option<string>)

  /** The state change on entering a node, before its children are visited
      (every node except a scope literal, which `ScopeLiteral` handles). */
  function Enter(s: Scan, n: Node): (r: Scan)
    // a declaration of any binding kind starts a fresh scan
    ensures n.VarDecl? ==> r == Scan(VariableDeclaration, None, None, None)
    // right after a declaration, an identifier is remembered as its name
    ensures n.Ident? && s.state == VariableDeclaration ==> r == s.(variableId := Some(n.text))
    // right after a declaration, only the type text `QueryScope` selects a scope;
    // any other type, `QueryScopePart` included, abandons the declaration
    ensures n.TypeRef? && s.state == VariableDeclaration ==>
      r == s.(state := if n.text == "QueryScope" then QSTypeReference else Unknown)
    // nothing else changes the scan
    ensures !n.VarDecl? && !(s.state == VariableDeclaration && (n.Ident? || n.TypeRef?)) ==> r == s
  {
    match n
    case VarDecl(_) => Scan(VariableDeclaration, None, None, None)
    case Ident(text) =>
      if s.state == VariableDeclaration then s.(variableId := Some(text)) else s
    case TypeRef(text, _) =>
      if s.state == VariableDeclaration then
        s.(state := if text == "QueryScope" then QSTypeReference else Unknown)
      else s
    case _ => s
  }

  /** One iteration of the property loop: a property named `query` or `token`
      overwrites that field, any other name is ignored. */
  function Assign(f: Fields, name: Option<string>, value: string): Fields {
    if name == Some("query") then f.(query := Some(value))
    else if name == Some("token") then f.(token := Some(value))
    else f
  }

  /** The property loop over `ps` in order, starting from the fields `init`.
      Every property's value text is read before its name is tested, so any
      property without one aborts the scan. */
  function ScanProps(ps: seq<Prop>, init: Fields): Outcome<Fields>
  {
    if ps == [] then Ok(init)
    else
      match ScanProps(ps[..|ps| - 1], init)
      case Fail(e) => Fail(e)
      case Ok(f) =>
        var p := ps[|ps| - 1];
        if p.valueText.None? then Fail(MissingInitializer)
        else Ok(Assign(f, p.name, StripQuotes(p.valueText.value)))
  }

  /** The reference definition of what the scan finds: the stripped value of
      the last property called `name`, if any. */
  function LastNamed(ps: seq<Prop>, name: string): Option<string>
    requires forall i :: 0 <= i < |ps| ==> ps[i].valueText.Some?
  {
    if ps == [] then None
    else if ps[|ps| - 1].name == Some(name) then Some(StripQuotes(ps[|ps| - 1].valueText.value))
    else LastNamed(ps[..|ps| - 1], name)
  }

  predicate AllHaveValues(ps: seq<Prop>) {
    forall i :: 0 <= i < |ps| ==> ps[i].valueText.Some?
  }

  /** A scope literal, met in state `QSTypeReference`: scan its properties,
      leave the state `Unknown`, and if a query was found and the signer gives
      a token, put the two-field replacement in its place; otherwise the
      literal stays as it is, its children unvisited. */
  function ScopeLiteral(cfg: Config, s: Scan, ps: seq<Prop>): (r: Visited<Node>)
    ensures r.Visited? ==> r.scan.state == Unknown && r.scan.variableId == s.variableId
    ensures r.Visited? ==> r.out == ObjLit(ps) || exists q, t :: r.out == Replacement(q, t)
    ensures r.Visited? && r.out != ObjLit(ps) ==>
      r.scan.query.Some? && r.scan.token.Some? && r.out == Replacement(r.scan.query.value, r.scan.token.value)
  {
    match ScanProps(ps, Fields(s.query, s.token))
    case Fail(e) => Aborted(e)
    case Ok(f) =>
      var s1 := Scan(Unknown, s.variableId, f.token, f.query);
      if f.query.None? then Visited(ObjLit(ps), s1)
      else
        match SyncSignQueryDigest(cfg, f.query.value)
        case Fail(e) => Aborted(e)
        case Ok(token) =>
          var s2 := s1.(token := token);
          if token.Some? then Visited(Replacement(f.query.value, token.value), s2)
          else Visited(ObjLit(ps), s2)
  }

  /** `visitor(n)`: with a credential missing every node comes back as it is;
      a scope literal is handled by `ScopeLiteral`; every other node updates
      the state and then has its children visited in order. */
  function Visit(cfg: Config, s: Scan, n: Node): Visited<Node>
    decreases n, 1
  {
    if !cfg.SigningEnabled() then Visited(n, s)
    else if n.ObjLit? && s.state == QSTypeReference then ScopeLiteral(cfg, s, n.props)
    else VisitChildren(cfg, Enter(s, n), n)
  }

  /** `ts.visitEachChild(n, visitor, context)`. */
  function VisitChildren(cfg: Config, s: Scan, n: Node): Visited<Node>
    decreases n, 0
  {
    match n
    case VarDecl(kids) =>
      (match VisitAll(cfg, s, kids)
       case Visited(kids', s') => Visited(VarDecl(kids'), s')
       case Aborted(e) => Aborted(e))
    case TypeRef(text, kids) =>
      (match VisitAll(cfg, s, kids)
       case Visited(kids', s') => Visited(TypeRef(text, kids'), s')
       case Aborted(e) => Aborted(e))
    case Other(kids) =>
      (match VisitAll(cfg, s, kids)
       case Visited(kids', s') => Visited(Other(kids'), s')
       case Aborted(e) => Aborted(e))
    case ObjLit(props) =>
      (match VisitProps(cfg, s, props)
       case Visited(props', s') => Visited(ObjLit(props'), s')
       case Aborted(e) => Aborted(e))
    case Ident(_) => Visited(n, s)
    case StrLit(_) => Visited(n, s)
  }

  /** Visits `ns` left to right, threading the scan state. */
  function VisitAll(cfg: Config, s: Scan, ns: seq<Node>): Visited<seq<Node>>
    decreases ns
  {
    if ns == [] then Visited([], s)
    else
      match Visit(cfg, s, ns[0])
      case Aborted(e) => Aborted(e)
      case Visited(n', s1) =>
        match VisitAll(cfg, s1, ns[1..])
        case Aborted(e) => Aborted(e)
        case Visited(rest, s2) => Visited([n'] + rest, s2)
  }

  /** Visits the members of an object literal that is not a scope literal: a
      member is neither a declaration, an identifier, a type nor an object
      literal, so the visitor goes straight into its children. */
  function VisitProps(cfg: Config, s: Scan, ps: seq<Prop>): Visited<seq<Prop>>
    decreases ps
  {
    if ps == [] then Visited([], s)
    else
      match VisitAll(cfg, s, ps[0].kids)
      case Aborted(e) => Aborted(e)
      case Visited(kids', s1) =>
        match VisitProps(cfg, s1, ps[1..])
        case Aborted(e) => Aborted(e)
        case Visited(rest, s2) => Visited([ps[0].(kids := kids')] + rest, s2)
  }

  /** The transformer applied to one source file: a fresh closure state and
      `ts.visitNode(sourceFile, visitor)`. */
  function Transform(cfg: Config, root: Node): Outcome<Node> {
    match Visit(cfg, Initial, root)
    case Visited(n, _) => Ok(n)
    case Aborted(e) => Fail(e)
  }

  /** A scan that has failed stays failed whatever properties follow. */
  lemma {:induction false} ScanPropsFailurePersists(xs: seq<Prop>, ys: seq<Prop>, init: Fields)
    requires ScanProps(xs, init).Fail?
    ensures ScanProps(xs + ys, init) == ScanProps(xs, init)
    decreases |ys|
  {
    if ys == [] {
      assert xs + ys == xs;
    } else {
      var zs := xs + ys;
      assert zs[..|zs| - 1] == xs + ys[..|ys| - 1];
      ScanPropsFailurePersists(xs, ys[..|ys| - 1], init);
    }
  }
}
