/** The transformer as the program runs it: one `Transformer` object per
    source file holds the closure variables `state`, `variableId`, `token` and
    `query`, and its methods update them node by node. Each method is proved to
    do what the functions of `Scanner` say. */
module Tokenizer {
  import opened Results
  import opened Syntax
  import opened Signer
  import opened Scanner

  /** A method's result `r` and the state `now` it leaves agree with the
      specification's outcome `v`; after a fault the state is not looked at,
      since the pass is over. */
  predicate Agrees<T(==)>(v: Visited<T>, r: Outcome<T>, now: Scan) {
    match v
    case Visited(x, s) => r == Ok(x) && now == s
    case Aborted(e) => r == Fail(e)
  }

  /** Puts the already visited `done` in front of the outcome of the rest. */
  function Prefixed<T>(done: seq<T>, v: Visited<seq<T>>): Visited<seq<T>> {
    match v
    case Visited(rest, s) => Visited(done + rest, s)
    case Aborted(e) => Aborted(e)
  }

  class Transformer {
    const cfg: Config
    var state: QSState
    var variableId: Option<string>
    var token: Option<string>
    var query: Option<string>

    /** The closure variables as one value. */
    function Current(): Scan
      reads this
    {
      Scan(state, variableId, token, query)
    }

    /** The closure created for each source file. */
    constructor (cfg: Config)
      ensures this.cfg == cfg && Current() == Initial
    {
      this.cfg := cfg;
      state := Unknown;
      variableId := None;
      token := None;
      query := None;
    }

    /** `visitor(n)`. */
    method Visitor(n: Node) returns (r: Outcome<Node>)
      modifies this
      decreases n, 1
      ensures Agrees(Visit(cfg, old(Current()), n), r, Current())
    {
      if cfg.clientId.None? || cfg.privateKey.None? {
        return Ok(n);
      }
      if n.VarDecl? {
        state := VariableDeclaration;
        variableId := None;
        token := None;
        query := None;
      } else if state == VariableDeclaration && n.Ident? {
        variableId := Some(n.text);
      } else if state == VariableDeclaration && n.TypeRef? {
        if n.text == "QueryScope" {
          state := QSTypeReference;
        } else {
          state := Unknown;
        }
      } else if state == QSTypeReference && n.ObjLit? {
        r := RewriteScope(n.props);
        return;
      }
      r := VisitEachChild(n);
    }

    /** The scope-literal branch of the visitor. */
    method RewriteScope(ps: seq<Prop>) returns (r: Outcome<Node>)
      requires cfg.SigningEnabled()
      modifies this
      ensures Agrees(ScopeLiteral(cfg, old(Current()), ps), r, Current())
    {
      var fault := ScanProperties(ps);
      if fault.Some? {
        return Fail(fault.value);
      }
      state := Unknown;
      if query.Some? {
        var signed := SyncSignQueryDigest(cfg, query.value);
        if signed.Fail? {
          return Fail(signed.fault);
        }
        token := signed.value;
        if token.Some? {
          return Ok(Replacement(query.value, token.value));
        } else {
          return Ok(ObjLit(ps));
        }
      } else {
        return Ok(ObjLit(ps));
      }
    }

    /** The loop `for (const p of node.properties)`: each property's value text
        is stripped of its quotes and stored in `query` or `token` by name. */
    method ScanProperties(ps: seq<Prop>) returns (fault: Option<Fault>)
      modifies this`query, this`token
      ensures match ScanProps(ps, old(Fields(query, token)))
        case Ok(f) => fault == None && query == f.query && token == f.token
        case Fail(e) => fault == Some(e)
    {
      var i := 0;
      while i < |ps|
        invariant 0 <= i <= |ps|
        invariant ScanProps(ps[..i], old(Fields(query, token))) == Ok(Fields(query, token))
      {
        var p := ps[i];
        assert ps[..i + 1][..i] == ps[..i];
        if p.valueText.None? {
          ScanPropsFailurePersists(ps[..i + 1], ps[i + 1..], old(Fields(query, token)));
          assert ps[..i + 1] + ps[i + 1..] == ps;
          return Some(MissingInitializer);
        }
        var value := StripQuotes(p.valueText.value);
        if p.name == Some("query") {
          query := Some(value);
        } else if p.name == Some("token") {
          token := Some(value);
        }
        i := i + 1;
      }
      assert ps[..i] == ps;
      return None;
    }

    /** `ts.visitEachChild(n, visitor, context)`. */
    method VisitEachChild(n: Node) returns (r: Outcome<Node>)
      modifies this
      decreases n, 0
      ensures Agrees(VisitChildren(cfg, old(Current()), n), r, Current())
    {
      match n
      case VarDecl(kids) =>
        var kids' := VisitNodes(kids);
        r := if kids'.Ok? then Ok(VarDecl(kids'.value)) else Fail(kids'.fault);
      case TypeRef(text, kids) =>
        var kids' := VisitNodes(kids);
        r := if kids'.Ok? then Ok(TypeRef(text, kids'.value)) else Fail(kids'.fault);
      case Other(kids) =>
        var kids' := VisitNodes(kids);
        r := if kids'.Ok? then Ok(Other(kids'.value)) else Fail(kids'.fault);
      case ObjLit(props) =>
        var props' := VisitProperties(props);
        r := if props'.Ok? then Ok(ObjLit(props'.value)) else Fail(props'.fault);
      case Ident(_) =>
        r := Ok(n);
      case StrLit(_) =>
        r := Ok(n);
    }

    /** Visits a list of children left to right. */
    method VisitNodes(ns: seq<Node>) returns (r: Outcome<seq<Node>>)
      modifies this
      decreases ns
      ensures Agrees(VisitAll(cfg, old(Current()), ns), r, Current())
    {
      var out: seq<Node> := [];
      var i := 0;
      assert ns[i..] == ns;
      ghost var all := VisitAll(cfg, Current(), ns);
      if all.Visited? {
        assert out + all.out == all.out;
      }
      while i < |ns|
        invariant 0 <= i <= |ns|
        invariant Prefixed(out, VisitAll(cfg, Current(), ns[i..])) == VisitAll(cfg, old(Current()), ns)
      {
        assert ns[i..][0] == ns[i] && ns[i..][1..] == ns[i + 1..];
        var n' := Visitor(ns[i]);
        if n'.Fail? {
          return Fail(n'.fault);
        }
        ghost var rest := VisitAll(cfg, Current(), ns[i + 1..]);
        if rest.Visited? {
          assert (out + [n'.value]) + rest.out == out + ([n'.value] + rest.out);
        }
        out := out + [n'.value];
        i := i + 1;
      }
      assert out + [] == out;
      return Ok(out);
    }

    /** Visits the members of an object literal left to right. */
    method VisitProperties(ps: seq<Prop>) returns (r: Outcome<seq<Prop>>)
      modifies this
      decreases ps
      ensures Agrees(VisitProps(cfg, old(Current()), ps), r, Current())
    {
      var out: seq<Prop> := [];
      var i := 0;
      assert ps[i..] == ps;
      ghost var all := VisitProps(cfg, Current(), ps);
      if all.Visited? {
        assert out + all.out == all.out;
      }
      while i < |ps|
        invariant 0 <= i <= |ps|
        invariant Prefixed(out, VisitProps(cfg, Current(), ps[i..])) == VisitProps(cfg, old(Current()), ps)
      {
        assert ps[i..][0] == ps[i] && ps[i..][1..] == ps[i + 1..];
        var kids' := VisitNodes(ps[i].kids);
        if kids'.Fail? {
          return Fail(kids'.fault);
        }
        var p' := ps[i].(kids := kids'.value);
        ghost var rest := VisitProps(cfg, Current(), ps[i + 1..]);
        if rest.Visited? {
          assert (out + [p']) + rest.out == out + ([p'] + rest.out);
        }
        out := out + [p'];
        i := i + 1;
      }
      assert out + [] == out;
      return Ok(out);
    }
  }

  /** The transformer run on one source file with a fresh closure. */
  method TransformSourceFile(cfg: Config, root: Node) returns (r: Outcome<Node>)
    ensures r == Transform(cfg, root)
  {
    var t := new Transformer(cfg);
    r := t.Visitor(root);
  }
}
