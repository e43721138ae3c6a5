/**
 * The fragment of Go's syntax trees (package go/ast) that the wire checker
 * looks at, and the order in which ast.Inspect visits call expressions.
 *
 * Only the node kinds the analyzer tells apart get their own constructor;
 * every other node (statements, literals, parenthesised, indexed or unary
 * expressions, composite literals, ...) is `Other`, with its children in the
 * order ast.Inspect walks them. Positions are plain integers (token.Pos).
 */
module GoAst {

  type Pos = int

  /** One parameter group of a signature: `a, b int` has names ["a", "b"]. */
  datatype Field = Field(names: seq<string>)

  datatype Node =
    | Ident(name: string)
    | Selector(x: Node, sel: string)             // x.sel
    | Call(pos: Pos, fun: Node, args: seq<Node>) // fun(args...)
    | FuncLit(params: seq<Field>, body: seq<Node>)
    | Other(children: seq<Node>)

  /** A top-level function or method declaration. `recv` is empty for plain functions. */
  datatype FuncDecl = FuncDecl(name: string, recv: seq<Field>, params: seq<Field>, body: seq<Node>)

  /** A top-level declaration: a function, or any GenDecl (import, const, type, var). */
  datatype Decl = Func(fd: FuncDecl) | Gen

  datatype File = File(decls: seq<Decl>)

  /** What the analyzer keeps of one visited call expression. */
  datatype CallSite = CallSite(pos: Pos, fun: Node)

  /** The call expressions of `n` in the pre-order of ast.Inspect: a call
      comes before the calls nested in its callee and then in its arguments. */
  function CallsOf(n: Node): seq<CallSite>
    decreases n
  {
    match n
    case Ident(_) => []
    case Selector(x, _) => CallsOf(x)
    case Call(pos, fun, args) => [CallSite(pos, fun)] + CallsOf(fun) + CallsIn(args)
    case FuncLit(_, body) => CallsIn(body)
    case Other(children) => CallsIn(children)
  }

  /** The call expressions of a node list, node by node. */
  function CallsIn(ns: seq<Node>): seq<CallSite>
    decreases ns
  {
    if ns == [] then [] else CallsOf(ns[0]) + CallsIn(ns[1..])
  }

  /** The function declarations of a package, file by file, in declaration order. */
  function FuncDecls(files: seq<File>): seq<FuncDecl>
  {
    if files == [] then [] else FuncDecls(files[..|files| - 1]) + FuncDeclsOf(files[|files| - 1].decls)
  }

  /** The function declarations among `decls`, in order. */
  function FuncDeclsOf(decls: seq<Decl>): seq<FuncDecl>
  {
    if decls == [] then []
    else
      var d := decls[|decls| - 1];
      FuncDeclsOf(decls[..|decls| - 1]) + (if d.Func? then [d.fd] else [])
  }

  /** The declarations of the first `i` files come first. */
  lemma {:induction false} FuncDeclsPrefix(files: seq<File>, i: nat)
    requires i <= |files|
    ensures FuncDecls(files[..i]) <= FuncDecls(files)
    decreases |files|
  {
    if i < |files| {
      var n := |files| - 1;
      FuncDeclsPrefix(files[..n], i);
      assert files[..n][..i] == files[..i];
    } else {
      assert files[..i] == files;
    }
  }

  /** The function declarations among the first `j` declarations come first. */
  lemma {:induction false} FuncDeclsOfPrefix(decls: seq<Decl>, j: nat)
    requires j <= |decls|
    ensures FuncDeclsOf(decls[..j]) <= FuncDeclsOf(decls)
    decreases |decls|
  {
    if j < |decls| {
      var n := |decls| - 1;
      FuncDeclsOfPrefix(decls[..n], j);
      assert decls[..n][..j] == decls[..j];
    } else {
      assert decls[..j] == decls;
    }
  }

  /** When the `j`-th declaration of file `i` is a function, the declarations
      before it, followed by it, begin the package's list. */
  lemma FuncDeclAtPrefix(files: seq<File>, i: nat, j: nat)
    requires i < |files| && j < |files[i].decls| && files[i].decls[j].Func?
    ensures FuncDecls(files[..i]) + FuncDeclsOf(files[i].decls[..j]) + [files[i].decls[j].fd] <= FuncDecls(files)
  {
    var decls := files[i].decls;
    assert decls[..j + 1][..j] == decls[..j];
    assert FuncDeclsOf(decls[..j + 1]) == FuncDeclsOf(decls[..j]) + [decls[j].fd];
    FuncDeclsOfPrefix(decls, j + 1);
    assert files[..i + 1][..i] == files[..i];
    assert FuncDecls(files[..i + 1]) == FuncDecls(files[..i]) + FuncDeclsOf(decls);
    FuncDeclsPrefix(files, i + 1);
  }
}
