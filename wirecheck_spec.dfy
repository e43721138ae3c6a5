/**
 * The wire checker as functions on values: what each step of the analyzer
 * computes, and the properties of those results.
 *
 * A run reads the generated initializer file (wire_gen.go), collects the
 * names of the provider functions called from its Initialize* functions,
 * and scans every function declaration of the analysed package whose name
 * is a provider for calls `param.method(...)` on one of its own parameters.
 * In recursive mode it also follows the in-package calls of each scanned
 * function, carrying the call path, skipping callees already on the path
 * and extending paths of length at most 10.
 */
module WirecheckSpec {
  import opened Basics
  import opened GoAst
  import opened GoStrings

  /** The analyzer's configuration: the `wire-gen` path and the `recursive` flag. */
  datatype Settings = Settings(wireGen: string, recursive: bool)

  /** What parser.ParseFile returns for the wire-gen path: a file, or the error's text. */
  datatype ParseResult = Parsed(file: File) | ParseError(err: string)

  /** The package under analysis: pass.Pkg.Name() and pass.Files. */
  datatype Package = Package(name: string, files: seq<File>)

  /** A call `receiver.method(...)` on a parameter, and the call path it was found on. */
  datatype MethodCall = MethodCall(receiver: string, methodName: string, pos: Pos, callPath: seq<string>)

  /** A call `name(...)` (pkg is "") or `pkg.name(...)` that the recursive walk may follow. */
  datatype FunctionCall = FunctionCall(funcName: string, pos: Pos, pkg: string)

  /** A method call found while scanning the function named `scanned`. */
  datatype Finding = Finding(scanned: string, call: MethodCall)

  datatype Diagnostic = Diagnostic(pos: Pos, message: string)

  /** Paths longer than this are not extended (the guard `len(callPath) > 10`). */
  const MaxExtendedPath := 10

  // ---------------------------------------------------------------------
  // Collecting the hits of a traversal

  /** The values `f` yields along `s`, in order: how the analyzer's
      ast.Inspect callbacks append one entry per matching call. */
  function FilterMap<A, B>(f: A -> Option<B>, s: seq<A>): seq<B>
  {
    if s == [] then []
    else FilterMap(f, s[..|s| - 1]) + (match f(s[|s| - 1]) case Some(b) => [b] case None => [])
  }

  /** The indices of `s` at which `f` yields a value, ascending. */
  function Hits<A, B>(f: A -> Option<B>, s: seq<A>): seq<nat>
  {
    if s == [] then [] else Hits(f, s[..|s| - 1]) + (if f(s[|s| - 1]).Some? then [|s| - 1] else [])
  }

  /** FilterMap keeps exactly one entry per index where `f` yields a value, in
      index order, and nothing else: no entry is merged with another. */
  lemma {:induction false} FilterMapHits<A, B>(f: A -> Option<B>, s: seq<A>)
    ensures |FilterMap(f, s)| == |Hits(f, s)|
    ensures forall k :: 0 <= k < |Hits(f, s)| ==>
      Hits(f, s)[k] < |s| && f(s[Hits(f, s)[k]]) == Some(FilterMap(f, s)[k])
    ensures forall k, l :: 0 <= k < l < |Hits(f, s)| ==> Hits(f, s)[k] < Hits(f, s)[l]
    ensures forall j :: 0 <= j < |s| && f(s[j]).Some? ==> j in Hits(f, s)
    decreases |s|
  {
    if s != [] {
      var n := |s| - 1;
      var s' := s[..n];
      FilterMapHits(f, s');
      var hs, fs := Hits(f, s'), FilterMap(f, s');
      var tail := if f(s[n]).Some? then [n] else [];
      assert Hits(f, s) == hs + tail;
      assert FilterMap(f, s) == fs + (if f(s[n]).Some? then [f(s[n]).value] else []);
      forall k | 0 <= k < |hs|
        ensures Hits(f, s)[k] < |s| && f(s[Hits(f, s)[k]]) == Some(FilterMap(f, s)[k])
      {
        assert Hits(f, s)[k] == hs[k] && s'[hs[k]] == s[hs[k]];
        assert FilterMap(f, s)[k] == fs[k];
      }
      forall j | 0 <= j < |s| && f(s[j]).Some?
        ensures j in Hits(f, s)
      {
        if j < n {
          assert s'[j] == s[j];
          assert j in hs;
        }
      }
    }
  }

  // ---------------------------------------------------------------------
  // Provider discovery (parseWireGenFile, extractProvider*)

  /** The name test of parseWireGenFile; the `== "Initialize"` case is a prefix case too. */
  predicate IsInitializer(name: string)
  {
    name == "Initialize" || "Initialize" <= name
  }

  /** extractProviderFromCall: the bare name of `Foo()`, the selected name of `x.Foo()`. */
  function ProviderOf(c: CallSite): Option<string>
  {
    match c.fun
    case Ident(name) => Some(name)
    case Selector(_, sel) => Some(sel)
    case _ => None
  }

  /** The provider names of a sequence of call sites. */
  function ProviderNames(sites: seq<CallSite>): set<string>
  {
    if sites == [] then {}
    else
      ProviderNames(sites[..|sites| - 1])
      + (match ProviderOf(sites[|sites| - 1]) case Some(p) => {p} case None => {})
  }

  /** The call sites a declaration contributes: all of its calls if it is an
      Initialize* function, none otherwise. */
  function InitializerCalls(d: Decl): seq<CallSite>
  {
    if d.Func? && IsInitializer(d.fd.name) then CallsIn(d.fd.body) else []
  }

  /** The provider set of declarations `decls`, declaration by declaration. */
  function ProvidersOf(decls: seq<Decl>): set<string>
  {
    if decls == [] then {}
    else ProvidersOf(decls[..|decls| - 1]) + ProviderNames(InitializerCalls(decls[|decls| - 1]))
  }

  /** The provider set of the wire-gen file. */
  function Providers(file: File): set<string>
  {
    ProvidersOf(file.decls)
  }

  lemma {:induction false} ProviderNamesExactly(sites: seq<CallSite>, name: string)
    ensures name in ProviderNames(sites) <==> exists j :: 0 <= j < |sites| && ProviderOf(sites[j]) == Some(name)
    decreases |sites|
  {
    if sites != [] {
      var n := |sites| - 1;
      ProviderNamesExactly(sites[..n], name);
      assert forall j :: 0 <= j < n ==> sites[..n][j] == sites[j];
      if name in ProviderNames(sites) && name !in ProviderNames(sites[..n]) {
        assert ProviderOf(sites[n]) == Some(name);
      }
    }
  }

  /** A name is a provider exactly when some Initialize* function of the file
      calls it bare or through a selector; other call shapes add nothing. */
  lemma {:induction false} ProvidersExactly(decls: seq<Decl>, name: string)
    ensures name in ProvidersOf(decls) <==>
      exists i, j :: 0 <= i < |decls| && 0 <= j < |InitializerCalls(decls[i])|
        && ProviderOf(InitializerCalls(decls[i])[j]) == Some(name)
    decreases |decls|
  {
    if decls != [] {
      var n := |decls| - 1;
      var front := decls[..n];
      ProvidersExactly(front, name);
      ProviderNamesExactly(InitializerCalls(decls[n]), name);
      if name in ProvidersOf(decls) {
        if name in ProvidersOf(front) {
          var i, j :| 0 <= i < |front| && 0 <= j < |InitializerCalls(front[i])|
                      && ProviderOf(InitializerCalls(front[i])[j]) == Some(name);
          assert front[i] == decls[i];
        }
      } else {
        forall i, j | 0 <= i < |decls| && 0 <= j < |InitializerCalls(decls[i])|
          ensures ProviderOf(InitializerCalls(decls[i])[j]) != Some(name)
        {
          if i < n {
            assert front[i] == decls[i];
          }
        }
      }
    }
  }

  /** The provider set of the wire-gen file is exactly the set of names that
      some call inside one of its Initialize* functions contributes. */
  lemma ProvidersOfFile(file: File, name: string)
    ensures name in Providers(file) <==>
      exists i, j :: 0 <= i < |file.decls| && 0 <= j < |InitializerCalls(file.decls[i])|
        && ProviderOf(InitializerCalls(file.decls[i])[j]) == Some(name)
  {
    ProvidersExactly(file.decls, name);
  }

  // ---------------------------------------------------------------------
  // The coupling scan (findMethodCallsInFunction, isParameter)

  /** isParameter: `name` is declared in the parameter list; receivers do not count. */
  predicate IsParam(fd: FuncDecl, name: string)
  {
    exists i :: 0 <= i < |fd.params| && name in fd.params[i].names
  }

  /** The finding of one call site: a call `x.sel(...)` whose `x` is a parameter identifier. */
  function MethodCallAt(fd: FuncDecl, c: CallSite): Option<MethodCall>
  {
    match c.fun
    case Selector(Ident(x), sel) => if IsParam(fd, x) then Some(MethodCall(x, sel, c.pos, [])) else None
    case _ => None
  }

  function MethodCallOf(fd: FuncDecl): CallSite -> Option<MethodCall>
  {
    c => MethodCallAt(fd, c)
  }

  /** The method calls on parameters in `fd`, in the pre-order of its call sites. */
  function MethodCalls(fd: FuncDecl): seq<MethodCall>
  {
    FilterMap(MethodCallOf(fd), CallsIn(fd.body))
  }

  /** The only call sites that yield a method call are `x.sel(...)` on a parameter `x`. */
  lemma MethodCallAtShape(fd: FuncDecl, c: CallSite, m: MethodCall)
    requires MethodCallAt(fd, c) == Some(m)
    ensures c == CallSite(m.pos, Selector(Ident(m.receiver), m.methodName))
    ensures IsParam(fd, m.receiver) && m.callPath == []
  {
    match c.fun
    case Selector(Ident(x), sel) =>
    case _ =>
  }

  /** Every method call found names a parameter of `fd` and comes from a call
      site `receiver.method(...)` on that very identifier. */
  lemma MethodCallsSound(fd: FuncDecl)
    ensures forall m :: m in MethodCalls(fd) ==>
      IsParam(fd, m.receiver) && m.callPath == [] &&
      CallSite(m.pos, Selector(Ident(m.receiver), m.methodName)) in CallsIn(fd.body)
  {
    var sites, ms, f := CallsIn(fd.body), MethodCalls(fd), MethodCallOf(fd);
    FilterMapHits(f, sites);
    var hs := Hits(f, sites);
    forall m | m in ms
      ensures IsParam(fd, m.receiver) && m.callPath == []
      ensures CallSite(m.pos, Selector(Ident(m.receiver), m.methodName)) in sites
    {
      var k :| 0 <= k < |ms| && ms[k] == m;
      var j := hs[k];
      assert f(sites[j]) == Some(m);
      MethodCallAtShape(fd, sites[j], m);
    }
  }

  /** Every call `x.sel(...)` whose `x` is a parameter of `fd` is found. */
  lemma MethodCallsComplete(fd: FuncDecl, j: nat)
    requires j < |CallsIn(fd.body)|
    requires CallsIn(fd.body)[j].fun.Selector? && CallsIn(fd.body)[j].fun.x.Ident?
    requires IsParam(fd, CallsIn(fd.body)[j].fun.x.name)
    ensures var c := CallsIn(fd.body)[j];
      MethodCall(c.fun.x.name, c.fun.sel, c.pos, []) in MethodCalls(fd)
  {
    var sites, ms, f := CallsIn(fd.body), MethodCalls(fd), MethodCallOf(fd);
    var c := sites[j];
    assert f(c) == Some(MethodCall(c.fun.x.name, c.fun.sel, c.pos, []));
    FilterMapHits(f, sites);
    var hs := Hits(f, sites);
    var k :| 0 <= k < |hs| && hs[k] == j;
    assert ms[k] == MethodCall(c.fun.x.name, c.fun.sel, c.pos, []);
  }

  // ---------------------------------------------------------------------
  // Call extraction and resolution (findFunctionCallsInFunction, findFunctionDeclaration)

  /** The call a call site makes: `name(...)` with no qualifier, or `q.name(...)`
      on an identifier `q`; any other callee shape is not followed. */
  function FunctionCallAt(c: CallSite): Option<FunctionCall>
  {
    match c.fun
    case Ident(name) => Some(FunctionCall(name, c.pos, ""))
    case Selector(Ident(q), sel) => Some(FunctionCall(sel, c.pos, q))
    case _ => None
  }

  /** The calls of `fd` the recursive walk may follow, in pre-order. */
  function FunctionCalls(fd: FuncDecl): seq<FunctionCall>
  {
    FilterMap(FunctionCallAt, CallsIn(fd.body))
  }

  /** Every extracted call comes from a bare call or a call through an identifier,
      and every such call site is extracted. */
  lemma FunctionCallsExact(fd: FuncDecl)
    ensures forall fc :: fc in FunctionCalls(fd) ==>
      (fc.pkg == "" && CallSite(fc.pos, Ident(fc.funcName)) in CallsIn(fd.body)) ||
      CallSite(fc.pos, Selector(Ident(fc.pkg), fc.funcName)) in CallsIn(fd.body)
    ensures forall c :: c in CallsIn(fd.body) && c.fun.Ident? ==>
      FunctionCall(c.fun.name, c.pos, "") in FunctionCalls(fd)
    ensures forall c :: c in CallsIn(fd.body) && c.fun.Selector? && c.fun.x.Ident? ==>
      FunctionCall(c.fun.sel, c.pos, c.fun.x.name) in FunctionCalls(fd)
  {
    var sites, fcs := CallsIn(fd.body), FunctionCalls(fd);
    FilterMapHits(FunctionCallAt, sites);
    var hs := Hits(FunctionCallAt, sites);
    forall fc | fc in fcs
      ensures (fc.pkg == "" && CallSite(fc.pos, Ident(fc.funcName)) in sites) ||
              CallSite(fc.pos, Selector(Ident(fc.pkg), fc.funcName)) in sites
    {
      var k :| 0 <= k < |fcs| && fcs[k] == fc;
      var c := sites[hs[k]];
      assert FunctionCallAt(c) == Some(fc);
      match c.fun
      case Ident(_) =>
      case Selector(Ident(_), _) =>
    }
    forall c | c in sites && (c.fun.Ident? || (c.fun.Selector? && c.fun.x.Ident?))
      ensures FunctionCallAt(c).Some? && FunctionCallAt(c).value in fcs
    {
      var j :| 0 <= j < |sites| && sites[j] == c;
      var k :| 0 <= k < |hs| && hs[k] == j;
      assert fcs[k] == FunctionCallAt(c).value;
    }
  }

  /** The first declaration named `name`, in file and declaration order. */
  function FirstNamed(decls: seq<FuncDecl>, name: string): (r: Option<FuncDecl>)
    ensures r.Some? ==> exists i :: 0 <= i < |decls| && decls[i] == r.value && r.value.name == name
                                    && forall k :: 0 <= k < i ==> decls[k].name != name
    ensures r.None? ==> forall k :: 0 <= k < |decls| ==> decls[k].name != name
  {
    if decls == [] then None
    else if decls[0].name == name then Some(decls[0])
    else
      var r := FirstNamed(decls[1..], name);
      assert r.Some? ==> exists i :: 0 <= i < |decls| && decls[i] == r.value
                                     && forall k :: 0 <= k < i ==> decls[k].name != name by {
        if r.Some? {
          var i :| 0 <= i < |decls[1..]| && decls[1..][i] == r.value
                   && forall k :: 0 <= k < i ==> decls[1..][k].name != name;
          assert decls[i + 1] == r.value;
          assert forall k :: 0 <= k < i + 1 ==> decls[k].name != name by {
            forall k | 0 <= k < i + 1 ensures decls[k].name != name {
              if k > 0 { assert decls[k] == decls[1..][k - 1]; }
            }
          }
        }
      }
      r
  }

  /** The declaration at the first index holding `name` is the one found. */
  lemma {:induction false} FirstNamedAt(decls: seq<FuncDecl>, name: string, i: nat)
    requires i < |decls| && decls[i].name == name
    requires forall k :: 0 <= k < i ==> decls[k].name != name
    ensures FirstNamed(decls, name) == Some(decls[i])
    decreases i
  {
    if i > 0 {
      assert decls[0].name != name;
      FirstNamedAt(decls[1..], name, i - 1);
    }
  }

  /** findFunctionDeclaration: a call `qualifier.name` resolves to the first
      declaration named `name` in the package, and only when the qualifier is
      empty or the package's own name. */
  function FindDecl(pkg: Package, name: string, qualifier: string): (r: Option<FuncDecl>)
    ensures r.Some? ==> r.value.name == name && r.value in FuncDecls(pkg.files)
                        && (qualifier == "" || qualifier == pkg.name)
    ensures r.None? <==> (qualifier != "" && qualifier != pkg.name)
                         || forall d :: d in FuncDecls(pkg.files) ==> d.name != name
  {
    if qualifier == "" || qualifier == pkg.name then FirstNamed(FuncDecls(pkg.files), name) else None
  }

  // ---------------------------------------------------------------------
  // The walk over one provider (analyzeProviderFunctionForTightCoupling,
  // analyzeRecursiveFunctionCalls)

  /** What a walk needs besides its arguments: the `recursive` setting and the package. */
  datatype Env = Env(recursive: bool, pkg: Package)

  /** The findings of one scan of `fd`, each tagged with the current call path. */
  function Own(fd: FuncDecl, path: seq<string>): seq<Finding>
  {
    var ms := MethodCalls(fd);
    seq(|ms|, i requires 0 <= i < |ms| => Finding(fd.name, ms[i].(callPath := path)))
  }

  /** Scan `fd` reached along `path`, then, in recursive mode, the functions it
      calls: its own findings come first, and they are all there is without
      recursion. */
  function Walk(env: Env, fd: FuncDecl, path: seq<string>): (r: seq<Finding>)
    requires 1 <= |path| <= MaxExtendedPath + 1
    ensures Own(fd, path) <= r
    ensures !env.recursive ==> r == Own(fd, path)
    decreases MaxExtendedPath + 2 - |path|, 2
  {
    Own(fd, path) + (if env.recursive then WalkCalls(env, FunctionCalls(fd), path) else [])
  }

  /** Follow `calls` from `path`, unless the path is already too long to extend:
      nothing is found from a path of more than 10 names. */
  function WalkCalls(env: Env, calls: seq<FunctionCall>, path: seq<string>): (r: seq<Finding>)
    requires 1 <= |path| <= MaxExtendedPath + 1
    ensures |path| > MaxExtendedPath ==> r == []
    decreases MaxExtendedPath + 2 - |path|, 1
  {
    if |path| > MaxExtendedPath then [] else WalkEach(env, calls, path)
  }

  /** Follow every call in `calls`, in order, each from the same `path`. */
  function WalkEach(env: Env, calls: seq<FunctionCall>, path: seq<string>): seq<Finding>
    requires 1 <= |path| <= MaxExtendedPath
    decreases MaxExtendedPath + 2 - |path|, 0, |calls|
  {
    if calls == [] then []
    else
      WalkEach(env, calls[..|calls| - 1], path) + Visit(env, calls[|calls| - 1], path)
  }

  /** Following one more call of a list adds that call's visit at the end. */
  lemma WalkEachStep(env: Env, calls: seq<FunctionCall>, i: nat, path: seq<string>)
    requires i < |calls| && 1 <= |path| <= MaxExtendedPath
    ensures WalkEach(env, calls[..i + 1], path) == WalkEach(env, calls[..i], path) + Visit(env, calls[i], path)
  {
    assert calls[..i + 1][..i] == calls[..i];
  }

  /** A call not on the path that resolves to `d` is followed into `d`. */
  lemma VisitResolved(env: Env, c: FunctionCall, path: seq<string>, d: FuncDecl)
    requires 1 <= |path| <= MaxExtendedPath
    requires c.funcName !in path && FindDecl(env.pkg, c.funcName, c.pkg) == Some(d)
    ensures Visit(env, c, path) == Walk(env, d, path + [c.funcName])
  {
  }

  /** Follow one call: nothing when its name is already on the path (the cycle
      guard) or it does not resolve; otherwise the walk of its declaration on
      the extended path. */
  function Visit(env: Env, c: FunctionCall, path: seq<string>): (r: seq<Finding>)
    requires 1 <= |path| <= MaxExtendedPath
    ensures c.funcName in path ==> r == []
    decreases MaxExtendedPath + 2 - |path|, 0, 0
  {
    if c.funcName in path then []
    else match FindDecl(env.pkg, c.funcName, c.pkg)
      case None => []
      case Some(d) => Walk(env, d, path + [c.funcName])
  }

  /** A call path the walk can be on when it scans the function `name`:
      non-empty, at most 11 long, without repeats, ending in `name`. */
  predicate PathInvariant(path: seq<string>, name: string)
  {
    1 <= |path| <= MaxExtendedPath + 1 && NoDup(path) && Last(path) == name
  }

  /** `f` was found on a path extending `root`, in a function of the package
      (or in `fd` itself) whose parameter list declares the receiver. */
  ghost predicate FoundBelow(env: Env, fd: FuncDecl, root: seq<string>, f: Finding)
  {
    root <= f.call.callPath && PathInvariant(f.call.callPath, f.scanned)
    && exists d :: (d == fd || d in FuncDecls(env.pkg.files)) && d.name == f.scanned && IsParam(d, f.call.receiver)
  }

  /** The scan of `fd` tags each of its findings with `path` and the name of `fd`. */
  lemma OwnFindings(fd: FuncDecl, path: seq<string>)
    ensures forall f :: f in Own(fd, path) ==>
      f.scanned == fd.name && f.call.callPath == path && IsParam(fd, f.call.receiver)
  {
    MethodCallsSound(fd);
    var ms := MethodCalls(fd);
    forall f | f in Own(fd, path)
      ensures f.scanned == fd.name && f.call.callPath == path && IsParam(fd, f.call.receiver)
    {
      var i :| 0 <= i < |ms| && Own(fd, path)[i] == f;
      assert ms[i] in ms;
    }
  }

  /** Every finding of a walk from a well-formed path lies on a duplicate-free
      path of length at most 11 that extends the starting path and ends in the
      scanned function, whose parameters declare the receiver. */
  lemma {:induction false} WalkFindings(env: Env, fd: FuncDecl, path: seq<string>)
    requires PathInvariant(path, fd.name)
    ensures forall f :: f in Walk(env, fd, path) ==> FoundBelow(env, fd, path, f)
    decreases MaxExtendedPath + 2 - |path|, 2
  {
    OwnFindings(fd, path);
    forall f | f in Own(fd, path) ensures FoundBelow(env, fd, path, f) {
      assert f.call.callPath == path;
    }
    if env.recursive {
      WalkCallsFindings(env, FunctionCalls(fd), path);
      forall f | f in WalkCalls(env, FunctionCalls(fd), path) ensures FoundBelow(env, fd, path, f) {
        assert FoundInPackage(env, path, f);
      }
    }
  }

  /** `f` was found on a path properly extending `root`, in a function of the
      package whose parameters declare the receiver. */
  ghost predicate FoundInPackage(env: Env, root: seq<string>, f: Finding)
  {
    root < f.call.callPath && PathInvariant(f.call.callPath, f.scanned)
    && exists d :: d in FuncDecls(env.pkg.files) && d.name == f.scanned && IsParam(d, f.call.receiver)
  }

  lemma {:induction false} WalkCallsFindings(env: Env, calls: seq<FunctionCall>, path: seq<string>)
    requires 1 <= |path| <= MaxExtendedPath + 1 && NoDup(path)
    ensures forall f :: f in WalkCalls(env, calls, path) ==> FoundInPackage(env, path, f)
    decreases MaxExtendedPath + 2 - |path|, 1
  {
    if |path| <= MaxExtendedPath {
      WalkEachFindings(env, calls, path);
    }
  }

  lemma {:induction false} WalkEachFindings(env: Env, calls: seq<FunctionCall>, path: seq<string>)
    requires 1 <= |path| <= MaxExtendedPath && NoDup(path)
    ensures forall f :: f in WalkEach(env, calls, path) ==> FoundInPackage(env, path, f)
    decreases MaxExtendedPath + 2 - |path|, 0, |calls|
  {
    if calls != [] {
      WalkEachFindings(env, calls[..|calls| - 1], path);
      VisitFindings(env, calls[|calls| - 1], path);
    }
  }

  /** Following a call never revisits a name on the path: the callee's name is
      appended only when it is absent, so the longer path stays duplicate-free. */
  lemma {:induction false} VisitFindings(env: Env, c: FunctionCall, path: seq<string>)
    requires 1 <= |path| <= MaxExtendedPath && NoDup(path)
    ensures c.funcName in path ==> Visit(env, c, path) == []
    ensures FindDecl(env.pkg, c.funcName, c.pkg).None? ==> Visit(env, c, path) == []
    ensures forall f :: f in Visit(env, c, path) ==>
      |f.call.callPath| > |path| && f.call.callPath[|path|] == c.funcName
    ensures forall f :: f in Visit(env, c, path) ==> FoundInPackage(env, path, f)
    decreases MaxExtendedPath + 2 - |path|, 0, 0
  {
    if c.funcName !in path {
      match FindDecl(env.pkg, c.funcName, c.pkg)
      case None =>
      case Some(d) =>
        var next := path + [c.funcName];
        assert NoDup(next) by {
          forall i, j | 0 <= i < j < |next| ensures next[i] != next[j] {
            if j == |path| { assert next[i] == path[i]; }
          }
        }
        WalkFindings(env, d, next);
        forall f | f in Walk(env, d, next)
          ensures FoundInPackage(env, path, f)
          ensures |f.call.callPath| > |path| && f.call.callPath[|path|] == c.funcName
        {
          assert FoundBelow(env, d, next, f);
          assert next <= f.call.callPath;
          assert path < next;
        }
    }
  }

  // ---------------------------------------------------------------------
  // Diagnostics

  const PathSeparator := " -> "
  const ViaPrefix := " (via call path: "

  /** The message without the call-path suffix; it names the scanned function,
      the receiver and the method around 47 characters of fixed text. */
  function BaseMessage(f: Finding): (r: string)
    ensures |r| == |f.scanned| + |f.call.receiver| + |f.call.methodName| + 47
  {
    f.scanned + "() directly calls " + f.call.receiver + "." + f.call.methodName + "() in wire provider function"
  }

  /** The diagnostic text of a finding: the call-path suffix is added exactly
      when the finding lies below the provider itself. */
  function Message(f: Finding): (r: string)
    ensures |f.call.callPath| <= 1 <==> r == BaseMessage(f)
  {
    BaseMessage(f)
    + (if |f.call.callPath| > 1 then ViaPrefix + Join(f.call.callPath, PathSeparator) + ")" else "")
  }

  /** The message starts with the base text, ends in ')' exactly when a call-path
      suffix is present, i.e. when the path is longer than the provider alone, and
      the path can be read back from that suffix when its names hold no blank. */
  lemma MessageShape(f: Finding)
    requires forall i :: 0 <= i < |f.call.callPath| ==> ' ' !in f.call.callPath[i]
    ensures var m, b := Message(f), BaseMessage(f);
      b <= m && (m[|m| - 1] == ')' <==> |f.call.callPath| > 1)
      && (|f.call.callPath| <= 1 ==> m == b)
      && (|f.call.callPath| > 1 ==> Split(m[|b| + |ViaPrefix| .. |m| - 1], PathSeparator) == f.call.callPath)
  {
    var m, b, p := Message(f), BaseMessage(f), f.call.callPath;
    if |p| > 1 {
      var j := Join(p, PathSeparator);
      assert m == b + ViaPrefix + j + ")";
      assert m[|b| + |ViaPrefix| .. |m| - 1] == j;
      SplitJoin(p, PathSeparator);
    } else {
      assert m == b + "";
    }
  }

  /** One diagnostic per finding, at the call site, in order. */
  function Diagnostics(fs: seq<Finding>): seq<Diagnostic>
  {
    seq(|fs|, i requires 0 <= i < |fs| => Diagnostic(fs[i].call.pos, Message(fs[i])))
  }

  lemma DiagnosticsAppend(a: seq<Finding>, b: seq<Finding>)
    ensures Diagnostics(a + b) == Diagnostics(a) + Diagnostics(b)
  {
  }

  /** Reporting the findings of one more call of a list reports that call's
      findings after those of the calls before it. */
  lemma DiagnosticsWalkEachAppend(env: Env, calls: seq<FunctionCall>, i: nat, path: seq<string>)
    requires i < |calls| && 1 <= |path| <= MaxExtendedPath
    ensures Diagnostics(WalkEach(env, calls[..i + 1], path))
      == Diagnostics(WalkEach(env, calls[..i], path)) + Diagnostics(Visit(env, calls[i], path))
  {
    WalkEachStep(env, calls, i, path);
    DiagnosticsAppend(WalkEach(env, calls[..i], path), Visit(env, calls[i], path));
  }

  /** The loop step of analyzeRecursiveFunctionCalls: if `before` extends
      `start` by the first `i` calls' diagnostics and `after` extends `before`
      by those of call `i`, then `after` extends `start` by the first `i + 1`
      calls' diagnostics. */
  lemma DiagnosticsWalkEachStep(env: Env, calls: seq<FunctionCall>, i: nat, path: seq<string>,
                                start: seq<Diagnostic>, before: seq<Diagnostic>, after: seq<Diagnostic>)
    requires i < |calls| && 1 <= |path| <= MaxExtendedPath
    requires before == start + Diagnostics(WalkEach(env, calls[..i], path))
    requires after == before + Diagnostics(Visit(env, calls[i], path))
    ensures after == start + Diagnostics(WalkEach(env, calls[..i + 1], path))
  {
    DiagnosticsWalkEachAppend(env, calls, i, path);
    ExtendedTwice(start, before, after, Diagnostics(WalkEach(env, calls[..i], path)),
      Diagnostics(Visit(env, calls[i], path)));
  }

  /** What following all of `calls` reports: nothing from a path of more than
      10 names, otherwise the findings of the calls one after another. */
  lemma DiagnosticsWalkCalls(env: Env, calls: seq<FunctionCall>, path: seq<string>)
    requires 1 <= |path| <= MaxExtendedPath + 1
    ensures |path| > MaxExtendedPath ==> Diagnostics(WalkCalls(env, calls, path)) == []
    ensures |path| <= MaxExtendedPath ==>
      Diagnostics(WalkCalls(env, calls, path)) == Diagnostics(WalkEach(env, calls[..|calls|], path))
  {
    assert calls[..|calls|] == calls;
  }

  // ---------------------------------------------------------------------
  // A whole run (run)

  /** Walk from every declaration of `decls` whose name is a provider, in order,
      each from the path holding its own name. */
  function ScanDecls(env: Env, providers: set<string>, decls: seq<FuncDecl>): seq<Finding>
  {
    if decls == [] then []
    else
      var d := decls[|decls| - 1];
      ScanDecls(env, providers, decls[..|decls| - 1])
      + (if d.name in providers then Walk(env, d, [d.name]) else [])
  }

  /** The findings of a run that parsed the wire-gen file into `file`. */
  function RunFindings(settings: Settings, file: File, pkg: Package): seq<Finding>
  {
    ScanDecls(Env(settings.recursive, pkg), Providers(file), FuncDecls(pkg.files))
  }

  /** The text of the one diagnostic a failed wire-gen parse produces. */
  function ParseFailureMessage(path: string, err: string): string
  {
    "failed to parse wire-gen file " + path + ": " + err
  }

  /** Everything a run reports, in order. `wireGenFile` is what parsing the file
      at `settings.wireGen` gives; it is not consulted when that path is empty.
      Without a wire-gen path a run reports nothing; with one that does not parse
      it reports exactly the parse failure, at position 0; otherwise it reports
      one diagnostic per finding, in order, at the finding's call site. */
  function RunDiagnostics(settings: Settings, wireGenFile: ParseResult, pkg: Package): (r: seq<Diagnostic>)
    ensures settings.wireGen == "" ==> r == []
    ensures settings.wireGen != "" && wireGenFile.ParseError? ==>
      r == [Diagnostic(0, ParseFailureMessage(settings.wireGen, wireGenFile.err))]
    ensures settings.wireGen != "" && wireGenFile.Parsed? ==>
      var fs := RunFindings(settings, wireGenFile.file, pkg);
      |r| == |fs| && forall i :: 0 <= i < |r| ==> r[i] == Diagnostic(fs[i].call.pos, Message(fs[i]))
  {
    if settings.wireGen == "" then []
    else match wireGenFile
      case ParseError(err) => [Diagnostic(0, ParseFailureMessage(settings.wireGen, err))]
      case Parsed(file) => Diagnostics(RunFindings(settings, file, pkg))
  }

  /** Every finding of a scan starts at a provider declared in the package, lies
      on a well-formed path, and names a parameter of a declared function with
      the scanned name. Without recursion the path is the provider alone. */
  lemma {:induction false} ScanDeclsFindings(env: Env, providers: set<string>, decls: seq<FuncDecl>)
    requires forall d :: d in decls ==> d in FuncDecls(env.pkg.files)
    ensures forall f :: f in ScanDecls(env, providers, decls) ==>
      PathInvariant(f.call.callPath, f.scanned)
      && f.call.callPath[0] in providers
      && (exists d :: d in FuncDecls(env.pkg.files) && d.name == f.scanned && IsParam(d, f.call.receiver))
      && (!env.recursive ==> f.call.callPath == [f.scanned])
    decreases |decls|
  {
    if decls != [] {
      var n := |decls| - 1;
      var d := decls[n];
      ScanDeclsFindings(env, providers, decls[..n]);
      if d.name in providers {
        assert PathInvariant([d.name], d.name);
        WalkFindings(env, d, [d.name]);
        OwnFindings(d, [d.name]);
        forall f | f in Walk(env, d, [d.name])
          ensures f.call.callPath[0] in providers
          ensures exists d' :: d' in FuncDecls(env.pkg.files) && d'.name == f.scanned && IsParam(d', f.call.receiver)
          ensures !env.recursive ==> f.call.callPath == [f.scanned]
        {
          assert FoundBelow(env, d, [d.name], f);
          assert [d.name] <= f.call.callPath;
        }
      }
    }
  }

  /** The properties of every finding of a whole run. */
  lemma RunFindingsWellFormed(settings: Settings, file: File, pkg: Package)
    ensures forall f :: f in RunFindings(settings, file, pkg) ==>
      PathInvariant(f.call.callPath, f.scanned)
      && f.call.callPath[0] in Providers(file)
      && (exists d :: d in FuncDecls(pkg.files) && d.name == f.scanned && IsParam(d, f.call.receiver))
      && (!settings.recursive ==> f.call.callPath == [f.scanned])
  {
    ScanDeclsFindings(Env(settings.recursive, pkg), Providers(file), FuncDecls(pkg.files));
  }
}
