/** Small worked inputs for the wire checker's specification. */
module WirecheckExamples {
  import opened Basics
  import opened GoAst
  import opened WirecheckSpec
  import GoStrings
  import MessageTexts

  /** func InitializeFoo() { x := ProvideA(); y := pkg.ProvideB(x) } */
  function InitializeFoo(): File
  {
    File([Func(FuncDecl("InitializeFoo", [], [], [
      Other([Ident("x"), Call(10, Ident("ProvideA"), [])]),
      Other([Ident("y"), Call(20, Selector(Ident("pkg"), "ProvideB"), [Ident("x")])])
    ]))])
  }

  /** The call sites of InitializeFoo, in source order. */
  lemma InitializeFooCalls()
    ensures InitializerCalls(InitializeFoo().decls[0])
      == [CallSite(10, Ident("ProvideA")), CallSite(20, Selector(Ident("pkg"), "ProvideB"))]
  {
    var d := InitializeFoo().decls[0];
    var a := CallSite(10, Ident("ProvideA"));
    var b := CallSite(20, Selector(Ident("pkg"), "ProvideB"));
    assert CallsOf(d.fd.body[0]) == [a];
    assert CallsOf(d.fd.body[1]) == [b];
    assert CallsIn(d.fd.body) == [a, b];
  }

  /** A file of one declaration provides what that declaration's calls name. */
  lemma ProvidersOfSingle(file: File)
    requires |file.decls| == 1
    ensures Providers(file) == ProviderNames(InitializerCalls(file.decls[0]))
  {
    assert file.decls[..0] == [];
    assert ProvidersOf(file.decls) == ProvidersOf(file.decls[..0]) + ProviderNames(InitializerCalls(file.decls[0]));
  }

  /** The qualifier `pkg` is dropped and both callees become providers. */
  lemma InitializeFooProviders()
    ensures Providers(InitializeFoo()) == {"ProvideA", "ProvideB"}
  {
    var a := CallSite(10, Ident("ProvideA"));
    var b := CallSite(20, Selector(Ident("pkg"), "ProvideB"));
    InitializeFooCalls();
    ProvidersOfSingle(InitializeFoo());
    assert [a, b][..1] == [a] && [a][..0] == [];
    assert ProviderNames([a, b]) == {"ProvideA", "ProvideB"};
  }

  /** func ProvideFoo(dep *Dep) *Foo { dep.Start(); return &Foo{dep} } */
  function ProvideFoo(): FuncDecl
  {
    FuncDecl("ProvideFoo", [], [Field(["dep"])], [
      Other([Call(30, Selector(Ident("dep"), "Start"), [])]),
      Other([Other([Ident("Foo"), Ident("dep")])])
    ])
  }

  lemma ProvideFooCalls()
    ensures MethodCalls(ProvideFoo()) == [MethodCall("dep", "Start", 30, [])]
    ensures FunctionCalls(ProvideFoo()) == [FunctionCall("Start", 30, "dep")]
  {
    var fd := ProvideFoo();
    var c := CallSite(30, Selector(Ident("dep"), "Start"));
    assert CallsOf(fd.body[0]) == [c];
    assert CallsOf(fd.body[1]) == [];
    assert CallsIn(fd.body) == [c];
    assert IsParam(fd, "dep") by { assert "dep" in fd.params[0].names; }
    assert [c][..0] == [];
  }

  /** Scanning the provider, even in recursive mode, yields one finding, on
      the path holding the provider alone. */
  lemma ProvideFooFinding()
    ensures Walk(Env(true, Package("app", [File([Func(ProvideFoo())])])), ProvideFoo(), ["ProvideFoo"])
      == [Finding("ProvideFoo", MethodCall("dep", "Start", 30, ["ProvideFoo"]))]
  {
    var fd := ProvideFoo();
    var env := Env(true, Package("app", [File([Func(fd)])]));
    ProvideFooCalls();
    var fc := FunctionCall("Start", 30, "dep");
    assert FindDecl(env.pkg, "Start", "dep") == None;
    assert [fc][..0] == [];
    assert WalkEach(env, [fc], ["ProvideFoo"]) == [];
  }

  lemma ProvideFooBaseMessage()
    ensures BaseMessage(Finding("ProvideFoo", MethodCall("dep", "Start", 30, ["ProvideFoo"])))
      == "ProvideFoo() directly calls dep.Start() in wire provider function"
  {
    MessageTexts.ProvideFooHead();
    MessageTexts.ProvideFooTail();
  }

  /** A finding on a path of length one is reported without a call path. */
  lemma ProvideFooMessage()
    ensures Message(Finding("ProvideFoo", MethodCall("dep", "Start", 30, ["ProvideFoo"])))
      == "ProvideFoo() directly calls dep.Start() in wire provider function"
  {
    var f := Finding("ProvideFoo", MethodCall("dep", "Start", 30, ["ProvideFoo"]));
    ProvideFooBaseMessage();
    assert Message(f) == BaseMessage(f) + "";
    assert BaseMessage(f) + "" == BaseMessage(f);
  }

  /** Walking a function whose calls are exactly `c1, c2`, in recursive mode and
      on a path that can still be extended: its own findings, then each visit. */
  lemma WalkTwoCalls(env: Env, fd: FuncDecl, path: seq<string>, c1: FunctionCall, c2: FunctionCall)
    requires env.recursive && 1 <= |path| <= MaxExtendedPath
    requires FunctionCalls(fd) == [c1, c2]
    ensures Walk(env, fd, path) == Own(fd, path) + Visit(env, c1, path) + Visit(env, c2, path)
  {
    var cs := [c1, c2];
    assert cs[..1] == [c1] && cs[..1][..0] == [];
    assert WalkEach(env, [c1], path) == WalkEach(env, [], path) + Visit(env, c1, path);
    assert WalkEach(env, cs, path) == WalkEach(env, [c1], path) + Visit(env, c2, path);
    assert WalkCalls(env, cs, path) == WalkEach(env, cs, path);
  }

  /** func A(dep *Dep) { B(dep) } */
  function CycleA(): FuncDecl
  {
    FuncDecl("A", [], [Field(["dep"])], [Other([Call(40, Ident("B"), [Ident("dep")])])])
  }

  /** func B(dep *Dep) { dep.M(); A(dep) } */
  function CycleB(): FuncDecl
  {
    FuncDecl("B", [], [Field(["dep"])], [
      Other([Call(50, Selector(Ident("dep"), "M"), [])]),
      Other([Call(60, Ident("A"), [Ident("dep")])])
    ])
  }

  function CyclePackage(): Package
  {
    Package("app", [File([Func(CycleA()), Func(CycleB())])])
  }

  lemma CycleACalls()
    ensures MethodCalls(CycleA()) == []
    ensures FunctionCalls(CycleA()) == [FunctionCall("B", 40, "")]
  {
    var ca := CallSite(40, Ident("B"));
    assert CallsIn(CycleA().body) == [ca];
    assert [ca][..0] == [];
  }

  lemma CycleBCalls()
    ensures MethodCalls(CycleB()) == [MethodCall("dep", "M", 50, [])]
    ensures FunctionCalls(CycleB()) == [FunctionCall("M", 50, "dep"), FunctionCall("A", 60, "")]
  {
    var b := CycleB();
    var cb1, cb2 := CallSite(50, Selector(Ident("dep"), "M")), CallSite(60, Ident("A"));
    assert CallsOf(b.body[0]) == [cb1];
    assert CallsOf(b.body[1]) == [cb2];
    assert CallsIn(b.body) == [cb1, cb2];
    assert IsParam(b, "dep") by { assert "dep" in b.params[0].names; }
    assert [cb1, cb2][..1] == [cb1] && [cb1][..0] == [];
  }

  lemma CycleDecls()
    ensures FuncDecls(CyclePackage().files) == [CycleA(), CycleB()]
  {
    var a, b := CycleA(), CycleB();
    var files := CyclePackage().files;
    var decls := files[0].decls;
    assert decls[..1][..0] == [] && decls[..1] == [Func(a)];
    assert FuncDeclsOf(decls[..1]) == [a];
    assert FuncDeclsOf(decls) == [a, b];
    assert files[..0] == [];
  }

  lemma CycleCalls()
    ensures MethodCalls(CycleA()) == []
    ensures FunctionCalls(CycleA()) == [FunctionCall("B", 40, "")]
    ensures MethodCalls(CycleB()) == [MethodCall("dep", "M", 50, [])]
    ensures FunctionCalls(CycleB()) == [FunctionCall("M", 50, "dep"), FunctionCall("A", 60, "")]
    ensures FuncDecls(CyclePackage().files) == [CycleA(), CycleB()]
  {
    CycleACalls();
    CycleBCalls();
    CycleDecls();
  }

  lemma CycleResolves()
    ensures FindDecl(CyclePackage(), "B", "") == Some(CycleB())
    ensures FindDecl(CyclePackage(), "M", "dep") == None
  {
    CycleCalls();
    FirstNamedAt([CycleA(), CycleB()], "B", 1);
  }

  lemma CycleVisitsFromB()
    ensures Visit(Env(true, CyclePackage()), FunctionCall("M", 50, "dep"), ["A", "B"]) == []
    ensures Visit(Env(true, CyclePackage()), FunctionCall("A", 60, ""), ["A", "B"]) == []
  {
    CycleResolves();
  }

  /** From B on the path A -> B, neither of B's calls is followed: `dep.M` does
      not resolve and A is already on the path. */
  lemma CycleWalkFromB()
    ensures Walk(Env(true, CyclePackage()), CycleB(), ["A", "B"])
      == [Finding("B", MethodCall("dep", "M", 50, ["A", "B"]))]
  {
    CycleCalls();
    CycleVisitsFromB();
    WalkTwoCalls(Env(true, CyclePackage()), CycleB(), ["A", "B"], FunctionCall("M", 50, "dep"), FunctionCall("A", 60, ""));
    assert Own(CycleB(), ["A", "B"]) == [Finding("B", MethodCall("dep", "M", 50, ["A", "B"]))];
  }

  lemma CycleVisitB()
    ensures Visit(Env(true, CyclePackage()), FunctionCall("B", 40, ""), ["A"])
      == Walk(Env(true, CyclePackage()), CycleB(), ["A", "B"])
  {
    CycleResolves();
    VisitResolved(Env(true, CyclePackage()), FunctionCall("B", 40, ""), ["A"], CycleB());
    assert ["A"] + ["B"] == ["A", "B"];
  }

  /** A calls B calls A: from A the walk scans B once, on the path A -> B, and
      does not return to A. */
  lemma CycleWalk()
    ensures Walk(Env(true, CyclePackage()), CycleA(), ["A"])
      == [Finding("B", MethodCall("dep", "M", 50, ["A", "B"]))]
  {
    var env := Env(true, CyclePackage());
    var fa := FunctionCall("B", 40, "");
    CycleCalls();
    CycleWalkFromB();
    CycleVisitB();
    assert [fa][..0] == [];
    assert Own(CycleA(), ["A"]) == [];
    assert WalkEach(env, [fa], ["A"]) == WalkEach(env, [], ["A"]) + Visit(env, fa, ["A"]);
    assert WalkCalls(env, [fa], ["A"]) == Walk(env, CycleB(), ["A", "B"]);
  }

  lemma CyclePathText()
    ensures GoStrings.Join(["A", "B"], PathSeparator) == "A -> B"
  {
    assert ["A", "B"][1..] == ["B"];
    assert "A" + " -> " == "A -> ";
    assert "A -> " + "B" == "A -> B";
  }

  lemma CycleBaseMessage()
    ensures BaseMessage(Finding("B", MethodCall("dep", "M", 50, ["A", "B"])))
      == "B() directly calls dep.M() in wire provider function"
  {
    MessageTexts.CycleHead();
    MessageTexts.CycleTail();
  }

  lemma CycleViaText()
    ensures ViaPrefix + "A -> B" + ")" == " (via call path: A -> B)"
  {
    assert ViaPrefix + "A -> B" == " (via call path: A -> B";
  }

  /** A finding below the provider names the whole path in its message. */
  lemma CycleMessage()
    ensures Message(Finding("B", MethodCall("dep", "M", 50, ["A", "B"])))
      == "B() directly calls dep.M() in wire provider function (via call path: A -> B)"
  {
    CyclePathText();
    CycleBaseMessage();
    CycleViaText();
    MessageTexts.CycleWithPath();
  }

  // A chain of twelve functions, each calling a method on its parameter and
  // then the next function: F0 -> F1 -> ... -> F11.

  const ChainLength := 12

  function ChainName(i: nat): string
    requires i < 26
  {
    [(65 + i) as char]
  }

  /** func F_i(dep *Dep) { dep.M(); F_{i+1}(dep) } */
  function ChainDecl(i: nat): FuncDecl
    requires i < 25
  {
    FuncDecl(ChainName(i), [], [Field(["dep"])], [
      Other([Call(2 * i, Selector(Ident("dep"), "M"), [])]),
      Other([Call(2 * i + 1, Ident(ChainName(i + 1)), [Ident("dep")])])
    ])
  }

  function ChainDecls(): seq<FuncDecl>
  {
    seq(ChainLength, i requires 0 <= i < ChainLength => ChainDecl(i))
  }

  function ChainPackage(): Package
  {
    Package("app", [File(seq(ChainLength, i requires 0 <= i < ChainLength => Func(ChainDecls()[i])))])
  }

  /** The path F0, ..., F(k-1). */
  function ChainPath(k: nat): seq<string>
    requires k <= ChainLength
  {
    seq(k, i requires 0 <= i < k => ChainName(i))
  }

  /** The finding of F(k-1) on the path F0, ..., F(k-1). */
  function ChainFinding(k: nat): Finding
    requires 1 <= k <= ChainLength
  {
    Finding(ChainName(k - 1), MethodCall("dep", "M", 2 * (k - 1), ChainPath(k)))
  }

  /** The findings of F(k-1), ..., F10, in that order. */
  function ChainFindings(k: nat): seq<Finding>
    requires 1 <= k <= MaxExtendedPath + 1
    decreases MaxExtendedPath + 1 - k
  {
    [ChainFinding(k)] + if k <= MaxExtendedPath then ChainFindings(k + 1) else []
  }

  lemma {:induction false} FuncDeclsOfFuncs(ds: seq<FuncDecl>)
    ensures FuncDeclsOf(seq(|ds|, i requires 0 <= i < |ds| => Func(ds[i]))) == ds
    decreases |ds|
  {
    if ds != [] {
      var n := |ds| - 1;
      var decls := seq(|ds|, i requires 0 <= i < |ds| => Func(ds[i]));
      FuncDeclsOfFuncs(ds[..n]);
      assert decls[..n] == seq(n, i requires 0 <= i < n => Func(ds[..n][i]));
      assert ds[..n] + [ds[n]] == ds;
    }
  }

  lemma ChainCalls(i: nat)
    requires i < 25
    ensures MethodCalls(ChainDecl(i)) == [MethodCall("dep", "M", 2 * i, [])]
    ensures FunctionCalls(ChainDecl(i)) == [FunctionCall("M", 2 * i, "dep"), FunctionCall(ChainName(i + 1), 2 * i + 1, "")]
  {
    var fd := ChainDecl(i);
    var c1, c2 := CallSite(2 * i, Selector(Ident("dep"), "M")), CallSite(2 * i + 1, Ident(ChainName(i + 1)));
    var n1, n2 := Call(2 * i, Selector(Ident("dep"), "M"), []), Call(2 * i + 1, Ident(ChainName(i + 1)), [Ident("dep")]);
    assert CallsOf(Selector(Ident("dep"), "M")) == [];
    assert CallsIn([Ident("dep")]) == [] by { assert [Ident("dep")][1..] == []; }
    assert CallsOf(n1) == [c1];
    assert CallsOf(n2) == [c2];
    assert CallsIn([n1]) == [c1] by { assert [n1][1..] == []; }
    assert CallsIn([n2]) == [c2] by { assert [n2][1..] == []; }
    assert CallsOf(fd.body[0]) == [c1];
    assert CallsOf(fd.body[1]) == [c2];
    assert CallsIn(fd.body[1..]) == [c2] by { assert fd.body[1..][1..] == []; }
    assert CallsIn(fd.body) == [c1, c2];
    assert IsParam(fd, "dep") by { assert "dep" in fd.params[0].names; }
    assert [c1, c2][..1] == [c1] && [c1][..0] == [];
    assert MethodCallOf(fd)(c1) == Some(MethodCall("dep", "M", 2 * i, []));
    assert MethodCallOf(fd)(c2) == None;
    assert FilterMap(MethodCallOf(fd), [c1]) == [MethodCall("dep", "M", 2 * i, [])];
    assert FunctionCallAt(c1) == Some(FunctionCall("M", 2 * i, "dep"));
    assert FunctionCallAt(c2) == Some(FunctionCall(ChainName(i + 1), 2 * i + 1, ""));
    assert FilterMap(FunctionCallAt, [c1]) == [FunctionCall("M", 2 * i, "dep")];
  }

  /** The chain package declares F0, ..., F11 in that order. */
  lemma ChainFuncDecls()
    ensures FuncDecls(ChainPackage().files) == ChainDecls()
  {
    var pkg := ChainPackage();
    FuncDeclsOfFuncs(ChainDecls());
    assert pkg.files[..0] == [];
    assert FuncDecls(pkg.files) == FuncDecls(pkg.files[..0]) + FuncDeclsOf(pkg.files[0].decls);
  }

  /** In the chain package, F(k) resolves to its declaration and `dep.M` to nothing. */
  lemma ChainResolves(k: nat)
    requires k < ChainLength
    ensures FindDecl(ChainPackage(), ChainName(k), "") == Some(ChainDecl(k))
    ensures FindDecl(ChainPackage(), "M", "dep") == None
  {
    var ds := ChainDecls();
    ChainFuncDecls();
    forall j | 0 <= j < k ensures ds[j].name != ChainName(k) {
      assert ds[j].name[0] != ChainName(k)[0];
    }
    FirstNamedAt(ds, ChainName(k), k);
  }

  lemma ChainOwn(k: nat)
    requires 1 <= k <= ChainLength
    ensures Own(ChainDecl(k - 1), ChainPath(k)) == [ChainFinding(k)]
  {
    ChainCalls(k - 1);
  }

  lemma ChainNameFresh(k: nat)
    requires k < ChainLength
    ensures ChainName(k) !in ChainPath(k)
    ensures ChainPath(k) + [ChainName(k)] == ChainPath(k + 1)
  {
    var path := ChainPath(k);
    forall j | 0 <= j < k ensures path[j] != ChainName(k) {
      assert path[j][0] != ChainName(k)[0];
    }
  }

  function ChainEnv(): Env
  {
    Env(true, ChainPackage())
  }

  /** F(k-1) calls `dep.M`, which does not resolve, and then F(k), which does. */
  lemma ChainVisits(k: nat)
    requires 1 <= k <= MaxExtendedPath
    ensures Visit(ChainEnv(), FunctionCall("M", 2 * (k - 1), "dep"), ChainPath(k)) == []
    ensures Visit(ChainEnv(), FunctionCall(ChainName(k), 2 * (k - 1) + 1, ""), ChainPath(k))
      == Walk(ChainEnv(), ChainDecl(k), ChainPath(k + 1))
  {
    ChainResolves(k);
    ChainNameFresh(k);
  }

  /** Walking a function whose first call finds nothing reports its own
      findings and then what the second call finds. */
  lemma WalkSecondCall(env: Env, fd: FuncDecl, path: seq<string>, c1: FunctionCall, c2: FunctionCall,
                       own: seq<Finding>, rest: seq<Finding>)
    requires env.recursive && 1 <= |path| <= MaxExtendedPath
    requires FunctionCalls(fd) == [c1, c2]
    requires Own(fd, path) == own && Visit(env, c1, path) == [] && Visit(env, c2, path) == rest
    ensures Walk(env, fd, path) == own + rest
  {
    WalkTwoCalls(env, fd, path, c1, c2);
    assert own + [] == own;
  }

  /** One step down the chain: F(k-1) reports its own finding, then the walk of F(k). */
  lemma ChainStep(k: nat)
    requires 1 <= k <= MaxExtendedPath
    ensures Walk(ChainEnv(), ChainDecl(k - 1), ChainPath(k))
      == [ChainFinding(k)] + Walk(ChainEnv(), ChainDecl(k), ChainPath(k + 1))
  {
    ChainOwn(k);
    ChainCalls(k - 1);
    ChainVisits(k);
    WalkSecondCall(ChainEnv(), ChainDecl(k - 1), ChainPath(k),
      FunctionCall("M", 2 * (k - 1), "dep"), FunctionCall(ChainName(k), 2 * (k - 1) + 1, ""),
      [ChainFinding(k)], Walk(ChainEnv(), ChainDecl(k), ChainPath(k + 1)));
  }

  /** From F(k-1) on the path F0, ..., F(k-1), the walk scans F(k-1), ..., F10
      and stops: F10 is reached on a path of length 11, and F11 is not scanned. */
  lemma {:induction false} ChainWalkFrom(k: nat)
    requires 1 <= k <= MaxExtendedPath + 1
    ensures Walk(ChainEnv(), ChainDecl(k - 1), ChainPath(k)) == ChainFindings(k)
    decreases MaxExtendedPath + 1 - k
  {
    if k <= MaxExtendedPath {
      ChainStep(k);
      ChainWalkFrom(k + 1);
    } else {
      ChainOwn(k);
    }
  }

  /** Every finding of the chain's findings from F(k-1) on lies on a path of
      the chain, F(j-1) on F0, ..., F(j-1), for some k <= j <= 11. */
  lemma {:induction false} ChainFindingsShape(k: nat)
    requires 1 <= k <= MaxExtendedPath + 1
    ensures |ChainFindings(k)| == MaxExtendedPath + 2 - k
    ensures forall f :: f in ChainFindings(k) ==>
      exists j :: k <= j <= MaxExtendedPath + 1 && f == ChainFinding(j)
    decreases MaxExtendedPath + 1 - k
  {
    if k <= MaxExtendedPath {
      ChainFindingsShape(k + 1);
    }
  }

  /** Walking the chain from its provider F0 reports F0, ..., F10: the depth
      guard lets the path reach length 11, and the twelfth function is never
      scanned. */
  lemma ChainDepth()
    ensures var fs := Walk(ChainEnv(), ChainDecl(0), [ChainName(0)]);
      |fs| == 11
      && fs[10] == Finding(ChainName(10), MethodCall("dep", "M", 20, ChainPath(11)))
      && |fs[10].call.callPath| == MaxExtendedPath + 1
      && forall f :: f in fs ==> f.scanned != ChainName(11)
  {
    assert ChainPath(1) == [ChainName(0)];
    ChainWalkFrom(1);
    ChainFindingsShape(1);
    var fs := ChainFindings(1);
    forall f | f in fs ensures f.scanned != ChainName(11) {
      var j :| 1 <= j <= MaxExtendedPath + 1 && f == ChainFinding(j);
      assert f.scanned[0] != ChainName(11)[0];
    }
    ChainLast(1);
  }

  lemma {:induction false} ChainLast(k: nat)
    requires 1 <= k <= MaxExtendedPath + 1
    ensures |ChainFindings(k)| == MaxExtendedPath + 2 - k
    ensures ChainFindings(k)[|ChainFindings(k)| - 1] == ChainFinding(MaxExtendedPath + 1)
    decreases MaxExtendedPath + 1 - k
  {
    if k <= MaxExtendedPath {
      ChainLast(k + 1);
    }
  }
}
