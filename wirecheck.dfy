/**
 * The wire checker's analysis pass as the program runs it: a pass object
 * that collects diagnostics, and the checker's methods, each proved to
 * compute what the functions of WirecheckSpec describe.
 */
module Wirecheck {
  import opened Basics
  import opened GoAst
  import opened GoStrings
  import opened WirecheckSpec

  /** The host's analysis pass: the package under analysis and what has been reported. */
  class Pass {
    const pkg: Package
    var diagnostics: seq<Diagnostic>

    constructor (pkg: Package)
      ensures this.pkg == pkg && diagnostics == []
    {
      this.pkg := pkg;
      diagnostics := [];
    }

    /** pass.Report: append one diagnostic. */
    method Report(d: Diagnostic)
      modifies this
      ensures diagnostics == old(diagnostics) + [d]
    {
      diagnostics := diagnostics + [d];
    }
  }

  /** isParameter: search every parameter group of `fd` for the name. */
  method IsParameter(ident: string, fd: FuncDecl) returns (b: bool)
    ensures b <==> IsParam(fd, ident)
  {
    var i := 0;
    while i < |fd.params|
      invariant 0 <= i <= |fd.params|
      invariant forall k :: 0 <= k < i ==> ident !in fd.params[k].names
    {
      var names := fd.params[i].names;
      var j := 0;
      while j < |names|
        invariant 0 <= j <= |names|
        invariant forall k :: 0 <= k < j ==> names[k] != ident
      {
        if names[j] == ident {
          return true;
        }
        j := j + 1;
      }
      i := i + 1;
    }
    return false;
  }

  /** extractProviderFromCall: add the name a call contributes, if any. */
  method ExtractProviderFromCall(c: CallSite, names: set<string>) returns (r: set<string>)
    ensures forall n :: n in r <==> n in names || ProviderOf(c) == Some(n)
  {
    r := names;
    match c.fun {
      case Ident(name) => r := r + {name};
      case Selector(_, sel) => r := r + {sel};
      case _ =>
    }
  }

  /** extractProviderFunctionsFromInitialize: add the names of every call in `fd`. */
  method ExtractProviderFunctionsFromInitialize(fd: FuncDecl, names: set<string>) returns (r: set<string>)
    ensures r == names + ProviderNames(CallsIn(fd.body))
  {
    var sites := CallsIn(fd.body);
    r := names;
    for i := 0 to |sites|
      invariant r == names + ProviderNames(sites[..i])
    {
      assert sites[..i + 1][..i] == sites[..i];
      r := ExtractProviderFromCall(sites[i], r);
    }
    assert sites[..|sites|] == sites;
  }

  /** containsFunction: is `name` on the call path? */
  method ContainsFunction(path: seq<string>, name: string) returns (b: bool)
    ensures b <==> name in path
  {
    for i := 0 to |path|
      invariant name !in path[..i]
    {
      if path[i] == name {
        return true;
      }
    }
    assert path[..|path|] == path;
    return false;
  }

  /** findMethodCallsInFunction: the calls `param.method(...)` of `fd`, in pre-order. */
  method FindMethodCallsInFunction(fd: FuncDecl) returns (calls: seq<MethodCall>)
    ensures calls == MethodCalls(fd)
    ensures forall m :: m in calls ==> IsParam(fd, m.receiver)
  {
    var sites := CallsIn(fd.body);
    calls := [];
    for i := 0 to |sites|
      invariant calls == FilterMap(MethodCallOf(fd), sites[..i])
    {
      assert sites[..i + 1][..i] == sites[..i];
      var c := sites[i];
      if c.fun.Selector? && c.fun.x.Ident? {
        var isParam := IsParameter(c.fun.x.name, fd);
        if isParam {
          calls := calls + [MethodCall(c.fun.x.name, c.fun.sel, c.pos, [])];
        }
      }
    }
    assert sites[..|sites|] == sites;
    MethodCallsSound(fd);
  }

  /** findFunctionCallsInFunction: the bare calls and the calls through an
      identifier of `fd`, in pre-order. */
  method FindFunctionCallsInFunction(fd: FuncDecl) returns (calls: seq<FunctionCall>)
    ensures calls == FunctionCalls(fd)
  {
    var sites := CallsIn(fd.body);
    calls := [];
    for i := 0 to |sites|
      invariant calls == FilterMap(FunctionCallAt, sites[..i])
    {
      assert sites[..i + 1][..i] == sites[..i];
      var c := sites[i];
      match c.fun {
        case Ident(name) =>
          calls := calls + [FunctionCall(name, c.pos, "")];
        case Selector(x, sel) =>
          if x.Ident? {
            calls := calls + [FunctionCall(sel, c.pos, x.name)];
          }
        case _ =>
      }
    }
    assert sites[..|sites|] == sites;
  }

  /** findFunctionDeclaration: scan the files and their declarations in order
      for a function named `name`; accept it only for an empty qualifier or
      one equal to the package name. */
  method FindFunctionDeclaration(pass: Pass, name: string, qualifier: string) returns (r: Option<FuncDecl>)
    ensures r == FindDecl(pass.pkg, name, qualifier)
  {
    var files := pass.pkg.files;
    ghost var ok := qualifier == "" || qualifier == pass.pkg.name;
    ghost var seen: seq<FuncDecl> := [];
    for i := 0 to |files|
      invariant seen == FuncDecls(files[..i])
      invariant ok ==> forall k :: 0 <= k < |seen| ==> seen[k].name != name
    {
      var decls := files[i].decls;
      for j := 0 to |decls|
        invariant seen == FuncDecls(files[..i]) + FuncDeclsOf(decls[..j])
        invariant ok ==> forall k :: 0 <= k < |seen| ==> seen[k].name != name
      {
        assert decls[..j + 1][..j] == decls[..j];
        if decls[j].Func? {
          var fd := decls[j].fd;
          if fd.name == name {
            if qualifier == "" || qualifier == pass.pkg.name {
              FuncDeclAtPrefix(files, i, j);
              FirstNamedAt(FuncDecls(files), name, |seen|);
              return Some(fd);
            }
          }
          seen := seen + [fd];
        }
      }
      assert decls[..|decls|] == decls;
      assert files[..i + 1][..i] == files[..i];
    }
    assert files[..|files|] == files;
    return None;
  }

  /** The checker, configured once with its settings. */
  class WireChecker {
    const settings: Settings

    constructor (settings: Settings)
      ensures this.settings == settings
    {
      this.settings := settings;
    }

    /** parseWireGenFile: the provider set of the wire-gen file, or the parse error. */
    method ParseWireGenFile(wireGenFile: ParseResult) returns (r: Result<set<string>>)
      ensures wireGenFile.ParseError? ==> r == Failure(wireGenFile.err)
      ensures wireGenFile.Parsed? ==> r == Success(Providers(wireGenFile.file))
    {
      if wireGenFile.ParseError? {
        return Failure(wireGenFile.err);
      }
      var decls := wireGenFile.file.decls;
      var wireFunctions: set<string> := {};
      for i := 0 to |decls|
        invariant wireFunctions == ProvidersOf(decls[..i])
      {
        assert decls[..i + 1][..i] == decls[..i];
        if decls[i].Func? {
          var fd := decls[i].fd;
          if IsInitializer(fd.name) {
            wireFunctions := ExtractProviderFunctionsFromInitialize(fd, wireFunctions);
          }
        }
      }
      assert decls[..|decls|] == decls;
      return Success(wireFunctions);
    }

    /** run: nothing without a wire-gen path; one diagnostic when it does not
        parse; otherwise scan every provider declared in the package. */
    method Run(pass: Pass, wireGenFile: ParseResult)
      modifies pass
      ensures pass.diagnostics == old(pass.diagnostics) + RunDiagnostics(settings, wireGenFile, pass.pkg)
    {
      if settings.wireGen == "" {
        return;
      }
      var wireFunctions := ParseWireGenFile(wireGenFile);
      if wireFunctions.Failure? {
        pass.Report(Diagnostic(0, "failed to parse wire-gen file " + settings.wireGen + ": " + wireFunctions.error));
        return;
      }
      ScanProviders(pass, wireFunctions.value);
    }

    /** The loop of run over the package's function declarations: each one whose
        name is a provider is analyzed from the path holding just its name. */
    method ScanProviders(pass: Pass, providers: set<string>)
      modifies pass
      ensures pass.diagnostics == old(pass.diagnostics)
        + Diagnostics(ScanDecls(Env(settings.recursive, pass.pkg), providers, FuncDecls(pass.pkg.files)))
    {
      var decls := FuncDecls(pass.pkg.files);
      ghost var env := Env(settings.recursive, pass.pkg);
      ghost var start := pass.diagnostics;
      for i := 0 to |decls|
        invariant pass.diagnostics == start + Diagnostics(ScanDecls(env, providers, decls[..i]))
      {
        assert decls[..i + 1][..i] == decls[..i];
        var fd := decls[i];
        ghost var done := Diagnostics(ScanDecls(env, providers, decls[..i]));
        if fd.name in providers {
          ghost var next := Diagnostics(Walk(env, fd, [fd.name]));
          DiagnosticsAppend(ScanDecls(env, providers, decls[..i]), Walk(env, fd, [fd.name]));
          AnalyzeProviderFunctionForTightCoupling(pass, fd, [fd.name]);
          assert pass.diagnostics == start + done + next == start + (done + next);
        } else {
          assert ScanDecls(env, providers, decls[..i + 1]) == ScanDecls(env, providers, decls[..i]) + [];
        }
      }
      assert decls[..|decls|] == decls;
    }

    /** analyzeProviderFunctionForTightCoupling: report the method calls on
        parameters of `fd`, then, in recursive mode, follow its calls. */
    method AnalyzeProviderFunctionForTightCoupling(pass: Pass, fd: FuncDecl, path: seq<string>)
      requires 1 <= |path| <= MaxExtendedPath + 1
      modifies pass
      ensures pass.diagnostics == old(pass.diagnostics) + Diagnostics(Walk(Env(settings.recursive, pass.pkg), fd, path))
      decreases MaxExtendedPath + 2 - |path|, 3
    {
      ghost var env := Env(settings.recursive, pass.pkg);
      var calls := FindMethodCallsInFunction(fd);
      ReportOwnCalls(pass, fd, calls, path);
      ghost var own := Own(fd, path);
      if settings.recursive {
        var functionCalls := FindFunctionCallsInFunction(fd);
        DiagnosticsAppend(own, WalkCalls(env, functionCalls, path));
        AnalyzeRecursiveFunctionCalls(pass, functionCalls, path);
      } else {
        assert own + [] == own;
      }
    }

    /** The reporting loop of analyzeProviderFunctionForTightCoupling: one
        diagnostic per method call of `fd`, its message assembled piece by piece. */
    method ReportOwnCalls(pass: Pass, fd: FuncDecl, calls: seq<MethodCall>, path: seq<string>)
      requires calls == MethodCalls(fd)
      modifies pass
      ensures pass.diagnostics == old(pass.diagnostics) + Diagnostics(Own(fd, path))
    {
      ghost var own := Own(fd, path);
      for i := 0 to |calls|
        invariant pass.diagnostics == old(pass.diagnostics) + Diagnostics(own[..i])
      {
        var call := calls[i].(callPath := path);
        var message := fd.name + "() directly calls " + call.receiver + "." + call.methodName + "() in wire provider function";
        if |path| > 1 {
          message := message + " (via call path: " + Join(path, " -> ") + ")";
        }
        assert own[i] == Finding(fd.name, call);
        assert message == Message(own[i]);
        DiagnosticsAppend(own[..i], [own[i]]);
        assert own[..i + 1] == own[..i] + [own[i]];
        pass.Report(Diagnostic(call.pos, message));
      }
      assert own[..|calls|] == own;
    }

    /** analyzeRecursiveFunctionCalls: stop on paths longer than 10; otherwise
        follow each call, in order, from the same path. */
    method AnalyzeRecursiveFunctionCalls(pass: Pass, functionCalls: seq<FunctionCall>, path: seq<string>)
      requires 1 <= |path| <= MaxExtendedPath + 1
      modifies pass
      ensures pass.diagnostics == old(pass.diagnostics) + Diagnostics(WalkCalls(Env(settings.recursive, pass.pkg), functionCalls, path))
      decreases MaxExtendedPath + 2 - |path|, 2
    {
      ghost var env := Env(settings.recursive, pass.pkg);
      DiagnosticsWalkCalls(env, functionCalls, path);
      if |path| > 10 {
        assert old(pass.diagnostics) + [] == old(pass.diagnostics);
        return;
      }
      for i := 0 to |functionCalls|
        invariant pass.diagnostics == old(pass.diagnostics) + Diagnostics(WalkEach(env, functionCalls[..i], path))
      {
        ghost var before := pass.diagnostics;
        FollowCall(pass, functionCalls[i], path);
        DiagnosticsWalkEachStep(env, functionCalls, i, path, old(pass.diagnostics), before, pass.diagnostics);
      }
    }

    /** The body of the loop of analyzeRecursiveFunctionCalls: skip a call whose
        name is on the path (the cycle guard) or that does not resolve in the
        package; otherwise analyze its declaration on the extended path. */
    method FollowCall(pass: Pass, funcCall: FunctionCall, path: seq<string>)
      requires 1 <= |path| <= MaxExtendedPath
      modifies pass
      ensures pass.diagnostics == old(pass.diagnostics) + Diagnostics(Visit(Env(settings.recursive, pass.pkg), funcCall, path))
      decreases MaxExtendedPath + 2 - |path|, 1
    {
      ghost var env := Env(settings.recursive, pass.pkg);
      var onPath := ContainsFunction(path, funcCall.funcName);
      if onPath {
        assert old(pass.diagnostics) + [] == old(pass.diagnostics);
        return;
      }
      var funcDecl := FindFunctionDeclaration(pass, funcCall.funcName, funcCall.pkg);
      if funcDecl.Some? {
        var newCallPath := path + [funcCall.funcName];
        VisitResolved(env, funcCall, path, funcDecl.value);
        AnalyzeProviderFunctionForTightCoupling(pass, funcDecl.value, newCallPath);
      } else {
        assert old(pass.diagnostics) + [] == old(pass.diagnostics);
      }
    }
  }
}
