# wirecheck, alert-rule provenance and background-service dependencies in Dafny

This project models three pieces of Grafana's Go code and proves properties about them.

- **The `wirecheck` analysis pass** (`scripts/go/wirecheck/analyzer.go`). This is a linter for wire dependency injection.
  - It reads the generated wire initializer file and collects the names of provider functions. These are the functions called from any function whose name starts with `Initialize`.
  - It scans each provider declared in the analysed package for calls of the form `param.method(...)` on one of its own parameters, and reports a diagnostic for each one.
  - In recursive mode it also follows the provider's calls to other functions of the same package. A cycle guard skips names already on the call path. A depth guard stops extending paths that are already longer than 10.
- **Alert-rule extensions** (`apps/alerting/rules/pkg/apis/alerting/v0alpha1/alertrule_ext.go`). These are the provenance-status getter and setter over a rule's annotation map, and the two state accessors that fall back to defaults.
- **The background-service dependency map** (`pkg/registry/backgroundsvcs/adapter/dependencies.go`). This is the constant module graph `{GrafanaAPIServer: [], core: [GrafanaAPIServer], background-services: [], all: [core, background-services]}`, where the value of `GrafanaAPIServer` is a parameter.

Layout:

- `basics.dfy` — `Option`, `Result`, `NoDup`, `Last`, and a lemma about extending a sequence twice.
- `go_ast.dfy` — the fragment of the Go syntax tree the pass looks at.
  - `ast.Inspect`, restricted to call expressions, is the pre-order flattening `CallsOf`/`CallsIn`.
  - The `*ast.FuncDecl`s of a package, in file and declaration order, are `FuncDecls`.
- `go_strings.dfy` — `strings.Join`, and a `Split` used to read a call path back out of a message.
- `wirecheck_spec.dfy` — the pass as pure functions (`Providers`, `MethodCalls`, `FunctionCalls`, `FindDecl`, `Walk`, `Message`, `RunDiagnostics`) and the lemmas about them.
- `wirecheck.dfy` — the pass as the Go code runs it.
  - `Pass` collects diagnostics through `Report`.
  - `WireChecker` holds the settings.
  - Every loop and every recursive method is proved equal to the function that specifies it.
- `message_texts.dfy` — equalities between pieces of diagnostic text and whole texts, used by the examples. It has no counterpart in the Go code. These equalities are kept in a module with no imports because, proved there, they see only the sequence axioms and stay cheap.
- `wirecheck_examples.dfy` — concrete syntax trees that exercise the pass: an initializer, a direct finding, a two-function cycle, and a twelve-function chain that reaches the depth bound.
- `alertrule_ext.dfy` — `AlertRule` as a class whose `annotations` field the setter updates, and the pure accessors.
- `dependencies.dfy` — the dependency map and its startup-order properties.

Where a reader's expectation and the code differ, the model follows the code:

- **Depth.** The guard `len(callPath) > 10` (analyzer.go:257) is checked before the path is extended (analyzer.go:270). So functions are scanned on paths of up to 11 names, not 10. `WirecheckExamples.ChainDepth` exhibits the eleventh.
- **Message subject.** The message names the function being scanned (analyzer.go:169). That is the last name on the path, not the provider the walk started from.
- **Path aliasing.** The `append` at analyzer.go:270 may share a backing array between sibling calls. It only writes at or beyond the current length, so no live prefix is ever overwritten. Call paths are therefore modelled as immutable sequences.

## Model

| member | source | states |
|---|---|---|
| WirecheckSpec.FilterMapHits | scripts/go/wirecheck/analyzer.go:187-209 | collecting through an `ast.Inspect` callback keeps exactly one result per matching node: every kept result comes from a matching node, in ascending node order, and no matching node is skipped or merged |
| WirecheckSpec.ProviderNamesExactly | scripts/go/wirecheck/analyzer.go:141-160 | a name is collected from an initializer's calls iff some call's callee is that identifier or a selector with that `Sel` name |
| WirecheckSpec.ProvidersExactly | scripts/go/wirecheck/analyzer.go:118-160 | the provider set holds exactly the callee names of calls inside functions named `Initialize...`; qualifiers are dropped, duplicates collapse, and other call shapes add nothing |
| WirecheckSpec.ProvidersOfFile | scripts/go/wirecheck/analyzer.go:118-160 | the provider set of the wire-gen file holds a name iff some call inside one of its `Initialize...` functions has that name as its bare callee or as the selected name of a selector callee |
| WirecheckSpec.MethodCallsSound | scripts/go/wirecheck/analyzer.go:187-221 | every method call found has a receiver that is a declared parameter of the function and comes from a call `receiver.method(...)` in its body |
| WirecheckSpec.MethodCallsComplete | scripts/go/wirecheck/analyzer.go:187-221 | every call `x.m(...)` in the body whose `x` is a parameter name yields a finding with that receiver, method and position |
| WirecheckSpec.MethodCallAtShape | scripts/go/wirecheck/analyzer.go:191-200 | a call site matches only when its callee is a selector on a bare identifier that is a parameter, and the match records that identifier, the selected name and the position |
| WirecheckSpec.FunctionCallsExact | scripts/go/wirecheck/analyzer.go:224-252 | identifier calls are recorded with qualifier "", selector calls on an identifier with that identifier as qualifier, every such call is recorded, and nothing else is |
| WirecheckSpec.FirstNamed | scripts/go/wirecheck/analyzer.go:288-300 | the result is the earliest declaration with the name, and no result means no declaration has it |
| WirecheckSpec.FirstNamedAt | scripts/go/wirecheck/analyzer.go:288-300 | when index i holds the first declaration with the name, the search returns exactly that declaration |
| WirecheckSpec.FindDecl | scripts/go/wirecheck/analyzer.go:286-302 | a result is a package function with the requested name, found only when the qualifier is "" or the package name; no result iff the qualifier is foreign or no function has the name |
| WirecheckSpec.OwnFindings | scripts/go/wirecheck/analyzer.go:164-177 | each finding of one scan names the scanned function, carries the current call path and has a receiver that is one of its parameters |
| WirecheckSpec.Walk | scripts/go/wirecheck/analyzer.go:162-185 | the walk of a function reports its own findings first, and without recursive mode they are all it reports |
| WirecheckSpec.WalkCalls | scripts/go/wirecheck/analyzer.go:255-259 | nothing is found from a path of more than 10 names |
| WirecheckSpec.WalkEachStep | scripts/go/wirecheck/analyzer.go:261-273 | following one more call of the list appends that call's findings after those of the calls before it, each call followed from the same path |
| WirecheckSpec.Visit | scripts/go/wirecheck/analyzer.go:262-265 | a call whose name is already on the path finds nothing |
| WirecheckSpec.VisitResolved | scripts/go/wirecheck/analyzer.go:267-271 | a call not on the path that resolves to a declaration is followed into that declaration, on the path extended by the call's name |
| WirecheckSpec.WalkFindings | scripts/go/wirecheck/analyzer.go:162-185 | every finding of a walk from a valid path lies on an extension of that path that is duplicate-free, at most 11 long and ends in the function scanned, with a receiver that is a parameter of it |
| WirecheckSpec.WalkCallsFindings | scripts/go/wirecheck/analyzer.go:255-259 | the findings of following calls from a duplicate-free path lie on duplicate-free extensions of it that are at most 11 long, each scanning a package function whose name ends the path |
| WirecheckSpec.WalkEachFindings | scripts/go/wirecheck/analyzer.go:261-273 | the same bound for every call of the list, each followed from the same path |
| WirecheckSpec.VisitFindings | scripts/go/wirecheck/analyzer.go:262-272 | a call whose name is on the path finds nothing, and neither does one that does not resolve; every finding of a followed call lies on a path that extends the current one with the call's name next, stays duplicate-free and ends in a declared function whose parameter is the receiver |
| WirecheckSpec.BaseMessage | scripts/go/wirecheck/analyzer.go:169 | the body builds the text from the scanned function's name, the receiver and the method; the contract states that it is exactly 47 characters longer than those three together |
| WirecheckSpec.Message | scripts/go/wirecheck/analyzer.go:169-172 | the call-path suffix is added exactly when the path holds more than one name; a one-name path gives the base text |
| WirecheckSpec.MessageShape | scripts/go/wirecheck/analyzer.go:166-172 | the message starts with "<scanned>() directly calls <receiver>.<method>() in wire provider function", ends with ')' iff the call path is longer than one name, equals the base text otherwise, and the path can be read back from the suffix |
| WirecheckSpec.DiagnosticsAppend | scripts/go/wirecheck/analyzer.go:174-177 | reporting findings one after another yields the diagnostics of the concatenation |
| WirecheckSpec.RunDiagnostics | scripts/go/wirecheck/analyzer.go:80-116 | with no wire-gen path nothing is reported; with one that does not parse exactly one diagnostic, at position 0, "failed to parse wire-gen file <path>: <err>", is reported; otherwise one diagnostic per finding of the run, in order, at the call's position and with the finding's message |
| WirecheckSpec.ScanDeclsFindings | scripts/go/wirecheck/analyzer.go:101-113 | every finding of the package scan starts its path at a provider and satisfies the path invariant; without recursive mode its path is just the scanned function |
| WirecheckSpec.RunFindingsWellFormed | scripts/go/wirecheck/analyzer.go:101-116 | every finding of a run lies on a duplicate-free path of at most 11 names that starts at a provider and ends at a declared function whose parameter is the receiver; with recursion off the path is the provider alone |
| Wirecheck.Pass.Report | scripts/go/wirecheck/analyzer.go:174-177 | reporting appends the diagnostic and changes nothing else |
| Wirecheck.IsParameter | scripts/go/wirecheck/analyzer.go:211-221 | the nested loops answer true iff the name is declared in some field of the parameter list |
| Wirecheck.ExtractProviderFromCall | scripts/go/wirecheck/analyzer.go:151-160 | the set gains exactly the callee name of an identifier or selector call, and nothing for other shapes |
| Wirecheck.ExtractProviderFunctionsFromInitialize | scripts/go/wirecheck/analyzer.go:141-149 | the set gains exactly the provider names of the calls in the initializer's body |
| Wirecheck.ContainsFunction | scripts/go/wirecheck/analyzer.go:276-284 | the loop answers true iff the name is on the path |
| Wirecheck.FindMethodCallsInFunction | scripts/go/wirecheck/analyzer.go:187-209 | the traversal collects exactly the specified method calls, each on a parameter |
| Wirecheck.FindFunctionCallsInFunction | scripts/go/wirecheck/analyzer.go:224-252 | the traversal collects exactly the specified function calls, in pre-order |
| Wirecheck.FindFunctionDeclaration | scripts/go/wirecheck/analyzer.go:286-302 | the nested loops over files and declarations return the first function with the name, under the qualifier rule |
| Wirecheck.WireChecker.ParseWireGenFile | scripts/go/wirecheck/analyzer.go:118-139 | a parse error is passed on, and otherwise the result is the provider set of the file |
| Wirecheck.WireChecker.Run | scripts/go/wirecheck/analyzer.go:80-116 | the pass's diagnostics grow by exactly the specified diagnostics of the run |
| Wirecheck.WireChecker.ScanProviders | scripts/go/wirecheck/analyzer.go:101-113 | visiting the package's functions in order, the diagnostics grow by those of each provider's walk from the path holding its name |
| Wirecheck.WireChecker.AnalyzeProviderFunctionForTightCoupling | scripts/go/wirecheck/analyzer.go:162-185 | the diagnostics grow by those of the function's own method calls and then, in recursive mode, by those of following its calls from the same path: exactly the walk from the function |
| Wirecheck.WireChecker.ReportOwnCalls | scripts/go/wirecheck/analyzer.go:166-178 | the messages assembled piece by piece as the loop assembles them are the specified messages, and the diagnostics grow by one per method call of the function, in order |
| Wirecheck.WireChecker.AnalyzeRecursiveFunctionCalls | scripts/go/wirecheck/analyzer.go:254-274 | nothing is reported on paths longer than 10; otherwise each call not on the path that resolves is analyzed on the path extended by its name, in order |
| Wirecheck.WireChecker.FollowCall | scripts/go/wirecheck/analyzer.go:262-272 | a call on the path or one that does not resolve reports nothing; otherwise the diagnostics grow by the walk of the resolved declaration on the path extended by the call's name |
| WirecheckExamples.InitializeFooProviders | scripts/go/wirecheck/analyzer.go:128-160 | an initializer calling `ProvideA()` and `pkg.ProvideB(x)` yields exactly the providers ProvideA and ProvideB |
| WirecheckExamples.ProvideFooFinding | scripts/go/wirecheck/analyzer.go:162-185 | a provider calling `dep.Start()` on its parameter yields one finding, and the unresolved call `dep.Start` is not followed |
| WirecheckExamples.ProvideFooMessage | scripts/go/wirecheck/analyzer.go:169-172 | a finding on a one-name path is reported without a call-path suffix |
| WirecheckExamples.CycleWalk | scripts/go/wirecheck/analyzer.go:261-273 | in the cycle A -> B -> A, the walk from A reports B's method call on path A -> B and does not go back to A |
| WirecheckExamples.CycleMessage | scripts/go/wirecheck/analyzer.go:169-172 | a finding below the provider reads "B() directly calls dep.M() in wire provider function (via call path: A -> B)" |
| WirecheckExamples.ChainWalkFrom | scripts/go/wirecheck/analyzer.go:254-274 | walking a chain of calls goes down one function per step until the path holds 11 names, then stops |
| WirecheckExamples.ChainDepth | scripts/go/wirecheck/analyzer.go:257-271 | in a chain F0 -> ... -> F11 the walk from F0 reports 11 findings, the last on a path of 11 names, and F11 is never scanned |
| GoStrings.SplitJoin | scripts/go/wirecheck/analyzer.go:171 | joining a non-empty list of names that do not contain the separator's first character and splitting again gives back the names (an empty list joins to "", which splits to [""]) |
| AlertRuleExt.ProvenanceOf | apps/alerting/rules/pkg/apis/alerting/v0alpha1/alertrule_ext.go:3-12 | the status is "" iff the annotations map is nil; otherwise it is the stored value when that is non-empty, and "none" when the key is absent or its value empty, so an empty non-nil map gives "none" |
| AlertRuleExt.StoredStatus | apps/alerting/rules/pkg/apis/alerting/v0alpha1/alertrule_ext.go:18-20 | the value the setter stores is never empty: the given status when it is non-empty, "none" otherwise |
| AlertRuleExt.GetProvenanceStatus | apps/alerting/rules/pkg/apis/alerting/v0alpha1/alertrule_ext.go:3-6 | the getter returns "" iff the rule is nil or its annotations map is nil |
| AlertRuleExt.WithProvenance | apps/alerting/rules/pkg/apis/alerting/v0alpha1/alertrule_ext.go:14-22 | the annotations afterwards hold the provenance key with a non-empty value, the given status when it is non-empty, and every other entry exactly as before, starting from an empty map when there were none |
| AlertRuleExt.AlertRule.SetProvenanceStatus | apps/alerting/rules/pkg/apis/alerting/v0alpha1/alertrule_ext.go:14-22 | the setter replaces the annotations by the updated map, leaves the spec alone, and the getter then returns the status, or "none" for "" |
| AlertRuleExt.SetThenGet | apps/alerting/rules/pkg/apis/alerting/v0alpha1/alertrule_ext.go:3-22 | setting a status and reading it back gives the status, or "none" when "" was set |
| AlertRuleExt.SetCurrentKeepsStatus | apps/alerting/rules/pkg/apis/alerting/v0alpha1/alertrule_ext.go:3-22 | for a non-nil annotations map, writing back the status just read does not change what is read; for a nil map the getter reads "", and writing that back makes it read "none" |
| AlertRuleExt.NoDataStateOrDefault | apps/alerting/rules/pkg/apis/alerting/v0alpha1/alertrule_ext.go:30-35 | the result is "NoData" when the field is empty and the field otherwise, so it is never empty |
| AlertRuleExt.ExecErrStateOrDefault | apps/alerting/rules/pkg/apis/alerting/v0alpha1/alertrule_ext.go:37-42 | the result is "Error" when the field is empty and the field otherwise, so it is never empty |
| BackgroundDeps.DependencyMap | pkg/registry/backgroundsvcs/adapter/dependencies.go:27-34 | the map's keys are exactly the API server, core, background services and all, and every dependency it lists is itself a key |
| BackgroundDeps.DependencyMapShape | pkg/registry/backgroundsvcs/adapter/dependencies.go:27-34 | the map has exactly the four keys; the API server and background services depend on nothing, core on the API server, all on core then background services, and every dependency is a key |
| BackgroundDeps.DependencyMapStartup | pkg/registry/backgroundsvcs/adapter/dependencies.go:18-34 | API server, core, background services, all is a valid startup order, so the graph is acyclic, the API server starts first, nothing depends on all, and all reaches the API server through core |
| BackgroundDeps.ChainDescends | pkg/registry/backgroundsvcs/adapter/dependencies.go:18-23 | along any dependency chain, positions in a startup order strictly decrease |
| BackgroundDeps.StartupOrderAcyclic | pkg/registry/backgroundsvcs/adapter/dependencies.go:18-23 | a graph with a startup order has no dependency cycle |

## Left out

- Plugin registration and settings decoding (`init`, `New`, `BuildAnalyzers`, `GetLoadMode`, `SetSettings`, analyzer.go:16-77) are left out. They are wrappers over the golangci-lint and x/tools APIs. `WireChecker` takes its `Settings` in its constructor instead.
- `scripts/go/wirecheck/cmd/wirechecker/main.go` is not part of this model. It only parses command-line flags.
- Reading and parsing the wire-gen file (`parser.ParseFile`) is I/O. Its outcome is an input, `ParseResult`. The error text is an uninterpreted string.
- `token.FileSet` line numbers (`methodCall.line`) are not modelled, and neither are the unused `types.Info` and the inspector. Positions are plain integers. `insp.Preorder` over `*ast.FuncDecl` is modelled as visiting the package's function declarations in file and declaration order.
- Syntax coverage: only function bodies are traversed.
  - Calls inside parameter, result or receiver type expressions (an array length such as `[unsafe.Sizeof(x)]byte`) are ignored, although `ast.Inspect` over the whole declaration would visit them.
  - General declarations (`var`, `const`, `type`) are not traversed. The source does not look at them either: the package scan, the initializer search and the declaration lookup act only on `*ast.FuncDecl` (analyzer.go:106, 130, 290).
  - Expressions other than identifiers, selectors, calls and function literals are a generic node with children.
- Wirecheck.FindFunctionDeclaration: the package name is a field of the modelled package rather than the result of `pass.Pkg.Name()`.
- The maps that `parseWireGenFile` and `extractProviderFromCall` fill by reference are set values passed in and returned. The methods return the updated set instead of mutating a shared map.
- AlertRuleExt.NoDataStateOrDefault and AlertRuleExt.ExecErrStateOrDefault: a nil `*AlertRuleSpec` receiver is not modelled. The Go methods would panic on it, and the model takes a spec value.
- AlertRuleExt.AlertRule.SetProvenanceStatus: the annotations map is a value held by the rule. In Go it is a reference that two rules can share, for example after a shallow copy `r2 := *r1`, and the write at alertrule_ext.go:21 then shows through both. That sharing is not modelled.
- AlertRuleExt.AlertRule.SetProvenanceStatus: the nil-receiver panic of the Go setter is not modelled, since the method is called on an allocated object. The getter does model the nil receiver.
- `modules.GrafanaAPIServer` is not part of this model. Its value is a parameter of `DependencyMap`, assumed distinct from "core", "background-services" and "all".
- The dynamic registration of individual background services as dependencies of "background-services", described in the doc comment of `dependencyMap`, happens elsewhere and is not modelled.
- `pkg/storage/unified/sql/db/migrations/` and `pkg/registry/backgroundsvcs/adapter/service_test.go` are not part of this model. They are database I/O and service-lifecycle timing.
