/** The noexit analyzer (cmd/linter/linter.go): every call of `panic` is reported, and calls of
    log.Fatal and os.Exit are reported unless they sit directly in function `main` of package
    `main`.

    The go/analysis framework is represented by its inputs: the name of the package under
    analysis, and the calls the inspector visits, in its order, each with the stack of syntax
    nodes enclosing it (the call itself on top) and the push/pop flag. Type information is the
    object a selector's name resolves to. */
module NoExitLinter {
  import opened Wrappers

  /** A types.Package: its import path and its name. */
  datatype Package = Package(path: string, name: string)

  /** A types.Object: the package it belongs to (None for universe objects) and its name. */
  datatype Object = Object(pkg: Option<Package>, name: string)

  /** The function expression of a call: a plain identifier, a selector `x.Sel` whose `Sel`
      resolves to an object (None when TypesInfo.ObjectOf gives nil), or anything else. */
  datatype Callee = Ident(name: string) | Selector(obj: Option<Object>) | OtherCallee

  datatype CallExpr = CallExpr(pos: nat, fun: Callee)

  /** A node on the inspector's stack: a function declaration with its name identifier (None
      for a nil name), a call, or any other node (files, blocks, statements, function literals). */
  datatype Node = FuncDecl(name: Option<string>) | Call(call: CallExpr) | OtherNode

  /** One callback of inspector.WithStack for a call node. */
  datatype Visit = Visit(call: CallExpr, push: bool, stack: seq<Node>)

  datatype Diagnostic = Diagnostic(pos: nat, message: string)

  const PanicMessage := "usage of panic is not allowed"

  function ExitMessage(pkgName: string, funcName: string): string
  {
    pkgName + "." + funcName + " is not allowed outside main function in main package"
  }

  /** The position of the innermost function declaration on the stack, if any. */
  function InnermostFuncDecl(stack: seq<Node>): (r: Option<nat>)
    ensures r.Some? ==> r.value < |stack| && stack[r.value].FuncDecl?
    ensures r.Some? ==> forall j | r.value < j < |stack| :: !stack[j].FuncDecl?
    ensures r.None? ==> forall j | 0 <= j < |stack| :: !stack[j].FuncDecl?
  {
    if stack == [] then None
    else if stack[|stack| - 1].FuncDecl? then Some(|stack| - 1)
    else InnermostFuncDecl(stack[..|stack| - 1])
  }

  /** The call is inside function `main`: the innermost enclosing function declaration is
      named `main`. Function literals do not count as declarations. */
  predicate InMainFunc(stack: seq<Node>)
  {
    match InnermostFuncDecl(stack)
    case None => false
    case Some(i) => stack[i].name == Some("main")
  }

  /** The search of `run` for the innermost function declaration, from the top of the stack
      down; done only inside package main. */
  method FindInMainFunc(inMainPkg: bool, stack: seq<Node>) returns (inMainFunc: bool)
    ensures inMainFunc <==> inMainPkg && InMainFunc(stack)
  {
    inMainFunc := false;
    if inMainPkg {
      var i := |stack|;
      while i > 0
        invariant 0 <= i <= |stack|
        invariant forall j | i <= j < |stack| :: !stack[j].FuncDecl?
        invariant !inMainFunc
      {
        i := i - 1;
        if stack[i].FuncDecl? {
          inMainFunc := stack[i].name.Some? && stack[i].name.value == "main";
          assert InnermostFuncDecl(stack) == Some(i);
          return;
        }
      }
    }
  }

  /** (log, Fatal) or (os, Exit): only these exact pairs of package path and name are
      restricted. */
  predicate IsExitCall(o: Object)
  {
    o.pkg.Some? && ((o.pkg.value.path == "log" && o.name == "Fatal") || (o.pkg.value.path == "os" && o.name == "Exit"))
  }

  /** The report for one visited call, in package `pkgName` (None when the pass has no
      package). */
  function Report(pkgName: Option<string>, call: CallExpr, stack: seq<Node>): Option<Diagnostic>
  {
    var inMainFunc := pkgName == Some("main") && InMainFunc(stack);
    match call.fun
    case Ident(name) => if name == "panic" then Some(Diagnostic(call.pos, PanicMessage)) else None
    case Selector(obj) =>
      if obj.Some? && IsExitCall(obj.value) && !inMainFunc
      then Some(Diagnostic(call.pos, ExitMessage(obj.value.pkg.value.name, obj.value.name)))
      else None
    case OtherCallee => None
  }

  /** The reports of a sequence of callbacks, in order; pops report nothing. */
  function Reports(pkgName: Option<string>, visits: seq<Visit>): seq<Diagnostic>
  {
    if visits == [] then []
    else
      var v := visits[|visits| - 1];
      var r := if v.push then Report(pkgName, v.call, v.stack) else None;
      Reports(pkgName, visits[..|visits| - 1]) + (if r.Some? then [r.value] else [])
  }

  /** A call of `panic` is reported wherever it is. */
  lemma PanicAlwaysReported(pkgName: Option<string>, pos: nat, stack: seq<Node>)
    ensures Report(pkgName, CallExpr(pos, Ident("panic")), stack) == Some(Diagnostic(pos, PanicMessage))
  {
  }

  /** log.Fatal and os.Exit are reported exactly when the call is not directly inside
      function main of package main, and the report names the package and the function. */
  lemma ExitCallRule(pkgName: Option<string>, call: CallExpr, stack: seq<Node>)
    requires call.fun.Selector? && call.fun.obj.Some? && IsExitCall(call.fun.obj.value)
    ensures Report(pkgName, call, stack).None? <==> pkgName == Some("main") && InMainFunc(stack)
    ensures Report(pkgName, call, stack).Some? ==>
      Report(pkgName, call, stack).value
        == Diagnostic(call.pos, ExitMessage(call.fun.obj.value.pkg.value.name, call.fun.obj.value.name))
  {
  }

  /** Nothing else is reported: other identifiers, other functions of log and os (such as
      log.Fatalf), unresolved selectors and any other call. */
  lemma OnlyPanicAndExitReported(pkgName: Option<string>, call: CallExpr, stack: seq<Node>)
    requires !(call.fun.Ident? && call.fun.name == "panic")
    requires !(call.fun.Selector? && call.fun.obj.Some? && IsExitCall(call.fun.obj.value))
    ensures Report(pkgName, call, stack) == None
  {
  }

  /** Only the innermost function declaration decides: a declaration of main further out
      does not help, and nodes that are not declarations (function literals, blocks) above
      the declaration change nothing. */
  lemma {:induction false} InnermostDeclarationDecides(outer: seq<Node>, decl: Node, inner: seq<Node>)
    requires decl.FuncDecl?
    requires forall j | 0 <= j < |inner| :: !inner[j].FuncDecl?
    ensures InMainFunc(outer + [decl] + inner) <==> decl.name == Some("main")
    decreases |inner|
  {
    var stack := outer + [decl] + inner;
    if inner == [] {
      assert stack[|stack| - 1] == decl;
    } else {
      var init := inner[..|inner| - 1];
      assert stack[..|stack| - 1] == outer + [decl] + init;
      assert !stack[|stack| - 1].FuncDecl?;
      InnermostDeclarationDecides(outer, decl, init);
    }
  }

  /** analysis.Pass: the package under analysis and the diagnostics reported so far. */
  class Pass {
    const pkgName: Option<string>
    var diagnostics: seq<Diagnostic>

    constructor(pkgName: Option<string>)
      ensures this.pkgName == pkgName && diagnostics == []
    {
      this.pkgName := pkgName;
      diagnostics := [];
    }

    method Reportf(pos: nat, message: string)
      modifies this
      ensures diagnostics == old(diagnostics) + [Diagnostic(pos, message)]
    {
      diagnostics := diagnostics + [Diagnostic(pos, message)];
    }
  }

  /** The callback given to inspector.WithStack. */
  method Inspect(pass: Pass, call: CallExpr, push: bool, stack: seq<Node>) returns (proceed: bool)
    modifies pass
    ensures proceed
    ensures var r := if push then Report(pass.pkgName, call, stack) else None;
      pass.diagnostics == old(pass.diagnostics) + (if r.Some? then [r.value] else [])
  {
    if !push {
      return true;
    }
    var inMainPkg := pass.pkgName.Some? && pass.pkgName.value == "main";
    var inMainFunc := FindInMainFunc(inMainPkg, stack);
    if call.fun.Ident? && call.fun.name == "panic" {
      pass.Reportf(call.pos, PanicMessage);
      return true;
    }
    if !call.fun.Selector? {
      return true;
    }
    var obj := call.fun.obj;
    if obj.None? {
      return true;
    }
    if obj.value.pkg.Some? {
      var pkgPath := obj.value.pkg.value.path;
      var funcName := obj.value.name;
      var isLogFatal := pkgPath == "log" && funcName == "Fatal";
      var isOsExit := pkgPath == "os" && funcName == "Exit";
      if isLogFatal || isOsExit {
        if !inMainFunc {
          pass.Reportf(call.pos, ExitMessage(obj.value.pkg.value.name, funcName));
        }
      }
    }
    return true;
  }

  /** run: every callback of the inspector's walk, in order. */
  method Run(pass: Pass, visits: seq<Visit>)
    modifies pass
    ensures pass.diagnostics == old(pass.diagnostics) + Reports(pass.pkgName, visits)
  {
    for i := 0 to |visits|
      invariant pass.diagnostics == old(pass.diagnostics) + Reports(pass.pkgName, visits[..i])
    {
      var v := visits[i];
      assert visits[..i + 1][..i] == visits[..i];
      var _ := Inspect(pass, v.call, v.push, v.stack);
    }
    assert visits[..|visits|] == visits;
  }

  const LogPackage := Package("log", "log")
  const OsPackage := Package("os", "os")

  function LogFatal(pos: nat): CallExpr { CallExpr(pos, Selector(Some(Object(Some(LogPackage), "Fatal")))) }
  function OsExit(pos: nat): CallExpr { CallExpr(pos, Selector(Some(Object(Some(OsPackage), "Exit")))) }
  function PanicCall(pos: nat): CallExpr { CallExpr(pos, Ident("panic")) }

  /** The package-main test file, with positions as line numbers: in main, only the panic is
      reported; in helper, all three calls are. */
  lemma MainPackageExample()
    ensures Reports(Some("main"),
                    CallsIn(FuncDecl(Some("main")), [LogFatal(9), OsExit(10), PanicCall(11)])
                    + CallsIn(FuncDecl(Some("helper")), [LogFatal(15), OsExit(16), PanicCall(17)]))
      == [Diagnostic(11, PanicMessage),
          Diagnostic(15, ExitMessage("log", "Fatal")), Diagnostic(16, ExitMessage("os", "Exit")),
          Diagnostic(17, PanicMessage)]
  {
    var inMain := CallsIn(FuncDecl(Some("main")), [LogFatal(9), OsExit(10), PanicCall(11)]);
    var inHelper := CallsIn(FuncDecl(Some("helper")), [LogFatal(15), OsExit(16), PanicCall(17)]);
    ReportsAppend(Some("main"), inMain, inHelper);
    MainFunctionExample();
    HelperFunctionExample();
  }

  /** In function main of package main, log.Fatal and os.Exit pass and panic is reported. */
  lemma MainFunctionExample()
    ensures Reports(Some("main"), CallsIn(FuncDecl(Some("main")), [LogFatal(9), OsExit(10), PanicCall(11)]))
      == [Diagnostic(11, PanicMessage)]
  {
    var decl := FuncDecl(Some("main"));
    ThreeCalls(Some("main"), decl, LogFatal(9), OsExit(10), PanicCall(11));
    ExampleStacks(decl, LogFatal(9));
    ExampleStacks(decl, OsExit(10));
  }

  /** In another function of package main, all three calls are reported. */
  lemma HelperFunctionExample()
    ensures Reports(Some("main"), CallsIn(FuncDecl(Some("helper")), [LogFatal(15), OsExit(16), PanicCall(17)]))
      == [Diagnostic(15, ExitMessage("log", "Fatal")), Diagnostic(16, ExitMessage("os", "Exit")),
          Diagnostic(17, PanicMessage)]
  {
    var decl := FuncDecl(Some("helper"));
    ThreeCalls(Some("main"), decl, LogFatal(15), OsExit(16), PanicCall(17));
    ExampleStacks(decl, LogFatal(15));
    ExampleStacks(decl, OsExit(16));
  }

  /** The non-main package test file: all three calls are reported although the function
      is not main. */
  lemma OtherPackageExample()
    ensures Reports(Some("utils"), CallsIn(FuncDecl(Some("f")), [PanicCall(9), LogFatal(10), OsExit(11)]))
      == [Diagnostic(9, PanicMessage), Diagnostic(10, ExitMessage("log", "Fatal")),
          Diagnostic(11, ExitMessage("os", "Exit"))]
  {
    ThreeCalls(Some("utils"), FuncDecl(Some("f")), PanicCall(9), LogFatal(10), OsExit(11));
  }

  /** The stack of a call in the examples has the function declaration as its innermost
      declaration. */
  lemma ExampleStacks(decl: Node, c: CallExpr)
    requires decl.FuncDecl?
    ensures InMainFunc(ExampleStack(decl, c)) <==> decl.name == Some("main")
  {
    InnermostDeclarationDecides([OtherNode], decl, [OtherNode, OtherNode, Call(c)]);
    assert [OtherNode] + [decl] + [OtherNode, OtherNode, Call(c)] == ExampleStack(decl, c);
  }

  /** A body with three calls reports them in order. */
  lemma ThreeCalls(pkgName: Option<string>, decl: Node, a: CallExpr, b: CallExpr, c: CallExpr)
    ensures Reports(pkgName, CallsIn(decl, [a, b, c]))
      == Reported(pkgName, decl, a) + Reported(pkgName, decl, b) + Reported(pkgName, decl, c)
  {
    var va, vb, vc := PushPop(decl, a), PushPop(decl, b), PushPop(decl, c);
    assert [a][..0] == [];
    assert CallsIn(decl, [a]) == va;
    assert [a, b][..1] == [a];
    assert CallsIn(decl, [a, b]) == va + vb;
    assert [a, b, c][..2] == [a, b];
    assert CallsIn(decl, [a, b, c]) == va + vb + vc;
    ReportsAppend(pkgName, va + vb, vc);
    ReportsAppend(pkgName, va, vb);
    PushPopReports(pkgName, decl, a);
    PushPopReports(pkgName, decl, b);
    PushPopReports(pkgName, decl, c);
  }

  /** The stack of a call in a function body of the examples: file, declaration, block,
      statement, call. */
  function ExampleStack(decl: Node, c: CallExpr): seq<Node>
  {
    [OtherNode, decl, OtherNode, OtherNode, Call(c)]
  }

  function PushPop(decl: Node, c: CallExpr): seq<Visit>
  {
    [Visit(c, true, ExampleStack(decl, c)), Visit(c, false, ExampleStack(decl, c))]
  }

  function Reported(pkgName: Option<string>, decl: Node, c: CallExpr): seq<Diagnostic>
  {
    var r := Report(pkgName, c, ExampleStack(decl, c));
    if r.Some? then [r.value] else []
  }

  /** A call is reported on its push and not again on its pop. */
  lemma PushPopReports(pkgName: Option<string>, decl: Node, c: CallExpr)
    ensures Reports(pkgName, PushPop(decl, c)) == Reported(pkgName, decl, c)
  {
    var v := PushPop(decl, c);
    assert v[..1] == [v[0]];
    assert [v[0]][..0] == [];
    assert Reports(pkgName, [v[0]]) == Reported(pkgName, decl, c);
  }

  /** The calls of a function body, each pushed with its enclosing stack and popped again. */
  function CallsIn(decl: Node, calls: seq<CallExpr>): seq<Visit>
  {
    if calls == [] then [] else CallsIn(decl, calls[..|calls| - 1]) + PushPop(decl, calls[|calls| - 1])
  }

  /** The walk's reports split along the walk. */
  lemma {:induction false} ReportsAppend(pkgName: Option<string>, xs: seq<Visit>, ys: seq<Visit>)
    ensures Reports(pkgName, xs + ys) == Reports(pkgName, xs) + Reports(pkgName, ys)
    decreases |ys|
  {
    if ys == [] {
      assert xs + ys == xs;
    } else {
      var init := ys[..|ys| - 1];
      assert (xs + ys)[..|xs + ys| - 1] == xs + init;
      assert (xs + ys)[|xs + ys| - 1] == ys[|ys| - 1];
      ReportsAppend(pkgName, xs, init);
    }
  }
}
