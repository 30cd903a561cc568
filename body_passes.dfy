/**
 * BodyCollector, AllRemover, FlMidiMsgRemover and DocstringRemover
 * (scripts/build/ast_tools.py): the passes that gather the non-import code of
 * every module and strip what the single-file script must not contain.
 */
module BodyPasses {
  import opened Wrappers
  import opened PyAst

  predicate NotImport(s: Stmt) { !IsImport(s) }

  /** What BodyCollector takes from one module: its top-level statements that are not imports, in order. */
  function TopLevelBody(tree: seq<Stmt>): (r: seq<Stmt>)
    ensures forall s :: s in r <==> s in tree && !IsImport(s)
  {
    Filter(tree, NotImport)
  }

  /** One more statement adds itself to the body unless it is an import. */
  lemma TopLevelBodySnoc(tree: seq<Stmt>, s: Stmt)
    ensures TopLevelBody(tree + [s]) == TopLevelBody(tree) + (if IsImport(s) then [] else [s])
  {
    FilterAppend(tree, [s], NotImport);
    assert [s][1..] == [];
  }

  /**
   * The top-level imports (which ImportsCollector gathers) and the top-level body
   * split a module's statements between them: nothing is lost or taken twice.
   */
  lemma {:induction false} TopLevelPartition(tree: seq<Stmt>)
    ensures multiset(Filter(tree, IsImport)) + multiset(TopLevelBody(tree)) == multiset(tree)
  {
    if tree != [] {
      TopLevelPartition(tree[1..]);
      assert tree == [tree[0]] + tree[1..];
    }
  }

  /** Collects the top-level non-import statements of every module it visits into one module body. */
  class BodyCollector {
    var body: seq<Stmt>

    constructor ()
      ensures body == []
    {
      body := [];
    }

    /** `visit_Module`: the generic traversal finds nothing to do, then the top-level statements are appended. */
    method VisitModule(tree: seq<Stmt>)
      modifies this
      ensures body == old(body) + TopLevelBody(tree)
    {
      for i := 0 to |tree|
        invariant body == old(body) + TopLevelBody(tree[..i])
      {
        assert tree[..i + 1] == tree[..i] + [tree[i]];
        TopLevelBodySnoc(tree[..i], tree[i]);
        if !IsImport(tree[i]) {
          body := body + [tree[i]];
        }
      }
      assert tree[..|tree|] == tree;
    }
  }

  // ---------------------------------------------------------------- AllRemover

  /** An assignment with some target that is the Name `__all__`, whatever its context. */
  predicate IsAllAssign(s: Stmt) {
    s.Assign? && exists i :: 0 <= i < |s.targets| && s.targets[i].Name? && s.targets[i].id == "__all__"
  }

  /** AllRemover: deletes every `__all__` assignment at any depth, and only those. */
  function RemoveAll(ss: seq<Stmt>): (r: seq<Stmt>)
    ensures Nowhere(r, IsAllAssign)
    ensures |r| + CountWhere(ss, IsAllAssign) == |ss|
    ensures forall s :: s in ss && !IsAllAssign(s) && NowhereIn(s, IsAllAssign) ==> s in r
  {
    forall s | s in ss && !IsAllAssign(s) && NowhereIn(s, IsAllAssign)
      ensures s in DropStmts(ss, IsAllAssign)
    {
      DropStmtsKeeps(ss, IsAllAssign, s);
    }
    DropStmts(ss, IsAllAssign)
  }

  // ---------------------------------------------------------- FlMidiMsgRemover

  /** An annotation that is the bare Name `FlMidiMsg` (an attribute such as `x.FlMidiMsg` is not). */
  predicate IsFlMidiMsg(a: Option<Expr>) {
    a.Some? && a.value.Name? && a.value.id == "FlMidiMsg"
  }

  /** `visit_arg`: drops a `FlMidiMsg` annotation and touches nothing else. */
  function ClearArg(a: Arg): (r: Arg)
    ensures r.arg == a.arg && !IsFlMidiMsg(r.annotation)
    ensures r == a <==> !IsFlMidiMsg(a.annotation)
    ensures r.annotation != a.annotation ==> r.annotation == None
  {
    if IsFlMidiMsg(a.annotation) then Arg(a.arg, None) else a
  }

  function ClearArgs(args: seq<Arg>): (r: seq<Arg>)
    ensures |r| == |args|
    ensures forall i :: 0 <= i < |args| ==> r[i] == ClearArg(args[i])
  {
    seq(|args|, i requires 0 <= i < |args| => ClearArg(args[i]))
  }

  /** No parameter of any function definition in `ss`, at any depth, is annotated `FlMidiMsg`. */
  predicate NoFlMidiMsg(ss: seq<Stmt>) {
    forall i :: 0 <= i < |ss| ==> NoFlMidiMsgIn(ss[i])
  }

  predicate NoFlMidiMsgIn(s: Stmt) {
    match s
    case FunctionDef(_, args, body) =>
      (forall j :: 0 <= j < |args| ==> !IsFlMidiMsg(args[j].annotation)) && NoFlMidiMsg(body)
    case If(_, body, orelse) => NoFlMidiMsg(body) && NoFlMidiMsg(orelse)
    case ClassDef(_, _, body) => NoFlMidiMsg(body)
    case _ => true
  }

  /** FlMidiMsgRemover: the generic traversal reaches the parameters of every function definition. */
  function ClearStmts(ss: seq<Stmt>): (r: seq<Stmt>)
    ensures |r| == |ss|
    ensures NoFlMidiMsg(r)
  {
    if ss == [] then []
    else
      var r := [ClearStmt(ss[0])] + ClearStmts(ss[1..]);
      assert r[1..] == ClearStmts(ss[1..]);
      r
  }

  function ClearStmt(s: Stmt): (r: Stmt)
    ensures NoFlMidiMsgIn(r)
  {
    match s
    case FunctionDef(n, args, body) => FunctionDef(n, ClearArgs(args), ClearStmts(body))
    case If(t, body, orelse) => If(t, ClearStmts(body), ClearStmts(orelse))
    case ClassDef(n, bases, body) => ClassDef(n, bases, ClearStmts(body))
    case _ => s
  }

  /** Every annotation of every parameter replaced by None: what the pass may not change is what survives this. */
  function EraseAnnotations(ss: seq<Stmt>): (r: seq<Stmt>)
    ensures |r| == |ss|
  {
    if ss == [] then [] else [EraseIn(ss[0])] + EraseAnnotations(ss[1..])
  }

  function EraseIn(s: Stmt): Stmt {
    match s
    case FunctionDef(n, args, body) =>
      FunctionDef(n, seq(|args|, i requires 0 <= i < |args| => Arg(args[i].arg, None)), EraseAnnotations(body))
    case If(t, body, orelse) => If(t, EraseAnnotations(body), EraseAnnotations(orelse))
    case ClassDef(n, bases, body) => ClassDef(n, bases, EraseAnnotations(body))
    case _ => s
  }

  /** FlMidiMsgRemover changes nothing but annotations. */
  lemma {:induction false} ClearOnlyAnnotations(ss: seq<Stmt>)
    ensures EraseAnnotations(ClearStmts(ss)) == EraseAnnotations(ss)
  {
    if ss != [] {
      ClearOnlyAnnotationsIn(ss[0]);
      ClearOnlyAnnotations(ss[1..]);
    }
  }

  lemma {:induction false} ClearOnlyAnnotationsIn(s: Stmt)
    ensures EraseIn(ClearStmt(s)) == EraseIn(s)
  {
    match s
    case FunctionDef(n, args, body) =>
      ClearOnlyAnnotations(body);
      var cleared := ClearArgs(args);
      assert seq(|cleared|, i requires 0 <= i < |cleared| => Arg(cleared[i].arg, None))
          == seq(|args|, i requires 0 <= i < |args| => Arg(args[i].arg, None));
    case If(_, body, orelse) =>
      ClearOnlyAnnotations(body);
      ClearOnlyAnnotations(orelse);
    case ClassDef(_, _, body) => ClearOnlyAnnotations(body);
    case _ =>
  }

  /** FlMidiMsgRemover leaves a tree alone exactly when it holds no `FlMidiMsg` annotation. */
  lemma {:induction false} ClearIdentityIff(ss: seq<Stmt>)
    ensures ClearStmts(ss) == ss <==> NoFlMidiMsg(ss)
  {
    if ss != [] {
      ClearIdentityIff(ss[1..]);
      ClearIdentityIffIn(ss[0]);
      assert ClearStmts(ss)[0] == ClearStmt(ss[0]);
      assert ClearStmts(ss)[1..] == ClearStmts(ss[1..]);
      if NoFlMidiMsg(ss) {
        assert NoFlMidiMsgIn(ss[0]);
        assert NoFlMidiMsg(ss[1..]) by {
          forall i | 0 <= i < |ss[1..]| ensures NoFlMidiMsgIn(ss[1..][i]) {
            assert ss[1..][i] == ss[i + 1];
          }
        }
        assert ss == [ss[0]] + ss[1..];
      }
    }
  }

  /** FlMidiMsgRemover is idempotent: a second run finds no annotation to clear. */
  lemma ClearIdempotent(ss: seq<Stmt>)
    ensures ClearStmts(ClearStmts(ss)) == ClearStmts(ss)
  {
    ClearIdentityIff(ClearStmts(ss));
  }

  lemma {:induction false} ClearIdentityIffIn(s: Stmt)
    ensures ClearStmt(s) == s <==> NoFlMidiMsgIn(s)
  {
    match s
    case FunctionDef(n, args, body) =>
      ClearIdentityIff(body);
      if NoFlMidiMsgIn(s) {
        assert ClearArgs(args) == args;
      }
    case If(_, body, orelse) =>
      ClearIdentityIff(body);
      ClearIdentityIff(orelse);
    case ClassDef(_, _, body) => ClearIdentityIff(body);
    case _ =>
  }

  // ---------------------------------------------------------- DocstringRemover

  /** An expression statement holding a string constant. */
  predicate IsDocstring(s: Stmt) {
    s.ExprStmt? && s.value.Constant? && s.value.lit.Str?
  }

  predicate StartsWithDocstring(body: seq<Stmt>) {
    |body| > 0 && IsDocstring(body[0])
  }

  /** `_remove_docstring`: an empty body is left alone; otherwise a leading docstring, and only it, is popped. */
  function StripDocstring(body: seq<Stmt>): (r: seq<Stmt>)
    ensures |r| == |body| - (if StartsWithDocstring(body) then 1 else 0)
    ensures r == body[|body| - |r|..]
  {
    if StartsWithDocstring(body) then body[1..] else body
  }

  /**
   * The generic traversal of DocstringRemover: every function and class body is
   * stripped after its own children are visited; `if` branches are visited but
   * not stripped, having no `visit_If`.
   */
  function DocStmts(ss: seq<Stmt>): (r: seq<Stmt>)
    ensures |r| == |ss|
    ensures forall i {:trigger r[i]} :: 0 <= i < |ss| ==> IsDocstring(r[i]) == IsDocstring(ss[i])
  {
    if ss == [] then []
    else
      var r := [DocStmt(ss[0])] + DocStmts(ss[1..]);
      assert forall i :: 0 < i < |ss| ==> r[i] == DocStmts(ss[1..])[i - 1] && ss[i] == ss[1..][i - 1];
      r
  }

  function DocStmt(s: Stmt): (r: Stmt)
    ensures IsDocstring(r) == IsDocstring(s)
  {
    match s
    case FunctionDef(n, args, body) => FunctionDef(n, args, StripDocstring(DocStmts(body)))
    case ClassDef(n, bases, body) => ClassDef(n, bases, StripDocstring(DocStmts(body)))
    case If(t, body, orelse) => If(t, DocStmts(body), DocStmts(orelse))
    case _ => s
  }

  /** DocstringRemover on a module: its body is stripped too, after the traversal. */
  function RemoveDocstrings(ss: seq<Stmt>): (r: seq<Stmt>)
    ensures |r| == |ss| - (if StartsWithDocstring(ss) then 1 else 0)
    ensures forall i :: 0 <= i < |r| ==> IsDocstring(r[i]) == IsDocstring(ss[i + |ss| - |r|])
  {
    StripDocstring(DocStmts(ss))
  }

  /** The number of function and class bodies, at any depth, that start with a docstring. */
  function DocsIn(ss: seq<Stmt>): nat {
    if ss == [] then 0 else DocsOf(ss[0]) + DocsIn(ss[1..])
  }

  function DocsOf(s: Stmt): nat {
    match s
    case FunctionDef(_, _, body) => (if StartsWithDocstring(body) then 1 else 0) + DocsIn(body)
    case ClassDef(_, _, body) => (if StartsWithDocstring(body) then 1 else 0) + DocsIn(body)
    case If(_, body, orelse) => DocsIn(body) + DocsIn(orelse)
    case _ => 0
  }

  lemma StripSize(body: seq<Stmt>)
    ensures Size(StripDocstring(body)) + (if StartsWithDocstring(body) then 1 else 0) == Size(body)
  {
  }

  /** The traversal removes one statement for each nested body that starts with a docstring, and nothing more. */
  lemma {:induction false} DocStmtsSize(ss: seq<Stmt>)
    ensures Size(DocStmts(ss)) + DocsIn(ss) == Size(ss)
    decreases ss, 0
  {
    if ss != [] {
      DocStmtSize(ss[0]);
      DocStmtsSize(ss[1..]);
      assert DocStmts(ss)[0] == DocStmt(ss[0]) && DocStmts(ss)[1..] == DocStmts(ss[1..]);
    }
  }

  lemma {:induction false} DocStmtSize(s: Stmt)
    ensures SizeOf(DocStmt(s)) + DocsOf(s) == SizeOf(s)
    decreases s, 1
  {
    match s
    case FunctionDef(_, _, _) => DefDocSize(s);
    case ClassDef(_, _, _) => DefDocSize(s);
    case If(_, _, _) => IfDocSize(s);
    case _ =>
  }

  lemma {:induction false} DefDocSize(s: Stmt)
    requires s.FunctionDef? || s.ClassDef?
    ensures SizeOf(DocStmt(s)) + DocsOf(s) == SizeOf(s)
    decreases s, 0
  {
    var b := StripDocstring(DocStmts(s.body));
    assert SizeOf(DocStmt(s)) == 1 + Size(b) by {
      match s
      case FunctionDef(n, args, body) =>
        assert DocStmt(s) == FunctionDef(n, args, b);
      case ClassDef(n, bases, body) =>
        assert DocStmt(s) == ClassDef(n, bases, b);
    }
    assert DocsOf(s) == (if StartsWithDocstring(s.body) then 1 else 0) + DocsIn(s.body);
    assert SizeOf(s) == 1 + Size(s.body);
    BodySize(s.body);
  }

  lemma {:induction false} IfDocSize(s: Stmt)
    requires s.If?
    ensures SizeOf(DocStmt(s)) + DocsOf(s) == SizeOf(s)
    decreases s, 0
  {
    DocStmtsSize(s.body);
    DocStmtsSize(s.orelse);
    assert SizeOf(DocStmt(s)) == 1 + Size(DocStmts(s.body)) + Size(DocStmts(s.orelse));
    assert DocsOf(s) == DocsIn(s.body) + DocsIn(s.orelse);
    assert SizeOf(s) == 1 + Size(s.body) + Size(s.orelse);
  }

  /** A function or class body loses its nested docstrings, then its own leading one. */
  lemma {:induction false} BodySize(body: seq<Stmt>)
    ensures Size(StripDocstring(DocStmts(body))) + (if StartsWithDocstring(body) then 1 else 0) + DocsIn(body) == Size(body)
    decreases body, 1
  {
    DocStmtsSize(body);
    StripSize(DocStmts(body));
    assert StartsWithDocstring(DocStmts(body)) == StartsWithDocstring(body);
  }

  /**
   * DocstringRemover removes at most one statement per module, function and
   * class body, and only a leading docstring: the module's own, plus one for each
   * nested body that starts with one.
   */
  /**
   * DocstringRemover is not idempotent: it pops one leading docstring per body
   * per run, so a module opening with two string statements loses the second
   * on a second run.
   */
  lemma RemoveDocstringsNotIdempotent()
    ensures exists ss :: RemoveDocstrings(RemoveDocstrings(ss)) != RemoveDocstrings(ss)
  {
    var doc, more := ExprStmt(Constant(Str("a"))), ExprStmt(Constant(Str("b")));
    assert DocStmts([more]) == [more] by {
      assert [more][1..] == [];
    }
    assert DocStmts([doc, more]) == [doc, more] by {
      assert [doc, more][1..] == [more];
    }
    assert RemoveDocstrings([doc, more]) == [more];
    assert RemoveDocstrings([more]) == [];
  }

  lemma RemoveDocstringsSize(ss: seq<Stmt>)
    ensures Size(RemoveDocstrings(ss)) + DocsIn(ss) + (if StartsWithDocstring(ss) then 1 else 0) == Size(ss)
  {
    BodySize(ss);
  }
}
