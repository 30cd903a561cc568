/**
 * The part of Python's abstract syntax tree (the `ast` module) that the build
 * passes look at, as immutable values, together with the traversal notions shared
 * by the passes: "at any depth", counting, and the NodeTransformer rule that a
 * visitor returning None deletes the statement from its list.
 */
module PyAst {
  import opened Wrappers

  /** Expression context: whether a name or attribute is read, bound or deleted. */
  datatype Ctx = Load | Store | Del

  /** The value held by an `ast.Constant`. */
  datatype Literal = Str(text: string) | Int(n: int) | Bool(flag: bool) | NoneLit

  datatype Expr =
    | Name(id: string, ctx: Ctx)
    | Attribute(value: Expr, attr: string, ctx: Ctx)
    | Constant(lit: Literal)
    | Call(func: Expr, args: seq<Expr>)
    | BinOp(left: Expr, op: string, right: Expr)
    | Tuple(elts: seq<Expr>, ctx: Ctx)

  /** A formal parameter `arg: annotation` of a function definition. */
  datatype Arg = Arg(arg: string, annotation: Option<Expr>)

  /** `name as asname` in an import statement. */
  datatype Alias = Alias(name: string, asname: Option<string>)

  /** The targets of an assignment: Python's grammar never produces an assignment without one. */
  type Targets = ts: seq<Expr> | |ts| > 0 witness [Name("_", Store)]

  datatype Stmt =
    | Import(names: seq<Alias>)
    | ImportFrom(moduleName: Option<string>, names: seq<Alias>, level: nat)
    | Assign(targets: Targets, value: Expr)
    | ExprStmt(value: Expr)
    | Return(returned: Option<Expr>)
    | If(test: Expr, body: seq<Stmt>, orelse: seq<Stmt>)
    | FunctionDef(name: string, args: seq<Arg>, body: seq<Stmt>)
    | ClassDef(name: string, bases: seq<Expr>, body: seq<Stmt>)

  predicate IsImport(s: Stmt) { s.Import? || s.ImportFrom? }

  /** No statement at any depth of `ss` (nested bodies included) satisfies `bad`. */
  predicate Nowhere(ss: seq<Stmt>, bad: Stmt -> bool) {
    forall i :: 0 <= i < |ss| ==> !bad(ss[i]) && NowhereIn(ss[i], bad)
  }

  /** No statement nested in `s` satisfies `bad`. */
  predicate NowhereIn(s: Stmt, bad: Stmt -> bool) {
    match s
    case If(_, body, orelse) => Nowhere(body, bad) && Nowhere(orelse, bad)
    case FunctionDef(_, _, body) => Nowhere(body, bad)
    case ClassDef(_, _, body) => Nowhere(body, bad)
    case _ => true
  }

  /** The number of statements of the list itself (not nested ones) satisfying `p`. */
  function CountWhere(ss: seq<Stmt>, p: Stmt -> bool): (n: nat)
    ensures n <= |ss|
  {
    if ss == [] then 0 else (if p(ss[0]) then 1 else 0) + CountWhere(ss[1..], p)
  }

  /** The number of statements in `ss`, nested ones included. */
  function Size(ss: seq<Stmt>): nat {
    if ss == [] then 0 else SizeOf(ss[0]) + Size(ss[1..])
  }

  function SizeOf(s: Stmt): nat {
    match s
    case If(_, body, orelse) => 1 + Size(body) + Size(orelse)
    case FunctionDef(_, _, body) => 1 + Size(body)
    case ClassDef(_, _, body) => 1 + Size(body)
    case _ => 1
  }

  lemma {:induction false} SizeAppend(a: seq<Stmt>, b: seq<Stmt>)
    ensures Size(a + b) == Size(a) + Size(b)
  {
    if a != [] {
      assert (a + b)[0] == a[0] && (a + b)[1..] == a[1..] + b;
      SizeAppend(a[1..], b);
    } else {
      assert a + b == b;
    }
  }

  /**
   * Every statement of `ss`, nested ones included, in the order in which
   * `ast.NodeVisitor.generic_visit` reaches them: a statement, then its body,
   * then (for `if`) its else branch.
   */
  function Preorder(ss: seq<Stmt>): seq<Stmt> {
    if ss == [] then [] else [ss[0]] + PreorderIn(ss[0]) + Preorder(ss[1..])
  }

  function PreorderIn(s: Stmt): seq<Stmt> {
    match s
    case If(_, body, orelse) => Preorder(body) + Preorder(orelse)
    case FunctionDef(_, _, body) => Preorder(body)
    case ClassDef(_, _, body) => Preorder(body)
    case _ => []
  }

  /** The statements of `ss` satisfying `p`, in order. */
  function Filter(ss: seq<Stmt>, p: Stmt -> bool): (r: seq<Stmt>)
    ensures forall s :: s in r ==> s in ss && p(s)
    ensures forall s :: s in ss && p(s) ==> s in r
  {
    if ss == [] then [] else (if p(ss[0]) then [ss[0]] else []) + Filter(ss[1..], p)
  }

  lemma {:induction false} FilterAppend(a: seq<Stmt>, b: seq<Stmt>, p: Stmt -> bool)
    ensures Filter(a + b, p) == Filter(a, p) + Filter(b, p)
  {
    if a != [] {
      assert (a + b)[0] == a[0] && (a + b)[1..] == a[1..] + b;
      FilterAppend(a[1..], b, p);
    } else {
      assert a + b == b;
    }
  }

  lemma {:induction false} PreorderAppend(a: seq<Stmt>, b: seq<Stmt>)
    ensures Preorder(a + b) == Preorder(a) + Preorder(b)
  {
    if a != [] {
      assert (a + b)[0] == a[0] && (a + b)[1..] == a[1..] + b;
      PreorderAppend(a[1..], b);
    } else {
      assert a + b == b;
    }
  }

  /**
   * The NodeTransformer rule for visitors that only ever delete assignments:
   * a statement for which `drop` holds is deleted from its list (its visitor
   * returns None and does not descend); every other statement is kept in place
   * and its nested bodies are visited the same way.
   */
  function DropStmts(ss: seq<Stmt>, drop: Stmt -> bool): (r: seq<Stmt>)
    requires forall s :: drop(s) ==> s.Assign?
    ensures Nowhere(r, drop)
    ensures |r| + CountWhere(ss, drop) == |ss|
  {
    if ss == [] then []
    else
      var rest := DropStmts(ss[1..], drop);
      if drop(ss[0]) then rest
      else
        var r := [DropIn(ss[0], drop)] + rest;
        assert r[1..] == rest;
        r
  }

  function DropIn(s: Stmt, drop: Stmt -> bool): (r: Stmt)
    requires forall s :: drop(s) ==> s.Assign?
    ensures !drop(s) ==> !drop(r)
    ensures NowhereIn(r, drop)
  {
    match s
    case If(t, body, orelse) => If(t, DropStmts(body, drop), DropStmts(orelse, drop))
    case FunctionDef(n, args, body) => FunctionDef(n, args, DropStmts(body, drop))
    case ClassDef(n, bases, body) => ClassDef(n, bases, DropStmts(body, drop))
    case _ => s
  }

  /** Deleting changes nothing exactly when there is nothing to delete, at any depth. */
  lemma {:induction false} DropStmtsIdentityIff(ss: seq<Stmt>, drop: Stmt -> bool)
    requires forall s :: drop(s) ==> s.Assign?
    ensures DropStmts(ss, drop) == ss <==> Nowhere(ss, drop)
  {
    if Nowhere(ss, drop) && ss != [] {
      DropStmtsIdentityIff(ss[1..], drop);
      DropInIdentity(ss[0], drop);
      assert ss == [ss[0]] + ss[1..];
    }
  }

  lemma {:induction false} DropInIdentity(s: Stmt, drop: Stmt -> bool)
    requires forall s :: drop(s) ==> s.Assign?
    requires NowhereIn(s, drop)
    ensures DropIn(s, drop) == s
  {
    match s
    case If(_, body, orelse) =>
      DropStmtsIdentityIff(body, drop);
      DropStmtsIdentityIff(orelse, drop);
    case FunctionDef(_, _, body) => DropStmtsIdentityIff(body, drop);
    case ClassDef(_, _, body) => DropStmtsIdentityIff(body, drop);
    case _ =>
  }

  /** A statement that is not deleted and holds nothing to delete survives untouched. */
  lemma {:induction false} DropStmtsKeeps(ss: seq<Stmt>, drop: Stmt -> bool, s: Stmt)
    requires forall s :: drop(s) ==> s.Assign?
    requires s in ss && !drop(s) && NowhereIn(s, drop)
    ensures s in DropStmts(ss, drop)
  {
    if ss[0] == s {
      DropInIdentity(s, drop);
    } else {
      DropStmtsKeeps(ss[1..], drop, s);
    }
  }

  /** Running a deleting visitor twice deletes nothing more. */
  lemma DropStmtsIdempotent(ss: seq<Stmt>, drop: Stmt -> bool)
    requires forall s :: drop(s) ==> s.Assign?
    ensures DropStmts(DropStmts(ss, drop), drop) == DropStmts(ss, drop)
  {
    DropStmtsIdentityIff(DropStmts(ss, drop), drop);
  }

  /**
   * `ok` holds of every expression the generic traversal reaches directly from
   * the statements of `ss`, at any depth: targets, values, tests, parameter
   * annotations and class bases.
   */
  predicate AllExprs(ss: seq<Stmt>, ok: Expr -> bool) {
    forall i :: 0 <= i < |ss| ==> AllExprsIn(ss[i], ok)
  }

  predicate AllExprsIn(s: Stmt, ok: Expr -> bool) {
    match s
    case Import(_) => true
    case ImportFrom(_, _, _) => true
    case Assign(targets, value) => (forall i :: 0 <= i < |targets| ==> ok(targets[i])) && ok(value)
    case ExprStmt(value) => ok(value)
    case Return(returned) => returned.Some? ==> ok(returned.value)
    case If(test, body, orelse) => ok(test) && AllExprs(body, ok) && AllExprs(orelse, ok)
    case FunctionDef(_, args, body) =>
      (forall i :: 0 <= i < |args| ==> args[i].annotation.Some? ==> ok(args[i].annotation.value))
      && AllExprs(body, ok)
    case ClassDef(_, bases, body) => (forall i :: 0 <= i < |bases| ==> ok(bases[i])) && AllExprs(body, ok)
  }

  /** Deleting statements keeps a property of all remaining expressions. */
  lemma {:induction false} DropStmtsAllExprs(ss: seq<Stmt>, drop: Stmt -> bool, ok: Expr -> bool)
    requires forall s :: drop(s) ==> s.Assign?
    requires AllExprs(ss, ok)
    ensures AllExprs(DropStmts(ss, drop), ok)
  {
    if ss != [] {
      assert AllExprs(ss[1..], ok) by {
        forall i | 0 <= i < |ss[1..]| ensures AllExprsIn(ss[1..][i], ok) {
          assert ss[1..][i] == ss[i + 1];
        }
      }
      DropStmtsAllExprs(ss[1..], drop, ok);
      var rest := DropStmts(ss[1..], drop);
      if !drop(ss[0]) {
        DropInAllExprs(ss[0], drop, ok);
        var r := [DropIn(ss[0], drop)] + rest;
        assert forall i :: 0 < i < |r| ==> r[i] == rest[i - 1];
      }
    }
  }

  lemma {:induction false} DropInAllExprs(s: Stmt, drop: Stmt -> bool, ok: Expr -> bool)
    requires forall s :: drop(s) ==> s.Assign?
    requires AllExprsIn(s, ok)
    ensures AllExprsIn(DropIn(s, drop), ok)
  {
    match s
    case If(_, body, orelse) =>
      DropStmtsAllExprs(body, drop, ok);
      DropStmtsAllExprs(orelse, drop, ok);
    case FunctionDef(_, _, body) => DropStmtsAllExprs(body, drop, ok);
    case ClassDef(_, _, body) => DropStmtsAllExprs(body, drop, ok);
    case _ =>
  }
}
