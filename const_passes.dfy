/**
 * ConstCollector, ConstInliner and ConstRemover (scripts/build/ast_tools.py):
 * upper-case names assigned outside class bodies are recorded with their value,
 * every read of such a name is replaced by that value, and the assignments are
 * then deleted.
 */
module ConstPasses {
  import opened Wrappers
  import opened PyStr
  import opened PyAst

  /** The `Consts` dictionary: constant name to the expression assigned to it. */
  type Consts = map<string, Expr>

  // ------------------------------------------------------------ ConstCollector

  /** An assignment ConstCollector records: its first target is an upper-case Name, outside any class body. */
  predicate IsConstAssign(s: Stmt, inClass: bool) {
    s.Assign? && s.targets[0].Name? && IsUpper(s.targets[0].id) && !inClass
  }

  /**
   * The dictionary after visiting `ss` from `consts` with the in-class flag
   * `inClass`: statements are visited in order, a later assignment overwriting
   * an earlier one. Only upper-case names are added, and inside a class body
   * nothing is.
   */
  function CollectConsts(consts: Consts, inClass: bool, ss: seq<Stmt>): (r: Consts)
    ensures consts.Keys <= r.Keys
    ensures forall k :: k in r ==> k in consts || IsUpper(k)
    ensures inClass ==> r == consts
    decreases ss
  {
    if ss == [] then consts
    else CollectConsts(CollectConstsIn(consts, inClass, ss[0]), inClass, ss[1..])
  }

  /** One statement: `visit_Assign`, `visit_ClassDef`, or the generic traversal of function and `if` bodies. */
  function CollectConstsIn(consts: Consts, inClass: bool, s: Stmt): (r: Consts)
    ensures consts.Keys <= r.Keys
    ensures forall k :: k in r ==> k in consts || IsUpper(k)
    ensures inClass ==> r == consts
    decreases s
  {
    match s
    case Assign(targets, value) =>
      if IsConstAssign(s, inClass) then consts[targets[0].id := value] else consts
    case ClassDef(_, _, body) => CollectConsts(consts, true, body)
    case FunctionDef(_, _, body) => CollectConsts(consts, inClass, body)
    case If(_, body, orelse) => CollectConsts(CollectConsts(consts, inClass, body), inClass, orelse)
    case _ => consts
  }

  /** The collector is shared by all modules: visiting `a` then `b` is visiting `a + b`. */
  lemma {:induction false} CollectConstsAppend(consts: Consts, inClass: bool, a: seq<Stmt>, b: seq<Stmt>)
    ensures CollectConsts(consts, inClass, a + b) == CollectConsts(CollectConsts(consts, inClass, a), inClass, b)
    decreases a
  {
    if a == [] {
      assert a + b == b;
    } else {
      assert (a + b)[0] == a[0] && (a + b)[1..] == a[1..] + b;
      CollectConstsAppend(CollectConstsIn(consts, inClass, a[0]), inClass, a[1..], b);
    }
  }

  /** The last assignment to an upper-case name wins. */
  lemma LastAssignmentWins(consts: Consts, ss: seq<Stmt>, k: string, target: Expr, v: Expr)
    requires target == Name(k, Store) && IsUpper(k)
    ensures var r := CollectConsts(consts, false, ss + [Assign([target], v)]); k in r && r[k] == v
  {
    var a := Assign([target], v);
    CollectConstsAppend(consts, false, ss, [a]);
    var before := CollectConsts(consts, false, ss);
    assert IsConstAssign(a, false);
    assert CollectConsts(before, false, [a]) == CollectConsts(CollectConstsIn(before, false, a), false, []);
  }

  /** A constant assigned in a function body is collected as well. */
  lemma FunctionBodiesCollected(consts: Consts, f: string, args: seq<Arg>, k: string, v: Expr)
    requires IsUpper(k)
    ensures k in CollectConsts(consts, false, [FunctionDef(f, args, [Assign([Name(k, Store)], v)])])
  {
    var a := Assign([Name(k, Store)], v);
    var s := FunctionDef(f, args, [a]);
    assert IsConstAssign(a, false);
    assert CollectConsts(consts, false, [a]) == CollectConsts(CollectConstsIn(consts, false, a), false, []);
    assert CollectConsts(consts, false, [s]) == CollectConsts(CollectConstsIn(consts, false, s), false, []);
  }

  /** ConstCollector: the dictionary filled so far and whether the visit is inside a class body. */
  class ConstCollector {
    var consts: Consts
    var isInClass: bool

    constructor ()
      ensures consts == map[] && !isInClass
    {
      consts := map[];
      isInClass := false;
    }

    /** Visits a statement list; the in-class flag is the same afterwards. */
    method Visit(ss: seq<Stmt>)
      modifies this
      ensures consts == CollectConsts(old(consts), old(isInClass), ss)
      ensures isInClass == old(isInClass)
      decreases ss, 2
    {
      var i := 0;
      while i < |ss|
        invariant 0 <= i <= |ss|
        invariant isInClass == old(isInClass)
        invariant CollectConsts(old(consts), isInClass, ss) == CollectConsts(consts, isInClass, ss[i..])
      {
        assert ss[i..][0] == ss[i] && ss[i..][1..] == ss[i + 1..];
        VisitStmt(ss[i]);
        i := i + 1;
      }
    }

    method VisitStmt(s: Stmt)
      modifies this
      ensures consts == CollectConstsIn(old(consts), old(isInClass), s)
      ensures isInClass == old(isInClass)
      decreases s, 1
    {
      match s
      case Assign(_, _) => VisitAssign(s);
      case ClassDef(_, _, _) => VisitClassDef(s);
      case FunctionDef(_, _, body) => Visit(body);
      case If(_, body, orelse) =>
        Visit(body);
        Visit(orelse);
      case _ =>
    }

    /** `visit_Assign` */
    method VisitAssign(s: Stmt)
      requires s.Assign?
      modifies this
      ensures consts == (if IsConstAssign(s, isInClass) then old(consts)[s.targets[0].id := s.value] else old(consts))
      ensures isInClass == old(isInClass)
    {
      var target := s.targets[0];
      if target.Name? && IsUpper(target.id) && !isInClass {
        consts := consts[target.id := s.value];
      }
    }

    /** `visit_ClassDef`: the flag is set for the class body and put back afterwards, so classes nest. */
    method VisitClassDef(s: Stmt)
      requires s.ClassDef?
      modifies this
      ensures consts == old(consts)
      ensures isInClass == old(isInClass)
      decreases s, 0
    {
      var oldInClass := isInClass;
      isInClass := true;
      Visit(s.body);
      isInClass := oldInClass;
    }
  }

  // -------------------------------------------------------------- ConstInliner

  function Max(a: nat, b: nat): nat { if a < b then b else a }

  /**
   * The largest rank, plus one, of a constant read in `e`; zero when it reads
   * none. It measures how much substitution is left to do.
   */
  ghost function Level(consts: Consts, rank: map<string, nat>, e: Expr): nat
    decreases e
  {
    match e
    case Name(id, ctx) => if ctx == Load && id in consts && id in rank then rank[id] + 1 else 0
    case Attribute(v, _, _) => Level(consts, rank, v)
    case Constant(_) => 0
    case Call(f, args) => Max(Level(consts, rank, f), LevelOf(consts, rank, args))
    case BinOp(l, _, r) => Max(Level(consts, rank, l), Level(consts, rank, r))
    case Tuple(elts, _) => LevelOf(consts, rank, elts)
  }

  ghost function LevelOf(consts: Consts, rank: map<string, nat>, es: seq<Expr>): nat
    decreases es
  {
    if es == [] then 0 else Max(Level(consts, rank, es[0]), LevelOf(consts, rank, es[1..]))
  }

  /**
   * The constants are acyclic: `rank` numbers them so that the value of each
   * reads only constants of smaller rank. Without this, ConstInliner recurses
   * forever.
   */
  ghost predicate Ranked(consts: Consts, rank: map<string, nat>) {
    forall k :: k in consts ==> k in rank && Level(consts, rank, consts[k]) <= rank[k]
  }

  predicate IsConstLoad(consts: Consts, e: Expr) {
    e.Name? && e.ctx == Load && e.id in consts
  }

  /** No Name read anywhere in `e` is a constant. */
  predicate NoConstLoad(consts: Consts, e: Expr)
    decreases e
  {
    match e
    case Name(_, _) => !IsConstLoad(consts, e)
    case Attribute(v, _, _) => NoConstLoad(consts, v)
    case Constant(_) => true
    case Call(f, args) => NoConstLoad(consts, f) && NoConstLoads(consts, args)
    case BinOp(l, _, r) => NoConstLoad(consts, l) && NoConstLoad(consts, r)
    case Tuple(elts, _) => NoConstLoads(consts, elts)
  }

  predicate NoConstLoads(consts: Consts, es: seq<Expr>)
    decreases es
  {
    forall i :: 0 <= i < |es| ==> NoConstLoad(consts, es[i])
  }

  /**
   * `visit_Name`: a read of a constant is replaced by its value, itself visited
   * first; every other node is rebuilt from its visited children.
   */
  function InlineExpr(consts: Consts, ghost rank: map<string, nat>, e: Expr): (r: Expr)
    requires Ranked(consts, rank)
    ensures NoConstLoad(consts, r)
    decreases Level(consts, rank, e), e
  {
    match e
    case Name(id, ctx) =>
      if ctx == Load && id in consts then InlineExpr(consts, rank, consts[id]) else e
    case Attribute(v, attr, ctx) => Attribute(InlineExpr(consts, rank, v), attr, ctx)
    case Constant(_) => e
    case Call(f, args) => Call(InlineExpr(consts, rank, f), InlineExprs(consts, rank, args))
    case BinOp(l, op, r) => BinOp(InlineExpr(consts, rank, l), op, InlineExpr(consts, rank, r))
    case Tuple(elts, ctx) => Tuple(InlineExprs(consts, rank, elts), ctx)
  }

  function InlineExprs(consts: Consts, ghost rank: map<string, nat>, es: seq<Expr>): (r: seq<Expr>)
    requires Ranked(consts, rank)
    ensures |r| == |es|
    ensures NoConstLoads(consts, r)
    decreases LevelOf(consts, rank, es), es
  {
    if es == [] then []
    else
      var r := [InlineExpr(consts, rank, es[0])] + InlineExprs(consts, rank, es[1..]);
      assert forall i :: 0 < i < |r| ==> r[i] == InlineExprs(consts, rank, es[1..])[i - 1];
      r
  }

  /** ConstInliner leaves an expression alone exactly when it reads no constant; so a second run changes nothing. */
  lemma {:induction false} InlineIdentityIff(consts: Consts, rank: map<string, nat>, e: Expr)
    requires Ranked(consts, rank)
    ensures InlineExpr(consts, rank, e) == e <==> NoConstLoad(consts, e)
    decreases e
  {
    match e
    case Name(_, _) =>
    case Attribute(v, _, _) => InlineIdentityIff(consts, rank, v);
    case Constant(_) =>
    case Call(f, args) =>
      InlineIdentityIff(consts, rank, f);
      InlinesIdentity(consts, rank, args);
    case BinOp(l, _, r) =>
      InlineIdentityIff(consts, rank, l);
      InlineIdentityIff(consts, rank, r);
    case Tuple(elts, _) => InlinesIdentity(consts, rank, elts);
  }

  lemma {:induction false} InlinesIdentity(consts: Consts, rank: map<string, nat>, es: seq<Expr>)
    requires Ranked(consts, rank)
    ensures InlineExprs(consts, rank, es) == es <==> NoConstLoads(consts, es)
    decreases es
  {
    if es != [] {
      InlineIdentityIff(consts, rank, es[0]);
      InlinesIdentity(consts, rank, es[1..]);
      var r := InlineExprs(consts, rank, es);
      assert r[0] == InlineExpr(consts, rank, es[0]) && r[1..] == InlineExprs(consts, rank, es[1..]);
      if NoConstLoads(consts, es) {
        assert NoConstLoads(consts, es[1..]) by {
          forall i | 0 <= i < |es[1..]| ensures NoConstLoad(consts, es[1..][i]) {
            assert es[1..][i] == es[i + 1];
          }
        }
        assert es == [es[0]] + es[1..];
      }
    }
  }

  lemma InlineIdempotent(consts: Consts, rank: map<string, nat>, e: Expr)
    requires Ranked(consts, rank)
    ensures InlineExpr(consts, rank, InlineExpr(consts, rank, e)) == InlineExpr(consts, rank, e)
  {
    InlineIdentityIff(consts, rank, InlineExpr(consts, rank, e));
  }

  /** A constant read is replaced by the constant's value with all constants in it replaced too. */
  lemma InlineConstRead(consts: Consts, rank: map<string, nat>, k: string)
    requires Ranked(consts, rank) && k in consts
    ensures InlineExpr(consts, rank, Name(k, Load)) == InlineExpr(consts, rank, consts[k])
    ensures NoConstLoad(consts, consts[k]) ==> InlineExpr(consts, rank, Name(k, Load)) == consts[k]
  {
    InlineIdentityIff(consts, rank, consts[k]);
  }

  /** A bound or deleted name is never replaced, even when it is a constant's. */
  lemma InlineSparesStores(consts: Consts, rank: map<string, nat>, k: string, ctx: Ctx)
    requires Ranked(consts, rank) && ctx != Load
    ensures InlineExpr(consts, rank, Name(k, ctx)) == Name(k, ctx)
  {
    InlineIdentityIff(consts, rank, Name(k, ctx));
  }

  function InlineArgs(consts: Consts, ghost rank: map<string, nat>, args: seq<Arg>): (r: seq<Arg>)
    requires Ranked(consts, rank)
    ensures |r| == |args|
    ensures forall i :: 0 <= i < |r| ==> r[i].arg == args[i].arg && r[i].annotation.Some? == args[i].annotation.Some?
    ensures forall i :: 0 <= i < |r| ==> r[i].annotation.Some? ==> NoConstLoad(consts, r[i].annotation.value)
  {
    seq(|args|, i requires 0 <= i < |args| =>
      Arg(args[i].arg, if args[i].annotation.Some? then Some(InlineExpr(consts, rank, args[i].annotation.value)) else None))
  }

  /** Every expression of every statement at any depth reads no constant. */
  predicate NoConstLoadStmts(consts: Consts, ss: seq<Stmt>) {
    AllExprs(ss, e => NoConstLoad(consts, e))
  }

  /** ConstInliner over a statement list: statements are rewritten in place, none is added or deleted. */
  function InlineStmts(consts: Consts, ghost rank: map<string, nat>, ss: seq<Stmt>): (r: seq<Stmt>)
    requires Ranked(consts, rank)
    ensures |r| == |ss|
    ensures NoConstLoadStmts(consts, r)
    decreases ss
  {
    if ss == [] then []
    else
      var r := [InlineStmt(consts, rank, ss[0])] + InlineStmts(consts, rank, ss[1..]);
      assert forall i :: 0 < i < |r| ==> r[i] == InlineStmts(consts, rank, ss[1..])[i - 1];
      r
  }

  function InlineStmt(consts: Consts, ghost rank: map<string, nat>, s: Stmt): (r: Stmt)
    requires Ranked(consts, rank)
    ensures AllExprsIn(r, e => NoConstLoad(consts, e))
    ensures IsImport(s) ==> r == s
    decreases s
  {
    match s
    case Import(_) => s
    case ImportFrom(_, _, _) => s
    case Assign(targets, value) => Assign(InlineExprs(consts, rank, targets), InlineExpr(consts, rank, value))
    case ExprStmt(value) => ExprStmt(InlineExpr(consts, rank, value))
    case Return(returned) =>
      if returned.Some? then Return(Some(InlineExpr(consts, rank, returned.value))) else s
    case If(test, body, orelse) =>
      If(InlineExpr(consts, rank, test), InlineStmts(consts, rank, body), InlineStmts(consts, rank, orelse))
    case FunctionDef(name, args, body) => FunctionDef(name, InlineArgs(consts, rank, args), InlineStmts(consts, rank, body))
    case ClassDef(name, bases, body) => ClassDef(name, InlineExprs(consts, rank, bases), InlineStmts(consts, rank, body))
  }

  /** An assignment whose first target is a Name of a constant keeps that target. */
  lemma InlineKeepsConstTarget(consts: Consts, rank: map<string, nat>, s: Stmt)
    requires Ranked(consts, rank)
    requires s.Assign? && s.targets[0].Name? && s.targets[0].ctx == Store
    ensures InlineStmt(consts, rank, s).Assign?
    ensures InlineStmt(consts, rank, s).targets[0] == s.targets[0]
  {
    InlineSparesStores(consts, rank, s.targets[0].id, Store);
  }

  // -------------------------------------------------------------- ConstRemover

  /** An assignment whose first target is a Name among `names`. */
  predicate AssignsOneOf(names: set<string>, s: Stmt) {
    s.Assign? && s.targets[0].Name? && s.targets[0].id in names
  }

  /**
   * ConstRemover: deletes every assignment whose first target is the Name of a
   * collected constant, at any depth (class bodies included), and only those.
   */
  function RemoveConsts(consts: Consts, ss: seq<Stmt>): (r: seq<Stmt>)
    ensures Nowhere(r, s => AssignsOneOf(consts.Keys, s))
    ensures |r| + CountWhere(ss, s => AssignsOneOf(consts.Keys, s)) == |ss|
    ensures forall s :: s in ss && !AssignsOneOf(consts.Keys, s) && NowhereIn(s, s => AssignsOneOf(consts.Keys, s)) ==> s in r
  {
    var drop := s => AssignsOneOf(consts.Keys, s);
    forall s | s in ss && !drop(s) && NowhereIn(s, drop)
      ensures s in DropStmts(ss, drop)
    {
      DropStmtsKeeps(ss, drop, s);
    }
    DropStmts(ss, drop)
  }

  /**
   * ConstRemover reaches class bodies, which ConstCollector skips: a class
   * attribute named like a constant is deleted although it was never collected.
   */
  lemma RemoveConstsReachesClassBodies(consts: Consts, name: string, bases: seq<Expr>, k: string, v: Expr)
    requires k in consts
    ensures CollectConsts(map[], false, [ClassDef(name, bases, [Assign([Name(k, Store)], v)])]) == map[]
    ensures RemoveConsts(consts, [ClassDef(name, bases, [Assign([Name(k, Store)], v)])]) == [ClassDef(name, bases, [])]
  {
    var a := Assign([Name(k, Store)], v);
    var c := ClassDef(name, bases, [a]);
    assert CollectConsts(map[], false, [c]) == CollectConsts(CollectConstsIn(map[], false, c), false, []);
    var drop := s => AssignsOneOf(consts.Keys, s);
    assert [a][1..] == [] && [c][1..] == [];
    assert DropStmts([a], drop) == [];
    assert !drop(c) && DropIn(c, drop) == ClassDef(name, bases, []);
    assert DropStmts([c], drop) == [ClassDef(name, bases, [])];
  }
}
