/**
 * EnumCollector and EnumInliner (scripts/build/ast_tools.py): the members
 * assigned in classes deriving from `Enum` or `IntEnum` are recorded with their
 * values, and every `EnumName.MEMBER` the inliner reaches is replaced by the value.
 */
module EnumPasses {
  import opened Wrappers
  import opened PyAst

  /** The `Enums` dictionary: enum class name to member name to the assigned expression. */
  type MemberMap = map<string, Expr>
  type Enums = map<string, MemberMap>

  /** EnumCollector's state: the dictionary and `_curr_enum`, the class member assignments go to. */
  datatype EnumState = EnumState(enums: Enums, curr: Option<string>)

  /** The current enum, when there is one, has an entry. */
  predicate Valid(st: EnumState) {
    st.curr.Some? ==> st.curr.value in st.enums
  }

  predicate IsClassDef(s: Stmt) { s.ClassDef? }

  /** One of the bases is the bare Name `Enum` or `IntEnum`; `enum.Enum` and other spellings are not recognised. */
  predicate IsEnumClass(bases: seq<Expr>) {
    exists i :: 0 <= i < |bases| && bases[i].Name? && (bases[i].id == "Enum" || bases[i].id == "IntEnum")
  }

  /**
   * Entering class `name`: an enum class becomes the current enum with its
   * members reset to none; any other class clears the current enum.
   */
  function EnterClass(st: EnumState, name: string, bases: seq<Expr>): (r: EnumState)
    ensures Valid(r)
    ensures r.curr.Some? <==> IsEnumClass(bases)
    ensures r.curr.Some? ==> r.curr.value == name && r.enums == st.enums[name := map[]]
    ensures r.curr.None? ==> r.enums == st.enums
  {
    if IsEnumClass(bases) then EnumState(st.enums[name := map[]], Some(name))
    else EnumState(st.enums, None)
  }

  /**
   * The state after visiting `ss`. The current enum only changes on entering a
   * class, so a list without classes leaves it as it was, and leaves the whole
   * state alone when there is no current enum.
   */
  function CollectEnums(st: EnumState, ss: seq<Stmt>): (r: EnumState)
    requires Valid(st)
    ensures Valid(r)
    ensures st.enums.Keys <= r.enums.Keys
    ensures Nowhere(ss, IsClassDef) ==> r.curr == st.curr
    ensures Nowhere(ss, IsClassDef) && st.curr.None? ==> r == st
    decreases ss
  {
    if ss == [] then st
    else
      var r := CollectEnums(CollectEnumsIn(st, ss[0]), ss[1..]);
      assert Nowhere(ss, IsClassDef) ==> Nowhere(ss[1..], IsClassDef) by {
        if Nowhere(ss, IsClassDef) {
          forall i | 0 <= i < |ss[1..]| ensures !IsClassDef(ss[1..][i]) && NowhereIn(ss[1..][i], IsClassDef) {
            assert ss[1..][i] == ss[i + 1];
          }
        }
      }
      r
  }

  /** One statement: `visit_ClassDef`, `visit_Assign`, or the generic traversal of function and `if` bodies. */
  function CollectEnumsIn(st: EnumState, s: Stmt): (r: EnumState)
    requires Valid(st)
    ensures Valid(r)
    ensures st.enums.Keys <= r.enums.Keys
    ensures !IsClassDef(s) && NowhereIn(s, IsClassDef) ==> r.curr == st.curr
    ensures !IsClassDef(s) && NowhereIn(s, IsClassDef) && st.curr.None? ==> r == st
    decreases s
  {
    match s
    case ClassDef(name, bases, body) => CollectEnums(EnterClass(st, name, bases), body)
    case Assign(targets, value) =>
      if targets[0].Name? && st.curr.Some? then
        var e := st.curr.value;
        EnumState(st.enums[e := st.enums[e][targets[0].id := value]], st.curr)
      else st
    case FunctionDef(_, _, body) => CollectEnums(st, body)
    case If(_, body, orelse) => CollectEnums(CollectEnums(st, body), orelse)
    case _ => st
  }

  /** The collector is shared by all modules: visiting `a` then `b` is visiting `a + b`. */
  lemma {:induction false} CollectEnumsAppend(st: EnumState, a: seq<Stmt>, b: seq<Stmt>)
    requires Valid(st)
    ensures CollectEnums(st, a + b) == CollectEnums(CollectEnums(st, a), b)
    decreases a
  {
    if a == [] {
      assert a + b == b;
    } else {
      assert (a + b)[0] == a[0] && (a + b)[1..] == a[1..] + b;
      CollectEnumsAppend(CollectEnumsIn(st, a[0]), a[1..], b);
    }
  }

  /**
   * An independent account of the members recorded from a class-free list:
   * every assignment with a Name first target, at any depth, in order.
   */
  function Members(m: MemberMap, ss: seq<Stmt>): MemberMap
    decreases ss
  {
    if ss == [] then m else Members(MembersIn(m, ss[0]), ss[1..])
  }

  function MembersIn(m: MemberMap, s: Stmt): MemberMap
    decreases s
  {
    match s
    case Assign(targets, value) => if targets[0].Name? then m[targets[0].id := value] else m
    case FunctionDef(_, _, body) => Members(m, body)
    case If(_, body, orelse) => Members(Members(m, body), orelse)
    case _ => m
  }

  /** While enum `e` is current and no class is entered, every assignment is recorded as a member of `e`. */
  lemma {:induction false} CollectIntoCurrent(st: EnumState, ss: seq<Stmt>)
    requires Valid(st) && st.curr.Some? && Nowhere(ss, IsClassDef)
    ensures CollectEnums(st, ss)
         == EnumState(st.enums[st.curr.value := Members(st.enums[st.curr.value], ss)], st.curr)
    decreases ss
  {
    if ss != [] {
      assert !IsClassDef(ss[0]) && NowhereIn(ss[0], IsClassDef);
      assert Nowhere(ss[1..], IsClassDef) by {
        forall i | 0 <= i < |ss[1..]| ensures !IsClassDef(ss[1..][i]) && NowhereIn(ss[1..][i], IsClassDef) {
          assert ss[1..][i] == ss[i + 1];
        }
      }
      CollectIntoCurrentIn(st, ss[0]);
      CollectIntoCurrent(CollectEnumsIn(st, ss[0]), ss[1..]);
    }
  }

  lemma {:induction false} CollectIntoCurrentIn(st: EnumState, s: Stmt)
    requires Valid(st) && st.curr.Some? && !IsClassDef(s) && NowhereIn(s, IsClassDef)
    ensures CollectEnumsIn(st, s)
         == EnumState(st.enums[st.curr.value := MembersIn(st.enums[st.curr.value], s)], st.curr)
    decreases s
  {
    var e := st.curr.value;
    match s
    case FunctionDef(_, _, body) => CollectIntoCurrent(st, body);
    case If(_, body, orelse) =>
      CollectIntoCurrent(st, body);
      var mid := CollectEnums(st, body);
      CollectIntoCurrent(mid, orelse);
      assert mid.enums[e := Members(mid.enums[e], orelse)]
          == st.enums[e := Members(Members(st.enums[e], body), orelse)];
    case Assign(_, _) =>
    case Import(_) | ImportFrom(_, _, _) | ExprStmt(_) | Return(_) =>
      assert st.enums[e := st.enums[e]] == st.enums;
  }

  /**
   * A class deriving from `Enum` or `IntEnum` whose body holds no class gets
   * exactly the members assigned in its body, and stays the current enum after
   * it is left.
   */
  lemma EnumClassMembers(st: EnumState, name: string, bases: seq<Expr>, body: seq<Stmt>)
    requires Valid(st) && IsEnumClass(bases) && Nowhere(body, IsClassDef)
    ensures var r := CollectEnumsIn(st, ClassDef(name, bases, body));
      r.curr == Some(name) && name in r.enums && r.enums[name] == Members(map[], body)
  {
    CollectIntoCurrent(EnterClass(st, name, bases), body);
  }

  /** Any other class clears the current enum, so its own assignments are not recorded. */
  lemma OtherClassClears(st: EnumState, name: string, bases: seq<Expr>, body: seq<Stmt>)
    requires Valid(st) && !IsEnumClass(bases) && Nowhere(body, IsClassDef)
    ensures CollectEnumsIn(st, ClassDef(name, bases, body)) == EnumState(st.enums, None)
  {
  }

  /**
   * Leaving an enum class does not clear the current enum: an assignment after
   * it, even in the next module visited, is recorded as one of its members.
   */
  lemma {:induction false} CurrentEnumCarriesOver(st: EnumState, name: string, bases: seq<Expr>, x: string, v: Expr)
    requires Valid(st) && IsEnumClass(bases)
    ensures var r := CollectEnums(st, [ClassDef(name, bases, [])] + [Assign([Name(x, Store)], v)]);
      name in r.enums && x in r.enums[name] && r.enums[name][x] == v
  {
    var c := ClassDef(name, bases, []);
    var a := Assign([Name(x, Store)], v);
    CollectEnumsAppend(st, [c], [a]);
    var mid := CollectEnums(st, [c]);
    assert mid == CollectEnums(CollectEnumsIn(st, c), []);
    assert mid.curr == Some(name);
    assert CollectEnums(mid, [a]) == CollectEnums(CollectEnumsIn(mid, a), []);
  }

  /** EnumCollector: the dictionary and the current enum, both kept across every module visited. */
  class EnumCollector {
    var enums: Enums
    var curr: Option<string>

    constructor ()
      ensures enums == map[] && curr == None
    {
      enums := map[];
      curr := None;
    }

    method Visit(ss: seq<Stmt>)
      requires Valid(EnumState(enums, curr))
      modifies this
      ensures EnumState(enums, curr) == CollectEnums(old(EnumState(enums, curr)), ss)
      decreases ss, 2
    {
      var i := 0;
      while i < |ss|
        invariant 0 <= i <= |ss|
        invariant Valid(EnumState(enums, curr))
        invariant CollectEnums(old(EnumState(enums, curr)), ss) == CollectEnums(EnumState(enums, curr), ss[i..])
      {
        assert ss[i..][0] == ss[i] && ss[i..][1..] == ss[i + 1..];
        VisitStmt(ss[i]);
        i := i + 1;
      }
    }

    method VisitStmt(s: Stmt)
      requires Valid(EnumState(enums, curr))
      modifies this
      ensures EnumState(enums, curr) == CollectEnumsIn(old(EnumState(enums, curr)), s)
      decreases s, 1
    {
      match s
      case ClassDef(_, _, _) => VisitClassDef(s);
      case Assign(_, _) => VisitAssign(s);
      case FunctionDef(_, _, body) => Visit(body);
      case If(_, body, orelse) =>
        Visit(body);
        Visit(orelse);
      case _ =>
    }

    /** `visit_ClassDef` */
    method VisitClassDef(s: Stmt)
      requires s.ClassDef? && Valid(EnumState(enums, curr))
      modifies this
      ensures EnumState(enums, curr) == CollectEnums(EnterClass(old(EnumState(enums, curr)), s.name, s.bases), s.body)
      decreases s, 0
    {
      var isInEnum := false;
      for i := 0 to |s.bases|
        invariant isInEnum <==> exists j :: 0 <= j < i && s.bases[j].Name? && (s.bases[j].id == "Enum" || s.bases[j].id == "IntEnum")
      {
        var base := s.bases[i];
        if base.Name? && (base.id == "Enum" || base.id == "IntEnum") {
          isInEnum := true;
        }
      }
      if isInEnum {
        curr := Some(s.name);
        enums := enums[s.name := map[]];
      } else {
        curr := None;
      }
      Visit(s.body);
    }

    /** `visit_Assign` */
    method VisitAssign(s: Stmt)
      requires s.Assign? && Valid(EnumState(enums, curr))
      modifies this
      ensures EnumState(enums, curr) == CollectEnumsIn(old(EnumState(enums, curr)), s)
    {
      var target := s.targets[0];
      if target.Name? && curr.Some? {
        enums := enums[curr.value := enums[curr.value][target.id := s.value]];
      }
    }
  }

  // --------------------------------------------------------------- EnumInliner

  /** `E.m` where `E` is a bare Name of a recorded enum and `m` one of its recorded members. */
  predicate IsMemberRef(enums: Enums, e: Expr) {
    e.Attribute? && e.value.Name? && e.value.id in enums && e.attr in enums[e.value.id]
  }

  function Max(a: nat, b: nat): nat { if a < b then b else a }

  /** The largest rank, plus one, of a member reference the inliner reaches in `e`. */
  ghost function Level(enums: Enums, rank: map<(string, string), nat>, e: Expr): nat
    decreases e
  {
    match e
    case Attribute(v, m, _) =>
      if IsMemberRef(enums, e) && (v.id, m) in rank then rank[(v.id, m)] + 1 else 0
    case Name(_, _) => 0
    case Constant(_) => 0
    case Call(f, args) => Max(Level(enums, rank, f), LevelOf(enums, rank, args))
    case BinOp(l, _, r) => Max(Level(enums, rank, l), Level(enums, rank, r))
    case Tuple(elts, _) => LevelOf(enums, rank, elts)
  }

  ghost function LevelOf(enums: Enums, rank: map<(string, string), nat>, es: seq<Expr>): nat
    decreases es
  {
    if es == [] then 0 else Max(Level(enums, rank, es[0]), LevelOf(enums, rank, es[1..]))
  }

  /** The member values are acyclic: each refers only to members of smaller rank. */
  ghost predicate Ranked(enums: Enums, rank: map<(string, string), nat>) {
    forall e, m :: e in enums && m in enums[e] ==> (e, m) in rank && Level(enums, rank, enums[e][m]) <= rank[(e, m)]
  }

  /** No position the inliner reaches holds a member reference; the inside of any other Attribute is not reached. */
  predicate RefFree(enums: Enums, e: Expr)
    decreases e
  {
    match e
    case Attribute(_, _, _) => !IsMemberRef(enums, e)
    case Name(_, _) => true
    case Constant(_) => true
    case Call(f, args) => RefFree(enums, f) && RefsFree(enums, args)
    case BinOp(l, _, r) => RefFree(enums, l) && RefFree(enums, r)
    case Tuple(elts, _) => RefsFree(enums, elts)
  }

  predicate RefsFree(enums: Enums, es: seq<Expr>)
    decreases es
  {
    forall i :: 0 <= i < |es| ==> RefFree(enums, es[i])
  }

  /**
   * `visit_Attribute`: a member reference is replaced by the member's value,
   * itself visited; any other Attribute is returned as it is, without visiting
   * its inside; other nodes are rebuilt from their visited children.
   */
  function InlineEnums(enums: Enums, ghost rank: map<(string, string), nat>, e: Expr): (r: Expr)
    requires Ranked(enums, rank)
    ensures RefFree(enums, r)
    decreases Level(enums, rank, e), e
  {
    match e
    case Attribute(v, m, _) => if IsMemberRef(enums, e) then InlineEnums(enums, rank, enums[v.id][m]) else e
    case Name(_, _) => e
    case Constant(_) => e
    case Call(f, args) => Call(InlineEnums(enums, rank, f), InlineEnumsAll(enums, rank, args))
    case BinOp(l, op, r) => BinOp(InlineEnums(enums, rank, l), op, InlineEnums(enums, rank, r))
    case Tuple(elts, ctx) => Tuple(InlineEnumsAll(enums, rank, elts), ctx)
  }

  function InlineEnumsAll(enums: Enums, ghost rank: map<(string, string), nat>, es: seq<Expr>): (r: seq<Expr>)
    requires Ranked(enums, rank)
    ensures |r| == |es|
    ensures RefsFree(enums, r)
    decreases LevelOf(enums, rank, es), es
  {
    if es == [] then []
    else
      var r := [InlineEnums(enums, rank, es[0])] + InlineEnumsAll(enums, rank, es[1..]);
      assert forall i :: 0 < i < |r| ==> r[i] == InlineEnumsAll(enums, rank, es[1..])[i - 1];
      r
  }

  /** EnumInliner leaves an expression alone exactly when no position it reaches is a member reference. */
  lemma {:induction false} InlineEnumsIdentityIff(enums: Enums, rank: map<(string, string), nat>, e: Expr)
    requires Ranked(enums, rank)
    ensures InlineEnums(enums, rank, e) == e <==> RefFree(enums, e)
    decreases e
  {
    match e
    case Attribute(_, _, _) =>
    case Name(_, _) =>
    case Constant(_) =>
    case Call(f, args) =>
      InlineEnumsIdentityIff(enums, rank, f);
      InlineEnumsAllIdentity(enums, rank, args);
    case BinOp(l, _, r) =>
      InlineEnumsIdentityIff(enums, rank, l);
      InlineEnumsIdentityIff(enums, rank, r);
    case Tuple(elts, _) => InlineEnumsAllIdentity(enums, rank, elts);
  }

  lemma {:induction false} InlineEnumsAllIdentity(enums: Enums, rank: map<(string, string), nat>, es: seq<Expr>)
    requires Ranked(enums, rank)
    ensures InlineEnumsAll(enums, rank, es) == es <==> RefsFree(enums, es)
    decreases es
  {
    if es != [] {
      InlineEnumsIdentityIff(enums, rank, es[0]);
      InlineEnumsAllIdentity(enums, rank, es[1..]);
      var r := InlineEnumsAll(enums, rank, es);
      assert r[0] == InlineEnums(enums, rank, es[0]) && r[1..] == InlineEnumsAll(enums, rank, es[1..]);
      if RefsFree(enums, es) {
        assert RefsFree(enums, es[1..]) by {
          forall i | 0 <= i < |es[1..]| ensures RefFree(enums, es[1..][i]) {
            assert es[1..][i] == es[i + 1];
          }
        }
        assert es == [es[0]] + es[1..];
      }
    }
  }

  /** A member reference becomes the member's value, inlined in turn. */
  lemma InlineMemberRef(enums: Enums, rank: map<(string, string), nat>, e: string, m: string, ctx: Ctx, nameCtx: Ctx)
    requires Ranked(enums, rank) && e in enums && m in enums[e]
    ensures InlineEnums(enums, rank, Attribute(Name(e, nameCtx), m, ctx)) == InlineEnums(enums, rank, enums[e][m])
    ensures RefFree(enums, enums[e][m]) ==> InlineEnums(enums, rank, Attribute(Name(e, nameCtx), m, ctx)) == enums[e][m]
  {
    InlineEnumsIdentityIff(enums, rank, enums[e][m]);
  }

  /** `E.m.value` is left as it is, member reference inside included, because the outer Attribute is not a reference. */
  lemma {:induction false} MemberAttributeUntouched(enums: Enums, rank: map<(string, string), nat>, inner: Expr, attr: string, ctx: Ctx)
    requires Ranked(enums, rank) && IsMemberRef(enums, inner)
    ensures InlineEnums(enums, rank, Attribute(inner, attr, ctx)) == Attribute(inner, attr, ctx)
  {
    assert !IsMemberRef(enums, Attribute(inner, attr, ctx));
  }

  function InlineEnumsArgs(enums: Enums, ghost rank: map<(string, string), nat>, args: seq<Arg>): (r: seq<Arg>)
    requires Ranked(enums, rank)
    ensures |r| == |args|
    ensures forall i :: 0 <= i < |r| ==> r[i].arg == args[i].arg && r[i].annotation.Some? == args[i].annotation.Some?
    ensures forall i :: 0 <= i < |r| ==> r[i].annotation.Some? ==> RefFree(enums, r[i].annotation.value)
  {
    seq(|args|, i requires 0 <= i < |args| =>
      Arg(args[i].arg, if args[i].annotation.Some? then Some(InlineEnums(enums, rank, args[i].annotation.value)) else None))
  }

  /** EnumInliner over a statement list: statements are rewritten in place, none is added or deleted. */
  function InlineEnumStmts(enums: Enums, ghost rank: map<(string, string), nat>, ss: seq<Stmt>): (r: seq<Stmt>)
    requires Ranked(enums, rank)
    ensures |r| == |ss|
    ensures AllExprs(r, e => RefFree(enums, e))
    decreases ss
  {
    if ss == [] then []
    else
      var r := [InlineEnumStmt(enums, rank, ss[0])] + InlineEnumStmts(enums, rank, ss[1..]);
      assert forall i :: 0 < i < |r| ==> r[i] == InlineEnumStmts(enums, rank, ss[1..])[i - 1];
      r
  }

  function InlineEnumStmt(enums: Enums, ghost rank: map<(string, string), nat>, s: Stmt): (r: Stmt)
    requires Ranked(enums, rank)
    ensures AllExprsIn(r, e => RefFree(enums, e))
    ensures IsImport(s) ==> r == s
    decreases s
  {
    match s
    case Import(_) => s
    case ImportFrom(_, _, _) => s
    case Assign(targets, value) => Assign(InlineEnumsAll(enums, rank, targets), InlineEnums(enums, rank, value))
    case ExprStmt(value) => ExprStmt(InlineEnums(enums, rank, value))
    case Return(returned) =>
      if returned.Some? then Return(Some(InlineEnums(enums, rank, returned.value))) else s
    case If(test, body, orelse) =>
      If(InlineEnums(enums, rank, test), InlineEnumStmts(enums, rank, body), InlineEnumStmts(enums, rank, orelse))
    case FunctionDef(name, args, body) =>
      FunctionDef(name, InlineEnumsArgs(enums, rank, args), InlineEnumStmts(enums, rank, body))
    case ClassDef(name, bases, body) =>
      ClassDef(name, InlineEnumsAll(enums, rank, bases), InlineEnumStmts(enums, rank, body))
  }

  /** EnumInliner leaves statements holding no reference where it looks unchanged. */
  lemma {:induction false} InlineEnumStmtsKeep(enums: Enums, rank: map<(string, string), nat>, ss: seq<Stmt>)
    requires Ranked(enums, rank)
    requires AllExprs(ss, e => RefFree(enums, e))
    ensures InlineEnumStmts(enums, rank, ss) == ss
    decreases ss
  {
    if ss != [] {
      InlineEnumStmtKeeps(enums, rank, ss[0]);
      assert AllExprs(ss[1..], e => RefFree(enums, e)) by {
        forall i | 0 <= i < |ss[1..]| ensures AllExprsIn(ss[1..][i], e => RefFree(enums, e)) {
          assert ss[1..][i] == ss[i + 1];
        }
      }
      InlineEnumStmtsKeep(enums, rank, ss[1..]);
      assert ss == [ss[0]] + ss[1..];
    }
  }

  lemma {:induction false} InlineEnumStmtKeeps(enums: Enums, rank: map<(string, string), nat>, s: Stmt)
    requires Ranked(enums, rank)
    requires AllExprsIn(s, e => RefFree(enums, e))
    ensures InlineEnumStmt(enums, rank, s) == s
    decreases s
  {
    match s
    case Import(_) =>
    case ImportFrom(_, _, _) =>
    case Assign(targets, value) =>
      InlineEnumsAllIdentity(enums, rank, targets);
      InlineEnumsIdentityIff(enums, rank, value);
    case ExprStmt(value) => InlineEnumsIdentityIff(enums, rank, value);
    case Return(returned) =>
      if returned.Some? {
        InlineEnumsIdentityIff(enums, rank, returned.value);
      }
    case If(test, body, orelse) =>
      InlineEnumsIdentityIff(enums, rank, test);
      InlineEnumStmtsKeep(enums, rank, body);
      InlineEnumStmtsKeep(enums, rank, orelse);
    case FunctionDef(name, args, body) =>
      var r := InlineEnumsArgs(enums, rank, args);
      forall i | 0 <= i < |args| ensures r[i] == args[i] {
        if args[i].annotation.Some? {
          InlineEnumsIdentityIff(enums, rank, args[i].annotation.value);
        }
      }
      InlineEnumStmtsKeep(enums, rank, body);
    case ClassDef(name, bases, body) =>
      InlineEnumsAllIdentity(enums, rank, bases);
      InlineEnumStmtsKeep(enums, rank, body);
  }

  /** EnumInliner is idempotent: a second run finds no reference where it looks. */
  lemma InlineEnumStmtsIdempotent(enums: Enums, rank: map<(string, string), nat>, ss: seq<Stmt>)
    requires Ranked(enums, rank)
    ensures InlineEnumStmts(enums, rank, InlineEnumStmts(enums, rank, ss)) == InlineEnumStmts(enums, rank, ss)
  {
    InlineEnumStmtsKeep(enums, rank, InlineEnumStmts(enums, rank, ss));
  }
}
