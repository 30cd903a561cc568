/**
 * The build script (scripts/build/build.py): every module is visited by four
 * shared collectors, the collected imports are de-duplicated, and the collected
 * body goes through the passes in a fixed order.
 */
module Build {
  import opened Wrappers
  import opened PyStr
  import opened PyAst
  import opened Imports
  import opened BodyPasses
  import C = ConstPasses
  import E = EnumPasses

  /**
   * What an enum member's value is once ConstInliner has run over the body.
   * The dictionary shares its value nodes with the assignments in the body, and
   * ConstInliner rewrites the children of a node in place but replaces a Name
   * only in the field of its parent: so a compound value is seen inlined, while
   * a value that is itself a bare Name stays as it was collected.
   */
  function SharedValue(consts: C.Consts, ghost crank: map<string, nat>, v: Expr): (r: Expr)
    requires C.Ranked(consts, crank)
    ensures !v.Name? ==> C.NoConstLoad(consts, r)
    ensures v.Name? ==> r == v
  {
    if v.Name? then v else C.InlineExpr(consts, crank, v)
  }

  /** The enum dictionary as EnumInliner finds it in the source. */
  function SharedEnums(consts: C.Consts, ghost crank: map<string, nat>, enums: E.Enums): (r: E.Enums)
    requires C.Ranked(consts, crank)
    ensures r.Keys == enums.Keys
    ensures forall e :: e in r ==> r[e].Keys == enums[e].Keys
  {
    map e | e in enums :: map m | m in enums[e] :: SharedValue(consts, crank, enums[e][m])
  }

  /** The enum dictionary with every member value inlined, bare names included. */
  function InlinedEnums(consts: C.Consts, ghost crank: map<string, nat>, enums: E.Enums): (r: E.Enums)
    requires C.Ranked(consts, crank)
    ensures r.Keys == enums.Keys
    ensures forall e :: e in r ==> r[e].Keys == enums[e].Keys
    ensures forall e, m :: e in r && m in r[e] ==> C.NoConstLoad(consts, r[e][m])
  {
    map e | e in enums :: map m | m in enums[e] :: C.InlineExpr(consts, crank, enums[e][m])
  }

  /**
   * build.py:61-66 as written: AllRemover, FlMidiMsgRemover, DocstringRemover,
   * ConstInliner, ConstRemover, EnumInliner, each applied to the result of the
   * one before, the enum values being those ConstInliner left behind.
   */
  function FlattenBodyAsWritten(body: seq<Stmt>, consts: C.Consts, ghost crank: map<string, nat>,
                                enums: E.Enums, ghost erank: map<(string, string), nat>): (r: seq<Stmt>)
    requires C.Ranked(consts, crank)
    requires E.Ranked(SharedEnums(consts, crank, enums), erank)
    ensures AllExprs(r, e => E.RefFree(SharedEnums(consts, crank, enums), e))
  {
    var noAll := RemoveAll(body);
    var noFlMidiMsg := ClearStmts(noAll);
    var noDocs := RemoveDocstrings(noFlMidiMsg);
    var inlined := C.InlineStmts(consts, crank, noDocs);
    var noConsts := C.RemoveConsts(consts, inlined);
    E.InlineEnumStmts(SharedEnums(consts, crank, enums), erank, noConsts)
  }

  /**
   * The same composition with every member value inlined before EnumInliner
   * substitutes it: then no constant is read anywhere in the result.
   */
  function FlattenBody(body: seq<Stmt>, consts: C.Consts, ghost crank: map<string, nat>,
                       enums: E.Enums, ghost erank: map<(string, string), nat>): (r: seq<Stmt>)
    requires C.Ranked(consts, crank)
    requires E.Ranked(InlinedEnums(consts, crank, enums), erank)
    ensures C.NoConstLoadStmts(consts, r)
    ensures AllExprs(r, e => E.RefFree(InlinedEnums(consts, crank, enums), e))
  {
    var noAll := RemoveAll(body);
    var noFlMidiMsg := ClearStmts(noAll);
    var noDocs := RemoveDocstrings(noFlMidiMsg);
    var inlined := C.InlineStmts(consts, crank, noDocs);
    var noConsts := C.RemoveConsts(consts, inlined);
    var enumsNow := InlinedEnums(consts, crank, enums);
    DropStmtsAllExprs(inlined, s => C.AssignsOneOf(consts.Keys, s), e => C.NoConstLoad(consts, e));
    EnumInlineKeepsNoConst(consts, enumsNow, erank, noConsts);
    E.InlineEnumStmts(enumsNow, erank, noConsts)
  }

  /** Enum values that read no constant cannot bring a constant read in. */
  lemma {:induction false} EnumExprKeepsNoConst(consts: C.Consts, enums: E.Enums, erank: map<(string, string), nat>, x: Expr)
    requires E.Ranked(enums, erank)
    requires forall e, m :: e in enums && m in enums[e] ==> C.NoConstLoad(consts, enums[e][m])
    requires C.NoConstLoad(consts, x)
    ensures C.NoConstLoad(consts, E.InlineEnums(enums, erank, x))
    decreases E.Level(enums, erank, x), x
  {
    match x
    case Attribute(v, m, _) =>
      if E.IsMemberRef(enums, x) {
        EnumExprKeepsNoConst(consts, enums, erank, enums[v.id][m]);
      }
    case Name(_, _) =>
    case Constant(_) =>
    case Call(f, args) =>
      EnumExprKeepsNoConst(consts, enums, erank, f);
      EnumExprsKeepNoConst(consts, enums, erank, args);
    case BinOp(l, _, r) =>
      EnumExprKeepsNoConst(consts, enums, erank, l);
      EnumExprKeepsNoConst(consts, enums, erank, r);
    case Tuple(elts, _) => EnumExprsKeepNoConst(consts, enums, erank, elts);
  }

  lemma {:induction false} EnumExprsKeepNoConst(consts: C.Consts, enums: E.Enums, erank: map<(string, string), nat>, xs: seq<Expr>)
    requires E.Ranked(enums, erank)
    requires forall e, m :: e in enums && m in enums[e] ==> C.NoConstLoad(consts, enums[e][m])
    requires C.NoConstLoads(consts, xs)
    ensures C.NoConstLoads(consts, E.InlineEnumsAll(enums, erank, xs))
    decreases E.LevelOf(enums, erank, xs), xs
  {
    if xs != [] {
      EnumExprKeepsNoConst(consts, enums, erank, xs[0]);
      assert C.NoConstLoads(consts, xs[1..]) by {
        forall i | 0 <= i < |xs[1..]| ensures C.NoConstLoad(consts, xs[1..][i]) {
          assert xs[1..][i] == xs[i + 1];
        }
      }
      EnumExprsKeepNoConst(consts, enums, erank, xs[1..]);
      var r := E.InlineEnumsAll(enums, erank, xs);
      assert forall i :: 0 < i < |r| ==> r[i] == E.InlineEnumsAll(enums, erank, xs[1..])[i - 1];
    }
  }

  lemma {:induction false} EnumInlineKeepsNoConst(consts: C.Consts, enums: E.Enums, erank: map<(string, string), nat>, ss: seq<Stmt>)
    requires E.Ranked(enums, erank)
    requires forall e, m :: e in enums && m in enums[e] ==> C.NoConstLoad(consts, enums[e][m])
    requires C.NoConstLoadStmts(consts, ss)
    ensures C.NoConstLoadStmts(consts, E.InlineEnumStmts(enums, erank, ss))
    decreases ss
  {
    if ss != [] {
      EnumStmtKeepsNoConst(consts, enums, erank, ss[0]);
      assert C.NoConstLoadStmts(consts, ss[1..]) by {
        forall i | 0 <= i < |ss[1..]| ensures AllExprsIn(ss[1..][i], e => C.NoConstLoad(consts, e)) {
          assert ss[1..][i] == ss[i + 1];
        }
      }
      EnumInlineKeepsNoConst(consts, enums, erank, ss[1..]);
      var r := E.InlineEnumStmts(enums, erank, ss);
      assert forall i :: 0 < i < |r| ==> r[i] == E.InlineEnumStmts(enums, erank, ss[1..])[i - 1];
    }
  }

  lemma {:induction false} EnumStmtKeepsNoConst(consts: C.Consts, enums: E.Enums, erank: map<(string, string), nat>, s: Stmt)
    requires E.Ranked(enums, erank)
    requires forall e, m :: e in enums && m in enums[e] ==> C.NoConstLoad(consts, enums[e][m])
    requires AllExprsIn(s, e => C.NoConstLoad(consts, e))
    ensures AllExprsIn(E.InlineEnumStmt(enums, erank, s), e => C.NoConstLoad(consts, e))
    decreases s
  {
    match s
    case Import(_) =>
    case ImportFrom(_, _, _) =>
    case Assign(targets, value) =>
      EnumExprsKeepNoConst(consts, enums, erank, targets);
      EnumExprKeepsNoConst(consts, enums, erank, value);
    case ExprStmt(value) => EnumExprKeepsNoConst(consts, enums, erank, value);
    case Return(returned) =>
      if returned.Some? {
        EnumExprKeepsNoConst(consts, enums, erank, returned.value);
      }
    case If(test, body, orelse) =>
      EnumExprKeepsNoConst(consts, enums, erank, test);
      EnumInlineKeepsNoConst(consts, enums, erank, body);
      EnumInlineKeepsNoConst(consts, enums, erank, orelse);
    case FunctionDef(_, args, body) =>
      forall i | 0 <= i < |args| && args[i].annotation.Some?
        ensures C.NoConstLoad(consts, E.InlineEnums(enums, erank, args[i].annotation.value))
      {
        EnumExprKeepsNoConst(consts, enums, erank, args[i].annotation.value);
      }
      EnumInlineKeepsNoConst(consts, enums, erank, body);
    case ClassDef(_, bases, body) =>
      EnumExprsKeepNoConst(consts, enums, erank, bases);
      EnumInlineKeepsNoConst(consts, enums, erank, body);
  }

  /** The modules' statement lists joined in the order in which they are visited. */
  function Concat(trees: seq<seq<Stmt>>): seq<Stmt> {
    if trees == [] then [] else Concat(trees[..|trees| - 1]) + trees[|trees| - 1]
  }

  /** Visiting one more module appends its statements to the merged ones. */
  lemma ConcatSnoc(trees: seq<seq<Stmt>>, t: seq<Stmt>)
    ensures Concat(trees + [t]) == Concat(trees) + t
  {
  }

  /**
   * `main`: the four collectors are shared by every module, in visiting order;
   * the collected imports then go through ImportsRemover and the collected body
   * through the passes in the order build.py:61-66 runs them, so the body is
   * FlattenBodyAsWritten's, stale enum values included. Reading, parsing,
   * unparsing and writing files are left out.
   */
  method BuildScript(trees: seq<seq<Stmt>>, modules: set<string>, packages: set<string>,
                     ghost crank: map<string, nat>, ghost erank: map<(string, string), nat>)
    returns (imports: seq<Stmt>, body: seq<Stmt>)
    requires C.Ranked(C.CollectConsts(map[], false, Concat(trees)), crank)
    requires E.Ranked(SharedEnums(C.CollectConsts(map[], false, Concat(trees)), crank,
                                  E.CollectEnums(E.EnumState(map[], None), Concat(trees)).enums), erank)
    ensures imports == RemoveImports(modules, packages, {}, ImportsIn(Concat(trees))).kept
    ensures body == FlattenBodyAsWritten(TopLevelBody(Concat(trees)), C.CollectConsts(map[], false, Concat(trees)), crank,
                                E.CollectEnums(E.EnumState(map[], None), Concat(trees)).enums, erank)
  {
    var bodyCollector := new BodyCollector();
    var importsCollector := new ImportsCollector();
    var constCollector := new C.ConstCollector();
    var enumCollector := new E.EnumCollector();
    for i := 0 to |trees|
      invariant bodyCollector.body == TopLevelBody(Concat(trees[..i]))
      invariant importsCollector.imports == ImportsIn(Concat(trees[..i]))
      invariant constCollector.consts == C.CollectConsts(map[], false, Concat(trees[..i]))
      invariant !constCollector.isInClass
      invariant E.EnumState(enumCollector.enums, enumCollector.curr)
             == E.CollectEnums(E.EnumState(map[], None), Concat(trees[..i]))
    {
      bodyCollector.VisitModule(trees[i]);
      importsCollector.Visit(trees[i]);
      constCollector.Visit(trees[i]);
      enumCollector.Visit(trees[i]);
      BuildStep(trees, i);
    }
    assert trees[..|trees|] == trees;
    var remover := new ImportsRemover(modules, packages);
    imports := remover.VisitModule(importsCollector.imports);
    body := FlattenBodyAsWritten(bodyCollector.body, constCollector.consts, crank, enumCollector.enums, erank);
  }

  /** What each collector gathers from the first `i + 1` modules: what it had, then module `i`'s share. */
  lemma BuildStep(trees: seq<seq<Stmt>>, i: nat)
    requires i < |trees|
    ensures TopLevelBody(Concat(trees[..i + 1])) == TopLevelBody(Concat(trees[..i])) + TopLevelBody(trees[i])
    ensures ImportsIn(Concat(trees[..i + 1])) == ImportsIn(Concat(trees[..i])) + ImportsIn(trees[i])
    ensures C.CollectConsts(map[], false, Concat(trees[..i + 1]))
         == C.CollectConsts(C.CollectConsts(map[], false, Concat(trees[..i])), false, trees[i])
    ensures E.CollectEnums(E.EnumState(map[], None), Concat(trees[..i + 1]))
         == E.CollectEnums(E.CollectEnums(E.EnumState(map[], None), Concat(trees[..i])), trees[i])
  {
    var before := Concat(trees[..i]);
    assert trees[..i + 1] == trees[..i] + [trees[i]];
    ConcatSnoc(trees[..i], trees[i]);
    FilterAppend(before, trees[i], NotImport);
    ImportsInAppend(before, trees[i]);
    C.CollectConstsAppend(map[], false, before, trees[i]);
    E.CollectEnumsAppend(E.EnumState(map[], None), before, trees[i]);
  }

  lemma {:induction false} DocStmtsAppend(a: seq<Stmt>, b: seq<Stmt>)
    ensures DocStmts(a + b) == DocStmts(a) + DocStmts(b)
  {
    if a == [] {
      assert a + b == b;
    } else {
      assert (a + b)[0] == a[0] && (a + b)[1..] == a[1..] + b;
      DocStmtsAppend(a[1..], b);
    }
  }

  /**
   * The bodies of all modules are joined before DocstringRemover runs, so only
   * the first module's docstring is removed: the docstring of the next module
   * stays in the script as a bare string statement.
   */
  lemma LaterModuleDocstringStays(a: seq<Stmt>, b: seq<Stmt>)
    requires StartsWithDocstring(a) && StartsWithDocstring(b)
    ensures |RemoveDocstrings(a + b)| == |a| + |b| - 1
    ensures RemoveDocstrings(a + b)[|a| - 1] == b[0]
  {
    DocStmtsAppend(a, b);
    assert DocStmts(a + b)[|a|] == DocStmts(b)[0] == DocStmt(b[0]);
  }

  /**
   * A module where an enum member's value is a bare constant: `K = 1`, then
   * `class Mode(Enum): A = K`, then a statement reading `Mode.A`.
   */
  const StaleExample: seq<Stmt> := [
    Assign([Name("K", Store)], Constant(Int(1))),
    ClassDef("Mode", [Name("Enum", Load)], [Assign([Name("A", Store)], Name("K", Load))]),
    ExprStmt(Attribute(Name("Mode", Load), "A", Load))
  ]

  const StaleConsts: C.Consts := map["K" := Constant(Int(1))]
  const StaleEnums: E.Enums := map["Mode" := map["A" := Name("K", Load)]]
  const StaleConstRank: map<string, nat> := map["K" := 0]
  const StaleEnumRank: map<(string, string), nat> := map[("Mode", "A") := 0]
  /** The enum class once ConstInliner has run: the assignment in its body reads `1`. */
  const StaleClassInlined: Stmt := ClassDef("Mode", [Name("Enum", Load)], [Assign([Name("A", Store)], Constant(Int(1)))])

  /** ConstCollector finds `K` only: `A` is assigned in a class body. */
  lemma StaleExampleConsts()
    ensures C.CollectConsts(map[], false, StaleExample) == StaleConsts
  {
    assert "K"[0] == 'K' && IsUpperAscii("K"[0]);
    assert IsUpper("K");
    assert C.IsConstAssign(StaleExample[0], false);
    assert C.CollectConstsIn(map[], false, StaleExample[0]) == StaleConsts;
    assert C.CollectConsts(StaleConsts, false, StaleExample[2..]) == StaleConsts;
    assert C.CollectConsts(StaleConsts, false, StaleExample[1..]) == StaleConsts;
  }

  /** EnumCollector records `Mode.A` with the bare Name `K` as its value. */
  lemma StaleExampleEnums()
    ensures E.CollectEnums(E.EnumState(map[], None), StaleExample).enums == StaleEnums
  {
    var st0 := E.EnumState(map[], None);
    var s1 := StaleExample[1];
    assert E.CollectEnumsIn(st0, StaleExample[0]) == st0;
    assert E.IsEnumClass(s1.bases) by { assert s1.bases[0].id == "Enum"; }
    var entered := E.EnterClass(st0, "Mode", s1.bases);
    assert E.CollectEnums(entered, s1.body) == E.EnumState(StaleEnums, Some("Mode"));
    assert E.CollectEnums(st0, StaleExample[1..]) == E.CollectEnums(E.EnumState(StaleEnums, Some("Mode")), StaleExample[2..]);
  }

  /** The first three passes find nothing to change in the example. */
  lemma StaleExampleUntouchedByFirstPasses()
    ensures RemoveDocstrings(ClearStmts(RemoveAll(StaleExample))) == StaleExample
  {
    StaleExampleHasNoAll();
    StaleExampleHasNoFlMidiMsg();
    StaleExampleHasNoDocstring();
  }

  lemma StaleExampleHasNoAll()
    ensures RemoveAll(StaleExample) == StaleExample
  {
    NameAssignIsNotAll("K", Constant(Int(1)));
    NameAssignIsNotAll("A", Name("K", Load));
    assert Nowhere(StaleExample[1].body, IsAllAssign);
    assert Nowhere(StaleExample, IsAllAssign);
    DropStmtsIdentityIff(StaleExample, IsAllAssign);
  }

  lemma NameAssignIsNotAll(x: string, v: Expr)
    requires x != "__all__"
    ensures !IsAllAssign(Assign([Name(x, Store)], v))
  {
  }

  lemma StaleExampleHasNoFlMidiMsg()
    ensures ClearStmts(StaleExample) == StaleExample
  {
    ClearIdentityIff(StaleExample);
  }

  lemma StaleExampleHasNoDocstring()
    ensures RemoveDocstrings(StaleExample) == StaleExample
  {
    StaleTailHasNoDocstring();
    assert DocStmts(StaleExample) == StaleExample;
  }

  /** The class and the expression statement that follow `K = 1` hold no docstring. */
  lemma StaleTailHasNoDocstring()
    ensures DocStmts(StaleExample[1..]) == StaleExample[1..]
  {
    var ex := StaleExample;
    assert DocStmts(ex[2..]) == ex[2..] by {
      assert ex[2..][1..] == [];
    }
    assert DocStmt(ex[1]) == ex[1] by {
      assert ex[1].body[1..] == [];
      assert DocStmts(ex[1].body) == ex[1].body;
    }
    assert ex[1..][1..] == ex[2..];
  }


  /** ConstInliner inlines `K` inside the class body and leaves the rest alone. */
  lemma StaleExampleInlined()
    ensures C.Ranked(StaleConsts, StaleConstRank)
      && C.InlineStmts(StaleConsts, StaleConstRank, StaleExample) == [StaleExample[0], StaleClassInlined, StaleExample[2]]
  {
    var consts, crank := StaleConsts, StaleConstRank;
    assert [Name("K", Store)][1..] == [];
    assert C.InlineExprs(consts, crank, [Name("K", Store)]) == [Name("K", Store)];
    StaleClassIsInlined();
    var s0, s2 := StaleExample[0], StaleExample[2];
    assert C.InlineStmt(consts, crank, s0) == s0;
    assert C.InlineExpr(consts, crank, s2.value) == s2.value;
    assert C.InlineStmt(consts, crank, s2) == s2;
    assert C.InlineStmts(consts, crank, StaleExample[2..]) == [s2];
    assert C.InlineStmts(consts, crank, StaleExample[1..]) == [StaleClassInlined, s2];
  }

  lemma StaleClassIsInlined()
    ensures C.Ranked(StaleConsts, StaleConstRank)
    ensures C.InlineStmt(StaleConsts, StaleConstRank, StaleExample[1]) == StaleClassInlined
  {
    var consts, crank := StaleConsts, StaleConstRank;
    assert C.Ranked(consts, crank);
    var base := Name("Enum", Load);
    assert [base][1..] == [] && [Name("A", Store)][1..] == [];
    assert C.InlineExprs(consts, crank, [base]) == [base];
    assert C.InlineExprs(consts, crank, [Name("A", Store)]) == [Name("A", Store)];
    var before := Assign([Name("A", Store)], Name("K", Load));
    var after := Assign([Name("A", Store)], Constant(Int(1)));
    assert C.InlineExpr(consts, crank, Name("K", Load)) == Constant(Int(1));
    assert C.InlineStmt(consts, crank, before) == after;
    assert [before][1..] == [];
    assert C.InlineStmts(consts, crank, [before]) == [after];
  }

  /** ConstRemover deletes `K = 1`; the class keeps its assignment to `A`. */
  lemma StaleExampleRemoved()
    ensures C.RemoveConsts(StaleConsts, [StaleExample[0], StaleClassInlined, StaleExample[2]])
         == [StaleClassInlined, StaleExample[2]]
  {
    var drop := s => C.AssignsOneOf(StaleConsts.Keys, s);
    var s2 := StaleExample[2];
    var after := Assign([Name("A", Store)], Constant(Int(1)));
    var ss := [StaleExample[0], StaleClassInlined, s2];
    assert ss[1..] == [StaleClassInlined, s2] && ss[1..][1..] == [s2] && [s2][1..] == [] && [after][1..] == [];
    assert DropStmts([s2], drop) == [s2];
    assert DropStmts([after], drop) == [after];
    assert DropIn(StaleClassInlined, drop) == StaleClassInlined;
    assert DropStmts(ss[1..], drop) == [StaleClassInlined, s2];
  }

  /** `Mode.A` is a bare Name, so ConstInliner leaves it stale in the shared dictionary. */
  lemma StaleExampleShared()
    ensures C.Ranked(StaleConsts, StaleConstRank)
      && SharedEnums(StaleConsts, StaleConstRank, StaleEnums) == StaleEnums
  {
    assert C.Ranked(StaleConsts, StaleConstRank);
    var shared := SharedEnums(StaleConsts, StaleConstRank, StaleEnums);
    assert shared["Mode"] == StaleEnums["Mode"];
  }

  /** EnumInliner replaces `Mode.A` by the value it recorded: the bare Name `K`. */
  lemma StaleExampleEnumInlined()
    ensures E.Ranked(StaleEnums, StaleEnumRank)
      && E.InlineEnumStmts(StaleEnums, StaleEnumRank, [StaleClassInlined, StaleExample[2]])
         == [StaleClassInlined, ExprStmt(Name("K", Load))]
  {
    var enums, erank := StaleEnums, StaleEnumRank;
    StaleClassHasNoEnumRead();
    assert E.InlineEnumStmt(enums, erank, StaleExample[2]) == ExprStmt(Name("K", Load));
    var ss := [StaleClassInlined, StaleExample[2]];
    assert ss[1..] == [StaleExample[2]] && ss[1..][1..] == [];
  }

  lemma StaleClassHasNoEnumRead()
    ensures E.Ranked(StaleEnums, StaleEnumRank)
    ensures E.InlineEnumStmt(StaleEnums, StaleEnumRank, StaleClassInlined) == StaleClassInlined
  {
    assert E.Ranked(StaleEnums, StaleEnumRank);
    var enums, erank := StaleEnums, StaleEnumRank;
    var after := Assign([Name("A", Store)], Constant(Int(1)));
    var base := Name("Enum", Load);
    assert [base][1..] == [] && [Name("A", Store)][1..] == [] && [after][1..] == [];
    assert E.InlineEnumsAll(enums, erank, [base]) == [base];
    assert E.InlineEnumsAll(enums, erank, [Name("A", Store)]) == [Name("A", Store)];
    assert E.InlineEnumStmt(enums, erank, after) == after;
    assert E.InlineEnumStmts(enums, erank, [after]) == [after];
  }

  /**
   * As written, the flattened body of that module reads `K` after the
   * assignment `K = 1` has been removed: the script fails with a NameError.
   */
  lemma StaleEnumValueLeavesConstRead()
    ensures C.CollectConsts(map[], false, StaleExample) == StaleConsts
    ensures E.CollectEnums(E.EnumState(map[], None), StaleExample).enums == StaleEnums
    ensures C.Ranked(StaleConsts, StaleConstRank)
      && E.Ranked(SharedEnums(StaleConsts, StaleConstRank, StaleEnums), StaleEnumRank)
      && FlattenBodyAsWritten(StaleExample, StaleConsts, StaleConstRank, StaleEnums, StaleEnumRank)
         == [StaleClassInlined, ExprStmt(Name("K", Load))]
    ensures !C.NoConstLoadStmts(StaleConsts, [StaleClassInlined, ExprStmt(Name("K", Load))])
  {
    StaleExampleConsts();
    StaleExampleEnums();
    StaleExampleUntouchedByFirstPasses();
    StaleExampleInlined();
    StaleExampleRemoved();
    StaleExampleShared();
    StaleExampleEnumInlined();
    StaleOutputReadsConst();
  }

  lemma StaleOutputReadsConst()
    ensures !C.NoConstLoadStmts(StaleConsts, [StaleClassInlined, ExprStmt(Name("K", Load))])
  {
    var out := [StaleClassInlined, ExprStmt(Name("K", Load))];
    assert C.IsConstLoad(StaleConsts, Name("K", Load));
    assert !C.NoConstLoad(StaleConsts, Name("K", Load));
    assert !AllExprsIn(out[1], e => C.NoConstLoad(StaleConsts, e));
  }
}
