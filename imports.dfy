/**
 * ImportsCollector and ImportsRemover (scripts/build/ast_tools.py): gather every
 * import of every module, then keep one import per key, dropping imports of the
 * project's own modules and packages and of `fl_classes`.
 */
module Imports {
  import opened Wrappers
  import opened PyStr
  import opened PyAst

  /** Every import statement of `ss`, nested ones included, in visiting order. */
  function ImportsIn(ss: seq<Stmt>): (r: seq<Stmt>)
    ensures forall s :: s in r ==> IsImport(s)
  {
    Filter(Preorder(ss), IsImport)
  }

  lemma ImportsInAppend(a: seq<Stmt>, b: seq<Stmt>)
    ensures ImportsIn(a + b) == ImportsIn(a) + ImportsIn(b)
  {
    PreorderAppend(a, b);
    FilterAppend(Preorder(a), Preorder(b), IsImport);
  }

  lemma ImportsInSnoc(tree: seq<Stmt>, i: nat)
    requires i < |tree|
    ensures ImportsIn(tree[..i + 1]) == ImportsIn(tree[..i]) + ImportsIn([tree[i]])
  {
    assert tree[..i + 1] == tree[..i] + [tree[i]];
    ImportsInAppend(tree[..i], [tree[i]]);
  }

  /** The imports of one statement: itself if it is one, else those of its nested bodies. */
  lemma ImportsInSingle(s: Stmt)
    ensures IsImport(s) ==> ImportsIn([s]) == [s]
    ensures s.If? ==> ImportsIn([s]) == ImportsIn(s.body) + ImportsIn(s.orelse)
    ensures s.FunctionDef? || s.ClassDef? ==> ImportsIn([s]) == ImportsIn(s.body)
    ensures !IsImport(s) && !s.If? && !s.FunctionDef? && !s.ClassDef? ==> ImportsIn([s]) == []
  {
    assert [s][1..] == [];
    assert Preorder([s]) == [s] + PreorderIn(s);
    FilterAppend([s], PreorderIn(s), IsImport);
    if s.If? {
      PreorderAppend(s.body, s.orelse);
      FilterAppend(Preorder(s.body), Preorder(s.orelse), IsImport);
    }
  }

  /**
   * Collects the imports of the modules it visits into one `ast.Module`, whose
   * body is `imports`. Only `visit_Import` and `visit_ImportFrom` act, so the
   * generic traversal finds imports nested in functions, classes and `if` bodies too.
   */
  class ImportsCollector {
    var imports: seq<Stmt>

    constructor ()
      ensures imports == []
    {
      imports := [];
    }

    method Visit(tree: seq<Stmt>)
      modifies this
      ensures imports == old(imports) + ImportsIn(tree)
      decreases tree
    {
      for i := 0 to |tree|
        invariant imports == old(imports) + ImportsIn(tree[..i])
      {
        VisitStmt(tree[i]);
        ImportsInSnoc(tree, i);
      }
      assert tree[..|tree|] == tree;
    }

    method VisitStmt(s: Stmt)
      modifies this
      ensures imports == old(imports) + ImportsIn([s])
      decreases s
    {
      ImportsInSingle(s);
      match s
      case Import(_) =>
        imports := imports + [s];
      case ImportFrom(_, _, _) =>
        imports := imports + [s];
      case If(_, body, orelse) =>
        Visit(body);
        Visit(orelse);
      case FunctionDef(_, _, body) =>
        Visit(body);
      case ClassDef(_, _, body) =>
        Visit(body);
      case _ =>
    }
  }

  type Key = seq<string>

  function AliasNames(names: seq<Alias>): (r: seq<string>)
    ensures |r| == |names|
    ensures forall i :: 0 <= i < |names| ==> r[i] == names[i].name
  {
    seq(|names|, i requires 0 <= i < |names| => names[i].name)
  }

  /**
   * `_get_import_key`: the kind tag, for `from` imports the module (`""` when
   * there is none), then the imported names sorted. As-names and the relative
   * import level play no part.
   */
  function ImportKey(s: Stmt): Key {
    match s
    case Import(names) => ["import"] + Sort(AliasNames(names))
    case ImportFrom(m, names, _) => ["from", m.GetOr("")] + Sort(AliasNames(names))
    case _ => []
  }

  /** Two `import` statements have the same key exactly when they import the same names, in any order. */
  lemma ImportKeyImportIff(n1: seq<Alias>, n2: seq<Alias>)
    ensures ImportKey(Import(n1)) == ImportKey(Import(n2))
        <==> multiset(AliasNames(n1)) == multiset(AliasNames(n2))
  {
    var a, b := Sort(AliasNames(n1)), Sort(AliasNames(n2));
    if ImportKey(Import(n1)) == ImportKey(Import(n2)) {
      assert a == (["import"] + a)[1..] == (["import"] + b)[1..] == b;
    }
    SortEqualIff(AliasNames(n1), AliasNames(n2));
  }

  /**
   * Two `from` imports have the same key exactly when they name the same module
   * (no module counting as `""`) and import the same names, whatever their levels.
   */
  lemma ImportKeyFromIff(m1: Option<string>, n1: seq<Alias>, l1: nat, m2: Option<string>, n2: seq<Alias>, l2: nat)
    ensures ImportKey(ImportFrom(m1, n1, l1)) == ImportKey(ImportFrom(m2, n2, l2))
        <==> m1.GetOr("") == m2.GetOr("") && multiset(AliasNames(n1)) == multiset(AliasNames(n2))
  {
    var a, b := Sort(AliasNames(n1)), Sort(AliasNames(n2));
    var k1, k2 := ImportKey(ImportFrom(m1, n1, l1)), ImportKey(ImportFrom(m2, n2, l2));
    if k1 == k2 {
      assert k1[1] == m1.GetOr("") && k2[1] == m2.GetOr("");
      assert a == k1[2..] == k2[2..] == b;
    }
    SortEqualIff(AliasNames(n1), AliasNames(n2));
  }

  /** The kind tag keeps the keys of the two import kinds apart. */
  lemma ImportKeyKindsDiffer(s: Stmt, t: Stmt)
    requires s.Import? && t.ImportFrom?
    ensures ImportKey(s) != ImportKey(t)
  {
    assert ImportKey(s)[0] == "import" && ImportKey(t)[0] == "from";
  }

  /** `_is_local`: an import of one of the project's own modules or packages. */
  predicate IsLocal(modules: set<string>, packages: set<string>, s: Stmt) {
    match s
    case ImportFrom(m, _, _) => m.Some? && (m.value in modules || m.value in packages)
    case Import(names) => exists a :: a in names && (a.name in modules || a.name in packages)
    case _ => false
  }

  /** `_is_fl_classes` */
  predicate IsFlClasses(s: Stmt) {
    s.ImportFrom? && s.moduleName == Some("fl_classes")
  }

  /** What visiting one import yields: the kept import (None deletes it) and the new seen set. */
  datatype Visited = Visited(result: Option<Stmt>, seen: set<Key>)

  /**
   * `visit_Import` / `visit_ImportFrom`: a local import is dropped before its
   * key is looked at; otherwise the key is checked against, then added to, the
   * seen set; a `fl_classes` import is dropped after that.
   */
  function ImportStep(modules: set<string>, packages: set<string>, seen: set<Key>, s: Stmt): (v: Visited)
    requires IsImport(s)
  {
    if IsLocal(modules, packages, s) then Visited(None, seen)
    else if ImportKey(s) in seen then Visited(None, seen)
    else if IsFlClasses(s) then Visited(None, seen + {ImportKey(s)})
    else Visited(Some(s), seen + {ImportKey(s)})
  }

  /** The keys that visiting the imports `ss` adds to the seen set: those of the non-local ones. */
  function NonLocalKeys(modules: set<string>, packages: set<string>, ss: seq<Stmt>): set<Key> {
    set s | s in ss && !IsLocal(modules, packages, s) :: ImportKey(s)
  }

  datatype Removal = Removal(kept: seq<Stmt>, seen: set<Key>)

  /** ImportsRemover over the body of the collected imports module, starting from the seen set `seen`. */
  function RemoveImports(modules: set<string>, packages: set<string>, seen: set<Key>, ss: seq<Stmt>): (r: Removal)
    requires forall s :: s in ss ==> IsImport(s)
    ensures |r.kept| <= |ss|
    decreases ss
  {
    if ss == [] then Removal([], seen)
    else
      var v := ImportStep(modules, packages, seen, ss[0]);
      var rest := RemoveImports(modules, packages, v.seen, ss[1..]);
      match v.result
      case None => rest
      case Some(s) => Removal([s] + rest.kept, rest.seen)
  }

  lemma SuffixImports(ss: seq<Stmt>, i: nat)
    requires forall s :: s in ss ==> IsImport(s)
    requires i <= |ss|
    ensures forall s :: s in ss[i..] ==> IsImport(s)
  {
    forall s | s in ss[i..]
      ensures IsImport(s)
    {
      var k :| 0 <= k < |ss[i..]| && ss[i..][k] == s;
      assert s == ss[i + k];
    }
  }

  /** RemoveImports visits the first import, then the rest from the seen set it leaves. */
  lemma RemoveImportsUnfold(modules: set<string>, packages: set<string>, seen: set<Key>, ss: seq<Stmt>)
    requires forall s :: s in ss ==> IsImport(s)
    requires ss != []
    ensures forall s :: s in ss[1..] ==> IsImport(s)
    ensures var v := ImportStep(modules, packages, seen, ss[0]);
            RemoveImports(modules, packages, seen, ss).kept
            == (if v.result.Some? then [ss[0]] else []) + RemoveImports(modules, packages, v.seen, ss[1..]).kept
    ensures var v := ImportStep(modules, packages, seen, ss[0]);
            RemoveImports(modules, packages, seen, ss).seen == RemoveImports(modules, packages, v.seen, ss[1..]).seen
  {
    assert forall s :: s in ss[1..] ==> s in ss;
  }

  /** Only imports of `ss` that are neither local nor `fl_classes` and whose key was not seen survive. */
  lemma {:induction false} RemoveImportsKept(modules: set<string>, packages: set<string>, seen: set<Key>, ss: seq<Stmt>)
    requires forall s :: s in ss ==> IsImport(s)
    ensures forall s :: s in RemoveImports(modules, packages, seen, ss).kept ==>
              s in ss && !IsLocal(modules, packages, s) && !IsFlClasses(s) && ImportKey(s) !in seen
    decreases ss
  {
    if ss != [] {
      var v := ImportStep(modules, packages, seen, ss[0]);
      assert forall s :: s in ss[1..] ==> s in ss;
      RemoveImportsKept(modules, packages, v.seen, ss[1..]);
    }
  }

  /**
   * RemoveImports from position `i` on, after the statements `kept` already
   * kept: the visit of `ss[i]`, then the rest from the seen set it leaves.
   */
  lemma RemoveImportsStep(modules: set<string>, packages: set<string>, seen: set<Key>, ss: seq<Stmt>, i: nat, kept: seq<Stmt>)
    requires forall s :: s in ss ==> IsImport(s)
    requires i < |ss|
    ensures forall s :: s in ss[i + 1..] ==> IsImport(s)
    ensures var v := ImportStep(modules, packages, seen, ss[i]);
            var now := RemoveImports(modules, packages, seen, ss[i..]);
            var rest := RemoveImports(modules, packages, v.seen, ss[i + 1..]);
            Removal(kept + now.kept, now.seen)
            == Removal(kept + (if v.result.Some? then [ss[i]] else []) + rest.kept, rest.seen)
  {
    var suffix := ss[i..];
    assert suffix[0] == ss[i] && suffix[1..] == ss[i + 1..];
    SuffixImports(ss, i);
    RemoveImportsUnfold(modules, packages, seen, suffix);
    var v := ImportStep(modules, packages, seen, ss[i]);
    var rest := RemoveImports(modules, packages, v.seen, ss[i + 1..]);
    assert kept + ((if v.result.Some? then [ss[i]] else []) + rest.kept)
        == kept + (if v.result.Some? then [ss[i]] else []) + rest.kept;
  }

  /** Local imports never enter the seen set; every other visited key does, and the set only grows. */
  lemma {:induction false} RemoveImportsSeen(modules: set<string>, packages: set<string>, seen: set<Key>, ss: seq<Stmt>)
    requires forall s :: s in ss ==> IsImport(s)
    ensures RemoveImports(modules, packages, seen, ss).seen == seen + NonLocalKeys(modules, packages, ss)
    decreases ss
  {
    if ss != [] {
      var v := ImportStep(modules, packages, seen, ss[0]);
      RemoveImportsUnfold(modules, packages, seen, ss);
      RemoveImportsSeen(modules, packages, v.seen, ss[1..]);
      NonLocalKeysCons(modules, packages, ss);
    }
  }

  lemma NonLocalKeysCons(modules: set<string>, packages: set<string>, ss: seq<Stmt>)
    requires ss != []
    ensures NonLocalKeys(modules, packages, ss)
         == (if IsLocal(modules, packages, ss[0]) then {} else {ImportKey(ss[0])})
            + NonLocalKeys(modules, packages, ss[1..])
  {
    assert ss == [ss[0]] + ss[1..];
  }

  /** The keys of the imports `ss`, in order. */
  function Keys(ss: seq<Stmt>): (r: seq<Key>)
    ensures |r| == |ss|
    ensures forall i :: 0 <= i < |ss| ==> r[i] == ImportKey(ss[i])
  {
    seq(|ss|, i requires 0 <= i < |ss| => ImportKey(ss[i]))
  }

  /** No two imports of `ss` share a key. */
  predicate DistinctKeys(ss: seq<Stmt>) {
    Distinct(Keys(ss))
  }

  predicate Distinct<T(==)>(s: seq<T>) {
    forall i, j :: 0 <= i < j < |s| ==> s[i] != s[j]
  }

  lemma DistinctCons<T>(x: T, s: seq<T>)
    requires Distinct(s) && x !in s
    ensures Distinct([x] + s)
  {
    var t := [x] + s;
    forall i, j | 0 <= i < j < |t|
      ensures t[i] != t[j]
    {
      assert t[j] == s[j - 1];
      if i > 0 {
        assert t[i] == s[i - 1];
      }
    }
  }

  lemma DistinctKeysCons(s: Stmt, rest: seq<Stmt>)
    requires DistinctKeys(rest)
    requires forall t :: t in rest ==> ImportKey(t) != ImportKey(s)
    ensures DistinctKeys([s] + rest)
  {
    var ks := Keys(rest);
    DistinctCons(ImportKey(s), ks);
    var t := [s] + rest;
    assert Keys(t) == [ImportKey(s)] + ks by {
      forall i | 0 <= i < |t|
        ensures Keys(t)[i] == ([ImportKey(s)] + ks)[i]
      {
        if i > 0 {
          assert t[i] == rest[i - 1];
        }
      }
    }
  }

  /** The surviving imports have pairwise distinct keys. */
  lemma {:induction false} KeptKeysDistinct(modules: set<string>, packages: set<string>, seen: set<Key>, ss: seq<Stmt>)
    requires forall s :: s in ss ==> IsImport(s)
    ensures DistinctKeys(RemoveImports(modules, packages, seen, ss).kept)
    decreases ss
  {
    if ss != [] {
      var v := ImportStep(modules, packages, seen, ss[0]);
      KeptKeysDistinct(modules, packages, v.seen, ss[1..]);
      var rest := RemoveImports(modules, packages, v.seen, ss[1..]).kept;
      if v.result.Some? {
        assert forall s :: s in ss[1..] ==> s in ss;
        RemoveImportsKept(modules, packages, v.seen, ss[1..]);
        DistinctKeysCons(ss[0], rest);
      }
    }
  }

  /**
   * The first occurrence of a key is kept: a non-local, non-`fl_classes`
   * import whose key was not seen before and differs from the keys of all
   * earlier non-local imports survives.
   */
  lemma {:induction false} FirstOccurrenceKept(modules: set<string>, packages: set<string>, seen: set<Key>, ss: seq<Stmt>, i: nat)
    requires forall s :: s in ss ==> IsImport(s)
    requires i < |ss|
    requires !IsLocal(modules, packages, ss[i]) && !IsFlClasses(ss[i])
    requires ImportKey(ss[i]) !in seen
    requires forall j :: 0 <= j < i && !IsLocal(modules, packages, ss[j]) ==> ImportKey(ss[j]) != ImportKey(ss[i])
    ensures ss[i] in RemoveImports(modules, packages, seen, ss).kept
    decreases i
  {
    var x := ss[i];
    var v := ImportStep(modules, packages, seen, ss[0]);
    RemoveImportsUnfold(modules, packages, seen, ss);
    if i == 0 {
      StepKeeps(modules, packages, seen, x);
    } else {
      var tail := ss[1..];
      StepLeavesKeyUnseen(modules, packages, seen, ss[0], ImportKey(x));
      EarlierKeysInTail(modules, packages, ss, i);
      assert tail[i - 1] == x;
      FirstOccurrenceKept(modules, packages, v.seen, tail, i - 1);
    }
  }

  /** A non-local, non-`fl_classes` import with an unseen key is kept. */
  lemma StepKeeps(modules: set<string>, packages: set<string>, seen: set<Key>, s: Stmt)
    requires IsImport(s) && !IsLocal(modules, packages, s) && !IsFlClasses(s) && ImportKey(s) !in seen
    ensures ImportStep(modules, packages, seen, s).result == Some(s)
  {
  }

  /** Visiting an import adds no key other than its own, and none if it is local. */
  lemma StepLeavesKeyUnseen(modules: set<string>, packages: set<string>, seen: set<Key>, s: Stmt, k: Key)
    requires IsImport(s) && k !in seen
    requires !IsLocal(modules, packages, s) ==> ImportKey(s) != k
    ensures k !in ImportStep(modules, packages, seen, s).seen
  {
  }

  lemma EarlierKeysInTail(modules: set<string>, packages: set<string>, ss: seq<Stmt>, i: nat)
    requires 0 < i < |ss|
    requires forall j :: 0 <= j < i && !IsLocal(modules, packages, ss[j]) ==> ImportKey(ss[j]) != ImportKey(ss[i])
    ensures forall j :: 0 <= j < i - 1 && !IsLocal(modules, packages, ss[1..][j]) ==> ImportKey(ss[1..][j]) != ImportKey(ss[1..][i - 1])
  {
    var tail := ss[1..];
    forall j | 0 <= j < i - 1 && !IsLocal(modules, packages, tail[j])
      ensures ImportKey(tail[j]) != ImportKey(tail[i - 1])
    {
      assert tail[j] == ss[j + 1];
    }
  }

  /** A later import with an already-kept key is never kept twice. */
  lemma KeptKeysUnique(modules: set<string>, packages: set<string>, ss: seq<Stmt>, s: Stmt, t: Stmt)
    requires forall x :: x in ss ==> IsImport(x)
    requires s in RemoveImports(modules, packages, {}, ss).kept
    requires t in RemoveImports(modules, packages, {}, ss).kept
    requires ImportKey(s) == ImportKey(t)
    ensures s == t
  {
    KeptKeysDistinct(modules, packages, {}, ss);
    DistinctKeysUnique(RemoveImports(modules, packages, {}, ss).kept, s, t);
  }

  lemma DistinctKeysUnique(kept: seq<Stmt>, s: Stmt, t: Stmt)
    requires DistinctKeys(kept)
    requires s in kept && t in kept
    requires ImportKey(s) == ImportKey(t)
    ensures s == t
  {
    var i :| 0 <= i < |kept| && kept[i] == s;
    var j :| 0 <= j < |kept| && kept[j] == t;
    assert Keys(kept)[i] == Keys(kept)[j];
  }

  /**
   * ImportsRemover: the seen set of import keys is its state. `result` of the
   * source is never used and is left out; MODULES and PACKAGES of the build
   * settings are fixed when it is built.
   */
  class ImportsRemover {
    const modules: set<string>
    const packages: set<string>
    var seen: set<Key>

    constructor (modules: set<string>, packages: set<string>)
      ensures this.modules == modules && this.packages == packages
      ensures seen == {}
    {
      this.modules := modules;
      this.packages := packages;
      seen := {};
    }

    /** `_is_duplicate`: false the first time a key is met, true every later time; the set only grows. */
    method IsDuplicate(s: Stmt) returns (dup: bool)
      modifies this
      ensures dup == (ImportKey(s) in old(seen))
      ensures seen == old(seen) + {ImportKey(s)}
    {
      var key := ImportKey(s);
      if key in seen {
        return true;
      }
      seen := seen + {key};
      return false;
    }

    method VisitImport(s: Stmt) returns (r: Option<Stmt>)
      requires s.Import?
      modifies this
      ensures Visited(r, seen) == ImportStep(modules, packages, old(seen), s)
    {
      if IsLocal(modules, packages, s) {
        return None;
      }
      var dup := IsDuplicate(s);
      if dup {
        return None;
      }
      return Some(s);
    }

    method VisitImportFrom(s: Stmt) returns (r: Option<Stmt>)
      requires s.ImportFrom?
      modifies this
      ensures Visited(r, seen) == ImportStep(modules, packages, old(seen), s)
    {
      if IsLocal(modules, packages, s) {
        return None;
      }
      var dup := IsDuplicate(s);
      if dup || IsFlClasses(s) {
        return None;
      }
      return Some(s);
    }

    /** The visitor NodeTransformer dispatches to for an import statement. */
    method Visit(s: Stmt) returns (r: Option<Stmt>)
      requires IsImport(s)
      modifies this
      ensures Visited(r, seen) == ImportStep(modules, packages, old(seen), s)
    {
      if s.Import? {
        r := VisitImport(s);
      } else {
        r := VisitImportFrom(s);
      }
    }

    /** Visits the body of the collected imports module; a deleted import leaves the list. */
    method VisitModule(ss: seq<Stmt>) returns (kept: seq<Stmt>)
      requires forall s :: s in ss ==> IsImport(s)
      modifies this
      ensures Removal(kept, seen) == RemoveImports(modules, packages, old(seen), ss)
    {
      kept := [];
      var i := 0;
      while i < |ss|
        invariant 0 <= i <= |ss|
        invariant forall s :: s in ss[i..] ==> IsImport(s)
        invariant RemoveImports(modules, packages, old(seen), ss)
               == Removal(kept + RemoveImports(modules, packages, seen, ss[i..]).kept,
                          RemoveImports(modules, packages, seen, ss[i..]).seen)
      {
        RemoveImportsStep(modules, packages, seen, ss, i, kept);
        assert IsImport(ss[i]) by {
          assert ss[i] in ss;
        }
        var r := Visit(ss[i]);
        kept := kept + (if r.Some? then [ss[i]] else []);
        i := i + 1;
      }
    }
  }
}
