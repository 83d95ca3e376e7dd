/** The unused-import check: the syntax tree of a compilation unit, the set of
    names a file uses, the visitor that collects it in place, and the filter
    that keeps the imports whose simple name is never used. */
module UnusedImports {

  /** A (possibly qualified) name: `java.util.List` has qualifier
      `["java", "util"]` and identifier `List`. */
  datatype Name = Name(qualifier: seq<string>, identifier: string)

  /** An import declaration. Its printed text is a function of these fields. */
  datatype Import = Import(name: Name, isStatic: bool, isAsterisk: bool)

  /** The kinds of node the visitor treats specially; every other kind of node
      is `OtherNode` and is only walked through. Type names are kept as the
      text the parser prints for them (`getType().asString()`; for thrown
      types, the element type's text). */
  datatype NodeKind =
    | NameExpr(name: string)
    | MethodDeclaration(parameterTypes: seq<string>, thrownTypes: seq<string>)
    | CatchClause(parameterType: string)
    | OtherNode

  datatype Node = Node(kind: NodeKind, children: seq<Node>)

  /** A parsed file: its imports and the type declarations below them. */
  datatype CompilationUnit = CompilationUnit(imports: seq<Import>, types: seq<Node>)

  /** The names one node adds to the used-name set by itself. */
  function KindNames(kind: NodeKind): set<string> {
    match kind
    case NameExpr(name) => {name}
    case MethodDeclaration(parameterTypes, thrownTypes) =>
      (set t | t in parameterTypes) + (set t | t in thrownTypes)
    case CatchClause(parameterType) => {parameterType}
    case OtherNode => {}
  }

  /** Every name used in the tree rooted at `n`; the root's own names are
      among them. */
  function NamesIn(n: Node): (r: set<string>)
    ensures KindNames(n.kind) <= r
    decreases n, 1
  {
    KindNames(n.kind) + NamesInAll(n.children)
  }

  /** Every name used in a sequence of sibling trees. */
  function NamesInAll(ns: seq<Node>): set<string>
    decreases ns, 0
  {
    if ns == [] then {}
    else NamesInAll(ns[..|ns| - 1]) + NamesIn(ns[|ns| - 1])
  }

  /** The used-name set of a compilation unit. */
  function UsedNames(unit: CompilationUnit): set<string> {
    NamesInAll(unit.types)
  }

  /** `x` is named by some node of the tree rooted at `n`: a name expression,
      a parameter or thrown type of a method, or a caught type. */
  predicate Occurs(x: string, n: Node)
    decreases n
  {
    x in KindNames(n.kind) || exists c :: c in n.children && Occurs(x, c)
  }

  /** The used-name set holds exactly the names some node of the tree names. */
  lemma {:induction false} NamesInIff(x: string, n: Node)
    ensures x in NamesIn(n) <==> Occurs(x, n)
    decreases n, 1
  {
    NamesInAllIff(x, n.children);
  }

  lemma {:induction false} NamesInAllIff(x: string, ns: seq<Node>)
    ensures x in NamesInAll(ns) <==> exists c :: c in ns && Occurs(x, c)
    decreases ns, 0
  {
    if ns != [] {
      var front, last := ns[..|ns| - 1], ns[|ns| - 1];
      NamesInAllIff(x, front);
      NamesInIff(x, last);
      assert ns == front + [last];
      if exists c :: c in ns && Occurs(x, c) {
        var c :| c in ns && Occurs(x, c);
        assert c in front || c == last;
      }
    }
  }

  /** The anonymous visitor: it walks the tree and adds the names it meets to
      the `usedNames` set it updates in place. */
  class UsedNameCollector {
    var usedNames: set<string>

    constructor ()
      ensures usedNames == {}
    {
      usedNames := {};
    }

    /** `visit` for one node: its own names, then its children (`super.visit`). */
    method Visit(n: Node)
      modifies this
      ensures usedNames == old(usedNames) + NamesIn(n)
      decreases n, 1
    {
      usedNames := usedNames + KindNames(n.kind);
      VisitAll(n.children);
    }

    method VisitAll(ns: seq<Node>)
      modifies this
      ensures usedNames == old(usedNames) + NamesInAll(ns)
      decreases ns, 0
    {
      var i := 0;
      while i < |ns|
        invariant 0 <= i <= |ns|
        invariant usedNames == old(usedNames) + NamesInAll(ns[..i])
      {
        Visit(ns[i]);
        assert ns[..i + 1][..i] == ns[..i];
        i := i + 1;
      }
      assert ns[..|ns|] == ns;
    }
  }

  /** The imports whose simple identifier is not among `used`, in import order. */
  function Unused(imports: seq<Import>, used: set<string>): (r: seq<Import>)
    ensures |r| <= |imports|
    ensures forall imp :: imp in r <==> imp in imports && imp.name.identifier !in used
  {
    if imports == [] then []
    else (if imports[0].name.identifier in used then [] else [imports[0]]) + Unused(imports[1..], used)
  }

  /** The filter keeps order: the report for a concatenation is the
      concatenation of the reports. */
  lemma {:induction false} UnusedAppend(a: seq<Import>, b: seq<Import>, used: set<string>)
    ensures Unused(a + b, used) == Unused(a, used) + Unused(b, used)
  {
    if a == [] {
      assert a + b == b;
    } else {
      assert (a + b)[0] == a[0] && (a + b)[1..] == a[1..] + b;
      UnusedAppend(a[1..], b, used);
    }
  }

  /** More usages only shrink the report: with `extra` names used besides
      `used`, the report is the old report with the imports named in `extra`
      taken out, and nothing added. */
  lemma {:induction false} MoreUsagesFilterReport(imports: seq<Import>, used: set<string>, extra: set<string>)
    ensures Unused(imports, used + extra) == Unused(Unused(imports, used), extra)
  {
    if imports != [] {
      MoreUsagesFilterReport(imports[1..], used, extra);
      var head := if imports[0].name.identifier in used then [] else [imports[0]];
      UnusedAppend(head, Unused(imports[1..], used), extra);
    }
  }

  /** The used-name set of siblings is the union of theirs. */
  lemma {:induction false} NamesInAllAppend(a: seq<Node>, b: seq<Node>)
    ensures NamesInAll(a + b) == NamesInAll(a) + NamesInAll(b)
    decreases |b|
  {
    if b != [] {
      var ab := a + b;
      assert ab[..|ab| - 1] == a + b[..|b| - 1];
      NamesInAllAppend(a, b[..|b| - 1]);
    } else {
      assert a + b == a;
    }
  }

  /** A catch clause whose parameter type is an import's identifier, added to
      a file, takes that import out of the report and adds none. */
  lemma CatchUsageRemovesImport(unit: CompilationUnit, typeName: string, body: seq<Node>)
    ensures var withCatch := unit.(types := unit.types + [Node(CatchClause(typeName), body)]);
      Unused(withCatch.imports, UsedNames(withCatch))
        == Unused(Unused(unit.imports, UsedNames(unit)), {typeName} + NamesInAll(body))
  {
    var catchNode := Node(CatchClause(typeName), body);
    NamesInAllAppend(unit.types, [catchNode]);
    assert NamesInAll([catchNode]) == NamesIn(catchNode) by {
      assert [catchNode][..0] == [];
    }
    MoreUsagesFilterReport(unit.imports, UsedNames(unit), {typeName} + NamesInAll(body));
  }

  /** `import java.util.List;` */
  const ListImport := Import(Name(["java", "util"], "List"), false, false)

  /** A file that imports `java.util.List` and never uses `List` reports that
      import alone; once `List` is the type of a catch parameter, it reports
      nothing. */
  lemma ListImportScenario(body: seq<Node>)
    requires "List" !in NamesInAll(body)
    ensures var unit := CompilationUnit([ListImport], body);
      Unused(unit.imports, UsedNames(unit)) == [ListImport]
    ensures var unit := CompilationUnit([ListImport], body + [Node(CatchClause("List"), [])]);
      Unused(unit.imports, UsedNames(unit)) == []
  {
    var unit := CompilationUnit([ListImport], body);
    CatchUsageRemovesImport(unit, "List", []);
  }
}
