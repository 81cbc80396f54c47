/** Resolution of type aliases (`type A = B`) to alias-free types.

    Every alias is resolved on its own, with a freshly cleared stack of the
    alias names traversed so far. The recursive step passes the ROOT alias
    again, not the alias it just reached, so after pushing the reached
    alias's name it looks up the same type name once more, finds that name
    on the stack and reports a recursive definition. An alias that names
    another alias therefore always ends as `Unknown`, and the recursion is at
    most two calls deep. */
module Types {
  import opened Diagnostics
  import opened Ast

  /** A field's type once aliases are erased. `Model` exists in the type but
      alias resolution never produces it. */
  datatype FullyResolvedType =
    | Model(modelId: TopId)
    | Enum(enumId: TopId)
    | Scalar
    | Unsupported
    | Unknown

  const BuiltInScalars: seq<string> :=
    ["Int", "BigInt", "Float", "Boolean", "String", "DateTime", "Json", "Bytes", "Decimal"]

  /** What the name table guarantees: every name denotes a declaration of the
      schema, and a name in type position is a model, an enum or an alias
      (generators and datasources are unreachable there). */
  ghost predicate NamesWellFormed(schema: seq<Top>, tops: map<string, TopId>)
  {
    forall name :: name in tops ==>
      tops[name] < |schema| && !schema[tops[name]].Generator? && !schema[tops[name]].Source?
  }

  /** `parts` joined with `separator` between consecutive parts. */
  function Join(parts: seq<string>, separator: string): string
  {
    if |parts| == 0 then ""
    else if |parts| == 1 then parts[0]
    else Join(parts[..|parts| - 1], separator) + separator + parts[|parts| - 1]
  }

  /** The path printed in a recursive-definition diagnostic: the traversed
      names joined by " -> ", then " -> " and the root alias's name. */
  function RecursionPath(traversed: seq<string>, root: Field): string
  {
    Join(traversed, " -> ") + " -> " + root.name
  }

  function RecursionError(traversed: seq<string>, root: Field): DatamodelError
  {
    ValidationError(RecursiveType(RecursionPath(traversed, root)), root.span)
  }

  /** The declaration that `root`'s type names, when it names one that is
      not a built-in scalar. */
  function ReferencedTop(root: Field, schema: seq<Top>, tops: map<string, TopId>): Option<(TopId, Top)>
    requires NamesWellFormed(schema, tops)
  {
    if root.fieldType.Supported? && root.fieldType.typeName !in BuiltInScalars && root.fieldType.typeName in tops
    then Some((tops[root.fieldType.typeName], schema[tops[root.fieldType.typeName]]))
    else None
  }

  /** The name of the alias that `root`'s type refers to, if it refers to an
      alias other than the root itself that is not yet on the stack: the only
      situation in which resolution recurses. */
  function ReachedAlias(rootId: TopId, root: Field, schema: seq<Top>, tops: map<string, TopId>): Option<string>
  {
    if root.fieldType.Supported? && root.fieldType.typeName in tops
       && tops[root.fieldType.typeName] < |schema| && schema[tops[root.fieldType.typeName]].Type?
       && tops[root.fieldType.typeName] != rootId
    then Some(schema[tops[root.fieldType.typeName]].alias.name)
    else None
  }

  /** 1 while resolution may still recurse, 0 once the reached alias is on the stack. */
  function RecursionBudget(rootId: TopId, root: Field, schema: seq<Top>, tops: map<string, TopId>, traversed: seq<string>): nat
  {
    var reached := ReachedAlias(rootId, root, schema, tops);
    if reached.Some? && reached.value !in traversed then 1 else 0
  }

  /** The result of one call of the resolver: the resolved type, the traversal
      stack as the call leaves it, and the diagnostics it appends. */
  datatype AliasResolution = AliasResolution(
    resolved: FullyResolvedType,
    traversed: seq<string>,
    errors: seq<DatamodelError>)

  /** What resolving the root alias `root` (declared at `rootId`) with the
      traversal stack `traversed` yields. */
  function ResolveAliasOutcome(rootId: TopId, root: Field, schema: seq<Top>, tops: map<string, TopId>, traversed: seq<string>): (r: AliasResolution)
    requires NamesWellFormed(schema, tops)
    ensures |r.errors| <= 1
    ensures r.resolved.Unknown? <==> |r.errors| == 1
    ensures !r.resolved.Model?
    ensures r.resolved.Enum? ==> r.resolved.enumId < |schema| && schema[r.resolved.enumId].Enum?
    ensures r.resolved.Scalar? <==> root.fieldType.Supported? && root.fieldType.typeName in BuiltInScalars
    ensures r.resolved.Unsupported? <==> root.fieldType.Unsupported?
    ensures r.resolved.Enum? <==> ReferencedTop(root, schema, tops).Some? && ReferencedTop(root, schema, tops).value.1.Enum?
    ensures r.resolved.Enum? ==> r.resolved.enumId == ReferencedTop(root, schema, tops).value.0
    ensures root.fieldType.Supported? ==>
      (r.errors == [TypeNotFoundError(root.fieldType.typeName, root.fieldType.Span())] <==>
       root.fieldType.typeName !in BuiltInScalars && root.fieldType.typeName !in tops)
    ensures r.errors == [ValidationError(OnlyScalarTypes, root.fieldType.Span())] <==>
      ReferencedTop(root, schema, tops).Some? && ReferencedTop(root, schema, tops).value.1.Model?
    ensures |traversed| <= |r.traversed| <= |traversed| + 1 && r.traversed[..|traversed|] == traversed
    decreases RecursionBudget(rootId, root, schema, tops, traversed)
  {
    match root.fieldType
    case Unsupported(_, _) => AliasResolution(FullyResolvedType.Unsupported, traversed, [])
    case Supported(typeName, typeSpan) =>
      if typeName in BuiltInScalars then
        AliasResolution(Scalar, traversed, [])
      else if typeName !in tops then
        AliasResolution(Unknown, traversed, [TypeNotFoundError(typeName, typeSpan)])
      else
        var id := tops[typeName];
        var top := schema[id];
        if top.Type? then
          if id == rootId || top.alias.name in traversed then
            AliasResolution(Unknown, traversed, [RecursionError(traversed, root)])
          else
            ResolveAliasOutcome(rootId, root, schema, tops, traversed + [top.alias.name])
        else if top.Model? then
          AliasResolution(Unknown, traversed, [ValidationError(OnlyScalarTypes, typeSpan)])
        else
          AliasResolution(FullyResolvedType.Enum(id), traversed, [])
  }

  /** Any reference to an alias, the root itself included, ends in `Unknown`
      with exactly one recursive-definition diagnostic. A reference to the
      root, or to an alias already on the stack, reports the stack as it is;
      a reference to any other alias first pushes that alias's name. */
  lemma AliasReferenceReportedRecursive(rootId: TopId, root: Field, schema: seq<Top>, tops: map<string, TopId>, traversed: seq<string>)
    requires NamesWellFormed(schema, tops)
    requires ReferencedTop(root, schema, tops).Some? && ReferencedTop(root, schema, tops).value.1.Type?
    ensures var (id, referenced) := ReferencedTop(root, schema, tops).value;
      var pushed := if id == rootId || referenced.alias.name in traversed then traversed
                    else traversed + [referenced.alias.name];
      ResolveAliasOutcome(rootId, root, schema, tops, traversed)
        == AliasResolution(Unknown, pushed, [RecursionError(pushed, root)])
  {
    var (id, referenced) := ReferencedTop(root, schema, tops).value;
    if id != rootId && referenced.alias.name !in traversed {
      var pushed := traversed + [referenced.alias.name];
      assert referenced.alias.name in pushed;
      assert ResolveAliasOutcome(rootId, root, schema, tops, pushed)
        == AliasResolution(Unknown, pushed, [RecursionError(pushed, root)]);
    }
  }

  /** A self-reference `type A = A` reports the path " -> A" when resolved as
      a root (the stack is empty, so nothing precedes the arrow). */
  lemma SelfReferencePath(rootId: TopId, root: Field, schema: seq<Top>, tops: map<string, TopId>)
    requires NamesWellFormed(schema, tops)
    requires ReferencedTop(root, schema, tops) == Some((rootId, Type(root)))
    ensures ResolveAliasOutcome(rootId, root, schema, tops, [])
      == AliasResolution(Unknown, [], [ValidationError(RecursiveType(" -> " + root.name), root.span)])
  {
    AliasReferenceReportedRecursive(rootId, root, schema, tops, []);
    assert Join([], " -> ") + " -> " == " -> ";
  }

  /** `type A = B` with B another alias, resolved as a root, reports the path
      "B -> A": the alias chain is not followed. */
  lemma OtherAliasReferencePath(rootId: TopId, root: Field, schema: seq<Top>, tops: map<string, TopId>, id: TopId, other: Field)
    requires NamesWellFormed(schema, tops)
    requires ReferencedTop(root, schema, tops) == Some((id, Type(other))) && id != rootId
    ensures ResolveAliasOutcome(rootId, root, schema, tops, [])
      == AliasResolution(Unknown, [other.name], [ValidationError(RecursiveType(other.name + " -> " + root.name), root.span)])
  {
    AliasReferenceReportedRecursive(rootId, root, schema, tops, []);
    assert [] + [other.name] == [other.name];
    assert Join([other.name], " -> ") == other.name;
  }

  /** The number of nested resolver calls made while resolving `root`. */
  ghost function ResolutionDepth(rootId: TopId, root: Field, schema: seq<Top>, tops: map<string, TopId>, traversed: seq<string>): nat
    requires NamesWellFormed(schema, tops)
    decreases RecursionBudget(rootId, root, schema, tops, traversed)
  {
    var reached := ReachedAlias(rootId, root, schema, tops);
    if root.fieldType.Supported? && root.fieldType.typeName !in BuiltInScalars
       && reached.Some? && reached.value !in traversed
    then 1 + ResolutionDepth(rootId, root, schema, tops, traversed + [reached.value])
    else 1
  }

  /** Because the recursive call re-passes the root alias, resolution never
      nests more than two calls deep, whatever the aliases and the stack. */
  lemma {:induction false} ResolutionDepthAtMostTwo(rootId: TopId, root: Field, schema: seq<Top>, tops: map<string, TopId>, traversed: seq<string>)
    requires NamesWellFormed(schema, tops)
    ensures ResolutionDepth(rootId, root, schema, tops, traversed) <= 2
  {
    var reached := ReachedAlias(rootId, root, schema, tops);
    if root.fieldType.Supported? && root.fieldType.typeName !in BuiltInScalars
       && reached.Some? && reached.value !in traversed {
      var pushed := traversed + [reached.value];
      assert reached.value in pushed;
      assert ResolutionDepth(rootId, root, schema, tops, pushed) == 1;
    }
  }

  /** The depth counts the resolver's own calls: it is 2 exactly when
      resolution pushes one name onto the stack, and 1 exactly when the
      stack comes back unchanged. */
  lemma ResolutionDepthMatchesResolver(rootId: TopId, root: Field, schema: seq<Top>, tops: map<string, TopId>, traversed: seq<string>)
    requires NamesWellFormed(schema, tops)
    ensures var d := ResolutionDepth(rootId, root, schema, tops, traversed);
      var r := ResolveAliasOutcome(rootId, root, schema, tops, traversed);
      && (d == 2 <==> |r.traversed| == |traversed| + 1)
      && (d == 1 <==> r.traversed == traversed)
  {
    ResolutionDepthAtMostTwo(rootId, root, schema, tops, traversed);
    var reached := ReachedAlias(rootId, root, schema, tops);
    if root.fieldType.Supported? && root.fieldType.typeName !in BuiltInScalars
       && reached.Some? && reached.value !in traversed {
      var pushed := traversed + [reached.value];
      assert reached.value in pushed;
      AliasReferenceReportedRecursive(rootId, root, schema, tops, pushed);
      assert ResolveAliasOutcome(rootId, root, schema, tops, traversed).traversed == pushed;
    }
  }

  /** A two-link chain to a scalar, `type A = B` and `type B = Int`: A is not
      resolved to `Scalar` but reported as recursive with path "B -> A". */
  lemma AliasChainNotFollowed()
    ensures var a := Field("A", Supported("B", Span(9, 10)), Span(0, 10));
      var b := Field("B", Supported("Int", Span(20, 23)), Span(11, 23));
      var schema := [Type(a), Type(b)];
      var tops := map["A" := 0, "B" := 1];
      NamesWellFormed(schema, tops)
      && ResolveAliasOutcome(0, a, schema, tops, []).resolved == Unknown
      && ResolveAliasOutcome(0, a, schema, tops, []).errors
         == [ValidationError(RecursiveType("B -> A"), Span(0, 10))]
      && ResolveAliasOutcome(1, b, schema, tops, []).resolved == Scalar
  {
    var a := Field("A", Supported("B", Span(9, 10)), Span(0, 10));
    var b := Field("B", Supported("Int", Span(20, 23)), Span(11, 23));
    var schema := [Type(a), Type(b)];
    var tops := map["A" := 0, "B" := 1];
    assert NamesWellFormed(schema, tops);
    assert "B" !in BuiltInScalars;
    OtherAliasReferencePath(0, a, schema, tops, 1, b);
    assert "B" + " -> " + "A" == "B -> A";
  }

  /** Resolves the root alias, appending its diagnostic (if any) to
      `diagnostics`; returns the resolved type and the stack as left. */
  method ResolveAlias(rootId: TopId, root: Field, schema: seq<Top>, tops: map<string, TopId>,
                      traversed: seq<string>, diagnostics: Diagnostics)
    returns (resolved: FullyResolvedType, traversedAfter: seq<string>)
    requires NamesWellFormed(schema, tops)
    modifies diagnostics
    ensures var o := ResolveAliasOutcome(rootId, root, schema, tops, traversed);
      resolved == o.resolved && traversedAfter == o.traversed
      && diagnostics.errors == old(diagnostics.errors) + o.errors
    decreases RecursionBudget(rootId, root, schema, tops, traversed)
  {
    match root.fieldType {
      case Unsupported(_, _) =>
        return FullyResolvedType.Unsupported, traversed;
      case Supported(typeName, typeSpan) =>
        if typeName in BuiltInScalars {
          return Scalar, traversed;
        }
        if typeName !in tops {
          diagnostics.PushError(TypeNotFoundError(typeName, typeSpan));
          return Unknown, traversed;
        }
        var id := tops[typeName];
        var top := schema[id];
        if top.Type? {
          if id == rootId || top.alias.name in traversed {
            diagnostics.PushError(RecursionError(traversed, root));
            return Unknown, traversed;
          }
          resolved, traversedAfter := ResolveAlias(rootId, root, schema, tops, traversed + [top.alias.name], diagnostics);
        } else if top.Model? {
          diagnostics.PushError(ValidationError(OnlyScalarTypes, typeSpan));
          return Unknown, traversed;
        } else {
          return FullyResolvedType.Enum(id), traversed;
        }
    }
  }

  /** The aliases among the first `n` tops, each resolved from an empty
      stack, and the diagnostics appended while resolving them in order. */
  datatype AliasTable = AliasTable(aliases: map<TopId, FullyResolvedType>, errors: seq<DatamodelError>)

  function ResolveAliasesUpTo(schema: seq<Top>, tops: map<string, TopId>, n: nat): AliasTable
    requires NamesWellFormed(schema, tops) && n <= |schema|
  {
    if n == 0 then AliasTable(map[], [])
    else
      var prev := ResolveAliasesUpTo(schema, tops, n - 1);
      if schema[n - 1].Type? then
        var o := ResolveAliasOutcome(n - 1, schema[n - 1].alias, schema, tops, []);
        AliasTable(prev.aliases[n - 1 := o.resolved], prev.errors + o.errors)
      else
        prev
  }

  /** The table has one key per alias declaration below `n`. */
  lemma {:induction false} AliasTableKeys(schema: seq<Top>, tops: map<string, TopId>, n: nat)
    requires NamesWellFormed(schema, tops) && n <= |schema|
    ensures ResolveAliasesUpTo(schema, tops, n).aliases.Keys == (set id | 0 <= id < n && schema[id].Type?)
  {
    if n > 0 {
      AliasTableKeys(schema, tops, n - 1);
      var below := set id | 0 <= id < n - 1 && schema[id].Type?;
      if schema[n - 1].Type? {
        assert (set id | 0 <= id < n && schema[id].Type?) == below + {n - 1};
      } else {
        assert (set id | 0 <= id < n && schema[id].Type?) == below;
      }
    }
  }

  /** Each entry is its alias's own resolution from a cleared stack. */
  lemma {:induction false} AliasTableValues(schema: seq<Top>, tops: map<string, TopId>, n: nat)
    requires NamesWellFormed(schema, tops) && n <= |schema|
    ensures var t := ResolveAliasesUpTo(schema, tops, n);
      forall id :: id in t.aliases ==>
        id < n && schema[id].Type?
        && t.aliases[id] == ResolveAliasOutcome(id, schema[id].alias, schema, tops, []).resolved
  {
    if n > 0 {
      AliasTableValues(schema, tops, n - 1);
    }
  }

  /** Resolving pushes at most one diagnostic per alias. */
  lemma {:induction false} AliasTableErrorBound(schema: seq<Top>, tops: map<string, TopId>, n: nat)
    requires NamesWellFormed(schema, tops) && n <= |schema|
    ensures var t := ResolveAliasesUpTo(schema, tops, n);
      |t.errors| <= |t.aliases| && forall id :: id in t.aliases ==> id < n
  {
    if n > 0 {
      AliasTableErrorBound(schema, tops, n - 1);
      var prev := ResolveAliasesUpTo(schema, tops, n - 1);
      if schema[n - 1].Type? {
        assert n - 1 !in prev.aliases;
      }
    }
  }

  /** The table has exactly one entry per alias declaration, that alias's own
      resolution from a cleared stack (never `Model`), and resolving pushes
      at most one diagnostic per alias. */
  lemma AliasTableShape(schema: seq<Top>, tops: map<string, TopId>, n: nat)
    requires NamesWellFormed(schema, tops) && n <= |schema|
    ensures var t := ResolveAliasesUpTo(schema, tops, n);
      && t.aliases.Keys == (set id | 0 <= id < n && schema[id].Type?)
      && (forall id :: id in t.aliases ==>
            t.aliases[id] == ResolveAliasOutcome(id, schema[id].alias, schema, tops, []).resolved)
      && (forall id :: id in t.aliases ==> !t.aliases[id].Model?)
      && |t.errors| <= |t.aliases|
  {
    AliasTableKeys(schema, tops, n);
    AliasTableValues(schema, tops, n);
    AliasTableErrorBound(schema, tops, n);
  }

  /** Maps every type alias of the schema to its resolved type. */
  method ResolveAliases(schema: seq<Top>, tops: map<string, TopId>, diagnostics: Diagnostics)
    returns (aliases: map<TopId, FullyResolvedType>)
    requires NamesWellFormed(schema, tops)
    modifies diagnostics
    ensures var t := ResolveAliasesUpTo(schema, tops, |schema|);
      aliases == t.aliases && diagnostics.errors == old(diagnostics.errors) + t.errors
    ensures aliases.Keys == set id | 0 <= id < |schema| && schema[id].Type?
    ensures forall id :: id in aliases ==>
      aliases[id] == ResolveAliasOutcome(id, schema[id].alias, schema, tops, []).resolved
    ensures |old(diagnostics.errors)| <= |diagnostics.errors| <= |old(diagnostics.errors)| + |aliases|
  {
    aliases := map[];
    var traversed: seq<string> := [];
    var id := 0;
    while id < |schema|
      invariant 0 <= id <= |schema|
      invariant aliases == ResolveAliasesUpTo(schema, tops, id).aliases
      invariant diagnostics.errors == old(diagnostics.errors) + ResolveAliasesUpTo(schema, tops, id).errors
    {
      ghost var before := ResolveAliasesUpTo(schema, tops, id);
      if schema[id].Type? {
        traversed := [];
        var resolved;
        resolved, traversed := ResolveAlias(id, schema[id].alias, schema, tops, traversed, diagnostics);
        aliases := aliases[id := resolved];
        assert diagnostics.errors == old(diagnostics.errors) + before.errors
          + ResolveAliasOutcome(id, schema[id].alias, schema, tops, []).errors;
      }
      id := id + 1;
    }
    AliasTableShape(schema, tops, |schema|);
  }
}
