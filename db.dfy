/** The parser database: the schema, its name table and the resolved type
    aliases, built once and then only read.

    The alias resolver of this file is a line-for-line copy of the one in
    the types module; it is modelled once there (Types.ResolveAlias) and
    reused here, with the result narrowed to this file's resolved-type enum,
    which has no `Model` variant. */
module Db {
  import opened Diagnostics
  import opened Ast
  import Types

  /** This file's FullyResolvedType: the types module's, without `Model`. */
  type ResolvedType = t: Types.FullyResolvedType | !t.Model? witness Types.Scalar

  /** Maps every type alias of the schema to its resolved type. */
  method ResolveAliases(schema: seq<Top>, tops: map<string, TopId>, diagnostics: Diagnostics)
    returns (aliases: map<TopId, ResolvedType>)
    requires Types.NamesWellFormed(schema, tops)
    modifies diagnostics
    ensures var t := Types.ResolveAliasesUpTo(schema, tops, |schema|);
      aliases == t.aliases && diagnostics.errors == old(diagnostics.errors) + t.errors
    ensures aliases.Keys == set id | 0 <= id < |schema| && schema[id].Type?
  {
    var resolved := Types.ResolveAliases(schema, tops, diagnostics);
    aliases := resolved;
  }

  class ParserDatabase {
    const schema: seq<Top>
    /** The name table's `tops`: each top-level name to its declaration. */
    const tops: map<string, TopId>
    const typeAliases: map<TopId, ResolvedType>

    /** What the name table guarantees about the schema it was built from. */
    ghost predicate Valid()
    {
      Types.NamesWellFormed(schema, tops)
    }

    /** Builds the database over a name table constructed elsewhere. */
    constructor (schema: seq<Top>, tops: map<string, TopId>, diagnostics: Diagnostics)
      requires Types.NamesWellFormed(schema, tops)
      modifies diagnostics
      ensures this.schema == schema && this.tops == tops
      ensures Valid()
      ensures var t := Types.ResolveAliasesUpTo(schema, tops, |schema|);
        typeAliases == t.aliases && diagnostics.errors == old(diagnostics.errors) + t.errors
      ensures typeAliases.Keys == set id | 0 <= id < |schema| && schema[id].Type?
    {
      var aliases := ResolveAliases(schema, tops, diagnostics);
      this.schema := schema;
      this.tops := tops;
      typeAliases := aliases;
    }

    /** The enum declared under `name` in `schema`, if that name denotes an enum. */
    function GetEnum(name: string, schema: seq<Top>): (r: Option<EnumDecl>)
      requires name in tops ==> tops[name] < |schema|
      ensures r.Some? <==> name in tops && schema[tops[name]].Enum?
      ensures r.Some? ==> schema[tops[name]] == Top.Enum(r.value)
    {
      if name in tops && schema[tops[name]].Enum? then Some(schema[tops[name]].enm) else None
    }

    /** The enums among the declarations the name table refers to, with their ids. */
    function IterEnums(): (r: set<(TopId, EnumDecl)>)
      requires Valid()
      ensures forall id, e :: (id, e) in r <==> id in tops.Values && id < |schema| && schema[id] == Top.Enum(e)
    {
      set id | id in tops.Values && id < |schema| && schema[id].Enum? :: (id, schema[id].enm)
    }
  }
}
