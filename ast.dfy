/** The parsed schema as this layer sees it: top-level declarations in source
    order, each identified by its position (its TopId). Parsing itself is not
    part of this model; the tree is an input. */
module Ast {
  import opened Diagnostics

  datatype Option<+T> = None | Some(value: T)

  /** A TopId is the index of a declaration in the schema's list of tops. */
  type TopId = nat

  /** The type written after a field or alias name: either a named type or an
      `Unsupported("...")` escape hatch. */
  datatype FieldType =
    | Supported(typeName: string, typeSpan: Span)
    | Unsupported(description: string, typeSpan: Span)
  {
    function Span(): Span { typeSpan }
  }

  /** A field; a type alias `type A = B` is a field named A of type B. */
  datatype Field = Field(name: string, fieldType: FieldType, span: Span)

  datatype EnumDecl = EnumDecl(name: string, values: seq<string>, span: Span)

  /** What evaluating an argument's value can produce. The validator that
      computes these (environment lookups, literal parsing) is outside this
      model, so each outcome is recorded as given. */
  datatype StringFromEnvVar = StringFromEnvVar(fromEnvVar: Option<string>, value: string)
  {
    /** The literal text, when the value was written as a literal. */
    function AsLiteral(): Option<string> {
      if fromEnvVar.None? then Some(value) else None
    }
  }

  /** A datasource argument's value, seen through the outcomes of the
      validator's accessors: `is_from_env`, `as_string_literal`,
      `as_str_from_env`, `as_bool` and `as_array().to_str_vec()`. */
  datatype ValueValidator = ValueValidator(
    span: Span,
    isFromEnv: bool,
    stringLiteral: Option<string>,
    strFromEnv: Result<StringFromEnvVar>,
    asBool: Result<bool>,
    strVec: Result<seq<string>>)

  /** A value or the error that producing it raised. */
  datatype Result<+T> = Ok(value: T) | Err(error: DatamodelError)

  datatype Argument = Argument(name: string, value: ValueValidator)

  datatype SourceConfig = SourceConfig(
    name: string,
    properties: seq<Argument>,
    documentation: Option<string>,
    span: Span)

  datatype Top =
    | Model(name: string, fields: seq<Field>, span: Span)
    | Enum(enm: EnumDecl)
    | Type(alias: Field)
    | Generator(name: string, span: Span)
    | Source(config: SourceConfig)

  /** The datasource blocks of a schema, in source order. */
  function Sources(schema: seq<Top>): (r: seq<SourceConfig>)
    ensures |r| <= |schema|
    ensures forall c :: c in r <==> Source(c) in schema
  {
    if schema == [] then []
    else
      var n := |schema| - 1;
      var prev := Sources(schema[..n]);
      assert forall c :: Source(c) in schema <==> Source(c) in schema[..n] || Source(c) == schema[n];
      if schema[n].Source? then prev + [schema[n].config] else prev
  }

  /** The positions of the datasource declarations, in increasing order. */
  ghost function SourcePositions(schema: seq<Top>): seq<nat>
  {
    if schema == [] then []
    else
      var n := |schema| - 1;
      if schema[n].Source? then SourcePositions(schema[..n]) + [n] else SourcePositions(schema[..n])
  }

  /** The positions are increasing and are exactly those of the datasource
      declarations. */
  lemma {:induction false} SourcePositionsExact(schema: seq<Top>)
    ensures var positions := SourcePositions(schema);
      && (forall k :: 0 <= k < |positions| ==> positions[k] < |schema|)
      && (forall k, l :: 0 <= k < l < |positions| ==> positions[k] < positions[l])
      && (forall i :: 0 <= i < |schema| ==> (schema[i].Source? <==> i in positions))
  {
    if schema != [] {
      var n := |schema| - 1;
      var prefix := schema[..n];
      SourcePositionsExact(prefix);
      var before := SourcePositions(prefix);
      assert forall i :: 0 <= i < n ==> prefix[i] == schema[i];
      assert n !in before;
    }
  }

  /** The k-th block returned is the one declared at the k-th position. */
  lemma {:induction false} SourcesAtPositions(schema: seq<Top>)
    ensures var r := Sources(schema);
      var positions := SourcePositions(schema);
      && |r| == |positions|
      && (forall k :: 0 <= k < |positions| ==> positions[k] < |schema| && schema[positions[k]] == Source(r[k]))
  {
    if schema != [] {
      var n := |schema| - 1;
      var prefix := schema[..n];
      SourcesAtPositions(prefix);
      assert forall i :: 0 <= i < n ==> prefix[i] == schema[i];
    }
  }

  /** The k-th datasource block returned is the one declared at the k-th
      datasource position, and every datasource declaration is listed. */
  lemma SourcesInOrder(schema: seq<Top>)
    ensures var r := Sources(schema);
      var positions := SourcePositions(schema);
      && |r| == |positions|
      && (forall k :: 0 <= k < |positions| ==> positions[k] < |schema| && schema[positions[k]] == Source(r[k]))
      && (forall k, l :: 0 <= k < l < |positions| ==> positions[k] < positions[l])
      && (forall i :: 0 <= i < |schema| ==> (schema[i].Source? <==> i in positions))
  {
    SourcePositionsExact(schema);
    SourcesAtPositions(schema);
  }
}
