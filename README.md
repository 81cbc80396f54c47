# Datamodel validation: type-alias resolution and datasource loading

A Dafny model of two passes of the Prisma schema compiler's AST-to-datamodel
stage. Both passes read an already-parsed schema and only ever append to a
shared diagnostics sink:

- **Type-alias resolution** (`types.rs`, duplicated in `db.rs`). Every
  `type A = B` declaration is mapped to `Scalar`, `Enum(id)`, `Unsupported`
  or `Unknown`, pushing at most one diagnostic: type not found, model used as
  a type, or a recursive definition. The parser database (`db.rs`) stores
  the resolved aliases and answers enum lookups over the name table.
- **Datasource loading** (`datasource_loader.rs`). Each `datasource` block
  is lifted on its own. `provider` and `url` are required. A
  `shadowDatabaseUrl` whose environment variable is missing is silently
  dropped. `previewFeatures` is refused in a datasource block.
  `planetScaleMode` is gated on a preview feature. The provider string is
  matched against a fixed, ordered registry. If more than one block is
  accepted, every declared block gets an extra diagnostic, and all accepted
  blocks are still returned.

Files: `diagnostics.dfy` (spans, error kinds, the `Diagnostics` sink as a
class with an append-only `errors` sequence), `ast.dfy` (declarations,
datasource arguments), `types.dfy`, `db.dfy`, `datasource_loader.dfy`.

The operations that work by pushing onto `&mut Diagnostics` are methods that
`modify` the sink. Each such method is proved equal to a specification
function of the inputs: `ResolveAliasOutcome`, `ResolveAliasesUpTo`,
`LiftOutcome`, `LoadOutcome`, `ShadowDatabaseUrl`,
`PreviewFeaturesGuardrailErrors` and `PlanetScaleModeOutcome`. The
behaviour the code promises is proved about those functions.

**Alias resolution is modelled as the code is written.** The recursive call
in `resolve_alias` passes the root alias again (types.rs:123-129), not the
alias it just reached. So a reference to another alias pushes that alias's
name, looks the same type name up again, finds it on the stack and reports
a recursive definition. Alias chains are therefore never followed:
`type A = B` with `type B = Int` gives `Unknown` for A, with path
"B -> A" (`AliasChainNotFollowed`). The recursion is at most two calls deep.
Each alias is resolved once, from a cleared stack, by the loop in
`resolve_aliases`. The doc comment of `resolve_aliases` (types.rs:58-59)
promises to fully resolve aliases so that substituting the result
eliminates them. The comment on the stack (types.rs:66-68) speaks of
references to other aliases followed from the root. The code at
types.rs:123-129 does neither for a chain, and the model follows the code;
`AliasChainNotFollowed` proves the difference on a two-link chain.
A self-reference resolved as a root reports the path " -> A", because the
stack is empty when it is printed.

## Model

| member | source | states |
|---|---|---|
| `Types.ResolveAliasOutcome` | libs/datamodel/core/src/transform/ast_to_dml/types.rs:91-151 | An `Unsupported(..)` type gives `Unsupported`, with no lookup. A built-in scalar name gives `Scalar`. Each holds iff, with no diagnostic. A name that is not a built-in scalar and is absent from the table gives exactly `[TypeNotFoundError(name, type span)]` (iff). A model gives exactly `[OnlyScalarTypes]` (iff). An enum gives `Enum(its id)` (iff). The result is `Unknown` iff one diagnostic is pushed. Never more than one diagnostic, never `Model`. The stack grows by at most one name. Also covers the identical copy at db.rs:91-151 |
| `Types.ResolveAlias` | libs/datamodel/core/src/transform/ast_to_dml/types.rs:91-151 | The recursive method returns `ResolveAliasOutcome`'s type and stack and appends exactly its diagnostics to the sink |
| `Types.AliasReferenceReportedRecursive` | libs/datamodel/core/src/transform/ast_to_dml/types.rs:105-130 | A reference to any alias, the root included, gives `Unknown` and exactly one recursion diagnostic. For the root or an alias already on the stack, the stack is unchanged. For any other alias, the stack gains that alias's name. The path is that stack joined by " -> ", then " -> " and the root's name |
| `Types.SelfReferencePath` | libs/datamodel/core/src/transform/ast_to_dml/types.rs:106-118 | `type A = A` resolved as a root gives `Unknown` with one diagnostic whose path is " -> A" |
| `Types.OtherAliasReferencePath` | libs/datamodel/core/src/transform/ast_to_dml/types.rs:105-130 | `type A = B`, B another alias, resolved as a root: `Unknown`, stack `[B]`, one diagnostic with path "B -> A" |
| `Types.ResolutionDepthAtMostTwo` | libs/datamodel/core/src/transform/ast_to_dml/types.rs:121-129 | Because the root is re-passed, resolution nests at most two calls deep, for every schema and stack. The same bound is what makes the resolver's own termination measure (`RecursionBudget`, 0 or 1) work |
| `Types.ResolutionDepthMatchesResolver` | libs/datamodel/core/src/transform/ast_to_dml/types.rs:105-130 | The depth counts the resolver's calls. It is 2 exactly when resolution leaves one more name on the stack, and 1 exactly when the stack comes back unchanged |
| `Types.AliasChainNotFollowed` | libs/datamodel/core/src/transform/ast_to_dml/types.rs:123-129 | For `type A = B` and `type B = Int`, A resolves to `Unknown` with path "B -> A", while B resolves to `Scalar` |
| `Types.AliasTableShape` | libs/datamodel/core/src/transform/ast_to_dml/types.rs:65-88 | The table has exactly one key per type-alias declaration. Each value is that alias's resolution from a cleared stack and is never `Model`. There are at most as many diagnostics as aliases |
| `Types.AliasTableKeys` | libs/datamodel/core/src/transform/ast_to_dml/types.rs:65-88 | The aliases resolved up to position n are exactly the alias declarations below n |
| `Types.AliasTableValues` | libs/datamodel/core/src/transform/ast_to_dml/types.rs:65-88 | Each entry belongs to an alias declaration and is that alias's resolution from a cleared stack |
| `Types.AliasTableErrorBound` | libs/datamodel/core/src/transform/ast_to_dml/types.rs:65-88 | At most one diagnostic per resolved alias |
| `Types.ResolveAliases` | libs/datamodel/core/src/transform/ast_to_dml/types.rs:60-89 | Returns a map keyed by exactly the alias ids, each value resolved from an empty stack. Only appends diagnostics, at most one per alias, in declaration order |
| `Db.ResolveAliases` | libs/datamodel/core/src/transform/ast_to_dml/db.rs:60-89 | db.rs's copy: the same table and diagnostics, typed by db.rs's enum without `Model` |
| `Db.ParserDatabase.constructor` | libs/datamodel/core/src/transform/ast_to_dml/db.rs:15-26 | Keeps the schema and name table, and establishes `Valid()`: every name denotes a model, enum or alias of the schema. Stores the alias table exactly as resolved, one entry per alias. Appends the resolver's diagnostics |
| `Db.ParserDatabase.GetEnum` | libs/datamodel/core/src/transform/ast_to_dml/db.rs:32-34 | `Some` iff the name is in the table and its top in the given schema is an enum, and then it is that enum |
| `Db.ParserDatabase.IterEnums` | libs/datamodel/core/src/transform/ast_to_dml/db.rs:36-41 | For a valid database, `(id, e)` is yielded iff `id` is a value of the name table and the top at `id` is the enum `e` |
| `Ast.Sources` | libs/datamodel/core/src/transform/ast_to_dml/datasource_loader.rs:48 | The blocks returned are exactly the datasource declarations of the schema, and there are no more of them than declarations |
| `Ast.SourcePositionsExact` | libs/datamodel/core/src/transform/ast_to_dml/datasource_loader.rs:48 | The datasource positions are increasing and are exactly the positions of the datasource declarations |
| `Ast.SourcesAtPositions` | libs/datamodel/core/src/transform/ast_to_dml/datasource_loader.rs:48 | The k-th block returned is the one declared at the k-th datasource position |
| `Ast.SourcesInOrder` | libs/datamodel/core/src/transform/ast_to_dml/datasource_loader.rs:48-62 | The blocks come back in declaration order: the k-th block is the k-th datasource declaration, and every declaration is listed. Lifting and the multiple-datasources errors follow this order |
| `DatasourceLoader.GetBuiltinDatasourceProviders` | libs/datamodel/core/src/transform/ast_to_dml/datasource_loader.rs:197-205 | Five entries, in the order MySQL, Postgres, SQLite, SQL Server, MongoDB, pairwise distinct. Each carries its implementation's canonical name and accepted names |
| `DatasourceLoader.FindProvider` | libs/datamodel/core/src/transform/ast_to_dml/datasource_loader.rs:189-194 | Returns the position of an entry that accepts the string, where no earlier entry does. `None` iff no entry accepts it |
| `DatasourceLoader.BuiltinRegistryFirstMatch` | libs/datamodel/core/src/transform/ast_to_dml/datasource_loader.rs:189-205 | Over the built-in registry, the chosen entry is the first provider, in the fixed order, whose implementation accepts the string |
| `DatasourceLoader.DatasourceLoader.constructor` | libs/datamodel/core/src/transform/ast_to_dml/datasource_loader.rs:31-35 | The loader's registry is the built-in provider list |
| `DatasourceLoader.DatasourceLoader.GetDatasourceProvider` | libs/datamodel/core/src/transform/ast_to_dml/datasource_loader.rs:189-194 | `None` iff no registry entry accepts the string. Otherwise the result is an entry that accepts it, and no earlier entry does |
| `DatasourceLoader.ArgsMapKeys` | libs/datamodel/core/src/transform/ast_to_dml/datasource_loader.rs:74-78 | The argument map's keys are exactly the argument names |
| `DatasourceLoader.ArgsMapLastWins` | libs/datamodel/core/src/transform/ast_to_dml/datasource_loader.rs:74-78 | Each argument name maps to the value of the last argument with that name |
| `DatasourceLoader.ShadowDatabaseUrl` | libs/datamodel/core/src/transform/ast_to_dml/datasource_loader.rs:140-159 | An absent argument gives no URL and no diagnostic. A URL is kept iff it resolves and is not the empty literal, and it is kept with the argument's span. A diagnostic is pushed iff resolution fails with an error other than a missing environment variable, and it is that error |
| `DatasourceLoader.ResolveShadowDatabaseUrl` | libs/datamodel/core/src/transform/ast_to_dml/datasource_loader.rs:140-159 | Returns `ShadowDatabaseUrl`'s URL and appends exactly its diagnostics |
| `DatasourceLoader.PreviewFeaturesGuardrailErrors` | libs/datamodel/core/src/transform/ast_to_dml/datasource_loader.rs:251-269 | At most one diagnostic. None iff the argument is absent or an empty list. A non-empty list gives one connector error at its span. A value that does not parse gives its parse error |
| `DatasourceLoader.PreviewFeaturesGuardrail` | libs/datamodel/core/src/transform/ast_to_dml/datasource_loader.rs:251-269 | Appends exactly `PreviewFeaturesGuardrailErrors` to the sink |
| `DatasourceLoader.PlanetScaleModeOutcome` | libs/datamodel/core/src/transform/ast_to_dml/datasource_loader.rs:218-249 | The flag is true iff the argument evaluates to `true` and the `PlanetScaleMode` preview feature is enabled. At most one diagnostic. No diagnostic iff the argument is absent, `false` or the flag is on. A non-boolean gives its error. `true` without the feature gives one source-validation error at the argument's span |
| `DatasourceLoader.GetPlanetScaleModeArg` | libs/datamodel/core/src/transform/ast_to_dml/datasource_loader.rs:218-249 | Returns `PlanetScaleModeOutcome`'s flag and appends exactly its diagnostics |
| `DatasourceLoader.DatasourceLoader.ProviderRejections` | libs/datamodel/core/src/transform/ast_to_dml/datasource_loader.rs:80-118 | A missing `provider`, one from env(), one that is not a string literal, or the empty literal: each yields `None` with exactly one diagnostic of the matching kind, and nothing else is checked |
| `DatasourceLoader.DatasourceLoader.UrlRejections` | libs/datamodel/core/src/transform/ast_to_dml/datasource_loader.rs:120-138 | With an accepted provider, a missing `url` yields `None` with one argument-not-found diagnostic. A `url` that fails to resolve yields `None` with exactly its error |
| `DatasourceLoader.DatasourceLoader.AcceptanceCriterion` | libs/datamodel/core/src/transform/ast_to_dml/datasource_loader.rs:67-187 | A block is accepted iff the provider is an accepted literal, the url resolves and the registry knows the provider. The shadow URL, previewFeatures and planetScaleMode never reject. A rejected block always leaves at least one diagnostic |
| `DatasourceLoader.DatasourceLoader.UnknownProviderRejected` | libs/datamodel/core/src/transform/ast_to_dml/datasource_loader.rs:161-174 | An unknown provider yields `None`. The diagnostics are the shadow-URL and preview-feature ones, then one provider-not-known error naming the string. planetScaleMode is not evaluated |
| `DatasourceLoader.DatasourceLoader.AcceptedDatasource` | libs/datamodel/core/src/transform/ast_to_dml/datasource_loader.rs:140-187 | An accepted datasource carries the block name, the provider string, and the first matching entry's canonical name and connector. It also carries the resolved url and its span, the shadow URL as resolved, the documentation, and the feature-gated planetScaleMode flag. Its diagnostics are the shadow-URL, previewFeatures and planetScaleMode ones, in that order |
| `DatasourceLoader.DatasourceLoader.LiftDatasource` | libs/datamodel/core/src/transform/ast_to_dml/datasource_loader.rs:67-187 | The step-by-step method with early returns returns `LiftOutcome`'s datasource and appends exactly its diagnostics |
| `DatasourceLoader.DatasourceLoader.LiftBlocks` | libs/datamodel/core/src/transform/ast_to_dml/datasource_loader.rs:46-52 | Lifts every block in source order. Returns exactly the accepted datasources, in order, and appends each block's diagnostics in order |
| `DatasourceLoader.DatasourceLoader.LiftedPositionsExact` | libs/datamodel/core/src/transform/ast_to_dml/datasource_loader.rs:48-52 | The accepted positions are increasing, and a block is accepted iff its position is listed |
| `DatasourceLoader.DatasourceLoader.LiftAllAtPositions` | libs/datamodel/core/src/transform/ast_to_dml/datasource_loader.rs:48-52 | The k-th returned datasource is the one lifted from the block at the k-th accepted position |
| `DatasourceLoader.DatasourceLoader.LiftAllInSourceOrder` | libs/datamodel/core/src/transform/ast_to_dml/datasource_loader.rs:46-52 | The returned list is exactly the datasources of the accepted blocks, in source order. The k-th returned datasource comes from the k-th accepted block, and a block is accepted iff its position is listed |
| `DatasourceLoader.DatasourceLoader.MultipleDatasourcesRule` | libs/datamodel/core/src/transform/ast_to_dml/datasource_loader.rs:54-64 | All accepted datasources are always returned. With more than one, exactly one extra error per declared block, including rejected ones, follows the blocks' own diagnostics in source order. Otherwise none is added |
| `DatasourceLoader.DatasourceLoader.TwoAcceptedBlocksBothReturned` | libs/datamodel/core/src/transform/ast_to_dml/datasource_loader.rs:46-64 | Two accepted blocks are both returned, in order, and each gets one multiple-datasources diagnostic |
| `DatasourceLoader.DatasourceLoader.LoadDatasourcesFromAst` | libs/datamodel/core/src/transform/ast_to_dml/datasource_loader.rs:40-65 | Lifting the blocks and then, when more than one is accepted, flagging every block, it returns `LoadOutcome`'s datasources and append exactly its diagnostics |
| `DatasourceLoader.PushMultipleDatasources` | libs/datamodel/core/src/transform/ast_to_dml/datasource_loader.rs:54-62 | Appends exactly one multiple-datasources error per block, naming the block, at its span, in source order |

## Left out

- `Types::new` and its per-model field table (types.rs:15-41): its branch for supported field types is `todo!()` and panics, so no field or relation resolution is modelled.
- db.rs:91-151 (`resolve_alias` in `db.rs`) is not modelled separately: it is a verbatim copy of types.rs:91-151, and `Db.ResolveAliases` reuses `Types.ResolveAlias`.
- `Names::new`, the construction of the name table, is not part of this model, nor are the diagnostics it pushes. The table `tops` is an input. `NamesWellFormed` states what the code relies on: every name denotes a declaration of the schema, and never a generator or datasource. Generators and datasources are the `unreachable!()` arm at types.rs:139.
- The value validator (`is_from_env`, `as_string_literal`, `as_str_from_env`, `as_bool`, `as_array().to_str_vec()`, `span`) is not part of this model: each argument carries these outcomes as given. Reading environment variables is host I/O.
- The provider implementations (`is_provider`, `canonical_name`, `connector`) are not part of this model. Each implementation is described by a `ProviderImpl`, its canonical name and the set of strings it accepts, given to the loader's constructor. The connector is represented by the provider's kind.
- Diagnostic wording, warnings and span arithmetic: each error keeps its kind, the names it mentions and its span. The exception is the recursion path, which is modelled as its string.
- `Db.ParserDatabase.IterEnums`: yields a set, so the iteration order of the hash map and repeated ids are not modelled.
- `SchemaAst::sources` is not part of this model. `Ast.Sources` stands for it and lists the datasource declarations in declaration order.
- `ParserDatabase::ast` (db.rs:28-30) is a plain accessor; the model's `schema` field stands for it.
