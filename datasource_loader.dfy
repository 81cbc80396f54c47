/** Loading of datasource blocks into validated datasource configurations.

    Each block is lifted on its own: its arguments are collected by name,
    `provider` and `url` are required (a failure there rejects the block),
    `shadowDatabaseUrl`, `previewFeatures` and `planetScaleMode` are checked
    without rejecting it, and the provider string is looked up in a fixed,
    ordered registry. Every failure is appended to the diagnostics; a
    rejected block contributes no datasource and the next block is still
    processed. If more than one block is accepted, every declared block gets
    one more diagnostic, and all accepted blocks are still returned. */
module DatasourceLoader {
  import opened Diagnostics
  import opened Ast

  const ProviderKey := "provider"
  const UrlKey := "url"
  const ShadowDatabaseUrlKey := "shadowDatabaseUrl"
  const PreviewFeaturesKey := "previewFeatures"
  const PlanetScaleModeKey := "planetScaleMode"

  datatype PreviewFeature = PlanetScaleMode | OtherPreviewFeature(name: string)

  /** The built-in providers, one per supported database. */
  datatype ProviderKind = MySql | Postgres | Sqlite | MsSql | MongoDb

  /** What a provider's implementation answers: its canonical name, and the
      provider strings it accepts (its `is_provider`). */
  datatype ProviderImpl = ProviderImpl(canonicalName: string, providerNames: set<string>)

  /** One entry of the registry; `kind` also stands for the connector the
      provider hands out, which this layer never inspects. */
  datatype DatasourceProvider = DatasourceProvider(kind: ProviderKind, canonicalName: string, providerNames: set<string>)
  {
    predicate IsProvider(provider: string) { provider in providerNames }
  }

  const BuiltinProviderKinds: seq<ProviderKind> := [MySql, Postgres, Sqlite, MsSql, MongoDb]

  /** The registry: the five built-in providers in their fixed order, each
      described by its implementation. */
  function GetBuiltinDatasourceProviders(impl: ProviderKind -> ProviderImpl): (r: seq<DatasourceProvider>)
    ensures |r| == |BuiltinProviderKinds| == 5
    ensures forall i :: 0 <= i < |r| ==> r[i].kind == BuiltinProviderKinds[i]
    ensures forall i, j :: 0 <= i < j < |r| ==> r[i].kind != r[j].kind
    ensures forall i :: 0 <= i < |r| ==>
      r[i].canonicalName == impl(r[i].kind).canonicalName && r[i].providerNames == impl(r[i].kind).providerNames
  {
    seq(5, i requires 0 <= i < 5 =>
      var k := BuiltinProviderKinds[i];
      DatasourceProvider(k, impl(k).canonicalName, impl(k).providerNames))
  }

  /** The position of the first registry entry that accepts `provider`. */
  function FindProvider(definitions: seq<DatasourceProvider>, provider: string): (r: Option<nat>)
    ensures r.Some? ==> r.value < |definitions| && definitions[r.value].IsProvider(provider)
    ensures r.Some? ==> forall j :: 0 <= j < r.value ==> !definitions[j].IsProvider(provider)
    ensures r.None? <==> forall j :: 0 <= j < |definitions| ==> !definitions[j].IsProvider(provider)
  {
    if definitions == [] then None
    else if definitions[0].IsProvider(provider) then Some(0)
    else match FindProvider(definitions[1..], provider)
      case None => None
      case Some(k) => Some(k + 1)
  }

  /** Over the built-in registry, the provider chosen for a string is the
      first of MySQL, Postgres, SQLite, SQL Server and MongoDB whose
      implementation accepts it. */
  lemma BuiltinRegistryFirstMatch(impl: ProviderKind -> ProviderImpl, provider: string, k: nat)
    requires k < |BuiltinProviderKinds|
    requires provider in impl(BuiltinProviderKinds[k]).providerNames
    requires forall j :: 0 <= j < k ==> provider !in impl(BuiltinProviderKinds[j]).providerNames
    ensures FindProvider(GetBuiltinDatasourceProviders(impl), provider) == Some(k)
  {
    var registry := GetBuiltinDatasourceProviders(impl);
    assert registry[k].IsProvider(provider);
  }

  /** A validated datasource block. */
  datatype Datasource = Datasource(
    name: string,
    provider: string,
    activeProvider: string,
    url: StringFromEnvVar,
    urlSpan: Span,
    documentation: Option<string>,
    activeConnector: ProviderKind,
    shadowDatabaseUrl: Option<(StringFromEnvVar, Span)>,
    planetScaleMode: bool)

  /** `properties[i]` is the last argument of its name. */
  ghost predicate LastOfName(properties: seq<Argument>, i: nat)
    requires i < |properties|
  {
    forall j :: i < j < |properties| ==> properties[j].name != properties[i].name
  }

  /** The block's arguments collected into a map by name; when a name is
      repeated, the later argument replaces the earlier one. */
  function ArgsMap(properties: seq<Argument>): map<string, ValueValidator>
  {
    if properties == [] then map[]
    else
      var last := properties[|properties| - 1];
      ArgsMap(properties[..|properties| - 1])[last.name := last.value]
  }

  /** The map's keys are exactly the argument names. */
  lemma {:induction false} ArgsMapKeys(properties: seq<Argument>)
    ensures ArgsMap(properties).Keys == set i | 0 <= i < |properties| :: properties[i].name
  {
    if properties != [] {
      var n := |properties| - 1;
      var prefix := properties[..n];
      ArgsMapKeys(prefix);
      assert forall i :: 0 <= i < n ==> prefix[i] == properties[i];
      assert (set i | 0 <= i < |properties| :: properties[i].name)
        == (set i | 0 <= i < n :: prefix[i].name) + {properties[n].name};
    }
  }

  /** Each argument name maps to the value of the last argument of that
      name. */
  lemma {:induction false} ArgsMapLastWins(properties: seq<Argument>)
    ensures forall i :: 0 <= i < |properties| && LastOfName(properties, i) ==>
      properties[i].name in ArgsMap(properties)
      && ArgsMap(properties)[properties[i].name] == properties[i].value
  {
    if properties != [] {
      var n := |properties| - 1;
      var prefix := properties[..n];
      ArgsMapLastWins(prefix);
      forall i | 0 <= i < |properties| && LastOfName(properties, i)
        ensures properties[i].name in ArgsMap(properties)
        ensures ArgsMap(properties)[properties[i].name] == properties[i].value
      {
        if i < n {
          assert prefix[i] == properties[i];
          assert properties[n].name != properties[i].name;
          assert LastOfName(prefix, i);
        }
      }
    }
  }

  /** The shadow database URL a block ends up with, and the diagnostic its
      resolution pushes. */
  datatype ShadowUrl = ShadowUrl(url: Option<(StringFromEnvVar, Span)>, errors: seq<DatamodelError>)

  function ShadowDatabaseUrl(args: map<string, ValueValidator>): (r: ShadowUrl)
    ensures ShadowDatabaseUrlKey !in args ==> r == ShadowUrl(None, [])
    ensures r.url.Some? <==>
      ShadowDatabaseUrlKey in args && args[ShadowDatabaseUrlKey].strFromEnv.Ok?
      && args[ShadowDatabaseUrlKey].strFromEnv.value.AsLiteral() != Some("")
    ensures r.url.Some? ==>
      r.url.value == (args[ShadowDatabaseUrlKey].strFromEnv.value, args[ShadowDatabaseUrlKey].span)
    ensures r.errors != [] <==>
      ShadowDatabaseUrlKey in args && args[ShadowDatabaseUrlKey].strFromEnv.Err?
      && !args[ShadowDatabaseUrlKey].strFromEnv.error.EnvironmentFunctionalEvaluationError?
    ensures r.errors != [] ==> r.errors == [args[ShadowDatabaseUrlKey].strFromEnv.error]
  {
    if ShadowDatabaseUrlKey !in args then ShadowUrl(None, [])
    else
      var arg := args[ShadowDatabaseUrlKey];
      match arg.strFromEnv
      case Ok(url) =>
        if url.AsLiteral() == Some("") then ShadowUrl(None, []) else ShadowUrl(Some((url, arg.span)), [])
      case Err(EnvironmentFunctionalEvaluationError(_, _)) => ShadowUrl(None, [])
      case Err(error) => ShadowUrl(None, [error])
  }

  /** Resolves the optional `shadowDatabaseUrl` argument, pushing the
      diagnostic its resolution raises. */
  method ResolveShadowDatabaseUrl(args: map<string, ValueValidator>, diagnostics: Diagnostics)
    returns (url: Option<(StringFromEnvVar, Span)>)
    modifies diagnostics
    ensures url == ShadowDatabaseUrl(args).url
    ensures diagnostics.errors == old(diagnostics.errors) + ShadowDatabaseUrl(args).errors
  {
    url := None;
    if ShadowDatabaseUrlKey in args {
      var shadowArg := args[ShadowDatabaseUrlKey];
      match shadowArg.strFromEnv {
        case Ok(s) =>
          if s.AsLiteral() != Some("") {
            url := Some((s, shadowArg.span));
          }
        case Err(EnvironmentFunctionalEvaluationError(_, _)) =>
          // A shadow database URL taken from a missing environment variable is ignored.
        case Err(error) =>
          diagnostics.PushError(error);
      }
    }
  }

  /** The diagnostics pushed for a `previewFeatures` argument in a datasource
      block: none for an empty list, one for a non-empty list, and the
      parse error for a value that is not a list of strings. */
  function PreviewFeaturesGuardrailErrors(args: map<string, ValueValidator>): (errors: seq<DatamodelError>)
    ensures |errors| <= 1
    ensures errors == [] <==> PreviewFeaturesKey !in args || args[PreviewFeaturesKey].strVec == Ok([])
    ensures PreviewFeaturesKey in args && args[PreviewFeaturesKey].strVec.Ok? && args[PreviewFeaturesKey].strVec.value != [] ==>
      errors == [ConnectorError(PreviewFeaturesInGenerator, args[PreviewFeaturesKey].span)]
    ensures PreviewFeaturesKey in args && args[PreviewFeaturesKey].strVec.Err? ==>
      errors == [args[PreviewFeaturesKey].strVec.error]
  {
    if PreviewFeaturesKey !in args then []
    else
      var arg := args[PreviewFeaturesKey];
      match arg.strVec
      case Ok(features) =>
        if features == [] then [] else [ConnectorError(PreviewFeaturesInGenerator, arg.span)]
      case Err(error) => [error]
  }

  method PreviewFeaturesGuardrail(args: map<string, ValueValidator>, diagnostics: Diagnostics)
    modifies diagnostics
    ensures diagnostics.errors == old(diagnostics.errors) + PreviewFeaturesGuardrailErrors(args)
  {
    if PreviewFeaturesKey in args {
      var arg := args[PreviewFeaturesKey];
      match arg.strVec {
        case Ok(features) =>
          if features == [] {
            return;
          }
          diagnostics.PushError(ConnectorError(PreviewFeaturesInGenerator, arg.span));
        case Err(error) =>
          diagnostics.PushError(error);
      }
    }
  }

  /** The value of the `planetScaleMode` flag and the diagnostics pushed
      while evaluating it. */
  datatype FlagOutcome = FlagOutcome(enabled: bool, errors: seq<DatamodelError>)

  function PlanetScaleModeOutcome(args: map<string, ValueValidator>, previewFeatures: set<PreviewFeature>, sourceName: string): (r: FlagOutcome)
    ensures r.enabled <==>
      PlanetScaleModeKey in args && args[PlanetScaleModeKey].asBool == Ok(true) && PlanetScaleMode in previewFeatures
    ensures |r.errors| <= 1
    ensures r.errors == [] <==>
      PlanetScaleModeKey !in args || args[PlanetScaleModeKey].asBool == Ok(false) || r.enabled
    ensures PlanetScaleModeKey in args && args[PlanetScaleModeKey].asBool.Err? ==>
      r.errors == [args[PlanetScaleModeKey].asBool.error]
    ensures PlanetScaleModeKey in args && args[PlanetScaleModeKey].asBool == Ok(true) && PlanetScaleMode !in previewFeatures ==>
      r.errors == [SourceValidationError(PlanetScaleModeNeedsPreview, sourceName, args[PlanetScaleModeKey].span)]
  {
    if PlanetScaleModeKey !in args then FlagOutcome(false, [])
    else
      var arg := args[PlanetScaleModeKey];
      var (modeEnabled, parseErrors) :=
        match arg.asBool
        case Ok(b) => (b, [])
        case Err(error) => (false, [error]);
      if modeEnabled && PlanetScaleMode !in previewFeatures then
        FlagOutcome(false, parseErrors + [SourceValidationError(PlanetScaleModeNeedsPreview, sourceName, arg.span)])
      else
        FlagOutcome(modeEnabled, parseErrors)
  }

  method GetPlanetScaleModeArg(args: map<string, ValueValidator>, previewFeatures: set<PreviewFeature>,
                               source: SourceConfig, diagnostics: Diagnostics)
    returns (enabled: bool)
    modifies diagnostics
    ensures var o := PlanetScaleModeOutcome(args, previewFeatures, source.name);
      enabled == o.enabled && diagnostics.errors == old(diagnostics.errors) + o.errors
  {
    if PlanetScaleModeKey !in args {
      return false;
    }
    var arg := args[PlanetScaleModeKey];
    var modeEnabled;
    match arg.asBool {
      case Ok(b) =>
        modeEnabled := b;
      case Err(error) =>
        diagnostics.PushError(error);
        modeEnabled := false;
    }
    if modeEnabled && PlanetScaleMode !in previewFeatures {
      diagnostics.PushError(SourceValidationError(PlanetScaleModeNeedsPreview, source.name, arg.span));
      return false;
    }
    return modeEnabled;
  }

  /** `provider` is present, not taken from env(), and a non-empty string literal. */
  predicate ProviderAccepted(args: map<string, ValueValidator>)
  {
    && ProviderKey in args
    && !args[ProviderKey].isFromEnv
    && args[ProviderKey].stringLiteral.Some?
    && args[ProviderKey].stringLiteral.value != ""
  }

  /** `url` is present and resolves. */
  predicate UrlResolved(args: map<string, ValueValidator>)
  {
    UrlKey in args && args[UrlKey].strFromEnv.Ok?
  }

  /** The datasource a block lifts to (if any) and the diagnostics pushed
      while lifting it, in order. */
  datatype Lifted = Lifted(source: Option<Datasource>, errors: seq<DatamodelError>)

  /** The outcome of loading all blocks. */
  datatype Loaded = Loaded(sources: seq<Datasource>, errors: seq<DatamodelError>)

  /** One diagnostic per declared block, saying that several datasources are
      not supported. */
  function MultipleDatasourcesErrors(sources: seq<SourceConfig>): seq<DatamodelError>
  {
    seq(|sources|, i requires 0 <= i < |sources| =>
      SourceValidationError(MultipleDatasources, sources[i].name, sources[i].span))
  }

  lemma MultipleDatasourcesErrorsStep(sources: seq<SourceConfig>, j: nat)
    requires j < |sources|
    ensures MultipleDatasourcesErrors(sources[..j + 1])
      == MultipleDatasourcesErrors(sources[..j])
         + [SourceValidationError(MultipleDatasources, sources[j].name, sources[j].span)]
  {
  }

  class DatasourceLoader {
    const sourceDefinitions: seq<DatasourceProvider>

    /** A loader over the built-in providers, whose implementations `impl`
        describes. */
    constructor (impl: ProviderKind -> ProviderImpl)
      ensures sourceDefinitions == GetBuiltinDatasourceProviders(impl)
    {
      sourceDefinitions := GetBuiltinDatasourceProviders(impl);
    }

    /** The first registry entry, in registry order, that accepts `provider`. */
    function GetDatasourceProvider(provider: string): (r: Option<DatasourceProvider>)
      ensures r.None? <==> forall j :: 0 <= j < |sourceDefinitions| ==> !sourceDefinitions[j].IsProvider(provider)
      ensures r.Some? ==>
        (exists i :: 0 <= i < |sourceDefinitions| && sourceDefinitions[i] == r.value
           && r.value.IsProvider(provider)
           && (forall j :: 0 <= j < i ==> !sourceDefinitions[j].IsProvider(provider)))
    {
      match FindProvider(sourceDefinitions, provider)
      case None => None
      case Some(i) => Some(sourceDefinitions[i])
    }

    /** What lifting the block `src` yields. */
    function LiftOutcome(src: SourceConfig, previewFeatures: set<PreviewFeature>): Lifted
    {
      var args := ArgsMap(src.properties);
      if ProviderKey !in args then
        Lifted(None, [SourceArgumentNotFoundError(ProviderKey, src.name, src.span)])
      else
        var providerArg := args[ProviderKey];
        if providerArg.isFromEnv then
          Lifted(None, [FunctionalEvaluationError(ProviderFromEnv, src.span)])
        else if providerArg.stringLiteral == Some("") then
          Lifted(None, [SourceValidationError(ProviderEmpty, src.name, providerArg.span)])
        else if providerArg.stringLiteral.None? then
          Lifted(None, [SourceValidationError(ProviderNotStringLiteral, src.name, providerArg.span)])
        else
          var provider := providerArg.stringLiteral.value;
          if UrlKey !in args then
            Lifted(None, [SourceArgumentNotFoundError(UrlKey, src.name, src.span)])
          else
            var urlArg := args[UrlKey];
            match urlArg.strFromEnv
            case Err(error) => Lifted(None, [error])
            case Ok(url) =>
              var shadow := ShadowDatabaseUrl(args);
              var checked := shadow.errors + PreviewFeaturesGuardrailErrors(args);
              match GetDatasourceProvider(provider)
              case None =>
                Lifted(None, checked + [DatasourceProviderNotKnownError(provider, providerArg.span)])
              case Some(datasourceProvider) =>
                var planetScale := PlanetScaleModeOutcome(args, previewFeatures, src.name);
                Lifted(
                  Some(Datasource(
                    src.name, provider, datasourceProvider.canonicalName, url, urlArg.span,
                    src.documentation, datasourceProvider.kind, shadow.url, planetScale.enabled)),
                  checked + planetScale.errors)
    }

    /** A block whose `provider` is missing, taken from env(), not a string
        literal, or the empty literal is rejected with exactly one diagnostic
        and nothing further is checked. */
    lemma ProviderRejections(src: SourceConfig, previewFeatures: set<PreviewFeature>)
      ensures var args := ArgsMap(src.properties); var r := LiftOutcome(src, previewFeatures);
        ProviderKey !in args ==>
          r == Lifted(None, [SourceArgumentNotFoundError(ProviderKey, src.name, src.span)])
      ensures var args := ArgsMap(src.properties); var r := LiftOutcome(src, previewFeatures);
        ProviderKey in args && args[ProviderKey].isFromEnv ==>
          r == Lifted(None, [FunctionalEvaluationError(ProviderFromEnv, src.span)])
      ensures var args := ArgsMap(src.properties); var r := LiftOutcome(src, previewFeatures);
        ProviderKey in args && !args[ProviderKey].isFromEnv && args[ProviderKey].stringLiteral.None? ==>
          r == Lifted(None, [SourceValidationError(ProviderNotStringLiteral, src.name, args[ProviderKey].span)])
      ensures var args := ArgsMap(src.properties); var r := LiftOutcome(src, previewFeatures);
        ProviderKey in args && !args[ProviderKey].isFromEnv && args[ProviderKey].stringLiteral == Some("") ==>
          r == Lifted(None, [SourceValidationError(ProviderEmpty, src.name, args[ProviderKey].span)])
    {
    }

    /** Once `provider` is accepted, a missing `url` or one that fails to
        resolve rejects the block with exactly that one diagnostic. */
    lemma UrlRejections(src: SourceConfig, previewFeatures: set<PreviewFeature>)
      ensures var args := ArgsMap(src.properties); var r := LiftOutcome(src, previewFeatures);
        ProviderAccepted(args) && UrlKey !in args ==>
          r == Lifted(None, [SourceArgumentNotFoundError(UrlKey, src.name, src.span)])
      ensures var args := ArgsMap(src.properties); var r := LiftOutcome(src, previewFeatures);
        ProviderAccepted(args) && UrlKey in args && args[UrlKey].strFromEnv.Err? ==>
          r == Lifted(None, [args[UrlKey].strFromEnv.error])
    {
    }

    /** A block is accepted exactly when its provider is an accepted literal,
        its url resolves and the registry knows the provider; a rejected
        block always leaves at least one diagnostic. The shadow database URL,
        `previewFeatures` and `planetScaleMode` never reject a block. */
    lemma AcceptanceCriterion(src: SourceConfig, previewFeatures: set<PreviewFeature>)
      ensures var args := ArgsMap(src.properties); var r := LiftOutcome(src, previewFeatures);
        r.source.Some? <==>
          ProviderAccepted(args) && UrlResolved(args)
          && GetDatasourceProvider(args[ProviderKey].stringLiteral.value).Some?
      ensures LiftOutcome(src, previewFeatures).source.None? ==> |LiftOutcome(src, previewFeatures).errors| >= 1
    {
    }

    /** A block with an accepted provider and a resolving url whose provider
        the registry does not know: rejected, after the shadow-URL and
        preview-features diagnostics, with one provider-not-known diagnostic. */
    lemma UnknownProviderRejected(src: SourceConfig, previewFeatures: set<PreviewFeature>)
      requires var args := ArgsMap(src.properties);
        ProviderAccepted(args) && UrlResolved(args)
        && GetDatasourceProvider(args[ProviderKey].stringLiteral.value).None?
      ensures var args := ArgsMap(src.properties); var provider := args[ProviderKey].stringLiteral.value;
        LiftOutcome(src, previewFeatures) == Lifted(None,
          ShadowDatabaseUrl(args).errors + PreviewFeaturesGuardrailErrors(args)
          + [DatasourceProviderNotKnownError(provider, args[ProviderKey].span)])
    {
    }

    /** An accepted block's datasource: its name and provider string, the
        canonical name and connector of the first registry entry accepting
        the provider, the resolved url, the shadow URL as resolved, the
        documentation, and the planet-scale flag as feature-gated. The
        diagnostics are those of the shadow URL, `previewFeatures` and
        `planetScaleMode`, in that order. */
    lemma AcceptedDatasource(src: SourceConfig, previewFeatures: set<PreviewFeature>)
      requires LiftOutcome(src, previewFeatures).source.Some?
      ensures var args := ArgsMap(src.properties); var provider := args[ProviderKey].stringLiteral.value;
        var d := LiftOutcome(src, previewFeatures).source.value;
        var p := GetDatasourceProvider(provider);
        && ProviderAccepted(args) && UrlResolved(args) && p.Some?
        && d.name == src.name && d.provider == provider
        && d.activeProvider == p.value.canonicalName && d.activeConnector == p.value.kind
        && d.url == args[UrlKey].strFromEnv.value && d.urlSpan == args[UrlKey].span
        && d.shadowDatabaseUrl == ShadowDatabaseUrl(args).url
        && d.documentation == src.documentation
        && (d.planetScaleMode <==>
              PlanetScaleModeKey in args && args[PlanetScaleModeKey].asBool == Ok(true)
              && PlanetScaleMode in previewFeatures)
        && LiftOutcome(src, previewFeatures).errors
           == ShadowDatabaseUrl(args).errors + PreviewFeaturesGuardrailErrors(args)
              + PlanetScaleModeOutcome(args, previewFeatures, src.name).errors
    {
    }

    /** Lifts one datasource block, pushing its diagnostics. */
    method LiftDatasource(src: SourceConfig, previewFeatures: set<PreviewFeature>, diagnostics: Diagnostics)
      returns (source: Option<Datasource>)
      modifies diagnostics
      ensures var o := LiftOutcome(src, previewFeatures);
        source == o.source && diagnostics.errors == old(diagnostics.errors) + o.errors
    {
      var args := ArgsMap(src.properties);
      if ProviderKey !in args {
        diagnostics.PushError(SourceArgumentNotFoundError(ProviderKey, src.name, src.span));
        return None;
      }
      var providerArg := args[ProviderKey];
      if providerArg.isFromEnv {
        diagnostics.PushError(FunctionalEvaluationError(ProviderFromEnv, src.span));
        return None;
      }
      var provider;
      match providerArg.stringLiteral {
        case Some("") =>
          diagnostics.PushError(SourceValidationError(ProviderEmpty, src.name, providerArg.span));
          return None;
        case None =>
          diagnostics.PushError(SourceValidationError(ProviderNotStringLiteral, src.name, providerArg.span));
          return None;
        case Some(p) =>
          provider := p;
      }

      if UrlKey !in args {
        diagnostics.PushError(SourceArgumentNotFoundError(UrlKey, src.name, src.span));
        return None;
      }
      var urlArg := args[UrlKey];
      var url;
      match urlArg.strFromEnv {
        case Ok(u) =>
          url := u;
        case Err(error) =>
          diagnostics.PushError(error);
          return None;
      }

      var shadowDatabaseUrl := ResolveShadowDatabaseUrl(args, diagnostics);
      PreviewFeaturesGuardrail(args, diagnostics);

      var documentation := src.documentation;

      var datasourceProvider := GetDatasourceProvider(provider);
      if datasourceProvider.None? {
        diagnostics.PushError(DatasourceProviderNotKnownError(provider, providerArg.span));
        return None;
      }

      var planetScaleMode := GetPlanetScaleModeArg(args, previewFeatures, src, diagnostics);
      return Some(Datasource(
        src.name, provider, datasourceProvider.value.canonicalName, url, urlArg.span,
        documentation, datasourceProvider.value.kind, shadowDatabaseUrl, planetScaleMode));
    }

    /** The accepted datasources of `sources` in order, and the diagnostics
        pushed while lifting them one after the other. */
    function LiftAll(sources: seq<SourceConfig>, previewFeatures: set<PreviewFeature>): Loaded
    {
      if sources == [] then Loaded([], [])
      else
        var prev := LiftAll(sources[..|sources| - 1], previewFeatures);
        var o := LiftOutcome(sources[|sources| - 1], previewFeatures);
        Loaded(prev.sources + (if o.source.Some? then [o.source.value] else []), prev.errors + o.errors)
    }

    lemma LiftAllStep(sources: seq<SourceConfig>, i: nat, previewFeatures: set<PreviewFeature>)
      requires i < |sources|
      ensures var prev := LiftAll(sources[..i], previewFeatures);
        var o := LiftOutcome(sources[i], previewFeatures);
        LiftAll(sources[..i + 1], previewFeatures)
          == Loaded(prev.sources + (if o.source.Some? then [o.source.value] else []), prev.errors + o.errors)
    {
      assert sources[..i + 1][..i] == sources[..i];
    }

    /** What loading the datasource blocks of `schema` yields. */
    function LoadOutcome(schema: seq<Top>, previewFeatures: set<PreviewFeature>): Loaded
    {
      var sources := Sources(schema);
      var lifted := LiftAll(sources, previewFeatures);
      if |lifted.sources| > 1 then Loaded(lifted.sources, lifted.errors + MultipleDatasourcesErrors(sources))
      else lifted
    }

    /** The positions of the blocks among `sources` that lift to a
        datasource, in increasing order. */
    function LiftedPositions(sources: seq<SourceConfig>, previewFeatures: set<PreviewFeature>): seq<nat>
    {
      if sources == [] then []
      else
        var prev := LiftedPositions(sources[..|sources| - 1], previewFeatures);
        if LiftOutcome(sources[|sources| - 1], previewFeatures).source.Some? then prev + [|sources| - 1] else prev
    }

    /** The listed positions are increasing and are exactly those of the
        blocks that lift to a datasource. */
    lemma {:induction false} LiftedPositionsExact(sources: seq<SourceConfig>, previewFeatures: set<PreviewFeature>)
      ensures var positions := LiftedPositions(sources, previewFeatures);
        && (forall k :: 0 <= k < |positions| ==> positions[k] < |sources|)
        && (forall k, l :: 0 <= k < l < |positions| ==> positions[k] < positions[l])
        && (forall i :: 0 <= i < |sources| ==>
              (LiftOutcome(sources[i], previewFeatures).source.Some? <==> i in positions))
    {
      if sources != [] {
        var n := |sources| - 1;
        var prefix := sources[..n];
        LiftedPositionsExact(prefix, previewFeatures);
        assert forall i :: 0 <= i < n ==> prefix[i] == sources[i];
        assert n !in LiftedPositions(prefix, previewFeatures);
      }
    }

    /** The k-th lifted datasource is that of the block at the k-th position. */
    lemma {:induction false} LiftAllAtPositions(sources: seq<SourceConfig>, previewFeatures: set<PreviewFeature>)
      ensures var lifted := LiftAll(sources, previewFeatures).sources;
        var positions := LiftedPositions(sources, previewFeatures);
        && |lifted| == |positions|
        && (forall k :: 0 <= k < |positions| ==>
              positions[k] < |sources| && LiftOutcome(sources[positions[k]], previewFeatures).source == Some(lifted[k]))
    {
      if sources != [] {
        var n := |sources| - 1;
        var prefix := sources[..n];
        LiftAllAtPositions(prefix, previewFeatures);
        assert forall i :: 0 <= i < n ==> prefix[i] == sources[i];
      }
    }

    /** Lifting all blocks returns exactly the datasources of the accepted
        blocks, in source order: the k-th datasource is that of the k-th
        accepted block, and a block is accepted exactly when it appears in
        `LiftedPositions`. */
    lemma LiftAllInSourceOrder(sources: seq<SourceConfig>, previewFeatures: set<PreviewFeature>)
      ensures var lifted := LiftAll(sources, previewFeatures).sources;
        var positions := LiftedPositions(sources, previewFeatures);
        && |lifted| == |positions|
        && (forall k :: 0 <= k < |positions| ==> positions[k] < |sources|)
        && (forall k, l :: 0 <= k < l < |positions| ==> positions[k] < positions[l])
        && (forall k :: 0 <= k < |positions| ==>
              LiftOutcome(sources[positions[k]], previewFeatures).source == Some(lifted[k]))
        && (forall i :: 0 <= i < |sources| ==>
              (LiftOutcome(sources[i], previewFeatures).source.Some? <==> i in positions))
    {
      LiftedPositionsExact(sources, previewFeatures);
      LiftAllAtPositions(sources, previewFeatures);
    }

    /** All accepted datasources are returned, whatever their number; when
        there are several, one more diagnostic follows for every declared
        block, accepted or not, in source order. */
    lemma MultipleDatasourcesRule(schema: seq<Top>, previewFeatures: set<PreviewFeature>)
      ensures var blocks := Sources(schema);
        var lifted := LiftAll(blocks, previewFeatures);
        var r := LoadOutcome(schema, previewFeatures);
        && r.sources == lifted.sources
        && r.errors[..|lifted.errors|] == lifted.errors
        && |r.errors| == |lifted.errors| + (if |lifted.sources| > 1 then |blocks| else 0)
        && (|lifted.sources| > 1 ==>
              forall i :: 0 <= i < |blocks| ==>
                r.errors[|lifted.errors| + i]
                  == SourceValidationError(MultipleDatasources, blocks[i].name, blocks[i].span))
    {
    }

    /** Two accepted blocks are both returned, in order, and each of the two
        gets a multiple-datasources diagnostic after their own diagnostics. */
    lemma TwoAcceptedBlocksBothReturned(first: SourceConfig, second: SourceConfig, previewFeatures: set<PreviewFeature>)
      requires LiftOutcome(first, previewFeatures).source.Some?
      requires LiftOutcome(second, previewFeatures).source.Some?
      ensures var r := LoadOutcome([Source(first), Source(second)], previewFeatures);
        && r.sources == [LiftOutcome(first, previewFeatures).source.value, LiftOutcome(second, previewFeatures).source.value]
        && r.errors == LiftOutcome(first, previewFeatures).errors + LiftOutcome(second, previewFeatures).errors
             + [SourceValidationError(MultipleDatasources, first.name, first.span),
                SourceValidationError(MultipleDatasources, second.name, second.span)]
    {
      var schema := [Source(first), Source(second)];
      assert Sources(schema) == [first, second];
      var a := LiftOutcome(first, previewFeatures);
      var b := LiftOutcome(second, previewFeatures);
      assert [first, second][..1] == [first];
      assert [first][..0] == [];
      assert LiftAll([first], previewFeatures) == Loaded([a.source.value], a.errors);
      assert LiftAll([first, second], previewFeatures) == Loaded([a.source.value, b.source.value], a.errors + b.errors);
      assert MultipleDatasourcesErrors([first, second])
        == [SourceValidationError(MultipleDatasources, first.name, first.span),
            SourceValidationError(MultipleDatasources, second.name, second.span)];
    }

    /** Lifts the blocks one after the other, pushing their diagnostics. */
    method LiftBlocks(blocks: seq<SourceConfig>, previewFeatures: set<PreviewFeature>, diagnostics: Diagnostics)
      returns (sources: seq<Datasource>)
      modifies diagnostics
      ensures var lifted := LiftAll(blocks, previewFeatures);
        sources == lifted.sources && diagnostics.errors == old(diagnostics.errors) + lifted.errors
    {
      sources := [];
      var i := 0;
      while i < |blocks|
        invariant 0 <= i <= |blocks|
        invariant sources == LiftAll(blocks[..i], previewFeatures).sources
        invariant diagnostics.errors == old(diagnostics.errors) + LiftAll(blocks[..i], previewFeatures).errors
      {
        LiftAllStep(blocks, i, previewFeatures);
        ghost var prev := LiftAll(blocks[..i], previewFeatures);
        ghost var o := LiftOutcome(blocks[i], previewFeatures);
        var source := LiftDatasource(blocks[i], previewFeatures, diagnostics);
        if source.Some? {
          sources := sources + [source.value];
        }
        assert sources == prev.sources + (if o.source.Some? then [o.source.value] else []);
        i := i + 1;
      }
      assert blocks[..|blocks|] == blocks;
    }

    /** Loads every datasource block of `schema`, pushing all diagnostics. */
    method LoadDatasourcesFromAst(schema: seq<Top>, previewFeatures: set<PreviewFeature>, diagnostics: Diagnostics)
      returns (sources: seq<Datasource>)
      modifies diagnostics
      ensures var o := LoadOutcome(schema, previewFeatures);
        sources == o.sources && diagnostics.errors == old(diagnostics.errors) + o.errors
    {
      var blocks := Sources(schema);
      sources := LiftBlocks(blocks, previewFeatures, diagnostics);
      if |sources| > 1 {
        PushMultipleDatasources(blocks, diagnostics);
      }
    }
  }

  /** Pushes one multiple-datasources diagnostic per block, in order. */
  method PushMultipleDatasources(blocks: seq<SourceConfig>, diagnostics: Diagnostics)
    modifies diagnostics
    ensures diagnostics.errors == old(diagnostics.errors) + MultipleDatasourcesErrors(blocks)
  {
    var j := 0;
    while j < |blocks|
      invariant 0 <= j <= |blocks|
      invariant diagnostics.errors == old(diagnostics.errors) + MultipleDatasourcesErrors(blocks[..j])
    {
      MultipleDatasourcesErrorsStep(blocks, j);
      diagnostics.PushError(SourceValidationError(MultipleDatasources, blocks[j].name, blocks[j].span));
      j := j + 1;
    }
    assert blocks[..j] == blocks;
  }
}
