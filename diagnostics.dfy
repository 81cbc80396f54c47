/** The diagnostics sink shared by every pass: an ordered collection of
    errors that a pass only ever appends to. Each error keeps its kind, the
    names it mentions and the span it points at; the rendered wording is not
    modelled, except the recursion path of a recursive alias. */
module Diagnostics {

  /** A region of the schema text, for anchoring diagnostics. */
  datatype Span = Span(start: nat, end: nat)

  /** The fixed messages the passes attach to an error. */
  datatype Message =
    | ProviderFromEnv               // "must not use the env() function in the provider argument"
    | ProviderEmpty                 // "The provider argument ... must not be empty"
    | ProviderNotStringLiteral      // "The provider argument ... must be a string literal"
    | MultipleDatasources           // "You defined more than one datasource ..."
    | PlanetScaleModeNeedsPreview   // "`planetScaleMode` ... only if the preview feature is enabled"
    | PreviewFeaturesInGenerator    // "Preview features are only supported in the generator block ..."
    | OnlyScalarTypes               // "Only scalar types can be used for defining custom types."
    | RecursiveType(path: string)   // "Recursive type definitions are not allowed. Recursive path was: <path>."

  datatype DatamodelError =
    | SourceArgumentNotFoundError(argumentName: string, sourceName: string, span: Span)
    | FunctionalEvaluationError(message: Message, span: Span)
    | EnvironmentFunctionalEvaluationError(varName: string, span: Span)
    | SourceValidationError(message: Message, sourceName: string, span: Span)
    | DatasourceProviderNotKnownError(provider: string, span: Span)
    | ConnectorError(message: Message, span: Span)
    | ValidationError(message: Message, span: Span)
    | TypeNotFoundError(typeName: string, span: Span)
    | ValueParserError(expectedType: string, raw: string, span: Span)

  class Diagnostics {
    var errors: seq<DatamodelError>

    constructor ()
      ensures errors == []
    {
      errors := [];
    }

    method PushError(error: DatamodelError)
      modifies this
      ensures errors == old(errors) + [error]
    {
      errors := errors + [error];
    }
  }
}
