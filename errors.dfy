/** Failure-carrying results and the error values the generator raises.

    The Go code joins error messages with `errors.Join`; here each message
    becomes a constructor, and a joined error keeps the underlying cause as a
    field so that its origin is still visible to a caller.
 */
module Errors {

  /** A Go `*T` reference that may be nil. */
  datatype Option<+T> = None | Some(value: T)

  datatype Error =
      // switchRepository.GetModule: no entry under this name
    | ModuleNotFound(name: string)
      // switchRepository.AddModule: a non-nil module is already registered
    | ModuleExists(name: string)
      // switchRepository.AddModule: empty Filename or Module
    | InvalidModule(name: string)
      // switchRepository.AddModule: the footprint file does not exist
    | ModuleFileNotFound(path: string, name: string)
      // OverrideModule: an override key the base module does not declare
    | ExtraArgNotFound(key: string)
      // validateUnits
    | LengthUnitUnsupported
    | AngleUnitUnsupported
      // validateLayout
    | TooFewRows
    | TooFewCols
      // validateSwitchTypes, each naming the offending switch type
    | DefinitionRequired(switchType: string)
    | GetModuleFailed(switchType: string, cause: Error)
    | ModuleNil(switchType: string)
    | OverrideFailed(switchType: string, cause: Error)
    | AddFailed(switchType: string, cause: Error)
      // newTemplateData, naming the stage that failed
    | UnitsValidation(cause: Error)
    | LayoutValidation(cause: Error)
    | SwitchTypesValidation(cause: Error)
  {
    /** The errors of `validateSwitchTypes`, which name a switch type. */
    predicate NamesSwitchType() {
      DefinitionRequired? || GetModuleFailed? || ModuleNil? || OverrideFailed? || AddFailed?
    }
  }

  /** A value or an error, as a Go `(T, error)` pair where exactly one is set. */
  datatype Result<+T> = Ok(value: T) | Err(error: Error)

  /** A Go `error` return alone: nil or an error. */
  datatype Outcome = Pass | Fail(error: Error)
}
