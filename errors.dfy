/**
 * The error taxonomy of the configuration package. Each Go error struct becomes
 * one constructor carrying the struct's structured fields; the formatted
 * message text is not kept.
 */
module ConfErrors {
  import opened Wrappers

  /** What the line scanner reports when reading stops early (a read error, a token over the size limit). */
  datatype ReadFailure = ReadFailure(description: string)

  datatype ConfError =
    /** `NewKeyNotFoundError(key)`: the key is absent from a loaded store. */
    | KeyNotFound(key: string)
    /** `NewTypeConversionError(key, value, typ)`: the raw value does not convert to `typeName`. */
    | TypeConversion(key: string, value: string, typeName: string)
    /** `NewParsingError(line)`: a line of the backing file is not of the form key=value. */
    | Parsing(line: string)
    /** `UnknownError`: the scanner failed; `cause` is what `Unwrap` returns, `path` is named in the message. */
    | Unknown(cause: ReadFailure, path: string)

  /** A Go `(value, error)` return: `err == None` is a nil error. */
  datatype Reply<T> = Reply(value: T, err: Option<ConfError>)
}
