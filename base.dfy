/** Optional values, the exceptions the service can raise, and results that carry them. */
module Base {

  datatype Option<+T> = None | Some(value: T) {
    /** The value, or `default` when there is none. */
    function GetOr(default: T): T {
      if Some? then value else default
    }
  }

  /** Python truthiness of an optional string (`if dc_id:`, `if not api_key:`). */
  predicate Given(s: Option<string>) {
    s.Some? && s.value != ""
  }

  /** The exceptions raised by the modelled code or by the collaborators it calls. */
  datatype Exception =
    | TypeError          // an operator or builtin applied to a value of the wrong type
    | AttributeError     // `.get` on a non-dict, `.strip` on a non-str
    | IndexError         // a subscript past the end of a list
    | ValidationError    // pydantic rejected a field value
    | JsonDecodeError    // `json.loads` on text that is not JSON
    | ServiceError       // HTTP, OpenAI or LangChain failed
    | ArgumentOutOfRange // .NET date arithmetic left the range of DateTime

  /** The outcome of a call that either returns a value or raises. */
  datatype Result<+T> = Ok(value: T) | Err(error: Exception)
}
