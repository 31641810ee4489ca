/** Values shared by the tool functions of the travel planner: optional values
    (Python's None), the two ways a tool call can end (a returned value or a
    raised exception), and the truthiness test the tools apply to provider
    results. */
module Common {

  datatype Option<+T> = None | Some(value: T)

  /** The exceptions a tool call can raise and let escape to its caller. */
  datatype ToolError =
    | SearchFailed                   // the DuckDuckGo client raised; its call is not guarded
    | MissingField                   // a sampled forecast entry lacks dt_txt, main.temp or weather[0].description
    | EmptyWeatherList               // current weather: 'weather' present but empty, so [0] raises IndexError
    | InvalidDays(message: string)   // the ValueError raised by calculate_daily_budget

  /** How a tool call ends: with a value, or with an exception that escapes it. */
  datatype Outcome<+T> = Ok(value: T) | Raised(error: ToolError)

  /** Python truthiness of an optional string: None and "" are falsy. */
  predicate Truthy(s: Option<string>)
  {
    s.Some? && s.value != ""
  }
}
