/** The component's nullable values (`string | null`, `{x, y} | null`) as an option type. */
module Wrappers {

  datatype Option<+T> = None | Some(value: T)

  /** JavaScript truthiness of a nullable string: null and "" are both falsy. */
  predicate Truthy(s: Option<string>)
  {
    s.Some? && s.value != ""
  }
}
