/**
 * The two field rules the form schemas use, as the validation library applies
 * them: a minimum string length with a custom message, and membership in a
 * fixed list of options. Lengths are taken on the raw string; nothing is
 * trimmed. The library's own wording for a rejected option is not modelled:
 * such an issue carries the options and the value received instead.
 */
module SchemaRules {

  /** One validation issue, reported against the field `F` it concerns. */
  datatype Issue<F> =
    | TooSmall(field: F, minimum: nat, message: string)
    | InvalidEnumValue(field: F, options: seq<string>, received: string)

  /** `string().min(minimum, message)` on one field: no issue, or exactly this one. */
  function MinLength<F>(field: F, value: string, minimum: nat, message: string): (r: seq<Issue<F>>)
    ensures r == [] <==> |value| >= minimum
    ensures r != [] ==> r == [TooSmall(field, minimum, message)]
  {
    if |value| < minimum then [TooSmall(field, minimum, message)] else []
  }

  /** `enum(options)` on one field: no issue, or exactly one naming the value received. */
  function OneOf<F>(field: F, value: string, options: seq<string>): (r: seq<Issue<F>>)
    ensures r == [] <==> value in options
    ensures r != [] ==> r == [InvalidEnumValue(field, options, value)]
  {
    if value in options then [] else [InvalidEnumValue(field, options, value)]
  }
}
