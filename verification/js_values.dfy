/**
  The few JavaScript value rules the deployer's decisions depend on.

  A JSON field that may be missing is an `Option`: `None` stands for
  `undefined`. The source tests such fields for truthiness (`!x`), picks
  defaults with `x || d` and interpolates them into template strings; the
  functions here give those three operations for the field types the
  configuration and payload use.
*/
module JsValues {

  datatype Option<+T> = None | Some(value: T)

  /** `!!x` for a string field: present and not the empty string. */
  predicate Truthy(o: Option<string>) {
    o.Some? && o.value != ""
  }

  /** `!!x` for a boolean field. */
  predicate TruthyBool(o: Option<bool>) {
    o == Some(true)
  }

  /** `!!x` for an integral number field: present and not zero. */
  predicate TruthyNum(o: Option<int>) {
    o.Some? && o.value != 0
  }

  /** `x || d` for a string field. */
  function OrElse(o: Option<string>, d: string): string {
    if Truthy(o) then o.value else d
  }

  /** `x || d` for a number field. */
  function OrElseNum(o: Option<int>, d: int): int {
    if TruthyNum(o) then o.value else d
  }

  /** `${x}` for a string field: a missing field prints as "undefined". */
  function Interpolate(o: Option<string>): string {
    match o
    case Some(s) => s
    case None => "undefined"
  }
}
