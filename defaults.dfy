/** JavaScript's `value || fallback` on the optional request and option fields:
    `undefined` and every falsy value (the empty string, the number 0) select the fallback. */
module Defaults {
  import opened Wrappers

  function OrDefault(value: Option<string>, fallback: string): (r: string)
    ensures value.Some? && value.value != "" ==> r == value.value
    ensures value.None? || value.value == "" ==> r == fallback
    ensures fallback != "" ==> r != ""
  {
    if value.Some? && value.value != "" then value.value else fallback
  }

  /** `NaN`, the other falsy number, is not modelled. */
  function OrDefaultInt(value: Option<int>, fallback: int): (r: int)
    ensures value.Some? && value.value != 0 ==> r == value.value
    ensures value.None? || value.value == 0 ==> r == fallback
  {
    if value.Some? && value.value != 0 then value.value else fallback
  }
}
