/** Values shared by the call, chat and password-reset models. */
module Common {

  /** An optional value: JavaScript's `undefined`/`null` versus a present value. */
  datatype Option<+T> = None | Some(value: T)

  /** JavaScript truthiness of an optional string: absent and "" are both falsy. */
  predicate Truthy(s: Option<string>) {
    s.Some? && s.value != ""
  }

  /** `a || b` for an optional string `a` and a string `b`. */
  function OrElse(a: Option<string>, b: string): (r: string)
    ensures Truthy(a) ==> r == a.value
    ensures !Truthy(a) ==> r == b
  {
    if Truthy(a) then a.value else b
  }
}
