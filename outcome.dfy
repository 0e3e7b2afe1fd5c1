/** How the presenters read the answer of a data-module call: a thrown
    error shows its message, an answer without a truthy `ok` shows the
    answer's message, and only an ok answer goes on to render data. */
module Outcome {
  import opened Js

  /** The message shown for the call's outcome, or None when it is ok. */
  function FailureMessage(response: Completion<Value>): (m: Option<Value>)
    ensures response.Abrupt? ==> m == Some(MessageOf(response.exc))
    ensures response.Normal? && Nullish(response.value) ==> m.Some? && m.value.Str?
    ensures response.Normal? && !Nullish(response.value) ==>
              (m.None? <==> Truthy(Prop(response.value, "ok")))
              && (m.Some? ==> m.value == Prop(response.value, "message"))
  {
    match response
    case Abrupt(e) => Some(MessageOf(e))
    case Normal(r) =>
      match Get(r, "ok")
      case Abrupt(e) => Some(MessageOf(e))
      case Normal(ok) => if Truthy(ok) then None else Some(Prop(r, "message"))
  }
}
