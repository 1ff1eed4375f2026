/** The outcome side of `createAsyncThunk`: the HTTP call behind a thunk is abstracted to what it returned,
    and the thunk turns that into one of the actions the slice reducers handle. */
module Thunks {
  import opened JsValues

  /** The action a thunk dispatches: `pending` when it starts, then `fulfilled` with the returned value
      or `rejected` with the value given to `rejectWithValue` (always a message here). */
  datatype Phase<+T> = Pending | Fulfilled(payload: T) | Rejected(reason: string)

  /** What the HTTP call produced: a body, or a failure carrying `err.response?.data?.message`
      (None when the response, its body or the field is missing, e.g. on a transport failure). */
  datatype Response<+T> = Ok(body: T) | Failed(message: Option<string>)

  /** `err.response?.data?.message || fallback`: the server's message when it is truthy, the thunk's fixed
      fallback otherwise; with a non-empty fallback the reported reason is never empty. */
  function RejectReason(message: Option<string>, fallback: string): (r: string)
    ensures Truthy(message) ==> r == message.value
    ensures r == fallback || (message.Some? && r == message.value)
    ensures fallback != "" ==> r != ""
  {
    Or(message, fallback)
  }

  /** The settling action of a thunk whose body is `try { return body } catch { return rejectWithValue(reason) }`:
      the call's outcome decides fulfilled or rejected, and a rejection carries the reason built above. */
  function Settle<T>(resp: Response<T>, fallback: string): (p: Phase<T>)
    ensures !p.Pending?
    ensures p.Fulfilled? <==> resp.Ok?
    ensures resp.Ok? ==> p.payload == resp.body
    ensures resp.Failed? ==> p.reason == RejectReason(resp.message, fallback)
  {
    match resp
    case Ok(body) => Fulfilled(body)
    case Failed(message) => Rejected(RejectReason(message, fallback))
  }
}
