/** What the handlers send back through Express's response object. */
module Http {
  import opened Results
  import opened UserModel

  /** The `status` field of a JSON body. */
  datatype Status = Success | Failed

  /** The JSON bodies the handlers send, one constructor per shape. */
  datatype Body =
    | StatusMessage(status: Status, message: string)                // { status, message }
    | UserCreated(status: Status, message: string, user: Profile)  // { status, message, user: { id, name, email } }
    | TokenIssued(status: Status, message: string, token: string)  // { status, message, token }
    | CurrentUser(status: Status, user: Profile)                    // { status, user }
    | MessageOnly(message: string)                                   // { message }

  /** The error a handler's promise rejects with when it throws outside any `try`. */
  datatype Fault = CastError | TypeError

  /** What one call of a handler did with its response object. */
  datatype Outcome =
    | Sent(code: nat, body: Body)  // res.status(code).json(body); res.send(body) sends code 200
    | NoResponse                   // returned without answering: the client waits
    | Passed                       // a middleware handed the request on with next()
    | Crashed(fault: Fault)        // rejected: no answer, and the rejection goes unhandled

  /** JavaScript truthiness of a request field that is absent or a string. */
  function Truthy(field: Option<string>): (truthy: bool)
    ensures truthy <==> field.Some? && |field.value| > 0
  {
    field.Some? && field.value != ""
  }
}
