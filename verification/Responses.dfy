// What an action's server handler returns, and how it travels: ResponseData
// carries both an Error and a Response, told apart by error.set alone
// (inc/lesf/ipc/user_actions.h, inc/lesf/ipc/action_server.h).
module Responses {

  type Id = nat

  datatype Error = Error(isSet: bool, message: string, code: int)

  // Error's default constructor.
  const NO_ERROR := Error(false, "", 0)

  // Error's constructor for an actual error; its code defaults to -1.
  function MakeError(message: string, code: int := -1): Error {
    Error(true, message, code)
  }

  // ResponseOrError: Either with exactly one side present. The fields of the
  // user's Response struct are kept as one string.
  datatype Answer = Response(data: string) | Fault(error: Error)

  datatype ResponseData = ResponseData(id: Id, error: Error, data: string)

  // The two ResponseData constructors, as registerAction selects them.
  function Encode(id: Id, answer: Answer): ResponseData {
    match answer
    case Response(data) => ResponseData(id, NO_ERROR, data)
    case Fault(error) => ResponseData(id, error, "")
  }

  // What M_responseHandler hands to the user's handler.
  function Decode(r: ResponseData): Answer {
    if r.error.isSet then Fault(r.error) else Response(r.data)
  }

  // The client sees exactly what the server handler returned, unless that was
  // an error never marked as set; such an error arrives as an empty response.
  lemma AnswerRoundTrip(id: Id, answer: Answer)
    ensures Decode(Encode(id, answer)) == answer <==> (answer.Fault? ==> answer.error.isSet)
    ensures Decode(Encode(id, answer)) != answer ==> Decode(Encode(id, answer)) == Response("")
    ensures Encode(id, answer).id == id
  {}

  // What the constructors put into the fields.
  lemma FieldsAsConstructed(id: Id, data: string, message: string, code: int)
    ensures Encode(id, Response(data)) == ResponseData(id, Error(false, "", 0), data)
    ensures Encode(id, Fault(Error(true, message, code))) == ResponseData(id, Error(true, message, code), "")
    ensures MakeError(message, code) == Error(true, message, code) && MakeError(message) == Error(true, message, -1)
  {}

  lemma MadeErrorsArrive(id: Id, message: string, code: int)
    ensures Decode(Encode(id, Fault(MakeError(message, code)))) == Fault(MakeError(message, code))
  {}
}
