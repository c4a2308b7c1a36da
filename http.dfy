/**
  The response a handler sends. Each success body is a record whose field
  names are the JSON keys the handler writes; its serialisation by
  `res.json` is not modelled.
*/
module Http {

  datatype Response<+B> =
    | Answer(body: B)                            // res.json(body)
    | BadRequest(error: string)                  // res.status(400).json({ error })
    | ServerError(error: string, message: string) // res.status(500).json({ error, message: error.message })
  {
    function Status(): int {
      match this
      case Answer(_) => 200
      case BadRequest(_) => 400
      case ServerError(_, _) => 500
    }
  }

  /**
    How far a handler gets before its effect: rejected by validation (answered
    400), stopped by an error thrown before the effect (answered 500), or
    ready to perform the effect with the given input.
  */
  datatype Stage<+T> = Rejected | Thrown(message: string) | Ready(value: T)
}
