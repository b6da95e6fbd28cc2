/**
 * The JSON responses of the three signaling routes, as already-serialised
 * `(status, body)` pairs.
 */
module SignalingApi {
  import opened SignalingStore
  import opened Http

  datatype Body =
    | ErrorBody(error: string)
    | OfferBody(offer: SessionDescription)
    | AnswerBody(answer: SessionDescription)
    | CandidatesBody(candidates: seq<IceCandidate>)
    | SuccessBody

  datatype Response = Response(status: int, body: Body)

  const Success := Response(StatusOk, SuccessBody)

  function BadRequest(message: string): Response {
    Response(StatusBadRequest, ErrorBody(message))
  }

  function NotFound(message: string): Response {
    Response(StatusNotFound, ErrorBody(message))
  }
}
