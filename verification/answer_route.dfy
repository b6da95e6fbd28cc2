/** `/api/signaling/answer`: publish and fetch the viewer's answer. */
module AnswerRoute {
  import opened Wrappers
  import opened Http
  import opened SignalingStore
  import opened SignalingApi

  const MissingId := "Connection ID is required"
  const MissingIdOrAnswer := "Connection ID and answer are required"
  const AnswerNotFound := "Answer not found"

  /**
   * GET: 400 without touching the store when `id` is missing; otherwise
   * 404 when no answer is stored and the last stored answer when there is
   * one. A valid GET materialises the record.
   */
  function Get(s: Store, id: Option<string>): (r: (Response, Store))
    ensures !Present(id) ==> r.0 == BadRequest(MissingId) && r.1 == s
    ensures Present(id) ==> OnlyMaterialises(s, r.1, id.value)
    ensures Present(id) && Lookup(s, id.value).answer.None? ==> r.0 == NotFound(AnswerNotFound)
    ensures Present(id) && Lookup(s, id.value).answer.Some? ==>
              r.0 == Response(StatusOk, AnswerBody(Lookup(s, id.value).answer.value))
  {
    if !Present(id) then (BadRequest(MissingId), s)
    else
      var (answer, s1) := SignalingStore.GetAnswer(s, id.value);
      if answer.None? then (NotFound(AnswerNotFound), s1)
      else (Response(StatusOk, AnswerBody(answer.value)), s1)
  }

  /**
   * POST: 400 with the store unchanged when `id` or `answer` is missing;
   * otherwise the answer replaces any earlier one (last writer wins) and
   * nothing else in the record changes.
   */
  function Post(s: Store, id: Option<string>, answer: Option<SessionDescription>): (r: (Response, Store))
    ensures !(Present(id) && answer.Some?) ==> r.0 == BadRequest(MissingIdOrAnswer) && r.1 == s
    ensures Present(id) && answer.Some? ==>
              && r.0 == Success
              && r.1.Keys == s.Keys + {id.value}
              && r.1[id.value] == Lookup(s, id.value).(answer := answer)
              && UnchangedElsewhere(s, r.1, id.value)
  {
    if !Present(id) || answer.None? then (BadRequest(MissingIdOrAnswer), s)
    else (Success, SignalingStore.SetAnswer(s, id.value, answer.value))
  }

  /** Two answers posted in a row: a GET returns the second. */
  lemma LastAnswerWins(s: Store, code: string, a1: SessionDescription, a2: SessionDescription)
    requires code != ""
    ensures var s1 := Post(s, Some(code), Some(a1)).1;
            var s2 := Post(s1, Some(code), Some(a2)).1;
            Get(s2, Some(code)).0 == Response(StatusOk, AnswerBody(a2))
  {
  }
}
