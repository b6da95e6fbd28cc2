/** `/api/signaling/offer`: publish, fetch and tear down a session. */
module OfferRoute {
  import opened Wrappers
  import opened Http
  import opened SignalingStore
  import opened SignalingApi

  const MissingId := "Connection ID is required"
  const MissingIdOrOffer := "Connection ID and offer are required"
  const OfferNotFound := "Offer not found"

  /**
   * GET: 400 without touching the store when `id` is missing or empty;
   * otherwise 404 when no offer is stored and the stored offer verbatim
   * when there is one. A valid GET materialises the record.
   */
  function Get(s: Store, id: Option<string>): (r: (Response, Store))
    ensures !Present(id) ==> r.0 == BadRequest(MissingId) && r.1 == s
    ensures Present(id) ==> OnlyMaterialises(s, r.1, id.value)
    ensures Present(id) && Lookup(s, id.value).offer.None? ==> r.0 == NotFound(OfferNotFound)
    ensures Present(id) && Lookup(s, id.value).offer.Some? ==>
              r.0 == Response(StatusOk, OfferBody(Lookup(s, id.value).offer.value))
  {
    if !Present(id) then (BadRequest(MissingId), s)
    else
      var (offer, s1) := SignalingStore.GetOffer(s, id.value);
      if offer.None? then (NotFound(OfferNotFound), s1)
      else (Response(StatusOk, OfferBody(offer.value)), s1)
  }

  /**
   * POST: 400 with the store unchanged when `id` is missing or the body's
   * `offer` is absent or falsy; otherwise a reset of the session to this
   * offer, with no answer and empty queues.
   */
  function Post(s: Store, id: Option<string>, offer: Option<SessionDescription>): (r: (Response, Store))
    ensures !(Present(id) && offer.Some?) ==> r.0 == BadRequest(MissingIdOrOffer) && r.1 == s
    ensures Present(id) && offer.Some? ==>
              && r.0 == Success
              && r.1.Keys == s.Keys + {id.value}
              && r.1[id.value] == Connection(offer, None, [], [])
              && UnchangedElsewhere(s, r.1, id.value)
  {
    if !Present(id) || offer.None? then (BadRequest(MissingIdOrOffer), s)
    else (Success, SignalingStore.SetOffer(s, id.value, offer.value))
  }

  /**
   * DELETE: 400 when `id` is missing; otherwise the whole record is
   * deleted and the answer is success whether or not it existed.
   */
  function Delete(s: Store, id: Option<string>): (r: (Response, Store))
    ensures !Present(id) ==> r.0 == BadRequest(MissingId) && r.1 == s
    ensures Present(id) ==>
              && r.0 == Success
              && r.1.Keys == s.Keys - {id.value}
              && UnchangedElsewhere(s, r.1, id.value)
  {
    if !Present(id) then (BadRequest(MissingId), s)
    else (Success, SignalingStore.Clear(s, id.value))
  }

  /** A second DELETE of the same code succeeds and changes nothing more. */
  lemma DeleteIdempotent(s: Store, id: Option<string>)
    ensures var (r1, s1) := Delete(s, id);
            var (r2, s2) := Delete(s1, id);
            r2 == r1 && s2 == s1
  {
  }

  /** After a DELETE, a GET of the offer for that code is a 404. */
  lemma DeleteThenGetNotFound(s: Store, code: string)
    requires code != ""
    ensures Get(Delete(s, Some(code)).1, Some(code)).0 == NotFound(OfferNotFound)
  {
  }
}
