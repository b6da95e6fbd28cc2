/** `/api/signaling/ice-candidate`: trickle candidates between the peers. */
module IceCandidateRoute {
  import opened Wrappers
  import opened Http
  import opened SignalingStore
  import opened SignalingApi

  const MissingIdOrPeer := "Connection ID and peerType are required"
  const MissingIdPeerOrCandidate := "Connection ID, peerType, and candidate are required"

  /**
   * GET: 400 without touching the store when `id` or `peerType` is
   * missing; otherwise the other role's pending candidates in insertion
   * order. A non-empty answer drains that queue in the same step; an empty
   * one changes nothing beyond lazy creation.
   */
  function Get(s: Store, id: Option<string>, peerType: Option<string>): (r: (Response, Store))
    ensures !(Present(id) && Present(peerType)) ==> r.0 == BadRequest(MissingIdOrPeer) && r.1 == s
    ensures Present(id) && Present(peerType) ==>
              var pending := Lookup(s, id.value).Queue(Other(RoleOf(peerType.value)));
              && r.0 == Response(StatusOk, CandidatesBody(pending))
              && (pending == [] ==> OnlyMaterialises(s, r.1, id.value))
              && r.1.Keys == s.Keys + {id.value}
              && r.1[id.value] == Lookup(s, id.value).WithQueue(Other(RoleOf(peerType.value)), [])
              && UnchangedElsewhere(s, r.1, id.value)
  {
    if !Present(id) || !Present(peerType) then (BadRequest(MissingIdOrPeer), s)
    else
      var (candidates, s1) := SignalingStore.GetIceCandidates(s, id.value, peerType.value);
      var s2 := if |candidates| > 0 then SignalingStore.ClearCandidates(s1, id.value, peerType.value) else s1;
      (Response(StatusOk, CandidatesBody(candidates)), s2)
  }

  /**
   * POST: 400 with the store unchanged when `id`, `peerType` or
   * `candidate` is missing; otherwise the candidate is appended to the
   * poster's own queue.
   */
  function Post(s: Store, id: Option<string>, peerType: Option<string>, candidate: Option<IceCandidate>): (r: (Response, Store))
    ensures !(Present(id) && Present(peerType) && candidate.Some?) ==>
              r.0 == BadRequest(MissingIdPeerOrCandidate) && r.1 == s
    ensures Present(id) && Present(peerType) && candidate.Some? ==>
              var own := RoleOf(peerType.value);
              && r.0 == Success
              && r.1.Keys == s.Keys + {id.value}
              && r.1[id.value] == Lookup(s, id.value).WithQueue(own, Lookup(s, id.value).Queue(own) + [candidate.value])
              && UnchangedElsewhere(s, r.1, id.value)
  {
    if !Present(id) || !Present(peerType) || candidate.None? then (BadRequest(MissingIdPeerOrCandidate), s)
    else (Success, SignalingStore.AddIceCandidate(s, id.value, peerType.value, candidate.value))
  }

  /** An immediately repeated GET by the same peer receives nothing. */
  lemma RepeatedGetIsEmpty(s: Store, id: Option<string>, peerType: Option<string>)
    requires Present(id) && Present(peerType)
    ensures var s1 := Get(s, id, peerType).1;
            Get(s1, id, peerType).0 == Response(StatusOk, CandidatesBody([]))
  {
  }

  /**
   * A candidate posted by the base station reaches the next remote-viewer
   * GET (behind whatever was already pending) and never a base-station GET.
   */
  lemma BaseStationCandidateGoesToViewer(s: Store, code: string, c: IceCandidate)
    requires code != ""
    ensures var s1 := Post(s, Some(code), Some("base-station"), Some(c)).1;
            && Get(s1, Some(code), Some("remote-viewer")).0
                 == Response(StatusOk, CandidatesBody(Lookup(s, code).baseStationCandidates + [c]))
            && Get(s1, Some(code), Some("base-station")).0
                 == Response(StatusOk, CandidatesBody(Lookup(s, code).remoteViewerCandidates))
  {
  }
}
