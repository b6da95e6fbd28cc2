/**
 * The rendezvous protocol as sequences of requests to the three signaling
 * routes. Each handler runs to completion before the next request is
 * served, so a trace is a fold of the handlers over the store.
 */
module Rendezvous {
  import opened Wrappers
  import opened Http
  import opened SignalingStore
  import opened SignalingApi
  import OfferRoute
  import AnswerRoute
  import IceCandidateRoute

  /** One already-parsed request: query parameters and body field. */
  datatype Request =
    | OfferGet(id: Option<string>)
    | OfferPost(id: Option<string>, offer: Option<SessionDescription>)
    | OfferDelete(id: Option<string>)
    | AnswerGet(id: Option<string>)
    | AnswerPost(id: Option<string>, answer: Option<SessionDescription>)
    | CandidateGet(id: Option<string>, peerType: Option<string>)
    | CandidatePost(id: Option<string>, peerType: Option<string>, candidate: Option<IceCandidate>)

  /** Routes a request to its handler. */
  function Handle(s: Store, req: Request): (Response, Store) {
    match req
    case OfferGet(id) => OfferRoute.Get(s, id)
    case OfferPost(id, offer) => OfferRoute.Post(s, id, offer)
    case OfferDelete(id) => OfferRoute.Delete(s, id)
    case AnswerGet(id) => AnswerRoute.Get(s, id)
    case AnswerPost(id, answer) => AnswerRoute.Post(s, id, answer)
    case CandidateGet(id, peerType) => IceCandidateRoute.Get(s, id, peerType)
    case CandidatePost(id, peerType, candidate) => IceCandidateRoute.Post(s, id, peerType, candidate)
  }

  /** Serves `reqs` in order: one response per request, and the final store. */
  function Run(s: Store, reqs: seq<Request>): (r: (seq<Response>, Store))
    ensures |r.0| == |reqs|
    decreases |reqs|
  {
    if reqs == [] then ([], s)
    else
      var (resp, s1) := Handle(s, reqs[0]);
      var (rest, s2) := Run(s1, reqs[1..]);
      ([resp] + rest, s2)
  }

  /** The request is a valid offer POST or DELETE for `code`: a reset point. */
  predicate IsReset(req: Request, code: string) {
    match req
    case OfferPost(id, offer) => id == Some(code) && Present(id) && offer.Some?
    case OfferDelete(id) => id == Some(code) && Present(id)
    case _ => false
  }

  predicate NoReset(reqs: seq<Request>, code: string) {
    forall i :: 0 <= i < |reqs| ==> !IsReset(reqs[i], code)
  }

  /** The candidate `req` adds to `owner`'s queue for `code`, if any. */
  function PostedBy(req: Request, code: string, owner: Role): seq<IceCandidate> {
    match req
    case CandidatePost(id, peerType, candidate) =>
      if id == Some(code) && Present(id) && Present(peerType) && candidate.Some?
         && RoleOf(peerType.value) == owner
      then [candidate.value] else []
    case _ => []
  }

  /** The candidates of `owner`'s queue for `code` that `resp` hands out. */
  function DeliveredBy(req: Request, resp: Response, code: string, owner: Role): seq<IceCandidate> {
    match req
    case CandidateGet(id, peerType) =>
      if id == Some(code) && Present(id) && Present(peerType)
         && Other(RoleOf(peerType.value)) == owner && resp.body.CandidatesBody?
      then resp.body.candidates else []
    case _ => []
  }

  /** Everything a trace adds to `owner`'s queue for `code`, in order. */
  function Posted(reqs: seq<Request>, code: string, owner: Role): seq<IceCandidate>
    decreases |reqs|
  {
    if reqs == [] then [] else PostedBy(reqs[0], code, owner) + Posted(reqs[1..], code, owner)
  }

  /** Everything a trace hands out from `owner`'s queue for `code`, in order. */
  function Delivered(reqs: seq<Request>, resps: seq<Response>, code: string, owner: Role): seq<IceCandidate>
    requires |resps| == |reqs|
    decreases |reqs|
  {
    if reqs == [] then []
    else DeliveredBy(reqs[0], resps[0], code, owner) + Delivered(reqs[1..], resps[1..], code, owner)
  }

  /** Serving a non-empty trace is serving its head, then its tail. */
  lemma RunUnfold(s: Store, reqs: seq<Request>)
    requires reqs != []
    ensures Run(s, reqs).0 == [Handle(s, reqs[0]).0] + Run(Handle(s, reqs[0]).1, reqs[1..]).0
    ensures Run(s, reqs).1 == Run(Handle(s, reqs[0]).1, reqs[1..]).1
  {
  }

  /** Deliveries of a non-empty trace: those of its head, then its tail's. */
  lemma DeliveredUnfold(reqs: seq<Request>, resps: seq<Response>, code: string, owner: Role)
    requires |resps| == |reqs| && reqs != []
    ensures Delivered(reqs, resps, code, owner)
              == DeliveredBy(reqs[0], resps[0], code, owner) + Delivered(reqs[1..], resps[1..], code, owner)
  {
  }

  /** The tail of a trace with no reset has no reset. */
  lemma NoResetTail(reqs: seq<Request>, code: string)
    requires reqs != [] && NoReset(reqs, code)
    ensures NoReset(reqs[1..], code)
  {
    forall i | 0 <= i < |reqs[1..]| ensures !IsReset(reqs[1..][i], code) {
      assert reqs[1..][i] == reqs[i + 1];
    }
  }

  /** Chains two queue-balance equations of consecutive steps. */
  lemma Chain<T>(q0: seq<T>, p0: seq<T>, pr: seq<T>, d0: seq<T>, q1: seq<T>, dr: seq<T>, q2: seq<T>)
    requires q0 + p0 == d0 + q1
    requires q1 + pr == dr + q2
    ensures q0 + (p0 + pr) == (d0 + dr) + q2
  {
    calc {
      q0 + (p0 + pr);
      (q0 + p0) + pr;
      (d0 + q1) + pr;
      d0 + (q1 + pr);
      d0 + (dr + q2);
      (d0 + dr) + q2;
    }
  }

  /** Chains two multiset bounds of consecutive steps. */
  lemma ChainBounded<T>(q0: seq<T>, p0: seq<T>, pr: seq<T>, d0: seq<T>, q1: seq<T>, dr: seq<T>, q2: seq<T>)
    requires multiset(d0) + multiset(q1) <= multiset(q0) + multiset(p0)
    requires multiset(dr) + multiset(q2) <= multiset(q1) + multiset(pr)
    ensures multiset(d0 + dr) + multiset(q2) <= multiset(q0) + multiset(p0 + pr)
  {
    var lhs := multiset(d0) + multiset(dr) + multiset(q2);
    var rhs := multiset(q0) + multiset(p0) + multiset(pr);
    forall x ensures lhs[x] <= rhs[x] {
      assert (multiset(d0) + multiset(q1))[x] <= (multiset(q0) + multiset(p0))[x];
      assert (multiset(dr) + multiset(q2))[x] <= (multiset(q1) + multiset(pr))[x];
    }
    assert multiset(d0 + dr) == multiset(d0) + multiset(dr);
    assert multiset(p0 + pr) == multiset(p0) + multiset(pr);
  }

  /** A request for another code reads and writes nothing of `code`. */
  lemma OtherCodeUntouched(s: Store, req: Request, code: string)
    requires req.id != Some(code)
    ensures Lookup(Handle(s, req).1, code) == Lookup(s, code)
  {
  }

  /**
   * One request that is not a reset neither loses nor invents a candidate
   * of `owner`'s queue: what was pending plus what it posts equals what it
   * hands out plus what stays pending.
   */
  lemma StepConserves(s: Store, req: Request, code: string, owner: Role)
    requires !IsReset(req, code)
    ensures var (resp, s1) := Handle(s, req);
            Lookup(s, code).Queue(owner) + PostedBy(req, code, owner)
              == DeliveredBy(req, resp, code, owner) + Lookup(s1, code).Queue(owner)
  {
  }

  /**
   * Exactly-once, in-order delivery: over any trace with no reset of
   * `code`, the candidates pending at the start followed by those posted
   * to `owner`'s queue are precisely those handed to the other role,
   * followed by those still pending at the end.
   */
  lemma {:induction false} DeliveredExactlyOnce(s: Store, reqs: seq<Request>, code: string, owner: Role)
    requires NoReset(reqs, code)
    ensures Lookup(s, code).Queue(owner) + Posted(reqs, code, owner)
              == Delivered(reqs, Run(s, reqs).0, code, owner) + Lookup(Run(s, reqs).1, code).Queue(owner)
    decreases |reqs|
  {
    if reqs != [] {
      var resp := Handle(s, reqs[0]).0;
      var s1 := Handle(s, reqs[0]).1;
      var rest := Run(s1, reqs[1..]).0;
      var s2 := Run(s1, reqs[1..]).1;
      RunUnfold(s, reqs);
      StepConserves(s, reqs[0], code, owner);
      NoResetTail(reqs, code);
      DeliveredExactlyOnce(s1, reqs[1..], code, owner);
      DeliveredUnfold(reqs, Run(s, reqs).0, code, owner);
      Chain(Lookup(s, code).Queue(owner), PostedBy(reqs[0], code, owner), Posted(reqs[1..], code, owner),
            DeliveredBy(reqs[0], resp, code, owner), Lookup(s1, code).Queue(owner),
            Delivered(reqs[1..], rest, code, owner), Lookup(s2, code).Queue(owner));
    }
  }

  /**
   * One request, reset or not, never hands out more of `owner`'s queue
   * than was pending or posted.
   */
  lemma StepAtMostOnce(s: Store, req: Request, code: string, owner: Role)
    ensures var (resp, s1) := Handle(s, req);
            multiset(DeliveredBy(req, resp, code, owner)) + multiset(Lookup(s1, code).Queue(owner))
              <= multiset(Lookup(s, code).Queue(owner)) + multiset(PostedBy(req, code, owner))
  {
  }

  /**
   * At-most-once delivery on every trace, resets included: no candidate
   * is handed out more often than it was pending or posted.
   */
  lemma {:induction false} DeliveredAtMostOnce(s: Store, reqs: seq<Request>, code: string, owner: Role)
    ensures multiset(Delivered(reqs, Run(s, reqs).0, code, owner)) + multiset(Lookup(Run(s, reqs).1, code).Queue(owner))
              <= multiset(Lookup(s, code).Queue(owner)) + multiset(Posted(reqs, code, owner))
    decreases |reqs|
  {
    if reqs != [] {
      var resp := Handle(s, reqs[0]).0;
      var s1 := Handle(s, reqs[0]).1;
      var rest := Run(s1, reqs[1..]).0;
      var s2 := Run(s1, reqs[1..]).1;
      RunUnfold(s, reqs);
      StepAtMostOnce(s, reqs[0], code, owner);
      DeliveredAtMostOnce(s1, reqs[1..], code, owner);
      DeliveredUnfold(reqs, Run(s, reqs).0, code, owner);
      ChainBounded(Lookup(s, code).Queue(owner), PostedBy(reqs[0], code, owner), Posted(reqs[1..], code, owner),
                   DeliveredBy(reqs[0], resp, code, owner), Lookup(s1, code).Queue(owner),
                   Delivered(reqs[1..], rest, code, owner), Lookup(s2, code).Queue(owner));
    }
  }

  /** The candidates `resp` hands to a GET made as `receiver` for `code`. */
  function ReceivedBy(req: Request, resp: Response, code: string, receiver: Role): seq<IceCandidate> {
    match req
    case CandidateGet(id, peerType) =>
      if id == Some(code) && Present(id) && Present(peerType)
         && RoleOf(peerType.value) == receiver && resp.body.CandidatesBody?
      then resp.body.candidates else []
    case _ => []
  }

  /** Everything the GETs made as `receiver` for `code` receive, in order. */
  function Received(reqs: seq<Request>, resps: seq<Response>, code: string, receiver: Role): seq<IceCandidate>
    requires |resps| == |reqs|
    decreases |reqs|
  {
    if reqs == [] then []
    else ReceivedBy(reqs[0], resps[0], code, receiver) + Received(reqs[1..], resps[1..], code, receiver)
  }

  /** What a role receives is exactly what is handed out of the other role's queue. */
  lemma {:induction false} ReceivedFromOtherQueue(reqs: seq<Request>, resps: seq<Response>, code: string, receiver: Role)
    requires |resps| == |reqs|
    ensures Received(reqs, resps, code, receiver) == Delivered(reqs, resps, code, Other(receiver))
    decreases |reqs|
  {
    if reqs != [] {
      ReceivedFromOtherQueue(reqs[1..], resps[1..], code, receiver);
      DeliveredUnfold(reqs, resps, code, Other(receiver));
      assert ReceivedBy(reqs[0], resps[0], code, receiver) == DeliveredBy(reqs[0], resps[0], code, Other(receiver));
    }
  }

  /**
   * Role symmetry over any trace, resets included: what the GETs of a role
   * receive is drawn, at most once each, from the other role's queue as it
   * was initially and as the other role posted to it.
   */
  lemma ReceivedAtMostOnce(s: Store, reqs: seq<Request>, code: string, receiver: Role)
    ensures multiset(Received(reqs, Run(s, reqs).0, code, receiver))
              <= multiset(Lookup(s, code).Queue(Other(receiver))) + multiset(Posted(reqs, code, Other(receiver)))
  {
    ReceivedFromOtherQueue(reqs, Run(s, reqs).0, code, receiver);
    DeliveredAtMostOnce(s, reqs, code, Other(receiver));
  }

  /**
   * A candidate that was never pending in, nor posted to, the other role's
   * queue (one only the receiving role itself posted, say) never reaches
   * the receiving role.
   */
  lemma NeverDeliveredToPoster(s: Store, reqs: seq<Request>, code: string, receiver: Role, x: IceCandidate)
    requires x !in Lookup(s, code).Queue(Other(receiver))
    requires x !in Posted(reqs, code, Other(receiver))
    ensures x !in Received(reqs, Run(s, reqs).0, code, receiver)
  {
    ReceivedAtMostOnce(s, reqs, code, receiver);
    var got := Received(reqs, Run(s, reqs).0, code, receiver);
    assert (multiset(Lookup(s, code).Queue(Other(receiver))) + multiset(Posted(reqs, code, Other(receiver))))[x] == 0;
    assert multiset(got)[x] == 0;
  }

  /**
   * Reset on a new offer: whatever was answered or queued before, a new
   * offer leaves no answer and both queues empty.
   */
  lemma NewOfferResets(s: Store, code: string, a: SessionDescription, peerType: string,
                       c: IceCandidate, o2: SessionDescription)
    requires code != "" && peerType != ""
    ensures var s1 := Handle(s, AnswerPost(Some(code), Some(a))).1;
            var s2 := Handle(s1, CandidatePost(Some(code), Some(peerType), Some(c))).1;
            var s3 := Handle(s2, OfferPost(Some(code), Some(o2))).1;
            && Lookup(s3, code) == Connection(Some(o2), None, [], [])
            && Handle(s3, AnswerGet(Some(code))).0 == NotFound(AnswerRoute.AnswerNotFound)
  {
  }

  /**
   * The complete happy path on a fresh store: offer, answer and one
   * base-station candidate each arrive verbatim, the candidate once.
   */
  lemma HappyPath(code: string, o: SessionDescription, a: SessionDescription, c: IceCandidate)
    requires code != ""
    ensures var reqs := [OfferPost(Some(code), Some(o)), OfferGet(Some(code)),
                         AnswerPost(Some(code), Some(a)), AnswerGet(Some(code)),
                         CandidatePost(Some(code), Some("base-station"), Some(c)),
                         CandidateGet(Some(code), Some("remote-viewer")),
                         CandidateGet(Some(code), Some("remote-viewer"))];
            Run(map[], reqs).0
              == [Success, Response(StatusOk, OfferBody(o)),
                  Success, Response(StatusOk, AnswerBody(a)),
                  Success, Response(StatusOk, CandidatesBody([c])),
                  Response(StatusOk, CandidatesBody([]))]
  {
    var reqs := [OfferPost(Some(code), Some(o)), OfferGet(Some(code)),
                 AnswerPost(Some(code), Some(a)), AnswerGet(Some(code)),
                 CandidatePost(Some(code), Some("base-station"), Some(c)),
                 CandidateGet(Some(code), Some("remote-viewer")),
                 CandidateGet(Some(code), Some("remote-viewer"))];
    var s0: Store := map[];
    var s1 := Handle(s0, reqs[0]).1;
    var s2 := Handle(s1, reqs[1]).1;
    var s3 := Handle(s2, reqs[2]).1;
    var s4 := Handle(s3, reqs[3]).1;
    var s5 := Handle(s4, reqs[4]).1;
    var s6 := Handle(s5, reqs[5]).1;
    assert Lookup(s1, code) == Connection(Some(o), None, [], []);
    assert Lookup(s2, code) == Lookup(s1, code);
    assert Lookup(s3, code) == Connection(Some(o), Some(a), [], []);
    assert Lookup(s4, code) == Lookup(s3, code);
    assert Lookup(s5, code) == Connection(Some(o), Some(a), [c], []);
    assert Lookup(s6, code) == Connection(Some(o), Some(a), [], []);
    RunUnfold(s0, reqs);
    RunUnfold(s1, reqs[1..]);
    RunUnfold(s2, reqs[2..]);
    RunUnfold(s3, reqs[3..]);
    RunUnfold(s4, reqs[4..]);
    RunUnfold(s5, reqs[5..]);
    RunUnfold(s6, reqs[6..]);
  }

  /** A GET of `/offer` with no id, or on a never-seen code. */
  lemma MissingParameterScenario(s: Store, code: string)
    requires code != "" && code !in s
    ensures Handle(s, OfferGet(None)) == (BadRequest(OfferRoute.MissingId), s)
    ensures Handle(s, OfferGet(Some(""))) == (BadRequest(OfferRoute.MissingId), s)
    ensures Handle(s, OfferGet(Some(code))).0 == NotFound(OfferRoute.OfferNotFound)
  {
  }
}
