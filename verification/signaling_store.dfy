/**
 * The in-memory signaling store: a map from connection code to the record
 * of one rendezvous (latest offer, latest answer, and one FIFO queue of
 * pending ICE candidates per peer role).
 *
 * The source keeps a single module-level mutable map; here the store is a
 * value and every operation returns the store it leaves behind. Every
 * operation except `clear` first materialises the record for its code
 * (reads included), exactly as the source's `getConnection` does; `clear`
 * only deletes.
 */
module SignalingStore {
  import opened Wrappers

  /** An RTCSessionDescriptionInit: stored and forwarded verbatim. */
  datatype SessionDescription = SessionDescription(sdpType: string, sdp: string)

  /** An RTCIceCandidateInit: stored and forwarded verbatim. */
  datatype IceCandidate = IceCandidate(candidate: string, sdpMid: Option<string>, sdpMLineIndex: Option<int>)

  datatype Role = BaseStation | RemoteViewer

  /**
   * The role a `peerType` string selects. Only `"base-station"` is tested
   * for, so every other string acts as the remote viewer.
   */
  function RoleOf(peerType: string): (r: Role)
    ensures r == BaseStation <==> peerType == "base-station"
    ensures r == RemoteViewer <==> peerType != "base-station"
  {
    if peerType == "base-station" then BaseStation else RemoteViewer
  }

  /** The peer on the other side of the rendezvous. */
  function Other(role: Role): (r: Role)
    ensures r != role
  {
    match role
    case BaseStation => RemoteViewer
    case RemoteViewer => BaseStation
  }

  datatype Connection = Connection(
    offer: Option<SessionDescription>,
    answer: Option<SessionDescription>,
    baseStationCandidates: seq<IceCandidate>,
    remoteViewerCandidates: seq<IceCandidate>)
  {
    /** The queue of candidates published by `role`. */
    function Queue(role: Role): seq<IceCandidate> {
      match role
      case BaseStation => baseStationCandidates
      case RemoteViewer => remoteViewerCandidates
    }

    /** This record with the queue owned by `role` replaced by `q`. */
    function WithQueue(role: Role, q: seq<IceCandidate>): (c: Connection)
      ensures c.Queue(role) == q
      ensures c.Queue(Other(role)) == Queue(Other(role))
      ensures c.offer == offer && c.answer == answer
    {
      match role
      case BaseStation => this.(baseStationCandidates := q)
      case RemoteViewer => this.(remoteViewerCandidates := q)
    }
  }

  /** The record `getConnection` creates for a code it has not seen. */
  const Fresh := Connection(None, None, [], [])

  type Store = map<string, Connection>

  /** The record a read of `id` observes: the stored one, or a fresh one. */
  function Lookup(s: Store, id: string): Connection {
    if id in s then s[id] else Fresh
  }

  /** Every record other than the one for `id` is left as it was. */
  ghost predicate UnchangedElsewhere(s: Store, s': Store, id: string) {
    && (forall k :: k in s && k != id ==> k in s' && s'[k] == s[k])
    && (forall k :: k in s' && k != id ==> k in s)
  }

  /**
   * `s'` differs from `s` at most by the lazy creation of a fresh record
   * for `id`: what a pure read leaves behind.
   */
  ghost predicate OnlyMaterialises(s: Store, s': Store, id: string) {
    && s'.Keys == s.Keys + {id}
    && s'[id] == Lookup(s, id)
    && UnchangedElsewhere(s, s', id)
  }

  /** A store changed only at `id` reads the same at every other code. */
  lemma LookupElsewhere(s: Store, s': Store, id: string, k: string)
    requires UnchangedElsewhere(s, s', id)
    requires k != id
    ensures Lookup(s', k) == Lookup(s, k)
  {
  }

  /** Lazy creation is invisible to every later read. */
  lemma MaterialiseInvisible(s: Store, s': Store, id: string, k: string)
    requires OnlyMaterialises(s, s', id)
    ensures Lookup(s', k) == Lookup(s, k)
  {
  }

  /**
   * `getConnection`: the record for `id`, created empty (no offer, no
   * answer, both queues empty) and stored when the code is unknown.
   */
  function GetConnection(s: Store, id: string): (r: (Connection, Store))
    ensures id !in s ==> r.0 == Connection(None, None, [], [])
    ensures id in s ==> r.0 == s[id] && r.1 == s
    ensures OnlyMaterialises(s, r.1, id)
    ensures r.1[id] == r.0
  {
    if id in s then (s[id], s) else (Fresh, s[id := Fresh])
  }

  /** `setOffer`: stores the offer and discards the answer and both queues. */
  function SetOffer(s: Store, id: string, offer: SessionDescription): (s': Store)
    ensures s'.Keys == s.Keys + {id}
    ensures s'[id].offer == Some(offer)
    ensures s'[id].answer == None
    ensures s'[id].baseStationCandidates == [] && s'[id].remoteViewerCandidates == []
    ensures UnchangedElsewhere(s, s', id)
  {
    var (c, s1) := GetConnection(s, id);
    s1[id := c.(offer := Some(offer), answer := None,
                baseStationCandidates := [], remoteViewerCandidates := [])]
  }

  /** `getOffer`: the stored offer, if any. */
  function GetOffer(s: Store, id: string): (r: (Option<SessionDescription>, Store))
    ensures id in s ==> r.0 == s[id].offer
    ensures id !in s ==> r.0 == None
    ensures OnlyMaterialises(s, r.1, id)
  {
    var (c, s1) := GetConnection(s, id);
    (c.offer, s1)
  }

  /**
   * `setAnswer`: overwrites the answer whether or not an offer exists and
   * leaves the offer and both queues as they were.
   */
  function SetAnswer(s: Store, id: string, answer: SessionDescription): (s': Store)
    ensures s'.Keys == s.Keys + {id}
    ensures s'[id].answer == Some(answer)
    ensures s'[id].offer == Lookup(s, id).offer
    ensures s'[id].baseStationCandidates == Lookup(s, id).baseStationCandidates
    ensures s'[id].remoteViewerCandidates == Lookup(s, id).remoteViewerCandidates
    ensures UnchangedElsewhere(s, s', id)
  {
    var (c, s1) := GetConnection(s, id);
    s1[id := c.(answer := Some(answer))]
  }

  /** `getAnswer`: the stored answer, if any. */
  function GetAnswer(s: Store, id: string): (r: (Option<SessionDescription>, Store))
    ensures id in s ==> r.0 == s[id].answer
    ensures id !in s ==> r.0 == None
    ensures OnlyMaterialises(s, r.1, id)
  {
    var (c, s1) := GetConnection(s, id);
    (c.answer, s1)
  }

  /**
   * `addIceCandidate`: appends to the end of the caller's own queue, with
   * no de-duplication; the other queue, offer and answer are untouched.
   */
  function AddIceCandidate(s: Store, id: string, peerType: string, candidate: IceCandidate): (s': Store)
    ensures s'.Keys == s.Keys + {id}
    ensures s'[id].Queue(RoleOf(peerType)) == Lookup(s, id).Queue(RoleOf(peerType)) + [candidate]
    ensures s'[id].Queue(Other(RoleOf(peerType))) == Lookup(s, id).Queue(Other(RoleOf(peerType)))
    ensures s'[id].offer == Lookup(s, id).offer && s'[id].answer == Lookup(s, id).answer
    ensures UnchangedElsewhere(s, s', id)
  {
    var (c, s1) := GetConnection(s, id);
    if peerType == "base-station" then
      s1[id := c.(baseStationCandidates := c.baseStationCandidates + [candidate])]
    else
      s1[id := c.(remoteViewerCandidates := c.remoteViewerCandidates + [candidate])]
  }

  /** `getIceCandidates`: the queue of the OTHER role, never the caller's own. */
  function GetIceCandidates(s: Store, id: string, peerType: string): (r: (seq<IceCandidate>, Store))
    ensures peerType == "base-station" ==> r.0 == Lookup(s, id).remoteViewerCandidates
    ensures peerType != "base-station" ==> r.0 == Lookup(s, id).baseStationCandidates
    ensures OnlyMaterialises(s, r.1, id)
  {
    var (c, s1) := GetConnection(s, id);
    (if peerType == "base-station" then c.remoteViewerCandidates else c.baseStationCandidates, s1)
  }

  /**
   * `clearCandidates`: empties the queue `getIceCandidates` reads for the
   * same `peerType`; the caller's own queue, offer and answer are kept.
   */
  function ClearCandidates(s: Store, id: string, peerType: string): (s': Store)
    ensures s'.Keys == s.Keys + {id}
    ensures s'[id].Queue(Other(RoleOf(peerType))) == []
    ensures s'[id].Queue(RoleOf(peerType)) == Lookup(s, id).Queue(RoleOf(peerType))
    ensures s'[id].offer == Lookup(s, id).offer && s'[id].answer == Lookup(s, id).answer
    ensures UnchangedElsewhere(s, s', id)
  {
    var (c, s1) := GetConnection(s, id);
    if peerType == "base-station" then
      s1[id := c.(remoteViewerCandidates := [])]
    else
      s1[id := c.(baseStationCandidates := [])]
  }

  /** `clear`: deletes the record; the code reads as never seen. */
  function Clear(s: Store, id: string): (s': Store)
    ensures s'.Keys == s.Keys - {id}
    ensures Lookup(s', id) == Connection(None, None, [], [])
    ensures UnchangedElsewhere(s, s', id)
  {
    s - {id}
  }

  /** Clearing twice leaves the same store as clearing once. */
  lemma ClearIdempotent(s: Store, id: string)
    ensures Clear(Clear(s, id), id) == Clear(s, id)
  {
  }

  /** After `clear`, every read answers as for a code never seen. */
  lemma ClearReadsAsUnknown(s: Store, id: string, peerType: string)
    ensures GetOffer(Clear(s, id), id).0 == None
    ensures GetAnswer(Clear(s, id), id).0 == None
    ensures GetIceCandidates(Clear(s, id), id, peerType).0 == []
    ensures GetConnection(Clear(s, id), id).0 == GetConnection(map[], id).0
  {
  }

  /**
   * Reading the candidates meant for `peerType` and then clearing for the
   * same `peerType` empties exactly the queue that was returned.
   */
  lemma DrainEmptiesWhatWasRead(s: Store, id: string, peerType: string)
    ensures var (got, s1) := GetIceCandidates(s, id, peerType);
            var s2 := ClearCandidates(s1, id, peerType);
            && got == Lookup(s, id).Queue(Other(RoleOf(peerType)))
            && Lookup(s2, id).Queue(Other(RoleOf(peerType))) == []
            && Lookup(s2, id).Queue(RoleOf(peerType)) == Lookup(s, id).Queue(RoleOf(peerType))
  {
  }
}
