/**
 * The call session a signed-in client keeps: the current call, the
 * client-side status, the incoming call and its caller, the local and remote
 * media streams, the peer connection and the signaling subscription, and the
 * handlers that move them — starting, accepting, rejecting and ending a
 * call, the signaling callbacks, the track toggles and incoming-call
 * arbitration.
 *
 * Media, the peer connection and the database are objects the handlers
 * update in place. What the environment decides (a denied camera, a store
 * write that fails, the SDP text a connection produces) is a parameter.
 */
module CallContext {
  import opened Common
  import opened RtdbService

  /** A media track: its kind ("audio" or "video"), whether it is enabled, whether it was stopped. */
  datatype Track = Track(kind: string, enabled: bool, stopped: bool)

  /**
   * The client's call status: a status mirrored from the stored record, or
   * one of the two states that exist only on the client.
   */
  datatype ClientStatus = Stored(status: CallStatus) | Connecting | Connected

  /** The call in progress; `calleeId` is the other party, whichever side placed the call. */
  datatype CurrentCall = CurrentCall(callId: string, calleeId: string, kind: string, isOutgoing: bool)

  /** The peer connection's signaling state (RFC 8829, section 3.2). */
  datatype SignalingState = Stable | HaveLocalOffer | HaveRemoteOffer | Closed

  /** The peer connection's connection state as reported to onconnectionstatechange. */
  datatype PeerState = PeerNew | PeerConnecting | PeerConnected | PeerDisconnected | PeerFailed | PeerClosed

  /**
   * Where an asynchronous step fails: the camera or microphone is refused,
   * the store write fails, an offer/answer step fails, or the profile read
   * that ends startCall fails.
   */
  datatype Fault = NoFault | MediaDenied | StoreDown | SignalingFailed | LookupFailed

  /**
   * The live signaling subscription: which listeners it holds, which side
   * attached it, and the streams the attaching handler's cleanup closure saw.
   */
  datatype Subscription = Subscription(callId: string, listeners: seq<Listener>, outgoing: bool,
                                       seenLocal: MediaStream?, seenRemote: MediaStream?)

  /** The tracks getUserMedia returns for the constraints {audio: true, video: kind == "video"}. */
  function MediaTracks(kind: string): (r: seq<Track>)
    ensures |r| == if kind == "video" then 2 else 1
    ensures r[0].kind == "audio"
    ensures kind == "video" ==> r[1].kind == "video"
    ensures forall i :: 0 <= i < |r| ==> r[i].enabled && !r[i].stopped
  {
    [Track("audio", true, false)] + (if kind == "video" then [Track("video", true, false)] else [])
  }

  /** Every track stopped; kinds and enabled flags kept. */
  function StopAll(tracks: seq<Track>): (r: seq<Track>)
    ensures |r| == |tracks|
    ensures forall i :: 0 <= i < |r| ==> r[i].stopped && r[i].kind == tracks[i].kind && r[i].enabled == tracks[i].enabled
  {
    seq(|tracks|, i requires 0 <= i < |tracks| => tracks[i].(stopped := true))
  }

  /** Stopping is idempotent. */
  lemma StopAllTwice(tracks: seq<Track>)
    ensures StopAll(StopAll(tracks)) == StopAll(tracks)
  {
  }

  /** The index of the first track of a kind (getAudioTracks()[0], getVideoTracks()[0]). */
  function FirstOfKind(tracks: seq<Track>, kind: string): (r: Option<nat>)
    ensures r.Some? ==> r.value < |tracks| && tracks[r.value].kind == kind
    ensures r.Some? ==> forall j :: 0 <= j < r.value ==> tracks[j].kind != kind
    ensures r.None? ==> forall j :: 0 <= j < |tracks| ==> tracks[j].kind != kind
  {
    if |tracks| == 0 then None
    else if tracks[0].kind == kind then Some(0)
    else match FirstOfKind(tracks[1..], kind)
      case None => None
      case Some(i) => Some(i + 1)
  }

  /** FirstOfKind looks only at the kinds. */
  lemma {:induction false} FirstOfKindByKinds(a: seq<Track>, b: seq<Track>, kind: string)
    requires |a| == |b|
    requires forall i :: 0 <= i < |a| ==> a[i].kind == b[i].kind
    ensures FirstOfKind(a, kind) == FirstOfKind(b, kind)
  {
    if |a| > 0 && a[0].kind != kind {
      FirstOfKindByKinds(a[1..], b[1..], kind);
    }
  }

  /** The tracks after flipping `enabled` on the first track of a kind, if there is one. */
  function Toggled(tracks: seq<Track>, kind: string): (r: seq<Track>)
    ensures |r| == |tracks|
    ensures forall i :: 0 <= i < |r| ==> r[i].kind == tracks[i].kind && r[i].stopped == tracks[i].stopped
    ensures FirstOfKind(tracks, kind).None? ==> r == tracks
    ensures FirstOfKind(tracks, kind).Some? ==>
      var i := FirstOfKind(tracks, kind).value;
      r[i].enabled == !tracks[i].enabled && forall j :: 0 <= j < |r| && j != i ==> r[j] == tracks[j]
  {
    match FirstOfKind(tracks, kind)
    case None => tracks
    case Some(i) => tracks[i := tracks[i].(enabled := !tracks[i].enabled)]
  }

  /** Two toggles of the same kind restore the tracks. */
  lemma ToggleTwice(tracks: seq<Track>, kind: string)
    ensures Toggled(Toggled(tracks, kind), kind) == tracks
  {
    FirstOfKindByKinds(tracks, Toggled(tracks, kind), kind);
  }

  /** The record acceptCall leaves after its "accepted" write. */
  function AcceptedRecord(calls: map<string, CallRecord>, callId: string, now: int): (r: CallRecord)
    ensures r.status == Accepted && r.offer == CallOrBlank(calls, callId).offer
  {
    WithStatus(CallOrBlank(calls, callId), Accepted, now)
  }

  /** acceptCall gets past its last failure point: no failure, or a signaling failure with no offer to answer. */
  predicate Proceeds(fault: Fault, accepted: CallRecord)
  {
    fault == NoFault || fault == LookupFailed || (fault == SignalingFailed && accepted.offer.None?)
  }

  lemma Overwrite<K, V>(m: map<K, V>, k: K, a: V, b: V)
    ensures m[k := a][k := b] == m[k := b]
  {
  }

  /** Whether the status callback of a side tears the call down: the caller's on "rejected" or "ended", the callee's on "ended". */
  predicate ClosesOn(outgoing: bool, status: CallStatus)
  {
    if outgoing then status == Rejected || status == Ended else status == Ended
  }

  /** A media stream: its tracks, updated in place. */
  class MediaStream {
    var tracks: seq<Track>

    constructor(tracks: seq<Track>)
      ensures this.tracks == tracks
    {
      this.tracks := tracks;
    }

    /** getTracks().forEach(track => track.stop()). */
    method StopTracks()
      modifies this
      ensures tracks == StopAll(old(tracks))
    {
      for i := 0 to |tracks|
        invariant |tracks| == |old(tracks)|
        invariant forall j :: 0 <= j < i ==> tracks[j] == old(tracks)[j].(stopped := true)
        invariant forall j :: i <= j < |tracks| ==> tracks[j] == old(tracks)[j]
      {
        tracks := tracks[i := tracks[i].(stopped := true)];
      }
    }

    /** addTrack for each track in turn. */
    method AddTracks(more: seq<Track>)
      modifies this
      ensures tracks == old(tracks) + more
    {
      for i := 0 to |more|
        invariant tracks == old(tracks) + more[..i]
      {
        tracks := tracks + [more[i]];
        assert more[..i + 1] == more[..i] + [more[i]];
      }
    }

    /** Flips `enabled` on the first track of a kind; answers whether that track is now disabled. */
    method ToggleFirst(kind: string) returns (disabled: bool)
      modifies this
      ensures tracks == Toggled(old(tracks), kind)
      ensures disabled <==> match FirstOfKind(old(tracks), kind)
                            case None => false
                            case Some(i) => old(tracks)[i].enabled
    {
      var first := FirstOfKind(tracks, kind);
      if first.None? {
        return false;
      }
      var i := first.value;
      tracks := tracks[i := tracks[i].(enabled := !tracks[i].enabled)];
      disabled := !tracks[i].enabled;
    }
  }

  /** The parts of an RTCPeerConnection the handlers look at. */
  class PeerConnection {
    const callId: string
    var open: bool
    var signalingState: SignalingState
    var localDescription: Option<string>
    var remoteDescription: Option<string>
    var candidates: seq<string>
    var senders: seq<Track>

    constructor(callId: string)
      ensures this.callId == callId && open && signalingState == Stable
      ensures localDescription.None? && remoteDescription.None? && candidates == [] && senders == []
    {
      this.callId := callId;
      open, signalingState := true, Stable;
      localDescription, remoteDescription := None, None;
      candidates, senders := [], [];
    }

    /** addTrack for each local track, in order. */
    method AddTracks(tracks: seq<Track>)
      modifies this
      ensures senders == old(senders) + tracks
      ensures open == old(open) && signalingState == old(signalingState) && candidates == old(candidates)
      ensures localDescription == old(localDescription) && remoteDescription == old(remoteDescription)
    {
      for i := 0 to |tracks|
        invariant senders == old(senders) + tracks[..i]
        invariant open == old(open) && signalingState == old(signalingState) && candidates == old(candidates)
        invariant localDescription == old(localDescription) && remoteDescription == old(remoteDescription)
      {
        senders := senders + [tracks[i]];
        assert tracks[..i + 1] == tracks[..i] + [tracks[i]];
      }
    }

    method SetLocalOffer(sdp: string)
      modifies this
      ensures signalingState == HaveLocalOffer && localDescription == Some(sdp)
      ensures open == old(open) && remoteDescription == old(remoteDescription)
      ensures candidates == old(candidates) && senders == old(senders)
    {
      signalingState, localDescription := HaveLocalOffer, Some(sdp);
    }

    method SetRemoteOffer(sdp: string)
      modifies this
      ensures signalingState == HaveRemoteOffer && remoteDescription == Some(sdp)
      ensures open == old(open) && localDescription == old(localDescription)
      ensures candidates == old(candidates) && senders == old(senders)
    {
      signalingState, remoteDescription := HaveRemoteOffer, Some(sdp);
    }

    method SetLocalAnswer(sdp: string)
      modifies this
      ensures signalingState == Stable && localDescription == Some(sdp)
      ensures open == old(open) && remoteDescription == old(remoteDescription)
      ensures candidates == old(candidates) && senders == old(senders)
    {
      signalingState, localDescription := Stable, Some(sdp);
    }

    method SetRemoteAnswer(sdp: string)
      modifies this
      ensures signalingState == Stable && remoteDescription == Some(sdp)
      ensures open == old(open) && localDescription == old(localDescription)
      ensures candidates == old(candidates) && senders == old(senders)
    {
      signalingState, remoteDescription := Stable, Some(sdp);
    }

    /** addIceCandidate, which needs a remote description. */
    method AddIceCandidate(candidate: string)
      requires remoteDescription.Some?
      modifies this
      ensures candidates == old(candidates) + [candidate]
      ensures open == old(open) && signalingState == old(signalingState) && senders == old(senders)
      ensures localDescription == old(localDescription) && remoteDescription == old(remoteDescription)
    {
      candidates := candidates + [candidate];
    }

    method Close()
      modifies this
      ensures !open && signalingState == Closed
      ensures localDescription == old(localDescription) && remoteDescription == old(remoteDescription)
      ensures candidates == old(candidates) && senders == old(senders)
    {
      open, signalingState := false, Closed;
    }
  }

  /** The call state of one signed-in client, over the shared database. */
  class CallSession {
    const db: Database
    var currentUser: Option<string>
    var currentCall: Option<CurrentCall>
    var callStatus: Option<ClientStatus>
    var localStream: MediaStream?
    var remoteStream: MediaStream?
    var isCallUIOpen: bool
    var incomingCall: Option<CallRecord>
    var callerInfo: Option<Profile>
    var peerConnection: PeerConnection?
    var signaling: Option<Subscription>

    /** A subscription always belongs to a peer connection, and the two streams are distinct objects. */
    predicate Valid()
      reads this
    {
      (signaling.Some? ==> peerConnection != null) &&
      (localStream != null && remoteStream != null ==> localStream != remoteStream)
    }

    /** What every cleanup leaves, whichever streams its closure saw: no connection, no subscription, every call cell reset. */
    predicate Reset()
      reads this
    {
      peerConnection == null && signaling.None? &&
      currentCall.None? && callStatus.None? && !isCallUIOpen && incomingCall.None? && callerInfo.None?
    }

    /** Nothing left behind: reset, and no streams either. */
    predicate Idle()
      reads this
    {
      Reset() && localStream == null && remoteStream == null
    }

    /**
     * The local stream after a failed handler's stale cleanup: the stream
     * the handler opened survives, live, when the render it began in had
     * none; a stream that render saw is cleared.
     */
    predicate OpenedStreamSurvives(before: MediaStream?, kind: string)
      reads this, localStream
    {
      if before == null then localStream != null && localStream.tracks == MediaTracks(kind)
      else localStream == null
    }

    /** Every state cell and ref of the session. */
    function Cells(): (Option<string>, Option<CurrentCall>, Option<ClientStatus>, MediaStream?, MediaStream?, bool,
                       Option<CallRecord>, Option<Profile>, PeerConnection?, Option<Subscription>)
      reads this
    {
      (currentUser, currentCall, callStatus, localStream, remoteStream, isCallUIOpen,
       incomingCall, callerInfo, peerConnection, signaling)
    }

    predicate Subscribed(listener: Listener)
      reads this
    {
      signaling.Some? && listener in signaling.value.listeners
    }

    constructor(db: Database, currentUser: Option<string>)
      ensures this.db == db && this.currentUser == currentUser
      ensures Valid() && Idle()
    {
      this.db := db;
      this.currentUser := currentUser;
      currentCall, callStatus, incomingCall, callerInfo := None, None, None, None;
      localStream, remoteStream, peerConnection := null, null, null;
      isCallUIOpen, signaling := false, None;
    }

    /**
     * cleanupCall as the closure that saw the streams `local` and `remote`
     * runs it: the connection is closed and dropped, the tracks of the
     * streams it saw are stopped and those cells cleared, the subscription
     * is cancelled and every other state cell is reset.
     */
    method CleanupWith(local: MediaStream?, remote: MediaStream?)
      requires Valid()
      modifies this, peerConnection, local, remote
      ensures Valid()
      ensures peerConnection == null && signaling.None? && currentCall.None? && callStatus.None?
      ensures !isCallUIOpen && incomingCall.None? && callerInfo.None? && currentUser == old(currentUser)
      ensures old(peerConnection) != null ==> !old(peerConnection).open
      ensures localStream == (if local != null then null else old(localStream))
      ensures remoteStream == (if remote != null then null else old(remoteStream))
      ensures local != null && local != remote ==> local.tracks == StopAll(old(local.tracks))
      ensures remote != null ==> remote.tracks == StopAll(old(if local == remote then StopAll(remote.tracks) else remote.tracks))
    {
      if peerConnection != null {
        peerConnection.Close();
        peerConnection := null;
      }
      if local != null {
        local.StopTracks();
        localStream := null;
      }
      if remote != null {
        remote.StopTracks();
        remoteStream := null;
      }
      if signaling.Some? {
        signaling := None;
      }
      currentCall, callStatus := None, None;
      isCallUIOpen := false;
      incomingCall, callerInfo := None, None;
    }

    /** cleanupCall run by a handler that sees the current streams: afterwards nothing is left. */
    method CleanupCall()
      requires Valid()
      modifies this, peerConnection, localStream, remoteStream
      ensures Valid() && Idle() && currentUser == old(currentUser)
      ensures old(peerConnection) != null ==> !old(peerConnection).open
      ensures old(localStream) != null ==> old(localStream).tracks == StopAll(old(localStream.tracks))
      ensures old(remoteStream) != null ==> old(remoteStream).tracks == StopAll(old(remoteStream.tracks))
      ensures old(Idle()) ==> Cells() == old(Cells())
    {
      CleanupWith(localStream, remoteStream);
    }

    /** endCall: "ended" is written only for a current call, a failed write is swallowed, and cleanup always runs. */
    method EndCall(writeFails: bool, now: int)
      requires Valid()
      modifies this, db, peerConnection, localStream, remoteStream
      ensures Valid() && Idle() && currentUser == old(currentUser)
      ensures old(currentCall).Some? && !writeFails ==>
        db.calls == old(db.calls)[old(currentCall).value.callId :=
          WithStatus(CallOrBlank(old(db.calls), old(currentCall).value.callId), Ended, now)]
      ensures old(currentCall).None? || writeFails ==> db.calls == old(db.calls)
      ensures db.Others() == old(db.Others())
      ensures old(localStream) != null ==> old(localStream).tracks == StopAll(old(localStream.tracks))
      ensures old(remoteStream) != null ==> old(remoteStream).tracks == StopAll(old(remoteStream.tracks))
      ensures old(Idle()) ==> Cells() == old(Cells()) && unchanged(db)
    {
      if currentCall.Some? && !writeFails {
        db.UpdateCallStatus(currentCall.value.callId, Ended, now);
      }
      CleanupCall();
    }

    /**
     * The middle of startCall: the ringing record, the outgoing call state,
     * and a new peer connection carrying the local tracks.
     */
    method Ring(callerId: string, calleeId: string, kind: string, newId: string, now: int, stream: MediaStream)
      returns (pc: PeerConnection)
      requires newId !in db.calls
      modifies this, db
      ensures fresh(pc) && pc.callId == newId && pc.senders == stream.tracks && pc.signalingState == Stable
      ensures pc.open && pc.localDescription.None? && pc.remoteDescription.None? && pc.candidates == []
      ensures db.calls == old(db.calls)[newId := NewCall(newId, callerId, calleeId, kind, now)]
      ensures db.Others() == old(db.Others())
      ensures currentCall == Some(CurrentCall(newId, calleeId, kind, true)) && callStatus == Some(Stored(Ringing))
      ensures isCallUIOpen && peerConnection == pc
      ensures currentUser == old(currentUser) && localStream == old(localStream) && remoteStream == old(remoteStream)
      ensures incomingCall == old(incomingCall) && callerInfo == old(callerInfo) && signaling == old(signaling)
    {
      var callId := db.CreateCall(callerId, calleeId, kind, newId, now);
      currentCall := Some(CurrentCall(callId, calleeId, kind, true));
      callStatus := Some(Stored(Ringing));
      isCallUIOpen := true;
      pc := new PeerConnection(callId);
      peerConnection := pc;
      pc.AddTracks(stream.tracks);
    }

    /**
     * The catch of startCall: the cleanup of the render in which the call
     * began, which saw the streams `seenLocal` and `seenRemote`; then the
     * rethrow.
     */
    method Abort(fault: Fault, seenLocal: MediaStream?, seenRemote: MediaStream?) returns (error: Option<Fault>)
      requires Valid()
      modifies this, peerConnection, seenLocal, seenRemote
      ensures Valid() && Reset() && currentUser == old(currentUser) && error == Some(fault)
      ensures localStream == (if seenLocal != null then null else old(localStream))
      ensures remoteStream == (if seenRemote != null then null else old(remoteStream))
    {
      CleanupWith(seenLocal, seenRemote);
      error := Some(fault);
    }

    /**
     * startCall: nothing without a signed-in user; otherwise media first,
     * then the ringing record, the peer connection with the local tracks,
     * the offer, the subscription and the callee's profile. Any failure
     * runs the cleanup of the render in which the call began and is
     * rethrown (returned as the fault): that cleanup saw the streams from
     * before the call, so a stream opened here outlives the failure.
     */
    method StartCall(calleeId: string, kind: string, fault: Fault, newId: string, offerSdp: string, now: int)
      returns (error: Option<Fault>)
      requires Valid() && newId !in db.calls
      modifies this, db, peerConnection, localStream, remoteStream
      ensures Valid() && currentUser == old(currentUser)
      ensures old(currentUser).None? ==> error.None? && unchanged(this) && unchanged(db)
      ensures old(currentUser).Some? && fault != NoFault ==> error == Some(fault) && Reset() && remoteStream == null
      ensures old(currentUser).Some? && fault == MediaDenied ==> localStream == null
      ensures old(currentUser).Some? && fault != NoFault && fault != MediaDenied ==>
        OpenedStreamSurvives(old(localStream), kind) && (old(localStream) == null ==> fresh(localStream))
      ensures old(currentUser).Some? && (fault == MediaDenied || fault == StoreDown) ==> db.calls == old(db.calls)
      ensures old(currentUser).Some? && fault == SignalingFailed ==>
        db.calls == old(db.calls)[newId := NewCall(newId, old(currentUser).value, calleeId, kind, now)]
      ensures old(currentUser).Some? && (fault == NoFault || fault == LookupFailed) ==>
        db.calls == old(db.calls)[newId := NewCall(newId, old(currentUser).value, calleeId, kind, now).(offer := Some(offerSdp))]
      ensures old(currentUser).Some? && fault == NoFault ==>
        && error.None?
        && currentCall == Some(CurrentCall(newId, calleeId, kind, true))
        && callStatus == Some(Stored(Ringing)) && isCallUIOpen
        && localStream != null && fresh(localStream) && localStream.tracks == MediaTracks(kind)
        && peerConnection != null && fresh(peerConnection) && peerConnection.callId == newId
        && peerConnection.senders == MediaTracks(kind) && peerConnection.signalingState == HaveLocalOffer
        && peerConnection.localDescription == Some(offerSdp)
        && signaling == Some(Subscription(newId, [AnswerListener, CandidateListener, StatusListener], true,
                                          old(localStream), old(remoteStream)))
        && callerInfo == old(db.GetUser(calleeId)) && remoteStream == old(remoteStream)
        && incomingCall == old(incomingCall)
      ensures db.Others() == old(db.Others())
    {
      if currentUser.None? {
        return None;
      }
      var caller := currentUser.value;
      var seenLocal, seenRemote := localStream, remoteStream;
      if fault == MediaDenied {
        error := Abort(fault, seenLocal, seenRemote);
        return;
      }
      var stream := new MediaStream(MediaTracks(kind));
      localStream := stream;
      if fault == StoreDown {
        error := Abort(fault, seenLocal, seenRemote);
        return;
      }
      var pc := Ring(caller, calleeId, kind, newId, now, stream);
      if fault == SignalingFailed {
        error := Abort(fault, seenLocal, seenRemote);
        return;
      }
      ghost var ringing := NewCall(newId, caller, calleeId, kind, now);
      assert CallOrBlank(db.calls, newId) == ringing;
      error := Offer(pc, calleeId, offerSdp, fault == LookupFailed, seenLocal, seenRemote);
      Overwrite(old(db.calls), newId, ringing, ringing.(offer := Some(offerSdp)));
    }

    /**
     * The end of startCall: the offer set locally and stored, the signaling
     * subscription with all three listeners, and the callee's profile.
     */
    method Offer(pc: PeerConnection, calleeId: string, offerSdp: string, lookupFails: bool,
                 seenLocal: MediaStream?, seenRemote: MediaStream?) returns (error: Option<Fault>)
      requires Valid() && peerConnection == pc
      modifies this, db, pc, seenLocal, seenRemote
      ensures Valid() && currentUser == old(currentUser) && db.Others() == old(db.Others())
      ensures db.calls == old(db.calls)[pc.callId := CallOrBlank(old(db.calls), pc.callId).(offer := Some(offerSdp))]
      ensures lookupFails ==> Reset() && error == Some(LookupFailed)
      ensures lookupFails ==> localStream == (if seenLocal != null then null else old(localStream))
      ensures lookupFails ==> remoteStream == (if seenRemote != null then null else old(remoteStream))
      ensures !lookupFails ==>
        && error.None?
        && currentCall == old(currentCall) && callStatus == old(callStatus) && isCallUIOpen == old(isCallUIOpen)
        && localStream == old(localStream) && remoteStream == old(remoteStream)
        && (localStream != null ==> localStream.tracks == old(localStream.tracks))
        && peerConnection == pc && pc.signalingState == HaveLocalOffer && pc.localDescription == Some(offerSdp)
        && pc.senders == old(pc.senders)
        && signaling == Some(Subscription(pc.callId, [AnswerListener, CandidateListener, StatusListener], true,
                                          seenLocal, seenRemote))
        && callerInfo == old(db.GetUser(calleeId)) && incomingCall == old(incomingCall)
    {
      pc.SetLocalOffer(offerSdp);
      db.SetCallOffer(pc.callId, offerSdp);
      assert SignalingListeners(true, true, true) == [AnswerListener, CandidateListener, StatusListener];
      signaling := Some(Subscription(pc.callId, SignalingListeners(true, true, true), true, seenLocal, seenRemote));
      if lookupFails {
        error := Abort(LookupFailed, seenLocal, seenRemote);
        return;
      }
      callerInfo := db.GetUser(calleeId);
      error := None;
    }

    /** The middle of acceptCall: the "accepted" write and a new peer connection carrying the local tracks. */
    method Pickup(callId: string, stream: MediaStream, now: int) returns (pc: PeerConnection)
      modifies this, db
      ensures fresh(pc) && pc.callId == callId && pc.senders == stream.tracks && pc.signalingState == Stable
      ensures pc.open && pc.localDescription.None? && pc.remoteDescription.None? && pc.candidates == []
      ensures db.calls == old(db.calls)[callId := WithStatus(CallOrBlank(old(db.calls), callId), Accepted, now)]
      ensures db.Others() == old(db.Others())
      ensures peerConnection == pc
      ensures currentUser == old(currentUser) && currentCall == old(currentCall) && callStatus == old(callStatus)
      ensures localStream == old(localStream) && remoteStream == old(remoteStream) && isCallUIOpen == old(isCallUIOpen)
      ensures incomingCall == old(incomingCall) && callerInfo == old(callerInfo) && signaling == old(signaling)
    {
      db.UpdateCallStatus(callId, Accepted, now);
      pc := new PeerConnection(callId);
      peerConnection := pc;
      pc.AddTracks(stream.tracks);
    }

    /**
     * acceptCall: nothing without a pending incoming call or a signed-in
     * user; otherwise media, the "connecting" state, the "accepted" write,
     * the peer connection, the answer when the store holds an offer, and
     * the subscription. Failures run the cleanup of the render in which the
     * handler began and are not rethrown; once media was granted, that
     * cleanup no longer sees the stream opened here.
     */
    method AcceptCall(fault: Fault, answerSdp: string, now: int)
      requires Valid()
      modifies this, db, peerConnection, localStream, remoteStream
      ensures Valid() && currentUser == old(currentUser)
      ensures db.Others() == old(db.Others())
      ensures old(incomingCall).None? || old(currentUser).None? ==> unchanged(this) && unchanged(db)
      ensures old(incomingCall).Some? && old(currentUser).Some? && fault == MediaDenied ==>
        Idle() && db.calls == old(db.calls)
      ensures old(incomingCall).Some? && old(currentUser).Some? && fault == StoreDown ==>
        && Reset() && remoteStream == null && db.calls == old(db.calls)
        && OpenedStreamSurvives(old(localStream), old(incomingCall).value.kind)
        && (old(localStream) == null ==> fresh(localStream))
      ensures old(incomingCall).Some? && old(currentUser).Some? && fault == SignalingFailed &&
              AcceptedRecord(old(db.calls), old(incomingCall).value.callId, now).offer.Some? ==>
        && Reset() && remoteStream == null
        && OpenedStreamSurvives(old(localStream), old(incomingCall).value.kind)
        && (old(localStream) == null ==> fresh(localStream))
        && db.calls == old(db.calls)[old(incomingCall).value.callId :=
                                       AcceptedRecord(old(db.calls), old(incomingCall).value.callId, now)]
      ensures old(incomingCall).Some? && old(currentUser).Some? && Proceeds(fault, AcceptedRecord(old(db.calls), old(incomingCall).value.callId, now)) ==>
        && currentCall == Some(CurrentCall(old(incomingCall).value.callId, old(incomingCall).value.callerId,
                                           old(incomingCall).value.kind, false))
        && incomingCall.None? && isCallUIOpen && remoteStream == old(remoteStream)
        && localStream != null && fresh(localStream) && localStream.tracks == MediaTracks(old(incomingCall).value.kind)
        && peerConnection != null && fresh(peerConnection)
        && peerConnection.senders == MediaTracks(old(incomingCall).value.kind)
        && signaling == Some(Subscription(old(incomingCall).value.callId, [CandidateListener, StatusListener], false,
                                          old(localStream), old(remoteStream)))
      ensures old(incomingCall).Some? && old(currentUser).Some? && Proceeds(fault, AcceptedRecord(old(db.calls), old(incomingCall).value.callId, now)) &&
              AcceptedRecord(old(db.calls), old(incomingCall).value.callId, now).offer.Some? ==>
        && callStatus == Some(ClientStatus.Connected)
        && peerConnection != null
        && peerConnection.remoteDescription == AcceptedRecord(old(db.calls), old(incomingCall).value.callId, now).offer
        && peerConnection.localDescription == Some(answerSdp) && peerConnection.signalingState == Stable
        && db.calls == old(db.calls)[old(incomingCall).value.callId :=
             AcceptedRecord(old(db.calls), old(incomingCall).value.callId, now).(answer := Some(answerSdp))]
      ensures old(incomingCall).Some? && old(currentUser).Some? && Proceeds(fault, AcceptedRecord(old(db.calls), old(incomingCall).value.callId, now)) &&
              AcceptedRecord(old(db.calls), old(incomingCall).value.callId, now).offer.None? ==>
        && callStatus == Some(Connecting)
        && db.calls == old(db.calls)[old(incomingCall).value.callId :=
                                      AcceptedRecord(old(db.calls), old(incomingCall).value.callId, now)]
    {
      if incomingCall.None? || currentUser.None? {
        return;
      }
      var call := incomingCall.value;
      if fault == MediaDenied {
        CleanupCall();
        return;
      }
      var seenLocal, seenRemote := localStream, remoteStream;
      var stream := Ready(call);
      if fault == StoreDown {
        CleanupWith(seenLocal, seenRemote);
        return;
      }
      Connect(call.callId, stream, fault == SignalingFailed, answerSdp, now, seenLocal, seenRemote);
    }

    /** The start of acceptCall once media is granted: the new local stream and the "connecting" state cells. */
    method Ready(call: CallRecord) returns (stream: MediaStream)
      requires Valid()
      modifies this
      ensures Valid() && fresh(stream) && stream.tracks == MediaTracks(call.kind)
      ensures localStream == stream && remoteStream == old(remoteStream) && currentUser == old(currentUser)
      ensures currentCall == Some(CurrentCall(call.callId, call.callerId, call.kind, false))
      ensures callStatus == Some(Connecting) && isCallUIOpen && incomingCall.None?
      ensures callerInfo == old(callerInfo) && peerConnection == old(peerConnection) && signaling == old(signaling)
    {
      stream := new MediaStream(MediaTracks(call.kind));
      localStream := stream;
      currentCall := Some(CurrentCall(call.callId, call.callerId, call.kind, false));
      callStatus := Some(Connecting);
      isCallUIOpen := true;
      incomingCall := None;
    }

    /** The second half of acceptCall, once the local media is in place: the "accepted" write, the peer connection and the answer. */
    method Connect(callId: string, stream: MediaStream, signalingFails: bool, answerSdp: string, now: int,
                   seenLocal: MediaStream?, seenRemote: MediaStream?)
      requires Valid() && localStream == stream
      modifies this, db, seenLocal, seenRemote
      ensures Valid() && currentUser == old(currentUser) && db.Others() == old(db.Others())
      ensures signalingFails && AcceptedRecord(old(db.calls), callId, now).offer.Some? ==>
        && Reset() && db.calls == old(db.calls)[callId := AcceptedRecord(old(db.calls), callId, now)]
        && localStream == (if seenLocal != null then null else stream)
        && remoteStream == (if seenRemote != null then null else old(remoteStream))
      ensures !signalingFails || AcceptedRecord(old(db.calls), callId, now).offer.None? ==>
        && currentCall == old(currentCall) && incomingCall == old(incomingCall) && isCallUIOpen == old(isCallUIOpen)
        && localStream == stream && stream.tracks == old(stream.tracks) && remoteStream == old(remoteStream)
        && peerConnection != null && fresh(peerConnection) && peerConnection.senders == old(stream.tracks)
        && signaling == Some(Subscription(callId, [CandidateListener, StatusListener], false, seenLocal, seenRemote))
      ensures !signalingFails && AcceptedRecord(old(db.calls), callId, now).offer.Some? ==>
        && callStatus == Some(ClientStatus.Connected)
        && peerConnection != null
        && peerConnection.remoteDescription == AcceptedRecord(old(db.calls), callId, now).offer
        && peerConnection.localDescription == Some(answerSdp) && peerConnection.signalingState == Stable
        && db.calls == old(db.calls)[callId := AcceptedRecord(old(db.calls), callId, now).(answer := Some(answerSdp))]
      ensures AcceptedRecord(old(db.calls), callId, now).offer.None? ==>
        callStatus == old(callStatus) && db.calls == old(db.calls)[callId := AcceptedRecord(old(db.calls), callId, now)]
    {
      var pc := Pickup(callId, stream, now);
      ghost var accepted := CallOrBlank(db.calls, callId);
      assert accepted == AcceptedRecord(old(db.calls), callId, now);
      Answer(pc, answerSdp, signalingFails, seenLocal, seenRemote);
      if accepted.offer.Some? && !signalingFails {
        Overwrite(old(db.calls), callId, accepted, accepted.(answer := Some(answerSdp)));
      }
    }

    /**
     * The end of acceptCall: when the store holds an offer, it is applied,
     * answered and the answer stored, making the call connected; then the
     * subscription with the candidate and status listeners.
     */
    method Answer(pc: PeerConnection, answerSdp: string, signalingFails: bool,
                  seenLocal: MediaStream?, seenRemote: MediaStream?)
      requires Valid() && peerConnection == pc
      modifies this, db, pc, seenLocal, seenRemote
      ensures Valid() && currentUser == old(currentUser) && db.Others() == old(db.Others())
      ensures CallOrBlank(old(db.calls), pc.callId).offer.Some? && signalingFails ==>
        && Reset() && db.calls == old(db.calls)
        && localStream == (if seenLocal != null then null else old(localStream))
        && remoteStream == (if seenRemote != null then null else old(remoteStream))
      ensures CallOrBlank(old(db.calls), pc.callId).offer.Some? && !signalingFails ==>
        && db.calls == old(db.calls)[pc.callId := CallOrBlank(old(db.calls), pc.callId).(answer := Some(answerSdp))]
        && callStatus == Some(ClientStatus.Connected)
        && pc.remoteDescription == CallOrBlank(old(db.calls), pc.callId).offer
        && pc.localDescription == Some(answerSdp) && pc.signalingState == Stable
      ensures CallOrBlank(old(db.calls), pc.callId).offer.None? ==>
        db.calls == old(db.calls) && callStatus == old(callStatus)
      ensures CallOrBlank(old(db.calls), pc.callId).offer.None? || !signalingFails ==>
        && currentCall == old(currentCall) && incomingCall == old(incomingCall) && isCallUIOpen == old(isCallUIOpen)
        && localStream == old(localStream) && remoteStream == old(remoteStream)
        && (localStream != null ==> localStream.tracks == old(localStream.tracks))
        && peerConnection == pc && pc.senders == old(pc.senders)
        && signaling == Some(Subscription(pc.callId, [CandidateListener, StatusListener], false, seenLocal, seenRemote))
    {
      var offer := CallOrBlank(db.calls, pc.callId).offer;
      if offer.Some? {
        if signalingFails {
          CleanupWith(seenLocal, seenRemote);
          return;
        }
        pc.SetRemoteOffer(offer.value);
        pc.SetLocalAnswer(answerSdp);
        db.SetCallAnswer(pc.callId, answerSdp);
        callStatus := Some(ClientStatus.Connected);
      }
      assert SignalingListeners(false, true, true) == [CandidateListener, StatusListener];
      signaling := Some(Subscription(pc.callId, SignalingListeners(false, true, true), false, seenLocal, seenRemote));
    }

    /** rejectCall: "rejected" is written and the pending call and its caller cleared; media and connection are left alone. */
    method RejectCall(writeFails: bool, now: int)
      requires Valid()
      modifies this, db
      ensures Valid()
      ensures old(incomingCall).None? || writeFails ==> unchanged(this) && unchanged(db)
      ensures old(incomingCall).Some? && !writeFails ==>
        && incomingCall.None? && callerInfo.None?
        && db.calls == old(db.calls)[old(incomingCall).value.callId :=
             WithStatus(CallOrBlank(old(db.calls), old(incomingCall).value.callId), Rejected, now)]
      ensures currentCall == old(currentCall) && callStatus == old(callStatus) && isCallUIOpen == old(isCallUIOpen)
      ensures localStream == old(localStream) && remoteStream == old(remoteStream)
      ensures peerConnection == old(peerConnection) && signaling == old(signaling) && currentUser == old(currentUser)
      ensures db.Others() == old(db.Others())
    {
      if incomingCall.None? || writeFails {
        return;
      }
      db.UpdateCallStatus(incomingCall.value.callId, Rejected, now);
      incomingCall, callerInfo := None, None;
    }

    /** The answer listener: applied only in "have-local-offer", which then makes the call connected. */
    method OnAnswer(answer: string)
      requires Valid() && Subscribed(AnswerListener)
      modifies this, peerConnection
      ensures Valid() && peerConnection == old(peerConnection)
      ensures old(peerConnection.signalingState) == HaveLocalOffer ==>
        && peerConnection.remoteDescription == Some(answer) && peerConnection.signalingState == Stable
        && callStatus == Some(ClientStatus.Connected)
        && peerConnection.candidates == old(peerConnection.candidates)
      ensures old(peerConnection.signalingState) != HaveLocalOffer ==> unchanged(this) && unchanged(peerConnection)
      ensures currentCall == old(currentCall) && incomingCall == old(incomingCall) && signaling == old(signaling)
      ensures localStream == old(localStream) && remoteStream == old(remoteStream) && isCallUIOpen == old(isCallUIOpen)
    {
      if peerConnection.signalingState == HaveLocalOffer {
        peerConnection.SetRemoteAnswer(answer);
        callStatus := Some(ClientStatus.Connected);
      }
    }

    /** The candidate listener: a candidate is applied only once a remote description is set, and dropped otherwise. */
    method OnCandidate(candidate: string)
      requires Valid() && Subscribed(CandidateListener)
      modifies peerConnection
      ensures old(peerConnection.remoteDescription).Some? ==>
        && peerConnection.candidates == old(peerConnection.candidates) + [candidate]
        && peerConnection.signalingState == old(peerConnection.signalingState)
      ensures old(peerConnection.remoteDescription).None? ==> unchanged(peerConnection)
    {
      if peerConnection.remoteDescription.Some? {
        peerConnection.AddIceCandidate(candidate);
      }
    }

    /**
     * The status listener, with a cleanup that sees the current streams:
     * the stored status is mirrored, and the side's closing statuses tear
     * the call down completely.
     */
    method OnStatusChange(status: CallStatus)
      requires Valid() && Subscribed(StatusListener)
      modifies this, peerConnection, localStream, remoteStream
      ensures Valid() && currentUser == old(currentUser)
      ensures ClosesOn(old(signaling.value.outgoing), status) ==>
        && Idle()
        && (old(localStream) != null ==> old(localStream).tracks == StopAll(old(localStream.tracks)))
        && (old(remoteStream) != null ==> old(remoteStream).tracks == StopAll(old(remoteStream.tracks)))
      ensures !ClosesOn(old(signaling.value.outgoing), status) ==>
        && callStatus == Some(Stored(status))
        && currentCall == old(currentCall) && incomingCall == old(incomingCall) && callerInfo == old(callerInfo)
        && signaling == old(signaling) && peerConnection == old(peerConnection) && isCallUIOpen == old(isCallUIOpen)
        && localStream == old(localStream) && remoteStream == old(remoteStream)
        && (peerConnection != null ==> unchanged(peerConnection))
        && (localStream != null ==> unchanged(localStream))
        && (remoteStream != null ==> unchanged(remoteStream))
    {
      callStatus := Some(Stored(status));
      if ClosesOn(signaling.value.outgoing, status) {
        CleanupCall();
      }
    }

    /**
     * The status listener exactly as attached: its cleanup is the closure
     * from the render in which the handler started, so it stops and clears
     * only the streams that render saw.
     */
    method OnStatusChangeAsWritten(status: CallStatus)
      requires Valid() && Subscribed(StatusListener)
      modifies this, peerConnection, signaling.value.seenLocal, signaling.value.seenRemote
      ensures Valid() && currentUser == old(currentUser)
      ensures ClosesOn(old(signaling.value.outgoing), status) ==>
        && peerConnection == null && signaling.None? && currentCall.None? && callStatus.None? && !isCallUIOpen
        && (old(signaling.value.seenLocal) == null ==> localStream == old(localStream))
      ensures !ClosesOn(old(signaling.value.outgoing), status) ==>
        callStatus == Some(Stored(status)) && localStream == old(localStream) && currentCall == old(currentCall)
    {
      callStatus := Some(Stored(status));
      if ClosesOn(signaling.value.outgoing, status) {
        CleanupWith(signaling.value.seenLocal, signaling.value.seenRemote);
      }
    }

    /** onconnectionstatechange: "disconnected" and "failed" end the call. */
    method OnConnectionStateChange(state: PeerState, writeFails: bool, now: int)
      requires Valid()
      modifies this, db, peerConnection, localStream, remoteStream
      ensures Valid()
      ensures state == PeerDisconnected || state == PeerFailed ==> Idle()
      ensures state == PeerDisconnected || state == PeerFailed ==>
        (old(currentCall).Some? && !writeFails ==>
          db.calls == old(db.calls)[old(currentCall).value.callId :=
            WithStatus(CallOrBlank(old(db.calls), old(currentCall).value.callId), Ended, now)])
      ensures state != PeerDisconnected && state != PeerFailed ==>
        && Cells() == old(Cells()) && unchanged(db)
        && (peerConnection != null ==> unchanged(peerConnection))
        && (localStream != null ==> unchanged(localStream))
        && (remoteStream != null ==> unchanged(remoteStream))
    {
      if state == PeerDisconnected || state == PeerFailed {
        EndCall(writeFails, now);
      }
    }

    /** onicecandidate: a gathered candidate is pushed to the call's candidate list. */
    method OnLocalCandidate(candidate: Option<string>)
      requires peerConnection != null
      modifies db
      ensures candidate.None? ==> unchanged(db)
      ensures candidate.Some? ==>
        var id := peerConnection.callId;
        db.calls == old(db.calls)[id := CallOrBlank(old(db.calls), id).(candidates := CallOrBlank(old(db.calls), id).candidates + [candidate.value])]
      ensures db.Others() == old(db.Others())
    {
      if candidate.Some? {
        db.AddIceCandidate(peerConnection.callId, candidate.value);
      }
    }

    /** ontrack: a new remote stream holding the event's tracks. */
    method OnTrack(incoming: seq<Track>)
      requires Valid()
      modifies this
      ensures Valid()
      ensures remoteStream != null && fresh(remoteStream) && remoteStream.tracks == incoming
      ensures localStream == old(localStream) && currentCall == old(currentCall) && callStatus == old(callStatus)
      ensures peerConnection == old(peerConnection) && signaling == old(signaling)
      ensures currentUser == old(currentUser) && isCallUIOpen == old(isCallUIOpen)
      ensures incomingCall == old(incomingCall) && callerInfo == old(callerInfo)
    {
      var remote := new MediaStream([]);
      remote.AddTracks(incoming);
      remoteStream := remote;
    }

    /** toggleMute: true exactly when the first audio track is now disabled; false without a stream or an audio track. */
    method ToggleMute() returns (muted: bool)
      modifies localStream
      ensures localStream == null ==> !muted
      ensures localStream != null ==>
        && localStream.tracks == Toggled(old(localStream.tracks), "audio")
        && (muted <==> match FirstOfKind(old(localStream.tracks), "audio")
                       case None => false
                       case Some(i) => !localStream.tracks[i].enabled)
    {
      muted := false;
      if localStream != null {
        muted := localStream.ToggleFirst("audio");
      }
    }

    /** toggleVideo: true exactly when the first video track is now disabled; false without a stream or a video track. */
    method ToggleVideo() returns (videoOff: bool)
      modifies localStream
      ensures localStream == null ==> !videoOff
      ensures localStream != null ==>
        && localStream.tracks == Toggled(old(localStream.tracks), "video")
        && (videoOff <==> match FirstOfKind(old(localStream.tracks), "video")
                          case None => false
                          case Some(i) => !localStream.tracks[i].enabled)
    {
      videoOff := false;
      if localStream != null {
        videoOff := localStream.ToggleFirst("video");
      }
    }

    /** The incoming-call listener: a ringing call is adopted only while there is neither a current nor a pending call. */
    method OnIncomingCall(call: CallRecord)
      requires Valid() && currentUser.Some? && RingingFor(call, currentUser.value)
      modifies this
      ensures Valid()
      ensures old(currentCall).None? && old(incomingCall).None? ==>
        incomingCall == Some(call) && callerInfo == db.GetUser(call.callerId)
      ensures old(currentCall).Some? || old(incomingCall).Some? ==> unchanged(this)
      ensures currentCall == old(currentCall) && callStatus == old(callStatus) && signaling == old(signaling)
      ensures localStream == old(localStream) && remoteStream == old(remoteStream) && peerConnection == old(peerConnection)
    {
      if currentCall.None? && incomingCall.None? {
        incomingCall := Some(call);
        callerInfo := db.GetUser(call.callerId);
      }
    }
  }

  /**
   * A video call placed from an idle session and then rejected, with the
   * status listener as attached: the session reports no call, yet it still
   * holds the local stream and none of its tracks was stopped.
   */
  method StaleCleanupScenario() returns (session: CallSession, live: seq<Track>)
    ensures session.currentCall.None? && !session.isCallUIOpen
    ensures session.localStream != null && session.localStream.tracks == live
    ensures |live| == 2 && forall i :: 0 <= i < |live| ==> !live[i].stopped
  {
    var db := new Database();
    session := new CallSession(db, Some("alice"));
    var error := session.StartCall("bob", "video", NoFault, "call-1", "offer", 0);
    assert StatusListener in session.signaling.value.listeners;
    session.OnStatusChangeAsWritten(Rejected);
    live := session.localStream.tracks;
  }

  /**
   * A video call placed from an idle session whose call record cannot be
   * created: the catch reports the failure and clears the call, yet the
   * session still holds the stream it opened, with no track stopped.
   */
  method StaleCatchScenario() returns (session: CallSession, error: Option<Fault>, live: seq<Track>)
    ensures error == Some(StoreDown) && session.currentCall.None? && !session.isCallUIOpen
    ensures session.localStream != null && session.localStream.tracks == live
    ensures |live| == 2 && forall i :: 0 <= i < |live| ==> !live[i].stopped
  {
    var db := new Database();
    session := new CallSession(db, Some("alice"));
    error := session.StartCall("bob", "video", StoreDown, "call-1", "offer", 0);
    live := session.localStream.tracks;
  }

  /** The same scenario with a cleanup that sees the current streams leaves nothing behind. */
  method CurrentCleanupScenario() returns (session: CallSession, stopped: seq<Track>)
    ensures session.Idle()
    ensures |stopped| == 2 && forall i :: 0 <= i < |stopped| ==> stopped[i].stopped
  {
    var db := new Database();
    session := new CallSession(db, Some("alice"));
    var error := session.StartCall("bob", "video", NoFault, "call-1", "offer", 0);
    var local := session.localStream;
    assert StatusListener in session.signaling.value.listeners;
    session.OnStatusChange(Rejected);
    stopped := local.tracks;
  }
}
