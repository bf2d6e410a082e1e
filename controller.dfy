/** The call controller of App.tsx as one object: its state cells and refs are fields, and each
    handler is a method that performs the handler's steps in the source's order. Every method
    ends in the state the matching function of `Session` computes. */
module Controller {
  import opened Results
  import opened Media
  import opened Signaling
  import Session
  import Guarantees

  class CallController {
    var isConnected: bool
    var isMuted: bool
    var isVideoEnabled: bool
    var isLoading: bool
    var error: Option<string>
    var isInCall: bool
    /** `localStreamRef.current` */
    var localStream: Option<Stream>
    /** `peerConnectionRef.current` */
    var peerConnection: Option<Session.Peer>
    /** Whether the remote video element shows a stream. */
    var remoteShown: bool
    /** Every library call and socket emission made so far, in order. */
    ghost var calls: seq<Step>

    ghost function Snapshot(): (r: Session.State)
      reads this
    {
      Session.State(isConnected, isMuted, isVideoEnabled, isLoading, error, isInCall,
                    localStream, peerConnection, remoteShown, calls)
    }

    /** The messages sent on the socket so far. */
    ghost function Sent(): (r: seq<Msg>)
      reads this
    {
      Outbox(calls)
    }

    constructor ()
      ensures Snapshot() == Session.Initial
    {
      isConnected, isMuted, isVideoEnabled, isLoading := false, false, true, false;
      error, isInCall := None, false;
      localStream, peerConnection, remoteShown := None, None, false;
      calls := [];
    }

    method SetupLocalStream(media: Call<Stream>)
      modifies this
      ensures Snapshot() == Session.SetupLocalStream(old(Snapshot()), media)
    {
      calls := calls + [GetUserMedia];
      match media
      case Resolves(stream) =>
        localStream := Some(stream);
        error := None;
      case Rejects(_) =>
        error := Some(Session.PermissionMessage);
    }

    /** Capture a probe stream, then `track.stop()` for each of its tracks in turn. */
    method CheckPermissions(probe: Call<Stream>)
      modifies this
      ensures Snapshot() == Session.CheckPermissions(old(Snapshot()), probe)
    {
      calls := calls + [GetUserMedia];
      match probe
      case Resolves(stream) =>
        var tracks := stream.tracks;
        var i := 0;
        assert StopSteps(tracks[..0]) == [] && old(calls) + [GetUserMedia] + [] == old(calls) + [GetUserMedia];
        while i < |tracks|
          invariant 0 <= i <= |tracks|
          invariant calls == old(calls) + [GetUserMedia] + StopSteps(tracks[..i])
          invariant isConnected == old(isConnected) && isMuted == old(isMuted)
          invariant isVideoEnabled == old(isVideoEnabled) && isLoading == old(isLoading)
          invariant error == old(error) && isInCall == old(isInCall) && localStream == old(localStream)
          invariant peerConnection == old(peerConnection) && remoteShown == old(remoteShown)
        {
          StepsOneMore(tracks, i);
          calls := calls + [StopTrack(tracks[i].id)];
          i := i + 1;
        }
        assert tracks[..i] == tracks;
        error := None;
      case Rejects(_) =>
        error := Some(Session.PermissionMessage);
    }

    /** The mount effect: `setupLocalStream()`, then `checkPermissions()`. */
    method Mount(media: Call<Stream>, probe: Call<Stream>)
      modifies this
      ensures Snapshot() == Session.Mount(old(Snapshot()), media, probe)
    {
      SetupLocalStream(media);
      CheckPermissions(probe);
    }

    method HandleError(reason: string)
      modifies this
      ensures Snapshot() == Session.HandleError(old(Snapshot()), reason)
    {
      error := Some(reason);
      isLoading := false;
    }

    method SetupMediaStream(media: Call<Stream>) returns (got: Call<Stream>)
      modifies this
      ensures Session.Acquired(Snapshot(), got) == Session.SetupMediaStream(old(Snapshot()), media)
    {
      if localStream.Some? {
        return Resolves(localStream.value);
      }
      calls := calls + [GetUserMedia];
      match media
      case Resolves(stream) =>
        localStream := Some(stream);
        got := Resolves(stream);
      case Rejects(reason) =>
        HandleError(reason);
        got := Rejects(reason);
    }

    /** `new RTCPeerConnection()`, then `addTrack` for each track of the stream in turn. */
    method ConnectTracks(stream: Stream)
      modifies this
      ensures Snapshot() == Session.ConnectTracks(old(Snapshot()), stream)
    {
      peerConnection := Some(Session.FreshPeer);
      calls := calls + [NewPeerConnection];
      var tracks := stream.tracks;
      var i := 0;
      assert Ids(tracks[..0]) == [] && AddTrackSteps(tracks[..0]) == [];
      assert old(calls) + [NewPeerConnection] + [] == old(calls) + [NewPeerConnection];
      while i < |tracks|
        invariant 0 <= i <= |tracks|
        invariant Snapshot() == Session.ConnectTracks(old(Snapshot()), Stream(tracks[..i]))
      {
        if peerConnection.Some? {
          peerConnection := Some(peerConnection.value.(senders := peerConnection.value.senders + [tracks[i].id]));
          calls := calls + [AddTrack(tracks[i].id)];
        }
        IdsOneMore(tracks, i);
        StepsOneMore(tracks, i);
        i := i + 1;
      }
      assert tracks[..i] == stream.tracks;
    }

    method TryStartCall(o: Session.StartOutcomes) returns (thrown: Option<string>)
      modifies this
      ensures Session.Attempt(Snapshot(), thrown) == Session.TryStartCall(old(Snapshot()), o)
    {
      isLoading := true;
      error := None;
      ghost var a := Session.SetupMediaStream(Snapshot(), o.media);
      var got := SetupMediaStream(o.media);
      assert Session.Acquired(Snapshot(), got) == a;
      if got.Rejects? {
        return Some(got.reason);
      }
      ConnectTracks(got.value);
      thrown := SendOffer(o);
    }

    /** `createOffer`, `setLocalDescription(offer)`, then `emit("webrtc_offer", offer)`. */
    method SendOffer(o: Session.StartOutcomes) returns (thrown: Option<string>)
      requires peerConnection.Some?
      modifies this
      ensures Session.Attempt(Snapshot(), thrown) == Session.SendOffer(old(Snapshot()), o)
    {
      calls := calls + [CreateOffer];
      ghost var s1 := Snapshot();
      if o.offer.Rejects? {
        return Some(o.offer.reason);
      }
      var offer := o.offer.value;
      calls := calls + [SetLocalDescription(offer)];
      ghost var s2 := Snapshot();
      assert s2 == Session.Record(s1, SetLocalDescription(offer));
      if o.applied.Rejects? {
        return Some(o.applied.reason);
      }
      peerConnection := Some(peerConnection.value.(localDescription := Some(offer)));
      calls := calls + [Emit(Offer(offer))];
      assert Snapshot() == Session.Send(Session.SetLocal(s2, offer), Offer(offer));
      thrown := None;
    }

    method HandleStartCall(o: Session.StartOutcomes)
      modifies this
      ensures Snapshot() == Session.HandleStartCall(old(Snapshot()), o)
      ensures Sent() == old(Sent())
                        + (if Guarantees.StartSucceeds(old(Snapshot()), o) then [Offer(o.offer.value)] else [])
    {
      ghost var before := Snapshot();
      var thrown := TryStartCall(o);
      if thrown.Some? {
        HandleError(thrown.value);
      }
      isLoading := false;
      Guarantees.StartCallSends(before, o);
    }

    method TryAcceptOffer(offer: Sdp, o: Session.AcceptOutcomes) returns (thrown: Option<string>)
      modifies this
      ensures Session.Attempt(Snapshot(), thrown) == Session.TryAcceptOffer(old(Snapshot()), offer, o)
    {
      isLoading := true;
      error := None;
      ghost var a := Session.SetupMediaStream(Snapshot(), o.media);
      var got := SetupMediaStream(o.media);
      assert Session.Acquired(Snapshot(), got) == a;
      if got.Rejects? {
        return Some(got.reason);
      }
      ConnectTracks(got.value);
      thrown := SendAnswer(offer, o);
    }

    /** `setRemoteDescription(offer)`, `createAnswer`, `setLocalDescription(answer)`, then
        `emit("webrtc_answer", answer)`. */
    method SendAnswer(offer: Sdp, o: Session.AcceptOutcomes) returns (thrown: Option<string>)
      requires peerConnection.Some?
      modifies this
      ensures Session.Attempt(Snapshot(), thrown) == Session.SendAnswer(old(Snapshot()), offer, o)
    {
      calls := calls + [SetRemoteDescription(offer)];
      ghost var s1 := Snapshot();
      if o.remoteApplied.Rejects? {
        return Some(o.remoteApplied.reason);
      }
      peerConnection := Some(peerConnection.value.(remoteDescription := Some(offer)));
      calls := calls + [CreateAnswer];
      ghost var s2 := Snapshot();
      assert s2 == Session.Record(Session.SetRemote(s1, offer), CreateAnswer);
      if o.answer.Rejects? {
        return Some(o.answer.reason);
      }
      var answer := o.answer.value;
      calls := calls + [SetLocalDescription(answer)];
      ghost var s3 := Snapshot();
      assert s3 == Session.Record(s2, SetLocalDescription(answer));
      if o.localApplied.Rejects? {
        return Some(o.localApplied.reason);
      }
      peerConnection := Some(peerConnection.value.(localDescription := Some(answer)));
      calls := calls + [Emit(Answer(answer))];
      assert Snapshot() == Session.Send(Session.SetLocal(s3, answer), Answer(answer));
      thrown := None;
    }

    method HandleWebRTCOffer(offer: Sdp, o: Session.AcceptOutcomes)
      modifies this
      ensures Snapshot() == Session.HandleWebRTCOffer(old(Snapshot()), offer, o)
      ensures Sent() == old(Sent())
                        + (if Guarantees.AcceptSucceeds(old(Snapshot()), o) then [Answer(o.answer.value)] else [])
    {
      ghost var before := Snapshot();
      var thrown := TryAcceptOffer(offer, o);
      if thrown.Some? {
        HandleError(thrown.value);
      }
      isLoading := false;
      Guarantees.AcceptOfferSends(before, offer, o);
    }

    method HandleWebRTCAnswer(answer: Sdp, applied: Call<()>)
      modifies this
      ensures Snapshot() == Session.HandleWebRTCAnswer(old(Snapshot()), answer, applied)
    {
      if peerConnection.Some? {
        calls := calls + [SetRemoteDescription(answer)];
        match applied
        case Resolves(_) =>
          peerConnection := Some(peerConnection.value.(remoteDescription := Some(answer)));
        case Rejects(reason) =>
          HandleError(reason);
      }
    }

    method HandleWebRTCIceCandidate(candidate: Candidate, added: Call<()>)
      modifies this
      ensures Snapshot() == Session.HandleWebRTCIceCandidate(old(Snapshot()), candidate, added)
    {
      if peerConnection.Some? {
        calls := calls + [AddIceCandidate(candidate)];
        match added
        case Resolves(_) =>
          peerConnection := Some(peerConnection.value.(
            remoteCandidates := peerConnection.value.remoteCandidates + [candidate]));
        case Rejects(reason) =>
          HandleError(reason);
      }
    }

    /** The `onicecandidate` callback: a non-null candidate is emitted. */
    method OnIceCandidate(candidate: Option<Candidate>)
      modifies this
      ensures Snapshot() == Session.OnIceCandidate(old(Snapshot()), candidate)
      ensures Sent() == old(Sent()) + (if candidate.Some? then [IceCandidate(candidate.value)] else [])
    {
      ghost var before := Snapshot();
      if candidate.Some? {
        calls := calls + [Emit(IceCandidate(candidate.value))];
      }
      Guarantees.GatheredCandidateSent(before, candidate);
    }

    /** The `ontrack` callback. */
    method OnTrack()
      modifies this
      ensures Snapshot() == Session.OnTrack(old(Snapshot()))
    {
      remoteShown := true;
    }

    method ToggleMute()
      modifies this
      ensures Snapshot() == Session.ToggleMute(old(Snapshot()))
    {
      if localStream.Some? {
        var audio := FirstOfKind(localStream.value.tracks, Audio);
        if audio.Some? {
          var i := audio.value;
          localStream := Some(Stream(Toggled(localStream.value.tracks, i)));
          isMuted := !localStream.value.tracks[i].enabled;
        }
      }
    }

    method ToggleVideo()
      modifies this
      ensures Snapshot() == Session.ToggleVideo(old(Snapshot()))
    {
      if localStream.Some? {
        var video := FirstOfKind(localStream.value.tracks, Video);
        if video.Some? {
          var i := video.value;
          localStream := Some(Stream(Toggled(localStream.value.tracks, i)));
          isVideoEnabled := localStream.value.tracks[i].enabled;
        }
      }
    }

    method StartCall(o: Session.StartOutcomes)
      modifies this
      ensures Snapshot() == Session.StartCall(old(Snapshot()), o)
    {
      HandleStartCall(o);
      isInCall := true;
    }

    /** `track.stop()` for each track of the held stream in turn. */
    method StopTracks()
      modifies this
      ensures old(localStream).Some? ==>
        Snapshot() == old(Snapshot()).(localStream := Some(Stream(Stopped(old(localStream).value.tracks))),
                                       calls := old(calls) + StopSteps(old(localStream).value.tracks))
      ensures old(localStream).None? ==> Snapshot() == old(Snapshot())
    {
      if localStream.Some? {
        var tracks := localStream.value.tracks;
        var ts := tracks;
        var i := 0;
        assert StopSteps(tracks[..0]) == [] && old(calls) + [] == old(calls);
        while i < |tracks|
          invariant 0 <= i <= |tracks| && |ts| == |tracks|
          invariant forall k | 0 <= k < i :: ts[k] == tracks[k].(live := false)
          invariant forall k | i <= k < |tracks| :: ts[k] == tracks[k]
          invariant localStream == Some(Stream(ts))
          invariant calls == old(calls) + StopSteps(tracks[..i])
          invariant isConnected == old(isConnected) && isMuted == old(isMuted)
          invariant isVideoEnabled == old(isVideoEnabled) && isLoading == old(isLoading)
          invariant error == old(error) && isInCall == old(isInCall)
          invariant peerConnection == old(peerConnection) && remoteShown == old(remoteShown)
        {
          StepsOneMore(tracks, i);
          ts := ts[i := ts[i].(live := false)];
          localStream := Some(Stream(ts));
          calls := calls + [StopTrack(tracks[i].id)];
          i := i + 1;
        }
        assert tracks[..i] == tracks;
        assert ts == Stopped(tracks);
      }
    }

    method EndCall(media: Call<Stream>)
      modifies this
      ensures Snapshot() == Session.EndCall(old(Snapshot()), media)
    {
      Hangup();
      SetupLocalStream(media);
    }

    /** The first four statements of `endCall`: close, stop every track, clear the videos, leave the call. */
    method Hangup()
      modifies this
      ensures Snapshot() == Session.Hangup(old(Snapshot()))
    {
      if peerConnection.Some? {
        calls := calls + [Close];
        peerConnection := Some(peerConnection.value.(closed := true));
      }
      StopTracks();
      remoteShown := false;
      isInCall := false;
    }

    method OnConnect()
      modifies this
      ensures Snapshot() == Session.OnConnect(old(Snapshot()))
    {
      isConnected := true;
    }

    method OnDisconnect()
      modifies this
      ensures Snapshot() == Session.OnDisconnect(old(Snapshot()))
    {
      isConnected := false;
    }
  }
}
