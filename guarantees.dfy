/** What each handler of the call controller promises: the order of its calls, what it sends,
    and which state each failure leaves. */
module Guarantees {
  import opened Results
  import opened Media
  import opened Signaling
  import opened Session

  /** The stream `setupMediaStream` hands back: the held one, else what getUserMedia gave. */
  function StreamFor(s: State, media: Call<Stream>): (r: Call<Stream>) {
    if s.localStream.Some? then Resolves(s.localStream.value) else media
  }

  /** getUserMedia is called only when no stream is held. */
  function AcquireSteps(s: State): (r: seq<Step>) {
    if s.localStream.Some? then [] else [GetUserMedia]
  }

  // ------------------------------------------------------------ setupMediaStream

  /** Stream reuse: a held stream is returned without calling getUserMedia; otherwise a new one is
      stored, or on refusal the error is shown, loading stops, the error is rethrown and the ref
      stays empty. */
  lemma MediaStreamReuse(s: State, media: Call<Stream>)
    ensures SetupMediaStream(s, media).stream == StreamFor(s, media)
    ensures s.localStream.Some? ==> SetupMediaStream(s, media).state == s
    ensures s.localStream.None? && media.Resolves? ==>
      SetupMediaStream(s, media).state == s.(localStream := Some(media.value), calls := s.calls + [GetUserMedia])
    ensures s.localStream.None? && media.Rejects? ==>
      SetupMediaStream(s, media).state
        == s.(error := Some(media.reason), isLoading := false, calls := s.calls + [GetUserMedia])
  {
  }

  // ------------------------------------------------------------ setupLocalStream and checkPermissions

  /** `setupLocalStream` always asks for a stream. A granted one replaces the held stream and
      clears the error; a refusal shows the fixed permission message and keeps the held stream.
      Nothing else changes and nothing is sent. */
  lemma LocalStreamRestart(s: State, media: Call<Stream>)
    ensures var t := SetupLocalStream(s, media);
      && t.calls == s.calls + [GetUserMedia]
      && Outbox(t.calls) == Outbox(s.calls)
      && (media.Resolves? ==> t == s.(localStream := Some(media.value), error := None, calls := t.calls))
      && (media.Rejects? ==> t == s.(error := Some(PermissionMessage), calls := t.calls))
  {
    QuietAppend(s.calls, [GetUserMedia]);
    QuietOutbox(s.calls, s.calls + [GetUserMedia]);
  }

  /** `checkPermissions` never keeps the probe stream: a granted one has each of its tracks stopped
      at once and clears the error, a refusal shows the permission message. The held stream, the
      peer connection and every flag are untouched and nothing is sent. */
  lemma PermissionProbe(s: State, probe: Call<Stream>)
    ensures var t := CheckPermissions(s, probe);
      && t.localStream == s.localStream && t.peer == s.peer
      && Outbox(t.calls) == Outbox(s.calls)
      && (probe.Resolves? ==>
            t == s.(error := None, calls := s.calls + [GetUserMedia] + StopSteps(probe.value.tracks)))
      && (probe.Rejects? ==> t == s.(error := Some(PermissionMessage), calls := s.calls + [GetUserMedia]))
  {
    match probe
    case Resolves(stream) =>
      var x := [GetUserMedia] + StopSteps(stream.tracks);
      TrackStepsSilent(stream.tracks);
      assert Silent(x);
      assert s.calls + [GetUserMedia] + StopSteps(stream.tracks) == s.calls + x;
      QuietAppend(s.calls, x);
      QuietOutbox(s.calls, s.calls + x);
    case Rejects(_) =>
      QuietAppend(s.calls, [GetUserMedia]);
      QuietOutbox(s.calls, s.calls + [GetUserMedia]);
  }

  /** The mount effect: the stream `setupLocalStream` got is kept, the error is what the later
      `checkPermissions` left, the calls made send nothing, and nothing else changes. */
  lemma MountEffect(s: State, media: Call<Stream>, probe: Call<Stream>)
    ensures var t := Mount(s, media, probe);
      && QuietlyExtends(s.calls, t.calls)
      && Outbox(t.calls) == Outbox(s.calls)
      && t == s.(localStream := if media.Resolves? then Some(media.value) else s.localStream,
                 error := if probe.Resolves? then None else Some(PermissionMessage),
                 calls := t.calls)
  {
    LocalStreamRestart(s, media);
    PermissionProbe(SetupLocalStream(s, media), probe);
    MountQuiet(s, media, probe);
  }

  /** The mount effect's calls send nothing. */
  lemma MountQuiet(s: State, media: Call<Stream>, probe: Call<Stream>)
    ensures QuietlyExtends(s.calls, Mount(s, media, probe).calls)
  {
    var x := [GetUserMedia, GetUserMedia] + (if probe.Resolves? then StopSteps(probe.value.tracks) else []);
    if probe.Resolves? {
      TrackStepsSilent(probe.value.tracks);
    }
    assert Silent(x);
    assert Mount(s, media, probe).calls == s.calls + x;
    QuietAppend(s.calls, x);
  }

  // ------------------------------------------------------------ handleStartCall

  predicate StartSucceeds(s: State, o: StartOutcomes) {
    StreamFor(s, o.media).Resolves? && o.offer.Resolves? && o.applied.Resolves?
  }

  /** The message of the first call of the caller path that threw. */
  function StartFailure(s: State, o: StartOutcomes): (r: string)
    requires !StartSucceeds(s, o)
  {
    if StreamFor(s, o.media).Rejects? then o.media.reason
    else if o.offer.Rejects? then o.offer.reason
    else o.applied.reason
  }

  /** The state `setupMediaStream` leaves when it hands back a stream, as a handler calls it
      (loading on, error cleared). */
  lemma AcquiredForHandler(s: State, media: Call<Stream>)
    requires StreamFor(s, media).Resolves?
    ensures var s0 := s.(isLoading := true, error := None);
      SetupMediaStream(s0, media)
        == Acquired(s0.(localStream := Some(StreamFor(s, media).value), calls := s.calls + AcquireSteps(s)),
                    StreamFor(s, media))
  {
    MediaStreamReuse(s.(isLoading := true, error := None), media);
  }

  /** Offer ordering: the new peer connection gets every track, then an offer is created, then
      it is applied as the local description, and only then is it sent, as the last call; the
      error is cleared and loading stops. */
  lemma StartCallSendsOfferLast(s: State, o: StartOutcomes)
    requires StartSucceeds(s, o)
    ensures var stream := StreamFor(s, o.media).value;
      var offer := o.offer.value;
      HandleStartCall(s, o)
        == s.(isLoading := false, error := None, localStream := Some(stream),
              peer := Some(Peer(Ids(stream.tracks), Some(offer), None, [], false)),
              calls := s.calls + AcquireSteps(s) + [NewPeerConnection] + AddTrackSteps(stream.tracks)
                       + [CreateOffer, SetLocalDescription(offer), Emit(Offer(offer))])
    ensures Outbox(HandleStartCall(s, o).calls) == Outbox(s.calls) + [Offer(o.offer.value)]
  {
    var stream := StreamFor(s, o.media).value;
    var offer := o.offer.value;
    AcquiredForHandler(s, o.media);
    var a := SetupMediaStream(s.(isLoading := true, error := None), o.media);
    var c := ConnectTracks(a.state, stream);
    var x := AcquireSteps(s) + [NewPeerConnection] + AddTrackSteps(stream.tracks);
    assert c.calls == s.calls + x;
    var s2 := Record(Record(c, CreateOffer), SetLocalDescription(offer));
    assert TryStartCall(s, o) == Attempt(Send(SetLocal(s2, offer), Offer(offer)), None);
    assert s2.calls == s.calls + (x + [CreateOffer, SetLocalDescription(offer)]);
    SendAfterQuiet(s.calls, x + [CreateOffer, SetLocalDescription(offer)], Offer(offer));
  }

  /** What `handleStartCall` sends: its offer when the caller path succeeds, else nothing. */
  lemma StartCallSends(s: State, o: StartOutcomes)
    ensures Outbox(HandleStartCall(s, o).calls)
         == Outbox(s.calls) + (if StartSucceeds(s, o) then [Offer(o.offer.value)] else [])
  {
    if StartSucceeds(s, o) { StartCallSendsOfferLast(s, o); } else { StartCallFailure(s, o); }
  }

  /** The state a failed caller path leaves, failure by failure. */
  function StartFailedState(s: State, o: StartOutcomes): (r: State)
    requires !StartSucceeds(s, o)
  {
    if StreamFor(s, o.media).Rejects? then
      s.(error := Some(o.media.reason), isLoading := false, calls := s.calls + [GetUserMedia])
    else
      var stream := StreamFor(s, o.media).value;
      var x := AcquireSteps(s) + [NewPeerConnection] + AddTrackSteps(stream.tracks) + [CreateOffer];
      s.(error := Some(StartFailure(s, o)), isLoading := false, localStream := Some(stream),
         peer := Some(Peer(Ids(stream.tracks), None, None, [], false)),
         calls := s.calls + (if o.offer.Rejects? then x else x + [SetLocalDescription(o.offer.value)]))
  }

  lemma StartFailedAt(s: State, o: StartOutcomes)
    requires !StartSucceeds(s, o)
    ensures HandleStartCall(s, o) == StartFailedState(s, o)
  {
    var s0 := s.(isLoading := true, error := None);
    if StreamFor(s, o.media).Rejects? {
      MediaStreamReuse(s0, o.media);
      var a := SetupMediaStream(s0, o.media);
      assert TryStartCall(s, o) == Attempt(a.state, Some(o.media.reason));
    } else {
      StartFailedAfterMedia(s, o);
    }
  }

  lemma StartFailedAfterMedia(s: State, o: StartOutcomes)
    requires !StartSucceeds(s, o) && StreamFor(s, o.media).Resolves?
    ensures HandleStartCall(s, o) == StartFailedState(s, o)
  {
    var stream := StreamFor(s, o.media).value;
    AcquiredForHandler(s, o.media);
    var a := SetupMediaStream(s.(isLoading := true, error := None), o.media);
    var c := ConnectTracks(a.state, stream);
    assert TryStartCall(s, o) == SendOffer(c, o);
    OfferFailedAt(c, o);
    var x := AcquireSteps(s) + [NewPeerConnection] + AddTrackSteps(stream.tracks);
    assert c.calls == s.calls + x;
    var rest := if o.offer.Rejects? then [CreateOffer] else [CreateOffer, SetLocalDescription(o.offer.value)];
    assert c.calls + rest == s.calls + (if o.offer.Rejects? then x + [CreateOffer]
                                        else x + [CreateOffer] + [SetLocalDescription(o.offer.value)]);
  }

  /** A failure after the tracks are added: the first rejected call's message, and the calls up to it. */
  lemma OfferFailedAt(c: State, o: StartOutcomes)
    requires c.peer.Some? && !(o.offer.Resolves? && o.applied.Resolves?)
    ensures SendOffer(c, o)
         == Attempt(c.(calls := c.calls + (if o.offer.Rejects? then [CreateOffer]
                                          else [CreateOffer, SetLocalDescription(o.offer.value)])),
                    Some(if o.offer.Rejects? then o.offer.reason else o.applied.reason))
  {
    if o.offer.Resolves? {
      assert c.calls + [CreateOffer] + [SetLocalDescription(o.offer.value)]
          == c.calls + [CreateOffer, SetLocalDescription(o.offer.value)];
    }
  }

  /** A failing caller path sends nothing, shows the first failure and stops loading. A refused
      capture creates no peer connection; a later failure leaves the new one, with its tracks
      added and no local description, in the ref. Nothing but the error, the loading flag, the
      stream and peer connection refs and the call log changes. */
  lemma StartCallFailure(s: State, o: StartOutcomes)
    requires !StartSucceeds(s, o)
    ensures HandleStartCall(s, o) == StartFailedState(s, o)
    ensures QuietlyExtends(s.calls, StartFailedState(s, o).calls)
    ensures Outbox(StartFailedState(s, o).calls) == Outbox(s.calls)
    ensures var t := StartFailedState(s, o);
      t == s.(error := Some(StartFailure(s, o)), isLoading := false,
              localStream := t.localStream, peer := t.peer, calls := t.calls)
    ensures StreamFor(s, o.media).Rejects? ==>
      StartFailedState(s, o).peer == s.peer && StartFailedState(s, o).localStream == None
  {
    StartFailedAt(s, o);
    StartFailedQuiet(s, o);
    QuietOutbox(s.calls, StartFailedState(s, o).calls);
  }

  lemma StartFailedQuiet(s: State, o: StartOutcomes)
    requires !StartSucceeds(s, o)
    ensures QuietlyExtends(s.calls, StartFailedState(s, o).calls)
  {
    if StreamFor(s, o.media).Rejects? {
      QuietAppend(s.calls, [GetUserMedia]);
    } else {
      var stream := StreamFor(s, o.media).value;
      var x := AcquireSteps(s) + [NewPeerConnection] + AddTrackSteps(stream.tracks) + [CreateOffer];
      var y := if o.offer.Rejects? then x else x + [SetLocalDescription(o.offer.value)];
      assert Silent(y);
      QuietAppend(s.calls, y);
    }
  }

  /** Start call: the call is entered whether the caller path succeeded or not, because
      `handleStartCall` swallows its failure; everything else is what `handleStartCall` left. */
  lemma StartCallEntersCall(s: State, o: StartOutcomes)
    ensures StartCall(s, o).isInCall
    ensures StartCall(s, o).(isInCall := s.isInCall) == HandleStartCall(s, o)
    ensures !StartSucceeds(s, o) ==> StartCall(s, o).error == Some(StartFailure(s, o))
  {
    if !StartSucceeds(s, o) {
      StartCallFailure(s, o);
    } else {
      StartCallSendsOfferLast(s, o);
    }
  }

  // ------------------------------------------------------------ handleWebRTCOffer

  predicate AcceptSucceeds(s: State, o: AcceptOutcomes) {
    StreamFor(s, o.media).Resolves? && o.remoteApplied.Resolves? && o.answer.Resolves? && o.localApplied.Resolves?
  }

  /** The message of the first call of the callee path that threw. */
  function AcceptFailure(s: State, o: AcceptOutcomes): (r: string)
    requires !AcceptSucceeds(s, o)
  {
    if StreamFor(s, o.media).Rejects? then o.media.reason
    else if o.remoteApplied.Rejects? then o.remoteApplied.reason
    else if o.answer.Rejects? then o.answer.reason
    else o.localApplied.reason
  }

  /** Answer ordering: the received offer is applied as the remote description before the answer
      is created, and the answer is sent only after it was applied as the local description, as
      the last call; the error is cleared, loading stops and `isInCall` is left alone. */
  lemma AcceptOfferSendsAnswerLast(s: State, offer: Sdp, o: AcceptOutcomes)
    requires AcceptSucceeds(s, o)
    ensures var stream := StreamFor(s, o.media).value;
      var answer := o.answer.value;
      HandleWebRTCOffer(s, offer, o)
        == s.(isLoading := false, error := None, localStream := Some(stream),
              peer := Some(Peer(Ids(stream.tracks), Some(answer), Some(offer), [], false)),
              calls := s.calls + AcquireSteps(s) + [NewPeerConnection] + AddTrackSteps(stream.tracks)
                       + [SetRemoteDescription(offer), CreateAnswer, SetLocalDescription(answer), Emit(Answer(answer))])
    ensures Outbox(HandleWebRTCOffer(s, offer, o).calls) == Outbox(s.calls) + [Answer(o.answer.value)]
  {
    var stream := StreamFor(s, o.media).value;
    var answer := o.answer.value;
    AcquiredForHandler(s, o.media);
    var a := SetupMediaStream(s.(isLoading := true, error := None), o.media);
    var c := ConnectTracks(a.state, stream);
    assert TryAcceptOffer(s, offer, o) == SendAnswer(c, offer, o);
    AnswerSentAt(c, offer, o);
    var x := AcquireSteps(s) + [NewPeerConnection] + AddTrackSteps(stream.tracks);
    assert c.calls == s.calls + x;
    var y := [SetRemoteDescription(offer), CreateAnswer, SetLocalDescription(answer)];
    assert c.calls + y + [Emit(Answer(answer))]
        == s.calls + x + [SetRemoteDescription(offer), CreateAnswer, SetLocalDescription(answer), Emit(Answer(answer))];
    assert Silent(x + y);
    SendAfterQuiet(s.calls, x + y, Answer(answer));
    assert s.calls + (x + y) + [Emit(Answer(answer))] == c.calls + y + [Emit(Answer(answer))];
  }

  /** When every call after the tracks are added resolves: the offer is applied remotely and the
      answer locally, and the answer is sent last. */
  lemma AnswerSentAt(c: State, offer: Sdp, o: AcceptOutcomes)
    requires c.peer.Some? && o.remoteApplied.Resolves? && o.answer.Resolves? && o.localApplied.Resolves?
    ensures SendAnswer(c, offer, o)
         == Attempt(c.(peer := Some(c.peer.value.(remoteDescription := Some(offer),
                                                  localDescription := Some(o.answer.value))),
                       calls := c.calls + [SetRemoteDescription(offer), CreateAnswer, SetLocalDescription(o.answer.value)]
                                + [Emit(Answer(o.answer.value))]),
                    None)
  {
    assert c.calls + [SetRemoteDescription(offer)] + [CreateAnswer] + [SetLocalDescription(o.answer.value)]
        == c.calls + [SetRemoteDescription(offer), CreateAnswer, SetLocalDescription(o.answer.value)];
  }


  /** The state a failed callee path leaves, failure by failure. */
  function AcceptFailedState(s: State, offer: Sdp, o: AcceptOutcomes): (r: State)
    requires !AcceptSucceeds(s, o)
  {
    if StreamFor(s, o.media).Rejects? then
      s.(error := Some(o.media.reason), isLoading := false, calls := s.calls + [GetUserMedia])
    else
      var stream := StreamFor(s, o.media).value;
      var x := AcquireSteps(s) + [NewPeerConnection] + AddTrackSteps(stream.tracks) + [SetRemoteDescription(offer)];
      var remote := if o.remoteApplied.Rejects? then None else Some(offer);
      var rest := if o.remoteApplied.Rejects? then []
                  else if o.answer.Rejects? then [CreateAnswer]
                  else [CreateAnswer, SetLocalDescription(o.answer.value)];
      s.(error := Some(AcceptFailure(s, o)), isLoading := false, localStream := Some(stream),
         peer := Some(Peer(Ids(stream.tracks), None, remote, [], false)),
         calls := s.calls + (x + rest))
  }

  lemma AcceptFailedAt(s: State, offer: Sdp, o: AcceptOutcomes)
    requires !AcceptSucceeds(s, o)
    ensures HandleWebRTCOffer(s, offer, o) == AcceptFailedState(s, offer, o)
  {
    var s0 := s.(isLoading := true, error := None);
    if StreamFor(s, o.media).Rejects? {
      MediaStreamReuse(s0, o.media);
      var a := SetupMediaStream(s0, o.media);
      assert TryAcceptOffer(s, offer, o) == Attempt(a.state, Some(o.media.reason));
    } else {
      AcceptFailedAfterMedia(s, offer, o);
    }
  }

  lemma AcceptFailedAfterMedia(s: State, offer: Sdp, o: AcceptOutcomes)
    requires !AcceptSucceeds(s, o) && StreamFor(s, o.media).Resolves?
    ensures HandleWebRTCOffer(s, offer, o) == AcceptFailedState(s, offer, o)
  {
    var stream := StreamFor(s, o.media).value;
    AcquiredForHandler(s, o.media);
    var a := SetupMediaStream(s.(isLoading := true, error := None), o.media);
    var c := ConnectTracks(a.state, stream);
    assert TryAcceptOffer(s, offer, o) == SendAnswer(c, offer, o);
    AnswerFailedAt(c, offer, o);
    var x := AcquireSteps(s) + [NewPeerConnection] + AddTrackSteps(stream.tracks);
    assert c.calls == s.calls + x;
    var rest := if o.remoteApplied.Rejects? then []
                else if o.answer.Rejects? then [CreateAnswer]
                else [CreateAnswer, SetLocalDescription(o.answer.value)];
    assert c.calls + ([SetRemoteDescription(offer)] + rest) == s.calls + (x + [SetRemoteDescription(offer)] + rest);
    var remote := if o.remoteApplied.Rejects? then None else Some(offer);
    assert (if o.remoteApplied.Rejects? then c.peer.value else c.peer.value.(remoteDescription := Some(offer)))
        == Peer(Ids(stream.tracks), None, remote, [], false);
  }

  /** A failure after the tracks are added: the first rejected call's message, the calls up to it,
      and the offer as remote description once it was applied. */
  lemma AnswerFailedAt(c: State, offer: Sdp, o: AcceptOutcomes)
    requires c.peer.Some? && !(o.remoteApplied.Resolves? && o.answer.Resolves? && o.localApplied.Resolves?)
    ensures SendAnswer(c, offer, o)
         == Attempt(c.(peer := Some(if o.remoteApplied.Rejects? then c.peer.value
                                    else c.peer.value.(remoteDescription := Some(offer))),
                       calls := c.calls + ([SetRemoteDescription(offer)]
                                           + (if o.remoteApplied.Rejects? then []
                                              else if o.answer.Rejects? then [CreateAnswer]
                                              else [CreateAnswer, SetLocalDescription(o.answer.value)]))),
                    Some(if o.remoteApplied.Rejects? then o.remoteApplied.reason
                         else if o.answer.Rejects? then o.answer.reason
                         else o.localApplied.reason))
  {
    if o.remoteApplied.Rejects? {
      assert c.calls + [SetRemoteDescription(offer)] + [] == c.calls + [SetRemoteDescription(offer)];
    } else if o.answer.Rejects? {
      assert c.calls + [SetRemoteDescription(offer)] + [CreateAnswer]
          == c.calls + ([SetRemoteDescription(offer)] + [CreateAnswer]);
    } else {
      assert c.calls + [SetRemoteDescription(offer)] + [CreateAnswer] + [SetLocalDescription(o.answer.value)]
          == c.calls + ([SetRemoteDescription(offer)] + [CreateAnswer, SetLocalDescription(o.answer.value)]);
    }
  }

  /** What `handleWebRTCOffer` sends: its answer when the callee path succeeds, else nothing. */
  lemma AcceptOfferSends(s: State, offer: Sdp, o: AcceptOutcomes)
    ensures Outbox(HandleWebRTCOffer(s, offer, o).calls)
         == Outbox(s.calls) + (if AcceptSucceeds(s, o) then [Answer(o.answer.value)] else [])
  {
    if AcceptSucceeds(s, o) { AcceptOfferSendsAnswerLast(s, offer, o); } else { AcceptOfferFailure(s, offer, o); }
  }

  /** A failing callee path sends nothing, shows the first failure, stops loading and, like the
      successful one, never changes `isInCall`; a refused capture creates no peer connection. */
  lemma AcceptOfferFailure(s: State, offer: Sdp, o: AcceptOutcomes)
    requires !AcceptSucceeds(s, o)
    ensures HandleWebRTCOffer(s, offer, o) == AcceptFailedState(s, offer, o)
    ensures QuietlyExtends(s.calls, AcceptFailedState(s, offer, o).calls)
    ensures Outbox(AcceptFailedState(s, offer, o).calls) == Outbox(s.calls)
    ensures var t := AcceptFailedState(s, offer, o);
      t == s.(error := Some(AcceptFailure(s, o)), isLoading := false,
              localStream := t.localStream, peer := t.peer, calls := t.calls)
    ensures StreamFor(s, o.media).Rejects? ==>
      AcceptFailedState(s, offer, o).peer == s.peer && AcceptFailedState(s, offer, o).localStream == None
  {
    AcceptFailedAt(s, offer, o);
    AcceptFailedQuiet(s, offer, o);
    QuietOutbox(s.calls, AcceptFailedState(s, offer, o).calls);
  }

  lemma AcceptFailedQuiet(s: State, offer: Sdp, o: AcceptOutcomes)
    requires !AcceptSucceeds(s, o)
    ensures QuietlyExtends(s.calls, AcceptFailedState(s, offer, o).calls)
  {
    if StreamFor(s, o.media).Rejects? {
      QuietAppend(s.calls, [GetUserMedia]);
    } else {
      var stream := StreamFor(s, o.media).value;
      var x := AcquireSteps(s) + [NewPeerConnection] + AddTrackSteps(stream.tracks) + [SetRemoteDescription(offer)];
      var rest := if o.remoteApplied.Rejects? then []
                  else if o.answer.Rejects? then [CreateAnswer]
                  else [CreateAnswer, SetLocalDescription(o.answer.value)];
      assert Silent(x + rest);
      QuietAppend(s.calls, x + rest);
    }
  }

  // ------------------------------------------------------------ inbound answer and candidate

  /** An inbound answer with no peer connection is a no-op. Otherwise it is applied as the remote
      description; a failure only shows the error and stops loading. Nothing is sent and the
      peer connection ref, the stream and `isInCall` are never replaced. */
  lemma InboundAnswerStaysLocal(s: State, answer: Sdp, applied: Call<()>)
    ensures var t := HandleWebRTCAnswer(s, answer, applied);
      && (s.peer.None? ==> t == s)
      && (s.peer.Some? ==> t.calls == s.calls + [SetRemoteDescription(answer)])
      && (s.peer.Some? && applied.Resolves? ==>
            t == s.(peer := Some(s.peer.value.(remoteDescription := Some(answer))), calls := t.calls))
      && (applied.Rejects? && s.peer.Some? ==>
            t == s.(error := Some(applied.reason), isLoading := false, calls := t.calls))
      && Outbox(t.calls) == Outbox(s.calls)
  {
    if s.peer.Some? {
      QuietAppend(s.calls, [SetRemoteDescription(answer)]);
      QuietOutbox(s.calls, s.calls + [SetRemoteDescription(answer)]);
    }
  }

  /** An inbound candidate with no peer connection is dropped: nothing is buffered and no peer
      connection is created. Otherwise it is added; a failure only shows the error and stops
      loading. Nothing is sent. */
  lemma InboundCandidateStaysLocal(s: State, candidate: Candidate, added: Call<()>)
    ensures var t := HandleWebRTCIceCandidate(s, candidate, added);
      && (s.peer.None? ==> t == s)
      && (s.peer.Some? ==> t.calls == s.calls + [AddIceCandidate(candidate)])
      && (s.peer.Some? && added.Resolves? ==>
            t == s.(peer := Some(s.peer.value.(remoteCandidates := s.peer.value.remoteCandidates + [candidate])),
                    calls := t.calls))
      && (s.peer.Some? && added.Rejects? ==>
            t == s.(error := Some(added.reason), isLoading := false, calls := t.calls))
      && Outbox(t.calls) == Outbox(s.calls)
  {
    if s.peer.Some? {
      QuietAppend(s.calls, [AddIceCandidate(candidate)]);
      QuietOutbox(s.calls, s.calls + [AddIceCandidate(candidate)]);
    }
  }

  // ------------------------------------------------------------ outbound candidates

  /** Each gathered candidate is sent exactly once; the end-of-candidates event (null) sends
      nothing; nothing else changes. */
  lemma GatheredCandidateSent(s: State, candidate: Option<Candidate>)
    ensures var t := OnIceCandidate(s, candidate);
      && Outbox(t.calls) == Outbox(s.calls) + (if candidate.Some? then [IceCandidate(candidate.value)] else [])
      && t == s.(calls := t.calls)
  {
    if candidate.Some? {
      SendAfterQuiet(s.calls, [], IceCandidate(candidate.value));
      assert s.calls + [] == s.calls;
    }
  }

  // ------------------------------------------------------------ toggles

  /** `isMuted` agrees with the first audio track (there being one). */
  predicate MuteInSync(s: State) {
    s.localStream.Some? && FirstOfKind(s.localStream.value.tracks, Audio).Some? ==>
      s.isMuted == !s.localStream.value.tracks[FirstOfKind(s.localStream.value.tracks, Audio).value].enabled
  }

  /** `isVideoEnabled` agrees with the first video track (there being one). */
  predicate VideoInSync(s: State) {
    s.localStream.Some? && FirstOfKind(s.localStream.value.tracks, Video).Some? ==>
      s.isVideoEnabled == s.localStream.value.tracks[FirstOfKind(s.localStream.value.tracks, Video).value].enabled
  }

  /** Mute: a no-op without a stream or an audio track; otherwise only the first audio track's flag
      flips, `isMuted` then says it is disabled, and no video track nor `isVideoEnabled` changes. */
  lemma ToggleMuteEffect(s: State)
    ensures var t := ToggleMute(s);
      && (s.localStream.None? || FirstOfKind(s.localStream.value.tracks, Audio).None? ==> t == s)
      && (s.localStream.Some? && FirstOfKind(s.localStream.value.tracks, Audio).Some? ==>
            var ts := s.localStream.value.tracks;
            var i := FirstOfKind(ts, Audio).value;
            && t.localStream.Some? && |t.localStream.value.tracks| == |ts|
            && t.localStream.value.tracks[i].enabled == !ts[i].enabled
            && (forall j | 0 <= j < |ts| && j != i :: t.localStream.value.tracks[j] == ts[j])
            && (forall j | 0 <= j < |ts| && ts[j].kind == Video :: t.localStream.value.tracks[j] == ts[j])
            && t.isMuted == !t.localStream.value.tracks[i].enabled
            && t == s.(localStream := t.localStream, isMuted := t.isMuted))
      && MuteInSync(t)
  {
    if s.localStream.Some? && FirstOfKind(s.localStream.value.tracks, Audio).Some? {
      ToggledTwice(s.localStream.value.tracks, Audio);
    }
  }

  /** Applying mute twice restores the track, and restores the whole state exactly when `isMuted`
      was in sync with it. */
  lemma ToggleMuteTwice(s: State)
    ensures ToggleMute(ToggleMute(s)).localStream == s.localStream
    ensures ToggleMute(ToggleMute(s)) == s <==> MuteInSync(s)
  {
    if s.localStream.Some? && FirstOfKind(s.localStream.value.tracks, Audio).Some? {
      ToggledTwice(s.localStream.value.tracks, Audio);
    }
  }

  /** Video: the mirror image of mute, with `isVideoEnabled` equal to the flipped flag. */
  lemma ToggleVideoEffect(s: State)
    ensures var t := ToggleVideo(s);
      && (s.localStream.None? || FirstOfKind(s.localStream.value.tracks, Video).None? ==> t == s)
      && (s.localStream.Some? && FirstOfKind(s.localStream.value.tracks, Video).Some? ==>
            var ts := s.localStream.value.tracks;
            var i := FirstOfKind(ts, Video).value;
            && t.localStream.Some? && |t.localStream.value.tracks| == |ts|
            && t.localStream.value.tracks[i].enabled == !ts[i].enabled
            && (forall j | 0 <= j < |ts| && j != i :: t.localStream.value.tracks[j] == ts[j])
            && (forall j | 0 <= j < |ts| && ts[j].kind == Audio :: t.localStream.value.tracks[j] == ts[j])
            && t.isVideoEnabled == t.localStream.value.tracks[i].enabled
            && t == s.(localStream := t.localStream, isVideoEnabled := t.isVideoEnabled))
      && VideoInSync(t)
  {
    if s.localStream.Some? && FirstOfKind(s.localStream.value.tracks, Video).Some? {
      ToggledTwice(s.localStream.value.tracks, Video);
    }
  }

  /** Toggling video twice restores the track, and restores the whole state exactly when
      `isVideoEnabled` was in sync with it. */
  lemma ToggleVideoTwice(s: State)
    ensures ToggleVideo(ToggleVideo(s)).localStream == s.localStream
    ensures ToggleVideo(ToggleVideo(s)) == s <==> VideoInSync(s)
  {
    if s.localStream.Some? && FirstOfKind(s.localStream.value.tracks, Video).Some? {
      ToggledTwice(s.localStream.value.tracks, Video);
    }
  }

  // ------------------------------------------------------------ endCall

  /** The calls of hanging up: close the peer connection if one is held, then stop every track. */
  function HangupSteps(s: State): (r: seq<Step>) {
    (if s.peer.Some? then [Close] else [])
    + (if s.localStream.Some? then StopSteps(s.localStream.value.tracks) else [])
  }

  /** The calls `endCall` makes: hang up, then request a fresh stream. */
  function EndCallSteps(s: State): (r: seq<Step>) {
    HangupSteps(s) + [GetUserMedia]
  }

  /** The first part of end call: the peer connection is closed but stays in its ref, every track
      of the previous stream is stopped, the remote video is cleared and the call is left. */
  lemma HangupEffect(s: State)
    ensures var h := Hangup(s);
      && h.peer == (if s.peer.Some? then Some(s.peer.value.(closed := true)) else None)
      && (s.localStream.None? ==> h.localStream.None?)
      && (s.localStream.Some? ==>
            h.localStream.Some? && |h.localStream.value.tracks| == |s.localStream.value.tracks|
            && forall k | 0 <= k < |s.localStream.value.tracks| ::
                 h.localStream.value.tracks[k] == s.localStream.value.tracks[k].(live := false))
      && h == s.(peer := h.peer, localStream := h.localStream, remoteShown := false, isInCall := false,
                 calls := h.calls)
      && h.calls == s.calls + HangupSteps(s)
  {
    HangupCalls(s);
  }

  /** End call: after hanging up a fresh stream is requested. If that request fails only the
      error is set, `isInCall` stays false and the stopped stream stays in its ref. Nothing is
      sent, and the mute and video flags keep their values. */
  lemma EndCallOutcome(s: State, media: Call<Stream>)
    ensures !EndCall(s, media).isInCall && !EndCall(s, media).remoteShown
    ensures EndCall(s, media).calls == s.calls + EndCallSteps(s)
    ensures Outbox(EndCall(s, media).calls) == Outbox(s.calls)
    ensures media.Resolves? ==>
      EndCall(s, media) == Hangup(s).(localStream := Some(media.value), error := None, calls := s.calls + EndCallSteps(s))
    ensures media.Rejects? ==>
      EndCall(s, media) == Hangup(s).(error := Some(PermissionMessage), calls := s.calls + EndCallSteps(s))
  {
    HangupEffect(s);
    LocalStreamRestart(Hangup(s), media);
    EndCallCalls(s, media);
    EndCallSilent(s);
    QuietAppend(s.calls, EndCallSteps(s));
    QuietOutbox(s.calls, s.calls + EndCallSteps(s));
  }

  lemma EndCallCalls(s: State, media: Call<Stream>)
    ensures EndCall(s, media).calls == s.calls + EndCallSteps(s)
  {
    HangupCalls(s);
    assert s.calls + HangupSteps(s) + [GetUserMedia] == s.calls + (HangupSteps(s) + [GetUserMedia]);
  }

  lemma HangupCalls(s: State)
    ensures Hangup(s).calls == s.calls + HangupSteps(s)
  {
    var s1 := match s.peer
      case None => s
      case Some(p) => Record(s, Close).(peer := Some(p.(closed := true)));
    assert s1.calls == s.calls + (if s.peer.Some? then [Close] else []);
  }

  lemma EndCallSilent(s: State)
    ensures Silent(EndCallSteps(s))
  {
    if s.localStream.Some? {
      TrackStepsSilent(s.localStream.value.tracks);
    }
  }
}
