/** Runs of the controller: any sequence of user clicks, socket events and peer connection
    callbacks, each handled to completion before the next, and what holds across all of them. */
module Runs {
  import opened Results
  import opened Media
  import opened Signaling
  import opened Session
  import opened Guarantees

  /** What can reach the controller, with how its awaited calls settle. */
  datatype Event =
    | Mounted(media: Call<Stream>, probe: Call<Stream>)    // the mount effect's two captures
    | StartClicked(start: StartOutcomes)                    // the start button: `startCall`
    | StartSignalled(start: StartOutcomes)                  // socket `start_call`: `handleStartCall`
    | OfferReceived(offer: Sdp, accept: AcceptOutcomes)     // socket `webrtc_offer`
    | AnswerReceived(answer: Sdp, applied: Call<()>)        // socket `webrtc_answer`
    | CandidateReceived(candidate: Candidate, added: Call<()>)  // socket `webrtc_ice_candidate`
    | CandidateGathered(gathered: Option<Candidate>)       // `onicecandidate`
    | TrackArrived                                          // `ontrack`
    | MuteClicked
    | VideoClicked
    | EndClicked(media: Call<Stream>)                       // the end button: `endCall`
    | SocketConnected
    | SocketDisconnected

  function Apply(s: State, e: Event): (r: State) {
    match e
    case Mounted(media, probe) => Mount(s, media, probe)
    case StartClicked(o) => StartCall(s, o)
    case StartSignalled(o) => HandleStartCall(s, o)
    case OfferReceived(offer, o) => HandleWebRTCOffer(s, offer, o)
    case AnswerReceived(answer, applied) => HandleWebRTCAnswer(s, answer, applied)
    case CandidateReceived(c, added) => HandleWebRTCIceCandidate(s, c, added)
    case CandidateGathered(c) => OnIceCandidate(s, c)
    case TrackArrived => OnTrack(s)
    case MuteClicked => ToggleMute(s)
    case VideoClicked => ToggleVideo(s)
    case EndClicked(media) => EndCall(s, media)
    case SocketConnected => OnConnect(s)
    case SocketDisconnected => OnDisconnect(s)
  }

  function Run(s: State, evs: seq<Event>): (r: State)
    decreases |evs|
  {
    if evs == [] then s else Run(Apply(s, evs[0]), evs[1..])
  }

  /** What one event sends on the socket, stated independently of the handlers' bodies. */
  function Sends(s: State, e: Event): (r: seq<Msg>) {
    match e
    case StartClicked(o) => if StartSucceeds(s, o) then [Offer(o.offer.value)] else []
    case StartSignalled(o) => if StartSucceeds(s, o) then [Offer(o.offer.value)] else []
    case OfferReceived(_, o) => if AcceptSucceeds(s, o) then [Answer(o.answer.value)] else []
    case CandidateGathered(c) => if c.Some? then [IceCandidate(c.value)] else []
    case _ => []
  }

  /** The non-null candidates gathered in a run, in order. */
  function Gathered(evs: seq<Event>): (r: seq<Candidate>) {
    if evs == [] then []
    else (if evs[0].CandidateGathered? && evs[0].gathered.Some? then [evs[0].gathered.value] else [])
         + Gathered(evs[1..])
  }

  /** What the run lemmas need of `handleStartCall`: loading stops, `isInCall` is kept, and a held
      peer connection is never dropped (what it sends is `StartCallSends`). */
  lemma StartFacts(s: State, o: StartOutcomes)
    ensures !HandleStartCall(s, o).isLoading
    ensures HandleStartCall(s, o).isInCall == s.isInCall
    ensures s.peer.Some? ==> HandleStartCall(s, o).peer.Some?
  {
    if StartSucceeds(s, o) { StartCallSendsOfferLast(s, o); } else { StartCallFailure(s, o); }
  }

  /** The same of `handleWebRTCOffer` (what it sends is `AcceptOfferSends`). */
  lemma AcceptFacts(s: State, offer: Sdp, o: AcceptOutcomes)
    ensures !HandleWebRTCOffer(s, offer, o).isLoading
    ensures HandleWebRTCOffer(s, offer, o).isInCall == s.isInCall
    ensures s.peer.Some? ==> HandleWebRTCOffer(s, offer, o).peer.Some?
  {
    if AcceptSucceeds(s, o) { AcceptOfferSendsAnswerLast(s, offer, o); } else { AcceptOfferFailure(s, offer, o); }
  }

  /** The same of `endCall`, which sends nothing and keeps the closed peer connection. */
  lemma EndFacts(s: State, media: Call<Stream>)
    ensures !EndCall(s, media).isInCall
    ensures EndCall(s, media).isLoading == s.isLoading
    ensures s.peer.Some? ==> EndCall(s, media).peer.Some?
    ensures Outbox(EndCall(s, media).calls) == Outbox(s.calls)
  {
    HangupEffect(s);
    EndCallOutcome(s, media);
  }

  /** The same of the mount effect, which sends nothing and touches no flag and no peer connection. */
  lemma MountFacts(s: State, media: Call<Stream>, probe: Call<Stream>)
    ensures var t := Mount(s, media, probe);
      && t.isLoading == s.isLoading && t.isInCall == s.isInCall && t.peer == s.peer
      && Outbox(t.calls) == Outbox(s.calls)
    ensures AppliedBeforeSent(s.calls) ==> AppliedBeforeSent(Mount(s, media, probe).calls)
  {
    MountEffect(s, media, probe);
    if AppliedBeforeSent(s.calls) {
      AppliedQuiet(s.calls, Mount(s, media, probe).calls);
    }
  }

  lemma ApplySends(s: State, e: Event)
    ensures Outbox(Apply(s, e).calls) == Outbox(s.calls) + Sends(s, e)
  {
    assert Outbox(s.calls) + [] == Outbox(s.calls);
    match e
    case Mounted(media, probe) => MountFacts(s, media, probe);
    case StartClicked(o) => StartCallSends(s, o);
    case StartSignalled(o) => StartCallSends(s, o);
    case OfferReceived(offer, o) => AcceptOfferSends(s, offer, o);
    case AnswerReceived(answer, applied) => InboundAnswerStaysLocal(s, answer, applied);
    case CandidateReceived(c, added) => InboundCandidateStaysLocal(s, c, added);
    case CandidateGathered(c) => GatheredCandidateSent(s, c);
    case EndClicked(media) => EndFacts(s, media);
    case _ =>
  }

  /** Outbound candidates: over any run, the candidates sent are exactly the non-null gathered
      ones, each once, in the order gathered; no other event sends a candidate. */
  lemma {:induction false} CandidatesSentOnce(s: State, evs: seq<Event>)
    ensures Candidates(Outbox(Run(s, evs).calls)) == Candidates(Outbox(s.calls)) + Gathered(evs)
    decreases |evs|
  {
    if evs != [] {
      CandidatesSentOnce(Apply(s, evs[0]), evs[1..]);
      ApplySendsCandidates(s, evs[0]);
    }
  }

  /** One event adds to the candidates sent exactly the candidate it gathered, if any. */
  lemma ApplySendsCandidates(s: State, e: Event)
    ensures Candidates(Outbox(Apply(s, e).calls))
         == Candidates(Outbox(s.calls)) + Gathered([e])
  {
    ApplySends(s, e);
    CandidatesAppend(Outbox(s.calls), Sends(s, e));
    SendsCandidates(s, e);
  }

  lemma SendsCandidates(s: State, e: Event)
    ensures Candidates(Sends(s, e)) == Gathered([e])
  {
    assert [e][1..] == [];
  }

  /** The calls of one event extend the log and only ever send a description right after the
      call passing it to `setLocalDescription`. */
  lemma ApplyKeepsApplied(s: State, e: Event)
    requires AppliedBeforeSent(s.calls)
    ensures AppliedBeforeSent(Apply(s, e).calls)
  {
    match e
    case Mounted(media, probe) => MountFacts(s, media, probe);
    case StartClicked(o) => StartKeepsApplied(s, o);
    case StartSignalled(o) => StartKeepsApplied(s, o);
    case OfferReceived(offer, o) => AcceptKeepsApplied(s, offer, o);
    case AnswerReceived(answer, applied) => AnswerKeepsApplied(s, answer, applied);
    case CandidateReceived(c, added) => CandidateKeepsApplied(s, c, added);
    case CandidateGathered(c) =>
      if c.Some? { AppliedThenCandidate(s.calls, c.value); }
    case EndClicked(media) => EndKeepsApplied(s, media);
    case _ =>
  }

  lemma AcceptKeepsApplied(s: State, offer: Sdp, o: AcceptOutcomes)
    requires AppliedBeforeSent(s.calls)
    ensures AppliedBeforeSent(HandleWebRTCOffer(s, offer, o).calls)
  {
    if AcceptSucceeds(s, o) {
      AnswerSentAfterApplied(s, offer, o);
    } else {
      AcceptOfferFailure(s, offer, o);
      AppliedQuiet(s.calls, HandleWebRTCOffer(s, offer, o).calls);
    }
  }

  lemma AnswerSentAfterApplied(s: State, offer: Sdp, o: AcceptOutcomes)
    requires AppliedBeforeSent(s.calls) && AcceptSucceeds(s, o)
    ensures AppliedBeforeSent(HandleWebRTCOffer(s, offer, o).calls)
  {
    AcceptOfferSendsAnswerLast(s, offer, o);
    AnsweredCalls(s.calls, AcquireSteps(s), StreamFor(s, o.media).value.tracks, offer, o.answer.value,
                  HandleWebRTCOffer(s, offer, o).calls);
  }

  /** The callee's calls, on the log alone: the answer is passed to `setLocalDescription` right
      before it is sent. */
  lemma AnsweredCalls(a: seq<Step>, acquire: seq<Step>, ts: seq<Track>, offer: Sdp, answer: Sdp, calls: seq<Step>)
    requires AppliedBeforeSent(a) && Silent(acquire)
    requires calls == a + acquire + [NewPeerConnection] + AddTrackSteps(ts)
                      + [SetRemoteDescription(offer), CreateAnswer, SetLocalDescription(answer), Emit(Answer(answer))]
    ensures AppliedBeforeSent(calls)
  {
    var x := acquire + [NewPeerConnection] + AddTrackSteps(ts) + [SetRemoteDescription(offer), CreateAnswer];
    assert Silent(x);
    assert calls == a + x + [SetLocalDescription(Answer(answer).sdp), Emit(Answer(answer))];
    AppliedThenSent(a, x, Answer(answer));
  }

  lemma AnswerKeepsApplied(s: State, answer: Sdp, applied: Call<()>)
    requires AppliedBeforeSent(s.calls)
    ensures AppliedBeforeSent(HandleWebRTCAnswer(s, answer, applied).calls)
  {
    InboundAnswerStaysLocal(s, answer, applied);
    if s.peer.Some? {
      QuietAppend(s.calls, [SetRemoteDescription(answer)]);
      AppliedQuiet(s.calls, HandleWebRTCAnswer(s, answer, applied).calls);
    }
  }

  lemma CandidateKeepsApplied(s: State, c: Candidate, added: Call<()>)
    requires AppliedBeforeSent(s.calls)
    ensures AppliedBeforeSent(HandleWebRTCIceCandidate(s, c, added).calls)
  {
    InboundCandidateStaysLocal(s, c, added);
    if s.peer.Some? {
      QuietAppend(s.calls, [AddIceCandidate(c)]);
      AppliedQuiet(s.calls, HandleWebRTCIceCandidate(s, c, added).calls);
    }
  }

  lemma EndKeepsApplied(s: State, media: Call<Stream>)
    requires AppliedBeforeSent(s.calls)
    ensures AppliedBeforeSent(EndCall(s, media).calls)
  {
    EndCallCalls(s, media);
    EndCallSilent(s);
    QuietCalls(s.calls, EndCallSteps(s), EndCall(s, media).calls);
  }

  /** Calls that send nothing keep `AppliedBeforeSent`. */
  lemma QuietCalls(a: seq<Step>, x: seq<Step>, calls: seq<Step>)
    requires AppliedBeforeSent(a) && Silent(x) && calls == a + x
    ensures AppliedBeforeSent(calls)
  {
    QuietAppend(a, x);
    AppliedQuiet(a, calls);
  }

  /** The caller's calls, on the log alone: the offer is passed to `setLocalDescription` right
      before it is sent. */
  lemma OfferedCalls(a: seq<Step>, acquire: seq<Step>, ts: seq<Track>, offer: Sdp, calls: seq<Step>)
    requires AppliedBeforeSent(a) && Silent(acquire)
    requires calls == a + acquire + [NewPeerConnection] + AddTrackSteps(ts)
                      + [CreateOffer, SetLocalDescription(offer), Emit(Offer(offer))]
    ensures AppliedBeforeSent(calls)
  {
    var x := acquire + [NewPeerConnection] + AddTrackSteps(ts) + [CreateOffer];
    assert Silent(x);
    assert calls == a + x + [SetLocalDescription(Offer(offer).sdp), Emit(Offer(offer))];
    AppliedThenSent(a, x, Offer(offer));
  }

  lemma StartKeepsApplied(s: State, o: StartOutcomes)
    requires AppliedBeforeSent(s.calls)
    ensures AppliedBeforeSent(HandleStartCall(s, o).calls)
  {
    if StartSucceeds(s, o) {
      StartCallSendsOfferLast(s, o);
      OfferedCalls(s.calls, AcquireSteps(s), StreamFor(s, o.media).value.tracks, o.offer.value,
                   HandleStartCall(s, o).calls);
    } else {
      StartCallFailure(s, o);
      AppliedQuiet(s.calls, HandleStartCall(s, o).calls);
    }
  }

  /** Over any run, every offer and every answer sent was passed to `setLocalDescription` by an
      earlier call (`SentDescriptionIsLocal` adds that the call resolved). */
  lemma {:induction false} DescriptionsAppliedBeforeSent(s: State, evs: seq<Event>)
    requires AppliedBeforeSent(s.calls)
    ensures AppliedBeforeSent(Run(s, evs).calls)
    decreases |evs|
  {
    if evs != [] {
      ApplyKeepsApplied(s, evs[0]);
      DescriptionsAppliedBeforeSent(Apply(s, evs[0]), evs[1..]);
    }
  }

  /** An offer or answer an event sends is, once the event is handled, the local description of
      the held peer connection: it is sent only after its `setLocalDescription` resolved. */
  lemma SentDescriptionIsLocal(s: State, e: Event)
    ensures forall m | m in Sends(s, e) && !m.IceCandidate? ::
      Apply(s, e).peer.Some? && Apply(s, e).peer.value.localDescription == Some(m.sdp)
  {
    match e
    case StartClicked(o) => if StartSucceeds(s, o) { OfferIsLocal(s, o); }
    case StartSignalled(o) => if StartSucceeds(s, o) { OfferIsLocal(s, o); }
    case OfferReceived(offer, o) => if AcceptSucceeds(s, o) { AnswerIsLocal(s, offer, o); }
    case _ =>
  }

  lemma OfferIsLocal(s: State, o: StartOutcomes)
    requires StartSucceeds(s, o)
    ensures HandleStartCall(s, o).peer.Some?
    ensures HandleStartCall(s, o).peer.value.localDescription == Some(o.offer.value)
  {
    StartCallSendsOfferLast(s, o);
  }

  lemma AnswerIsLocal(s: State, offer: Sdp, o: AcceptOutcomes)
    requires AcceptSucceeds(s, o)
    ensures HandleWebRTCOffer(s, offer, o).peer.Some?
    ensures HandleWebRTCOffer(s, offer, o).peer.value.localDescription == Some(o.answer.value)
  {
    AcceptOfferSendsAnswerLast(s, offer, o);
  }

  lemma ApplySettles(s: State, e: Event)
    requires !s.isLoading
    ensures !Apply(s, e).isLoading
  {
    match e
    case Mounted(media, probe) => MountFacts(s, media, probe);
    case StartClicked(o) => StartFacts(s, o);
    case StartSignalled(o) => StartFacts(s, o);
    case OfferReceived(offer, o) => AcceptFacts(s, offer, o);
    case EndClicked(media) => EndFacts(s, media);
    case _ =>
  }

  /** Handlers run to completion, so between events the controller is never left loading. */
  lemma {:induction false} NeverLeftLoading(s: State, evs: seq<Event>)
    requires !s.isLoading
    ensures !Run(s, evs).isLoading
    decreases |evs|
  {
    if evs != [] {
      ApplySettles(s, evs[0]);
      NeverLeftLoading(Apply(s, evs[0]), evs[1..]);
    }
  }

  /** The start button enters the call, the end button leaves it, and no other event touches it. */
  lemma ApplyInCall(s: State, e: Event)
    ensures Apply(s, e).isInCall
         == (if e.StartClicked? then true else if e.EndClicked? then false else s.isInCall)
  {
    match e
    case Mounted(media, probe) => MountFacts(s, media, probe);
    case StartSignalled(o) => StartFacts(s, o);
    case OfferReceived(offer, o) => AcceptFacts(s, offer, o);
    case EndClicked(media) => EndFacts(s, media);
    case _ =>
  }

  /** Only the start and end buttons change `isInCall`: an inbound offer or a socket `start_call`
      negotiates a connection but never enters the call. */
  lemma {:induction false} OnlyButtonsChangeInCall(s: State, evs: seq<Event>)
    requires forall k | 0 <= k < |evs| :: !evs[k].StartClicked? && !evs[k].EndClicked?
    ensures Run(s, evs).isInCall == s.isInCall
    decreases |evs|
  {
    if evs != [] {
      ApplyInCall(s, evs[0]);
      assert forall k | 0 <= k < |evs[1..]| :: evs[1..][k] == evs[k + 1];
      OnlyButtonsChangeInCall(Apply(s, evs[0]), evs[1..]);
    }
  }

  /** A callee that mounts and then answers offers and candidates from the initial state is never
      in a call. */
  lemma CalleeNeverInCall(evs: seq<Event>)
    requires forall k | 0 <= k < |evs| :: !evs[k].StartClicked? && !evs[k].EndClicked?
    ensures !Run(Initial, evs).isInCall
  {
    OnlyButtonsChangeInCall(Initial, evs);
  }

  lemma ApplyKeepsPeer(s: State, e: Event)
    requires s.peer.Some?
    ensures Apply(s, e).peer.Some?
  {
    match e
    case Mounted(media, probe) => MountFacts(s, media, probe);
    case StartClicked(o) => StartFacts(s, o);
    case StartSignalled(o) => StartFacts(s, o);
    case OfferReceived(offer, o) => AcceptFacts(s, offer, o);
    case EndClicked(media) => EndFacts(s, media);
    case _ =>
  }

  /** Once a peer connection is held the ref is never cleared: `endCall` only closes it. */
  lemma {:induction false} PeerRefNeverCleared(s: State, evs: seq<Event>)
    requires s.peer.Some?
    ensures Run(s, evs).peer.Some?
    decreases |evs|
  {
    if evs != [] {
      ApplyKeepsPeer(s, evs[0]);
      PeerRefNeverCleared(Apply(s, evs[0]), evs[1..]);
    }
  }

  /** The caller path with a stream already held: the new capture is never asked for, the offer
      is created, applied and sent. */
  const CallStarts: StartOutcomes := StartOutcomes(Rejects("not asked"), Resolves("offer"), Resolves(()))

  lemma RunOfFour(s: State, a: Event, b: Event, c: Event, d: Event)
    ensures Run(s, [a, b, c, d]) == Apply(Apply(Apply(Apply(s, a), b), c), d)
  {
    var s1, s2, s3 := Apply(s, a), Apply(Apply(s, a), b), Apply(Apply(Apply(s, a), b), c);
    assert [d][1..] == [];
    assert Run(s3, [d]) == Apply(s3, d);
    assert [c, d][1..] == [d];
    assert Run(s2, [c, d]) == Run(s3, [d]);
    assert [b, c, d][1..] == [c, d];
    assert Run(s1, [b, c, d]) == Run(s2, [c, d]);
    assert [a, b, c, d][1..] == [b, c, d];
    assert Run(s, [a, b, c, d]) == Run(s1, [b, c, d]);
  }

  /** What `getUserMedia({video: true, audio: true})` grants: one live microphone and one live
      camera, both enabled; `Recaptured` is the pair a later capture grants. */
  const Captured: Stream := Stream([Track(0, Audio, true, true), Track(1, Video, true, true)])
  const Recaptured: Stream := Stream([Track(2, Audio, true, true), Track(3, Video, true, true)])

  /** Mounting with a stream and starting the call holds that stream, in the call, flags unchanged. */
  lemma MountedThenStarted(stream: Stream, probe: Call<Stream>)
    ensures var started := StartCall(Mount(Initial, Resolves(stream), probe), CallStarts);
      && started.isInCall && started.localStream == Some(stream)
      && !started.isMuted && started.isVideoEnabled
  {
    MountEffect(Initial, Resolves(stream), probe);
    StartCallSendsOfferLast(Mount(Initial, Resolves(stream), probe), CallStarts);
  }

  /** Muting the held microphone and ending the call with a fresh capture leaves `isMuted` true
      against the new, enabled microphone. */
  lemma MuteThenEnd(s: State)
    requires s.localStream == Some(Captured) && !s.isMuted
    ensures var t := EndCall(ToggleMute(s), Resolves(Recaptured));
      && t.isMuted && !MuteInSync(t) && !ToggleMute(ToggleMute(t)).isMuted
  {
    assert FirstOfKind(Captured.tracks, Audio) == Some(0);
    var muted := ToggleMute(s);
    assert muted.isMuted;
    var t := EndCall(muted, Resolves(Recaptured));
    EndCallOutcome(muted, Resolves(Recaptured));
    HangupEffect(muted);
    assert t.localStream == Some(Recaptured) && t.isMuted;
    assert FirstOfKind(Recaptured.tracks, Audio) == Some(0);
    ToggleMuteTwice(t);
    ToggleMuteEffect(ToggleMute(t));
  }

  /** Turning the held camera off and ending the call with a fresh capture leaves
      `isVideoEnabled` false against the new, enabled camera. */
  lemma VideoThenEnd(s: State)
    requires s.localStream == Some(Captured) && s.isVideoEnabled
    ensures var t := EndCall(ToggleVideo(s), Resolves(Recaptured));
      && !t.isVideoEnabled && !VideoInSync(t) && ToggleVideo(ToggleVideo(t)).isVideoEnabled
  {
    assert FirstOfKind(Captured.tracks, Video) == Some(1);
    var off := ToggleVideo(s);
    assert !off.isVideoEnabled;
    var t := EndCall(off, Resolves(Recaptured));
    EndCallOutcome(off, Resolves(Recaptured));
    HangupEffect(off);
    assert t.localStream == Some(Recaptured) && !t.isVideoEnabled;
    assert FirstOfKind(Recaptured.tracks, Video) == Some(1);
    ToggleVideoTwice(t);
    ToggleVideoEffect(ToggleVideo(t));
  }

  /** `endCall` keeps `isMuted` while the fresh microphone starts enabled. A run the buttons
      allow: mount with a camera and a microphone, start the call (which shows the mute and end
      buttons), mute, end the call with a fresh capture. After it `isMuted` is true and out of
      sync with the live microphone, and muting twice turns `isMuted` false. */
  lemma EndCallDesyncsMute()
    ensures var t := Run(Initial, [Mounted(Resolves(Captured), Resolves(Captured)),
                                   StartClicked(CallStarts), MuteClicked, EndClicked(Resolves(Recaptured))]);
      && t.isMuted && !MuteInSync(t) && !ToggleMute(ToggleMute(t)).isMuted
  {
    RunOfFour(Initial, Mounted(Resolves(Captured), Resolves(Captured)),
              StartClicked(CallStarts), MuteClicked, EndClicked(Resolves(Recaptured)));
    MountedThenStarted(Captured, Resolves(Captured));
    MuteThenEnd(StartCall(Mount(Initial, Resolves(Captured), Resolves(Captured)), CallStarts));
  }

  /** The same for video: start the call, turn the camera off, end the call with a fresh capture,
      and afterwards `isVideoEnabled` is false for an enabled camera; toggling twice turns it true. */
  lemma EndCallDesyncsVideo()
    ensures var t := Run(Initial, [Mounted(Resolves(Captured), Resolves(Captured)),
                                   StartClicked(CallStarts), VideoClicked, EndClicked(Resolves(Recaptured))]);
      && !t.isVideoEnabled && !VideoInSync(t) && ToggleVideo(ToggleVideo(t)).isVideoEnabled
  {
    RunOfFour(Initial, Mounted(Resolves(Captured), Resolves(Captured)),
              StartClicked(CallStarts), VideoClicked, EndClicked(Resolves(Recaptured)));
    MountedThenStarted(Captured, Resolves(Captured));
    VideoThenEnd(StartCall(Mount(Initial, Resolves(Captured), Resolves(Captured)), CallStarts));
  }
}
