/** The call controller of App.tsx as values: its state cells and refs form one `State`, and each
    handler is a function from the state before it to the state after it, given how each
    awaited browser or library call settled. */
module Session {
  import opened Results
  import opened Media
  import opened Signaling

  /** The message `setupLocalStream` and `checkPermissions` show when capture is refused. */
  const PermissionMessage: string :=
    "Camera and microphone permissions are required for this app to function."

  /** An RTCPeerConnection as far as the controller drives it: the tracks added to it, the
      descriptions applied to it, the remote candidates it accepted, and whether it is closed. */
  datatype Peer = Peer(
    senders: seq<TrackId>,
    localDescription: Option<Sdp>,
    remoteDescription: Option<Sdp>,
    remoteCandidates: seq<Candidate>,
    closed: bool)

  /** `new RTCPeerConnection()`. */
  const FreshPeer: Peer := Peer([], None, None, [], false)

  /** The six state cells, the two refs (`localStreamRef`, `peerConnectionRef`), whether a remote
      stream is shown, and the log of calls made so far (the socket's outbox is `Outbox(calls)`). */
  datatype State = State(
    isConnected: bool,
    isMuted: bool,
    isVideoEnabled: bool,
    isLoading: bool,
    error: Option<string>,
    isInCall: bool,
    localStream: Option<Stream>,
    peer: Option<Peer>,
    remoteShown: bool,
    calls: seq<Step>)

  /** The initial values of the `useState` cells and refs. */
  const Initial: State := State(false, false, true, false, None, false, None, None, false, [])

  /** How the calls of the caller path settle: getUserMedia, createOffer, setLocalDescription. */
  datatype StartOutcomes = StartOutcomes(media: Call<Stream>, offer: Call<Sdp>, applied: Call<()>)

  /** How the calls of the callee path settle: getUserMedia, setRemoteDescription, createAnswer,
      setLocalDescription. */
  datatype AcceptOutcomes = AcceptOutcomes(
    media: Call<Stream>, remoteApplied: Call<()>, answer: Call<Sdp>, localApplied: Call<()>)

  /** The state after `setupMediaStream` and the stream it returns or the error it rethrows. */
  datatype Acquired = Acquired(state: State, stream: Call<Stream>)

  /** The state at the end of a `try` block and the message of what it threw, if anything. */
  datatype Attempt = Attempt(state: State, thrown: Option<string>)

  function Record(s: State, c: Step): (r: State) {
    s.(calls := s.calls + [c])
  }

  function Send(s: State, m: Msg): (r: State) {
    Record(s, Emit(m))
  }

  function SetLocal(s: State, sdp: Sdp): (r: State)
    requires s.peer.Some?
  {
    s.(peer := Some(s.peer.value.(localDescription := Some(sdp))))
  }

  function SetRemote(s: State, sdp: Sdp): (r: State)
    requires s.peer.Some?
  {
    s.(peer := Some(s.peer.value.(remoteDescription := Some(sdp))))
  }

  // ---------------------------------------------------------------- handlers

  /** `setupLocalStream`: acquire a stream, store it and clear the error; on refusal show the
      permission message and keep the old ref. */
  function SetupLocalStream(s: State, media: Call<Stream>): (r: State) {
    var s1 := Record(s, GetUserMedia);
    match media
    case Resolves(stream) => s1.(localStream := Some(stream), error := None)
    case Rejects(_) => s1.(error := Some(PermissionMessage))
  }

  /** `checkPermissions`: acquire a throwaway stream and stop its tracks at once. */
  function CheckPermissions(s: State, probe: Call<Stream>): (r: State) {
    var s1 := Record(s, GetUserMedia);
    match probe
    case Resolves(stream) => s1.(calls := s1.calls + StopSteps(stream.tracks), error := None)
    case Rejects(_) => s1.(error := Some(PermissionMessage))
  }

  /** The mount effect's two captures: `setupLocalStream()`, then `checkPermissions()`, each run
      to completion. */
  function Mount(s: State, media: Call<Stream>, probe: Call<Stream>): (r: State) {
    CheckPermissions(SetupLocalStream(s, media), probe)
  }

  /** `handleError`. */
  function HandleError(s: State, reason: string): (r: State) {
    s.(error := Some(reason), isLoading := false)
  }

  /** `setupMediaStream`: the held stream if there is one, else a newly acquired one. */
  function SetupMediaStream(s: State, media: Call<Stream>): (r: Acquired) {
    if s.localStream.Some? then Acquired(s, Resolves(s.localStream.value))
    else
      var s1 := Record(s, GetUserMedia);
      match media
      case Resolves(stream) => Acquired(s1.(localStream := Some(stream)), Resolves(stream))
      case Rejects(reason) => Acquired(HandleError(s1, reason), Rejects(reason))
  }

  /** `peerConnectionRef.current = new RTCPeerConnection()` and `addTrack` for every track. */
  function ConnectTracks(s: State, stream: Stream): (r: State) {
    s.(peer := Some(FreshPeer.(senders := Ids(stream.tracks))),
       calls := s.calls + [NewPeerConnection] + AddTrackSteps(stream.tracks))
  }

  /** The `try` block of `handleStartCall`. */
  function TryStartCall(s: State, o: StartOutcomes): (r: Attempt) {
    var a := SetupMediaStream(s.(isLoading := true, error := None), o.media);
    match a.stream
    case Rejects(reason) => Attempt(a.state, Some(reason))
    case Resolves(stream) => SendOffer(ConnectTracks(a.state, stream), o)
  }

  /** The rest of that block once the tracks are added: create an offer, apply it locally, send it. */
  function SendOffer(s: State, o: StartOutcomes): (r: Attempt)
    requires s.peer.Some?
  {
    var s1 := Record(s, CreateOffer);
    match o.offer
    case Rejects(reason) => Attempt(s1, Some(reason))
    case Resolves(offer) =>
      var s2 := Record(s1, SetLocalDescription(offer));
      match o.applied
      case Rejects(reason) => Attempt(s2, Some(reason))
      case Resolves(_) => Attempt(Send(SetLocal(s2, offer), Offer(offer)), None)
  }

  /** The `catch` (route to `handleError`) and `finally` (`setIsLoading(false)`) of a handler. */
  function Settle(a: Attempt): (r: State) {
    (if a.thrown.Some? then HandleError(a.state, a.thrown.value) else a.state).(isLoading := false)
  }

  /** `handleStartCall`. */
  function HandleStartCall(s: State, o: StartOutcomes): (r: State) {
    Settle(TryStartCall(s, o))
  }

  /** The `try` block of `handleWebRTCOffer`. */
  function TryAcceptOffer(s: State, offer: Sdp, o: AcceptOutcomes): (r: Attempt) {
    var a := SetupMediaStream(s.(isLoading := true, error := None), o.media);
    match a.stream
    case Rejects(reason) => Attempt(a.state, Some(reason))
    case Resolves(stream) => SendAnswer(ConnectTracks(a.state, stream), offer, o)
  }

  /** The rest of that block once the tracks are added: apply the offer remotely, create an
      answer, apply it locally, send it. */
  function SendAnswer(s: State, offer: Sdp, o: AcceptOutcomes): (r: Attempt)
    requires s.peer.Some?
  {
    var s1 := Record(s, SetRemoteDescription(offer));
    match o.remoteApplied
    case Rejects(reason) => Attempt(s1, Some(reason))
    case Resolves(_) =>
      var s2 := Record(SetRemote(s1, offer), CreateAnswer);
      match o.answer
      case Rejects(reason) => Attempt(s2, Some(reason))
      case Resolves(answer) =>
        var s3 := Record(s2, SetLocalDescription(answer));
        match o.localApplied
        case Rejects(reason) => Attempt(s3, Some(reason))
        case Resolves(_) => Attempt(Send(SetLocal(s3, answer), Answer(answer)), None)
  }

  /** `handleWebRTCOffer`. */
  function HandleWebRTCOffer(s: State, offer: Sdp, o: AcceptOutcomes): (r: State) {
    Settle(TryAcceptOffer(s, offer, o))
  }

  /** `handleWebRTCAnswer`: `peerConnectionRef.current?.setRemoteDescription(answer)`. */
  function HandleWebRTCAnswer(s: State, answer: Sdp, applied: Call<()>): (r: State) {
    if s.peer.None? then s
    else
      var s1 := Record(s, SetRemoteDescription(answer));
      match applied
      case Resolves(_) => SetRemote(s1, answer)
      case Rejects(reason) => HandleError(s1, reason)
  }

  /** `handleWebRTCIceCandidate`: `addIceCandidate` only when a peer connection is held. */
  function HandleWebRTCIceCandidate(s: State, candidate: Candidate, added: Call<()>): (r: State) {
    if s.peer.None? then s
    else
      var s1 := Record(s, AddIceCandidate(candidate));
      match added
      case Resolves(_) =>
        s1.(peer := Some(s1.peer.value.(remoteCandidates := s1.peer.value.remoteCandidates + [candidate])))
      case Rejects(reason) => HandleError(s1, reason)
  }

  /** The `onicecandidate` callback both handlers install. */
  function OnIceCandidate(s: State, candidate: Option<Candidate>): (r: State) {
    match candidate
    case Some(c) => Send(s, IceCandidate(c))
    case None => s
  }

  /** The `ontrack` callback: the remote stream is shown. */
  function OnTrack(s: State): (r: State) {
    s.(remoteShown := true)
  }

  /** `toggleMute`. */
  function ToggleMute(s: State): (r: State) {
    match s.localStream
    case None => s
    case Some(stream) =>
      match FirstOfKind(stream.tracks, Audio)
      case None => s
      case Some(i) =>
        var ts := Toggled(stream.tracks, i);
        s.(localStream := Some(Stream(ts)), isMuted := !ts[i].enabled)
  }

  /** `toggleVideo`. */
  function ToggleVideo(s: State): (r: State) {
    match s.localStream
    case None => s
    case Some(stream) =>
      match FirstOfKind(stream.tracks, Video)
      case None => s
      case Some(i) =>
        var ts := Toggled(stream.tracks, i);
        s.(localStream := Some(Stream(ts)), isVideoEnabled := ts[i].enabled)
  }

  /** `startCall`. */
  function StartCall(s: State, o: StartOutcomes): (r: State) {
    HandleStartCall(s, o).(isInCall := true)
  }

  /** The first four statements of `endCall`: close, stop every track, clear the videos, leave the call. */
  function Hangup(s: State): (r: State) {
    var s1 := match s.peer
      case None => s
      case Some(p) => Record(s, Close).(peer := Some(p.(closed := true)));
    var s2 := match s1.localStream
      case None => s1
      case Some(stream) =>
        s1.(localStream := Some(Stream(Stopped(stream.tracks))), calls := s1.calls + StopSteps(stream.tracks));
    s2.(remoteShown := false, isInCall := false)
  }

  /** `endCall`: hang up, then restart the local stream. */
  function EndCall(s: State, media: Call<Stream>): (r: State) {
    SetupLocalStream(Hangup(s), media)
  }

  /** The socket's `connect` and `disconnect` listeners. */
  function OnConnect(s: State): (r: State) {
    s.(isConnected := true)
  }

  function OnDisconnect(s: State): (r: State) {
    s.(isConnected := false)
  }
}
