# vi-chat call controller, modelled in Dafny

The web client of vi-chat is a single React component, `App`. Apart from its markup, it holds
the call controller: six state cells (`isConnected`, `isMuted`, `isVideoEnabled`, `isLoading`,
`error`, `isInCall`), two refs (the local `MediaStream` and the `RTCPeerConnection`), and the
handlers that drive a one-to-one WebRTC call over a socket.io signalling channel. The caller's
start button runs `startCall`, which runs `handleStartCall`: capture the camera and microphone
(or reuse the stream already held), build a peer connection, add every track, create an offer,
apply it locally and send it as `webrtc_offer`. The callee runs `handleWebRTCOffer` when the
offer arrives: the same set-up, then apply the offer remotely, create an answer, apply it
locally and send it as `webrtc_answer`. Inbound answers and ICE candidates are applied to
whatever peer connection is held. Candidates the browser gathers are sent as
`webrtc_ice_candidate`. Mute and video buttons flip the first audio or video track. The end
button closes the connection, stops the tracks and asks for a fresh stream.

The project has three layers.

- `Session` (session.dfy) states each handler as a function from the state before it to the
  state after it. It takes as parameters how each awaited browser or library call settles
  (`Call<T>`: `Resolves(value)` or `Rejects(reason)`).
- `Controller.CallController` (controller.dfy) is the component as a class. It has the six cells
  and the two refs as fields, plus a ghost log `calls` of every library call and socket emit in
  order. Its methods perform the handlers' steps in the source's order, with loops for the
  `forEach` over tracks. Each method ends in the state the matching `Session` function gives.
  The socket's outbox is `Sent() == Outbox(calls)`.
- `Guarantees` (guarantees.dfy) proves what each handler promises. `Runs` (runs.dfy) proves
  what holds over any sequence of events, the mount effect included. `Media` (media.dfy) and `Signaling` (signaling.dfy)
  hold tracks, streams, messages and the call log.

Each handler is one atomic step, run to completion before the next event.

The model keeps these behaviours of the code, some of which a reader might not expect:

- `startCall` marks the call as entered even when `handleStartCall` failed.
- The callee never sets `isInCall`.
- A second start goes ahead. It builds a new peer connection over the old one.
- A failure part-way through the caller or callee path leaves the half-built peer connection
  in its ref.
- Inbound candidates that arrive before a peer connection exists are dropped. Nothing keeps
  them for later.
- `endCall` leaves the closed peer connection in its ref. If the new capture is refused, the
  stopped stream stays in its ref too.
- `endCall` keeps `isMuted` and `isVideoEnabled`, while the tracks of the new stream start
  enabled. `Runs.EndCallDesyncsMute` and `Runs.EndCallDesyncsVideo` each prove this on one run
  the buttons allow: mount, start the call, then mute (or turn the camera off), then end it.
  Afterwards the flag disagrees with the live track, and toggling twice no longer restores it.
- `isConnected` gates nothing. A start, a socket `start_call` or an inbound offer negotiates
  and sends while the socket is reported disconnected. `Guarantees.StartCallSendsOfferLast`
  and `Guarantees.AcceptOfferSendsAnswerLast` have no condition on `isConnected`.

## Model

| member | source | states |
|---|---|---|
| Controller.CallController.constructor | src/App.tsx:8-19 | starts with every cell at its `useState` initial value, both refs empty, nothing sent |
| Controller.CallController.SetupLocalStream | src/App.tsx:21-35 | performs `setupLocalStream` and ends in the state `Session.SetupLocalStream` gives |
| Guarantees.LocalStreamRestart | src/App.tsx:21-35 | always asks for a stream; a granted one replaces the held stream and clears the error; a refusal shows the fixed permission message and keeps the held stream; nothing else changes, nothing is sent |
| Controller.CallController.CheckPermissions | src/App.tsx:44-57 | performs the mount-time permission probe, stopping each probe track in a loop, and ends in the state `Session.CheckPermissions` gives |
| Guarantees.PermissionProbe | src/App.tsx:44-57 | the probe stream is never kept and each of its tracks is stopped; a success clears the error, a refusal shows the permission message; refs and flags are untouched, nothing is sent |
| Controller.CallController.Mount | src/App.tsx:58-59 | the mount effect: `setupLocalStream`, then `checkPermissions`, each to completion; ends in the state `Session.Mount` gives |
| Guarantees.MountEffect | src/App.tsx:21-59 | after mounting, a granted stream is held; the error is the one the later permission probe left; the calls made send nothing; no flag and no peer connection changes |
| Controller.CallController.HandleError | src/App.tsx:37-41 | shows the error's message and stops loading, nothing else |
| Controller.CallController.SetupMediaStream | src/App.tsx:76-92 | returns the stream `setupMediaStream` returns, or the error it rethrows, and ends in the state `Session.SetupMediaStream` gives |
| Guarantees.MediaStreamReuse | src/App.tsx:76-92 | a held stream is returned without calling getUserMedia and nothing changes; otherwise a granted stream is stored and returned; a refusal sets the error, stops loading, is rethrown and leaves the ref empty |
| Controller.CallController.ConnectTracks | src/App.tsx:100-104 | creates a peer connection and adds every track of the stream to it in order (a loop with invariants) |
| Controller.CallController.TryStartCall | src/App.tsx:95-119 | the `try` block of `handleStartCall`, step by step, with the message of the call that threw |
| Controller.CallController.SendOffer | src/App.tsx:117-119 | after the tracks are added: createOffer, setLocalDescription of that offer, then the offer is sent; stops at the first call that rejects and reports its message |
| Controller.CallController.HandleStartCall | src/App.tsx:94-125 | performs `handleStartCall`, catch and finally included, and ends in the state `Session.HandleStartCall` gives; `Sent()` gains the offer when the caller path succeeds, else nothing |
| Guarantees.StartCallSends | src/App.tsx:94-125 | `handleStartCall` sends exactly its offer when every call resolves, and nothing otherwise |
| Guarantees.StartCallSendsOfferLast | src/App.tsx:94-125 | when every call resolves: getUserMedia only if no stream is held, then a new peer connection, every track added, createOffer, setLocalDescription of that offer, and last the offer is sent; the offer is the only message sent; the error is cleared, loading stops, the peer connection holds the tracks and the offer as its local description |
| Guarantees.StartCallFailure | src/App.tsx:94-125 | when a call rejects: nothing is sent, the calls made are a silent extension of the log, the error is the first failure's message, loading stops, and only the error, loading flag, refs and log change; a refused capture creates no peer connection |
| Controller.CallController.TryAcceptOffer | src/App.tsx:130-155 | the `try` block of `handleWebRTCOffer`, step by step, with the message of the call that threw |
| Controller.CallController.SendAnswer | src/App.tsx:152-155 | after the tracks are added: setRemoteDescription of the offer, createAnswer, setLocalDescription of that answer, then the answer is sent; stops at the first call that rejects and reports its message |
| Controller.CallController.HandleWebRTCOffer | src/App.tsx:127-161 | performs `handleWebRTCOffer` and ends in the state `Session.HandleWebRTCOffer` gives; `Sent()` gains the answer when the callee path succeeds, else nothing |
| Guarantees.AcceptOfferSends | src/App.tsx:127-161 | `handleWebRTCOffer` sends exactly its answer when every call resolves, and nothing otherwise |
| Guarantees.AcceptOfferSendsAnswerLast | src/App.tsx:127-161 | when every call resolves: the new peer connection gets every track, the offer is applied as the remote description before the answer is created, the answer is applied locally and then sent, last; it is the only message sent; `isInCall` is untouched |
| Guarantees.AcceptOfferFailure | src/App.tsx:127-161 | when a call rejects: nothing is sent, the error is the first failure's message, loading stops, `isInCall` and the flags are untouched; a refused capture creates no peer connection |
| Controller.CallController.HandleWebRTCAnswer | src/App.tsx:163-171 | performs `handleWebRTCAnswer` and ends in the state `Session.HandleWebRTCAnswer` gives |
| Guarantees.InboundAnswerStaysLocal | src/App.tsx:163-171 | with no peer connection the answer is ignored; otherwise it is applied as the remote description, and a failure only sets the error and stops loading; nothing is sent, no ref, stream or `isInCall` changes |
| Controller.CallController.HandleWebRTCIceCandidate | src/App.tsx:173-183 | performs `handleWebRTCIceCandidate` and ends in the state `Session.HandleWebRTCIceCandidate` gives |
| Guarantees.InboundCandidateStaysLocal | src/App.tsx:173-183 | with no peer connection the candidate is dropped (no buffering, no peer connection created); otherwise it is added, and a failure only sets the error and stops loading; nothing is sent |
| Controller.CallController.OnIceCandidate | src/App.tsx:106-110 | the installed `onicecandidate` callback: `Sent()` gains a gathered candidate; the null one is ignored |
| Guarantees.GatheredCandidateSent | src/App.tsx:141-145 | a gathered candidate adds exactly one `webrtc_ice_candidate` message; the null end-of-candidates event sends nothing; nothing else changes |
| Runs.CandidatesSentOnce | src/App.tsx:106-110 | over any run of events, the candidates sent are exactly the non-null gathered ones, each once, in gathering order |
| Controller.CallController.OnTrack | src/App.tsx:112-115 | the `ontrack` callback: the remote stream becomes shown |
| Media.FirstOfKind | src/App.tsx:187 | the index of the first track of a kind: it has that kind, no earlier track has it, and there is none exactly when no track has it |
| Controller.CallController.ToggleMute | src/App.tsx:185-193 | flips the first audio track in place and sets `isMuted`; ends in the state `Session.ToggleMute` gives |
| Guarantees.ToggleMuteEffect | src/App.tsx:185-193 | no-op without a stream or an audio track; otherwise only the first audio track's `enabled` flips, `isMuted` then equals its negation, no video track and not `isVideoEnabled` changes |
| Guarantees.ToggleMuteTwice | src/App.tsx:185-193 | muting twice restores the stream, and restores the whole state exactly when `isMuted` agreed with the track |
| Media.ToggledTwice | src/App.tsx:189 | flipping the first track of a kind keeps it the first of its kind, flips only its flag, and a second flip restores the tracks |
| Controller.CallController.ToggleVideo | src/App.tsx:195-203 | flips the first video track in place and sets `isVideoEnabled`; ends in the state `Session.ToggleVideo` gives |
| Guarantees.ToggleVideoEffect | src/App.tsx:195-203 | no-op without a stream or a video track; otherwise only the first video track's `enabled` flips and `isVideoEnabled` equals it; audio and `isMuted` are untouched |
| Guarantees.ToggleVideoTwice | src/App.tsx:195-203 | toggling video twice restores the stream, and restores the whole state exactly when `isVideoEnabled` agreed with the track |
| Controller.CallController.StartCall | src/App.tsx:204-207 | runs `handleStartCall`, then enters the call; ends in the state `Session.StartCall` gives |
| Guarantees.StartCallEntersCall | src/App.tsx:204-207 | `isInCall` is true afterwards whether or not the caller path succeeded; on failure the error is the first failure's message; the rest is what `handleStartCall` left |
| Controller.CallController.StopTracks | src/App.tsx:210 | stops every track of the held stream in order, keeping the stream in its ref (a loop with invariants) |
| Controller.CallController.Hangup | src/App.tsx:209-213 | closes a held peer connection, stops every track, clears the remote video and leaves the call; ends in the state `Session.Hangup` gives |
| Controller.CallController.EndCall | src/App.tsx:208-215 | performs `endCall` and ends in the state `Session.EndCall` gives |
| Guarantees.HangupEffect | src/App.tsx:209-213 | the peer connection is closed but stays in its ref, every track of the old stream is stopped, the remote video is cleared, the call is left, nothing else changes |
| Guarantees.EndCallOutcome | src/App.tsx:208-215 | afterwards the call is left and the remote video cleared; the calls are close, stop each track, then getUserMedia; nothing is sent; a granted stream replaces the stopped one and clears the error; a refusal only sets the permission message |
| Controller.CallController.OnConnect | src/App.tsx:62 | the socket's `connect` listener sets `isConnected` |
| Controller.CallController.OnDisconnect | src/App.tsx:63 | the socket's `disconnect` listener clears `isConnected` |
| Runs.DescriptionsAppliedBeforeSent | src/App.tsx:94-161 | over any run, every offer and answer sent was passed to `setLocalDescription` by an earlier call |
| Runs.SentDescriptionIsLocal | src/App.tsx:94-161 | an offer or answer that an event sends is afterwards the local description of the held peer connection, so it is only sent once its `setLocalDescription` resolved |
| Runs.NeverLeftLoading | src/App.tsx:122-124 | over any run starting idle, the controller is never left loading between events |
| Runs.OnlyButtonsChangeInCall | src/App.tsx:127-161 | over any run with no start or end click, `isInCall` never changes; socket `start_call` and inbound offers never enter the call |
| Runs.ApplyInCall | src/App.tsx:204-213 | after any one event `isInCall` is true after a start click, false after an end click, and unchanged otherwise |
| Runs.CalleeNeverInCall | src/App.tsx:127-161 | from the initial state, a run of inbound events alone never enters the call |
| Runs.EndCallDesyncsMute | src/App.tsx:185-215 | mount, start the call, mute, then end the call with a fresh microphone: `isMuted` is then true but disagrees with the enabled track, and muting twice leaves it false |
| Runs.EndCallDesyncsVideo | src/App.tsx:195-215 | the same for video (mount, start, camera off, end): `isVideoEnabled` is then false for an enabled camera, and toggling twice leaves it true |
| Runs.PeerRefNeverCleared | src/App.tsx:209 | once a peer connection is held, no event ever empties the ref |
| Runs.ApplySends | src/App.tsx:65-68 | what one event sends is exactly what `Sends` lists for it: the offer or answer of a successful negotiation, a gathered candidate, else nothing |

## Left out

- The JSX markup and the `Control`, `VideoContainer` and `Header` components. They are
  presentation only, including which buttons are disabled.
- The socket.io transport: `io(SERVER_URL)` and connection management. The socket is assumed
  present, so every `socketRef.current?.emit` sends. Its `connect`/`disconnect` events are
  inputs.
- The internals of getUserMedia and RTCPeerConnection: permission prompts, SDP, ICE gathering
  and media flow. Each awaited call is an input that resolves or rejects.
  - `new RTCPeerConnection()`, `addTrack`, `close` and `track.stop()` are modelled as never
    throwing.
  - Descriptions are opaque strings.
  - Streams are sequences of tracks with an id, kind, `enabled` and live flag.
- The `srcObject` assignments on the video elements. Only whether a remote stream is shown is
  kept.
- Concurrency between handlers. Each handler runs to completion as one step, so interleavings
  at `await` points are not modelled. Neither is React's batching of `setState`.
- Mount: the race between `setupLocalStream` and `checkPermissions`. `Session.Mount` runs
  them one after the other, in the order they are started. That order decides which of
  their error updates comes last.
- The unmount cleanup (src/App.tsx:70-73).
- `console.error` in `handleError`.
- The `ontrack` event's stream contents.
