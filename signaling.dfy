/** Messages sent over the socket and the ordered log of calls the controller makes into the
    browser (getUserMedia, RTCPeerConnection, MediaStreamTrack) and the socket (`emit`). */
module Signaling {
  import opened Media

  /** An opaque session description (the `sdp` of an offer or an answer). */
  type Sdp = string

  /** An opaque ICE candidate descriptor. */
  type Candidate = string

  /** The three events emitted on the socket: `webrtc_offer`, `webrtc_answer`, `webrtc_ice_candidate`. */
  datatype Msg = Offer(sdp: Sdp) | Answer(sdp: Sdp) | IceCandidate(candidate: Candidate)

  /** One call, in the order made. `Emit` is `socket.emit`; the rest are library calls. */
  datatype Step =
    | GetUserMedia
    | NewPeerConnection
    | AddTrack(track: TrackId)
    | CreateOffer
    | CreateAnswer
    | SetLocalDescription(sdp: Sdp)
    | SetRemoteDescription(sdp: Sdp)
    | AddIceCandidate(candidate: Candidate)
    | Close
    | StopTrack(track: TrackId)
    | Emit(msg: Msg)

  /** What `stream.getTracks().forEach(t => pc.addTrack(t, stream))` calls. */
  function AddTrackSteps(ts: seq<Track>): (r: seq<Step>) {
    seq(|ts|, k requires 0 <= k < |ts| => AddTrack(ts[k].id))
  }

  /** What `stream.getTracks().forEach(t => t.stop())` calls. */
  function StopSteps(ts: seq<Track>): (r: seq<Step>) {
    seq(|ts|, k requires 0 <= k < |ts| => StopTrack(ts[k].id))
  }

  /** Walking the tracks front to back adds one step per track. */
  lemma StepsOneMore(ts: seq<Track>, i: nat)
    requires i < |ts|
    ensures AddTrackSteps(ts[..i + 1]) == AddTrackSteps(ts[..i]) + [AddTrack(ts[i].id)]
    ensures StopSteps(ts[..i + 1]) == StopSteps(ts[..i]) + [StopTrack(ts[i].id)]
  {
    assert AddTrackSteps(ts[..i + 1]) == AddTrackSteps(ts[..i]) + [AddTrack(ts[i].id)];
    assert StopSteps(ts[..i + 1]) == StopSteps(ts[..i]) + [StopTrack(ts[i].id)];
  }

  /** The messages sent on the socket, in order. */
  function Outbox(calls: seq<Step>): (r: seq<Msg>) {
    if calls == [] then []
    else (if calls[0].Emit? then [calls[0].msg] else []) + Outbox(calls[1..])
  }

  /** The candidate payloads among some messages, in order. */
  function Candidates(msgs: seq<Msg>): (r: seq<Candidate>) {
    if msgs == [] then []
    else (if msgs[0].IceCandidate? then [msgs[0].candidate] else []) + Candidates(msgs[1..])
  }

  /** No call in `x` sends anything. */
  predicate Silent(x: seq<Step>) {
    forall k | 0 <= k < |x| :: !x[k].Emit?
  }

  /** Stopping tracks and adding them send nothing. */
  lemma TrackStepsSilent(ts: seq<Track>)
    ensures Silent(StopSteps(ts)) && Silent(AddTrackSteps(ts))
  {
  }

  /** `after` is `before` followed by calls that send nothing. */
  predicate QuietlyExtends(before: seq<Step>, after: seq<Step>) {
    |before| <= |after| && after[..|before|] == before && Silent(after[|before|..])
  }

  /** Every offer or answer sent was passed to `setLocalDescription` by an earlier call (which
      says nothing about how that call settled). */
  predicate AppliedBeforeSent(calls: seq<Step>) {
    forall j | 0 <= j < |calls| && calls[j].Emit? && !calls[j].msg.IceCandidate? ::
      SetLocalDescription(calls[j].msg.sdp) in calls[..j]
  }

  lemma {:induction false} OutboxAppend(a: seq<Step>, b: seq<Step>)
    ensures Outbox(a + b) == Outbox(a) + Outbox(b)
  {
    if a == [] {
      assert a + b == b;
    } else {
      assert (a + b)[0] == a[0];
      assert (a + b)[1..] == a[1..] + b;
      OutboxAppend(a[1..], b);
    }
  }

  lemma {:induction false} SilentOutbox(x: seq<Step>)
    requires Silent(x)
    ensures Outbox(x) == []
  {
    if x != [] {
      SilentOutbox(x[1..]);
    }
  }

  lemma {:induction false} CandidatesAppend(a: seq<Msg>, b: seq<Msg>)
    ensures Candidates(a + b) == Candidates(a) + Candidates(b)
  {
    if a == [] {
      assert a + b == b;
    } else {
      assert (a + b)[0] == a[0];
      assert (a + b)[1..] == a[1..] + b;
      CandidatesAppend(a[1..], b);
    }
  }

  /** Calls that send nothing leave the outbox as it was. */
  lemma QuietOutbox(before: seq<Step>, after: seq<Step>)
    requires QuietlyExtends(before, after)
    ensures Outbox(after) == Outbox(before)
  {
    var x := after[|before|..];
    assert after == before + x;
    OutboxAppend(before, x);
    SilentOutbox(x);
  }

  /** Appending calls that send nothing is a quiet extension. */
  lemma QuietAppend(a: seq<Step>, x: seq<Step>)
    requires Silent(x)
    ensures QuietlyExtends(a, a + x)
  {
    assert (a + x)[..|a|] == a;
    assert (a + x)[|a|..] == x;
  }

  /** A message sent right after a silent prefix adds exactly that message to the outbox. */
  lemma SendAfterQuiet(a: seq<Step>, x: seq<Step>, m: Msg)
    requires Silent(x)
    ensures Outbox(a + x + [Emit(m)]) == Outbox(a) + [m]
  {
    OutboxAppend(a + x, [Emit(m)]);
    OutboxAppend(a, x);
    SilentOutbox(x);
    assert Outbox([Emit(m)]) == [m] + Outbox([]);
  }

  lemma AppliedQuiet(before: seq<Step>, after: seq<Step>)
    requires AppliedBeforeSent(before) && QuietlyExtends(before, after)
    ensures AppliedBeforeSent(after)
  {
    forall j | 0 <= j < |after| && after[j].Emit? && !after[j].msg.IceCandidate?
      ensures SetLocalDescription(after[j].msg.sdp) in after[..j]
    {
      assert j < |before|;
      assert after[j] == before[j];
      assert after[..j] == before[..j];
    }
  }

  /** Sending a description right after the call passing it to `setLocalDescription` keeps
      `AppliedBeforeSent`. */
  lemma AppliedThenSent(a: seq<Step>, x: seq<Step>, m: Msg)
    requires AppliedBeforeSent(a) && Silent(x) && !m.IceCandidate?
    ensures AppliedBeforeSent(a + x + [SetLocalDescription(m.sdp), Emit(m)])
  {
    var c := a + x + [SetLocalDescription(m.sdp), Emit(m)];
    forall j | 0 <= j < |c| && c[j].Emit? && !c[j].msg.IceCandidate?
      ensures SetLocalDescription(c[j].msg.sdp) in c[..j]
    {
      if j < |a| {
        assert c[j] == a[j];
        assert c[..j] == a[..j];
      } else {
        assert j == |a| + |x| + 1;
        assert c[..j][j - 1] == c[j - 1];
      }
    }
  }

  /** Sending a candidate needs no description before it. */
  lemma AppliedThenCandidate(a: seq<Step>, c: Candidate)
    requires AppliedBeforeSent(a)
    ensures AppliedBeforeSent(a + [Emit(IceCandidate(c))])
  {
    var b := a + [Emit(IceCandidate(c))];
    forall j | 0 <= j < |b| && b[j].Emit? && !b[j].msg.IceCandidate?
      ensures SetLocalDescription(b[j].msg.sdp) in b[..j]
    {
      assert j < |a|;
      assert b[j] == a[j];
      assert b[..j] == a[..j];
    }
  }
}
