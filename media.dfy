/** Local capture: the tracks of a MediaStream and the per-track flags the controller flips. */
module Media {
  import opened Results

  type TrackId = nat

  datatype Kind = Audio | Video

  /** A MediaStreamTrack: `enabled` is its mute flag, `live` is false once `stop()` was called. */
  datatype Track = Track(id: TrackId, kind: Kind, enabled: bool, live: bool)

  /** A MediaStream is the ordered list its `getTracks()` returns. */
  datatype Stream = Stream(tracks: seq<Track>)

  function Ids(ts: seq<Track>): (r: seq<TrackId>) {
    seq(|ts|, k requires 0 <= k < |ts| => ts[k].id)
  }

  /** Index of `getAudioTracks()[0]` (or `getVideoTracks()[0]`): the first track of kind `k`. */
  function FirstOfKind(ts: seq<Track>, k: Kind): (r: Option<nat>)
    ensures r.Some? ==> r.value < |ts| && ts[r.value].kind == k
    ensures r.Some? ==> forall j | 0 <= j < r.value :: ts[j].kind != k
    ensures r.None? <==> forall j | 0 <= j < |ts| :: ts[j].kind != k
  {
    if ts == [] then None
    else if ts[0].kind == k then Some(0)
    else match FirstOfKind(ts[1..], k)
      case None => None
      case Some(i) => Some(i + 1)
  }

  /** `track.enabled = !track.enabled` on the track at index `i`. */
  function Toggled(ts: seq<Track>, i: nat): (r: seq<Track>)
    requires i < |ts|
  {
    ts[i := ts[i].(enabled := !ts[i].enabled)]
  }

  /** Every track after `track.stop()`. */
  function Stopped(ts: seq<Track>): (r: seq<Track>) {
    seq(|ts|, k requires 0 <= k < |ts| => ts[k].(live := false))
  }

  /** The first track of a kind depends only on the kinds, so flipping a flag never moves it. */
  lemma {:induction false} FirstOfKindIgnoresFlags(ts: seq<Track>, us: seq<Track>, k: Kind)
    requires |ts| == |us|
    requires forall j | 0 <= j < |ts| :: ts[j].kind == us[j].kind
    ensures FirstOfKind(ts, k) == FirstOfKind(us, k)
  {
    if ts != [] && ts[0].kind != k {
      FirstOfKindIgnoresFlags(ts[1..], us[1..], k);
    }
  }

  /** Flipping the flag of the first track of a kind twice restores the stream, and the
      flipped track is still the first of its kind. */
  lemma ToggledTwice(ts: seq<Track>, k: Kind)
    requires FirstOfKind(ts, k).Some?
    ensures var i := FirstOfKind(ts, k).value;
      && FirstOfKind(Toggled(ts, i), k) == Some(i)
      && Toggled(Toggled(ts, i), i) == ts
      && Toggled(ts, i)[i].enabled == !ts[i].enabled
      && forall j | 0 <= j < |ts| && j != i :: Toggled(ts, i)[j] == ts[j]
  {
    var i := FirstOfKind(ts, k).value;
    FirstOfKindIgnoresFlags(ts, Toggled(ts, i), k);
  }

  lemma IdsOneMore(ts: seq<Track>, i: nat)
    requires i < |ts|
    ensures Ids(ts[..i + 1]) == Ids(ts[..i]) + [ts[i].id]
  {
    assert Ids(ts[..i + 1]) == Ids(ts[..i]) + [ts[i].id];
  }
}
