/**
 * Outbound patches built from the user's playback gestures (`onPlay`, `onPause`,
 * `onSeek`, `onChangeTrack`), and the body `pushState` sends for them.
 */
module Dispatcher {
  import opened Wrappers
  import opened Reconciler

  datatype Intent = PlayGesture | PauseGesture | SeekGesture | ChangeTrack

  /** A partial room record; `None` is a key the patch object does not have. */
  datatype Patch = Patch(trackUrl: Option<string>, position: Option<real>, isPlaying: Option<bool>)

  /** The JSON body `{code, ...patch}` of the PATCH request. */
  datatype Body = Body(code: string, patch: Patch)

  /**
   * The patch a gesture publishes, given the player's current time and the
   * staged track URL. Play and Pause carry the transport state and the current
   * time, Seek only the current time, a track change the URL, position zero and
   * playing; only a track change with an empty URL publishes nothing.
   */
  function PatchFor(intent: Intent, currentTime: real, trackUrl: string): (p: Option<Patch>)
    ensures p.None? <==> intent == ChangeTrack && trackUrl == ""
    ensures p.Some? && intent != ChangeTrack ==> p.value.trackUrl.None? && p.value.position == Some(currentTime)
    ensures p.Some? && intent == PlayGesture ==> p.value.isPlaying == Some(true)
    ensures p.Some? && intent == PauseGesture ==> p.value.isPlaying == Some(false)
    ensures p.Some? && intent == SeekGesture ==> p.value.isPlaying.None?
    ensures p.Some? && intent == ChangeTrack ==> p.value == Patch(Some(trackUrl), Some(0.0), Some(true))
  {
    match intent
    case PlayGesture => Some(Patch(None, Some(currentTime), Some(true)))
    case PauseGesture => Some(Patch(None, Some(currentTime), Some(false)))
    case SeekGesture => Some(Patch(None, Some(currentTime), None))
    case ChangeTrack => if trackUrl == "" then None else Some(Patch(Some(trackUrl), Some(0.0), Some(true)))
  }

  /** `pushState`: nothing is sent without a room code; otherwise the code travels with the patch. */
  function PushState(code: string, patch: Patch): (sent: Option<Body>)
    ensures sent.Some? <==> code != ""
    ensures sent.Some? ==> sent.value.code == code && sent.value.patch == patch
  {
    if code == "" then None else Some(Body(code, patch))
  }

  /** The room record after the server applies a patch: keys the patch carries overwrite, the rest stay. */
  function ApplyPatch(rec: RoomRecord, p: Patch): (r: RoomRecord)
    ensures p.trackUrl.Some? ==> r.trackUrl == Str(p.trackUrl.value)
    ensures p.trackUrl.None? ==> r.trackUrl == rec.trackUrl
    ensures p.position.Some? ==> r.position == Num(p.position.value)
    ensures p.position.None? ==> r.position == rec.position
    ensures p.isPlaying.Some? ==> r.isPlaying == Bool(p.isPlaying.value)
    ensures p.isPlaying.None? ==> r.isPlaying == rec.isPlaying
  {
    RoomRecord(
      match p.trackUrl case Some(u) => Str(u) case None => rec.trackUrl,
      match p.position case Some(t) => Num(t) case None => rec.position,
      match p.isPlaying case Some(b) => Bool(b) case None => rec.isPlaying)
  }

  /**
   * Once the server has applied a published patch, a peer's next tick brings the
   * peer in line with the publisher: same transport state, time within the
   * dead-band of the published position, and for a track change the new source.
   */
  lemma PeerFollows(intent: Intent, currentTime: real, trackUrl: string,
                    rec: RoomRecord, peer: PlayerState)
    requires PatchFor(intent, currentTime, trackUrl).Some?
    ensures var p := PatchFor(intent, currentTime, trackUrl).value;
      var t := Run(Reconcile(ApplyPatch(rec, p), Some(peer)), peer);
      && Abs(t.currentTime - p.position.value) <= DeadBand
      && (p.isPlaying.Some? ==> t.paused == !p.isPlaying.value)
      && (intent == ChangeTrack ==> t.src == trackUrl && !t.paused)
  {
    var p := PatchFor(intent, currentTime, trackUrl).value;
    var r := ApplyPatch(rec, p);
    TickEffect(r, peer);
    var t := Settled(r, peer);
    assert r.position == Num(p.position.value);
    assert Abs(t.currentTime - p.position.value) <= DeadBand;
  }
}
