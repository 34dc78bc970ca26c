/**
 * The room component's session state and its handlers: editing the inputs,
 * creating and joining a room, one poll tick, and the gesture handlers.
 * Each network outcome is a parameter; each handler runs to completion.
 */
module Room {
  import opened Wrappers
  import opened Reconciler
  import opened Playback
  import opened Dispatcher

  /** The outcome of a request whose response the handler reads: the parsed record, or failure. */
  datatype Outcome = Ok(record: RoomRecord) | Fail

  /** A request the client sends to the room service. */
  datatype Request =
    | CreateRoom(code: string, trackUrl: Option<string>)
    | JoinRoom(code: string)
    | FetchRoom(code: string)
    | PatchRoom(body: Body)

  predicate IsLowerAscii(c: char) { 'a' <= c <= 'z' }

  /** Upper-casing of the room-code input, on ASCII letters. */
  function UpperAscii(s: string): (r: string)
    ensures |r| == |s|
    ensures forall i | 0 <= i < |r| :: !IsLowerAscii(r[i])
    ensures forall i | 0 <= i < |r| && !IsLowerAscii(s[i]) :: r[i] == s[i]
    ensures forall i | 0 <= i < |r| && IsLowerAscii(s[i]) :: r[i] as int == s[i] as int - 32
  {
    if s == [] then []
    else
      var c := if IsLowerAscii(s[0]) then (s[0] as int - 32) as char else s[0];
      [c] + UpperAscii(s[1..])
  }

  /** Upper-casing twice is upper-casing once. */
  lemma UpperAsciiIdempotent(s: string)
    ensures UpperAscii(UpperAscii(s)) == UpperAscii(s)
  {
  }

  /** The value `data.track_url || ''` stores as the staged track URL. */
  function UrlOrEmpty(v: Value): (u: string)
    ensures u != "" <==> SourceUrl(v).Some?
    ensures u != "" ==> v == Str(u)
  {
    match SourceUrl(v) case Some(u) => u case None => ""
  }

  class Session {
    var code: string
    var joined: bool
    var room: Option<RoomRecord>
    var trackUrl: string
    var busy: bool
    /** The `<audio>` ref: null until the joined view has been rendered. */
    var audio: Player?

    /** The audio element exists only in the joined view, and a joined session has seen a record. */
    predicate Valid()
      reads this
    {
      (audio != null ==> joined) && (joined ==> room.Some?)
    }

    /**
     * The poll loop runs exactly while the session is joined with a non-empty code;
     * an armed session in a valid state has already cached the record it joined.
     */
    predicate PollArmed()
      reads this
      ensures PollArmed() ==> joined && code != ""
      ensures Valid() && PollArmed() ==> room.Some?
    {
      joined && code != ""
    }

    constructor ()
      ensures Valid() && !PollArmed()
      ensures code == "" && !joined && room == None && trackUrl == "" && !busy && audio == null
    {
      code, joined, room, trackUrl, busy, audio := "", false, None, "", false, null;
    }

    /** Rendering the joined view mounts a fresh audio element once. */
    method Render()
      requires Valid()
      modifies this
      ensures Valid()
      ensures code == old(code) && joined == old(joined) && room == old(room)
      ensures trackUrl == old(trackUrl) && busy == old(busy)
      ensures joined <==> audio != null
      ensures old(audio) != null ==> audio == old(audio)
      ensures old(audio) == null && joined ==> fresh(audio) && audio.State() == PlayerState("", 0.0, true)
    {
      if joined && audio == null {
        audio := new Player();
      }
    }

    /** Typing in the room-code input stores it upper-cased. */
    method EditCode(input: string)
      requires Valid()
      modifies this
      ensures Valid()
      ensures code == UpperAscii(input)
      ensures joined == old(joined) && room == old(room) && trackUrl == old(trackUrl)
      ensures busy == old(busy) && audio == old(audio)
    {
      code := UpperAscii(input);
    }

    /** Typing in the audio-URL input stages it as the track URL. */
    method EditTrackUrl(input: string)
      requires Valid()
      modifies this
      ensures Valid()
      ensures trackUrl == input
      ensures code == old(code) && joined == old(joined) && room == old(room)
      ensures busy == old(busy) && audio == old(audio)
    {
      trackUrl := input;
    }

    /**
     * `joinRoom`: on success the record is cached, the session is joined, the
     * track URL is staged and a mounted player gets the record's source; on
     * failure nothing but `busy` is touched. `busy` is false afterwards.
     */
    method Join(outcome: Outcome) returns (sent: Request)
      requires Valid()
      modifies this, audio
      ensures Valid()
      ensures sent == JoinRoom(code)
      ensures code == old(code) && audio == old(audio) && !busy
      ensures outcome.Ok? ==>
        joined && room == Some(outcome.record) && trackUrl == UrlOrEmpty(outcome.record.trackUrl)
      ensures outcome.Fail? ==> joined == old(joined) && room == old(room) && trackUrl == old(trackUrl)
      ensures audio != null ==>
        audio.State() == (if outcome.Ok? && SourceUrl(outcome.record.trackUrl).Some?
                          then old(audio.State()).(src := SourceUrl(outcome.record.trackUrl).value)
                          else old(audio.State()))
    {
      busy := true;
      sent := JoinRoom(code);
      match outcome {
        case Ok(rec) =>
          room := Some(rec);
          joined := true;
          trackUrl := UrlOrEmpty(rec.trackUrl);
          var url := SourceUrl(rec.trackUrl);
          // With no mounted player the assignment throws and the handler swallows it.
          if url.Some? && audio != null {
            audio.Exec(SetSource(url.value));
          }
        case Fail =>
      }
      busy := false;
    }

    /**
     * `createRoom`: with an empty code nothing happens; otherwise the create
     * request is sent and, whatever its outcome, a join follows. `created` is the
     * create request's outcome; it does not affect the result.
     */
    method Create(created: bool, joinOutcome: Outcome) returns (sent: seq<Request>)
      requires Valid()
      modifies this, audio
      ensures Valid()
      ensures code == old(code) && audio == old(audio)
      ensures old(code) == "" ==>
        && sent == [] && joined == old(joined) && room == old(room)
        && trackUrl == old(trackUrl) && busy == old(busy)
        && (audio != null ==> audio.State() == old(audio.State()))
      ensures old(code) != "" ==>
        && sent == [CreateRoom(code, if old(trackUrl) == "" then None else Some(old(trackUrl))), JoinRoom(code)]
        && !busy
        && (joinOutcome.Ok? ==>
              joined && room == Some(joinOutcome.record) && trackUrl == UrlOrEmpty(joinOutcome.record.trackUrl))
        && (joinOutcome.Fail? ==> joined == old(joined) && room == old(room) && trackUrl == old(trackUrl))
        && (audio != null ==>
              audio.State() == (if joinOutcome.Ok? && SourceUrl(joinOutcome.record.trackUrl).Some?
                                then old(audio.State()).(src := SourceUrl(joinOutcome.record.trackUrl).value)
                                else old(audio.State())))
    {
      if code == "" {
        sent := [];
        return;
      }
      busy := true;
      var create := CreateRoom(code, if trackUrl == "" then None else Some(trackUrl));
      // Whether or not the create request succeeded (the room may already
      // exist), the handler goes on to join it.
      var join := Join(joinOutcome);
      sent := [create, join];
      busy := false;
    }

    /**
     * One tick of the poll loop. Without an armed loop nothing is fetched. A
     * failed fetch changes nothing; a successful one caches the record and
     * applies the reconciled commands to the player, if one is mounted.
     */
    method PollTick(outcome: Outcome) returns (sent: Option<Request>)
      requires Valid()
      modifies this, audio
      ensures Valid()
      ensures sent.Some? <==> old(PollArmed())
      ensures sent.Some? ==> sent.value == FetchRoom(code)
      ensures code == old(code) && joined == old(joined) && trackUrl == old(trackUrl)
      ensures busy == old(busy) && audio == old(audio)
      ensures room == if sent.Some? && outcome.Ok? then Some(outcome.record) else old(room)
      ensures audio != null ==>
        audio.State() == (if sent.Some? && outcome.Ok?
                          then Run(Reconcile(outcome.record, Some(old(audio.State()))), old(audio.State()))
                          else old(audio.State()))
      ensures audio != null && sent.Some? && outcome.Ok? && outcome.record.position.Num? ==>
        Abs(audio.currentTime - outcome.record.position.n) <= DeadBand
    {
      if !PollArmed() {
        sent := None;
        return;
      }
      sent := Some(FetchRoom(code));
      if outcome.Ok? {
        var rec := outcome.record;
        room := Some(rec);
        // With no mounted player the first access throws and the tick is dropped.
        if audio != null {
          audio.Sync(rec);
        }
      }
    }

    /**
     * A gesture handler: builds the gesture's patch from the player's current
     * time, sets the player's source first for a track change, and sends the
     * patch with the room code. Without a mounted player nothing happens.
     */
    method Dispatch(intent: Intent) returns (sent: Option<Request>)
      requires Valid()
      modifies audio
      ensures Valid()
      ensures audio == null ==> sent == None
      ensures audio != null ==>
        var p := PatchFor(intent, old(audio.currentTime), trackUrl);
        && sent == (if p.Some? && code != "" then Some(PatchRoom(Body(code, p.value))) else None)
        && audio.State() == (if p.Some? && intent == ChangeTrack
                             then old(audio.State()).(src := trackUrl) else old(audio.State()))
    {
      if audio == null {
        sent := None;
        return;
      }
      var p := PatchFor(intent, audio.currentTime, trackUrl);
      if p.None? {
        sent := None;
        return;
      }
      if intent == ChangeTrack {
        audio.Exec(SetSource(trackUrl));
      }
      var body := PushState(code, p.value);
      sent := if body.Some? then Some(PatchRoom(body.value)) else None;
    }

    /** The Restart button: rewind the player to zero, then publish the seek. */
    method Restart() returns (sent: Option<Request>)
      requires Valid()
      modifies audio
      ensures Valid()
      ensures audio == null ==> sent == None
      ensures audio != null ==>
        && audio.State() == old(audio.State()).(currentTime := 0.0)
        && sent == (if code != "" then Some(PatchRoom(Body(code, Patch(None, Some(0.0), None)))) else None)
    {
      if audio == null {
        sent := None;
        return;
      }
      audio.Exec(Seek(0.0));
      sent := Dispatch(SeekGesture);
    }
  }
}
