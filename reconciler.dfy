/**
 * The decision half of one poll tick of the room client: given the room record
 * fetched from the server and the local player, which playback commands to issue.
 *
 * The record comes from `r.json()`, so each field is whatever JSON value the
 * server sent, or absent. The tick inspects the fields only through JavaScript
 * truthiness and `typeof` checks, which `Value` and `Truthy` capture.
 */
module Reconciler {
  import opened Wrappers

  /** A JSON value as a field of the parsed response can hold it; `Undefined` is an absent field. */
  datatype Value = Undefined | Null | Bool(b: bool) | Num(n: real) | Str(s: string) | Compound

  /** JavaScript truthiness of a JSON value (arrays and objects are always truthy). */
  predicate Truthy(v: Value) {
    match v
    case Undefined | Null => false
    case Bool(b) => b
    case Num(n) => n != 0.0
    case Str(s) => s != ""
    case Compound => true
  }

  /** The fields of the room record that the tick reads. */
  datatype RoomRecord = RoomRecord(trackUrl: Value, position: Value, isPlaying: Value)

  /** The observable state of the local audio element. */
  datatype PlayerState = PlayerState(src: string, currentTime: real, paused: bool)

  /** A mutation of the local player issued by the tick. */
  datatype Command = SetSource(url: string) | Seek(t: real) | Play | Pause

  /** Drift at or below this many seconds is tolerated without seeking. */
  const DeadBand: real := 0.75

  function Abs(x: real): (r: real)
    ensures r >= 0.0 && (r == x || r == -x)
  {
    if x < 0.0 then -x else x
  }

  /** The track URL a record asks for: a truthy string, or nothing. */
  function SourceUrl(v: Value): (u: Option<string>)
    ensures u.Some? ==> Truthy(v) && v == Str(u.value)
    ensures v.Str? && Truthy(v) ==> u == Some(v.s)
  {
    match v
    case Str(s) => if s != "" then Some(s) else None
    case _ => None
  }

  /** `audioRef.current?.currentTime || 0`: a missing player reads as time zero. */
  function LocalTime(local: Option<PlayerState>): real {
    match local
    case None => 0.0
    case Some(p) => p.currentTime
  }

  /** Whether the record's position is a number more than the dead-band away from local time. */
  predicate Drifted(remote: RoomRecord, local: Option<PlayerState>) {
    remote.position.Num? && Abs(LocalTime(local) - remote.position.n) > DeadBand
  }

  /** Step one: swap the source when the record names a truthy URL other than the current one. */
  function SourceCorrection(remote: RoomRecord, local: Option<PlayerState>): seq<Command> {
    match SourceUrl(remote.trackUrl)
    case Some(u) => if local.None? || local.value.src != u then [SetSource(u)] else []
    case None => []
  }

  /** Step two: seek to the record's position when the drift exceeds the dead-band. */
  function DriftCorrection(remote: RoomRecord, local: Option<PlayerState>): seq<Command> {
    if Drifted(remote, local) then [Seek(remote.position.n)] else []
  }

  /** Step three: follow a boolean `is_playing`; any other value leaves transport alone. */
  function TransportCorrection(remote: RoomRecord): seq<Command> {
    match remote.isPlaying
    case Bool(b) => if b then [Play] else [Pause]
    case _ => []
  }

  /** The corrections a record calls for, in the order the tick's three steps consider them. */
  function Corrections(remote: RoomRecord, local: Option<PlayerState>): seq<Command> {
    SourceCorrection(remote, local) + DriftCorrection(remote, local) + TransportCorrection(remote)
  }

  /**
   * The commands one successful tick attempts, in order. With a mounted player
   * that is every correction. With no player, the first command dereferences the
   * missing player and throws, and the handler's catch ends the tick, so only
   * that first command is attempted (CommandOrder gives the order of the commands).
   */
  function Reconcile(remote: RoomRecord, local: Option<PlayerState>): (cmds: seq<Command>)
    ensures local.Some? ==> cmds == Corrections(remote, local)
    ensures local.None? ==> |cmds| <= 1 && (cmds == [] <==> Corrections(remote, local) == [])
  {
    var cmds := Corrections(remote, local);
    if local.None? && |cmds| > 1 then cmds[..1] else cmds
  }

  /** The effect of one command on the player: it changes the one field it names and no other. */
  function Step(s: PlayerState, c: Command): (r: PlayerState)
    ensures r.src == (if c.SetSource? then c.url else s.src)
    ensures r.currentTime == (if c.Seek? then c.t else s.currentTime)
    ensures r.paused == (if c.Play? then false else if c.Pause? then true else s.paused)
  {
    match c
    case SetSource(u) => s.(src := u)
    case Seek(t) => s.(currentTime := t)
    case Play => s.(paused := false)
    case Pause => s.(paused := true)
  }

  /** The player after the commands have been applied in order. */
  function Run(cmds: seq<Command>, s: PlayerState): (r: PlayerState)
    ensures (forall i | 0 <= i < |cmds| :: !cmds[i].SetSource?) ==> r.src == s.src
    ensures (forall i | 0 <= i < |cmds| :: !cmds[i].Seek?) ==> r.currentTime == s.currentTime
    ensures (forall i | 0 <= i < |cmds| :: cmds[i].SetSource? || cmds[i].Seek?) ==> r.paused == s.paused
    decreases |cmds|
  {
    if cmds == [] then s else Step(Run(cmds[..|cmds| - 1], s), cmds[|cmds| - 1])
  }

  /** Applying a concatenation is applying its parts one after the other. */
  lemma {:induction false} RunAppend(a: seq<Command>, b: seq<Command>, s: PlayerState)
    ensures Run(a + b, s) == Run(b, Run(a, s))
    decreases |b|
  {
    if b == [] {
      assert a + b == a;
    } else {
      var b' := b[..|b| - 1];
      assert (a + b)[..|a + b| - 1] == a + b';
      assert (a + b)[|a + b| - 1] == b[|b| - 1];
      RunAppend(a, b', s);
    }
  }

  /** The player state a tick produces, field by field, independently of commands. */
  function Settled(remote: RoomRecord, s: PlayerState): (t: PlayerState) {
    PlayerState(
      match SourceUrl(remote.trackUrl) case Some(u) => u case None => s.src,
      if Drifted(remote, Some(s)) then remote.position.n else s.currentTime,
      if remote.isPlaying.Bool? then !remote.isPlaying.b else s.paused)
  }

  /**
   * Running the commands of a tick gives the field-by-field result: the source is
   * the record's URL when it names one, the time jumps to the record's position
   * only past the dead-band, and `paused` is the negation of a boolean `is_playing`.
   */
  lemma TickEffect(remote: RoomRecord, s: PlayerState)
    ensures Run(Reconcile(remote, Some(s)), s) == Settled(remote, s)
  {
    var a := SourceCorrection(remote, Some(s));
    var b := DriftCorrection(remote, Some(s));
    var c := TransportCorrection(remote);
    var goal := Settled(remote, s);
    RunAppend(a + b, c, s);
    RunAppend(a, b, s);
    var s1 := RunSourceCorrection(remote, s);
    assert s1 == s.(src := goal.src);
    var s2 := RunDriftCorrection(remote, s, s1);
    assert s2 == s1.(currentTime := goal.currentTime);
    var s3 := RunTransportCorrection(remote, s2);
    assert s3 == s2.(paused := goal.paused);
  }

  /** Helper for TickEffect: a list of at most one command runs as that one step. */
  lemma RunAtMostOne(cmds: seq<Command>, s: PlayerState)
    requires |cmds| <= 1
    ensures Run(cmds, s) == if cmds == [] then s else Step(s, cmds[0])
  {
  }

  /** Helper for TickEffect: the source step sets exactly the settled source. */
  lemma RunSourceCorrection(remote: RoomRecord, s: PlayerState) returns (t: PlayerState)
    ensures t == Run(SourceCorrection(remote, Some(s)), s)
    ensures t == s.(src := match SourceUrl(remote.trackUrl) case Some(u) => u case None => s.src)
  {
    RunAtMostOne(SourceCorrection(remote, Some(s)), s);
    t := Run(SourceCorrection(remote, Some(s)), s);
  }

  /** Helper for TickEffect: the drift step moves the time only past the dead-band. */
  lemma RunDriftCorrection(remote: RoomRecord, s: PlayerState, s1: PlayerState) returns (t: PlayerState)
    requires s1.currentTime == s.currentTime
    ensures t == Run(DriftCorrection(remote, Some(s)), s1)
    ensures t == s1.(currentTime := if Drifted(remote, Some(s)) then remote.position.n else s.currentTime)
  {
    RunAtMostOne(DriftCorrection(remote, Some(s)), s1);
    t := Run(DriftCorrection(remote, Some(s)), s1);
  }

  /** Helper for TickEffect: the transport step follows a boolean `is_playing`. */
  lemma RunTransportCorrection(remote: RoomRecord, s2: PlayerState) returns (t: PlayerState)
    ensures t == Run(TransportCorrection(remote), s2)
    ensures t == s2.(paused := if remote.isPlaying.Bool? then !remote.isPlaying.b else s2.paused)
  {
    RunAtMostOne(TransportCorrection(remote), s2);
    t := Run(TransportCorrection(remote), s2);
  }

  /**
   * After a tick the player agrees with the record wherever the record carries
   * usable information: its URL, its position to within the dead-band, its
   * transport state. Fields without usable information are left as they were.
   */
  lemma SettledAfterTick(remote: RoomRecord, s: PlayerState)
    ensures var t := Run(Reconcile(remote, Some(s)), s);
      && (SourceUrl(remote.trackUrl).Some? ==> t.src == SourceUrl(remote.trackUrl).value)
      && (SourceUrl(remote.trackUrl).None? ==> t.src == s.src)
      && (remote.position.Num? ==> Abs(t.currentTime - remote.position.n) <= DeadBand)
      && (!remote.position.Num? ==> t.currentTime == s.currentTime)
      && (remote.isPlaying.Bool? ==> t.paused == !remote.isPlaying.b)
      && (!remote.isPlaying.Bool? ==> t.paused == s.paused)
  {
    TickEffect(remote, s);
  }

  /**
   * The position conjunct of SettledAfterTick on its own: after a tick, the player
   * is within the dead-band of a numeric position. Player.Sync uses this narrower
   * form because it keeps that method's proof small.
   */
  lemma DriftWithinDeadBand(remote: RoomRecord, s: PlayerState, t: PlayerState)
    requires t == Run(Reconcile(remote, Some(s)), s)
    ensures remote.position.Num? ==> Abs(t.currentTime - remote.position.n) <= DeadBand
  {
    TickEffect(remote, s);
  }

  /**
   * A seek is issued exactly when the position is a number more than the dead-band
   * away from local time (a drift of exactly the dead-band issues none), and, with
   * no player, no source swap was attempted first; it seeks to that position.
   */
  lemma SeekIff(remote: RoomRecord, local: Option<PlayerState>)
    ensures var cmds := Reconcile(remote, local);
      && ((exists i | 0 <= i < |cmds| :: cmds[i].Seek?) <==>
          remote.position.Num? && Abs(LocalTime(local) - remote.position.n) > DeadBand &&
          (local.Some? || SourceUrl(remote.trackUrl).None?))
      && (forall i | 0 <= i < |cmds| && cmds[i].Seek? :: remote.position == Num(cmds[i].t))
  {
    var cmds := Reconcile(remote, local);
    var a := SourceCorrection(remote, local);
    var b := DriftCorrection(remote, local);
    if Drifted(remote, local) && (local.Some? || a == []) {
      assert cmds[|a|] == Seek(remote.position.n);
    }
  }

  /** A source swap is issued exactly for a truthy string URL different from the current source. */
  lemma SourceSwapIff(remote: RoomRecord, local: Option<PlayerState>)
    ensures var cmds := Reconcile(remote, local);
      && ((exists i | 0 <= i < |cmds| :: cmds[i].SetSource?) <==>
          remote.trackUrl.Str? && remote.trackUrl.s != "" &&
          (local.None? || local.value.src != remote.trackUrl.s))
      && (forall i | 0 <= i < |cmds| && cmds[i].SetSource? :: remote.trackUrl == Str(cmds[i].url))
  {
    var cmds := Reconcile(remote, local);
    if SourceCorrection(remote, local) != [] {
      assert cmds[0].SetSource?;
    }
  }

  /**
   * Transport follows `is_playing`: with a player, `true` always issues Play (also
   * when the player is already playing), `false` issues Pause, anything else
   * neither. With no player, transport is reached only when neither a source swap
   * nor a seek was attempted before it.
   */
  lemma TransportIff(remote: RoomRecord, local: Option<PlayerState>)
    ensures var cmds := Reconcile(remote, local);
      var reached := local.Some? || (SourceUrl(remote.trackUrl).None? && !Drifted(remote, local));
      && ((exists i | 0 <= i < |cmds| :: cmds[i] == Play) <==> remote.isPlaying == Bool(true) && reached)
      && ((exists i | 0 <= i < |cmds| :: cmds[i] == Pause) <==> remote.isPlaying == Bool(false) && reached)
  {
    var cmds := Reconcile(remote, local);
    var ab := SourceCorrection(remote, local) + DriftCorrection(remote, local);
    if remote.isPlaying.Bool? && (local.Some? || ab == []) {
      assert cmds == ab + TransportCorrection(remote);
      assert cmds[|ab|] == (if remote.isPlaying.b then Play else Pause);
    }
  }

  /**
   * With no player the tick attempts at most one command, the first correction
   * the record calls for; with a player it attempts every correction.
   */
  lemma NoPlayerStopsAtFirst(remote: RoomRecord, local: Option<PlayerState>)
    ensures var cmds := Reconcile(remote, local);
      var all := Corrections(remote, local);
      && (local.Some? ==> cmds == all)
      && (local.None? ==> |cmds| <= 1 && (all == [] <==> cmds == []) && (cmds != [] ==> cmds[0] == all[0]))
  {
  }

  /** The position of a command kind in the fixed order of a tick. */
  function Rank(c: Command): nat {
    match c
    case SetSource(_) => 0
    case Seek(_) => 1
    case Play | Pause => 2
  }

  /**
   * Commands come out in the order source, seek, transport, and each kind at most
   * once: ranks strictly increase along the list.
   */
  lemma CommandOrder(remote: RoomRecord, local: Option<PlayerState>)
    ensures var cmds := Reconcile(remote, local);
      forall i, j | 0 <= i < j < |cmds| :: Rank(cmds[i]) < Rank(cmds[j])
  {
  }

  /**
   * A second tick on the same record issues neither a source swap nor a seek, and
   * leaves the player as the first tick left it.
   */
  lemma TickIdempotent(remote: RoomRecord, s: PlayerState)
    ensures var t := Run(Reconcile(remote, Some(s)), s);
      && (forall i | 0 <= i < |Reconcile(remote, Some(t))| ::
            Reconcile(remote, Some(t))[i] in {Play, Pause})
      && Run(Reconcile(remote, Some(t)), t) == t
  {
    TickEffect(remote, s);
    var t := Settled(remote, s);
    SettledIsQuiet(remote, s);
    var again := TransportCorrection(remote);
    assert forall i | 0 <= i < |again| :: again[i] in {Play, Pause};
    var settledAgain := RunTransportCorrection(remote, t);
  }

  /** Helper for TickIdempotent: a settled player needs no swap or seek, and settles to itself. */
  lemma SettledIsQuiet(remote: RoomRecord, s: PlayerState)
    ensures Reconcile(remote, Some(Settled(remote, s))) == TransportCorrection(remote)
    ensures Settled(remote, Settled(remote, s)) == Settled(remote, s)
  {
    var t := Settled(remote, s);
    assert !Drifted(remote, Some(t));
    assert SourceCorrection(remote, Some(t)) == [];
    assert Corrections(remote, Some(t)) == [] + [] + TransportCorrection(remote);
  }

  /** B plays at 40 s while the record says 10 s and playing: B seeks back to 10 s and plays. */
  lemma RestartedTrackScenario(url: string)
    requires url != ""
    ensures Reconcile(RoomRecord(Str(url), Num(10.0), Bool(true)), Some(PlayerState(url, 40.0, false)))
      == [Seek(10.0), Play]
  {
  }

  /** A drift of exactly the dead-band is tolerated: no seek. */
  lemma DeadBandEdgeScenario(url: string)
    requires url != ""
    ensures Reconcile(RoomRecord(Str(url), Num(10.0), Undefined), Some(PlayerState(url, 10.75, true))) == []
  {
  }
}
