# Room playback sync client — Dafny model

This project models the playback-sync client of a shared listening room. Each
client joins a room identified by a code. While joined, it polls the room
record (`track_url`, `position`, `is_playing`) and reconciles its local
`<audio>` player against it. The user's own play, pause, seek and track-change
gestures are published to the room service as partial patches.

The model has three parts, all taken from `src/components/RoomControls.jsx`:

- **Reconciler** (`reconciler.dfy`, module `Reconciler`). One poll tick is
  split into a pure decision, `Reconcile(remote, local)`, which returns a list
  of `Command`s (`SetSource`, `Seek`, `Play`, `Pause`), and their effect,
  `Run`. Each record field is a JSON `Value`, possibly `Undefined`, so the
  tick's truthiness and `typeof` checks are explicit. `Settled` describes the
  post-tick player field by field, independently of the commands. `TickEffect`
  proves the two agree.
- **Player** (`player.dfy`, class `Playback.Player`). The audio element's
  `src`, `currentTime` and `paused`, and methods that apply commands in order.
  They are proved against `Step` and `Run`.
- **Dispatcher** (`dispatcher.dfy`, module `Dispatcher`). The patch each
  gesture publishes, and the `{code, ...patch}` body `pushState` sends.
  `ApplyPatch` models what the room service does with a patch: the keys it
  carries overwrite the record. This is the service's contract, not code of
  this repository. It is used only to state `PeerFollows`: once a published
  patch lands, a peer's next tick brings the peer in line with the publisher.
- **Session** (`session.dfy`, class `Room.Session`). The component state
  (`code`, `joined`, `room`, `trackUrl`, `busy`, the audio ref) and its
  handlers: create, join, one poll tick, the gesture handlers, the Restart
  button, and the two text inputs. Each network outcome (`Ok(record)` or
  `Fail`) is a parameter. Each handler returns the requests it sent.

Things the code does that are easy to miss, and that the model follows:

- When the player is missing, local time reads as 0 (`?.currentTime || 0`).
  A tick still caches the record. The first command then dereferences the
  missing player and throws, and the catch ends the tick. So `Reconcile`
  lists at most that first command, and the player is not changed.
- The `<audio>` element is rendered only in the joined view. So when
  `joinRoom` runs from the unjoined view, its `src` assignment hits a null ref
  and throws, after `joined`, `room` and `trackUrl` are already set. The
  source is only loaded by the first poll tick after `Render` mounts the
  player. `Session.Join` models both cases: with and without a mounted player.
- `createRoom` joins whether or not the create request succeeded.
  `joinRoom` itself has no empty-code guard; only `createRoom` and the disabled
  buttons have one.
- There is no leave operation, and no guard against overlapping fetches. So
  the model claims neither cancellation nor a one-fetch-in-flight bound.
- Reconciler-issued mutations are re-published through the `<audio>` event
  handlers (line 157). The code does not suppress this echo, and the model
  asserts no suppression.

## Model

| member | source | states |
|---|---|---|
| `Reconciler.SourceUrl` | src/components/RoomControls.jsx:22 | a URL is taken from `track_url` only when it is a truthy (non-empty) string, and it is that string |
| `Reconciler.Reconcile` | src/components/RoomControls.jsx:19-42 | with a mounted player the tick attempts every correction the record calls for; with no player at most one, and one exactly when the record calls for any (the first access throws and the catch ends the tick) |
| `Reconciler.Step` | src/components/RoomControls.jsx:23-36 | one command changes only the field it names: SetSource the `src`, Seek the `currentTime`, Play clears and Pause sets `paused` |
| `Reconciler.Run` | src/components/RoomControls.jsx:21-37 | applying commands in order: without a SetSource `src` is unchanged, without a Seek `currentTime` is unchanged, with only SetSource/Seek `paused` is unchanged |
| `Reconciler.RunAppend` | src/components/RoomControls.jsx:22-37 | the tick's three ordered steps compose: running `a + b` is running `a` and then `b` |
| `Reconciler.TickEffect` | src/components/RoomControls.jsx:19-38 | running a tick's commands gives the field-by-field result: `src` becomes a truthy string URL, `currentTime` jumps to `position` only past the 0.75 s dead-band, `paused` becomes `!is_playing` for a boolean |
| `Reconciler.SettledAfterTick` | src/components/RoomControls.jsx:22-38 | after a tick the player has the record's URL, is within 0.75 s of a numeric position, and is paused exactly when a boolean `is_playing` is false; a non-number position or non-boolean `is_playing` leaves that field unchanged |
| `Reconciler.DriftWithinDeadBand` | src/components/RoomControls.jsx:25-30 | the position part of `SettledAfterTick` on its own (used by `Player.Sync`): after a tick the drift from a numeric position is at most 0.75 s |
| `Reconciler.SeekIff` | src/components/RoomControls.jsx:22-42 | a Seek is attempted if and only if `position` is a number more than 0.75 s from the local time (0 with no player) and, with no player, no source swap was attempted first (that swap throws and ends the tick); it seeks to exactly that position |
| `Reconciler.SourceSwapIff` | src/components/RoomControls.jsx:22-24 | a SetSource is issued if and only if `track_url` is a non-empty string different from the current `src` (always, with no player), and it carries that string |
| `Reconciler.TransportIff` | src/components/RoomControls.jsx:22-42 | with a player, Play is issued if and only if `is_playing` is `true`, whether or not the player is already playing; Pause if and only if it is `false`; any other value issues neither. With no player, either is attempted only when no swap or seek came before it |
| `Reconciler.NoPlayerStopsAtFirst` | src/components/RoomControls.jsx:19-42 | with a player the tick attempts every correction; with no player it attempts at most the first one, because that access throws and the catch ends the tick |
| `Reconciler.CommandOrder` | src/components/RoomControls.jsx:22-38 | commands come out as SetSource, then Seek, then Play or Pause, each kind at most once |
| `Reconciler.TickIdempotent` | src/components/RoomControls.jsx:19-38 | a second tick on the same record issues only Play or Pause and leaves the player as the first tick left it |
| `Reconciler.RestartedTrackScenario` | src/components/RoomControls.jsx:25-34 | a player at 40 s, facing a playing record at 10 s with the same URL, gets exactly Seek(10) then Play |
| `Reconciler.DeadBandEdgeScenario` | src/components/RoomControls.jsx:27-28 | a drift of exactly 0.75 s issues no Seek |
| `Playback.Player.constructor` | src/components/RoomControls.jsx:157 | a newly mounted audio element has no source, is at time 0 and is paused |
| `Playback.Player.Exec` | src/components/RoomControls.jsx:23-36 | one command's effect: assign `src`, assign `currentTime`, `play()` unpauses, `pause()` pauses |
| `Playback.Player.Apply` | src/components/RoomControls.jsx:21-37 | the player ends in `Run(cmds, old state)`: the commands applied one after another, in order |
| `Playback.Player.Sync` | src/components/RoomControls.jsx:21-38 | reconciling against a record and applying the result leaves the player in the reconciled state, within 0.75 s of a numeric position |
| `Dispatcher.PushState` | src/components/RoomControls.jsx:89-96 | nothing is sent when `code` is empty; otherwise the body carries `code` and the patch unchanged |
| `Dispatcher.PatchFor` | src/components/RoomControls.jsx:98-111 | Play/Pause publish `{is_playing, position: currentTime}`, Seek only `{position: currentTime}`, a track change `{track_url, position: 0, is_playing: true}`; nothing only for a track change with an empty URL |
| `Dispatcher.PeerFollows` | src/components/RoomControls.jsx:98-110 | once the service applies a published patch, a peer's next tick leaves it within 0.75 s of the published position, with the published transport state, and on a track change playing the new URL |
| `Room.UpperAscii` | src/components/RoomControls.jsx:119 | the stored code has the input's length, no lower-case ASCII letter, and each lower-case letter replaced by its capital |
| `Room.UpperAsciiIdempotent` | src/components/RoomControls.jsx:119 | upper-casing an already upper-cased code changes nothing |
| `Room.UrlOrEmpty` | src/components/RoomControls.jsx:78 | the staged track URL after a join is non-empty exactly when the record's `track_url` is a truthy string, and is then that string |
| `Room.Session.PollArmed` | src/components/RoomControls.jsx:15 | polling is armed only when the session is joined and the code is non-empty; an armed, valid session has already cached the record it joined |
| `Room.Session.constructor` | src/components/RoomControls.jsx:6-11 | a new session has an empty code and track URL, is not joined, has no cached room, is not busy, has no player, and is not polling |
| `Room.Session.Render` | src/components/RoomControls.jsx:113-157 | the audio element exists exactly while joined; it is mounted fresh, once, after joining |
| `Room.Session.EditCode` | src/components/RoomControls.jsx:119 | typing into the code input stores the upper-cased text and changes nothing else |
| `Room.Session.EditTrackUrl` | src/components/RoomControls.jsx:123 | typing into the URL input stages the text as the track URL and changes nothing else |
| `Room.Session.Join` | src/components/RoomControls.jsx:66-87 | sends a join for the current code; on success caches the record, sets `joined` and `trackUrl := track_url or ""`, and points a mounted player at a truthy URL; on failure `joined`, `room`, `trackUrl` and the player are unchanged; `busy` ends false |
| `Room.Session.Create` | src/components/RoomControls.jsx:47-64 | with an empty code sends nothing and changes nothing; otherwise sends the create request (`track_url` null when empty) and then a join, whatever the create outcome, with the join's effect; `busy` ends false |
| `Room.Session.PollTick` | src/components/RoomControls.jsx:14-45 | fetches only when `joined && code != ""`; a failed fetch changes nothing; a successful one caches the record and leaves a mounted player in the reconciled state, within 0.75 s of a numeric position |
| `Room.Session.Dispatch` | src/components/RoomControls.jsx:89-111 | sends the gesture's patch with the code (nothing with an empty code or no patch); a track change first sets the player's `src` even when nothing is sent; nothing happens with no player |
| `Room.Session.Restart` | src/components/RoomControls.jsx:152 | rewinds the player to 0, then publishes `{position: 0}` with the code |

## Left out

- Network I/O: `fetch`, HTTP status codes beyond ok/failed, and JSON encoding and decoding. Each outcome is an `Outcome` parameter, and each request is a returned `Request` value.
- The 1.5 s `setInterval` cadence and its cleanup. `PollTick` is one tick, and it fetches only while the loop would be armed.
- Concurrency between handlers: each handler runs to completion. The interleavings at `await` points (a poll response that overtakes a patch; a tick that runs while `busy`) are not modelled.
- A response body that is not a JSON object (for example `null`, where `data.track_url` throws after the record was cached) is not modelled. The record is always an object whose three fields may be absent or of any JSON type.
- Reconciler.SourceUrl: a truthy `track_url` that is not a string (a non-zero number, `true`, an object or array) is treated as no URL. The code would assign its string form to `src`, and would re-assign it on every tick. The model has no string conversion of numbers and objects. So with no player mounted, such a value does not end the tick as it does in the code (the `src` assignment throws there). The model then still attempts a later seek or play/pause. For example, `{track_url: 5, position: 10, is_playing: true}` gives `[Seek(10.0)]`, where the code attempts nothing. The player is unchanged either way.
- Room.UrlOrEmpty: for the same non-string values, `trackUrl` is stored as `""`. The code stores the value itself.
- Room.UpperAscii: only ASCII letters are upper-cased; the full Unicode case mapping of `toUpperCase` is not modelled.
- Positions and times are exact reals. Floating-point rounding of the drift subtraction, and NaN (`|| 0` maps a NaN `currentTime` to 0), are not modelled.
- Playback.Player.Exec: `play()` is modelled as unpausing. The browser may reject it (autoplay policy); the code swallows the rejection, and the model does not capture the player staying paused.
- Browser side effects of assigning `src`: the time resetting, and `src` reading back as a resolved absolute URL. The model reads back exactly what was assigned.
- Echo of reconciler-issued mutations through the `<audio>` `onPlay`/`onPause`/`onSeeked` handlers depends on browser event dispatch. The model does not connect `Player` mutations to `Session.Dispatch`.
- The server's handling of create, join and patch requests is not part of this model. `Dispatcher.ApplyPatch` is only the assumed overwrite semantics, used to state `PeerFollows`.
- React rendering and layout (`src/App.jsx`, `src/components/Header.jsx`, the JSX of the component) is not modelled, apart from mounting the audio element in the joined view (`Session.Render`).
