# Audio player core, modelled in Dafny

A model of the logic inside a small Android audio player: the list screen
that enumerates bundled audio resources and shows their names as titles,
and the player screen that formats playback positions as `MM:SS` and drives
one media handle through play, pause, stop, seek and volume controls.

Modules:

- `Optional` (`optional.dfy`): the option type for Kotlin's nullable values.
- `KotlinInt` (`kotlin_int.dfy`): Kotlin `Int` range and its truncating `/` and `%`.
- `Decimal` (`decimal.dfy`): rendering a natural number in decimal and reading it back.
- `TimeFormat` (`time_format.dfy`): `formatTime`, `%02d`, and `ParseClock`, which reads
  an `M:S` display back into its two fields; `FormatTimeRoundTrip` shows that it
  inverts `FormatTime`.
- `Text` (`text.dfy`): Kotlin's `replace`, `split`, `map`, `joinToString` and an ASCII
  `uppercase` over `seq<char>`.
- `SongList` (`song_list.dfy`): `formatSongName`, with a per-character reference
  definition (`TitleChar`), and the resource-name filter of `getSongsFromRaw`.
- `Player` (`player.dfy`): the transport control as a state machine. `State` holds
  the screen's remembered values (`mediaPlayer` as `hasHandle`, `isPlaying`,
  `currentPosition`, `duration`, `volume`, `errorMessage`) plus what reached the
  handle (`committedPosition`, `handleVolume`, `listening`). `committedPosition`
  is the handle's position as the screen's own calls set it: the target of the
  last `seekTo`, or 0 after a `stop` and `prepare` that both succeeded. Each control is an
  event with a guard (the button's `enabled` expression or the slider's range) and
  an effect (the handler body as written, with its `?.` calls). A platform call
  that throws is selected by a `fails` flag; the set-up effect takes the step that
  throws, if any, as `fault`. `Inv` is the well-formedness invariant every reached
  state keeps.

A set-up failure after `mediaPlayer = player` (PlayerActivity.kt line 53)
keeps the handle, and disposal releases nothing when no handle was stored. The `Create`
fault covers both a throwing `MediaPlayer.create` and one that returns null:
in the latter case `mediaPlayer` is stored as null and the next line,
reading `player.duration`, throws, so both end with no handle and the
set-up error.

## Model

| member | source | states |
|---|---|---|
| KotlinInt.Quot | app/src/main/java/com/example/audioplayer/PlayerActivity.kt:288-289 | Kotlin's `/` by a positive divisor rounds toward zero: the quotient times the divisor brackets the dividend from the zero side, for either sign |
| KotlinInt.Rem | app/src/main/java/com/example/audioplayer/PlayerActivity.kt:288 | Kotlin's `%` completes the quotient to the dividend and takes the dividend's sign, with magnitude below the divisor |
| TimeFormat.Pad2 | app/src/main/java/com/example/audioplayer/PlayerActivity.kt:290 | `%02d` output is at least two characters, holds no colon, is exactly two digits iff the value is in 0..99, has no leading zero from 10 up, and for a negative value is `-` followed by digits without a leading zero; with `Pad2RoundTrip` this fixes the text for every integer |
| TimeFormat.FormatTime | app/src/main/java/com/example/audioplayer/PlayerActivity.kt:287-291 | the display is at least five characters (two padded fields and a colon); what its fields mean is stated by `FormatTimeRoundTrip` |
| TimeFormat.Pad2RoundTrip | app/src/main/java/com/example/audioplayer/PlayerActivity.kt:290 | reading a `%02d` field back as a signed decimal gives the formatted integer, negatives included |
| TimeFormat.FormatTimeRoundTrip | app/src/main/java/com/example/audioplayer/PlayerActivity.kt:287-291 | for every 32-bit position, the display splits at its colon into minutes = position / 60000 and seconds = (position / 1000) % 60 under Kotlin's truncating operators |
| TimeFormat.FormatTimeFields | app/src/main/java/com/example/audioplayer/PlayerActivity.kt:288-289 | for a non-negative position the fields read back as `timeMs / 60000` and `(timeMs / 1000) % 60`; seconds lie in 0..59 and minutes never roll into hours |
| TimeFormat.FormatTimeShape | app/src/main/java/com/example/audioplayer/PlayerActivity.kt:290 | from 0 up to 6,000,000 ms the display has length 5, a colon at index 2 and digits at the other four indices |
| TimeFormat.FormatTimeExamples | app/src/main/java/com/example/audioplayer/PlayerActivity.kt:287-291 | 0 ms shows `00:00`, 65000 ms shows `01:05`, one hour shows `60:00` |
| TimeFormat.FormatTimeNegativeExamples | app/src/main/java/com/example/audioplayer/PlayerActivity.kt:288-290 | a negative position signs each field separately: -65000 ms shows `-1:-5` and -1 ms shows `00:00` |
| TimeFormat.FormatTimeNearZero | app/src/main/java/com/example/audioplayer/PlayerActivity.kt:288-290 | every position strictly between -1000 and 1000 ms shows `00:00`, since both truncated fields are zero and carry no sign |
| Text.Replace | app/src/main/java/com/example/audioplayer/SongListScreen.kt:145 | replacing one character by another keeps the length and changes exactly the positions that held the replaced character |
| Text.Split | app/src/main/java/com/example/audioplayer/SongListScreen.kt:146 | splitting yields at least one piece and no piece contains the delimiter |
| Text.JoinSplit | app/src/main/java/com/example/audioplayer/SongListScreen.kt:146-147 | joining the pieces of a split with the same delimiter gives back the string, so empty pieces are kept |
| Text.ToUpper | app/src/main/java/com/example/audioplayer/SongListScreen.kt:148 | ASCII upper-casing maps lower-case letters to their capitals, keeps every other character, and never yields a lower-case letter |
| SongList.CapitalizeWord | app/src/main/java/com/example/audioplayer/SongListScreen.kt:148 | a word keeps its length; a non-empty word has its first character upper-cased and the rest unchanged |
| SongList.FormatSongName | app/src/main/java/com/example/audioplayer/SongListScreen.kt:144-150 | the title has the name's length and agrees at every position with the reference `TitleChar`: separator to space, first character of a word upper-cased, others kept |
| SongList.FormatSongNameSeparators | app/src/main/java/com/example/audioplayer/SongListScreen.kt:145-149 | a title position is a space iff the name has `_` or a space there, and the title never contains `_` |
| SongList.FormatSongNameIdempotent | app/src/main/java/com/example/audioplayer/SongListScreen.kt:144-150 | formatting a title again leaves it unchanged |
| SongList.FormatSongNameEmpty | app/src/main/java/com/example/audioplayer/SongListScreen.kt:144-150 | the empty name gives the empty title |
| SongList.FormatSongNameExample | app/src/main/java/com/example/audioplayer/SongListScreen.kt:144-150 | `my_song_name` gives `My Song Name` |
| SongList.VisibleNames | app/src/main/java/com/example/audioplayer/SongListScreen.kt:138-140 | the kept names are an order-preserving subsequence of the field names holding every name not starting with `__` as often as it occurs, and no other |
| SongList.GetSongsFromRaw | app/src/main/java/com/example/audioplayer/SongListScreen.kt:128-141 | a missing raw-resource class gives the empty list; otherwise the songs are a subsequence of the field names holding each name not starting with `__` as often as it occurs, and no other |
| Player.Init | app/src/main/java/com/example/audioplayer/PlayerActivity.kt:49-72 | set-up keeps the invariant; no resource means no handle and the not-found message; a throw shows the set-up error and keeps the handle unless creation threw; success registers the listener, takes the duration and applies the start volume to both channels |
| Player.Step | app/src/main/java/com/example/audioplayer/PlayerActivity.kt:158-231 | every event preserves the invariant and never creates or drops the handle, the listener or the duration |
| Player.PlayTransition | app/src/main/java/com/example/audioplayer/PlayerActivity.kt:184-194 | Play acts only with a handle and not playing; on success it sets playing and keeps the position; if `start` throws the playing flag is unchanged and the play error is shown |
| Player.PauseTransition | app/src/main/java/com/example/audioplayer/PlayerActivity.kt:200-209 | Pause acts only with a handle while playing; it clears playing and keeps the position; a failing `pause` changes nothing and shows no error |
| Player.StopTransition | app/src/main/java/com/example/audioplayer/PlayerActivity.kt:215-227 | Stop acts only with a handle while playing; it rewinds the shown position to 0, leaves the handle at its start after `stop` and `prepare`, and clears playing; on a throw only the stop error is shown and playing stays set |
| Player.CompletionTransition | app/src/main/java/com/example/audioplayer/PlayerActivity.kt:58-62 | completion clears playing and rewinds the shown position, and changes nothing else |
| Player.SeekTransitions | app/src/main/java/com/example/audioplayer/PlayerActivity.kt:158-172 | dragging changes only the shown position; releasing seeks the handle to the shown position, and without a handle or on a throw changes nothing |
| Player.VolumeTransition | app/src/main/java/com/example/audioplayer/PlayerActivity.kt:262-267 | the volume slider sets the shown volume and, with a handle, the same value on left and right; nothing else changes |
| Player.RunPreserves | app/src/main/java/com/example/audioplayer/PlayerActivity.kt:184-231 | after any sequence of events the invariant still holds and the handle, listener and duration are those set-up left |
| Player.NoHandleIsFinal | app/src/main/java/com/example/audioplayer/PlayerActivity.kt:184-231 | without a handle no sequence of events starts playback or replaces the error shown |
| Player.MissingResource | app/src/main/java/com/example/audioplayer/PlayerActivity.kt:51-67 | opening a song without a resource ends with no handle, not playing, and the not-found message, under any later events |
| Player.ReleaseCalls | app/src/main/java/com/example/audioplayer/PlayerActivity.kt:74-81 | disposal calls `release` at most once, and exactly when the screen holds a handle; `ReleaseOnce` ties this to set-up |
| Player.ReleaseOnce | app/src/main/java/com/example/audioplayer/PlayerActivity.kt:74-81 | disposal calls `release` once when set-up got past creating the handle and never otherwise, whatever happened in between |

## Left out

- Compose layout and rendering (scaffolds, cards, sliders, `EmptyLibraryMessage`) and the navigation host in MainActivity.kt: presentation and framework routing.
- `R.kt`: an empty placeholder object.
- `MediaPlayer` internals (decoding, `prepare`, `release`, the real playback position): a platform library. The handle is a presence flag, the position the screen's own calls gave it (`seekTo`, or `stop` with `prepare`), the channel volumes last set and the listener registration; its reported duration is an input to `Init`.
- The effect of completion on the handle's position: `OnCompletion` changes only the screen's values, and `committedPosition` keeps whatever the screen's last `seekTo` or stop set, although the platform rewinds a completed handle.
- The effect of a `stop` that succeeds followed by a `prepare` that throws on the handle's position: `committedPosition` is left unchanged.
- The position-polling loop (`LaunchedEffect` with `delay(1000)`): coroutine timing; the playback position advancing on its own is not modelled.
- The seek coroutine: `ReleaseSeek` applies `seekTo` at once instead of on a later coroutine turn.
- Reflection (`Class.forName`, `fields`) and `getIdentifier`: platform lookups, taken as inputs (`GetSongsFromRaw`'s optional name list, `Init`'s `resId`).
- `Float` arithmetic: a volume is an uninterpreted `real` level and the seek slider's `toInt()` truncation is not modelled; `DragSeek` takes the integer position.
- Logging, and the text of the error messages: each message is a constructor of `ErrorMessage`, without the exception's message text.
- Unicode case mapping: `ToUpper` covers ASCII letters only and keeps every other character, so expansions such as `ß` to `SS` are not modelled.
- `String.format` locale: digits are taken to be ASCII.
- Re-running the set-up effect when `songName` changes inside one composition: each player route starts a fresh composition, so `Init` always starts from the initial remembered values.
- A `setVolume` throw in the volume slider: the handler has no `try`, so a throw would end the process; the model has no failure for it.
