# Music pitch controller: a verified model of its core

The app lets a user upload up to eight audio tracks. For each track the user can shift
playback by semitone steps and see which musical key the track is now in. This project
models the two pieces of the app that hold logic:

- **The per-track player** (`src/components/AudioPlayer.tsx`), in module `AudioPlayer`
  (`audio_player.dfy`):
  - `calculateKeyFromPitch` is the pure function `KeyFromPitch`. It looks the base key up in the
    twelve-note table `NOTES` (JavaScript `indexOf`, which gives -1 for a name that is not there).
    It then adds the offset, takes JavaScript's truncating `%` (`JsRem12`) and moves a negative
    remainder back into [0, 11].
  - The index arithmetic is `ShiftIndex`. The lemmas are proved for any twelve-entry table
    (`Transpose…`) and then applied to `NOTES` (`Key…`). This keeps the note-name strings out of
    the arithmetic proofs.
  - The player's state hooks (`pitch`, `currentKey`, `isPlaying`) form the class `TrackController`,
    together with the song record it is rendered with (`songId`, `songKey`), whether the audio
    element is attached (`hasAudio`), and that element's playback rate.
  - The rate is kept as its semitone exponent `rateSemitones`: the element's rate is
    2^(rateSemitones/12).
  - Each handler is a method: `HandlePitchChange`, `HandleKeyChange`, `TogglePlay`, and the `ended`
    listener `HandleEnded`.
- **The track collection** (`src/App.tsx`), in module `App` (`app.dfy`):
  - The class `TrackCollection` holds the ordered `songs` and the localStorage record `stored`
    (`None` when absent).
  - It also holds two ghost histories: `minted`, the object URLs created, and `revoked`, the
    object URLs released.
  - The new lists are built by pure functions, as the source builds them with
    `map`/`filter`/`find`/`slice`: `NewSongs`, `Uploaded`, `Find`, `Without`, `WithKey`,
    `Project`, `Restore`.
  - The handlers are methods that replace the list with one of those functions' results and record
    their side effects. `HandleClearAll` revokes URLs in a loop, as the source's `forEach` does.
- `Song` (`src/types.ts`) is a datatype in module `Types` (`types.dfy`). The browser `File` is
  reduced to its name plus an untouched payload.

Things the browser supplies are parameters:
- the ids made by `Math.random` (`ids`);
- the URLs returned by `URL.createObjectURL` (`urls`);
- the outcome of the `play()`/`pause()` promise (`ok`).

Ids are not assumed distinct. With repeated ids, `Without` removes every song with the id, but
only the first one's URL is revoked, exactly as the code does.

Facts about the code that the model keeps:
- Ids come from `Math.random` and are not guaranteed unique.
- URLs are minted for every selected file before the list is cut to eight, so the URLs of
  dropped files are never revoked (`DroppedUrlUnheld`).
- Deleting a repeated id removes every song with that id but revokes one URL.
- Ten files added to three uploaded songs: five kept, five dropped (`UploadPastCapScenario`).
- `key` is any string, for instance one read back from storage. `KeyFromPitch` therefore takes
  any string:
  - it still returns a note;
  - an unknown key has index -1 and transposes as "B" does (`UnknownKeyActsAsB`);
  - `currentKey` starts as the raw `song.key`, so the displayed key matches
    `KeyFromPitch(songKey, pitch)` from mount only when the key is a note (the
    `TrackController` constructor).

## Model

| member | source | states |
|---|---|---|
| AudioPlayer.IndexOf | src/components/AudioPlayer.tsx:14 | `indexOf`: the result is -1 or a position holding the key; no earlier position holds it, and with -1 no position does |
| AudioPlayer.IndexOfDistinct | src/components/AudioPlayer.tsx:14 | in a table without repeats, looking up the entry at position j gives j |
| AudioPlayer.NotesDistinct | src/components/AudioPlayer.tsx:5 | the twelve names of `NOTES` are pairwise distinct |
| AudioPlayer.JsRem12 | src/components/AudioPlayer.tsx:15 | JavaScript `% 12`: in [0, 11] for a non-negative dividend, in [-11, 0] for a negative one, and always congruent to the dividend modulo 12 |
| AudioPlayer.ShiftIndex | src/components/AudioPlayer.tsx:15-16 | after the negative-remainder correction the index is always in [0, 11] |
| AudioPlayer.ShiftIsTrueModulo | src/components/AudioPlayer.tsx:15-16 | truncating remainder plus correction equals the true (Euclidean) modulo of index + offset, for every integer |
| AudioPlayer.ShiftCompose | src/components/AudioPlayer.tsx:15-16 | shifting an index by a and then by b is shifting it by a + b |
| AudioPlayer.Transpose | src/components/AudioPlayer.tsx:13-18 | the transposed key is an entry of the table, for any base key and any integer offset |
| AudioPlayer.TransposeIsTrueModulo | src/components/AudioPlayer.tsx:13-18 | the result is the entry at (index of base key + offset) mod 12 |
| AudioPlayer.TransposeAtZero | src/components/AudioPlayer.tsx:13-18 | offset 0 returns any base key that is in the table |
| AudioPlayer.TransposePeriodic | src/components/AudioPlayer.tsx:15-16 | offsets p and p + 12 give the same key, for every integer p |
| AudioPlayer.TransposeCompose | src/components/AudioPlayer.tsx:13-18 | transposing by a and then by b equals transposing by a + b |
| AudioPlayer.TransposeInverse | src/components/AudioPlayer.tsx:13-18 | transposing a key of the table by p and then by -p returns it |
| AudioPlayer.TransposeUnknown | src/components/AudioPlayer.tsx:14-16 | a base key missing from the table transposes as the last entry does |
| AudioPlayer.KeyFromPitch | src/components/AudioPlayer.tsx:13-18 | `calculateKeyFromPitch` returns a member of `NOTES` for every string key and every integer offset |
| AudioPlayer.KeyAtZeroOffset | src/components/AudioPlayer.tsx:13-18 | `calculateKeyFromPitch(k, 0) == k` for every note k |
| AudioPlayer.KeyPeriodic | src/components/AudioPlayer.tsx:15-16 | `calculateKeyFromPitch(k, p + 12) == calculateKeyFromPitch(k, p)` for every key and every integer p, far outside ±12 included |
| AudioPlayer.KeyCompose | src/components/AudioPlayer.tsx:13-18 | shifting a key by a and the result by b gives the key shifted by a + b |
| AudioPlayer.KeyInverse | src/components/AudioPlayer.tsx:13-18 | shifting a note by p and back by -p returns the note |
| AudioPlayer.UnknownKeyActsAsB | src/components/AudioPlayer.tsx:14-16 | a key that is not a note (index -1) transposes exactly as "B" |
| AudioPlayer.ClampPitch | src/components/AudioPlayer.tsx:21 | the new pitch lies in [-12, 12]; it is the requested value when that is in range, 12 above the range and -12 below it |
| AudioPlayer.TrackController.constructor | src/components/AudioPlayer.tsx:8-10 | a mounted player is not playing, has pitch 0, rate exponent 0 and shows the song's key; that key equals `KeyFromPitch(songKey, 0)` when it is a note |
| AudioPlayer.TrackController.HandlePitchChange | src/components/AudioPlayer.tsx:20-32 | pitch becomes clamp(old + step), so it stays in [-12, 12] and +1 at 12 stays 12; the audio element's rate exponent follows the pitch only when the element is attached; the shown key is recomputed from the song's own key and the absolute pitch; the play flag and song key are unchanged |
| AudioPlayer.TrackController.HandleKeyChange | src/components/AudioPlayer.tsx:34-42 | reports `(song.id, newKey)` to the collection; pitch becomes 0 and the shown key becomes the new key; the rate goes back to 1 (exponent 0) when the element is attached; the play flag is unchanged |
| AudioPlayer.TrackController.ReceiveSong | src/App.tsx:114-121 | a re-render with the updated record changes only the key the player reads; after a key change to a note, the shown key is in sync with key and pitch again |
| AudioPlayer.TrackController.TogglePlay | src/components/AudioPlayer.tsx:44-57 | without an audio element nothing happens; otherwise it calls pause when playing and play when not, and the flag flips only when that call succeeds |
| AudioPlayer.TrackController.HandleEnded | src/components/AudioPlayer.tsx:73-75 | the play flag is false afterwards whatever it was, so a repeated `ended` changes nothing |
| App.NewSongs | src/App.tsx:39-45 | one song per selected file, in input order, with that file's id, name, file and URL and key "C" |
| App.Uploaded | src/App.tsx:46 | the new list has min(8, old + new) songs; the old songs are an unchanged prefix; the appended songs are the first files' songs in input order |
| App.DroppedUrlUnheld | src/App.tsx:39-46 | a URL minted for a file past the cap is held by no song of the new list, so nothing revokes it later |
| App.Find | src/App.tsx:52 | `find` gives nothing exactly when no song has the id, and otherwise the first song with the id |
| App.Without | src/App.tsx:57 | `filter` keeps exactly the songs whose id differs; an absent id changes nothing; a present id shortens the list. Its own contract fixes membership only; order and repeats are fixed by `WithoutDistributes` together with the one-element cases |
| App.WithoutDistributes | src/App.tsx:57 | filtering a concatenation is concatenating the filtered parts, so the surviving songs keep their order |
| App.WithKey | src/App.tsx:62-64 | length and order are kept; songs with the id get the new key; every other field, and every other song, is unchanged |
| App.WithKeyAbsent | src/App.tsx:62-64 | re-keying an id no song has leaves the list equal to the old one |
| App.WithKeyLastWins | src/App.tsx:62-64 | re-keying the same id twice equals re-keying it once with the second key |
| App.Urls | src/App.tsx:69-71 | the URLs of the songs, one per song, in list order |
| App.Project | src/App.tsx:27-32 | the saved list has the same length and order as the songs and keeps exactly id, name, key and url |
| App.Restore | src/App.tsx:15-19 | the restored list has one song per record with the record's id, name, key and url and a placeholder file of that name |
| App.ProjectRestore | src/App.tsx:15-32 | saving a restored list gives back the saved records |
| App.RestoreProject | src/App.tsx:15-32 | restoring a saved list gives back every song with identical id, name, key and url and a placeholder file |
| App.TrackCollection.constructor | src/App.tsx:7 | a session starts with no songs, no minted or revoked URLs, and whatever storage held |
| App.TrackCollection.LoadSaved | src/App.tsx:10-22 | a stored record replaces the list by its restored songs; with no record the list is unchanged |
| App.TrackCollection.SaveSongs | src/App.tsx:25-34 | storage holds the projection of the current list |
| App.TrackCollection.HandleFileUpload | src/App.tsx:36-48 | accepted exactly when there are files and fewer than 8 songs; if accepted, the list becomes `Uploaded(...)` and a URL has been minted for every file, dropped ones included; if not, list and minted URLs are unchanged; the cap of 8 is kept |
| App.TrackCollection.HandleDelete | src/App.tsx:50-59 | the list loses every song with the id and keeps the rest in order; the URL of the first matching song is revoked; an absent id revokes nothing and leaves the list unchanged |
| App.TrackCollection.HandleUpdateKey | src/App.tsx:61-65 | the list becomes `WithKey(old, id, newKey)`; nothing else changes |
| App.TrackCollection.HandleClearAll | src/App.tsx:67-74 | every current song's URL is appended to `revoked` in list order, the list is empty and the stored record is removed |
| App.ChangeOriginalKey | src/components/AudioPlayer.tsx:34-41 | a key picked in a player reaches the collection for that player's song id, resets the player's pitch and shows the new key, which is then in sync with the song's key; the rate goes back to 1 (exponent 0) when the audio element is attached and is untouched otherwise; the play flag is unchanged |

## Left out

- The playback rate `Math.pow(2, newPitch / 12)` is floating point. It is kept as the integer exponent `rateSemitones` (rate 1 is exponent 0), so the float identities (rate(12) = 2, rate(-p) = 1/rate(p)) are not stated.
- `preservesPitch = false` is a browser flag with no logic and is not modelled.
- The `play()`/`pause()` promises and the `console.error` on rejection are foreign media calls. They are modelled by the outcome parameter `ok` of `TogglePlay`.
- TogglePlay: is one atomic step. In the code the flag is read before the `await` and written after it (src/components/AudioPlayer.tsx:47-52), so two clicks while `play()` is pending both call `play()` and leave the flag true; the model cannot produce that sequence. Its `ok` also over-approximates `pause()`, which returns no promise and cannot fail, so `Pause` with `ok == false` does not occur in the code.
- The React lifecycle is not modelled: the unmount reset of `currentTime` (src/components/AudioPlayer.tsx:59-67), listener attach and detach (src/components/AudioPlayer.tsx:69-82), and the scheduling of the load and save effects. `LoadSaved` and `SaveSongs` model the state changes of those effects, and a caller decides when they run. In the app the save effect also runs after `handleClearAll`, so the removed record is written back as an empty list.
- `localStorage` and `JSON.parse`/`JSON.stringify` are I/O and foreign serialisation. Storage is the field `stored` of saved records. Malformed stored JSON is unhandled in the code and is not modelled.
- `URL.createObjectURL`/`URL.revokeObjectURL` are foreign calls. The URLs are inputs, and only the ghost histories `minted` and `revoked` record them.
- `Math.random().toString(36)` ids are randomness. They are inputs and are not assumed unique.
- The difference between `setSongs(prev => …)` and the captured `songs` is a render-scheduling effect. Each handler is one atomic step on the current list.
- JSX, CSS and icons are presentation only.
- A `null` file list behaves like an empty one and is modelled as the empty sequence.
- JavaScript numbers are doubles. The model uses unbounded integers, which agree with the app for every offset the UI can produce.
- The native audio controls can start or stop playback without going through `togglePlay`. They do not touch `isPlaying` and are outside the model.
