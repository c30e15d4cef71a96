# Calculator, music library and location history: a Dafny model

This project models the state logic of three screens of a small Android demo
app. Everything else in the app is layout or a direct call into the platform.

- **Calculator** (`calculator.dfy`). Three remembered strings: `display`,
  `firstOperand` and `operator`. Four handlers change them: digit, operator,
  equals and clear. A `when` on the button label routes each of the sixteen
  keypad buttons to one handler. The floating-point side (`toDoubleOrNull`,
  the four Double operations, `Double.toString`, the literals 0.0 and 1.0) is
  a record of functions, `Arithmetic<Num>`, given to the calculator when it is
  created. So only the transitions, the "Error" rule and the default second
  operands are fixed. `CalculatorUI` is a class with the three fields. Its
  methods are tied to the pure transitions `DigitPressed`, `OperatorPressed`,
  `EqualsPressed` and `Cleared`. `Run` folds a sequence of presses, and
  `RunKeepsConsistent` proves by induction that the screen stays consistent
  under any sequence of presses.
- **Music library** (`media_player.dfy`). The track list is the audio files of
  the music folder. The state is `currentIndex` (-1 for nothing selected),
  `isPlaying`, and `position` and `duration` in milliseconds. The playback
  object is an oracle: each attempt to start a track either has all its player
  calls return, with a duration, or has one of them throw (`PlayerOutcome`).
  The state is assigned only after the calls return. The mm:ss split uses
  Kotlin's truncating Int `/` and `%`, written out. The file filter is
  `File.extension` (the text after the last '.') folded to lower case and
  compared with mp3, wav and ogg.
- **Location history** (`location.dfy`). The backing file is `Absent`, `Stored`
  (a list of entries) or `Malformed` (text that does not decode). The displayed
  history is a field. Read and write failures (IOException) are flags given to
  each operation. The class `LocationActivity` has the success callback,
  `saveHistory`, the prepend, the permission request and the permission-result
  callback. `SaveHistory` is tied to the pure function `Saved`,
  `OnLocationSuccess` and `FetchAndSaveLocation` to `LocationDelivered` (built
  on `LoadHistory` and `Saved`), `PrependEntry` to `[entry] + loaded`, and
  `RequestLocationPermission` and `OnPermissionsResult` also to
  `MissingPermissions` and `PermissionsResultAction`. `RecordAllNewestFirst`
  proves that a non-empty run of fixes, each read and written without an
  IOException, from a file that decodes, leaves the file and the screen holding
  them newest first, ahead of what the file held before.

`common.dfy` holds the `Option` datatype, which stands for a Kotlin nullable.

## Behaviour worth noting

- A backing file that cannot be decoded does not load as an empty history.
  `loadHistory` catches only `IOException`, and a decoding error is a different
  exception. It escapes the success callback, and nothing is changed. In the
  model, `LoadHistory` returns `DecodeFailed`, and the callback ends `Crashed`
  with the state untouched.
- The history is never loaded at start. The displayed history starts empty and
  is assigned only in the success callback; the file is read only when a fix
  arrives. The `LocationActivity` constructor sets `history` to `[]` and does
  not read the file.
- The clearing of the displayed history inside `saveHistory` has no lasting
  effect: the callback always overwrites it on the next line.
  `LocationDelivered` and `OnLocationSuccess` show the new history whether or
  not the write succeeded.
- A read of the backing file that throws an IOException erases the stored
  history. `loadHistory` turns the exception into an empty list, and the
  success callback then writes a list holding only the new fix over the whole
  file. `ReadFailureLosesHistory` states this.
- The track list is read once, when the music screen is first composed.
  `remember { loadAudioFiles() }` runs before the effect that asks for the
  media permission, and is never run again. If the permission was missing on
  that first run, the granted permission later does not bring the files back.
  The `MusicLibraryUI` constructor likewise takes one listing, and `tracks` is
  a constant.

## Model

| member | source | states |
|---|---|---|
| `Calculator.DigitPressed` | app/src/main/java/com/example/calculator/CalculatorActivity.kt:41-43 | the digit is appended to the display; operand and operator unchanged; consistency kept |
| `Calculator.OperatorPressed` | app/src/main/java/com/example/calculator/CalculatorActivity.kt:45-51 | empty display: no change at all; otherwise the first operand becomes the old display, the operator becomes `op` and the display is cleared; consistency kept when `op` is one of the four |
| `Calculator.SecondOperand` | app/src/main/java/com/example/calculator/CalculatorActivity.kt:56-59 | a second operand that parses is used; one that does not defaults to 1.0 for "/" and to 0.0 for every other operator |
| `Calculator.Evaluate` | app/src/main/java/com/example/calculator/CalculatorActivity.kt:55-61 | a result exists exactly when the operator is one of + - * / and the first operand parses; it is that operator applied to the parsed first operand and the defaulted second |
| `Calculator.EqualsPressed` | app/src/main/java/com/example/calculator/CalculatorActivity.kt:53-65 | first operand and operator always end "", so the screen is consistent; "Error" when the operator is not one of the four or the first operand does not parse; otherwise the shown result |
| `Calculator.EqualsWithEmptyDisplay` | app/src/main/java/com/example/calculator/CalculatorActivity.kt:53-61 | when the empty string does not parse (as `toDoubleOrNull` gives null for it), "=" with an empty display shows the operator applied to the parsed first operand and 1.0 for "/", 0.0 for + - * |
| `Calculator.Cleared` | app/src/main/java/com/example/calculator/CalculatorActivity.kt:67-71 | all three strings become "" |
| `Calculator.Route` | app/src/main/java/com/example/calculator/CalculatorActivity.kt:103-108 | a label reaches the digit handler exactly when it lies in the string range "0".."9", and the operator handler exactly when it is + - * /; "=" reaches equals and "C" reaches clear |
| `Calculator.SingleCharInDigitRange` | app/src/main/java/com/example/calculator/CalculatorActivity.kt:104 | a one-character label is in the string range "0".."9" exactly when it is a decimal digit |
| `Calculator.DigitRangeIsLexicographic` | app/src/main/java/com/example/calculator/CalculatorActivity.kt:104 | the range is lexicographic: "10" lies in it without being a digit |
| `Calculator.KeypadRouting` | app/src/main/java/com/example/calculator/CalculatorActivity.kt:88-108 | the keypad has 16 labels; none is ignored; a label reaches the digit handler exactly when it is a digit and the operator handler exactly when it is + - * / |
| `Calculator.PressKeepsConsistent` | app/src/main/java/com/example/calculator/CalculatorActivity.kt:102-109 | one press of any label keeps the screen consistent |
| `Calculator.RunKeepsConsistent` | app/src/main/java/com/example/calculator/CalculatorActivity.kt:37-71 | after any sequence of presses the operator is "", "+", "-", "*" or "/", and a first operand is held exactly when an operator is pending |
| `Calculator.EqualsWithoutOperatorIsError` | app/src/main/java/com/example/calculator/CalculatorActivity.kt:60-62 | pressing "C" then "=" shows "Error", whatever the screen held before |
| `Calculator.CalculatorUI.constructor` | app/src/main/java/com/example/calculator/CalculatorActivity.kt:37-39 | the three strings start empty (a consistent screen) |
| `Calculator.CalculatorUI.OnDigitPress` | app/src/main/java/com/example/calculator/CalculatorActivity.kt:41-43 | display becomes old display + digit; the other two fields unchanged; consistency kept |
| `Calculator.CalculatorUI.OnOperatorPress` | app/src/main/java/com/example/calculator/CalculatorActivity.kt:45-51 | empty display: object unchanged; otherwise the first operand is the old display, the operator is `op` and the display is ""; consistency kept when `op` is one of the four |
| `Calculator.CalculatorUI.OnEqualsPress` | app/src/main/java/com/example/calculator/CalculatorActivity.kt:53-65 | first operand and operator become "", so the screen is consistent; "Error" when the operator is not one of the four or the first operand does not parse; the new state is `EqualsPressed` of the old |
| `Calculator.CalculatorUI.OnClear` | app/src/main/java/com/example/calculator/CalculatorActivity.kt:67-71 | all three fields become "", a consistent screen |
| `Calculator.CalculatorUI.OnButtonClick` | app/src/main/java/com/example/calculator/CalculatorActivity.kt:100-109 | the new state is `Press` of the old state and the label; consistency is kept |
| `MusicLibrary.ClockOf` | app/src/main/java/com/example/calculator/MediaPlayerActivity.kt:145-150 | minutes*60 + seconds is the truncated ms/1000 and seconds lie strictly between -60 and 60; for ms >= 0, seconds are in 0..59, minutes are non-negative, and minutes*60 + seconds == ms/1000 |
| `MusicLibrary.Extension` | app/src/main/java/com/example/calculator/MediaPlayerActivity.kt:188 | the extension holds no '.'; it is "" when the name has no '.', otherwise the name ends with '.' followed by the extension |
| `MusicLibrary.Lower` | app/src/main/java/com/example/calculator/MediaPlayerActivity.kt:188 | lower-casing keeps the length and maps each character through the A-Z fold |
| `MusicLibrary.AudioFiles` | app/src/main/java/com/example/calculator/MediaPlayerActivity.kt:188 | a file is kept exactly when it is in the listing and its lower-cased extension is mp3, wav or ogg; the result is no longer than the listing |
| `MusicLibrary.AudioFilesAppend` | app/src/main/java/com/example/calculator/MediaPlayerActivity.kt:188 | the filter keeps listing order: filtering a + b is filtering a, then b |
| `MusicLibrary.AudioFileCases` | app/src/main/java/com/example/calculator/MediaPlayerActivity.kt:188 | a file is kept exactly when its extension has three characters that fold to mp3, wav or ogg |
| `MusicLibrary.LoadAudioFiles` | app/src/main/java/com/example/calculator/MediaPlayerActivity.kt:186-189 | a folder that cannot be listed gives no tracks; otherwise the filtered listing |
| `MusicLibrary.MusicLibraryUI.constructor` | app/src/main/java/com/example/calculator/MediaPlayerActivity.kt:67-71 | tracks are the loaded audio files; nothing selected (-1), not playing, position and duration 0 |
| `MusicLibrary.MusicLibraryUI.PlayTrack` | app/src/main/java/com/example/calculator/MediaPlayerActivity.kt:102-116 | an index outside the tracks, or a player call that throws, leaves index, playing flag and duration as they were; otherwise the index is `index`, playing is true and the duration is the player's; currentIndex stays -1 or a valid index |
| `MusicLibrary.MusicLibraryUI.OnPrevious` | app/src/main/java/com/example/calculator/MediaPlayerActivity.kt:156-158 | moves to currentIndex - 1 only when currentIndex > 0 and the player starts; otherwise nothing changes |
| `MusicLibrary.MusicLibraryUI.OnPlayPause` | app/src/main/java/com/example/calculator/MediaPlayerActivity.kt:161-168 | isPlaying flips; index, position and duration unchanged |
| `MusicLibrary.MusicLibraryUI.OnNext` | app/src/main/java/com/example/calculator/MediaPlayerActivity.kt:176-178 | moves to currentIndex + 1 only when currentIndex < lastIndex and the player starts; otherwise nothing changes |
| `MusicLibrary.MusicLibraryUI.PollPosition` | app/src/main/java/com/example/calculator/MediaPlayerActivity.kt:95-100 | while playing, the position becomes the player's last reading; when not playing it is unchanged; nothing else changes |
| `LocationHistory.LoadHistory` | app/src/main/java/com/example/calculator/LocationActivity.kt:117-125 | an absent file or a read IOException gives []; a stored list is returned as stored; undecodable text raises (exactly when the file is malformed and the read succeeds) |
| `LocationHistory.Saved` | app/src/main/java/com/example/calculator/LocationActivity.kt:127-134 | a failed write changes nothing; a successful write leaves the file holding exactly the entries and clears the displayed history |
| `LocationHistory.SaveThenLoad` | app/src/main/java/com/example/calculator/LocationActivity.kt:117-134 | round trip: a successful save and then a successful load give back the saved list |
| `LocationHistory.LocationDelivered` | app/src/main/java/com/example/calculator/LocationActivity.kt:104-110 | a null fix changes nothing; a fix raises exactly when loading raises; otherwise the history is the fix followed by the loaded entries in order, one longer, shown whether or not the write failed, and the file holds it unless the write failed |
| `LocationHistory.DisplayMatchesFileAfterWrite` | app/src/main/java/com/example/calculator/LocationActivity.kt:107-109 | after a fix whose write succeeds, the screen shows exactly what the file holds |
| `LocationHistory.LostWriteIsForgotten` | app/src/main/java/com/example/calculator/LocationActivity.kt:104-134 | a fix whose write fails is shown, then vanishes at the next fix, which reloads the file |
| `LocationHistory.ReadFailureLosesHistory` | app/src/main/java/com/example/calculator/LocationActivity.kt:104-123 | a fix whose read throws an IOException loads no history, so the write that follows leaves the file and the screen holding that fix alone |
| `LocationHistory.RecordAllNewestFirst` | app/src/main/java/com/example/calculator/LocationActivity.kt:104-110 | after any non-empty run of fixes with no read or write failure, the file and the screen hold the fixes newest first, followed by the earlier file contents; nothing is reordered or dropped |
| `LocationHistory.MissingPermissions` | app/src/main/java/com/example/calculator/LocationActivity.kt:80-86 | the list holds exactly the permissions not granted, each once, fine before coarse |
| `LocationHistory.PermissionsResultAction` | app/src/main/java/com/example/calculator/LocationActivity.kt:52-62 | fetch exactly when some permission in the answer is granted, else open the settings |
| `LocationHistory.LocationActivity.constructor` | app/src/main/java/com/example/calculator/LocationActivity.kt:46 | the displayed history starts empty and the file is not read |
| `LocationHistory.LocationActivity.PrependEntry` | app/src/main/java/com/example/calculator/LocationActivity.kt:107 | the in-place insert at index 0 gives the entry followed by the loaded list in its order |
| `LocationHistory.LocationActivity.SaveHistory` | app/src/main/java/com/example/calculator/LocationActivity.kt:127-134 | a failed write changes nothing; a successful write stores exactly the entries and clears the displayed history |
| `LocationHistory.LocationActivity.OnLocationSuccess` | app/src/main/java/com/example/calculator/LocationActivity.kt:104-110 | the new state is `LocationDelivered` of the old; a decoding error changes nothing |
| `LocationHistory.LocationActivity.FetchAndSaveLocation` | app/src/main/java/com/example/calculator/LocationActivity.kt:94-115 | without fine or coarse permission, or when the provider fails, nothing changes; otherwise the fix goes to the success callback |
| `LocationHistory.LocationActivity.RequestLocationPermission` | app/src/main/java/com/example/calculator/LocationActivity.kt:79-92 | the prompt asks for exactly the permissions not granted, each once, fine before coarse, and nothing changes; when none is missing, the fetch happens at once, and a decoding error in it changes nothing |
| `LocationHistory.LocationActivity.OnPermissionsResult` | app/src/main/java/com/example/calculator/LocationActivity.kt:49-63 | with neither permission granted in the answer, the settings page opens and nothing changes; otherwise the fetch runs, and a decoding error in it changes nothing |

## Left out

- Parsing, formatting and arithmetic on Double (`toDoubleOrNull`, `plus`, `minus`, `times`, `div` and `Double.toString`) are not interpreted. They are fields of `Arithmetic<Num>`, so nothing is proved about the numbers shown. The one fact about `toDoubleOrNull` the model uses, that it gives null for the empty string, is the predicate `EmptyDoesNotParse`, which `EqualsWithEmptyDisplay` takes as a requirement.
- `MusicLibrary.Lower` folds only the letters A to Z, while `String.lowercase()` maps all of Unicode. No other character lowercases to a letter of "mp3", "wav" or "ogg", so the filter's decision is the same.
- The `MediaPlayer` object (reset, setDataSource, prepare, start, pause, release, currentPosition, duration) is an oracle given as a parameter. Its internal state is not modelled. When one of the calls throws, `currentIndex`, `isPlaying` and `duration` keep their old values, whatever the player has already done. One example: when `reset` succeeds and `setDataSource` then throws, the old track has stopped, but `isPlaying` can stay true.
- `MusicLibrary.MusicLibraryUI.OnPlayPause`: the `pause` and `start` calls are not caught in the source, and one that throws would end the app. The model assumes they return.
- The position timer's `delay(1000)` and its cancellation when `isPlaying` changes are coroutine timing. `PollPosition` takes the player's readings for the ticks that run before it is cancelled.
- The Previous, Play/Pause and Next buttons are drawn only while `currentIndex != -1`, and the list only once the media permission is granted. That is UI: the model's handlers carry their own guards and need neither condition.
- The media permission request and its `permissionGranted` flag are not modelled. The flag only chooses which layout is drawn; the tracks were listed before the request was made.
- Listing the music folder (`getExternalStoragePublicDirectory`, `listFiles`) is file-system I/O. `LoadAudioFiles` takes the listing of file names, or `None` for a null listing.
- The Fused Location Provider, the cancellation token and the asynchronous listeners are not modelled. `FetchAndSaveLocation` takes the provider's answer as a parameter and delivers it at once. Events that come between the request and the answer are not modelled.
- The kotlinx.serialization JSON encoding is not modelled: the file holds an abstract list of entries. Encoding coordinates that are not finite, which the library refuses, is not modelled either.
- `LocationHistory.Saved`, `LocationHistory.LocationActivity.SaveHistory`: a write that throws part-way through may leave a truncated file. The model treats a failed write as leaving the file unchanged.
- Coordinates are an opaque type, `Degrees`, and `time` is an unbounded integer standing for a Kotlin Long.
- Date rendering (`SimpleDateFormat`), `Log` calls, opening the settings page (the model only reports that it opens), and all Compose layout are not modelled.
- MainActivity.kt launches only the location screen; its other two buttons do nothing. It is not part of this model.
