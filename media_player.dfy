/** The music library screen: the list of audio files found in the music
    folder, the index of the track being played (-1 for none), whether it is
    playing, and the position and duration shown as mm:ss.

    The playback object itself is not modelled. Each attempt to start a track
    is given as a `PlayerOutcome`: either every player call returned and the
    player reported a duration, or one of them threw. */
module MusicLibrary {
  import opened Common

  // ---------------------------------------------------------------------------
  // The mm:ss display

  /** Kotlin's Int `/`: the quotient truncated toward zero. */
  function TruncDiv(a: int, b: int): int
    requires b > 0
  {
    if a >= 0 then a / b else -((-a) / b)
  }

  /** Kotlin's Int `%`: the remainder takes the sign of the dividend. */
  function TruncRem(a: int, b: int): int
    requires b > 0
  {
    a - b * TruncDiv(a, b)
  }

  datatype Clock = Clock(minutes: int, seconds: int)

  /** The two numbers `ms / 1000 / 60` and `(ms / 1000) % 60` that the
      "%02d:%02d" label shows for a position or duration in milliseconds. */
  function ClockOf(ms: int): (c: Clock)
    ensures c.minutes * 60 + c.seconds == TruncDiv(ms, 1000)
    ensures -60 < c.seconds < 60
    ensures ms >= 0 ==> 0 <= c.minutes && 0 <= c.seconds < 60 && c.minutes * 60 + c.seconds == ms / 1000
    ensures ms < 0 ==> c.minutes <= 0 && c.seconds <= 0
  {
    var totalSeconds := TruncDiv(ms, 1000);
    Clock(TruncDiv(totalSeconds, 60), TruncRem(totalSeconds, 60))
  }

  // ---------------------------------------------------------------------------
  // The file filter of loadAudioFiles

  /** `File.extension`: what follows the last '.' of the name, or "" when the
      name has no '.'. */
  function Extension(name: string): (ext: string)
    ensures '.' !in ext
    ensures '.' !in name ==> ext == ""
    ensures '.' in name ==>
      |ext| < |name| && name[|name| - |ext| - 1] == '.' && name[|name| - |ext|..] == ext
    decreases |name|
  {
    if '.' !in name then ""
    else if name[|name| - 1] == '.' then ""
    else
      var prefix := name[..|name| - 1];
      assert '.' in prefix by {
        var k :| 0 <= k < |name| && name[k] == '.';
        assert prefix[k] == '.';
      }
      Extension(prefix) + [name[|name| - 1]]
  }

  function LowerChar(c: char): char {
    if 'A' <= c <= 'Z' then (c as int - 'A' as int + 'a' as int) as char else c
  }

  /** `String.lowercase()` on the letters A to Z. */
  function Lower(s: string): (r: string)
    ensures |r| == |s|
    ensures forall i :: 0 <= i < |s| ==> r[i] == LowerChar(s[i])
  {
    if s == [] then [] else [LowerChar(s[0])] + Lower(s[1..])
  }

  /** The extensions the library lists, in lower case. */
  const AudioExtensions: seq<string> := ["mp3", "wav", "ogg"]

  predicate IsAudioFile(name: string) {
    Lower(Extension(name)) in AudioExtensions
  }

  /** The `filter` of loadAudioFiles: the audio files of a folder listing. */
  function AudioFiles(listing: seq<string>): (kept: seq<string>)
    ensures |kept| <= |listing|
    ensures forall f :: f in kept <==> f in listing && IsAudioFile(f)
  {
    if listing == [] then []
    else (if IsAudioFile(listing[0]) then [listing[0]] else []) + AudioFiles(listing[1..])
  }

  /** The filter keeps the listing's order: filtering a listing split in two is
      filtering each part and joining them. */
  lemma {:induction false} AudioFilesAppend(a: seq<string>, b: seq<string>)
    ensures AudioFiles(a + b) == AudioFiles(a) + AudioFiles(b)
  {
    if a == [] {
      assert a + b == b;
    } else {
      assert (a + b)[0] == a[0];
      assert (a + b)[1..] == a[1..] + b;
      AudioFilesAppend(a[1..], b);
    }
  }

  /** A file is kept exactly when its extension is mp3, wav or ogg in any mix of
      cases. */
  lemma AudioFileCases(name: string)
    ensures IsAudioFile(name) <==>
      exists e :: e in AudioExtensions && |Extension(name)| == 3 &&
        forall i :: 0 <= i < 3 ==> LowerChar(Extension(name)[i]) == e[i]
  {
    var ext := Extension(name);
    if IsAudioFile(name) {
      assert Lower(ext) in AudioExtensions;
    }
    if exists e :: e in AudioExtensions && |ext| == 3 &&
         forall i :: 0 <= i < 3 ==> LowerChar(ext[i]) == e[i] {
      var e :| e in AudioExtensions && |ext| == 3 &&
                forall i :: 0 <= i < 3 ==> LowerChar(ext[i]) == e[i];
      assert Lower(ext) == e;
    }
  }

  /** loadAudioFiles: the audio files of the listing, or none when the folder
      could not be listed (`listFiles()` returned null). */
  function LoadAudioFiles(listing: Option<seq<string>>): (tracks: seq<string>)
    ensures listing.None? ==> tracks == []
    ensures listing.Some? ==> tracks == AudioFiles(listing.value)
  {
    match listing
    case None => []
    case Some(files) => AudioFiles(files)
  }

  // ---------------------------------------------------------------------------
  // Navigation and playback state

  /** What the player calls of one playTrack did: `Started` when reset,
      setDataSource, prepare, start and the duration query all returned,
      `Threw` when one of them threw. */
  datatype PlayerOutcome = Started(duration: int) | Threw

  /** The remembered state of the composable. */
  class MusicLibraryUI {
    const tracks: seq<string>
    var currentIndex: int
    var isPlaying: bool
    var position: int
    var duration: int

    /** Nothing selected (-1), or a track of the list. */
    ghost predicate Valid()
      reads this
    {
      currentIndex == -1 || 0 <= currentIndex < |tracks|
    }

    constructor (listing: Option<seq<string>>)
      ensures tracks == LoadAudioFiles(listing)
      ensures currentIndex == -1 && !isPlaying && position == 0 && duration == 0
      ensures Valid()
    {
      tracks := LoadAudioFiles(listing);
      currentIndex := -1;
      isPlaying := false;
      position := 0;
      duration := 0;
    }

    /** playTrack: an index outside the list changes nothing; otherwise the
        state is assigned only once every player call has returned. */
    method PlayTrack(index: int, player: PlayerOutcome)
      requires Valid()
      modifies this
      ensures Valid()
      ensures position == old(position)
      ensures 0 <= index < |tracks| && player.Started? ==>
        currentIndex == index && isPlaying && duration == player.duration
      ensures !(0 <= index < |tracks|) || player.Threw? ==>
        currentIndex == old(currentIndex) && isPlaying == old(isPlaying) && duration == old(duration)
    {
      if 0 <= index < |tracks| {
        match player
        case Started(d) =>
          duration := d;
          currentIndex := index;
          isPlaying := true;
        case Threw =>
      }
    }

    /** The "Previous" button: the track before, when there is one. */
    method OnPrevious(player: PlayerOutcome)
      requires Valid()
      modifies this
      ensures Valid()
      ensures position == old(position)
      ensures old(currentIndex) > 0 && player.Started? ==>
        currentIndex == old(currentIndex) - 1 && isPlaying && duration == player.duration
      ensures old(currentIndex) <= 0 || player.Threw? ==>
        currentIndex == old(currentIndex) && isPlaying == old(isPlaying) && duration == old(duration)
    {
      if currentIndex > 0 {
        PlayTrack(currentIndex - 1, player);
      }
    }

    /** The "Next" button: the track after, when there is one. */
    method OnNext(player: PlayerOutcome)
      requires Valid()
      modifies this
      ensures Valid()
      ensures position == old(position)
      ensures old(currentIndex) < |tracks| - 1 && player.Started? ==>
        currentIndex == old(currentIndex) + 1 && isPlaying && duration == player.duration
      ensures old(currentIndex) >= |tracks| - 1 || player.Threw? ==>
        currentIndex == old(currentIndex) && isPlaying == old(isPlaying) && duration == old(duration)
    {
      if currentIndex < |tracks| - 1 {
        PlayTrack(currentIndex + 1, player);
      }
    }

    /** The "Play/Pause" button: pauses a playing track, resumes a paused one. */
    method OnPlayPause()
      requires Valid()
      modifies this
      ensures Valid()
      ensures isPlaying == !old(isPlaying)
      ensures currentIndex == old(currentIndex) && position == old(position) && duration == old(duration)
    {
      if isPlaying {
        isPlaying := false;
      } else {
        isPlaying := true;
      }
    }

    /** The position timer: while the track plays, the position is copied from
        the player once per tick. `readings` are the player's answers to the
        successive ticks before the timer is cancelled. */
    method PollPosition(readings: seq<int>)
      requires Valid()
      modifies this
      ensures Valid()
      ensures position == if isPlaying && readings != [] then readings[|readings| - 1] else old(position)
      ensures currentIndex == old(currentIndex) && isPlaying == old(isPlaying) && duration == old(duration)
    {
      var i := 0;
      while isPlaying && i < |readings|
        invariant 0 <= i <= |readings|
        invariant i > 0 ==> isPlaying && position == readings[i - 1]
        invariant i == 0 ==> position == old(position)
        invariant !isPlaying ==> i == 0
        invariant currentIndex == old(currentIndex) && isPlaying == old(isPlaying) && duration == old(duration)
      {
        position := readings[i];
        i := i + 1;
      }
    }
  }
}
