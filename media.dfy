/**
 * `OSSMediaManager`, the legacy playback manager: the playback and metadata
 * bookkeeping it keeps beside an Android `MediaPlayer` and the bound
 * `OSSMediaService`, and its `m:ss` time label.
 *
 * The player is abstracted to present or absent and whether it plays; the
 * service to bound or not, plus the calls the manager makes on it.
 */
module Media {
  import opened Optional
  import opened Numeric
  import opened Decimal

  /** The `PlaybackStateCompat` states the manager reports. */
  datatype PlaybackState = StateNone | Stopped | Paused | Playing | Error

  /** A decoded artwork image; only its identity matters here. */
  datatype Bitmap = Bitmap(handle: nat)

  /** A call of the manager on `OSSMediaService`. */
  datatype ServiceCall =
    | UpdatePlaybackState(state: PlaybackState, position: Long)
    | UpdateMetadata(title: string, artist: Option<string>, artwork: Option<Bitmap>)
    | SetDirectArtwork(artwork: Option<Bitmap>)

  /** The `MediaPlayer`, as far as the manager looks at it. */
  datatype Player = Player(playing: bool)

  /** The artist sent with every metadata update. */
  const ARTIST: string := "Old Skool Sessions"

  /** The manager's fields, and the calls it has made on the service. */
  datatype MediaState = MediaState(
    player: Option<Player>,
    serviceBound: bool,
    sourceFragmentId: int,
    isPlaying: bool,
    currentPosition: Long,
    duration: Long,
    currentTitle: Option<string>,
    currentArtwork: Option<string>,
    cachedTitle: Option<string>,
    cachedArtwork: Option<Bitmap>,
    pendingMetadataUpdate: bool,
    calls: seq<ServiceCall>)

  /** A new manager: no player, the service not yet connected. */
  const Initial: MediaState :=
    MediaState(None, false, 0, false, 0, 0, None, None, None, None, false, [])

  /** `isPlaying` tells the truth about the player, and nothing plays without one. */
  predicate PlayerAgrees(s: MediaState)
  {
    if s.player.None? then !s.isPlaying else s.isPlaying == s.player.value.playing
  }

  /** Nothing is cached to send as metadata. */
  predicate NoMetadata(s: MediaState)
  {
    s.cachedTitle.None? && s.cachedArtwork.None?
  }

  /** The metadata update the cached title and artwork call for: none when nothing is cached. */
  function MetadataCalls(s: MediaState): seq<ServiceCall>
  {
    if NoMetadata(s) then [] else [UpdateMetadata(s.cachedTitle.GetOr(""), Some(ARTIST), s.cachedArtwork)]
  }

  /** `mediaService?.updatePlaybackState(state, position)`. */
  function Report(s: MediaState, state: PlaybackState, position: Long): (r: MediaState)
    ensures s.serviceBound ==> r == s.(calls := s.calls + [UpdatePlaybackState(state, position)])
    ensures !s.serviceBound ==> r == s
  {
    if s.serviceBound then s.(calls := s.calls + [UpdatePlaybackState(state, position)]) else s
  }

  /** `mediaService?.update...`: a call made only when the service is bound. */
  function Send(s: MediaState, call: ServiceCall): MediaState
  {
    if s.serviceBound then s.(calls := s.calls + [call]) else s
  }

  /**
   * `updateMediaSessionMetadata`: sends the cached title and artwork, or with
   * no service remembers that an update is owed; with nothing cached it
   * does nothing.
   */
  function MetadataUpdateStep(s: MediaState): (r: MediaState)
    ensures PlayerAgrees(s) ==> PlayerAgrees(r)
    ensures NoMetadata(s) ==> r == s
    ensures r == s.(pendingMetadataUpdate := r.pendingMetadataUpdate, calls := r.calls)
    ensures r.pendingMetadataUpdate == (s.pendingMetadataUpdate || (!NoMetadata(s) && !s.serviceBound))
    ensures !s.serviceBound ==> r.calls == s.calls
    ensures s.serviceBound && !NoMetadata(s) ==>
      r.calls == s.calls + [UpdateMetadata(s.cachedTitle.GetOr(""), Some(ARTIST), s.cachedArtwork)]
    ensures s.serviceBound ==> r.calls == s.calls + MetadataCalls(s)
  {
    if NoMetadata(s) then s
    else if s.serviceBound then
      s.(calls := s.calls + [UpdateMetadata(s.cachedTitle.GetOr(""), Some(ARTIST), s.cachedArtwork)])
    else
      s.(pendingMetadataUpdate := true)
  }

  /** `ensureMetadataSync`: delivers an owed update and clears the flag. */
  function MetadataSyncStep(s: MediaState): (r: MediaState)
    ensures PlayerAgrees(s) ==> PlayerAgrees(r)
    ensures !r.pendingMetadataUpdate
    ensures !s.pendingMetadataUpdate ==> r == s
    ensures r == s.(pendingMetadataUpdate := false, calls := r.calls)
    ensures s.pendingMetadataUpdate && s.serviceBound ==> r.calls == s.calls + MetadataCalls(s)
    ensures !s.serviceBound ==> r.calls == s.calls
  {
    if s.pendingMetadataUpdate then MetadataUpdateStep(s).(pendingMetadataUpdate := false) else s
  }

  /** After a play or pause: refresh the metadata and report, or owe an update. */
  function AfterToggle(s: MediaState, state: PlaybackState, playerPosition: Int): MediaState
  {
    if s.serviceBound then Report(MetadataUpdateStep(s), state, playerPosition)
    else s.(pendingMetadataUpdate := true)
  }

  /**
   * `togglePlayPause`: nothing without a player; otherwise starts a player that
   * is not playing and pauses one that is. `playerPosition` is what the
   * player reports as its position.
   */
  function ToggleStep(s: MediaState, playerPosition: Int): (r: MediaState)
    ensures PlayerAgrees(s) ==> PlayerAgrees(r)
    ensures s.player.None? ==> r == s
    ensures s.player.Some? ==>
      && r.isPlaying == !s.player.value.playing
      && r.player == Some(Player(r.isPlaying))
      && r.currentPosition == s.currentPosition && r.duration == s.duration
      && r.currentTitle == s.currentTitle && r.currentArtwork == s.currentArtwork
      && r.cachedTitle == s.cachedTitle && r.cachedArtwork == s.cachedArtwork
      && r.serviceBound == s.serviceBound && r.sourceFragmentId == s.sourceFragmentId
    ensures s.player.Some? && !s.serviceBound ==> r.pendingMetadataUpdate && r.calls == s.calls
    ensures s.player.Some? && s.serviceBound && !s.player.value.playing ==>
      r.calls == s.calls + (if s.pendingMetadataUpdate then MetadataCalls(s) else []) + MetadataCalls(s)
                 + [UpdatePlaybackState(Playing, playerPosition)]
    ensures s.player.Some? && s.serviceBound && s.player.value.playing ==>
      r.calls == s.calls + MetadataCalls(s) + [UpdatePlaybackState(Paused, playerPosition)]
    ensures s.player.Some? && s.serviceBound && !s.player.value.playing ==> !r.pendingMetadataUpdate
    ensures s.player.Some? && s.serviceBound && s.player.value.playing ==>
      r.pendingMetadataUpdate == s.pendingMetadataUpdate
  {
    match s.player
    case None => s
    case Some(p) =>
      if !p.playing then
        AfterToggle(MetadataSyncStep(s).(player := Some(Player(true)), isPlaying := true), Playing, playerPosition)
      else
        AfterToggle(s.(player := Some(Player(false)), isPlaying := false), Paused, playerPosition)
  }

  /** `seekTo(position)`: the new position, reported as playing or paused as before. */
  function SeekStep(s: MediaState, position: Long): (r: MediaState)
    ensures PlayerAgrees(s) ==> PlayerAgrees(r)
    ensures r.currentPosition == position && r.isPlaying == s.isPlaying
    ensures r == s.(currentPosition := position, calls := r.calls)
    ensures s.serviceBound ==>
      r.calls == s.calls + [UpdatePlaybackState(if s.isPlaying then Playing else Paused, position)]
    ensures !s.serviceBound ==> r.calls == s.calls
  {
    Report(s.(currentPosition := position), if s.isPlaying then Playing else Paused, position)
  }

  /** `updateProgress`: takes the player's position, only while playing. */
  function ProgressStep(s: MediaState, playerPosition: Int): (r: MediaState)
    ensures PlayerAgrees(s) ==> PlayerAgrees(r)
    ensures r == s.(currentPosition := r.currentPosition)
    ensures r.currentPosition != s.currentPosition ==> s.isPlaying && s.player.Some?
    ensures s.isPlaying && s.player.Some? ==> r.currentPosition == playerPosition
  {
    if s.player.Some? && s.isPlaying then s.(currentPosition := playerPosition) else s
  }

  /** The player, stopped and reset: still there, no longer playing. */
  function Halted(p: Option<Player>): (r: Option<Player>)
    ensures r.Some? == p.Some? && (r.Some? ==> !r.value.playing)
  {
    if p.Some? then Some(Player(false)) else None
  }

  /**
   * `cleanupPlayback`: stops and resets the player, back to position 0,
   * reported as stopped; title, duration and cached metadata stay.
   */
  function CleanupStep(s: MediaState): (r: MediaState)
    ensures PlayerAgrees(s) ==> PlayerAgrees(r)
    ensures !r.isPlaying && r.currentPosition == 0
    ensures r.player == Halted(s.player)
    ensures r == s.(player := r.player, isPlaying := false, currentPosition := 0, calls := r.calls)
    ensures r.calls == Report(s, Stopped, 0).calls
  {
    Report(s.(player := Halted(s.player), isPlaying := false, currentPosition := 0), Stopped, 0)
  }

  /**
   * `prepareAudio`, up to the asynchronous preparation: the previous player is
   * stopped and reset and a new one, not playing, replaces it, and the UI
   * sees the new title and artwork at position 0. `dataSourceAccepted` is
   * false when building the player throws (a bad URL): then the old player
   * stays and an error is reported.
   */
  function PrepareStep(s: MediaState, title: string, artworkUrl: Option<string>,
                       sourceFragmentId: int, dataSourceAccepted: bool): (r: MediaState)
    ensures PlayerAgrees(s) ==> PlayerAgrees(r)
    ensures r.sourceFragmentId == sourceFragmentId && !r.isPlaying
    ensures r.duration == s.duration && r.cachedTitle == s.cachedTitle && r.cachedArtwork == s.cachedArtwork
    ensures r.pendingMetadataUpdate == s.pendingMetadataUpdate && r.serviceBound == s.serviceBound
    ensures dataSourceAccepted ==>
      && r.player == Some(Player(false))
      && r.currentTitle == Some(title) && r.currentArtwork == artworkUrl && r.currentPosition == 0
      && r.calls == s.calls
    ensures !dataSourceAccepted ==>
      && r.player == Halted(s.player)
      && r.currentTitle == s.currentTitle && r.currentArtwork == s.currentArtwork
      && r.currentPosition == s.currentPosition
      && r.calls == Report(s, Error, 0).calls
  {
    var cleaned := s.(sourceFragmentId := sourceFragmentId, player := Halted(s.player));
    if dataSourceAccepted then
      cleaned.(player := Some(Player(false)), currentTitle := Some(title), currentArtwork := artworkUrl,
               currentPosition := 0, isPlaying := false)
    else
      Report(cleaned.(isPlaying := false), Error, 0)
  }

  /**
   * The player's `onPrepared` listener: records the duration, caches the
   * title with no artwork yet, sends that metadata and reports paused at 0.
   */
  function PreparedStep(s: MediaState, title: string, playerDuration: Int): (r: MediaState)
    ensures PlayerAgrees(s) ==> PlayerAgrees(r)
    ensures r.duration == playerDuration && r.cachedTitle == Some(title) && r.cachedArtwork == None
    ensures r.isPlaying == s.isPlaying && r.player == s.player && r.currentPosition == s.currentPosition
    ensures r == s.(duration := playerDuration, cachedTitle := Some(title), cachedArtwork := None,
                    pendingMetadataUpdate := r.pendingMetadataUpdate, calls := r.calls)
    ensures !s.serviceBound ==> r.pendingMetadataUpdate && r.calls == s.calls
    ensures s.serviceBound ==>
      && r.pendingMetadataUpdate == s.pendingMetadataUpdate
      && r.calls == s.calls + [UpdateMetadata(title, Some(ARTIST), None), UpdatePlaybackState(Paused, 0)]
  {
    Report(MetadataUpdateStep(s.(duration := playerDuration, cachedTitle := Some(title), cachedArtwork := None)), Paused, 0)
  }

  /**
   * The artwork callback of `prepareAudio`: caches the image, then with the
   * service bound sends the metadata and the image, and without it owes an
   * update.
   */
  function ArtworkStep(s: MediaState, artwork: Option<Bitmap>): (r: MediaState)
    ensures PlayerAgrees(s) ==> PlayerAgrees(r)
    ensures r.cachedArtwork == artwork
    ensures r == s.(cachedArtwork := artwork, pendingMetadataUpdate := r.pendingMetadataUpdate, calls := r.calls)
    ensures !s.serviceBound ==> r.pendingMetadataUpdate && r.calls == s.calls
    ensures s.serviceBound ==>
      && r.pendingMetadataUpdate == s.pendingMetadataUpdate
      && r.calls == s.calls + MetadataCalls(s.(cachedArtwork := artwork)) + [SetDirectArtwork(artwork)]
  {
    var cached := s.(cachedArtwork := artwork);
    if s.serviceBound then Send(MetadataUpdateStep(cached), SetDirectArtwork(artwork))
    else cached.(pendingMetadataUpdate := true)
  }

  /** The player's `onCompletion` listener: no longer playing, reported as stopped. */
  function CompletionStep(s: MediaState): (r: MediaState)
    ensures PlayerAgrees(s) ==> PlayerAgrees(r)
    ensures !r.isPlaying && r.player == Halted(s.player)
    ensures r == s.(player := r.player, isPlaying := false, calls := Report(s, Stopped, 0).calls)
  {
    Report(s.(player := Halted(s.player), isPlaying := false), Stopped, 0)
  }

  /** The player's `onError` listener: no longer playing, reported as an error. */
  function PlayerErrorStep(s: MediaState): (r: MediaState)
    ensures PlayerAgrees(s) ==> PlayerAgrees(r)
    ensures !r.isPlaying && r.player == Halted(s.player)
    ensures r == s.(player := r.player, isPlaying := false, calls := Report(s, Error, 0).calls)
  {
    Report(s.(player := Halted(s.player), isPlaying := false), Error, 0)
  }

  /** The notification's play button: toggles only when not playing, so it starts a paused player. */
  function PlayClickStep(s: MediaState, playerPosition: Int): (r: MediaState)
    ensures PlayerAgrees(s) ==> PlayerAgrees(r)
    ensures s.isPlaying ==> r == s
    ensures !s.isPlaying ==> r == ToggleStep(s, playerPosition)
    ensures PlayerAgrees(s) && s.player.Some? ==> r.isPlaying
  {
    if !s.isPlaying then ToggleStep(s, playerPosition) else s
  }

  /** The notification's pause button: toggles only when playing, so it pauses a playing player. */
  function PauseClickStep(s: MediaState, playerPosition: Int): (r: MediaState)
    ensures PlayerAgrees(s) ==> PlayerAgrees(r)
    ensures !s.isPlaying ==> r == s
    ensures s.isPlaying ==> r == ToggleStep(s, playerPosition)
    ensures PlayerAgrees(s) ==> !r.isPlaying
  {
    if s.isPlaying then ToggleStep(s, playerPosition) else s
  }

  /** The notification's stop button: with a player, stops it and reports stopped. */
  function StopClickStep(s: MediaState): (r: MediaState)
    ensures PlayerAgrees(s) ==> PlayerAgrees(r)
    ensures s.player.None? ==> r == s
    ensures s.player.Some? ==>
      r == s.(player := Some(Player(false)), isPlaying := false, calls := Report(s, Stopped, 0).calls)
  {
    if s.player.Some? then Report(s.(player := Some(Player(false)), isPlaying := false), Stopped, 0) else s
  }

  /**
   * `release`: drops the player, clears the playback fields and the cached
   * title and artwork (but not `pendingMetadataUpdate` or `sourceFragmentId`),
   * then tells the service there is nothing playing and no metadata.
   */
  function ReleaseStep(s: MediaState): (r: MediaState)
    ensures PlayerAgrees(s) ==> PlayerAgrees(r)
    ensures r.player.None? && !r.isPlaying
    ensures r.currentPosition == 0 && r.duration == 0
    ensures r.currentTitle.None? && r.currentArtwork.None?
    ensures r.cachedTitle.None? && r.cachedArtwork.None?
    ensures r.serviceBound == s.serviceBound && r.sourceFragmentId == s.sourceFragmentId
    ensures r.pendingMetadataUpdate == s.pendingMetadataUpdate
    ensures s.serviceBound ==>
      r.calls == s.calls + [UpdatePlaybackState(StateNone, 0), UpdateMetadata("", None, None)]
    ensures !s.serviceBound ==> r.calls == s.calls
  {
    var cleared := s.(player := None, isPlaying := false, currentPosition := 0, duration := 0,
                      currentTitle := None, currentArtwork := None, cachedTitle := None, cachedArtwork := None);
    Send(Report(cleared, StateNone, 0), UpdateMetadata("", None, None))
  }

  /** `destroy`: `release`, then the service is unbound. */
  function DestroyStep(s: MediaState): (r: MediaState)
    ensures PlayerAgrees(s) ==> PlayerAgrees(r)
    ensures r == ReleaseStep(s).(serviceBound := false)
  {
    ReleaseStep(s).(serviceBound := false)
  }

  /**
   * `formatTime(ms)` = `String.format(Locale.US, "%d:%02d", minutes, seconds)`
   * with Kotlin's truncating `/` and `%`. For a non-negative time it shows
   * the whole minutes unpadded and the seconds within the minute as two
   * digits, and reads back as exactly those.
   */
  function FormatTime(ms: Long): (s: string)
    ensures ms >= 0 ==> ParseClock(s) == Some((ms / 1000 / 60, ms / 1000 % 60))
    ensures ms >= 0 ==> |s| >= 4 && (s[0] == '0' ==> s[1] == ':')
  {
    var totalSeconds := Quot(ms, 1000);
    var minutes := Quot(totalSeconds, 60);
    var seconds := Rem(totalSeconds, 60);
    var text := FormatD(minutes) + ":" + Format02D(seconds);
    if ms >= 0 then ParseClockOf(FormatD(minutes), Format02D(seconds)); text else text
  }

  /** The seconds field is within the minute, and the two fields add up to the whole seconds. */
  lemma FormatTimeFields(ms: Long)
    requires ms >= 0
    ensures ParseClock(FormatTime(ms)).Some?
    ensures var clock := ParseClock(FormatTime(ms)).value; clock.1 < 60 && clock.0 * 60 + clock.1 == ms / 1000
  {
  }

  /** Two non-negative times get the same label exactly when they fall in the same whole second. */
  lemma FormatTimeSameSecond(a: Long, b: Long)
    requires a >= 0 && b >= 0
    ensures FormatTime(a) == FormatTime(b) <==> a / 1000 == b / 1000
  {
    if FormatTime(a) == FormatTime(b) {
      FormatTimeFields(a);
      FormatTimeFields(b);
    }
  }

  /** With a player, a toggle flips `isPlaying`, and a second toggle flips it back. */
  lemma ToggleFlips(s: MediaState, p: Int, q: Int)
    requires PlayerAgrees(s) && s.player.Some?
    ensures ToggleStep(s, p).isPlaying == !s.isPlaying
    ensures ToggleStep(ToggleStep(s, p), q).isPlaying == s.isPlaying
    ensures ToggleStep(ToggleStep(s, p), q).player == s.player
  {
  }

  /** Pressing the notification's play (or pause) button twice is the same as pressing it once. */
  lemma NotificationButtonsIdempotent(s: MediaState, p: Int, q: Int)
    requires PlayerAgrees(s)
    ensures PlayClickStep(PlayClickStep(s, p), q) == PlayClickStep(s, p)
    ensures PauseClickStep(PauseClickStep(s, p), q) == PauseClickStep(s, p)
  {
  }

  /**
   * An update owed while the service was away is sent, with the current
   * metadata, at the next start of playback once the service is bound.
   */
  lemma OwedMetadataDeliveredOnPlay(s: MediaState, p: Int)
    requires s.pendingMetadataUpdate && s.serviceBound && !NoMetadata(s)
    requires s.player == Some(Player(false))
    ensures var r := ToggleStep(s, p);
      && !r.pendingMetadataUpdate && r.isPlaying
      && r.calls == s.calls + [
           UpdateMetadata(s.cachedTitle.GetOr(""), Some(ARTIST), s.cachedArtwork),
           UpdateMetadata(s.cachedTitle.GetOr(""), Some(ARTIST), s.cachedArtwork),
           UpdatePlaybackState(Playing, p)]
  {
  }

  /**
   * After `release`, the manager is the new manager apart from the service,
   * the calls made, `sourceFragmentId` and `pendingMetadataUpdate`: `release`
   * resets neither of the last two, so an owed update survives it.
   */
  lemma ReleaseRestoresInitial(s: MediaState)
    ensures ReleaseStep(s).(serviceBound := false, sourceFragmentId := 0, pendingMetadataUpdate := false, calls := [])
            == Initial
  {
  }

  /** A manager that tracks `OSSMediaManager`'s fields one for one. */
  class MediaManager {
    var player: Option<Player>
    var serviceBound: bool
    var sourceFragmentId: int
    var isPlaying: bool
    var currentPosition: Long
    var duration: Long
    var currentTitle: Option<string>
    var currentArtwork: Option<string>
    var cachedTitle: Option<string>
    var cachedArtwork: Option<Bitmap>
    var pendingMetadataUpdate: bool
    /** The calls made on the service so far. */
    var calls: seq<ServiceCall>

    ghost function State(): MediaState
      reads this
    {
      MediaState(player, serviceBound, sourceFragmentId, isPlaying, currentPosition, duration,
                 currentTitle, currentArtwork, cachedTitle, cachedArtwork, pendingMetadataUpdate, calls)
    }

    ghost predicate Valid()
      reads this
    {
      PlayerAgrees(State())
    }

    /** The binding to the service is asked for here and completes later. */
    constructor ()
      ensures Valid() && State() == Initial
    {
      player, serviceBound, sourceFragmentId := None, false, 0;
      isPlaying, currentPosition, duration := false, 0, 0;
      currentTitle, currentArtwork := None, None;
      cachedTitle, cachedArtwork, pendingMetadataUpdate := None, None, false;
      calls := [];
    }

    /** `ServiceConnection.onServiceConnected`. */
    method OnServiceConnected()
      modifies this
      ensures State() == old(State()).(serviceBound := true)
    {
      serviceBound := true;
    }

    /** `ServiceConnection.onServiceDisconnected`. */
    method OnServiceDisconnected()
      modifies this
      ensures State() == old(State()).(serviceBound := false)
    {
      serviceBound := false;
    }

    method ReportState(state: PlaybackState, position: Long)
      modifies this
      ensures State() == Report(old(State()), state, position)
    {
      if serviceBound {
        calls := calls + [UpdatePlaybackState(state, position)];
      }
    }

    method UpdateMediaSessionMetadata()
      modifies this
      ensures State() == MetadataUpdateStep(old(State()))
    {
      if cachedTitle.None? && cachedArtwork.None? {
        return;
      }
      if serviceBound {
        calls := calls + [UpdateMetadata(cachedTitle.GetOr(""), Some(ARTIST), cachedArtwork)];
      } else {
        pendingMetadataUpdate := true;
      }
    }

    method EnsureMetadataSync()
      modifies this
      ensures State() == MetadataSyncStep(old(State()))
    {
      if pendingMetadataUpdate {
        UpdateMediaSessionMetadata();
        pendingMetadataUpdate := false;
      }
    }

    method CleanupPlayback()
      requires Valid()
      modifies this
      ensures Valid() && State() == CleanupStep(old(State()))
    {
      player := Halted(player);
      isPlaying := false;
      currentPosition := 0;
      ReportState(Stopped, 0);
    }

    method PrepareAudio(title: string, artworkUrl: Option<string>, fragmentId: int, dataSourceAccepted: bool)
      requires Valid()
      modifies this
      ensures Valid() && State() == PrepareStep(old(State()), title, artworkUrl, fragmentId, dataSourceAccepted)
    {
      sourceFragmentId := fragmentId;
      player := Halted(player);
      if dataSourceAccepted {
        player := Some(Player(false));
        currentTitle := Some(title);
        currentArtwork := artworkUrl;
        currentPosition := 0;
        isPlaying := false;
      } else {
        isPlaying := false;
        ReportState(Error, 0);
      }
    }

    /** The `onPrepared` listener installed by `prepareAudio` for `title`. */
    method OnPrepared(title: string, playerDuration: Int)
      requires Valid()
      modifies this
      ensures Valid() && State() == PreparedStep(old(State()), title, playerDuration)
    {
      duration := playerDuration;
      cachedTitle := Some(title);
      cachedArtwork := None;
      UpdateMediaSessionMetadata();
      ReportState(Paused, 0);
    }

    /** The artwork callback installed by `prepareAudio`. */
    method OnArtworkLoaded(artwork: Option<Bitmap>)
      requires Valid()
      modifies this
      ensures Valid() && State() == ArtworkStep(old(State()), artwork)
    {
      cachedArtwork := artwork;
      if serviceBound {
        UpdateMediaSessionMetadata();
        calls := calls + [SetDirectArtwork(artwork)];
      } else {
        pendingMetadataUpdate := true;
      }
    }

    method OnCompletion()
      requires Valid()
      modifies this
      ensures Valid() && State() == CompletionStep(old(State()))
    {
      player := Halted(player);
      isPlaying := false;
      ReportState(Stopped, 0);
    }

    method OnPlayerError()
      requires Valid()
      modifies this
      ensures Valid() && State() == PlayerErrorStep(old(State()))
    {
      player := Halted(player);
      isPlaying := false;
      ReportState(Error, 0);
    }

    method TogglePlayPause(playerPosition: Int)
      requires Valid()
      modifies this
      ensures Valid() && State() == ToggleStep(old(State()), playerPosition)
    {
      if player.None? {
        return;
      }
      if !player.value.playing {
        EnsureMetadataSync();
        player := Some(Player(true));
        isPlaying := true;
        if serviceBound {
          UpdateMediaSessionMetadata();
          ReportState(Playing, playerPosition);
        } else {
          pendingMetadataUpdate := true;
        }
      } else {
        player := Some(Player(false));
        isPlaying := false;
        if serviceBound {
          UpdateMediaSessionMetadata();
          ReportState(Paused, playerPosition);
        } else {
          pendingMetadataUpdate := true;
        }
      }
    }

    method SeekTo(position: Long)
      requires Valid()
      modifies this
      ensures Valid() && State() == SeekStep(old(State()), position)
    {
      currentPosition := position;
      ReportState(if isPlaying then Playing else Paused, position);
    }

    method UpdateProgress(playerPosition: Int)
      requires Valid()
      modifies this
      ensures Valid() && State() == ProgressStep(old(State()), playerPosition)
    {
      if player.Some? && isPlaying {
        currentPosition := playerPosition;
      }
    }

    method OnPlayClicked(playerPosition: Int)
      requires Valid()
      modifies this
      ensures Valid() && State() == PlayClickStep(old(State()), playerPosition)
    {
      if !isPlaying {
        TogglePlayPause(playerPosition);
      }
    }

    method OnPauseClicked(playerPosition: Int)
      requires Valid()
      modifies this
      ensures Valid() && State() == PauseClickStep(old(State()), playerPosition)
    {
      if isPlaying {
        TogglePlayPause(playerPosition);
      }
    }

    method OnStopClicked()
      requires Valid()
      modifies this
      ensures Valid() && State() == StopClickStep(old(State()))
    {
      if player.Some? {
        player := Some(Player(false));
        isPlaying := false;
        ReportState(Stopped, 0);
      }
    }

    method OnSeekTo(position: Long)
      requires Valid()
      modifies this
      ensures Valid() && State() == SeekStep(old(State()), position)
    {
      SeekTo(position);
    }

    method Release()
      modifies this
      ensures Valid() && State() == ReleaseStep(old(State()))
    {
      player := None;
      isPlaying := false;
      currentPosition := 0;
      duration := 0;
      currentTitle := None;
      currentArtwork := None;
      cachedTitle := None;
      cachedArtwork := None;
      if serviceBound {
        calls := calls + [UpdatePlaybackState(StateNone, 0), UpdateMetadata("", None, None)];
      }
    }

    method Destroy()
      modifies this
      ensures Valid() && State() == DestroyStep(old(State()))
    {
      Release();
      serviceBound := false;
    }
  }
}
