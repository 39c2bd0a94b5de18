/**
 * The player screen (`PlayerViewController`): which track of the playlist
 * is current, the previous/next guards, the progress slider with its
 * dragging flag, and the labels the manager's callbacks update.
 *
 * `AudioPlayerManager.shared` is outside the model: what the screen asks of
 * it is recorded in `requests`, and what it answers (`getDuration()`,
 * `audioTitle`, `isPlaying`) arrives as a `ManagerReport`. Times and slider
 * values are whole seconds.
 */
module Player {
  import opened Options
  import opened TimeFormat
  import opened Artwork

  /** A call the screen makes on the audio manager. */
  datatype ManagerRequest = PlaySound(url: string) | Seek(position: nat) | Play | Pause

  /** What the audio manager reports when the screen reads it. */
  datatype ManagerReport = ManagerReport(duration: nat, audioTitle: string, isPlaying: bool)

  /** The play/pause button's symbol for a playing state. */
  function PlayPauseSymbol(isPlaying: bool): string {
    if isPlaying then "pause.fill" else "play.fill"
  }

  /** The request `playCurrentIndex` and `viewDidLoad` make: play the current track, if there is one. */
  function PlayRequests(url: Option<string>): seq<ManagerRequest> {
    if url.Some? then [PlaySound(url.value)] else []
  }

  /** `prevTapped`'s effect on the index: back one, except at the first track. */
  function PrevIndex(index: nat): nat {
    if index > 0 then index - 1 else index
  }

  /** `nextTapped`'s effect on the index: forward one, except at (or past) the last track. */
  function NextIndex(count: nat, index: nat): nat {
    if index < count - 1 then index + 1 else index
  }

  datatype Tap = PrevTap | NextTap

  /** The index after a sequence of previous/next taps. */
  function AfterTaps(count: nat, index: nat, taps: seq<Tap>): nat
    decreases |taps|
  {
    if taps == [] then index
    else
      var next := if taps[0] == PrevTap then PrevIndex(index) else NextIndex(count, index);
      AfterTaps(count, next, taps[1..])
  }

  /** An index inside the playlist stays inside it whatever the taps. */
  lemma {:induction false} TapsStayInRange(count: nat, index: nat, taps: seq<Tap>)
    requires index < count
    ensures AfterTaps(count, index, taps) < count
    decreases |taps|
  {
    if taps != [] {
      var next := if taps[0] == PrevTap then PrevIndex(index) else NextIndex(count, index);
      TapsStayInRange(count, next, taps[1..]);
    }
  }

  /** Each tap moves by at most one, so n taps move at most n tracks. */
  lemma {:induction false} TapsMoveAtMostOneEach(count: nat, index: nat, taps: seq<Tap>)
    ensures index - |taps| <= AfterTaps(count, index, taps) <= index + |taps|
    decreases |taps|
  {
    if taps != [] {
      var next := if taps[0] == PrevTap then PrevIndex(index) else NextIndex(count, index);
      TapsMoveAtMostOneEach(count, next, taps[1..]);
    }
  }

  /** Next then previous comes back, away from the last track; previous then next, away from the first. */
  lemma PrevUndoesNext(count: nat, index: nat)
    requires index + 1 < count
    ensures PrevIndex(NextIndex(count, index)) == index
  {
  }

  lemma NextUndoesPrev(count: nat, index: nat)
    requires 0 < index < count
    ensures NextIndex(count, PrevIndex(index)) == index
  {
  }

  class PlayerViewController {
    var allSongURLs: seq<string>
    var currentIndex: nat
    var isSliderDragging: bool
    var sliderValue: nat
    var sliderMaximum: nat
    var currentTimeLabel: string
    var totalTimeLabel: string
    var titleLabel: string
    var playPauseImage: string
    var thumbnail: Option<Image>
    /** The calls made on the audio manager, oldest first. */
    var requests: seq<ManagerRequest>

    /** The screen as the Songs list pushes it: the playlist and the selected row. */
    constructor (songs: seq<string>, index: nat)
      ensures allSongURLs == songs && currentIndex == index && !isSliderDragging
      ensures sliderValue == 0 && requests == [] && thumbnail == None
    {
      allSongURLs, currentIndex := songs, index;
      isSliderDragging := false;
      sliderValue, sliderMaximum := 0, 0;
      currentTimeLabel, totalTimeLabel, titleLabel, playPauseImage := "", "", "", "";
      thumbnail := None;
      requests := [];
    }

    /** The index lies inside the playlist. */
    ghost predicate InRange()
      reads this
    {
      currentIndex < |allSongURLs|
    }

    /** `audioURL`: the current track, nil once the index is past the end. */
    function AudioURL(): (url: Option<string>)
      reads this
      ensures url.None? <==> currentIndex >= |allSongURLs|
      ensures url.Some? ==> url.value == allSongURLs[currentIndex]
    {
      if currentIndex < |allSongURLs| then Some(allSongURLs[currentIndex]) else None
    }

    /** `updateUI`: slider range, total-time label, title and button follow the manager. */
    method UpdateUI(report: ManagerReport)
      modifies this
      ensures sliderMaximum == report.duration && totalTimeLabel == FormatMinutesSeconds(report.duration)
      ensures titleLabel == report.audioTitle && playPauseImage == PlayPauseSymbol(report.isPlaying)
      ensures allSongURLs == old(allSongURLs) && currentIndex == old(currentIndex)
      ensures isSliderDragging == old(isSliderDragging) && sliderValue == old(sliderValue)
      ensures currentTimeLabel == old(currentTimeLabel) && thumbnail == old(thumbnail) && requests == old(requests)
    {
      sliderMaximum := report.duration;
      totalTimeLabel := FormatMinutesSeconds(report.duration);
      titleLabel := report.audioTitle;
      playPauseImage := PlayPauseSymbol(report.isPlaying);
    }

    /**
     * `updateThumbnail`, its synchronous part: without a track the
     * placeholder is shown at once; otherwise the lookup runs in the
     * background and ends in `ThumbnailLoaded`.
     */
    method UpdateThumbnail()
      modifies this`thumbnail
      ensures thumbnail == if AudioURL().None? then Some(MusicNote) else old(thumbnail)
    {
      if AudioURL().None? {
        thumbnail := Some(MusicNote);
      }
    }

    /**
     * The background artwork lookup finishing: `extractArtwork` over the
     * track's metadata (None when loading it threw; decode stands for
     * `UIImage(data:)`), then the artwork or the placeholder. There is no
     * check that the track is still the one the lookup was started for.
     */
    method ThumbnailLoaded(metadata: Option<seq<MetadataItem>>, decode: Bytes -> Option<Image>)
      modifies this`thumbnail
      ensures thumbnail == Some((if metadata.None? then None else FirstArtwork(metadata.value, decode)).GetOr(MusicNote))
    {
      var artwork := ExtractArtwork(metadata, decode);
      thumbnail := Some(artwork.GetOr(MusicNote));
    }

    method ViewDidLoad(report: ManagerReport)
      modifies this
      ensures requests == old(requests) + PlayRequests(AudioURL())
      ensures sliderValue == 0
      ensures sliderMaximum == report.duration && totalTimeLabel == FormatMinutesSeconds(report.duration)
      ensures titleLabel == report.audioTitle && playPauseImage == PlayPauseSymbol(report.isPlaying)
      ensures allSongURLs == old(allSongURLs) && currentIndex == old(currentIndex)
      ensures isSliderDragging == old(isSliderDragging) && currentTimeLabel == old(currentTimeLabel)
      ensures thumbnail == if AudioURL().None? then Some(MusicNote) else old(thumbnail)
    {
      sliderValue := 0;
      var url := AudioURL();
      if url.Some? {
        requests := requests + [PlaySound(url.value)];
      }
      UpdateUI(report);
      UpdateThumbnail();
    }

    /** `sliderTouchDown`: the user starts dragging. */
    method SliderTouchDown()
      modifies this`isSliderDragging
      ensures isSliderDragging
    {
      isSliderDragging := true;
    }

    /** UIKit moving the slider's thumb under the user's finger (not code of the screen itself). */
    method SliderMoved(value: nat)
      modifies this`sliderValue
      ensures sliderValue == value
    {
      sliderValue := value;
    }

    /** `sliderTouchUp`: dragging ends and playback seeks to where the slider was left. */
    method SliderTouchUp()
      modifies this`isSliderDragging, this`requests
      ensures !isSliderDragging
      ensures requests == old(requests) + [Seek(sliderValue)]
    {
      isSliderDragging := false;
      requests := requests + [Seek(sliderValue)];
    }

    /** `playPauseTapped`: pause if the manager was playing, play otherwise; the button follows its new state. */
    method PlayPauseTapped(wasPlaying: bool, nowPlaying: bool)
      modifies this`requests, this`playPauseImage
      ensures requests == old(requests) + [if wasPlaying then Pause else Play]
      ensures playPauseImage == PlayPauseSymbol(nowPlaying)
    {
      if wasPlaying {
        requests := requests + [Pause];
      } else {
        requests := requests + [Play];
      }
      playPauseImage := PlayPauseSymbol(nowPlaying);
    }

    /** `playCurrentIndex`: play the current track, reset the progress display, refresh the rest. */
    method PlayCurrentIndex(report: ManagerReport)
      modifies this
      ensures requests == old(requests) + PlayRequests(AudioURL())
      ensures sliderValue == 0 && currentTimeLabel == "00:00"
      ensures sliderMaximum == report.duration && totalTimeLabel == FormatMinutesSeconds(report.duration)
      ensures titleLabel == report.audioTitle && playPauseImage == PlayPauseSymbol(report.isPlaying)
      ensures allSongURLs == old(allSongURLs) && currentIndex == old(currentIndex)
      ensures isSliderDragging == old(isSliderDragging)
      ensures thumbnail == if AudioURL().None? then Some(MusicNote) else old(thumbnail)
    {
      var url := AudioURL();
      if url.Some? {
        requests := requests + [PlaySound(url.value)];
      }
      sliderValue := 0;
      currentTimeLabel := "00:00";
      UpdateUI(report);
      UpdateThumbnail();
    }

    /** `prevTapped`: at the first track nothing happens; otherwise step back one and play. */
    method PrevTapped(report: ManagerReport)
      modifies this
      ensures currentIndex == PrevIndex(old(currentIndex)) && allSongURLs == old(allSongURLs)
      ensures old(currentIndex) == 0 ==> unchanged(this)
      ensures old(currentIndex) > 0 ==> currentIndex == old(currentIndex) - 1
      ensures old(currentIndex) > 0 ==>
        requests == old(requests) + PlayRequests(AudioURL()) && sliderValue == 0 && currentTimeLabel == "00:00"
        && titleLabel == report.audioTitle && totalTimeLabel == FormatMinutesSeconds(report.duration)
      ensures old(currentIndex) > 0 ==>
        isSliderDragging == old(isSliderDragging) && sliderMaximum == report.duration
        && playPauseImage == PlayPauseSymbol(report.isPlaying)
        && thumbnail == if AudioURL().None? then Some(MusicNote) else old(thumbnail)
      ensures old(InRange()) ==> InRange()
    {
      if currentIndex == 0 {
        return;
      }
      currentIndex := currentIndex - 1;
      PlayCurrentIndex(report);
    }

    /** `nextTapped`: at (or past) the last track, or with no tracks, nothing happens; otherwise step on one and play. */
    method NextTapped(report: ManagerReport)
      modifies this
      ensures currentIndex == NextIndex(|allSongURLs|, old(currentIndex)) && allSongURLs == old(allSongURLs)
      ensures old(currentIndex) >= |allSongURLs| - 1 ==> unchanged(this)
      ensures old(currentIndex) < |allSongURLs| - 1 ==> currentIndex == old(currentIndex) + 1
      ensures old(currentIndex) < |allSongURLs| - 1 ==>
        requests == old(requests) + [PlaySound(allSongURLs[currentIndex])] && sliderValue == 0 && currentTimeLabel == "00:00"
        && titleLabel == report.audioTitle && totalTimeLabel == FormatMinutesSeconds(report.duration)
      ensures old(currentIndex) < |allSongURLs| - 1 ==>
        isSliderDragging == old(isSliderDragging) && sliderMaximum == report.duration
        && playPauseImage == PlayPauseSymbol(report.isPlaying)
        && thumbnail == if AudioURL().None? then Some(MusicNote) else old(thumbnail)
      ensures old(InRange()) ==> InRange()
    {
      if currentIndex >= |allSongURLs| - 1 {
        return;
      }
      currentIndex := currentIndex + 1;
      PlayCurrentIndex(report);
    }

    /** `audioPlayerManagerDidChangeState`: title and button follow the manager. */
    method DidChangeState(report: ManagerReport)
      modifies this`titleLabel, this`playPauseImage
      ensures titleLabel == report.audioTitle && playPauseImage == PlayPauseSymbol(report.isPlaying)
    {
      titleLabel := report.audioTitle;
      playPauseImage := PlayPauseSymbol(report.isPlaying);
    }

    /**
     * `audioPlayerManager(_:didUpdateDuration:)`: the slider follows
     * playback only while the user is not dragging it; the labels always do.
     */
    method DidUpdateDuration(currentTime: nat, total: nat)
      modifies this`sliderValue, this`currentTimeLabel, this`totalTimeLabel
      ensures sliderValue == if isSliderDragging then old(sliderValue) else currentTime
      ensures currentTimeLabel == FormatMinutesSeconds(currentTime)
      ensures totalTimeLabel == FormatMinutesSeconds(total)
    {
      if !isSliderDragging {
        sliderValue := currentTime;
      }
      currentTimeLabel := FormatMinutesSeconds(currentTime);
      totalTimeLabel := FormatMinutesSeconds(total);
    }

    /** `audioPlayerManagerDidComplete`: the progress display returns to zero. */
    method DidComplete()
      modifies this`sliderValue, this`currentTimeLabel
      ensures sliderValue == 0 && currentTimeLabel == "00:00"
    {
      sliderValue := 0;
      currentTimeLabel := "00:00";
    }
  }
}
