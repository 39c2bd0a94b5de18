/**
 * A row of the Video list (`VideoTableViewCell`). `configure` records the
 * URL it was asked to show and starts a background load of a thumbnail and
 * the duration; the load's result is applied only if the cell still shows
 * that URL when it arrives, since table cells are reused for other rows.
 * The configure call and the arrival of a result are separate events here.
 */
module VideoCell {
  import opened Options
  import opened Paths
  import opened TimeFormat
  import opened Artwork

  const VideoFill := SystemSymbol("video.fill")

  class VideoTableViewCell {
    var currentVideoURL: Option<string>
    var titleLabel: string
    var durationLabel: string
    var thumbnail: Option<Image>

    constructor ()
      ensures currentVideoURL == None && titleLabel == "" && durationLabel == "" && thumbnail == None
    {
      currentVideoURL := None;
      titleLabel, durationLabel := "", "";
      thumbnail := None;
    }

    /** `configure(with:)`, its synchronous part. */
    method Configure(videoURL: string)
      modifies this
      ensures currentVideoURL == Some(videoURL) && titleLabel == LastPathComponent(videoURL)
      ensures durationLabel == "Loading..." && thumbnail == Some(VideoFill)
    {
      currentVideoURL := Some(videoURL);
      titleLabel := LastPathComponent(videoURL);
      durationLabel := "Loading...";
      thumbnail := Some(VideoFill);
    }

    /**
     * The background load for videoURL finishing: generated is the
     * thumbnail (nil when generation failed), duration is None when loading
     * it threw.
     */
    method Deliver(videoURL: string, generated: Option<Image>, duration: Option<nat>)
      modifies this`durationLabel, this`thumbnail
      ensures currentVideoURL != Some(videoURL) ==> durationLabel == old(durationLabel) && thumbnail == old(thumbnail)
      ensures currentVideoURL == Some(videoURL) && duration.Some? ==>
        durationLabel == FormatClock(duration.value) && thumbnail == if generated.Some? then generated else old(thumbnail)
      ensures currentVideoURL == Some(videoURL) && duration.None? ==>
        durationLabel == "Error" && thumbnail == old(thumbnail)
    {
      match duration
      case Some(seconds) =>
        if currentVideoURL == Some(videoURL) {
          durationLabel := FormatClock(seconds);
          if generated.Some? {
            thumbnail := generated;
          }
        }
      case None =>
        if currentVideoURL == Some(videoURL) {
          durationLabel := "Error";
        }
    }
  }

  /**
   * Last request wins: a reused cell configured for first and then for
   * second shows second's result, even when first's load finishes last.
   */
  method LateResultIsDiscarded(first: string, second: string, firstThumbnail: Option<Image>, firstDuration: nat, secondDuration: nat)
    returns (title: string, shown: string, image: Option<Image>)
    requires first != second
    ensures title == LastPathComponent(second)
    ensures shown == FormatClock(secondDuration)
    ensures image == Some(VideoFill)
  {
    var cell := new VideoTableViewCell();
    cell.Configure(first);
    cell.Configure(second);
    cell.Deliver(second, None, Some(secondDuration));
    cell.Deliver(first, firstThumbnail, Some(firstDuration));
    title, shown, image := cell.titleLabel, cell.durationLabel, cell.thumbnail;
  }
}
