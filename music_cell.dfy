/**
 * A row of the Songs list (`MusicTableViewCell`). `configure` records the
 * URL it was asked to show and starts a background load of the artwork and
 * the duration; the result is applied only if the cell still shows that URL
 * when it arrives. The configure call and the arrival of a result are
 * separate events here.
 */
module MusicCell {
  import opened Options
  import opened Paths
  import opened TimeFormat
  import opened Artwork

  class MusicTableViewCell {
    var currentAudioURL: Option<string>
    var titleLabel: string
    var durationLabel: string
    var icon: Option<Image>

    constructor ()
      ensures currentAudioURL == None && titleLabel == "" && durationLabel == "" && icon == None
    {
      currentAudioURL := None;
      titleLabel, durationLabel := "", "";
      icon := None;
    }

    /** `configure(with:)`, its synchronous part; the icon is left as it was. */
    method Configure(audioURL: string)
      modifies this
      ensures currentAudioURL == Some(audioURL) && titleLabel == LastPathComponent(audioURL)
      ensures durationLabel == "Loading..." && icon == old(icon)
    {
      currentAudioURL := Some(audioURL);
      titleLabel := LastPathComponent(audioURL);
      durationLabel := "Loading...";
    }

    /**
     * The background load for audioURL finishing. metadata is the file's
     * ID3 metadata (None when loading it threw), decode stands for
     * `UIImage(data:)`, duration is None when loading it threw.
     */
    method Deliver(audioURL: string, metadata: Option<seq<MetadataItem>>, decode: Bytes -> Option<Image>, duration: Option<nat>)
      modifies this`icon, this`durationLabel
      ensures currentAudioURL != Some(audioURL) ==> icon == old(icon) && durationLabel == old(durationLabel)
      ensures currentAudioURL == Some(audioURL) ==>
        icon == Some((if metadata.None? then None else FirstArtwork(metadata.value, decode)).GetOr(MusicNote))
      ensures currentAudioURL == Some(audioURL) ==>
        durationLabel == if duration.Some? then FormatClock(duration.value) else "00:00"
    {
      var artwork := ExtractArtwork(metadata, decode);
      var durationText := "00:00";
      if duration.Some? {
        durationText := FormatClock(duration.value);
      }
      if currentAudioURL == Some(audioURL) {
        icon := Some(artwork.GetOr(MusicNote));
        durationLabel := durationText;
      }
    }
  }

  /**
   * Last request wins: a reused cell configured for first and then for
   * second shows second's result, even when first's load finishes last.
   */
  method LateResultIsDiscarded(first: string, second: string, decode: Bytes -> Option<Image>,
                               firstMetadata: seq<MetadataItem>, firstDuration: nat, secondDuration: nat)
    returns (title: string, shown: string, image: Option<Image>)
    requires first != second
    ensures title == LastPathComponent(second)
    ensures shown == FormatClock(secondDuration)
    ensures image == Some(MusicNote)
  {
    var cell := new MusicTableViewCell();
    cell.Configure(first);
    cell.Configure(second);
    cell.Deliver(second, Some([]), decode, Some(secondDuration));
    cell.Deliver(first, Some(firstMetadata), decode, Some(firstDuration));
    title, shown, image := cell.titleLabel, cell.durationLabel, cell.icon;
  }
}
