/**
 * The Video screen (`VideoViewController`): the list of video files shown
 * and saving a picked movie into the Video folder under a collision-free
 * name.
 */
module VideoView {
  import opened Options
  import opened Paths
  import opened FileNaming
  import opened MediaFilter
  import opened Folders

  const NoVideosMessage := "No videos added."

  class VideoViewController {
    var videoFolder: Folder
    var videoURLs: seq<string>
    /** The text of the table's background label; None when `backgroundView` is nil. */
    var emptyMessage: Option<string>

    constructor (folder: Folder)
      ensures videoFolder == folder && videoURLs == [] && emptyMessage == None
    {
      videoFolder := folder;
      videoURLs := [];
      emptyMessage := None;
    }

    /**
     * `loadVideosFromDocumentsFolder`: show the mp4/mov/m4v files of the
     * listing, or the empty message. listing is None when the documents
     * directory is missing, the Video folder cannot be created, or listing it
     * throws; then nothing changes.
     */
    method LoadVideosFromDocumentsFolder(listing: Option<seq<string>>)
      requires listing.Some? ==> Lists(listing.value, videoFolder.Keys)
      modifies this
      ensures videoFolder == old(videoFolder)
      ensures listing.None? ==> videoURLs == old(videoURLs) && emptyMessage == old(emptyMessage)
      ensures listing.Some? ==> videoURLs == VideoFiles(listing.value)
      ensures listing.Some? ==> emptyMessage == if videoURLs == [] then Some(NoVideosMessage) else None
      ensures listing.Some? ==> forall n :: n in videoURLs <==> n in videoFolder && IsVideoFile(n)
    {
      if listing.Some? {
        videoURLs := VideoFiles(listing.value);
        if videoURLs == [] {
          emptyMessage := Some(NoVideosMessage);
        } else {
          emptyMessage := None;
        }
        ListedNames(listing.value, videoFolder.Keys);
      }
    }

    method ViewDidLoad(listing: Option<seq<string>>)
      requires listing.Some? ==> Lists(listing.value, videoFolder.Keys)
      modifies this
      ensures videoFolder == old(videoFolder)
      ensures listing.None? ==> videoURLs == old(videoURLs) && emptyMessage == old(emptyMessage)
      ensures listing.Some? ==> videoURLs == VideoFiles(listing.value)
      ensures listing.Some? ==> emptyMessage == if videoURLs == [] then Some(NoVideosMessage) else None
    {
      LoadVideosFromDocumentsFolder(listing);
    }

    /**
     * `saveVideoToDocumentsFolder`: pick the destination name, copy, and on
     * success reload the list. copySucceeds is false when the documents
     * directory is missing, the Video folder cannot be created, or `copyItem`
     * throws; then nothing changes.
     */
    method SaveVideoToDocumentsFolder(videoURL: string, content: seq<bv8>, copySucceeds: bool, listing: Option<seq<string>>)
      returns (destination: string)
      requires copySucceeds && listing.Some? ==>
        Lists(listing.value, CopiedInto(videoFolder, LastPathComponent(videoURL), content).Keys)
      modifies this
      ensures destination == DestinationName(old(videoFolder).Keys, LastPathComponent(videoURL))
      ensures IsFirstFreeProbe(old(videoFolder).Keys, LastPathComponent(videoURL), destination)
      ensures destination !in old(videoFolder)
      ensures copySucceeds ==> videoFolder == old(videoFolder)[destination := content]
      ensures !copySucceeds ==> videoFolder == old(videoFolder) && videoURLs == old(videoURLs) && emptyMessage == old(emptyMessage)
      ensures forall n :: n in old(videoFolder) ==> n in videoFolder && videoFolder[n] == old(videoFolder)[n]
      ensures copySucceeds && listing.Some? ==> videoURLs == VideoFiles(listing.value)
      ensures copySucceeds && listing.Some? ==> emptyMessage == if videoURLs == [] then Some(NoVideosMessage) else None
      ensures copySucceeds && listing.None? ==> videoURLs == old(videoURLs) && emptyMessage == old(emptyMessage)
      ensures copySucceeds && listing.Some? && IsVideoFile(LastPathComponent(videoURL)) ==> destination in videoURLs
    {
      var name := LastPathComponent(videoURL);
      var fileIndex;
      destination, fileIndex := UniqueDestination(videoFolder.Keys, name);
      if copySucceeds {
        videoFolder := videoFolder[destination := content];
        LoadVideosFromDocumentsFolder(listing);
        CandidateKeepsExtension(name, FirstFreeIndex(old(videoFolder).Keys, name));
      }
    }
  }
}
