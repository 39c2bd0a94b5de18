/**
 * The Songs screen (`MusicViewController`): the list of songs shown, the
 * "Favorites" mode switch, and saving a picked audio file into the Songs
 * folder under a collision-free name.
 *
 * The favorites list comes from `FavoriteManager`, whose internals are not
 * part of this model.
 */
module MusicView {
  import opened Options
  import opened Paths
  import opened FileNaming
  import opened MediaFilter
  import opened Folders

  const NoMusicMessage := "No music added."
  const NoFavoritesMessage := "No favorites yet."

  class MusicViewController {
    var songsFolder: Folder
    var songURLs: seq<string>
    var isShowingFavorites: bool
    /** The navigation title; None until the mode is first switched. */
    var title: Option<string>
    /** The text of the table's background label; None when `backgroundView` is nil. */
    var emptyMessage: Option<string>

    constructor (folder: Folder)
      ensures songsFolder == folder && songURLs == [] && !isShowingFavorites
      ensures title == None && emptyMessage == None
    {
      songsFolder := folder;
      songURLs := [];
      isShowingFavorites := false;
      title := None;
      emptyMessage := None;
    }

    /** `loadSongsFromDocumentsFolder`: show the mp3 files of the listing, or the empty message. */
    method LoadSongsFromDocumentsFolder(listing: Option<seq<string>>)
      requires listing.Some? ==> Lists(listing.value, songsFolder.Keys)
      modifies this
      ensures songsFolder == old(songsFolder) && isShowingFavorites == old(isShowingFavorites) && title == old(title)
      ensures listing.None? ==> songURLs == old(songURLs) && emptyMessage == old(emptyMessage)
      ensures listing.Some? ==> songURLs == SongFiles(listing.value)
      ensures listing.Some? ==> emptyMessage == if songURLs == [] then Some(NoMusicMessage) else None
      ensures listing.Some? ==> forall n :: n in songURLs <==> n in songsFolder && IsSongFile(n)
    {
      if listing.Some? {
        songURLs := SongFiles(listing.value);
        emptyMessage := if songURLs == [] then Some(NoMusicMessage) else None;
        ListedNames(listing.value, songsFolder.Keys);
      }
    }

    /** `loadFavorites`: show what the favorites store returns, or its empty message. */
    method LoadFavorites(favorites: seq<string>)
      modifies this
      ensures songsFolder == old(songsFolder) && isShowingFavorites == old(isShowingFavorites) && title == old(title)
      ensures songURLs == favorites
      ensures emptyMessage == if favorites == [] then Some(NoFavoritesMessage) else None
    {
      songURLs := favorites;
      emptyMessage := if songURLs == [] then Some(NoFavoritesMessage) else None;
    }

    method ViewDidLoad(listing: Option<seq<string>>)
      requires listing.Some? ==> Lists(listing.value, songsFolder.Keys)
      modifies this
      ensures songsFolder == old(songsFolder) && isShowingFavorites == old(isShowingFavorites) && title == old(title)
      ensures listing.None? ==> songURLs == old(songURLs) && emptyMessage == old(emptyMessage)
      ensures listing.Some? ==> songURLs == SongFiles(listing.value)
      ensures listing.Some? ==> emptyMessage == if songURLs == [] then Some(NoMusicMessage) else None
    {
      LoadSongsFromDocumentsFolder(listing);
    }

    /**
     * Assigning `isShowingFavorites` (its `didSet`): the title follows the
     * mode and the list is reloaded from the matching source.
     */
    method SetShowingFavorites(value: bool, favorites: seq<string>, listing: Option<seq<string>>)
      requires !value && listing.Some? ==> Lists(listing.value, songsFolder.Keys)
      modifies this
      ensures isShowingFavorites == value && songsFolder == old(songsFolder)
      ensures title == Some(if value then "Favorites" else "Songs")
      ensures value ==> songURLs == favorites
      ensures value ==> emptyMessage == if favorites == [] then Some(NoFavoritesMessage) else None
      ensures !value && listing.Some? ==> songURLs == SongFiles(listing.value)
      ensures !value && listing.Some? ==> emptyMessage == if songURLs == [] then Some(NoMusicMessage) else None
      ensures !value && listing.None? ==> songURLs == old(songURLs) && emptyMessage == old(emptyMessage)
    {
      isShowingFavorites := value;
      if isShowingFavorites {
        title := Some("Favorites");
        LoadFavorites(favorites);
      } else {
        title := Some("Songs");
        LoadSongsFromDocumentsFolder(listing);
      }
    }

    /** `favoritesButtonTapped`: flip the mode. */
    method FavoritesButtonTapped(favorites: seq<string>, listing: Option<seq<string>>)
      requires isShowingFavorites && listing.Some? ==> Lists(listing.value, songsFolder.Keys)
      modifies this
      ensures isShowingFavorites == !old(isShowingFavorites) && songsFolder == old(songsFolder)
      ensures title == Some(if isShowingFavorites then "Favorites" else "Songs")
      ensures isShowingFavorites ==> songURLs == favorites
      ensures isShowingFavorites ==> emptyMessage == if favorites == [] then Some(NoFavoritesMessage) else None
      ensures !isShowingFavorites && listing.Some? ==> songURLs == SongFiles(listing.value)
      ensures !isShowingFavorites && listing.Some? ==> emptyMessage == if songURLs == [] then Some(NoMusicMessage) else None
      ensures !isShowingFavorites && listing.None? ==> songURLs == old(songURLs) && emptyMessage == old(emptyMessage)
    {
      SetShowingFavorites(!isShowingFavorites, favorites, listing);
    }

    /**
     * The cell's favorite-tap callback, after `FavoriteManager` has toggled
     * the URL (the toggled list is the input): in favorites mode the list is
     * reloaded so an unfavorited song disappears; otherwise only the row is
     * redrawn and the list stays as it is.
     */
    method FavoriteTapped(favoritesAfterToggle: seq<string>)
      modifies this
      ensures songsFolder == old(songsFolder) && isShowingFavorites == old(isShowingFavorites) && title == old(title)
      ensures isShowingFavorites ==> songURLs == favoritesAfterToggle
      ensures isShowingFavorites ==> emptyMessage == if favoritesAfterToggle == [] then Some(NoFavoritesMessage) else None
      ensures !isShowingFavorites ==> songURLs == old(songURLs) && emptyMessage == old(emptyMessage)
    {
      if isShowingFavorites {
        LoadFavorites(favoritesAfterToggle);
      }
    }

    /** `addSongButtonTapped`: the document picker is presented only outside favorites mode; nothing else changes. */
    method AddSongButtonTapped() returns (presentsPicker: bool)
      ensures presentsPicker <==> !isShowingFavorites
    {
      if isShowingFavorites {
        return false;
      }
      return true;
    }

    /**
     * `saveSongToDocumentsFolder`: pick the destination name, copy, and on
     * success reload the list. copySucceeds is false when the documents
     * directory is missing or `copyItem` throws; then nothing changes.
     */
    method SaveSongToDocumentsFolder(songURL: string, content: seq<bv8>, copySucceeds: bool, listing: Option<seq<string>>)
      returns (destination: string)
      requires copySucceeds && listing.Some? ==>
        Lists(listing.value, CopiedInto(songsFolder, LastPathComponent(songURL), content).Keys)
      modifies this
      ensures destination == DestinationName(old(songsFolder).Keys, LastPathComponent(songURL))
      ensures IsFirstFreeProbe(old(songsFolder).Keys, LastPathComponent(songURL), destination)
      ensures destination !in old(songsFolder)
      ensures isShowingFavorites == old(isShowingFavorites) && title == old(title)
      ensures copySucceeds ==> songsFolder == old(songsFolder)[destination := content]
      ensures !copySucceeds ==> songsFolder == old(songsFolder) && songURLs == old(songURLs) && emptyMessage == old(emptyMessage)
      ensures forall n :: n in old(songsFolder) ==> n in songsFolder && songsFolder[n] == old(songsFolder)[n]
      ensures copySucceeds && listing.Some? ==> songURLs == SongFiles(listing.value)
      ensures copySucceeds && listing.Some? ==> emptyMessage == if songURLs == [] then Some(NoMusicMessage) else None
      ensures copySucceeds && listing.None? ==> songURLs == old(songURLs) && emptyMessage == old(emptyMessage)
      ensures copySucceeds && listing.Some? && IsSongFile(LastPathComponent(songURL)) ==> destination in songURLs
    {
      var name := LastPathComponent(songURL);
      var fileIndex;
      destination, fileIndex := UniqueDestination(songsFolder.Keys, name);
      if copySucceeds {
        songsFolder := songsFolder[destination := content];
        LoadSongsFromDocumentsFolder(listing);
        CandidateKeepsExtension(name, FirstFreeIndex(old(songsFolder).Keys, name));
      }
    }
  }
}
