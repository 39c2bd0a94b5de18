# Echo Play: a verified model of the screens' logic

Echo Play is a small iOS media player. Its Songs and Video screens list the
audio and video files copied into the app's `Documents/Songs` and
`Documents/Video` folders, the player screen steps through a playlist, and
the list cells show each file's artwork or thumbnail and duration. Almost
all of the app is UIKit and AVFoundation plumbing. This project models the
sequential logic inside it and proves what it guarantees:

- **Collision-free destination names** (`FileNaming`, `Folders`). A picked
  file is copied under its own name if that is free. Otherwise it is copied
  as `base_1.ext`, `base_2.ext`, … up to the first free name. The while
  loop is proved to terminate after at most (entries + 1) probes. The name
  it picks is proved fresh and proved to be the first free candidate. A
  copy adds exactly that one entry and leaves every existing entry as it
  was. The renamed copy keeps its extension, so it still passes the
  screen's filter.
- **Extension filters** (`MediaFilter`). Songs keep `mp3`. Videos keep
  `mp4`, `mov` and `m4v`. Both compare the lower-cased extension and keep
  the listing's order.
- **The Songs and Video screens** (`MusicView`, `VideoView`). Each is a
  class over the folder and the shown list. The Songs screen also has the
  Favorites mode, its title, and the add-song guard.
- **The player screen** (`Player`). This covers `currentIndex` with the
  previous/next guards and the `audioURL` bounds guard. It covers the
  `isSliderDragging` flag that stops progress callbacks from moving the
  slider. It covers the resets on track change and on completion. Calls to
  the audio manager are kept in a request log.
- **Duration labels** (`TimeFormat`, `Text`). The player shows `mm:ss` with
  minutes unbounded. The cells show `mm:ss` below an hour and `h:mm:ss`
  from an hour on. Each label is proved to read back, through a
  colon-separated base-60 reader, as the time it was made from. The
  seconds field is proved to be two digits below 60 in every label, and so
  is the minutes field of the cells' labels. The player's minutes field is
  at least two digits, without an extra leading zero, and has no upper
  bound.
- **The cells' last-request-wins guard** (`VideoCell`, `MusicCell`).
  `configure(url)` records the URL. A result that later arrives for any
  other URL changes nothing. The music cell's artwork search (`Artwork`) is
  the first artwork item whose data loads and decodes. A throwing load ends
  the search with nil.

Abstractions used throughout:

- A URL is its path string.
- `lastPathComponent` is the text after the last `/`.
- `pathExtension` and `deletingPathExtension()` split a file name at its
  last `.`.
- `lowercased()` lower-cases ASCII letters only.
- A folder is a map from file name to contents, and `fileExists` is
  membership of a name. The folder's listing is an input that names every
  entry exactly once. Its order is the platform's.
- Times are whole seconds, taken after the `Int(...)` truncation. Slider
  values are whole seconds too.
- What the audio manager reports (duration, title, playing state) is an
  input.
- A missing Songs or Video folder is created before it is listed, so it
  is the empty folder with the empty listing `Some([])`: the list becomes
  empty and the screen shows its empty message. Only three cases leave the
  screen unchanged, and each is an input: a missing Documents directory or
  a folder that cannot be created (`copySucceeds == false` when saving,
  `listing == None` when loading), a failed copy (`copySucceeds == false`),
  and a listing that throws (`listing == None`).

## Model

| member | source | states |
|---|---|---|
| Text.DecimalString | VC/MusicViewController.swift:138 | the interpolated `fileIndex` is a non-empty numeral of digits without a leading zero; it has one digit exactly below 10 and at most two exactly below 100 |
| Text.ParseDecimalString | VC/MusicViewController.swift:138 | reading the numeral back gives the number, so different indices give different names |
| Text.Pad2 | VC/PlayerViewController.swift:118 | `%02d` yields only digits, at least two of them, exactly two below 100, no leading zero when longer than two, and reads back as the number |
| Text.Lower | VC/MusicViewController.swift:72 | lower-casing keeps the length and maps every character through ASCII lower-casing |
| Paths.LastPathComponent | VC/VideoTableViewCell.swift:21 | the title is a `/`-free suffix of the path, and it is the whole path or is preceded by `/` |
| Paths.LastPathComponentOfChild | VC/VideoViewController.swift:115 | a name appended to a folder path is its last component again |
| Paths.SplitExtension | VC/MusicViewController.swift:138 | base and extension rejoin (with the `.`) to the name; the extension holds no `.`; a name without `.` has an empty extension |
| Paths.SplitJoinedName | VC/MusicViewController.swift:138 | splitting `base.ext` with a dot-free ext gives back exactly base and ext |
| FileNaming.CandidateInjective | VC/MusicViewController.swift:137-141 | no two probes of the loop (the name itself, `base_1.ext`, `base_2.ext`, …) are the same name |
| FileNaming.CandidatesDistinct | VC/MusicViewController.swift:137-141 | the first k probes are k distinct names |
| FileNaming.CandidatesTaken | VC/MusicViewController.swift:137-141 | k probes that all exist need at least k folder entries, which bounds the loop |
| FileNaming.FirstFreeIndex | VC/MusicViewController.swift:134-141 | the chosen probe is free, every earlier probe exists, and its index is at most the number of entries |
| FileNaming.DestinationName | VC/VideoViewController.swift:115-121 | the destination is not in the folder; it is a probe before which every probe is taken (the first free one); it is the file's own name when that is free, and otherwise `base_k.ext` with 1 <= k <= entries |
| FileNaming.UniqueDestination | VC/MusicViewController.swift:134-141 | the while loop ends with a destination not in the folder, equal to probe `fileIndex - 1` with all earlier probes taken, `1 <= fileIndex <= entries + 1`, and equal to DestinationName |
| FileNaming.CandidateKeepsExtension | VC/VideoViewController.swift:118 | every probe has the picked file's extension |
| FileNaming.CandidateWithoutExtension | VC/VideoViewController.swift:118 | for a name with an empty extension every renamed probe still ends in `.`; a name without any `.` becomes `name_k.` |
| Folders.CopiedInto | VC/MusicViewController.swift:143-151 | a successful copy adds exactly the destination name, holding the copied bytes; every existing entry is still there with its contents |
| MediaFilter.Keep | VC/MusicViewController.swift:72 | `filter` keeps exactly the elements that pass, each as often as in the input, as a subsequence of the input |
| MediaFilter.SongFiles | VC/MusicViewController.swift:71-73 | the songs are exactly the listed names whose lower-cased extension is `mp3`, each as often as listed, in listing order |
| MediaFilter.VideoFiles | VC/VideoViewController.swift:46-48 | the videos are exactly the listed names whose lower-cased extension is `mp4`, `mov` or `m4v`, each as often as listed, in listing order |
| MediaFilter.SongExtensionCases | VC/MusicViewController.swift:72 | a name is a song exactly when its extension is m/M, p/P, 3 |
| MediaFilter.VideoExtensionCases | VC/VideoViewController.swift:47-48 | a name is a video exactly when its extension is mp4, mov or m4v in any letter case |
| MusicView.MusicViewController.constructor | VC/MusicViewController.swift:16-19 | a new screen shows no songs, is not in favorites mode, and has no title or empty message yet |
| MusicView.MusicViewController.LoadSongsFromDocumentsFolder | VC/MusicViewController.swift:65-85 | a readable listing replaces the list by its mp3 files (exactly the folder's mp3 entries) and shows "No music added." when there are none; an unreadable one changes nothing |
| MusicView.MusicViewController.LoadFavorites | VC/MusicViewController.swift:88-97 | the list becomes the favorites, with "No favorites yet." when there are none |
| MusicView.MusicViewController.ViewDidLoad | VC/MusicViewController.swift:31-40 | the first load shows the folder's mp3 files, with "No music added." when there are none; an unreadable folder changes nothing |
| MusicView.MusicViewController.SetShowingFavorites | VC/MusicViewController.swift:19-29 | setting the flag sets the title to "Favorites" when true and "Songs" when false, and reloads the list from the matching source |
| MusicView.MusicViewController.FavoritesButtonTapped | VC/MusicViewController.swift:43-46 | the button flips the mode; title, list and empty message follow the new mode; flipping to Songs with an unreadable folder keeps list and message |
| MusicView.MusicViewController.FavoriteTapped | VC/MusicViewController.swift:200-214 | after a favorite toggle, favorites mode reloads the list from the favorites (with its empty message); Songs mode keeps list and message |
| MusicView.MusicViewController.AddSongButtonTapped | VC/MusicViewController.swift:111-126 | the picker is presented exactly when not in favorites mode; nothing else changes |
| MusicView.MusicViewController.SaveSongToDocumentsFolder | VC/MusicViewController.swift:129-155 | the destination is DestinationName, the first free probe, and is new; a successful copy adds exactly it, overwrites nothing and reloads the list and empty message, the list then holding the copy if it is an mp3, or keeps both if the folder cannot be read; a failed copy changes nothing |
| VideoView.VideoViewController.LoadVideosFromDocumentsFolder | VC/VideoViewController.swift:28-69 | a readable listing replaces the list by its video files and shows "No videos added." when empty, clearing it otherwise; a folder that is missing is created and lists as empty; a listing that cannot be read (`listing == None`) changes nothing |
| VideoView.VideoViewController.ViewDidLoad | VC/VideoViewController.swift:17-24 | the first load shows the folder's video files, with "No videos added." when there are none; a listing that cannot be read changes nothing |
| VideoView.VideoViewController.SaveVideoToDocumentsFolder | VC/VideoViewController.swift:95-136 | as for songs: fresh first-free destination, exactly one entry added, nothing overwritten, list and empty message reloaded (kept when the folder cannot be read), the copy listed when it is a video, no change on failure |
| Player.PlayerViewController.constructor | VC/MusicViewController.swift:188-189 | the pushed player holds the Songs list and the selected row, not dragging, with no requests yet |
| Player.PlayerViewController.AudioURL | VC/PlayerViewController.swift:18-21 | `audioURL` is nil exactly when `currentIndex >= count`, and otherwise the track at `currentIndex` |
| Player.PlayerViewController.UpdateUI | VC/PlayerViewController.swift:99-113 | slider maximum and total label follow the manager's duration; title and play/pause symbol follow the manager; nothing else changes |
| Player.PlayerViewController.UpdateThumbnail | VC/PlayerViewController.swift:123-127 | with no current track the placeholder "music.note" is shown at once |
| Player.PlayerViewController.ThumbnailLoaded | VC/PlayerViewController.swift:129-139 | the finished lookup shows the first decodable artwork of the track's metadata (as ExtractArtwork finds it), or "music.note" when there is none or the metadata cannot be loaded |
| Player.PlayerViewController.ViewDidLoad | VC/PlayerViewController.swift:33-50 | the slider starts at 0, the current track (if any) is played, and the labels follow the manager |
| Player.PlayerViewController.SliderTouchDown | VC/PlayerViewController.swift:54-56 | touch-down sets dragging |
| Player.PlayerViewController.SliderMoved | VC/PlayerViewController.swift:60 | the slider's value is where the user left the thumb |
| Player.PlayerViewController.SliderTouchUp | VC/PlayerViewController.swift:58-61 | touch-up clears dragging and asks the manager to seek to the slider's value |
| Player.PlayerViewController.PlayPauseTapped | VC/PlayerViewController.swift:65-72 | pause when playing, play otherwise; the button shows the manager's new state |
| Player.PlayerViewController.PlayCurrentIndex | VC/PlayerViewController.swift:86-95 | the current track (if any) is played, the slider resets to 0 and the label to "00:00", and the rest follows the manager |
| Player.PlayerViewController.PrevTapped | VC/PlayerViewController.swift:74-78 | at index 0 nothing at all changes; otherwise the index drops by exactly one, the track plays, the progress display resets, the labels, button and thumbnail follow as in PlayCurrentIndex and the dragging flag is kept; an in-range index stays in range |
| Player.PlayerViewController.NextTapped | VC/PlayerViewController.swift:80-84 | at (or past) the last index, or with no tracks, nothing changes; otherwise the index rises by exactly one, the new track plays, the progress display resets, the labels, button and thumbnail follow as in PlayCurrentIndex and the dragging flag is kept; an in-range index stays in range |
| Player.PlayerViewController.DidChangeState | VC/PlayerViewController.swift:162-165 | title and play/pause symbol follow the manager |
| Player.PlayerViewController.DidUpdateDuration | VC/PlayerViewController.swift:167-176 | while dragging the slider keeps its value, otherwise it shows the current time; the time labels are updated either way |
| Player.PlayerViewController.DidComplete | VC/PlayerViewController.swift:178-181 | completion resets the slider to 0 and the label to "00:00" |
| Player.TapsStayInRange | VC/PlayerViewController.swift:74-84 | from an index inside the playlist, any sequence of previous/next taps stays inside it |
| Player.TapsMoveAtMostOneEach | VC/PlayerViewController.swift:74-84 | n taps move the index by at most n |
| Player.PrevUndoesNext | VC/PlayerViewController.swift:74-84 | next then previous returns to the index, away from the last track |
| Player.NextUndoesPrev | VC/PlayerViewController.swift:74-84 | previous then next returns to the index, away from the first track |
| TimeFormat.FormatMinutesSecondsReadsBack | VC/PlayerViewController.swift:115-119 | the player's label has two fields, minutes at least two digits and unbounded, seconds exactly two digits and below 60, and minutes·60 + seconds reads back as the time |
| TimeFormat.HoursMinutesSeconds | VC/MusicTableViewCell.swift:72-75 | hours·3600 + minutes·60 + secs recompose the total, with minutes below 60 |
| TimeFormat.FormatClockWithHours | VC/VideoTableViewCell.swift:67-79 | from one hour on the cell label is `h:mm:ss`: an unpadded hours numeral of at least 1 without leading zero, then two-digit minutes and seconds below 60, and it reads back as the time |
| TimeFormat.FormatsAgreeBelowOneHour | VC/MusicTableViewCell.swift:77-81 | below one hour the cell label is the player's `mm:ss` label and exactly five characters |
| TimeFormat.FormatClockReadsBack | VC/VideoTableViewCell.swift:69-78 | every cell label reads back as its time; it has three fields exactly when the time is at least an hour |
| TimeFormat.ZeroLabel | VC/PlayerViewController.swift:92 | the "00:00" written on reset is the label of time zero in both formats |
| Artwork.FirstArtworkFound | VC/MusicTableViewCell.swift:52-66 | a found artwork is the decoded data of an artwork item before which no item decoded or threw |
| Artwork.FirstArtworkIsFirst | VC/MusicTableViewCell.swift:54-61 | the first artwork item that decodes, with no throwing load before it, is the answer |
| Artwork.NoArtwork | VC/MusicTableViewCell.swift:54-66 | when no load throws, nil means that no artwork item decodes |
| Artwork.ExtractArtwork | VC/PlayerViewController.swift:142-157 | the loop with early returns answers nil when the metadata cannot be loaded, and otherwise the first decodable artwork as FirstArtwork defines it |
| VideoCell.VideoTableViewCell.Configure | VC/VideoTableViewCell.swift:19-24 | configure records the URL, titles the row with its last path component, shows "Loading..." and the "video.fill" symbol |
| VideoCell.VideoTableViewCell.Deliver | VC/VideoTableViewCell.swift:44-61 | a result for a URL other than the recorded one changes nothing; for the recorded one the duration label is formatted and the thumbnail replaced only if one was generated, or the label becomes "Error" when the duration failed |
| VideoCell.LateResultIsDiscarded | VC/VideoTableViewCell.swift:47-48 | a cell reconfigured from one URL to another shows the second result even when the first arrives last |
| MusicCell.MusicTableViewCell.Configure | VC/MusicTableViewCell.swift:19-22 | configure records the URL, titles the row with its last path component and shows "Loading..."; the icon is left as it was |
| MusicCell.MusicTableViewCell.Deliver | VC/MusicTableViewCell.swift:24-48 | a stale result changes neither icon nor label; a current one shows the artwork or "music.note", and the formatted duration or "00:00" when loading it failed |
| MusicCell.LateResultIsDiscarded | VC/MusicTableViewCell.swift:42-47 | a cell reconfigured from one URL to another shows the second result even when the first arrives last |

## Left out

- File-system I/O is modelled as data. Creating folders, listing, copying and security-scoped access become a folder map, a listing input and a `copySucceeds` input.
- UIKit and AVFoundation are left out: table views, document pickers, label styling, row heights, AVPlayer, picture in picture, AVAsset loading and thumbnail generation. Their results arrive as inputs, and a label is its text.
- Async tasks and `MainActor` hops are not modelled. Only their order of events is: configure, then any number of delivered results in any order.
- The internals of `AudioPlayerManager` and `FavoriteManager` are not part of this model. Requests to the audio manager are logged, and its answers and the favorites list are inputs.
- `addVideoButtonTapped`, the document-picker callbacks and the table-view data-source methods only present views or forward to the members above, so they are not modelled.
- MusicView.MusicViewController.FavoriteTapped: the toggle itself (`FavoriteManager.toggleFavorite`) and the redraw of the tapped row are not modelled. The favorites list after the toggle is an input, and the `print` calls are left out.
- Player.PlayerViewController.DidUpdateDuration: times and slider values are whole seconds. Fractional slider positions, `Float` conversion and `Int(Double)` truncation are not modelled.
- TimeFormat.FormatClockReadsBack: the NaN guard of the cells' `formatTime` and negative durations are not modelled. Durations start as non-negative whole seconds.
- Paths.LastPathComponent: Foundation's URL rules are not modelled. That covers trailing slashes, percent-encoding, and names that start with `.`. Names are split at the last `/` and the last `.` only.
- Text.Lower: Unicode case mapping is not modelled; only ASCII letters are lower-cased.
- The player's `updateThumbnail` has no staleness guard. A late lookup for an earlier track still sets the thumbnail, and `ThumbnailLoaded` shows that as-is.
