# M3U playlist app: stream normalisation, muted URLs and the stream screen

This project models, in Dafny, three pieces of an Android IPTV player that
subscribes to M3U playlists:

- **Finding where a parsed M3U entry plays from** (`M3UData.toStream`). Each
  playlist entry becomes a `Stream` record. An entry URL that starts with
  exactly `file:///` is resolved against the playlist's own URL. The last path
  segment of the playlist URL is dropped and the text after `file:///` is
  appended. Scheme, authority, query and fragment are kept. Every other
  entry URL is kept verbatim. The platform `Uri` is modelled as a record of
  its already-split components (`Uris.Uri`). Path segments are the text
  between slashes, with empty segments skipped. The builder makes the path
  absolute when there is a scheme or an authority.
- **The muted-URL list** (`LiveRepositoryImpl.setMuteByUrl`). This is a stored
  list of stream URLs. Muting appends a URL that is not yet in the list.
  Unmuting removes the URL's first occurrence, as Kotlin's `list - element`
  does. The modelled invariants: the list stays duplicate-free, a repeated
  call changes nothing (for unmuting, on a duplicate-free list: with a URL
  listed twice, a second unmute removes the second copy), and no other URL is
  touched.
- **The stream screen's rules and state** (`StreamViewModel`):
  - the programme-cache staleness rule: fetch when forced, when no snapshot
    exists for the stream's playlist, or when the first such snapshot ended
    strictly before now;
  - the "programmes refreshing" flag;
  - the cast-device list and dialog;
  - the connection to a cast device and its control point;
  - the first-match track search.

Calls into the cast manager, the device control, the player manager and the
programme repository are recorded, in order, in the view model's `calls`
log. The clock, the repository's snapshots and the cast manager's returned
handle are parameters.

Files: `wrappers.dfy` (nullable values, the resource result),
`lists.dfy` (the Kotlin list operations used), `database_model.dfy`
(`Stream`, `Playlist`), `uris.dfy` (the URI record), `m3u_data.dfy`,
`live_repository.dfy`, `stream_view_model.dfy`.

## Behaviour of note

- Only URLs starting with exactly `file:///` are rewritten; other relative
  URLs stay relative, so a playback URL need not be absolute.
- The programme snapshot is looked up by the stream's playlist URL.

## Model

| member | source | states |
|---|---|---|
| `M3U.ActualUrl` | data/src/main/java/com/m3u/data/parser/m3u/M3UData.kt:23-41 | a URL not starting with exactly `file:///` is returned unchanged; a `file:///` URL becomes the rendered rewrite against the playlist URI |
| `M3U.RewriteLocal` | data/src/main/java/com/m3u/data/parser/m3u/M3UData.kt:30-40 | the rewritten URI keeps the playlist URI's scheme, authority, query and fragment; only the path changes |
| `M3U.RewriteLocalSegments` | data/src/main/java/com/m3u/data/parser/m3u/M3UData.kt:27-37 | the rewritten path's segments are the playlist's segments without the last one, followed by the segments of the text after `file:///` |
| `M3U.ShallowPlaylistPath` | data/src/main/java/com/m3u/data/parser/m3u/M3UData.kt:27-29 | with zero or one playlist segment the new path is just the local remainder (made absolute when the URI has a scheme or authority) |
| `M3U.TwoSegments` | data/src/main/java/com/m3u/data/parser/m3u/M3UData.kt:27-28 | the path `/d/f` has exactly the segments `d` and `f` |
| `M3U.RewriteInPlaylistDirectory` | data/src/main/java/com/m3u/data/parser/m3u/M3UData.kt:27-39 | for a playlist path `/d/f`, any `file:///rest` gives the playlist URI with the path `/d/rest` and every other component kept |
| `M3U.RenderHierarchical` | data/src/main/java/com/m3u/data/parser/m3u/M3UData.kt:40 | a URI with scheme and authority and no query or fragment renders as `scheme://authority` followed by its path |
| `M3U.ResolvesInPlaylistDirectory` | data/src/main/java/com/m3u/data/parser/m3u/M3UData.kt:23-41 | for a playlist at `scheme://host/d/f`, any URL `file:///rest` resolves to `scheme://host/d/rest` |
| `M3U.LocalUrl` | data/src/main/java/com/m3u/data/parser/m3u/M3UData.kt:23-29 | `file:///` followed by any text passes the prefix test, and the text is what is kept after the prefix |
| `M3U.ExamplePlaylistUri` | data/src/main/java/com/m3u/data/parser/m3u/M3UData.kt:27-30 | the URI record of the worked example renders as the playlist URL `http://host/dir/list.m3u8` |
| `M3U.ResolvesNextToPlaylist` | data/src/main/java/com/m3u/data/parser/m3u/M3UData.kt:23-41 | the entry `file:///sub/chan.ts` in the playlist `http://host/dir/list.m3u8` resolves to `http://host/dir/sub/chan.ts` (URLs as concatenations of their parts) |
| `M3U.ResolvesNextToPlaylistLiterally` | data/src/main/java/com/m3u/data/parser/m3u/M3UData.kt:23-41 | the same example with the URLs written out as plain text: `file:///sub/chan.ts` against the URI record of `http://host/dir/list.m3u8` gives exactly `http://host/dir/sub/chan.ts` |
| `M3U.TwoSlashesKept` | data/src/main/java/com/m3u/data/parser/m3u/M3UData.kt:23-25 | `file://x` (two slashes) is not rewritten |
| `M3U.ToStream` | data/src/main/java/com/m3u/data/parser/m3u/M3UData.kt:19-53 | category = group, title, cover, channelId = id, licence type and key passed through (absent stays absent), playlist URL and `seen` copied, `seen` defaulting to 0, url = the resolved URL |
| `M3U.NameAndDurationIgnored` | data/src/main/java/com/m3u/data/parser/m3u/M3UData.kt:43-53 | the entry's name and duration do not influence the stream |
| `Uris.SplitOnSlash` | data/src/main/java/com/m3u/data/parser/m3u/M3UData.kt:28 | the pieces of a path between its slashes, empty pieces included; always at least one piece |
| `Uris.Segments` | data/src/main/java/com/m3u/data/parser/m3u/M3UData.kt:27-28 | every path segment is non-empty and contains no slash |
| `Uris.PathSegments` | data/src/main/java/com/m3u/data/parser/m3u/M3UData.kt:27-28 | `getPathSegments()`: the segments of the URI's path, each non-empty and without a slash |
| `Uris.JoinPath` | data/src/main/java/com/m3u/data/parser/m3u/M3UData.kt:33-37 | `joinToString(separator = "/")`: no parts give the empty text, otherwise the text starts with the first part (the slash between parts is what `JoinSplit` and `SplitJoin` undo) |
| `Uris.HasSchemeOrAuthority` | data/src/main/java/com/m3u/data/parser/m3u/M3UData.kt:39 | the condition under which `build()` makes the path absolute: the URI has a scheme or an authority |
| `Uris.Render` | data/src/main/java/com/m3u/data/parser/m3u/M3UData.kt:40 | `toString()`: scheme and `:`, `//` and the authority, the path, `?query` and `#fragment` only when non-empty; so the text starts with `scheme:` when there is a scheme (with `//authority` when there is only an authority), ends with the path when there is no query or fragment, and is the path alone when nothing else is set |
| `Uris.PiecesHaveNoSlash` | data/src/main/java/com/m3u/data/parser/m3u/M3UData.kt:28 | splitting on slashes leaves no slash in any piece |
| `Uris.JoinSplit` | data/src/main/java/com/m3u/data/parser/m3u/M3UData.kt:33-37 | joining the slash-separated pieces of a path with `/` gives the path back |
| `Uris.SplitJoin` | data/src/main/java/com/m3u/data/parser/m3u/M3UData.kt:33-38 | splitting a `/`-join of slash-free pieces gives the pieces back |
| `Uris.SplitAppend` | data/src/main/java/com/m3u/data/parser/m3u/M3UData.kt:33-36 | the pieces of `a/b` are the pieces of `a` followed by those of `b` |
| `Uris.SplitNoSlash` | data/src/main/java/com/m3u/data/parser/m3u/M3UData.kt:29 | slash-free text is a single piece |
| `Uris.SegmentsOfJoin` | data/src/main/java/com/m3u/data/parser/m3u/M3UData.kt:32-38 | the segments of a `/`-join are the segments of each joined part in turn |
| `Uris.SegmentOfSegment` | data/src/main/java/com/m3u/data/parser/m3u/M3UData.kt:27-28 | a non-empty slash-free segment is its own only segment |
| `Uris.SegmentsOfJoinedSegments` | data/src/main/java/com/m3u/data/parser/m3u/M3UData.kt:27-37 | re-splitting a list of segments gives the list back |
| `Uris.SegmentsMakeAbsolute` | data/src/main/java/com/m3u/data/parser/m3u/M3UData.kt:39 | making the path absolute on build does not change its segments |
| `Uris.MakeAbsolute` | data/src/main/java/com/m3u/data/parser/m3u/M3UData.kt:39 | an empty or already absolute path is kept, any other gets a leading `/`; a non-empty path ends up starting with `/` and is a suffix of the result |
| `Uris.WithPath` | data/src/main/java/com/m3u/data/parser/m3u/M3UData.kt:30-39 | building upon a URI with a new path keeps scheme, authority, query and fragment, and the built path has the same segments as the given one |
| `Uris.NonEmptyAppend` | data/src/main/java/com/m3u/data/parser/m3u/M3UData.kt:28 | skipping empty pieces distributes over concatenation |
| `Uris.NonEmpty` | data/src/main/java/com/m3u/data/parser/m3u/M3UData.kt:28 | the kept pieces are exactly the non-empty ones |
| `Uris.SegmentsOfAllAppend` | data/src/main/java/com/m3u/data/parser/m3u/M3UData.kt:29 | the segments of two lists of paths concatenate |
| `Lists.StartsWith` | data/src/main/java/com/m3u/data/parser/m3u/M3UData.kt:25 | `startsWith(prefix)`: the prefix is no longer than the text and agrees with it at every index |
| `Lists.DropLast` | data/src/main/java/com/m3u/data/parser/m3u/M3UData.kt:29 | `dropLast(1)`: empty stays empty, otherwise the list is the result plus its last element |
| `Lists.RemoveFirst` | data/src/main/java/com/m3u/data/repository/impl/LiveRepositoryImpl.kt:71 | `list - element`: unchanged when absent, one element shorter when present |
| `Lists.RemoveFirstAt` | features/stream/src/main/java/com/m3u/features/stream/StreamViewModel.kt:245 | only the first occurrence is removed; the elements before and after it keep their order |
| `Lists.RemoveFirstMultiset` | data/src/main/java/com/m3u/data/repository/impl/LiveRepositoryImpl.kt:70-71 | exactly one occurrence of the element goes, when there is one, and nothing else |
| `Lists.RemoveFirstOthers` | data/src/main/java/com/m3u/data/repository/impl/LiveRepositoryImpl.kt:69-72 | every other element is in the result exactly when it was in the list |
| `Lists.RemoveFirstNoDuplicates` | data/src/main/java/com/m3u/data/repository/impl/LiveRepositoryImpl.kt:70-72 | removing from a duplicate-free list keeps it duplicate-free and removes the element entirely |
| `Lists.AppendNoDuplicates` | data/src/main/java/com/m3u/data/repository/impl/LiveRepositoryImpl.kt:66-67 | appending an absent element keeps the list duplicate-free |
| `Lists.RemoveFirstAfterAppend` | features/stream/src/main/java/com/m3u/features/stream/StreamViewModel.kt:240-246 | adding an absent device and removing it restores the list |
| `Lists.FirstIndex` | data/src/main/java/com/m3u/data/repository/impl/LiveRepositoryImpl.kt:70 | the index returned holds the element and no earlier index does |
| `Lists.FindIndex` | features/stream/src/main/java/com/m3u/features/stream/StreamViewModel.kt:137-144 | absent exactly when nothing matches; otherwise a matching index with no match before it |
| `Lists.Find` | features/stream/src/main/java/com/m3u/features/stream/StreamViewModel.kt:345 | `find`: absent exactly when nothing matches, otherwise the element at the first matching index |
| `Lists.FindIndexIsFirst` | features/stream/src/main/java/com/m3u/features/stream/StreamViewModel.kt:137-144 | a matching index with no match before it is the one found |
| `LiveRepository.SetMute` | data/src/main/java/com/m3u/data/repository/impl/LiveRepositoryImpl.kt:64-73 | after muting, the URL is in the list; muting a muted URL changes nothing; a newly muted URL is appended at the end; unmuting an absent URL changes nothing; unmuting a present one removes its first occurrence |
| `LiveRepository.LiveRepositoryImpl.SetMuteByUrl` | data/src/main/java/com/m3u/data/repository/impl/LiveRepositoryImpl.kt:62-79 | the stored list becomes `SetMute` of the old one, stays duplicate-free when it was, and the call reports `Unit` |
| `LiveRepository.SetMuteKeepsNoDuplicates` | data/src/main/java/com/m3u/data/repository/impl/LiveRepositoryImpl.kt:66-71 | every call keeps a duplicate-free list duplicate-free |
| `LiveRepository.UnmuteRemoves` | data/src/main/java/com/m3u/data/repository/impl/LiveRepositoryImpl.kt:69-72 | after unmuting on a duplicate-free list the URL is absent |
| `LiveRepository.SetMuteOnlyTouchesUrl` | data/src/main/java/com/m3u/data/repository/impl/LiveRepositoryImpl.kt:64-73 | no URL other than the argument is added or removed |
| `LiveRepository.UnmuteKeepsOrder` | data/src/main/java/com/m3u/data/repository/impl/LiveRepositoryImpl.kt:71 | unmuting removes exactly the entry at the URL's first occurrence; the rest keep their order |
| `LiveRepository.SetMuteIdempotent` | data/src/main/java/com/m3u/data/repository/impl/LiveRepositoryImpl.kt:65-73 | repeating a call gives the same list as calling once (for unmuting, on a duplicate-free list) |
| `LiveRepository.UnmuteTwiceWithDuplicate` | data/src/main/java/com/m3u/data/repository/impl/LiveRepositoryImpl.kt:70-71 | with a duplicated URL a second unmute removes the second copy, so idempotence needs duplicate-freeness |
| `LiveRepository.MuteThenUnmute` | data/src/main/java/com/m3u/data/repository/impl/LiveRepositoryImpl.kt:65-72 | muting an unmuted URL and unmuting it again restores the list |
| `StreamFeature.TrackChoice` | features/stream/src/main/java/com/m3u/features/stream/StreamViewModel.kt:133-146 | at most one selection; none when no group has the type or no format matches; otherwise the first group of the type and its smallest index whose format id equals the target's |
| `StreamFeature.StreamViewModel.ChooseTrack` | features/stream/src/main/java/com/m3u/features/stream/StreamViewModel.kt:133-146 | the search loop asks the player for exactly the choice `TrackChoice` describes |
| `StreamFeature.ProgrammesToFetch` | features/stream/src/main/java/com/m3u/features/stream/StreamViewModel.kt:344-347 | with no current stream nothing is fetched; anything fetched is the stream's playlist URL |
| `StreamFeature.FetchIff` | features/stream/src/main/java/com/m3u/features/stream/StreamViewModel.kt:345-347 | programmes are fetched exactly when the cache is ignored, no snapshot has the stream's playlist URL, or the first one that does ended strictly before now |
| `StreamFeature.EndingNowIsValid` | features/stream/src/main/java/com/m3u/features/stream/StreamViewModel.kt:356-358 | a snapshot ending exactly now is still valid and nothing is fetched |
| `StreamFeature.FirstSnapshotDecides` | features/stream/src/main/java/com/m3u/features/stream/StreamViewModel.kt:345 | only the first snapshot of the playlist is consulted |
| `StreamFeature.StreamViewModel.CheckOrRefreshProgrammes` | features/stream/src/main/java/com/m3u/features/stream/StreamViewModel.kt:337-361 | records one fetch of the stream's playlist exactly when `ProgrammesToFetch` says so, and nothing otherwise |
| `StreamFeature.IsProgrammesRefreshing` | features/stream/src/main/java/com/m3u/features/stream/StreamViewModel.kt:324-329 | true exactly when there is a playlist and its URL is among the refreshing URLs; false without a playlist |
| `StreamFeature.StreamViewModel.OnRefreshingUrls` | features/stream/src/main/java/com/m3u/features/stream/StreamViewModel.kt:324-335 | each new set of refreshing URLs sets the flag to `IsProgrammesRefreshing` |
| `StreamFeature.StreamViewModel.constructor` | features/stream/src/main/java/com/m3u/features/stream/StreamViewModel.kt:172-183 | no devices, dialog hidden, not searching, not connected, no control point, refreshing flag initially true |
| `StreamFeature.StopIfAny` | features/stream/src/main/java/com/m3u/features/stream/StreamViewModel.kt:216 | `controlPoint?.stop()`: no call exactly when there is no control point, otherwise at most one call, a stop of that control point |
| `StreamFeature.StreamViewModel.OpenDlnaDevices` | features/stream/src/main/java/com/m3u/features/stream/StreamViewModel.kt:185-196 | registers the device listener and shows the dialog |
| `StreamFeature.StreamViewModel.OnSearchDelayElapsed` | features/stream/src/main/java/com/m3u/features/stream/StreamViewModel.kt:191-194 | the delayed continuation turns searching on |
| `StreamFeature.StreamViewModel.CloseDlnaDevices` | features/stream/src/main/java/com/m3u/features/stream/StreamViewModel.kt:198-207 | searching and visible become false, the device list empties, the listener is unregistered |
| `StreamFeature.StreamViewModel.ConnectDlnaDevice` | features/stream/src/main/java/com/m3u/features/stream/StreamViewModel.kt:211-213 | the control point becomes the handle the cast manager returns |
| `StreamFeature.StreamViewModel.DisconnectDlnaDevice` | features/stream/src/main/java/com/m3u/features/stream/StreamViewModel.kt:215-219 | stops the old control point if any, sets it to none, then disconnects the device |
| `StreamFeature.StreamViewModel.OnDeviceAdded` | features/stream/src/main/java/com/m3u/features/stream/StreamViewModel.kt:240-242 | the device is appended at the end |
| `StreamFeature.StreamViewModel.OnDeviceRemoved` | features/stream/src/main/java/com/m3u/features/stream/StreamViewModel.kt:244-246 | only the device's first occurrence goes; the rest keep their order |
| `StreamFeature.StreamViewModel.OnConnected` | features/stream/src/main/java/com/m3u/features/stream/StreamViewModel.kt:248-266 | `connected` becomes the device; with a current stream and a control point, the stream's URL and title are handed to the renderer, otherwise no call |
| `StreamFeature.StreamViewModel.OnDisconnected` | features/stream/src/main/java/com/m3u/features/stream/StreamViewModel.kt:268-272 | `connected` and the control point become none, after stopping the old control point if any |
| `StreamFeature.StreamViewModel.Destroy` | features/stream/src/main/java/com/m3u/features/stream/StreamViewModel.kt:274-283 | stops the old control point if any, sets it to none, then releases the player and unregisters the device listener |

## Left out

- `Uri.parse` is not modelled: `ToStream` takes the parsed playlist URI as a parameter beside the playlist URL text.
- Percent-encoding is not modelled. `Uri.Builder.path` encodes characters and `getPathSegments` decodes them; the model treats segments as already in encoded form.
- Opaque (non-hierarchical) playlist URIs are not modelled. The URI record is always hierarchical.
- `Log.e` in `toStream` and all `logger` calls are left out. They have no effect on state.
- `M3UData.duration` is a `real`. Floating point plays no part in the conversion.
- The `seen` timestamp is an unbounded integer. It is only copied, so 64-bit overflow does not arise.
- `Stream` holds only the fields `toStream` sets. Its other fields (database id, favourite, hidden and so on) are not part of this model.
- LiveRepository.LiveRepositoryImpl.SetMuteByUrl: the exception branch (log and emit the exception's message) is not modelled, because reading and writing the configuration cannot fail in the model. The method always reports success.
- The flow plumbing around `setMuteByUrl` (`resourceFlow`, emission to collectors) is left out. The model returns a single result value.
- The other members of LiveRepositoryImpl (`observe`, `observeAll`, `get`, `getByFeedUrl`, `getByUrl`, `setFavourite`) are left out. They are DAO calls with exceptions swallowed.
- Coroutines, `StateFlow`/`stateIn` and `combine` are left out. `isProgrammesRefreshing` is a field set by `OnRefreshingUrls` on each new set of refreshing URLs. The source's `combine` also recomputes the flag when the current playlist changes; in the model the flag follows a playlist change only when `OnRefreshingUrls` is called again. The `delay(800.milliseconds)` before `searching` turns on is a separate method, `OnSearchDelayElapsed`.
- The `init` logging block of the view model is left out. It only logs.
- `isSeriesPlaylist`, `formats`, `selectedFormats` and `playerState` are left out. They are flow mappings over player state.
- The paging flows `neighboring` and `programme` are left out. They go through the paging library.
- `onVolume` is left out. It stores the new volume in `_volume`, passes it (scaled to a rounded percentage) to the audio manager, and calls `controlPoint?.setVolume(...)` on the device control; the model records no volume call.
- `toEOrSh` is left out. It turns a programme's start and end instants into fractional hours for the `programme` paging flow, which is itself left out; it is floating-point arithmetic.
- `clearTrack` and `pauseOrContinue` are left out. Each forwards its call to the player manager and changes no state of the view model.
- `onFavourite` is left out. It launches a coroutine that returns without effect when there is no current stream, and otherwise asks the stream repository to toggle the favourite flag of the stream's database id, which the modelled `Stream` record does not carry.
- StreamFeature.StreamViewModel.CheckOrRefreshProgrammes: `fetchProgrammesOrThrow` may throw inside the launched coroutine, and the logging after it is skipped then; the model records the `FetchProgrammes` call as always returning.
- The callback of `setAVTransportURI` is left out. Its `onSuccess` plays and its `onFailure` logs, asynchronously.
- The `try`/`catch` blocks around the cast-manager calls and in `destroy` are left out. Collaborators do not throw in the model, so `Destroy` always completes all of its steps.
- The playlist repository operations (subscribe, refresh, merge, backup/restore, category pin/hide, EPG management) are not part of this model. Only their interface exists, with no bodies to model.
- The settings screen, navigation, app shell, player composables and the "for you" view model are not part of this model. They hold UI toggles and delegation only.
