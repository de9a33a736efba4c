/** The persisted records the core reads and produces (the app's
    `com.m3u.data.database.model` package), restricted to the fields the
    modelled code touches. */
module DatabaseModel {
  import opened Wrappers

  /** A channel of a playlist. `seen` is a Kotlin `Long` epoch timestamp. */
  datatype Stream = Stream(
    url: string,
    category: string,
    title: string,
    cover: string,
    playlistUrl: string,
    seen: int,
    licenseType: Option<string>,
    licenseKey: Option<string>,
    channelId: string
  )

  /** A subscribed playlist, identified by its source URL. */
  datatype Playlist = Playlist(title: string, url: string)
}
