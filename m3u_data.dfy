/** A parsed M3U playlist entry and its conversion into a `Stream` record
    (data/parser/m3u/M3UData.kt). */
module M3U {
  import opened Wrappers
  import opened Lists
  import opened Uris
  import opened DatabaseModel

  /** One entry of an extended M3U playlist. `duration` is a Kotlin `Double`
      and plays no part in the conversion. */
  datatype M3UData = M3UData(
    id: string,
    name: string,
    cover: string,
    group: string,
    title: string,
    url: string,
    duration: real,
    licenseType: Option<string>,
    licenseKey: Option<string>
  )

  /** Entry URLs with this prefix point at a file next to the playlist. */
  const FileScheme: string := "file:///"

  /** The playlist's own URI with its last path segment replaced by the text
      after `file:///`; the caller has checked that prefix. */
  function RewriteLocal(url: string, playlistUri: Uri): (r: Uri)
    requires StartsWith(url, FileScheme)
    ensures r.scheme == playlistUri.scheme && r.authority == playlistUri.authority
    ensures r.query == playlistUri.query && r.fragment == playlistUri.fragment
  {
    var paths := DropLast(PathSegments(playlistUri)) + [url[|FileScheme|..]];
    WithPath(playlistUri, JoinPath(paths))
  }

  /** The playback URL the stream gets: a `file:///` URL is resolved against
      the playlist's directory, any other URL is kept verbatim. */
  function ActualUrl(url: string, playlistUri: Uri): (r: string)
    ensures !StartsWith(url, FileScheme) ==> r == url
    ensures StartsWith(url, FileScheme) ==> r == Render(RewriteLocal(url, playlistUri))
  {
    if StartsWith(url, FileScheme) then Render(RewriteLocal(url, playlistUri)) else url
  }

  /** `M3UData.toStream(playlistUrl, seen)`. `playlistUri` is the parsed form
      of `playlistUrl` (`Uri.parse(playlistUrl)`). */
  function ToStream(d: M3UData, playlistUrl: string, playlistUri: Uri, seen: int := 0): (s: Stream)
    ensures s.url == ActualUrl(d.url, playlistUri)
    ensures s.category == d.group && s.title == d.title && s.cover == d.cover
    ensures s.channelId == d.id
    ensures s.licenseType == d.licenseType && s.licenseKey == d.licenseKey
    ensures s.playlistUrl == playlistUrl && s.seen == seen
  {
    Stream(
      url := ActualUrl(d.url, playlistUri),
      category := d.group,
      title := d.title,
      cover := d.cover,
      playlistUrl := playlistUrl,
      seen := seen,
      licenseType := d.licenseType,
      licenseKey := d.licenseKey,
      channelId := d.id
    )
  }

  /** The resolved path's segments are the playlist's segments without the
      last one, followed by the segments of the local remainder. */
  lemma RewriteLocalSegments(url: string, playlistUri: Uri)
    requires StartsWith(url, FileScheme)
    ensures PathSegments(RewriteLocal(url, playlistUri))
         == DropLast(PathSegments(playlistUri)) + Segments(url[|FileScheme|..])
  {
    var dir := DropLast(PathSegments(playlistUri));
    var rest := url[|FileScheme|..];
    SegmentsOfJoin(dir + [rest]);
    SegmentsOfAllAppend(dir, [rest]);
    assert SegmentsOfAll([rest]) == Segments(rest) + SegmentsOfAll([]);
    assert forall i :: 0 <= i < |dir| ==> dir[i] == PathSegments(playlistUri)[i];
    SegmentsOfJoinedSegments(dir);
  }

  /** With at most one playlist segment there is no directory to keep: the
      path is the local remainder alone. */
  lemma ShallowPlaylistPath(url: string, playlistUri: Uri)
    requires StartsWith(url, FileScheme)
    requires |PathSegments(playlistUri)| <= 1
    ensures var rest := url[|FileScheme|..];
      RewriteLocal(url, playlistUri).path
        == if HasSchemeOrAuthority(playlistUri) then MakeAbsolute(rest) else rest
  {
    var rest := url[|FileScheme|..];
    var dir := DropLast(PathSegments(playlistUri));
    assert dir == [];
    assert dir + [rest] == [rest];
    assert JoinPath([rest]) == rest;
  }

  /** The segments of `/d/f`. */
  lemma TwoSegments(d: string, f: string)
    requires d != "" && '/' !in d && f != "" && '/' !in f
    ensures Segments("/" + d + "/" + f) == [d, f]
  {
    SplitNoSlash(d);
    SplitNoSlash(f);
    SplitAppend(d, f);
    SplitAppend("", d + "/" + f);
    assert "" + "/" + (d + "/" + f) == "/" + d + "/" + f;
    var pieces := [""] + [d] + [f];
    assert SplitOnSlash("/" + d + "/" + f) == pieces;
    assert pieces[0] == "" && pieces[1..] == [d, f];
    assert NonEmpty(pieces) == NonEmpty([d, f]);
    assert [d, f][1..] == [f];
    assert NonEmpty([d, f]) == [d] + NonEmpty([f]);
    assert [f][1..] == [];
    assert NonEmpty([f]) == [f] + NonEmpty([]);
  }

  /** For a playlist whose path is `/d/f`, a local file `file:///rest` gets
      the path `/d/rest`. */
  lemma RewriteInPlaylistDirectory(pl: Uri, d: string, f: string, url: string)
    requires d != "" && '/' !in d && f != "" && '/' !in f
    requires pl.path == "/" + d + "/" + f && HasSchemeOrAuthority(pl)
    requires StartsWith(url, FileScheme)
    ensures RewriteLocal(url, pl) == pl.(path := "/" + (d + "/" + url[|FileScheme|..]))
  {
    var rest := url[|FileScheme|..];
    TwoSegments(d, f);
    var paths := DropLast(PathSegments(pl)) + [rest];
    assert paths == [d, rest];
    assert JoinPath(paths) == d + "/" + rest by {
      assert paths[1..] == [rest];
    }
  }

  /** A URI with scheme and authority and no query or fragment renders as
      `scheme://authority` followed by its path. */
  lemma RenderHierarchical(scheme: string, host: string, path: string)
    ensures Render(Uri(Some(scheme), Some(host), path, None, None)) == scheme + "://" + host + path
  {
    assert Render(Uri(Some(scheme), Some(host), path, None, None))
        == scheme + ":" + ("//" + host) + path + "" + "";
  }

  /** For a playlist at `scheme://host/d/f`, a local file `file:///rest`
      resolves to `scheme://host/d/rest`. */
  lemma ResolvesInPlaylistDirectory(scheme: string, host: string, d: string, f: string, url: string)
    requires d != "" && '/' !in d && f != "" && '/' !in f
    requires StartsWith(url, FileScheme)
    ensures ActualUrl(url, Uri(Some(scheme), Some(host), "/" + d + "/" + f, None, None))
         == scheme + "://" + host + "/" + d + "/" + url[|FileScheme|..]
  {
    var pl := Uri(Some(scheme), Some(host), "/" + d + "/" + f, None, None);
    var rest := url[|FileScheme|..];
    RewriteInPlaylistDirectory(pl, d, f, url);
    RenderHierarchical(scheme, host, "/" + (d + "/" + rest));
    ConcatFlat(scheme + "://" + host, d, rest);
  }

  /** Proof step: regrouping `a` then `/d/rest`. */
  lemma ConcatFlat(a: string, d: string, rest: string)
    ensures a + ("/" + (d + "/" + rest)) == a + "/" + d + "/" + rest
  {
  }

  /** `file:///` followed by any text starts with the prefix, and the text is
      what remains after it. */
  lemma LocalUrl(rest: string)
    ensures StartsWith(FileScheme + rest, FileScheme)
    ensures (FileScheme + rest)[|FileScheme|..] == rest
  {
    assert (FileScheme + rest)[..|FileScheme|] == FileScheme;
  }

  /** The URI record of the example below renders as the playlist URL
      `http://host/dir/list.m3u8` (written as a concatenation of its parts). */
  lemma ExamplePlaylistUri()
    ensures Render(Uri(Some("http"), Some("host"), "/" + "dir" + "/" + "list.m3u8", None, None))
         == "http" + "://" + "host" + "/" + "dir" + "/" + "list.m3u8"
  {
    RenderHierarchical("http", "host", "/" + "dir" + "/" + "list.m3u8");
  }

  /** The playlist `http://host/dir/list.m3u8` with the entry
      `file:///sub/chan.ts` plays from `http://host/dir/sub/chan.ts`; the
      URLs are written as concatenations of their parts. */
  lemma ResolvesNextToPlaylist()
    ensures ActualUrl(FileScheme + "sub/chan.ts",
                      Uri(Some("http"), Some("host"), "/" + "dir" + "/" + "list.m3u8", None, None))
         == "http" + "://" + "host" + "/" + "dir" + "/" + "sub/chan.ts"
  {
    LocalUrl("sub/chan.ts");
    ResolvesInPlaylistDirectory("http", "host", "dir", "list.m3u8", FileScheme + "sub/chan.ts");
  }

  /** The same example with the URLs written out. */
  lemma ResolvesNextToPlaylistLiterally()
    ensures ActualUrl("file:///sub/chan.ts", Uri(Some("http"), Some("host"), "/dir/list.m3u8", None, None))
         == "http://host/dir/sub/chan.ts"
  {
    assert "/" + "dir" + "/" + "list.m3u8" == "/dir/list.m3u8";
    assert FileScheme + "sub/chan.ts" == "file:///sub/chan.ts";
    assert "http" + "://" + "host" + "/" + "dir" + "/" + "sub/chan.ts" == "http://host/dir/sub/chan.ts";
    ResolvesNextToPlaylist();
  }

  /** Only the three-slash prefix triggers the rewrite: `file://x` is kept. */
  lemma TwoSlashesKept(playlistUri: Uri)
    ensures ActualUrl("file://x", playlistUri) == "file://x"
  {
    assert "file://x"[7] != FileScheme[7];
  }

  /** The entry's `name` and `duration` do not reach the stream. */
  lemma NameAndDurationIgnored(d: M3UData, name: string, duration: real,
                               playlistUrl: string, playlistUri: Uri, seen: int)
    ensures ToStream(d.(name := name, duration := duration), playlistUrl, playlistUri, seen)
         == ToStream(d, playlistUrl, playlistUri, seen)
  {
  }
}
