/** The decision rules and screen state of the stream screen
    (features/stream/StreamViewModel.kt): the programme-cache staleness rule,
    the "programmes refreshing" flag, the cast-device list and dialog, the
    connection to a cast device, and the track choice. Calls the view model
    makes into the cast manager, the device control, the player manager and
    the programme repository are recorded, in order, in `calls`. */
module StreamFeature {
  import opened Wrappers
  import opened Lists
  import opened DatabaseModel

  /** A discovered cast renderer; two devices are equal when their identities
      (UDNs) are. */
  datatype Device = Device(udn: string)

  /** The handle `DLNACastManager.connectDevice` returns. */
  datatype DeviceControl = DeviceControl(handle: nat)

  /** A media track format; its `id` is nullable. */
  datatype Format = Format(id: Option<string>)

  /** One group of the player's current tracks: its track type and its formats. */
  datatype TrackGroup = TrackGroup(trackType: int, formats: seq<Format>)

  /** The programme cache summary of one playlist: the latest programme end,
      in epoch milliseconds. */
  datatype ProgrammeSnapshot = ProgrammeSnapshot(playlistUrl: string, end: int)

  /** A call into a collaborator. */
  datatype Call =
    | RegisterDeviceListener
    | UnregisterListener
    | ConnectDevice(device: Device)
    | DisconnectDevice(device: Device)
    | Stop(control: DeviceControl)
    | SetAVTransportUri(control: DeviceControl, uri: string, title: string)
    | PlayerChooseTrack(group: seq<Format>, index: nat)
    | FetchProgrammes(playlistUrl: string)
    | ReleasePlayer

  function OfType(trackType: int): (p: TrackGroup -> bool) {
    (g: TrackGroup) => g.trackType == trackType
  }

  function WithId(id: Option<string>): (p: Format -> bool) {
    (f: Format) => f.id == id
  }

  function ForPlaylist(playlistUrl: string): (p: ProgrammeSnapshot -> bool) {
    (s: ProgrammeSnapshot) => s.playlistUrl == playlistUrl
  }

  /** What `chooseTrack(type, format)` asks the player for: nothing when no
      group has the type; otherwise the first format of the first such group
      whose id equals the target's, if there is one. */
  function TrackChoice(groups: seq<TrackGroup>, trackType: int, format: Format): (r: seq<Call>)
    ensures |r| <= 1
    ensures (forall i :: 0 <= i < |groups| ==> groups[i].trackType != trackType) ==> r == []
    ensures |r| == 1 ==> r[0].PlayerChooseTrack? && r[0].index < |r[0].group|
                          && r[0].group[r[0].index].id == format.id
                          && forall j :: 0 <= j < r[0].index ==> r[0].group[j].id != format.id
    ensures |r| == 1 ==> exists i :: 0 <= i < |groups| && groups[i].trackType == trackType
                          && (forall j :: 0 <= j < i ==> groups[j].trackType != trackType)
                          && r[0].group == groups[i].formats
    ensures r == [] <==>
      (|| Find(groups, OfType(trackType)).None?
       || forall k :: 0 <= k < |Find(groups, OfType(trackType)).value.formats| ==>
            Find(groups, OfType(trackType)).value.formats[k].id != format.id)
  {
    match Find(groups, OfType(trackType))
    case None => []
    case Some(g) =>
      match FindIndex(g.formats, WithId(format.id))
      case None => []
      case Some(i) => [PlayerChooseTrack(g.formats, i)]
  }

  /** The playlist whose programmes `checkOrRefreshProgrammes` fetches, if any:
      with a current stream, its playlist's, when the cache is ignored, when no
      snapshot exists for that playlist, or when the first such snapshot ended
      strictly before `now`. */
  function ProgrammesToFetch(ignoreCache: bool, stream: Option<Stream>,
                             snapshots: seq<ProgrammeSnapshot>, now: int): (r: Option<string>)
    ensures stream.None? ==> r.None?
    ensures r.Some? ==> stream.Some? && r.value == stream.value.playlistUrl
  {
    match stream
    case None => None
    case Some(s) =>
      var snapshot := Find(snapshots, ForPlaylist(s.playlistUrl));
      if ignoreCache || snapshot.None? || snapshot.value.end < now then Some(s.playlistUrl)
      else None
  }

  /** The "programmes refreshing" flag for the current playlist. */
  function IsProgrammesRefreshing(playlist: Option<Playlist>, refreshingUrls: seq<string>): (r: bool)
    ensures r <==> playlist.Some? && exists i :: 0 <= i < |refreshingUrls| && refreshingUrls[i] == playlist.value.url
  {
    match playlist
    case None => false
    case Some(p) => p.url in refreshingUrls
  }

  /** `controlPoint?.stop()`. */
  function StopIfAny(control: Option<DeviceControl>): (r: seq<Call>)
    ensures r == [] <==> control.None?
    ensures forall i :: 0 <= i < |r| ==> r[i] == Stop(control.value)
    ensures |r| <= 1
  {
    match control
    case None => []
    case Some(c) => [Stop(c)]
  }

  /** The player manager's state the view model reads. */
  class PlayerManager {
    var stream: Option<Stream>
    var playlist: Option<Playlist>
    var tracksGroups: seq<TrackGroup>

    constructor (stream: Option<Stream>, playlist: Option<Playlist>, tracksGroups: seq<TrackGroup>)
      ensures this.stream == stream && this.playlist == playlist && this.tracksGroups == tracksGroups
    {
      this.stream := stream;
      this.playlist := playlist;
      this.tracksGroups := tracksGroups;
    }
  }

  class StreamViewModel {
    const playerManager: PlayerManager
    /** Searched cast devices. */
    var devices: seq<Device>
    /** Whether the device dialog shows. */
    var isDevicesVisible: bool
    var searching: bool
    var connected: Option<Device>
    var controlPoint: Option<DeviceControl>
    var isProgrammesRefreshing: bool
    var calls: seq<Call>

    constructor (playerManager: PlayerManager)
      ensures this.playerManager == playerManager
      ensures devices == [] && !isDevicesVisible && !searching
      ensures connected.None? && controlPoint.None?
      ensures isProgrammesRefreshing
      ensures calls == []
    {
      this.playerManager := playerManager;
      devices := [];
      isDevicesVisible := false;
      searching := false;
      connected := None;
      controlPoint := None;
      // the refresh button stays disabled until the first value arrives
      isProgrammesRefreshing := true;
      calls := [];
    }

    /** Selects the first format of the first group of `trackType` whose id
        equals `format`'s; asks the player at most once. */
    method ChooseTrack(trackType: int, format: Format)
      modifies this`calls
      ensures calls == old(calls) + TrackChoice(playerManager.tracksGroups, trackType, format)
    {
      var group := Find(playerManager.tracksGroups, OfType(trackType));
      if group.None? {
        return;
      }
      var trackGroup := group.value.formats;
      for index := 0 to |trackGroup|
        invariant calls == old(calls)
        invariant forall j :: 0 <= j < index ==> !WithId(format.id)(trackGroup[j])
      {
        if trackGroup[index].id == format.id {
          FindIndexIsFirst(trackGroup, WithId(format.id), index);
          calls := calls + [PlayerChooseTrack(trackGroup, index)];
          break;
        }
      }
    }

    /** Opens the device dialog and starts listening for devices. */
    method OpenDlnaDevices()
      modifies this`isDevicesVisible, this`calls
      ensures isDevicesVisible
      ensures calls == old(calls) + [RegisterDeviceListener]
    {
      calls := calls + [RegisterDeviceListener];
      isDevicesVisible := true;
    }

    /** The continuation `openDlnaDevices` schedules after its delay. */
    method OnSearchDelayElapsed()
      modifies this`searching
      ensures searching
    {
      searching := true;
    }

    /** Closes the dialog, forgets the devices and stops listening. */
    method CloseDlnaDevices()
      modifies this`searching, this`isDevicesVisible, this`devices, this`calls
      ensures !searching && !isDevicesVisible && devices == []
      ensures calls == old(calls) + [UnregisterListener]
    {
      searching := false;
      isDevicesVisible := false;
      devices := [];
      calls := calls + [UnregisterListener];
    }

    /** `control` is what the cast manager returns for `device`. */
    method ConnectDlnaDevice(device: Device, control: DeviceControl)
      modifies this`controlPoint, this`calls
      ensures controlPoint == Some(control)
      ensures calls == old(calls) + [ConnectDevice(device)]
    {
      calls := calls + [ConnectDevice(device)];
      controlPoint := Some(control);
    }

    method DisconnectDlnaDevice(device: Device)
      modifies this`controlPoint, this`calls
      ensures controlPoint.None?
      ensures calls == old(calls) + StopIfAny(old(controlPoint)) + [DisconnectDevice(device)]
    {
      calls := calls + StopIfAny(controlPoint);
      controlPoint := None;
      calls := calls + [DisconnectDevice(device)];
    }

    method OnDeviceAdded(device: Device)
      modifies this`devices
      ensures devices == old(devices) + [device]
    {
      devices := devices + [device];
    }

    /** Drops the first occurrence of `device`; the others keep their order. */
    method OnDeviceRemoved(device: Device)
      modifies this`devices
      ensures devices == RemoveFirst(old(devices), device)
      ensures device in old(devices) ==>
        var i := FirstIndex(old(devices), device); devices == old(devices)[..i] + old(devices)[i + 1..]
    {
      if device in devices {
        RemoveFirstAt(devices, device);
      }
      devices := RemoveFirst(devices, device);
    }

    /** Records the device and, with a current stream and a control point,
        hands the stream's URL and title to the renderer. */
    method OnConnected(device: Device)
      modifies this`connected, this`calls
      ensures connected == Some(device)
      ensures playerManager.stream.None? || controlPoint.None? ==> calls == old(calls)
      ensures playerManager.stream.Some? && controlPoint.Some? ==>
        calls == old(calls) + [SetAVTransportUri(controlPoint.value, playerManager.stream.value.url,
                                                 playerManager.stream.value.title)]
    {
      connected := Some(device);
      if playerManager.stream.None? {
        return;
      }
      var url := playerManager.stream.value.url;
      var title := playerManager.stream.value.title;
      if controlPoint.Some? {
        calls := calls + [SetAVTransportUri(controlPoint.value, url, title)];
      }
    }

    method OnDisconnected(device: Device)
      modifies this`connected, this`controlPoint, this`calls
      ensures connected.None? && controlPoint.None?
      ensures calls == old(calls) + StopIfAny(old(controlPoint))
    {
      connected := None;
      calls := calls + StopIfAny(controlPoint);
      controlPoint := None;
    }

    /** `destroy()`: stop and forget the control point, release the player and
        stop listening for devices. */
    method Destroy()
      modifies this`controlPoint, this`calls
      ensures controlPoint.None?
      ensures calls == old(calls) + StopIfAny(old(controlPoint)) + [ReleasePlayer, UnregisterListener]
    {
      calls := calls + StopIfAny(controlPoint);
      controlPoint := None;
      calls := calls + [ReleasePlayer, UnregisterListener];
    }

    /** A new value of the repository's refreshing playlist URLs. */
    method OnRefreshingUrls(refreshingUrls: seq<string>)
      modifies this`isProgrammesRefreshing
      ensures isProgrammesRefreshing == IsProgrammesRefreshing(playerManager.playlist, refreshingUrls)
    {
      isProgrammesRefreshing := IsProgrammesRefreshing(playerManager.playlist, refreshingUrls);
    }

    /** `snapshots` and `now` are what the repository and the clock give. */
    method CheckOrRefreshProgrammes(snapshots: seq<ProgrammeSnapshot>, now: int, ignoreCache: bool := false)
      modifies this`calls
      ensures ProgrammesToFetch(ignoreCache, playerManager.stream, snapshots, now).None? ==> calls == old(calls)
      ensures ProgrammesToFetch(ignoreCache, playerManager.stream, snapshots, now).Some? ==>
        calls == old(calls) + [FetchProgrammes(playerManager.stream.value.playlistUrl)]
    {
      if playerManager.stream.None? {
        return;
      }
      var stream := playerManager.stream.value;
      var snapshot := Find(snapshots, ForPlaylist(stream.playlistUrl));
      if ignoreCache || snapshot.None? || snapshot.value.end < now {
        calls := calls + [FetchProgrammes(stream.playlistUrl)];
      }
    }
  }

  /** Programmes are fetched exactly when the cache is ignored, when no
      snapshot belongs to the stream's playlist, or when the first one that
      does ended strictly before `now`. */
  lemma FetchIff(ignoreCache: bool, stream: Stream, snapshots: seq<ProgrammeSnapshot>, now: int)
    ensures ProgrammesToFetch(ignoreCache, Some(stream), snapshots, now).Some? <==>
      (|| ignoreCache
       || (forall i :: 0 <= i < |snapshots| ==> snapshots[i].playlistUrl != stream.playlistUrl)
       || (exists i :: 0 <= i < |snapshots| && snapshots[i].playlistUrl == stream.playlistUrl
             && (forall j :: 0 <= j < i ==> snapshots[j].playlistUrl != stream.playlistUrl)
             && snapshots[i].end < now))
  {
    var p := ForPlaylist(stream.playlistUrl);
    var found := FindIndex(snapshots, p);
    if found.Some? {
      var k := found.value;
      forall i | 0 <= i < |snapshots| && snapshots[i].playlistUrl == stream.playlistUrl
        && (forall j :: 0 <= j < i ==> snapshots[j].playlistUrl != stream.playlistUrl)
        ensures i == k
      {
        assert p(snapshots[i]);
        FindIndexIsFirst(snapshots, p, i);
      }
    }
  }

  /** A snapshot ending exactly now is still valid. */
  lemma EndingNowIsValid(stream: Stream, now: int)
    ensures ProgrammesToFetch(false, Some(stream), [ProgrammeSnapshot(stream.playlistUrl, now)], now).None?
  {
    var snapshots := [ProgrammeSnapshot(stream.playlistUrl, now)];
    FindIndexIsFirst(snapshots, ForPlaylist(stream.playlistUrl), 0);
  }

  /** Only the first snapshot of the playlist is consulted: an expired one
      behind a valid one does not trigger a fetch, and the other way round it
      does. */
  lemma FirstSnapshotDecides(stream: Stream, now: int)
    ensures var valid := ProgrammeSnapshot(stream.playlistUrl, now + 1);
      var expired := ProgrammeSnapshot(stream.playlistUrl, now - 1);
      ProgrammesToFetch(false, Some(stream), [valid, expired], now).None?
      && ProgrammesToFetch(false, Some(stream), [expired, valid], now).Some?
  {
    var valid := ProgrammeSnapshot(stream.playlistUrl, now + 1);
    var expired := ProgrammeSnapshot(stream.playlistUrl, now - 1);
    FindIndexIsFirst([valid, expired], ForPlaylist(stream.playlistUrl), 0);
    FindIndexIsFirst([expired, valid], ForPlaylist(stream.playlistUrl), 0);
  }
}
