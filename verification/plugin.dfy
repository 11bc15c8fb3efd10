/** The `pyload` downloader class: connecting from the settings, submitting a
    release, the status poll, pause, removal and the connection test. Every
    operation starts with a fresh connect, so the only state carried from one
    operation to the next is the transport's. */
module Plugin {
  import opened Json
  import opened Wrappers
  import opened Transport
  import opened PyloadApi
  import opened StatusPoll

  /** The settings the downloader reads. `hostParts` is the host setting after
      `cleanHost(host, protocol=False).split(':')`. */
  datatype Conf = Conf(hostParts: seq<string>, username: string, password: string)

  /** The result of a downloader operation and the transport state after it. */
  datatype PluginStep<T> = PluginStep(out: Outcome<T>, net: Net)

  /** The settings name a port that the integer test accepts. */
  predicate PortOk(conf: Conf, isInt: string -> bool) {
    |conf.hostParts| >= 2 && isInt(conf.hostParts[1])
  }

  /** The client the settings describe. */
  function ConfClient(conf: Conf): Client
    requires |conf.hostParts| >= 2
  {
    NewClient(conf.hostParts[0], conf.hostParts[1], conf.username, conf.password)
  }

  /** The transport after the downloader's login post. */
  function AfterLogin(conf: Conf, n: Net): Net
    requires |conf.hostParts| >= 2
  {
    n.(sent := n.sent + [LoginPost(ConfClient(conf))])
  }

  /** The downloader's `connect`: a host setting without a colon raises, a port
      that is not an integer gives False, and otherwise a fresh client logs in and
      is returned whatever the login answered. */
  function PluginConnect(conf: Conf, isInt: string -> bool, n: Net): (r: PluginStep<Option<Client>>)
    ensures |conf.hostParts| < 2 ==> r.out.Threw? && r.net == n
    ensures |conf.hostParts| >= 2 && !isInt(conf.hostParts[1]) ==> r.out == Returned(None) && r.net == n
    ensures PortOk(conf, isInt) ==>
      && Follows(n, r.net)
      && NewPosts(n, r.net) == [LoginPost(ConfClient(conf))]
      && (r.out.Threw? <==> Upcoming(n, 0).Raised?)
      && (r.out.Returned? ==>
            && r.out.value.Some?
            && r.out.value.value.url == ConfClient(conf).url
            && (r.out.value.value.connected <==> Upcoming(n, 0).response.status == Ok))
  {
    if |conf.hostParts| < 2 then PluginStep(Threw, n)
    else if !isInt(conf.hostParts[1]) then PluginStep(Returned(None), n)
    else
      var login := Connect(ConfClient(conf), n);
      if login.out.Threw? then PluginStep(Threw, login.net)
      else PluginStep(Returned(Some(login.client)), login.net)
  }

  /** A rejected login still counts as connected for every operation below. */
  lemma RejectedLoginStillConnects(conf: Conf, isInt: string -> bool, n: Net)
    requires PortOk(conf, isInt)
    requires Upcoming(n, 0).Answered? && Upcoming(n, 0).response.status != Ok
    ensures PluginConnect(conf, isInt, n).out.Returned?
    ensures PluginConnect(conf, isInt, n).out.value.Some?
    ensures !PluginConnect(conf, isInt, n).out.value.value.connected
  {
  }

  /** `test`: the client's connected flag after a connect. */
  function Test(conf: Conf, isInt: string -> bool, n: Net): (r: PluginStep<bool>)
    ensures r.out == Returned(true) <==>
      PortOk(conf, isInt) && Upcoming(n, 0).Answered? && Upcoming(n, 0).response.status == Ok
    ensures r.out.Threw? <==> |conf.hostParts| < 2 || (PortOk(conf, isInt) && Upcoming(n, 0).Raised?)
  {
    var conn := PluginConnect(conf, isInt, n);
    match conn.out
    case Threw => PluginStep(Threw, conn.net)
    case Returned(None) => PluginStep(Returned(false), conn.net)
    case Returned(Some(c)) => PluginStep(Returned(c.connected), conn.net)
  }

  /** The fields of the release being sent: its protocol (absent when the release
      data has none) and its link. */
  datatype ReleaseData = ReleaseData(protocol: Option<string>, url: string)

  datatype DownloadResult = NotSent | Submitted(packageId: Json)

  const TorrentProtocol := "torrent"
  const MagnetProtocol := "torrent_magnet"

  /** Python truthiness of the file data. */
  predicate HasFileData(filedata: Option<seq<byte>>) {
    filedata.Some? && |filedata.value| > 0
  }

  /** A `.torrent` release arrived without its file. */
  predicate MissingTorrentFile(release: ReleaseData, filedata: Option<seq<byte>>) {
    !HasFileData(filedata) && release.protocol == Some(TorrentProtocol)
  }

  /** The endpoint and form `download` submits with: a magnet link by URI, anything
      else as an uploaded file. */
  function Submission(c: Client, release: ReleaseData, filename: string, filedata: Option<seq<byte>>): Post {
    if release.protocol == Some(MagnetProtocol) then Call(c.url + "addPackage", UriForm(filename, release.url))
    else Call(c.url + "uploadContainer", FileForm(filename, filedata))
  }

  /** `download`: False when the connect is falsy or a torrent release has no
      file; otherwise submit, and False again when the returned package id is -1.
      `filename` stands for what `createFileName` makes of the release. */
  function Download(conf: Conf, isInt: string -> bool, n: Net, release: ReleaseData,
                    filedata: Option<seq<byte>>, filename: string): (r: PluginStep<DownloadResult>)
    ensures !PortOk(conf, isInt) ==> r.net == n && (r.out.Threw? <==> |conf.hostParts| < 2)
    ensures !PortOk(conf, isInt) && |conf.hostParts| >= 2 ==> r.out == Returned(NotSent)
    ensures PortOk(conf, isInt) ==>
      Follows(n, r.net) && |NewPosts(n, r.net)| >= 1 && NewPosts(n, r.net)[0] == LoginPost(ConfClient(conf))
    ensures PortOk(conf, isInt) && Upcoming(n, 0).Raised? ==> r.out.Threw?
    ensures PortOk(conf, isInt) && Upcoming(n, 0).Answered? && MissingTorrentFile(release, filedata) ==>
      r.out == Returned(NotSent) && |NewPosts(n, r.net)| == 1
    ensures PortOk(conf, isInt) && Upcoming(n, 0).Answered? && !MissingTorrentFile(release, filedata) ==>
      var rest := AfterLogin(conf, n);
      var sub := Submission(ConfClient(conf), release, filename, filedata);
      && NewPosts(n, r.net) == [LoginPost(ConfClient(conf))] + RequestPosts(ConfClient(conf), rest, sub.url, sub.form)
      && |NewPosts(n, r.net)| >= 2
      && NewPosts(n, r.net)[1] == sub
      && (r.out.Threw? <==> RequestThrows(rest))
      && (r.out.Returned? ==>
            && (r.out.value == NotSent <==> Decoded(FinalReply(rest)) == Sentinel)
            && (r.out.value.Submitted? ==> r.out.value.packageId == Decoded(FinalReply(rest))))
  {
    var conn := PluginConnect(conf, isInt, n);
    match conn.out
    case Threw => PluginStep(Threw, conn.net)
    case Returned(None) => PluginStep(Returned(NotSent), conn.net)
    case Returned(Some(c)) =>
      if MissingTorrentFile(release, filedata) then PluginStep(Returned(NotSent), conn.net)
      else
        var sent :=
          if release.protocol == Some(MagnetProtocol) then AddTorrentUri(c, conn.net, filename, release.url)
          else AddTorrentFile(c, conn.net, filename, filedata);
        FollowsTransitive(n, conn.net, sent.net);
        assert conn.net == AfterLogin(conf, n);
        match sent.out
        case Threw => PluginStep(Threw, sent.net)
        case Returned(packageId) =>
          if packageId != Sentinel then PluginStep(Returned(Submitted(packageId)), sent.net)
          else PluginStep(Returned(NotSent), sent.net)
  }

  /** The file listing the poll gets for each torrent: what `json.loads` makes of
      `get_files`, given a parser for listing text. */
  function PollListing(parse: string -> Option<seq<string>>): Listing {
    (id: Json) => LoadListing(GetFiles(id), parse)
  }

  /** The poll from the status data on: nothing for no data; `json.loads` of the
      data otherwise, which raises on anything but a string (the data is the
      value `get_api` already decoded) and, for a string, whenever `loads`
      rejects it (None); then the queue's records or the exception of a row. */
  function ReadStatus(data: Option<Json>, ids: seq<Json>, loads: string -> Option<Queue>,
                      parse: string -> Option<seq<string>>): (r: Outcome<seq<StatusPoll.Release>>)
    ensures data.None? || !Truthy(data.value) ==> r == Returned([])
    ensures data.Some? && Truthy(data.value) && !data.value.JStr? ==> r.Threw?
    ensures data.Some? && Truthy(data.value) && data.value.JStr? ==>
      && (loads(data.value.s).None? ==> r.Threw?)
      && (loads(data.value.s).Some? ==> r == ProcessQueue(loads(data.value.s), ids, PollListing(parse)))
    ensures r.Returned? ==> forall j :: 0 <= j < |r.value| ==> r.value[j].id in ids && r.value[j].files == []
  {
    if data.None? || !Truthy(data.value) then Returned([])
    else if !data.value.JStr? then Threw
    else
      match loads(data.value.s)
      case None => Threw
      case Some(q) =>
        var out := ProcessQueue(Some(q), ids, PollListing(parse));
        assert out.Returned? ==> forall j :: 0 <= j < |out.value| ==> out.value[j].id in ids && out.value[j].files == [] by {
          if out.Returned? && !Truthy(q.error) && q.torrents.Some? {
            var rows := q.torrents.value;
            forall j | 0 <= j < |out.value|
              ensures out.value[j].id in ids && out.value[j].files == []
            {
              var k := KeptIndices(rows, ids)[j];
              var t := FromRow(rows[k]).value;
              ConcreteFilesAreEmpty(t, parse);
            }
          }
        }
        out
  }

  /** `getAllDownloadStatus`: connect, fetch the status data and read it. Because
      `get_status` returns nothing, the poll never reaches the queue: it returns
      an empty list, or raises when the connect or the re-login raises. */
  function GetAllDownloadStatus(conf: Conf, isInt: string -> bool, n: Net, ids: seq<Json>,
                                loads: string -> Option<Queue>,
                                parse: string -> Option<seq<string>>): (r: PluginStep<seq<StatusPoll.Release>>)
    ensures r.out.Returned? ==> r.out.value == []
    ensures r.out.Threw? <==>
      |conf.hostParts| < 2 || (PortOk(conf, isInt) && (Upcoming(n, 0).Raised? || RequestThrows(AfterLogin(conf, n))))
    ensures PortOk(conf, isInt) && Upcoming(n, 0).Answered? ==>
      && Follows(n, r.net)
      && NewPosts(n, r.net) == [LoginPost(ConfClient(conf))] +
           RequestPosts(ConfClient(conf), AfterLogin(conf, n), ConfClient(conf).url + "statusServer", map[])
      && |NewPosts(n, r.net)| >= 2
      && NewPosts(n, r.net)[1] == Call(ConfClient(conf).url + "statusServer", map[])
  {
    var conn := PluginConnect(conf, isInt, n);
    match conn.out
    case Threw => PluginStep(Threw, conn.net)
    case Returned(None) => PluginStep(Returned([]), conn.net)
    case Returned(Some(c)) =>
      var status := GetStatus(c, conn.net);
      FollowsTransitive(n, conn.net, status.net);
      assert conn.net == AfterLogin(conf, n);
      match status.out
      case Threw => PluginStep(Threw, status.net)
      case Returned(data) => PluginStep(ReadStatus(data, ids, loads, parse), status.net)
  }

  /** `pause`: raises when the connect raises, False when it is falsy, otherwise
      the empty string of `pause_torrent`, with no request beyond the login. */
  function Pause(conf: Conf, isInt: string -> bool, n: Net, pid: Json, pause: bool): (r: PluginStep<Option<Json>>)
    ensures r.out.Threw? <==> |conf.hostParts| < 2 || (PortOk(conf, isInt) && Upcoming(n, 0).Raised?)
    ensures !PortOk(conf, isInt) ==> r.net == n
    ensures |conf.hostParts| >= 2 && !isInt(conf.hostParts[1]) ==> r.out == Returned(None)
    ensures PortOk(conf, isInt) ==> Follows(n, r.net) && NewPosts(n, r.net) == [LoginPost(ConfClient(conf))]
    ensures PortOk(conf, isInt) && Upcoming(n, 0).Answered? ==> r.out == Returned(Some(JStr("")))
  {
    var conn := PluginConnect(conf, isInt, n);
    match conn.out
    case Threw => PluginStep(Threw, conn.net)
    case Returned(None) => PluginStep(Returned(None), conn.net)
    case Returned(Some(c)) =>
      var p := PauseTorrent(c, conn.net, pid, pause);
      PluginStep(match p.out case Threw => Threw case Returned(v) => Returned(Some(v)), p.net)
  }

  /** What every removal promises: it raises when the connect or the re-login of
      the request raises; it is False, with nothing sent, when the port is not an
      integer; otherwise the login is followed by exactly the posts of a
      `deletePackages` request with the id, and the value is what `get_api` makes
      of the final reply. */
  predicate RemoveExchange(conf: Conf, isInt: string -> bool, n: Net, pid: Json, r: PluginStep<Option<Json>>) {
    && (r.out.Threw? <==>
          |conf.hostParts| < 2 || (PortOk(conf, isInt) && (Upcoming(n, 0).Raised? || RequestThrows(AfterLogin(conf, n)))))
    && (!PortOk(conf, isInt) ==> r.net == n)
    && (|conf.hostParts| >= 2 && !isInt(conf.hostParts[1]) ==> r.out == Returned(None))
    && (PortOk(conf, isInt) && Upcoming(n, 0).Answered? ==>
          var rest := AfterLogin(conf, n);
          var url := ConfClient(conf).url + "deletePackages";
          && Follows(n, r.net)
          && NewPosts(n, r.net) == [LoginPost(ConfClient(conf))] + RequestPosts(ConfClient(conf), rest, url, RemoveForm(pid))
          && |NewPosts(n, r.net)| >= 2
          && NewPosts(n, r.net)[1] == Call(url, RemoveForm(pid))
          && (r.out.Threw? <==> RequestThrows(rest))
          && (r.out.Returned? ==> r.out.value == Some(Decoded(FinalReply(rest)))))
  }

  /** Connect, then `remove_torrent`; the removal flag is passed on and ignored. */
  function Remove(conf: Conf, isInt: string -> bool, n: Net, pid: Json, removeData: bool): (r: PluginStep<Option<Json>>)
    ensures RemoveExchange(conf, isInt, n, pid, r)
  {
    var conn := PluginConnect(conf, isInt, n);
    match conn.out
    case Threw => PluginStep(Threw, conn.net)
    case Returned(None) => PluginStep(Returned(None), conn.net)
    case Returned(Some(c)) =>
      var d := RemoveTorrent(c, conn.net, pid, removeData);
      FollowsTransitive(n, conn.net, d.net);
      assert conn.net == AfterLogin(conf, n);
      PluginStep(match d.out case Threw => Threw case Returned(v) => Returned(Some(v)), d.net)
  }

  /** `removeFailed`: remove, asking for the data to be deleted. */
  function RemoveFailed(conf: Conf, isInt: string -> bool, n: Net, pid: Json): (r: PluginStep<Option<Json>>)
    ensures RemoveExchange(conf, isInt, n, pid, r)
  {
    Remove(conf, isInt, n, pid, true)
  }

  /** `processComplete`: remove, asking for the files to be deleted or not. */
  function ProcessComplete(conf: Conf, isInt: string -> bool, n: Net, pid: Json, deleteFiles: bool): (r: PluginStep<Option<Json>>)
    ensures RemoveExchange(conf, isInt, n, pid, r)
  {
    Remove(conf, isInt, n, pid, deleteFiles)
  }

  /** Whether downloaded files should be deleted never reaches the service:
      completing with or without deletion and removing a failed release are
      the same exchange. */
  lemma DeleteFlagNeverSent(conf: Conf, isInt: string -> bool, n: Net, pid: Json, deleteFiles: bool)
    ensures ProcessComplete(conf, isInt, n, pid, deleteFiles) == RemoveFailed(conf, isInt, n, pid)
  {
  }
}
