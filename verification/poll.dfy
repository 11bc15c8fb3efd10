/** The status poll of the pyload downloader: the fixed-position torrent rows of
    the `statusServer` envelope, the early exits, the filter on the caller's ids,
    and the snapshot built for each kept torrent. */
module StatusPoll {
  import opened Json
  import opened Wrappers
  import opened DownloadStatus
  import opened StatusFlags
  import PyloadApi

  /** Positions of the fields the downloader reads from a torrent row. */
  const IdAt := 0
  const StatusAt := 1
  const NameAt := 2
  const ProgressAt := 4
  const RatioAt := 7
  const TimeLeftAt := 10
  const ErrorAt := 21
  const FolderAt := 26
  const RowLength := 27

  /** The entries of one torrent row that the downloader reads. The name, the
      progress and the error text are kept as they stand: the loop copies the
      name, only compares the progress with 1000 and only tests the error text
      when ERROR is set on a torrent that is not seeding. */
  datatype Torrent = Torrent(
    id: Json,          // position 0
    statusBits: int,   // position 1
    name: Json,        // position 2
    progress: Json,    // position 4, permille
    seedRatio: int,    // position 7, permille
    timeLeft: int,     // position 10, seconds
    errorText: Json,   // position 21
    folder: string)    // position 26

  /** Read a row by position; None when it is too short or an entry that the
      loop always uses as a number (1, 7, 10) or as a path (26) is not one. */
  function FromRow(row: seq<Json>): (r: Option<Torrent>)
    ensures r.Some? <==>
      && |row| >= RowLength
      && row[StatusAt].JNum? && row[RatioAt].JNum? && row[TimeLeftAt].JNum? && row[FolderAt].JStr?
    ensures r.Some? ==>
      && row[IdAt] == r.value.id
      && row[StatusAt] == JNum(r.value.statusBits)
      && row[NameAt] == r.value.name
      && row[ProgressAt] == r.value.progress
      && row[RatioAt] == JNum(r.value.seedRatio)
      && row[TimeLeftAt] == JNum(r.value.timeLeft)
      && row[ErrorAt] == r.value.errorText
      && row[FolderAt] == JStr(r.value.folder)
  {
    if |row| < RowLength then None
    else if !(row[StatusAt].JNum? && row[RatioAt].JNum? && row[TimeLeftAt].JNum? && row[FolderAt].JStr?) then None
    else Some(Torrent(row[IdAt], row[StatusAt].n, row[NameAt], row[ProgressAt], row[RatioAt].n,
                      row[TimeLeftAt].n, row[ErrorAt], row[FolderAt].s))
  }

  /** A row holding the torrent's entries at their positions and null elsewhere. */
  function ToRow(t: Torrent): (row: seq<Json>)
    ensures |row| == RowLength
  {
    seq(RowLength, i =>
      if i == IdAt then t.id
      else if i == StatusAt then JNum(t.statusBits)
      else if i == NameAt then t.name
      else if i == ProgressAt then t.progress
      else if i == RatioAt then JNum(t.seedRatio)
      else if i == TimeLeftAt then JNum(t.timeLeft)
      else if i == ErrorAt then t.errorText
      else if i == FolderAt then JStr(t.folder)
      else JNull)
  }

  /** Writing a torrent into a row and reading it back gives the torrent. */
  lemma RowRoundTrip(t: Torrent)
    ensures FromRow(ToRow(t)) == Some(t)
  {
  }

  /** Reading a row keeps exactly the entries at the read positions. */
  lemma RowReadBack(row: seq<Json>, t: Torrent)
    requires FromRow(row) == Some(t)
    ensures forall i :: i in {IdAt, StatusAt, NameAt, ProgressAt, RatioAt, TimeLeftAt, ErrorAt, FolderAt} ==>
      ToRow(t)[i] == row[i]
  {
  }

  /** The decoded `statusServer` envelope: its `error` member (null when absent)
      and its `torrents` rows (None when the member is absent or falsy). */
  datatype Queue = Queue(error: Json, torrents: Option<seq<seq<Json>>>)

  /** The record reported for one torrent: the state is the reported word
      (`busy`, `seeding`, `failed` or `completed`). Seed ratio and time left keep
      the raw integers the source turns into a float and a duration string. */
  datatype Release = Release(
    id: Json,
    name: Json,
    status: string,
    seedRatio: int,
    originalStatus: int,
    timeLeft: int,
    folder: string,
    files: seq<string>)

  /** `float(n)` of a Python integer raises OverflowError from this magnitude on,
      where the nearest double would be 2**1024. */
  const FloatLimit: int := Pow2(1024) - Pow2(970)

  /** `timedelta` refuses more than this many days either way. */
  const MaxDays := 999999999
  const SecondsPerDay := 86400

  /** `float(n)` succeeds. */
  predicate FloatFits(n: int) {
    -FloatLimit < n < FloatLimit
  }

  /** `timedelta(seconds=s)` succeeds: its whole days, rounded down, stay within range. */
  predicate TimedeltaFits(s: int) {
    -MaxDays <= s / SecondsPerDay <= MaxDays
  }

  /** POSIX `os.path.join` of two parts. */
  function Join(folder: string, name: string): (p: string)
    ensures |p| >= |name| && p[|p| - |name|..] == name
    ensures |name| > 0 && name[0] == '/' ==> p == name
    ensures !(|name| > 0 && name[0] == '/') ==>
      && |p| == |folder| + |name| + (if folder == "" || folder[|folder| - 1] == '/' then 0 else 1)
      && p[..|folder|] == folder
      && (|p| > |folder| + |name| ==> p[|folder|] == '/')
  {
    if |name| > 0 && name[0] == '/' then name
    else if folder == "" || folder[|folder| - 1] == '/' then folder + name
    else folder + "/" + name
  }

  /** A file listing source: the names listed for a torrent id, or None when
      fetching or decoding the listing raised. */
  type Listing = Json -> Option<seq<string>>

  /** The files of a torrent: each listed name joined to the folder, or nothing
      when the listing failed. */
  function FilesOf(t: Torrent, listing: Listing): (files: seq<string>)
    ensures listing(t.id).None? ==> files == []
    ensures listing(t.id).Some? ==> |files| == |listing(t.id).value|
    ensures listing(t.id).Some? ==> forall k :: 0 <= k < |files| ==> files[k] == Join(t.folder, listing(t.id).value[k])
  {
    match listing(t.id)
    case None => []
    case Some(names) => seq(|names|, k requires 0 <= k < |names| => Join(t.folder, names[k]))
  }

  /** The record for one kept torrent: id, name, raw status word and folder from
      positions 0, 2, 1 and 26, and the state the classification rule gives;
      None when the classification, `float` of the ratio or `timedelta` of the
      time left raises. */
  function Snapshot(t: Torrent, listing: Listing): (r: Option<Release>)
    ensures r.None? <==>
      Classify(t.statusBits, t.progress, t.errorText).None? || !FloatFits(t.seedRatio) || !TimedeltaFits(t.timeLeft)
    ensures r.Some? ==>
      && r.value.id == t.id && r.value.name == t.name && r.value.originalStatus == t.statusBits
      && r.value.folder == t.folder && r.value.seedRatio == t.seedRatio && r.value.timeLeft == t.timeLeft
      && Classify(t.statusBits, t.progress, t.errorText).Some?
      && r.value.status == Classify(t.statusBits, t.progress, t.errorText).value.Name()
      && r.value.files == FilesOf(t, listing)
  {
    match Classify(t.statusBits, t.progress, t.errorText)
    case None => None
    case Some(status) =>
      if !FloatFits(t.seedRatio) || !TimedeltaFits(t.timeLeft) then None
      else Some(Release(t.id, t.name, status.Name(), t.seedRatio, t.statusBits, t.timeLeft, t.folder, FilesOf(t, listing)))
  }

  /** The record the loop body builds from a row; None when the body raises. */
  function Record(row: seq<Json>, listing: Listing): (r: Option<Release>)
    ensures r.Some? ==> |row| >= RowLength && r.value.id == row[IdAt]
  {
    match FromRow(row)
    case None => None
    case Some(t) => Snapshot(t, listing)
  }

  /** The loop looks further at a row: it has an id among `ids`. */
  predicate Kept(row: seq<Json>, ids: seq<Json>) {
    |row| > 0 && row[IdAt] in ids
  }

  /** A row makes the loop raise: it has no entry at position 0, or it is kept
      and the loop body raises on it. */
  predicate RowRaises(row: seq<Json>, ids: seq<Json>, listing: Listing) {
    |row| == 0 || (row[IdAt] in ids && Record(row, listing).None?)
  }

  /** The loop over the queue from position i on: a record for each row whose id
      is among `ids`, or an exception when some row makes the loop raise. */
  function ReleasesFrom(rows: seq<seq<Json>>, ids: seq<Json>, listing: Listing, i: nat): (r: Outcome<seq<Release>>)
    requires i <= |rows|
    ensures r.Threw? <==> exists k :: i <= k < |rows| && RowRaises(rows[k], ids, listing)
    ensures r.Returned? ==> |r.value| <= |rows| - i
    ensures r.Returned? ==> forall j :: 0 <= j < |r.value| ==> r.value[j].id in ids
    ensures r.Returned? && (forall k :: i <= k < |rows| ==> Kept(rows[k], ids)) ==> |r.value| == |rows| - i
    decreases |rows| - i
  {
    if i == |rows| then Returned([])
    else
      var rest := ReleasesFrom(rows, ids, listing, i + 1);
      if |rows[i]| == 0 then Threw
      else if rows[i][IdAt] !in ids then rest
      else
        match Record(rows[i], listing)
        case None => Threw
        case Some(rec) => if rest.Threw? then Threw else Returned([rec] + rest.value)
  }

  /** The whole loop over the queue. */
  function Releases(rows: seq<seq<Json>>, ids: seq<Json>, listing: Listing): (r: Outcome<seq<Release>>)
    ensures r.Threw? <==> exists k :: 0 <= k < |rows| && RowRaises(rows[k], ids, listing)
    ensures r.Returned? ==> |r.value| <= |rows|
    ensures r.Returned? ==> forall j :: 0 <= j < |r.value| ==> r.value[j].id in ids
    ensures r.Returned? && (forall k :: 0 <= k < |rows| ==> Kept(rows[k], ids)) ==> |r.value| == |rows|
  {
    ReleasesFrom(rows, ids, listing, 0)
  }

  /** The positions from i on whose row is kept, in increasing order. */
  function KeptFrom(rows: seq<seq<Json>>, ids: seq<Json>, i: nat): (r: seq<nat>)
    requires i <= |rows|
    ensures forall j :: 0 <= j < |r| ==> i <= r[j] < |rows| && Kept(rows[r[j]], ids)
    ensures forall j, k :: 0 <= j < k < |r| ==> r[j] < r[k]
    ensures forall m :: i <= m < |rows| && Kept(rows[m], ids) ==> m in r
    decreases |rows| - i
  {
    if i == |rows| then []
    else
      var rest := KeptFrom(rows, ids, i + 1);
      if Kept(rows[i], ids) then [i] + rest else rest
  }

  /** The positions of the queue the poll keeps. */
  function KeptIndices(rows: seq<seq<Json>>, ids: seq<Json>): (r: seq<nat>)
    ensures forall j :: 0 <= j < |r| ==> r[j] < |rows| && Kept(rows[r[j]], ids)
    ensures forall j, k :: 0 <= j < k < |r| ==> r[j] < r[k]
    ensures forall m :: 0 <= m < |rows| && Kept(rows[m], ids) ==> m in r
  {
    KeptFrom(rows, ids, 0)
  }

  /** Prepending one record to each of two sequences that correspond keeps them corresponding. */
  lemma ConsCorresponds(rs: seq<Release>, ks: seq<nat>, rows: seq<seq<Json>>, listing: Listing, i: nat, rec: Release)
    requires i < |rows| && Record(rows[i], listing) == Some(rec)
    requires |rs| == |ks|
    requires forall j :: 0 <= j < |ks| ==> ks[j] < |rows| && Record(rows[ks[j]], listing) == Some(rs[j])
    ensures forall j :: 0 <= j < |ks| + 1 ==>
      ([i] + ks)[j] < |rows| && Record(rows[([i] + ks)[j]], listing) == Some(([rec] + rs)[j])
  {
  }

  lemma {:induction false} ReleasesFollowKeptFrom(rows: seq<seq<Json>>, ids: seq<Json>, listing: Listing, i: nat)
    requires i <= |rows|
    ensures ReleasesFrom(rows, ids, listing, i).Returned? ==>
      && |ReleasesFrom(rows, ids, listing, i).value| == |KeptFrom(rows, ids, i)|
      && forall j :: 0 <= j < |KeptFrom(rows, ids, i)| ==>
           Record(rows[KeptFrom(rows, ids, i)[j]], listing) == Some(ReleasesFrom(rows, ids, listing, i).value[j])
    decreases |rows| - i
  {
    if i < |rows| {
      ReleasesFollowKeptFrom(rows, ids, listing, i + 1);
      var r := ReleasesFrom(rows, ids, listing, i);
      if r.Returned? && Kept(rows[i], ids) {
        var rest := ReleasesFrom(rows, ids, listing, i + 1);
        ConsCorresponds(rest.value, KeptFrom(rows, ids, i + 1), rows, listing, i, Record(rows[i], listing).value);
      }
    }
  }

  /** Unless some row raises, one record per queue row whose id is among `ids`,
      in queue order, each built from its own row; rows with other ids never
      appear. */
  lemma ReleasesInQueueOrder(rows: seq<seq<Json>>, ids: seq<Json>, listing: Listing)
    ensures Releases(rows, ids, listing).Returned? ==>
      && |Releases(rows, ids, listing).value| == |KeptIndices(rows, ids)|
      && forall j :: 0 <= j < |KeptIndices(rows, ids)| ==>
           Record(rows[KeptIndices(rows, ids)[j]], listing) == Some(Releases(rows, ids, listing).value[j])
  {
    ReleasesFollowKeptFrom(rows, ids, listing, 0);
  }

  /** Lines 120 to 170 of the poll, given the decoded envelope (None when the
      status text was empty): nothing when there is no data, when the envelope
      carries a truthy error, or when its torrent list is missing or empty;
      otherwise an exception when some row raises, and the records of the kept
      rows in queue order when none does. */
  function ProcessQueue(data: Option<Queue>, ids: seq<Json>, listing: Listing): (r: Outcome<seq<Release>>)
    ensures data.None? ==> r == Returned([])
    ensures data.Some? && Truthy(data.value.error) ==> r == Returned([])
    ensures data.Some? && (data.value.torrents.None? || data.value.torrents.value == []) ==> r == Returned([])
    ensures data.Some? && !Truthy(data.value.error) && data.value.torrents.Some? ==>
      var rows := data.value.torrents.value;
      && (r.Threw? <==> exists k :: 0 <= k < |rows| && RowRaises(rows[k], ids, listing))
      && (r.Returned? ==>
            && |r.value| == |KeptIndices(rows, ids)|
            && forall j :: 0 <= j < |r.value| ==> Record(rows[KeptIndices(rows, ids)[j]], listing) == Some(r.value[j]))
  {
    match data
    case None => Returned([])
    case Some(q) =>
      if Truthy(q.error) then Returned([])
      else if q.torrents.None? || |q.torrents.value| == 0 then Returned([])
      else
        ReleasesInQueueOrder(q.torrents.value, ids, listing);
        Releases(q.torrents.value, ids, listing)
  }

  /** `json.loads` applied to what `get_files` returned, given a parser for
      listing text: anything but a string makes `json.loads` raise, which the
      poll catches. */
  function LoadListing(raw: Json, parse: string -> Option<seq<string>>): (r: Option<seq<string>>)
    ensures !raw.JStr? ==> r.None?
  {
    match raw
    case JStr(text) => parse(text)
    case _ => None
  }

  /** The listing the poll actually gets: `get_files` returns -1, so every file
      list is empty whatever the parser. */
  lemma ConcreteFilesAreEmpty(t: Torrent, parse: string -> Option<seq<string>>)
    ensures FilesOf(t, id => LoadListing(PyloadApi.GetFiles(id), parse)) == []
  {
  }
}
