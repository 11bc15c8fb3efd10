# pyload downloader — Dafny model

This project models the pyload downloader of CouchPotatoServer
(`couchpotato/core/downloaders/pyload.py`): the `pyloadAPI` client that logs in
to a pyload server and re-logs in once when a call is refused, the sentinel
`-1` that `get_api` returns for a failed call, the request builders for adding,
removing and pausing packages, and the downloader class on top of it: its
`connect`, the `download` dispatch between magnet links and uploaded torrent
files, the connection `test`, the status poll with its early exits, its filter
on the caller's release ids and the rule that turns a pyload status word,
progress and error text into `busy`, `seeding`, `failed` or `completed`.

The network is a script of replies fixed in advance, the i-th POST getting the
i-th reply (`Transport.Net`); every POST the client makes is logged, so
contracts state exactly which requests an operation sends. A post beyond the
end of the script raises.
`_request` swallows that exception (it becomes None); the login post of
`connect` is not guarded, so an exception there propagates (`Outcome.Threw`).

Modules: `Wrappers` (Option, Outcome), `Json` (decoded JSON values and Python
truthiness), `Transport` (replies, posts, the post log), `PyloadApi` (the
`pyloadAPI` class), `StatusFlags` (the status bit table and what `bits & flag`
tests), `DownloadStatus` (the classification rule), `StatusPoll` (torrent rows,
the envelope, the filter and the per-torrent record) and `Plugin` (the
`pyload` downloader class).

Facts about `pyload.py` that the model makes explicit:

- Line 151 tests the literal "There is not enough space on the disk", so an
  errored torrent whose error text is "disk full" classifies as `failed`
  (`DownloadStatus.ClassifyExamples`).
- The downloader's `connect` (lines 41-54) returns the client object, which is
  truthy, even when the login is rejected; only a host setting whose port is not
  an integer makes it falsy (`Plugin.RejectedLoginStillConnects`).
- `get_status` (lines 272-273) has no `return`, so the poll always stops at the
  "no data" exit of line 120 and returns an empty list
  (`Plugin.GetAllDownloadStatus`). Even if it returned the decoded body, line
  124 would apply `json.loads` a second time to a value `get_api` already
  decoded, which raises on a dict, a list or `-1`, so the loop over the queue
  would still be unreachable for such data (`Plugin.ReadStatus`).
- `get_files` (lines 275-277) returns `-1`, so every file list is empty
  (`StatusPoll.ConcreteFilesAreEmpty`).
- `pause_torrent` (lines 255-256) sends nothing, and `remove_torrent` (lines
  258-260) never sends the delete-data flag (`PyloadApi.RemoveIgnoresRemoveData`,
  `Plugin.DeleteFlagNeverSent`).
- `request` (lines 220-225) retries only when the re-login itself does not
  raise; when it raises the exception leaves `request` and no second call is
  made.
- The status loop (lines 134-168) reads a kept row's error text only when ERROR
  is set on a torrent that is not seeding, and only compares its progress with
  1000. In the source a kept row raises when it is short, when the status word
  or the time left is neither a number nor a boolean, when the ratio is not a
  number, a boolean or a numeric string, when `float` or `timedelta` overflows,
  or when the error text must be tested and is not a string, list or object.
  The model raises in all these cases and also on a boolean status word, ratio
  or time left and on a numeric-string ratio (`StatusPoll.ProcessQueue`; see
  "Left out").

## Model

| member | source | states |
|---|---|---|
| PyloadApi.NewClient | couchpotato/core/downloaders/pyload.py:201-211 | a new client is not connected and its base URL is `http://host:port/api/` |
| PyloadApi.Connect | couchpotato/core/downloaders/pyload.py:227-244 | exactly one login post with username and password; it raises iff the post raises; returns 0 iff answered 200 and 11 iff answered otherwise; `connected` becomes true on 200 and is left as it was on a rejection |
| PyloadApi.RawRequest | couchpotato/core/downloaders/pyload.py:213-218 | exactly one call with the given URL and form, never raises, None exactly when the post raised, otherwise the response received |
| PyloadApi.Request | couchpotato/core/downloaders/pyload.py:220-225 | one call when the first answer is not 403; on 403 a re-login and a second call whose response is returned unchanged (another 403 or None included); raises only when the re-login post raises, and then no second call is made |
| PyloadApi.Relogin | couchpotato/core/downloaders/pyload.py:222-224 | after a 403: one login post, then, unless it raised, one more call with the same URL and form whose response is returned as it is, with `connected` set iff the login was answered 200 or it already was |
| PyloadApi.RequestRetryBound | couchpotato/core/downloaders/pyload.py:220-225 | at most two calls and one re-login; two calls iff the first answer is 403 and the re-login went through; one re-login iff the first answer is 403 |
| PyloadApi.GetApi | couchpotato/core/downloaders/pyload.py:246-253 | exactly the posts of `request` (the call, then after a 403 the re-login and, unless it raised, the call again); the value is the body of a 200 answer and -1 when no response came or the status is not 200 |
| PyloadApi.SentinelIsAmbiguous | couchpotato/core/downloaders/pyload.py:246-253 | a 200 answer whose body is -1 yields the same value as a call that got no response |
| PyloadApi.PauseTorrent | couchpotato/core/downloaders/pyload.py:255-256 | returns the empty string, sends nothing and changes nothing |
| PyloadApi.RemoveTorrent | couchpotato/core/downloaders/pyload.py:258-260 | calls `deletePackages` with a form whose only field is `pids`, the encoded id |
| PyloadApi.RemoveIgnoresRemoveData | couchpotato/core/downloaders/pyload.py:258-260 | the remove-data flag does not change the exchange |
| PyloadApi.AddTorrentUri | couchpotato/core/downloaders/pyload.py:262-265 | calls `addPackage` with the JSON-encoded name and the one quoted link, value as `get_api` |
| PyloadApi.AddTorrentFile | couchpotato/core/downloaders/pyload.py:267-270 | calls `uploadContainer` with the JSON-encoded file name and the upload, value as `get_api` |
| PyloadApi.GetStatus | couchpotato/core/downloaders/pyload.py:272-273 | makes exactly the posts of a `statusServer` request, but its value is always None |
| PyloadApi.GetFiles | couchpotato/core/downloaders/pyload.py:275-277 | returns -1 for every id |
| StatusFlags.FlagTable | couchpotato/core/downloaders/pyload.py:30-39 | each flag is one distinct power of two, STARTED=1 up to LOADED=128, with distinct names |
| StatusFlags.SetFlagKeepsOthers | couchpotato/core/downloaders/pyload.py:30-39 | turning on a flag a status word lacks sets it and leaves every other flag's `&` test unchanged |
| DownloadStatus.Contains | couchpotato/core/downloaders/pyload.py:151 | the substring test holds iff the text occurs at some offset |
| DownloadStatus.Classify | couchpotato/core/downloaders/pyload.py:148-154 | raises (None) iff the torrent is not seeding, ERROR is set and the `in` test on the error text raises; seeding iff (STARTED or QUEUED) and progress equal to 1000, whatever the error text; failed iff not seeding, ERROR set and the disk-space text absent; completed iff neither, progress 1000 and the text not needed or containing the disk-space text; busy iff progress is not 1000 on the same condition |
| DownloadStatus.ClassifyIgnoresUnusedFlags | couchpotato/core/downloaders/pyload.py:148-154 | turning on CHECKING, CHECK-START, CHECKED, PAUSED or LOADED never changes the state |
| DownloadStatus.ClassifyReadsThreeFlags | couchpotato/core/downloaders/pyload.py:149-153 | status words agreeing on STARTED, QUEUED and ERROR classify alike |
| DownloadStatus.ClassifyExamples | couchpotato/core/downloaders/pyload.py:148-154 | 65 at 1000 seeds; ERROR with "disk full" or "bad torrent" fails; ERROR with the disk-space text stays busy; 0 at 1000 completes |
| DownloadStatus.ClassifyLooseEntries | couchpotato/core/downloaders/pyload.py:148-154 | a progress string "1000" is not complete; a null error text raises only when ERROR is set on a torrent that is not seeding; a list holding the disk-space text keeps an errored, finished torrent completed |
| DownloadStatus.Mentions | couchpotato/core/downloaders/pyload.py:151 | Python's `in` on the error text: substring on a string, element on a list, key on an object, and a raise on null, booleans and numbers |
| DownloadStatus.ClassifyTextUnread | couchpotato/core/downloaders/pyload.py:149-151 | when the torrent is seeding or ERROR is clear the error text is not read: any value gives the same state and nothing raises |
| StatusPoll.FromRow | couchpotato/core/downloaders/pyload.py:149-168 | a row is read iff it has 27 entries with numbers at 1, 7, 10 and a string at 26; the record holds the entries at positions 0, 1, 2, 4, 7, 10, 21, 26, with the name, progress and error text as they stand |
| StatusPoll.RowRoundTrip | couchpotato/core/downloaders/pyload.py:159-168 | writing a torrent at those positions and reading it back gives the torrent |
| StatusPoll.RowReadBack | couchpotato/core/downloaders/pyload.py:159-168 | a read record, written back, agrees with the row at every position read |
| StatusPoll.Join | couchpotato/core/downloaders/pyload.py:142 | the joined path is the name when it is absolute; otherwise it is the folder, one `/` exactly when the folder is non-empty and does not end in `/`, then the name |
| StatusPoll.FilesOf | couchpotato/core/downloaders/pyload.py:137-146 | empty when the listing failed, otherwise one path per listed name, each joined to the torrent's folder |
| StatusPoll.Snapshot | couchpotato/core/downloaders/pyload.py:148-168 | raises iff the classification, `float` of the ratio or `timedelta` of the time left raises; otherwise id, name, raw status word and folder come from positions 0, 2, 1 and 26, the status is the word (`busy`, `seeding`, `failed`, `completed`) of the state the classification rule gives, the files come from the listing |
| StatusPoll.Releases | couchpotato/core/downloaders/pyload.py:134-168 | raises iff some row has no id or is kept and raises; otherwise no more records than rows, every record's id among the caller's ids, and one record per row when all ids match |
| StatusPoll.KeptIndices | couchpotato/core/downloaders/pyload.py:134-135 | the strictly increasing positions of exactly the torrents whose id is among the caller's ids |
| StatusPoll.ReleasesInQueueOrder | couchpotato/core/downloaders/pyload.py:134-168 | when no row raises, the j-th record is the one read from the j-th kept row, so one per kept row, in queue order, and none for other ids |
| StatusPoll.ProcessQueue | couchpotato/core/downloaders/pyload.py:120-170 | empty for no data, a truthy error, or a missing or empty torrent list; otherwise raises iff some row raises, and else exactly the records of the kept rows in queue order |
| StatusPoll.LoadListing | couchpotato/core/downloaders/pyload.py:139-146 | decoding anything but a string fails |
| StatusPoll.ConcreteFilesAreEmpty | couchpotato/core/downloaders/pyload.py:139-146 | with `get_files` as written every torrent's file list is empty |
| Plugin.PluginConnect | couchpotato/core/downloaders/pyload.py:41-54 | raises without a colon in the host, is falsy without posting when the port is not an integer, and otherwise logs in once and returns a client whatever the login answered |
| Plugin.RejectedLoginStillConnects | couchpotato/core/downloaders/pyload.py:41-54 | a rejected login yields a truthy, unconnected client |
| Plugin.Test | couchpotato/core/downloaders/pyload.py:93-101 | true iff the port is an integer and the login is answered 200 |
| Plugin.Download | couchpotato/core/downloaders/pyload.py:56-91 | False with no post beyond the login when a torrent release has no file data, False when connect is falsy; otherwise the login followed by exactly the posts of one request, to `addPackage` for magnet releases and to `uploadContainer` for every other protocol, and the result is False iff the package id is -1 |
| Plugin.ReadStatus | couchpotato/core/downloaders/pyload.py:119-170 | no data gives an empty list; data that is not a string raises, as the second `json.loads` does on decoded data; a string that does not decode raises; otherwise the queue's outcome, each record with an id among the caller's and no files |
| Plugin.GetAllDownloadStatus | couchpotato/core/downloaders/pyload.py:103-170 | always returns the empty list after the login and exactly the posts of a `statusServer` request, and raises exactly when the host has no colon or the login or re-login post raises |
| Plugin.Pause | couchpotato/core/downloaders/pyload.py:172-175 | raises iff the host has no colon or the login post raises; False when the port is not an integer; otherwise only the login post and the empty string |
| Plugin.Remove | couchpotato/core/downloaders/pyload.py:177-189 | raises iff the host has no colon or the login or re-login post raises; False with nothing sent when the port is not an integer; otherwise the login followed by exactly the posts of a `deletePackages` request with the id, value as `get_api` |
| Plugin.RemoveFailed | couchpotato/core/downloaders/pyload.py:177-182 | the same exchange and outcome as every removal: raises iff the connect or the re-login raises, False for a bad port, otherwise the login and the `deletePackages` request with the id, value as `get_api` |
| Plugin.ProcessComplete | couchpotato/core/downloaders/pyload.py:184-189 | the same exchange and outcome as every removal, whether or not the files are to be deleted |
| Plugin.DeleteFlagNeverSent | couchpotato/core/downloaders/pyload.py:184-189 | completing with or without file deletion is the same exchange as removing a failed release |

## Left out

- The HTTP session, cookies and `requests.post`: replaced by the reply script; the session object is not modelled, so "a fresh session on every connect" is not stated.
- `json.loads`, `json.dumps`, `quote` and `ss`: form fields keep the value that would be encoded (`Transport.Field`), reply bodies are already decoded, and decoding the status data and file listings is a parameter (`loads`, `parse`). A reply body that is not valid JSON, which makes `get_api` raise, is not modelled.
- The float `seed_ratio` and the `timedelta` string: records keep the raw integers from positions 7 and 10.
- `removeReadOnly`: filesystem permission changes on the files of non-busy torrents.
- `cleanHost`, `isInt`, `createFileName`, `downloadReturnId`, `sp`, `ReleaseDownloadList` and logging: their source is not part of this model; the host setting is given already split, `isInt` and the file name are parameters, a submitted package id is returned as it is, and paths are not normalised.
- The `config` table: static settings data.
- PyloadApi.Connect: the branches returning 12 (no response) and 10 (session is False) cannot be taken and have no counterpart.
- The label setting `download` reads is never used, and `pyloadAPI`'s `token` and `last_time` are never read; none is modelled.
- Plugin.Pause: the release record is given as its id, so the KeyError that `release_download['id']` raises for a record without an id (line 175) is not modelled.
- Plugin.Remove: the release record is given as its id, so the KeyError of a record without a `name` (read for logging before the connect, lines 179 and 186) or without an `id` (lines 182 and 189) is not modelled.
- StatusPoll.Releases: `torrent[0] in ids` uses Python equality, under which `True == 1` and `1 == 1.0`; the model compares decoded values structurally, so a boolean id never matches a numeric one.
- StatusPoll.FromRow: a boolean at positions 1, 7 or 10, which Python treats as 0 or 1, and a numeric string at position 7, which `float` parses, are refused; the folder at 26 must be a string because `sp` is not part of this model.
- StatusPoll.ProcessQueue: `loads` stands for `json.loads` of the status text and gives None when it raises or decodes to something that is not an object; an envelope whose `torrents` entry is truthy but not a list of lists (the loop would iterate a string's characters or an object's keys) is not modelled. Floating-point progress values are not modelled, so only the integer 1000 completes.
- StatusPoll.FilesOf: when the listing decodes but its `files` entry is malformed, the source keeps the decoded object as the file list; the model gives the empty list (with `get_files` as written this case cannot arise).
- StatusPoll.Join: POSIX joining only; Windows path rules are not modelled.
- PyloadApi.RequestRetryBound: the second call happens iff the first answer is 403 and the re-login post did not raise; a raising re-login ends `request` with that exception.
