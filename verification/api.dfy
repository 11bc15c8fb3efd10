/** The `pyloadAPI` client: login, the single re-login retry of `request`, the
    sentinel mapping of `get_api`, and the request builders for the pyload
    endpoints. The object's mutable fields become a `Client` value threaded
    through every call together with the transport state. */
module PyloadApi {
  import opened Json
  import opened Wrappers
  import opened Transport

  /** The client's observable fields. The session object itself is not modelled:
      each (re)connect replaces it, and no state of it is read back. */
  datatype Client = Client(url: string, username: string, password: string, connected: bool)

  /** The result of one client operation and the state it leaves behind. */
  datatype Step<T> = Step(out: Outcome<T>, client: Client, net: Net)

  /** Return codes of `connect`. */
  const LoginOk := 0
  const LoginRejected := 11

  const Forbidden := 403
  const Ok := 200

  /** A client as constructed: base URL `http://host:port/api/`, not yet connected. */
  function NewClient(host: string, port: string, username: string, password: string): (c: Client)
    ensures !c.connected
    ensures c.url == "http://" + host + ":" + port + "/api/"
  {
    Client("http://" + host + ":" + port + "/api/", username, password, false)
  }

  function LoginForm(c: Client): Form {
    map["username" := Plain(c.username), "password" := Plain(c.password)]
  }

  /** The login post `connect` makes. */
  function LoginPost(c: Client): Post {
    Login(c.url + "login", LoginForm(c))
  }

  /** `connect`: post the credentials to `login`. A rejected login returns 11 and
      leaves `connected` as it was; status 200 sets it and returns 0. The login
      post is not guarded, so an exception from it propagates. The source's
      branches for a missing response and a false session can never be taken,
      since a post never returns None and a session object is never False. */
  function Connect(c: Client, n: Net): (r: Step<int>)
    ensures Follows(n, r.net)
    ensures NewPosts(n, r.net) == [LoginPost(c)]
    ensures Upcoming(n, 0).Raised? <==> r.out.Threw?
    ensures r.out == Returned(LoginOk) <==> Upcoming(n, 0).Answered? && Upcoming(n, 0).response.status == Ok
    ensures r.out == Returned(LoginRejected) <==> Upcoming(n, 0).Answered? && Upcoming(n, 0).response.status != Ok
    ensures r.client == c.(connected := c.connected || r.out == Returned(LoginOk))
  {
    var s := Send(n, LoginPost(c));
    match s.reply
    case Raised => Step(Threw, c, s.net)
    case Answered(resp) =>
      if resp.status != Ok then Step(Returned(LoginRejected), c, s.net)
      else Step(Returned(LoginOk), c.(connected := true), s.net)
  }

  /** What `_request` turns a reply into: a swallowed exception becomes None. */
  function AsResponse(reply: Reply): Option<Response> {
    match reply
    case Raised => None
    case Answered(resp) => Some(resp)
  }

  /** `_request`: one post, never raising. */
  function RawRequest(c: Client, n: Net, url: string, form: Form): (r: Step<Option<Response>>)
    ensures Follows(n, r.net)
    ensures NewPosts(n, r.net) == [Call(url, form)]
    ensures r.client == c
    ensures r.out.Returned?
    ensures r.out.value.None? <==> Upcoming(n, 0).Raised?
    ensures r.out.value.Some? ==> r.out.value.value == Upcoming(n, 0).response
  {
    var s := Send(n, Call(url, form));
    Step(Returned(AsResponse(s.reply)), c, s.net)
  }

  predicate IsForbidden(reply: Reply) {
    reply.Answered? && reply.response.status == Forbidden
  }

  /** The upcoming replies make `request` raise: the first call is refused with 403 and the
      re-login post then raises. */
  predicate RequestThrows(n: Net) {
    IsForbidden(Upcoming(n, 0)) && Upcoming(n, 1).Raised?
  }

  /** The reply whose response `request` hands back: the retry's when the first
      call was refused with 403 (the re-login is the reply in between), the first
      call's otherwise. */
  function FinalReply(n: Net): Reply {
    if IsForbidden(Upcoming(n, 0)) then Upcoming(n, 2) else Upcoming(n, 0)
  }

  /** The recovery of `request` after a 403: re-login, then the same call once more. */
  function Relogin(c: Client, n: Net, url: string, form: Form): (r: Step<Option<Response>>)
    ensures Follows(n, r.net)
    ensures r.out.Threw? <==> Upcoming(n, 0).Raised?
    ensures Upcoming(n, 0).Raised? ==> NewPosts(n, r.net) == [LoginPost(c)]
    ensures Upcoming(n, 0).Answered? ==>
      && NewPosts(n, r.net) == [LoginPost(c), Call(url, form)]
      && r.out == Returned(AsResponse(Upcoming(n, 1)))
      && r.client == c.(connected := c.connected || Upcoming(n, 0).response.status == Ok)
  {
    var login := Connect(c, n);
    if login.out.Threw? then
      Step(Threw, login.client, login.net)
    else
      var second := RawRequest(login.client, login.net, url, form);
      UpcomingAfter(n, login.net, 0);
      FollowsTransitive(n, login.net, second.net);
      Step(second.out, login.client, second.net)
  }

  /** `request`: one call; when it is answered 403, one re-login and one more
      call whose response is returned as it is, whatever it is. */
  function Request(c: Client, n: Net, url: string, form: Form): (r: Step<Option<Response>>)
    ensures Follows(n, r.net)
    ensures r.out.Threw? <==> RequestThrows(n)
    ensures r.out.Returned? ==> r.out.value == AsResponse(FinalReply(n))
    ensures !IsForbidden(Upcoming(n, 0)) ==> NewPosts(n, r.net) == [Call(url, form)] && r.client == c
    ensures RequestThrows(n) ==> NewPosts(n, r.net) == [Call(url, form), LoginPost(c)]
    ensures IsForbidden(Upcoming(n, 0)) && Upcoming(n, 1).Answered? ==>
      && NewPosts(n, r.net) == [Call(url, form), LoginPost(c), Call(url, form)]
      && r.client == c.(connected := c.connected || Upcoming(n, 1).response.status == Ok)
  {
    var first := RawRequest(c, n, url, form);
    var resp := first.out.value;
    assert resp.Some? && resp.value.status == Forbidden <==> IsForbidden(Upcoming(n, 0));
    if resp.Some? && resp.value.status == Forbidden then
      var again := Relogin(c, first.net, url, form);
      UpcomingAfter(n, first.net, 0);
      UpcomingAfter(n, first.net, 1);
      FollowsTransitive(n, first.net, again.net);
      assert [Call(url, form)] + [LoginPost(c)] == [Call(url, form), LoginPost(c)];
      assert [Call(url, form)] + [LoginPost(c), Call(url, form)] == [Call(url, form), LoginPost(c), Call(url, form)];
      again
    else
      first
  }

  /** `request` makes at most two calls and at most one re-login; the second call
      happens exactly when the first was refused with 403 and the re-login went
      through, and the re-login exactly when the first was refused. */
  lemma RequestRetryBound(c: Client, n: Net, url: string, form: Form)
    ensures var r := Request(c, n, url, form);
      && Calls(NewPosts(n, r.net)) <= 2
      && Logins(NewPosts(n, r.net)) <= 1
      && (Calls(NewPosts(n, r.net)) == 2 <==> IsForbidden(Upcoming(n, 0)) && Upcoming(n, 1).Answered?)
      && (Logins(NewPosts(n, r.net)) == 1 <==> IsForbidden(Upcoming(n, 0)))
  {
    var r := Request(c, n, url, form);
    var posts := NewPosts(n, r.net);
    var call := Call(url, form);
    CallsSingle(call);
    CallsSingle(LoginPost(c));
    if !IsForbidden(Upcoming(n, 0)) {
      assert posts == [call];
    } else if Upcoming(n, 1).Raised? {
      assert posts == [call] + [LoginPost(c)];
      CallsAppend([call], [LoginPost(c)]);
    } else {
      assert posts == ([call] + [LoginPost(c)]) + [call];
      CallsAppend([call], [LoginPost(c)]);
      CallsAppend([call] + [LoginPost(c)], [call]);
    }
  }

  /** The posts `request` makes: the call; after a 403 the re-login; and, unless
      the re-login raised, the call once more. */
  function RequestPosts(c: Client, n: Net, url: string, form: Form): seq<Post> {
    if !IsForbidden(Upcoming(n, 0)) then [Call(url, form)]
    else if Upcoming(n, 1).Raised? then [Call(url, form), LoginPost(c)]
    else [Call(url, form), LoginPost(c), Call(url, form)]
  }

  /** What `get_api` makes of the reply `request` returned: the decoded body for
      status 200, the sentinel -1 for no response or any other status. */
  function Decoded(reply: Reply): Json {
    if reply.Answered? && reply.response.status == Ok then reply.response.body else Sentinel
  }

  /** The contract every `get_api`-based call keeps: it makes exactly the posts of
      `request`, the call first; it raises exactly when `request` does; and
      otherwise its value is the 200 body or the sentinel. */
  predicate ApiCall(c: Client, n: Net, url: string, form: Form, r: Step<Json>) {
    && Follows(n, r.net)
    && NewPosts(n, r.net) == RequestPosts(c, n, url, form)
    && |NewPosts(n, r.net)| >= 1
    && NewPosts(n, r.net)[0] == Call(url, form)
    && (r.out.Threw? <==> RequestThrows(n))
    && (r.out.Returned? ==> r.out.value == Decoded(FinalReply(n)))
  }

  /** `get_api`: call `url + api`; no response or a non-200 status gives -1. */
  function GetApi(c: Client, n: Net, api: string, form: Form): (r: Step<Json>)
    ensures ApiCall(c, n, c.url + api, form, r)
    ensures r.out.Returned? && FinalReply(n).Raised? ==> r.out.value == Sentinel
    ensures r.out.Returned? && FinalReply(n).Answered? && FinalReply(n).response.status != Ok ==>
      r.out.value == Sentinel
  {
    var q := Request(c, n, c.url + api, form);
    match q.out
    case Threw => Step(Threw, q.client, q.net)
    case Returned(None) => Step(Returned(Sentinel), q.client, q.net)
    case Returned(Some(resp)) =>
      if resp.status != Ok then Step(Returned(Sentinel), q.client, q.net)
      else Step(Returned(resp.body), q.client, q.net)
  }

  /** A 200 answer whose body is -1 cannot be told apart from a call that got no response. */
  lemma SentinelIsAmbiguous(c: Client, n: Net, m: Net, api: string, form: Form)
    requires Upcoming(n, 0) == Answered(Response(Ok, Sentinel))
    requires Upcoming(m, 0).Raised?
    ensures GetApi(c, n, api, form).out == GetApi(c, m, api, form).out == Returned(Sentinel)
  {
  }

  /** `pause_torrent`: does nothing and returns the empty string. */
  function PauseTorrent(c: Client, n: Net, pid: Json, pause: bool): (r: Step<Json>)
    ensures r.out == Returned(JStr(""))
    ensures r.net == n && r.client == c
  {
    Step(Returned(JStr("")), c, n)
  }

  function RemoveForm(pid: Json): Form {
    map["pids" := Encoded(pid)]
  }

  /** `remove_torrent`: `deletePackages` with the encoded id as the only field;
      the flag asking to delete the downloaded data is not sent. */
  function RemoveTorrent(c: Client, n: Net, pid: Json, removeData: bool): (r: Step<Json>)
    ensures ApiCall(c, n, c.url + "deletePackages", RemoveForm(pid), r)
    ensures NewPosts(n, r.net)[0].form.Keys == {"pids"}
  {
    GetApi(c, n, "deletePackages", RemoveForm(pid))
  }

  /** Removing with or without the data flag is the same exchange. */
  lemma RemoveIgnoresRemoveData(c: Client, n: Net, pid: Json)
    ensures RemoveTorrent(c, n, pid, true) == RemoveTorrent(c, n, pid, false)
  {
  }

  function UriForm(filename: string, uri: string): Form {
    map["name" := Encoded(JStr(filename)), "links" := QuotedLinks(uri)]
  }

  /** `add_torrent_uri`: `addPackage` with the JSON-encoded name and the one quoted link. */
  function AddTorrentUri(c: Client, n: Net, filename: string, uri: string): (r: Step<Json>)
    ensures ApiCall(c, n, c.url + "addPackage", UriForm(filename, uri), r)
  {
    GetApi(c, n, "addPackage", UriForm(filename, uri))
  }

  function FileForm(filename: string, filedata: Option<seq<byte>>): Form {
    map["filename" := Encoded(JStr(filename)), "data" := Upload(filename, filedata)]
  }

  /** `add_torrent_file`: `uploadContainer` with the JSON-encoded file name and the upload. */
  function AddTorrentFile(c: Client, n: Net, filename: string, filedata: Option<seq<byte>>): (r: Step<Json>)
    ensures ApiCall(c, n, c.url + "uploadContainer", FileForm(filename, filedata), r)
  {
    GetApi(c, n, "uploadContainer", FileForm(filename, filedata))
  }

  /** `get_status`: calls `statusServer` but has no `return`, so its value is
      always None whatever the service answered. */
  function GetStatus(c: Client, n: Net): (r: Step<Option<Json>>)
    ensures Follows(n, r.net)
    ensures NewPosts(n, r.net) == RequestPosts(c, n, c.url + "statusServer", map[])
    ensures |NewPosts(n, r.net)| >= 1 && NewPosts(n, r.net)[0] == Call(c.url + "statusServer", map[])
    ensures r.out.Threw? <==> RequestThrows(n)
    ensures r.out.Returned? ==> r.out.value == None
  {
    var s := GetApi(c, n, "statusServer", map[]);
    match s.out
    case Threw => Step(Threw, s.client, s.net)
    case Returned(_) => Step(Returned(None), s.client, s.net)
  }

  /** `get_files`: makes no request and returns -1 for every id. */
  function GetFiles(hash: Json): (r: Json)
    ensures r == Sentinel
  {
    Sentinel
  }
}
