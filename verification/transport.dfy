/** The HTTP transport the pyload client talks through, reduced to what the client
    observes: each POST it makes is logged, and the i-th post is answered by the
    i-th entry of a script of replies fixed in advance. A post beyond the end of
    the script raises, like a post to an unreachable host. Cookies, sessions and the HTTP wire
    format are not modelled. */
module Transport {
  import opened Json
  import opened Wrappers

  newtype byte = x: int | 0 <= x < 256

  /** One form field of a POST, kept in the shape the client builds it. */
  datatype Field =
    | Plain(text: string)                                /** a raw string (login form) */
    | Encoded(value: Json)                               /** `json.dumps(value)` */
    | QuotedLinks(uri: string)                           /** `json.dumps([quote(uri, safe='')])` */
    | Upload(filename: string, data: Option<seq<byte>>)  /** the `(ss(filename), filedata)` upload pair */

  type Form = map<string, Field>

  /** A POST as it leaves the client: the login post of `connect`, or a call of `_request`. */
  datatype Post = Login(url: string, form: Form) | Call(url: string, form: Form)

  datatype Response = Response(status: int, body: Json)

  /** What one POST yields: an exception, or a response with a status code and the
      already decoded body text. */
  datatype Reply = Raised | Answered(response: Response)

  /** The world outside the client: the replies to every post in order, and the
      posts made so far (so the next post gets reply number |sent|). */
  datatype Net = Net(script: seq<Reply>, sent: seq<Post>)

  /** The reply the k-th next post will get. */
  function Upcoming(n: Net, k: nat): Reply {
    if |n.sent| + k < |n.script| then n.script[|n.sent| + k] else Raised
  }

  /** `later` is `earlier` after some posts: same script, and the log only grew. */
  predicate Follows(earlier: Net, later: Net) {
    && later.script == earlier.script
    && |earlier.sent| <= |later.sent|
    && later.sent[..|earlier.sent|] == earlier.sent
  }

  /** The posts made between two states. */
  function NewPosts(earlier: Net, later: Net): seq<Post>
    requires Follows(earlier, later)
  {
    later.sent[|earlier.sent|..]
  }

  datatype Sent = Sent(reply: Reply, net: Net)

  /** Make one POST: log it and take the reply scripted for it. */
  function Send(n: Net, p: Post): (r: Sent)
    ensures Follows(n, r.net)
    ensures NewPosts(n, r.net) == [p]
    ensures r.reply == Upcoming(n, 0)
  {
    var next := n.(sent := n.sent + [p]);
    assert next.sent[..|n.sent|] == n.sent;
    Sent(Upcoming(n, 0), next)
  }

  lemma PrefixOfPrefix<T>(x: seq<T>, y: seq<T>, z: seq<T>)
    requires |x| <= |y| <= |z|
    requires z[..|y|] == y && y[..|x|] == x
    ensures z[..|x|] == x
    ensures z[|x|..] == y[|x|..] + z[|y|..]
  {
  }

  /** Posts made in two stretches are the posts of the whole. */
  lemma FollowsTransitive(a: Net, b: Net, c: Net)
    requires Follows(a, b) && Follows(b, c)
    ensures Follows(a, c)
    ensures NewPosts(a, c) == NewPosts(a, b) + NewPosts(b, c)
  {
    PrefixOfPrefix(a.sent, b.sent, c.sent);
  }

  /** After some posts, the k-th next reply is the one that many places further on. */
  lemma UpcomingAfter(a: Net, b: Net, k: nat)
    requires Follows(a, b)
    ensures Upcoming(b, k) == Upcoming(a, |NewPosts(a, b)| + k)
  {
  }

  /** Number of `_request` calls in a stretch of posts. */
  function Calls(posts: seq<Post>): nat {
    if |posts| == 0 then 0 else (if posts[0].Call? then 1 else 0) + Calls(posts[1..])
  }

  /** Number of login posts in a stretch of posts. */
  function Logins(posts: seq<Post>): nat {
    if |posts| == 0 then 0 else (if posts[0].Login? then 1 else 0) + Logins(posts[1..])
  }

  lemma CallsSingle(p: Post)
    ensures Calls([p]) == (if p.Call? then 1 else 0)
    ensures Logins([p]) == (if p.Login? then 1 else 0)
  {
  }

  lemma {:induction false} CallsAppend(a: seq<Post>, b: seq<Post>)
    ensures Calls(a + b) == Calls(a) + Calls(b)
    ensures Logins(a + b) == Logins(a) + Logins(b)
  {
    if |a| > 0 {
      assert (a + b)[1..] == a[1..] + b;
      CallsAppend(a[1..], b);
    } else {
      assert a + b == b;
    }
  }
}
