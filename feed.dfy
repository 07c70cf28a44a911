/** The Atom feed builder of the global feed handler: the tenant's posts
    become an Atom document (RFC 4287) with one entry per post, a feed-level
    `updated` that is the latest time any post was created or answered, and
    self/alternate links derived from the site's base URL.

    Time instants are integers on a single clock, with the Unix epoch at 0;
    rendering an instant as text (`formatTime`) and rendering the document
    as XML (`xml.MarshalIndent`) belong to libraries and are parameters. */
module Handlers {
  import opened Wrappers
  import Decimal

  /** A point in time; `a` is after `b` exactly when `a > b`. */
  type Timestamp = int

  /** `time.UnixMilli(0)`, the starting value of the feed's `updated`. */
  const Epoch: Timestamp := 0

  /** Renders an instant, as `formatTime` does with the RFC 3339 layout. */
  type TimeFormat = Timestamp -> string

  /** Renders a feed as XML text or fails with the marshaller's error. */
  type Marshaller = AtomFeed -> Result<string, string>

  // ---------------------------------------------------------------------
  // Inputs handed over by the post search and the tenant resolution

  datatype User = User(name: string)

  datatype PostResponse = PostResponse(respondedAt: Timestamp)

  datatype Post = Post(
    id: int,
    title: string,
    description: string,
    createdAt: Timestamp,
    user: User,
    response: Option<PostResponse>)

  datatype Tenant = Tenant(name: string, welcomeMessage: string)

  // ---------------------------------------------------------------------
  // The Atom document

  /** Text with a type attribute: `subtitle`, `summary`, `content`. */
  datatype Content = Content(contentType: string, body: string)

  datatype Link = Link(
    rel: string,
    href: string,
    mediaType: string,
    hrefLang: string,
    title: string,
    length: nat)

  datatype Author = Author(name: string, uri: string, email: string, innerXml: string)

  datatype Entry = Entry(
    title: string,
    id: string,
    published: string,
    updated: string,
    links: seq<Link>,
    author: Option<Author>,
    summary: Option<Content>,
    content: Option<Content>)

  datatype AtomFeed = AtomFeed(
    title: string,
    subtitle: Content,
    id: string,
    updated: string,
    links: seq<Link>,
    author: Option<Author>,
    entries: seq<Entry>)

  const AtomMediaType := "application/atom+xml"
  const HtmlMediaType := "text/html"

  /** A link with only rel, href and type set; the other attributes keep
      their zero values and are omitted from the XML. */
  function AtomLink(rel: string, href: string, mediaType: string): Link {
    Link(rel, href, mediaType, "", "", 0)
  }

  // ---------------------------------------------------------------------
  // Entries

  /** The page of a post, which is also its entry's id. */
  function PostUrl(baseURL: string, postId: int): string {
    baseURL + "/posts/" + Decimal.Decimal(postId)
  }

  /** The Atom document of a single post. */
  function PostFeedUrl(baseURL: string, postId: int): string {
    baseURL + "/feed/posts/" + Decimal.Decimal(postId) + ".atom"
  }

  /** Recovers the post identifier from an entry id built on `baseURL`. */
  function PostIdOf(baseURL: string, entryId: string): Option<int> {
    var prefix := baseURL + "/posts/";
    if |prefix| <= |entryId| && entryId[..|prefix|] == prefix
    then Decimal.ParseDecimal(entryId[|prefix|..])
    else None
  }

  /** The entry's `updated`: the formatted response time, or the empty
      string (omitted from the XML) while the post has no response. */
  function EntryUpdated(post: Post, formatTime: TimeFormat): string {
    match post.response
    case None => ""
    case Some(r) => formatTime(r.respondedAt)
  }

  /** The entry built for one post. */
  function EntryFor(baseURL: string, post: Post, formatTime: TimeFormat): Entry {
    Entry(
      post.title,
      PostUrl(baseURL, post.id),
      formatTime(post.createdAt),
      EntryUpdated(post, formatTime),
      [AtomLink("self", PostFeedUrl(baseURL, post.id), AtomMediaType),
       AtomLink("alternate", PostUrl(baseURL, post.id), HtmlMediaType)],
      Some(Author(post.user.name, "", "", "")),
      Some(Content("html", post.description)),
      None)
  }

  /** An entry carries its post's title, author name and description
      verbatim, has one author, an html summary and no content, and exactly
      two links: self to the post's own Atom document, then alternate to
      the entry id, from which the post identifier can be read back. */
  lemma EntryForShape(baseURL: string, post: Post, formatTime: TimeFormat)
    ensures var e := EntryFor(baseURL, post, formatTime);
      && e.id == PostUrl(baseURL, post.id) && PostIdOf(baseURL, e.id) == Some(post.id)
      && e.title == post.title && e.published == formatTime(post.createdAt)
      && e.author == Some(Author(post.user.name, "", "", ""))
      && e.summary == Some(Content("html", post.description)) && e.content == None
      && |e.links| == 2
      && e.links[0] == AtomLink("self", PostFeedUrl(baseURL, post.id), AtomMediaType)
      && e.links[1] == AtomLink("alternate", e.id, HtmlMediaType)
  {
    var prefix := baseURL + "/posts/";
    var id := PostUrl(baseURL, post.id);
    assert id[..|prefix|] == prefix;
    assert id[|prefix|..] == Decimal.Decimal(post.id);
    Decimal.DecimalRoundTrip(post.id);
  }

  /** Formatting never yields the empty string, as holds for Go's layout. */
  ghost predicate NeverEmpty(formatTime: TimeFormat) {
    forall t :: formatTime(t) != ""
  }

  /** An entry's `updated` is absent exactly when the post has no response,
      and otherwise carries the formatted response time. */
  lemma EntryUpdatedPresence(baseURL: string, post: Post, formatTime: TimeFormat)
    requires NeverEmpty(formatTime)
    ensures EntryFor(baseURL, post, formatTime).updated == "" <==> post.response.None?
    ensures post.response.Some? ==>
      EntryFor(baseURL, post, formatTime).updated == formatTime(post.response.value.respondedAt)
  {
  }

  /** Two entries of a feed share an id exactly when their posts share an
      identifier, so distinct posts give distinct Atom ids. */
  lemma EntryIdsIdentifyPosts(baseURL: string, p: Post, q: Post, formatTime: TimeFormat)
    ensures EntryFor(baseURL, p, formatTime).id == EntryFor(baseURL, q, formatTime).id
        <==> p.id == q.id
  {
    var ep, eq := EntryFor(baseURL, p, formatTime), EntryFor(baseURL, q, formatTime);
    EntryForShape(baseURL, p, formatTime);
    EntryForShape(baseURL, q, formatTime);
    if ep.id == eq.id {
      assert PostIdOf(baseURL, ep.id) == PostIdOf(baseURL, eq.id);
    }
  }

  // ---------------------------------------------------------------------
  // The feed's `updated`

  /** Every instant the accumulation compares: the epoch, each post's
      creation time and each response time. */
  ghost function Stamps(posts: seq<Post>): set<Timestamp> {
    {Epoch}
    + (set p | p in posts :: p.createdAt)
    + (set p | p in posts && p.response.Some? :: p.response.value.respondedAt)
  }

  /** `m` is the latest of the instants of `posts` (and of the epoch). */
  ghost predicate IsLatest(m: Timestamp, posts: seq<Post>) {
    m in Stamps(posts) && forall t :: t in Stamps(posts) ==> t <= m
  }

  /** One step of the scan: keep the later of the accumulator and the
      creation time, then of that and the response time, if any. */
  function Advance(last: Timestamp, post: Post): Timestamp {
    var last' := if post.createdAt > last then post.createdAt else last;
    if post.response.Some? && post.response.value.respondedAt > last'
    then post.response.value.respondedAt
    else last'
  }

  /** The accumulator after scanning `posts` from the epoch. */
  function LastUpdate(posts: seq<Post>): Timestamp {
    if posts == [] then Epoch
    else Advance(LastUpdate(posts[..|posts| - 1]), posts[|posts| - 1])
  }

  lemma StampsSnoc(posts: seq<Post>, post: Post)
    ensures Stamps(posts + [post]) ==
      Stamps(posts) + {post.createdAt}
      + (if post.response.Some? then {post.response.value.respondedAt} else {})
  {
  }

  /** The scan computes the latest instant. */
  lemma {:induction false} LastUpdateIsLatest(posts: seq<Post>)
    ensures IsLatest(LastUpdate(posts), posts)
  {
    if posts != [] {
      var init, post := posts[..|posts| - 1], posts[|posts| - 1];
      assert posts == init + [post];
      LastUpdateIsLatest(init);
      StampsSnoc(init, post);
    }
  }

  /** The latest instant is unique, so it is the one the scan computes. */
  lemma LatestIsLastUpdate(m: Timestamp, posts: seq<Post>)
    requires IsLatest(m, posts)
    ensures m == LastUpdate(posts)
  {
    LastUpdateIsLatest(posts);
  }

  /** The feed's `updated` does not depend on the order of the posts. */
  lemma LastUpdateIgnoresOrder(posts: seq<Post>, others: seq<Post>)
    requires multiset(posts) == multiset(others)
    ensures LastUpdate(posts) == LastUpdate(others)
  {
    assert forall p :: p in posts <==> p in others by {
      forall p ensures p in posts <==> p in others {
        assert p in posts <==> p in multiset(posts);
        assert p in others <==> p in multiset(others);
      }
    }
    assert Stamps(posts) == Stamps(others);
    LastUpdateIsLatest(others);
    LatestIsLastUpdate(LastUpdate(others), posts);
  }

  // ---------------------------------------------------------------------
  // The feed

  /** The feed literal before entries and `updated` are filled in. */
  function FeedHeader(tenant: Tenant, baseURL: string): AtomFeed {
    AtomFeed(
      tenant.name,
      Content("", tenant.welcomeMessage),
      baseURL,
      "",
      [AtomLink("self", baseURL + "/feed.atom", AtomMediaType),
       AtomLink("alternate", baseURL, HtmlMediaType)],
      None,
      [])
  }

  /** Builds the feed of `posts`: the header, one entry per post in input
      order, and `updated` set to the latest instant seen by the scan. */
  method BuildFeed(tenant: Tenant, baseURL: string, posts: seq<Post>, formatTime: TimeFormat)
    returns (feed: AtomFeed)
    ensures feed.title == tenant.name && feed.id == baseURL
    ensures feed.subtitle == Content("", tenant.welcomeMessage)
    ensures feed.links == [AtomLink("self", baseURL + "/feed.atom", AtomMediaType), AtomLink("alternate", baseURL, HtmlMediaType)]
    ensures feed.author == None
    ensures forall m :: IsLatest(m, posts) ==> feed.updated == formatTime(m)
    ensures |feed.entries| == |posts|
    ensures forall i :: 0 <= i < |posts| ==> feed.entries[i] == EntryFor(baseURL, posts[i], formatTime)
    ensures posts == [] ==> feed.entries == [] && feed.updated == formatTime(Epoch)
  {
    feed := FeedHeader(tenant, baseURL);
    feed := feed.(entries := []);
    var lastUpdate := Epoch;
    for i := 0 to |posts|
      invariant lastUpdate == LastUpdate(posts[..i])
      invariant feed.title == tenant.name && feed.id == baseURL
      invariant feed.subtitle == Content("", tenant.welcomeMessage) && feed.author == None
      invariant feed.links == [AtomLink("self", baseURL + "/feed.atom", AtomMediaType), AtomLink("alternate", baseURL, HtmlMediaType)]
      invariant |feed.entries| == i
      invariant forall k :: 0 <= k < i ==> feed.entries[k] == EntryFor(baseURL, posts[k], formatTime)
    {
      var post := posts[i];
      assert posts[..i + 1][..i] == posts[..i];
      if post.createdAt > lastUpdate {
        lastUpdate := post.createdAt;
      }
      if post.response.Some? && post.response.value.respondedAt > lastUpdate {
        lastUpdate := post.response.value.respondedAt;
      }
      feed := feed.(entries := feed.entries + [EntryFor(baseURL, post, formatTime)]);
    }
    assert posts[..|posts|] == posts;
    forall m | IsLatest(m, posts) ensures m == lastUpdate {
      LatestIsLastUpdate(m, posts);
    }
    feed := feed.(updated := formatTime(lastUpdate));
  }

  // ---------------------------------------------------------------------
  // The response body

  datatype FeedError = SerializationError(cause: string)

  const XmlDeclaration := "<?xml version=\"1.0\" encoding=\"utf-8\"?>\n"

  /** The response body: the XML declaration line, then the marshalled
      feed; a marshalling failure is passed on with its cause. */
  function Document(feed: AtomFeed, marshal: Marshaller): (r: Result<string, FeedError>)
    ensures r.Success? <==> marshal(feed).Success?
    ensures r.Failure? ==> r.error == SerializationError(marshal(feed).error)
  {
    match marshal(feed)
    case Failure(e) => Failure(SerializationError(e))
    case Success(xml) => Success(XmlDeclaration + xml)
  }

  /** Splits the declaration line off a body. */
  function StripDeclaration(body: string): Option<string> {
    if |XmlDeclaration| <= |body| && body[..|XmlDeclaration|] == XmlDeclaration
    then Some(body[|XmlDeclaration|..])
    else None
  }

  /** A successful body is the declaration followed by exactly what the
      marshaller produced. */
  lemma DocumentRoundTrip(feed: AtomFeed, marshal: Marshaller)
    requires marshal(feed).Success?
    ensures StripDeclaration(Document(feed, marshal).value) == Some(marshal(feed).value)
  {
  }
}
