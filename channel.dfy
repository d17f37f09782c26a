/** The `Channel` record of the `channel` module and the operations that
    fill in its derived fields: extracting the channel id from the URL,
    the feed storage path, and the feed URL a pull requests. */
module Channel {
  import opened Wrappers
  import opened StrSearch

  /** Rust's `u16`, the type of the service id. */
  type U16 = x: int | 0 <= x < 0x1_0000

  /** The directory under which a channel's feed is stored. */
  const DATA_DIR: string := "data/"

  /** The path segment after which a channel URL carries the channel id. */
  const CHANNEL_PREFIX: string := "/channel/"

  /** The feed endpoint; the channel id is appended to it. */
  const FEED_URL_PREFIX: string := "https://www.youtube.com/feeds/videos.xml?channel_id="

  /** `id` is the leading segment of `rest`: a prefix of `rest` without any
      '/', ended by a '/' of `rest` or by the end of `rest`. */
  ghost predicate IsSegment(rest: string, id: string) {
    |id| <= |rest| && rest[..|id|] == id && '/' !in id
    && (|id| == |rest| || rest[|id|] == '/')
  }

  /** A string has exactly one leading segment. */
  lemma SegmentUnique(rest: string, a: string, b: string)
    requires IsSegment(rest, a) && IsSegment(rest, b)
    ensures a == b
  {
  }

  /** `rest.find('/')` and the slice that follows it: everything up to the
      first '/' of `rest`, or all of `rest` when it holds none. */
  function TakeSegment(rest: string): (id: string)
    ensures IsSegment(rest, id)
  {
    match Find(rest, "/")
    case Some(j) =>
      assert forall k: nat :: k < j ==> !OccursAt(rest, "/", k);
      assert '/' !in rest[..j] by {
        forall k | 0 <= k < j ensures rest[k] != '/' {
          OccursAtChar(rest, '/', k);
        }
      }
      OccursAtChar(rest, '/', j);
      rest[..j]
    case None =>
      assert '/' !in rest by {
        forall k | 0 <= k < |rest| ensures rest[k] != '/' {
          OccursAtChar(rest, '/', k);
        }
      }
      rest
  }

  /** `parse_id`: the channel id is the leading segment of what follows the
      first "/channel/" of the URL. It fails exactly when the URL has no
      "/channel/"; it does not reject an empty id. */
  function ParseId(url: string): (r: Result<string>)
    ensures r.Err? <==> !Contains(url, CHANNEL_PREFIX)
    ensures r.Err? ==> r.error == ChannelIdNotFound
    ensures forall i: nat :: IsFirstOccurrence(url, CHANNEL_PREFIX, i) ==>
              r.Ok? && IsSegment(url[i + |CHANNEL_PREFIX|..], r.value)
    ensures r.Ok? ==> '/' !in r.value
  {
    match Find(url, CHANNEL_PREFIX)
    case None => Err(ChannelIdNotFound)
    case Some(i) =>
      assert forall j: nat :: IsFirstOccurrence(url, CHANNEL_PREFIX, j) ==> j == i;
      Ok(TakeSegment(url[i + |CHANNEL_PREFIX|..]))
  }

  /** The converse of ParseId's postcondition: the leading segment after the
      first "/channel/" is what ParseId returns. */
  lemma ParseIdFromSegment(url: string, i: nat, id: string)
    requires IsFirstOccurrence(url, CHANNEL_PREFIX, i)
    requires IsSegment(url[i + |CHANNEL_PREFIX|..], id)
    ensures ParseId(url) == Ok(id)
  {
    SegmentUnique(url[i + |CHANNEL_PREFIX|..], id, ParseId(url).value);
  }

  /** Whatever follows a '/' after a parsable URL is ignored: the id stops
      at the first '/' after the marker. With `rest == ""` this is the
      trailing-slash case. */
  lemma ParseIdIgnoresLaterSegments(u: string, rest: string)
    requires ParseId(u).Ok?
    ensures ParseId(u + "/" + rest) == ParseId(u)
  {
    var url := u + "/" + rest;
    var i := Find(u, CHANNEL_PREFIX).value;
    var n := |CHANNEL_PREFIX|;
    assert url == u + ("/" + rest);
    OccursAtExtend(u, "/" + rest, CHANNEL_PREFIX, i);
    forall j: nat | j < i ensures !OccursAt(url, CHANNEL_PREFIX, j) {
      OccursAtExtend(u, "/" + rest, CHANNEL_PREFIX, j);
    }
    assert IsFirstOccurrence(url, CHANNEL_PREFIX, i);
    var id := ParseId(u).value;
    assert url[i + n..] == u[i + n..] + ("/" + rest);
    assert IsSegment(url[i + n..], id);
    ParseIdFromSegment(url, i, id);
  }

  /** The channel URLs of the crate's unit tests: "https://www.youtube.com/channel/"
      followed by an id without '/' parse to that id, and so do they with a
      trailing slash (or any later segment). */
  lemma ParseIdChannelUrl(id: string, rest: string)
    requires '/' !in id
    ensures ParseId("https://www.youtube.com/channel/" + id) == Ok(id)
    ensures ParseId("https://www.youtube.com/channel/" + id + "/" + rest) == Ok(id)
  {
    var base := "https://www.youtube.com/channel/";
    var url := base + id;
    MarkerFirstInChannelUrl();
    forall j: nat | j <= 23 ensures OccursAt(url, CHANNEL_PREFIX, j) == OccursAt(base, CHANNEL_PREFIX, j) {
      OccursAtExtend(base, id, CHANNEL_PREFIX, j);
    }
    assert url[23 + |CHANNEL_PREFIX|..] == id;
    ParseIdFromSegment(url, 23, id);
    ParseIdIgnoresLaterSegments(url, rest);
  }

  /** In "https://www.youtube.com/channel/" the marker first occurs after
      the host, at index 23. */
  lemma MarkerFirstInChannelUrl()
    ensures IsFirstOccurrence("https://www.youtube.com/channel/", CHANNEL_PREFIX, 23)
  {
    var base := "https://www.youtube.com/channel/";
    forall j: nat | j < 23 ensures !OccursAt(base, CHANNEL_PREFIX, j) {
      if j == 6 || j == 7 {
        assert base[j + 1] != CHANNEL_PREFIX[1];
      } else {
        assert base[j] != CHANNEL_PREFIX[0];
      }
    }
  }

  /** The crate's unit test `without_slash`. */
  lemma ParseIdWithoutSlash()
    ensures ParseId("https://www.youtube.com/channel/U8ecCwsd92") == Ok("U8ecCwsd92")
  {
    var base, id := "https://www.youtube.com/channel/", "U8ecCwsd92";
    assert base + id == "https://www.youtube.com/channel/U8ecCwsd92";
    ParseIdChannelUrl(id, "");
  }

  /** The crate's unit test `with_slash`: the trailing slash is not part of the id. */
  lemma ParseIdWithSlash()
    ensures ParseId("https://www.youtube.com/channel/U8ecCwsd92/") == Ok("U8ecCwsd92")
  {
    var base, id := "https://www.youtube.com/channel/", "U8ecCwsd92";
    assert base + id + "/" + "" == "https://www.youtube.com/channel/U8ecCwsd92/";
    ParseIdChannelUrl(id, "");
  }

  /** The id is not required to be non-empty: when the first marker ends
      the URL, or is followed directly by '/', the id is empty. */
  lemma ParseIdAcceptsEmptyId(url: string, i: nat)
    requires IsFirstOccurrence(url, CHANNEL_PREFIX, i)
    requires i + |CHANNEL_PREFIX| == |url| || url[i + |CHANNEL_PREFIX|] == '/'
    ensures ParseId(url) == Ok("")
  {
    ParseIdFromSegment(url, i, "");
  }

  /** The URL the feed is pulled from: the feed endpoint followed by the
      id ParseId extracts; it fails, with ParseId's error, before any
      request is made. */
  function FeedUrl(url: string): (r: Result<string>)
    ensures r.Err? <==> !Contains(url, CHANNEL_PREFIX)
    ensures r.Err? ==> r.error == ChannelIdNotFound
    ensures forall i: nat :: IsFirstOccurrence(url, CHANNEL_PREFIX, i) ==>
              r.Ok? && |FEED_URL_PREFIX| <= |r.value|
              && r.value[..|FEED_URL_PREFIX|] == FEED_URL_PREFIX
              && IsSegment(url[i + |CHANNEL_PREFIX|..], r.value[|FEED_URL_PREFIX|..])
  {
    match ParseId(url)
    case Err(e) => Err(e)
    case Ok(id) =>
      assert (FEED_URL_PREFIX + id)[|FEED_URL_PREFIX|..] == id;
      Ok(FEED_URL_PREFIX + id)
  }

  /** What the blocking GET of a URL and the decoding of its body give:
      the body text, or a transport or decoding failure. */
  datatype Response = Body(text: string) | Failed(detail: string)

  /** `pull_feed` with the GET given as `get`. Without a channel id no
      request is made: the result is the parse error whatever `get` would
      answer, and the parse error means exactly that the marker is missing.
      Otherwise the result is what the GET of the feed URL answers, a fetch
      failure passed on as such. */
  function PullFeed(url: string, get: string -> Response): (r: Result<string>)
    ensures r == Err(ChannelIdNotFound) <==> !Contains(url, CHANNEL_PREFIX)
    ensures Contains(url, CHANNEL_PREFIX) ==>
              match get(FEED_URL_PREFIX + ParseId(url).value)
              case Body(text) => r == Ok(text)
              case Failed(detail) => r == Err(FetchFailed(detail))
  {
    match FeedUrl(url)
    case Err(e) => Err(e)
    case Ok(feedUrl) =>
      match get(feedUrl)
      case Body(text) => Ok(text)
      case Failed(detail) => Err(FetchFailed(detail))
  }

  /** The invariant every operation of a Channel keeps. The URL never
      changes, so the channel id is empty or the id parsed from it, and once
      set it stays. The feed path is empty, DATA_DIR followed by the current
      id, or DATA_DIR alone: nothing orders `set_feed_path` after `set_id`,
      and `set_id` does not recompute the path. */
  ghost predicate Reachable(url: string, channelId: string, feedPath: string) {
    (channelId == "" || ParseId(url) == Ok(channelId))
    && (feedPath == "" || feedPath == DATA_DIR || feedPath == DATA_DIR + channelId)
  }

  class Channel {
    var serviceId: U16
    var url: string
    var name: string
    var feedPath: string
    var channelId: string
    var feed: Option<string>

    ghost predicate Valid()
      reads this
    {
      Reachable(url, channelId, feedPath)
    }

    /** `Channel::new`: the given attributes, no derived field filled in. */
    constructor (serviceId: U16, url: string, name: string)
      ensures this.serviceId == serviceId && this.url == url && this.name == name
      ensures feedPath == "" && channelId == "" && feed == None
      ensures Valid()
    {
      this.serviceId := serviceId;
      this.url := url;
      this.name := name;
      feedPath := "";
      channelId := "";
      feed := None;
    }

    /** `set_feed_path`: DATA_DIR followed by the current channel id, which
        is not required to be set; a second call changes nothing. */
    method SetFeedPath()
      modifies this
      ensures feedPath == DATA_DIR + channelId
      ensures old(feedPath) == DATA_DIR + old(channelId) ==> feedPath == old(feedPath)
      ensures channelId == old(channelId) && feed == old(feed)
      ensures serviceId == old(serviceId) && url == old(url) && name == old(name)
      ensures old(Valid()) ==> Valid()
    {
      feedPath := DATA_DIR + channelId;
    }

    /** `set_id`: stores ParseId's result; on failure the error is returned
        and the channel id is left as it was. */
    method SetId() returns (r: Result<()>)
      modifies this
      ensures r.Ok? <==> Contains(url, CHANNEL_PREFIX)
      ensures r.Ok? ==> ParseId(url) == Ok(channelId)
      ensures r.Err? ==> r.error == ChannelIdNotFound && channelId == old(channelId)
      ensures feedPath == old(feedPath) && feed == old(feed)
      ensures serviceId == old(serviceId) && url == old(url) && name == old(name)
      ensures old(Valid()) ==> Valid()
    {
      var id := ParseId(url);
      if id.Err? {
        return Err(id.error);
      }
      channelId := id.value;
      return Ok(());
    }

    /** `set_feed`: pulls the feed and stores its text; on failure the
        error is returned and the feed is left as it was. */
    method SetFeed(get: string -> Response) returns (r: Result<()>)
      modifies this
      ensures r.Ok? ==> PullFeed(url, get).Ok? && feed == Some(PullFeed(url, get).value)
      ensures r.Err? ==> PullFeed(url, get) == Err(r.error) && feed == old(feed)
      ensures r == Err(ChannelIdNotFound) <==> !Contains(url, CHANNEL_PREFIX)
      ensures feedPath == old(feedPath) && channelId == old(channelId)
      ensures serviceId == old(serviceId) && url == old(url) && name == old(name)
      ensures old(Valid()) ==> Valid()
    {
      var pulled := PullFeed(url, get);
      if pulled.Err? {
        return Err(pulled.error);
      }
      feed := Some(pulled.value);
      return Ok(());
    }
  }

  /** `new`, `set_id` and `set_feed_path` in that order on a channel URL
      with a trailing slash: the id is the URL's last segment and the path
      is DATA_DIR followed by it. */
  method SetIdThenFeedPath(serviceId: U16, id: string, name: string) returns (c: Channel)
    requires '/' !in id
    ensures c.serviceId == serviceId && c.name == name
    ensures c.url == "https://www.youtube.com/channel/" + id + "/"
    ensures c.channelId == id && c.feedPath == DATA_DIR + id
    ensures c.feed == None && c.Valid()
  {
    ParseIdChannelUrl(id, "");
    assert "https://www.youtube.com/channel/" + id + "/" + "" == "https://www.youtube.com/channel/" + id + "/";
    c := new Channel(serviceId, "https://www.youtube.com/channel/" + id + "/", name);
    var r := c.SetId();
    c.SetFeedPath();
  }

  /** The id of the channel in the crate's `set_feed` unit test. */
  const TEST_CHANNEL_ID: string := "UC9kZ6FlOQfusBV8LS2x2fAA"

  /** The same sequence on the channel of the crate's `set_feed` unit test:
      service id 0, its URL and its name; the feed is still None before any
      pull. */
  method SetIdThenFeedPathOfTestChannel() returns (c: Channel)
    ensures c.serviceId == 0 && c.name == "Torsten Heinrich"
    ensures c.url == "https://www.youtube.com/channel/" + TEST_CHANNEL_ID + "/"
    ensures c.channelId == "UC9kZ6FlOQfusBV8LS2x2fAA" && c.feed == None
    ensures c.feedPath == "data/UC9kZ6FlOQfusBV8LS2x2fAA"
  {
    assert DATA_DIR + TEST_CHANNEL_ID == "data/UC9kZ6FlOQfusBV8LS2x2fAA";
    c := SetIdThenFeedPath(0, TEST_CHANNEL_ID, "Torsten Heinrich");
  }

  /** `set_id` does not recompute the feed path: computed first, the path
      stays DATA_DIR alone after the id is set. */
  method SetIdAfterFeedPath(serviceId: U16, id: string, name: string) returns (c: Channel)
    requires '/' !in id
    ensures c.channelId == id && c.feedPath == DATA_DIR
    ensures c.Valid()
  {
    ParseIdChannelUrl(id, "");
    assert "https://www.youtube.com/channel/" + id + "/" + "" == "https://www.youtube.com/channel/" + id + "/";
    c := new Channel(serviceId, "https://www.youtube.com/channel/" + id + "/", name);
    c.SetFeedPath();
    var r := c.SetId();
  }

  /** Computing the feed path before the id is set is not refused: it
      yields DATA_DIR alone. */
  method FeedPathBeforeId(serviceId: U16, url: string, name: string) returns (c: Channel)
    ensures c.channelId == "" && c.feedPath == DATA_DIR
    ensures c.Valid()
  {
    c := new Channel(serviceId, url, name);
    c.SetFeedPath();
  }
}
