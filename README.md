# routube channel model

A Dafny model of the `Channel` record in `src/lib.rs` and the operations
that fill in its derived fields. A channel is built from a service id, a
channel URL and a display name. Its channel id is extracted from the URL:
it is the text after the first `/channel/`, up to the next `/` or the end
of the URL. The feed path is `data/` followed by that id. The feed URL is
the YouTube feed endpoint followed by the same id.

- `wrappers.dfy`, module `Wrappers`: `Option`, `Result` and the error values.
  These are Rust's `Option` and `anyhow::Result`.
- `str_search.dfy`, module `StrSearch`: the model of `str::find`. It returns
  the index of the first occurrence of a pattern. The model counts chars
  where Rust counts bytes, so the indices differ on non-ASCII text. The
  patterns searched for here (`"/channel/"` and `'/'`) are ASCII, and a
  match of an ASCII pattern starts and ends on a char boundary. So slicing
  at the match gives the same text either way, and that text is all that
  `parse_id` returns.
- `channel.dfy`, module `Channel`: the constants `DATA_DIR`,
  `CHANNEL_PREFIX` and `FEED_URL_PREFIX`. It also holds the pure functions
  `ParseId` (`parse_id`), `FeedUrl` (the `format!` in `pull_feed`) and
  `PullFeed`, and the class `Channel` with the constructor (`new`) and the
  methods `SetId`, `SetFeedPath` and `SetFeed`.

`parse_id` reads only `self.url`, so it is modelled as the function
`ParseId(url)`. The methods call it on their own `url`. The HTTP GET in
`pull_feed` is a parameter `get` that maps a URL to a `Response`: the body
text or a fetch failure. A fetch failure can never be taken for the parse
error.

Two behaviours of the code are easy to miss, and the model follows the code
in both:
- `set_feed_path` does not check that the channel id is set. With an empty
  id it yields `data/`. See `FeedPathBeforeId`.
- `parse_id` does not reject an empty id. See `ParseIdAcceptsEmptyId`.

The object invariant `Channel.Valid` (`Reachable`) says what every method
keeps. The channel id is empty or the id parsed from the URL. The feed path
is empty, `data/`, or `data/` followed by the current channel id. The feed
path need not be `data/` followed by the current id: `set_id` does not
recompute the path, so calling `set_feed_path` and then `set_id` leaves the
path at `data/` (see `SetIdAfterFeedPath`).

## Model

| member | source | states |
|---|---|---|
| StrSearch.FindFrom | src/lib.rs:59 | The result is the first index at or after `k` where the pattern occurs. It is None exactly when there is no occurrence from `k` on. |
| StrSearch.Find | src/lib.rs:59 | `find` gives the first occurrence of the pattern, or None exactly when the string does not contain it. |
| StrSearch.OccursAtChar | src/lib.rs:65 | A one-character pattern occurs exactly where that character stands, so `find('/')` is a search for `"/"`. |
| Channel.TakeSegment | src/lib.rs:65-69 | The slice taken after `find('/')` is the leading segment of the rest. It has no `/` and ends at a `/` or at the end of the string. |
| Channel.ParseId | src/lib.rs:54-70 | Fails with the parse error exactly when the URL has no `/channel/`. Otherwise the id is the leading segment after the first `/channel/`. It contains no `/` and may be empty. |
| Channel.ParseIdFromSegment | src/lib.rs:59-69 | The converse: the leading segment after the first marker is exactly what `parse_id` returns, so the result is fully determined. |
| Channel.ParseIdIgnoresLaterSegments | src/lib.rs:65-66 | Appending `/` and anything after it to a parsable URL does not change the id. A trailing slash is excluded. |
| Channel.ParseIdChannelUrl | src/lib.rs:104-124 | `https://www.youtube.com/channel/<id>` and the same URL with a trailing slash both yield `<id>`, for every id without `/`. These are the `without_slash` and `with_slash` tests, generalised. |
| Channel.ParseIdWithoutSlash | src/lib.rs:104-113 | The `without_slash` test: `https://www.youtube.com/channel/U8ecCwsd92` yields `U8ecCwsd92`. |
| Channel.ParseIdWithSlash | src/lib.rs:115-124 | The `with_slash` test: `https://www.youtube.com/channel/U8ecCwsd92/` yields `U8ecCwsd92`, without the trailing slash. |
| Channel.MarkerFirstInChannelUrl | src/lib.rs:59-60 | In a `https://www.youtube.com/channel/` URL the first marker is at index 23, just after the host. |
| Channel.ParseIdAcceptsEmptyId | src/lib.rs:65-69 | For any URL whose first marker ends the URL, or is followed directly by `/`, the id is empty. It is not rejected. |
| Channel.FeedUrl | src/lib.rs:78-81 | The feed URL is the feed endpoint followed by the leading segment after the first marker. It fails with the parse error exactly when the marker is missing. |
| Channel.PullFeed | src/lib.rs:77-86 | The result is the parse error exactly when the URL has no marker, whatever the network would answer. Otherwise it is the body the GET of the endpoint followed by the parsed id answers, or that GET's failure. |
| Channel.Channel.constructor | src/lib.rs:39-48 | Stores service id, URL and name as given. Channel id and feed path are empty and the feed is None. |
| Channel.Channel.SetFeedPath | src/lib.rs:50-52 | The feed path becomes `data/` followed by the current channel id, which may be empty. A second call changes nothing and no other field changes. |
| Channel.Channel.SetId | src/lib.rs:72-75 | Succeeds exactly when the URL holds `/channel/`, and then the channel id is `parse_id`'s result. On failure the parse error is returned and the id is unchanged. No other field changes. |
| Channel.Channel.SetFeed | src/lib.rs:88-92 | On success the feed is the pulled text. On failure the error of the pull is returned and the feed is unchanged. It fails with the parse error exactly when the URL has no marker. |
| Channel.SetIdThenFeedPath | src/lib.rs:72-75 | `new`, `set_id` (72-75) and `set_feed_path` (50-52) in that order on `https://www.youtube.com/channel/<id>/` give the id `<id>` and the path `data/<id>`. The service id and name are kept as given and the feed is still None. |
| Channel.SetIdThenFeedPathOfTestChannel | src/lib.rs:129-131 | The same sequence on the `set_feed` test's channel gives the id `UC9kZ6FlOQfusBV8LS2x2fAA` and the path `data/UC9kZ6FlOQfusBV8LS2x2fAA`. That channel has service id 0, URL `https://www.youtube.com/channel/UC9kZ6FlOQfusBV8LS2x2fAA/` and name `Torsten Heinrich`. |
| Channel.SetIdAfterFeedPath | src/lib.rs:50-52 | `set_feed_path` (50-52) and then `set_id` (72-75) set the id but leave the path at `data/`, because `set_id` does not recompute the path. |
| Channel.FeedPathBeforeId | src/lib.rs:50-52 | Computing the path on a fresh channel is not refused and yields `data/`. |

## Left out

- `read_json` (`src/lib.rs:5-8`): it only reads a file from the filesystem.
- The HTTP GET and the decoding of its body (`src/lib.rs:83`): this is
  network I/O in a library. It is the parameter `get` of `PullFeed` and
  `SetFeed`.
- `write_feed_to_file` (`src/lib.rs:94-96`): its body is `todo!()`, so it
  has no behaviour to model.
- `PipePipe` and the serde derives (`src/lib.rs:16-35`): JSON handling is
  done by a library.
- The `set_feed` test (`src/lib.rs:126-138`) checks that the feed is filled
  in after a live network pull, which is not modelled. Its only offline
  check, that a new channel has no feed, is the constructor's postcondition.
- `src/main.rs`: the entry point builds one fixed channel and prints what it
  pulls. It has no logic of its own.
- `StrSearch.Find` returns a char index where `str::find` returns a byte
  index; the slices `parse_id` returns are the same, because both patterns
  are ASCII and a match of one starts and ends on a char boundary.
- The text of the `anyhow` error message is not modelled. The parse
  failure is the value `ChannelIdNotFound`.
