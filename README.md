# blog-agg core in Dafny

A model of two parts of the blog-agg feed aggregator:

- **API-key authentication.** `GetAuthHeader` takes the key out of the
  `Authorization` header value. The same code appears twice, in
  `internal/auth` and in `internal/server`. `GetAuthUser` looks up the user
  owning that key. `authedHandler.ServeHTTP` runs a handler only for an
  authenticated user. These are pure functions over byte strings (modules
  `Auth` and `ServerAuth`). The user lookup and the wrapped handler are
  function parameters.
- **The feed scraper.** `scrapeFeed` marks one feed fetched and inserts one
  post per usable item of its RSS document. One tick of `StartScraping`
  scrapes every feed of the selected batch. Both are methods of the class
  `Feeds.Store`. The store keeps the `last_fetched_at` and `updated_at`
  columns of the feeds table as maps, plus a ghost log of every write it
  received. Outside inputs are parameters: the fetched document, the clock
  reading, the UUID draws, `time.Parse` with layout RFC1123Z, and the
  database's answer to each write.

Where the code does not do what the scraper is meant to do, the model follows the code:

- **Fetch failure.** A feed whose fetch fails is meant to be marked fetched
  and its scrape to finish normally. In the code, the
  feed is marked, but the loop at internal/feeds/feeds.go:90 then reads the
  items of a nil `*RSSFeed`, which panics. The model marks the feed and then
  ends the scrape with `Panicked`, creating no posts. A panic in a goroutine
  ends the process, so the modelled tick stops after that feed.
- **Selection failure.** A failed batch selection is meant to skip the tick.
  The code logs the error and then loops over whatever slice the query
  returned. The query code is not part of this model; the model assumes
  that it returns a nil slice with its error. Under that assumption the
  effect is the same: no writes happen.
- **Duplicate posts.** The store is expected to reject duplicate entries. The scraper never checks for them. The model records the
  `CreatePost` calls issued and leaves what the database does with them to
  the database.

## Model

| member | source | states |
|---|---|---|
| `Auth.GetAuthHeader` | internal/auth/auth.go:9-19 | "malformed" exactly when the header is shorter than the scheme name plus one byte. "<keyName> not found" exactly when it is long enough but its first bytes differ from the scheme name; the comparison is byte for byte. Otherwise it succeeds, and the header is the scheme name, one byte and the returned key, which is `len(header)-len(keyName)-1` long |
| `Auth.RoundTrip` | internal/auth/auth.go:11-18 | for any scheme name, any byte and any key, including the empty key, the header scheme+byte+key gives back exactly that key |
| `Auth.SuccessIff` | internal/auth/auth.go:11-18 | success with key k happens if and only if the header is the scheme name, one byte and k |
| `Auth.SeparatorNotInspected` | internal/auth/auth.go:14-18 | replacing the byte after the scheme name with any other byte does not change the result |
| `Auth.ShortPrefixIsMalformed` | internal/auth/auth.go:11-13 | a missing (empty) header, or one that is a prefix of the scheme name, is "malformed" and never "not found" |
| `Auth.SchemeIsCaseSensitive` | internal/auth/auth.go:14-16 | "apikey x" names the scheme "ApiKey" under the case-insensitive rule of section 11.1 of RFC 9110, yet it is rejected with "ApiKey not found" |
| `Auth.SeparatorExample` | internal/auth/auth.go:14-18 | "ApiKeyXabc" yields the key "abc" |
| `ServerAuth.GetAuthHeader` | internal/server/auth.go:29-39 | the server package's copy returns the same result as the auth package's for every header and scheme name |
| `ServerAuth.ErrorText` | internal/server/auth.go:17 | the text `err.Error()` gives: "not found" names the requested scheme followed by " not found in authorization header" (internal/auth/auth.go:15, internal/server/auth.go:35); a lookup error's text is the driver's own, unchanged; header errors never give an empty text ("malformed authorization header", internal/auth/auth.go:12, internal/server/auth.go:32) |
| `ServerAuth.GetAuthUser` | internal/server/auth.go:41-52 | every error comes with the zero user. There is no error exactly when the header holds an "ApiKey" key and the lookup of that key succeeds, and then the user is the one the lookup found for that key |
| `ServerAuth.HeaderErrorSkipsLookup` | internal/server/auth.go:42-45 | a header error is returned unchanged with the zero user, and the result is the same whatever the lookup does (no lookup is made) |
| `ServerAuth.LookupSeesOnlyTheKey` | internal/server/auth.go:46-51 | the result depends on the lookup only through its answer for the extracted key |
| `ServerAuth.WellFormedHeader` | internal/server/auth.go:41-52 | for "ApiKey"+byte+key, a lookup error comes back unchanged with the zero user, and a found user comes back with no error |
| `ServerAuth.ServeHTTP` | internal/server/auth.go:14-21 | it answers with an error exactly when GetAuthUser fails, and that answer has status 400 and the error's text. Otherwise the response is the handler's result for the authenticated user |
| `ServerAuth.RejectedWithoutHandler` | internal/server/auth.go:15-19 | when authentication fails, the response is 400 with the error's text and does not depend on the handler (the handler is not run) |
| `ServerAuth.ServeHTTPEndToEnd` | internal/server/auth.go:14-52 | a well-formed header whose key is found runs the handler once, with that user. A request without the header gets 400 "malformed authorization header" |
| `Feeds.PostsUpTo` | internal/feeds/feeds.go:90-111 | the first n items give at most n `CreatePost` calls, each carrying the scraped feed's ID |
| `Feeds.Origins` | internal/feeds/feeds.go:90-99 | the positions of the items that get through are increasing and each gets through. Every item whose UUID draw succeeds and whose pubDate parses is among them, so a skipped item does not stop later ones |
| `Feeds.PostsFollowOrigins` | internal/feeds/feeds.go:90-111 | the j-th `CreatePost` comes from the j-th item that gets through, in document order. It takes that item's title, its link as URL and its description, the drawn UUID, the parsed date as published-at, and the feed's ID |
| `Feeds.MarkOnceThenPosts` | internal/feeds/feeds.go:81-111 | a scrape's first write marks its feed, with a non-null last_fetched_at. It is the only mark, so it comes before every `CreatePost`. The posts that follow are exactly those of the surviving items, or none when the document is missing |
| `Feeds.Store.MarkFeedFetched` | internal/feeds/feeds.go:81-89 | logs the call and returns the database's answer. On success it sets updated_at and last_fetched_at for that feed ID only |
| `Feeds.Store.CreatePost` | internal/feeds/feeds.go:101-111 | logs the call, returns the database's answer and leaves the feed columns unchanged |
| `Feeds.Store.ScrapeFeed` | internal/feeds/feeds.go:75-113 | the writes are exactly the scrape's calls (mark, then the posts), whatever the mark and the inserts answer. Only the scraped feed's timestamps change, and only if the mark succeeds. It panics exactly when there is no document |
| `Feeds.Batch` | internal/feeds/feeds.go:60-65 | the batch is the selected feeds when the selection succeeds, and empty when it fails. The empty case assumes the query returns a nil slice with its error |
| `Feeds.Applied` | internal/feeds/feeds.go:64-71 | the number of feeds scraped in a tick: all of them when no fetch fails, otherwise up to and including the first feed whose fetch failed |
| `Feeds.Store.Tick` | internal/feeds/feeds.go:55-73 | writes the scrapes of the batch one after another for the feeds that get scraped, and stamps their timestamps. It reports a crash exactly when some fetch failed. A failed selection writes nothing |
| `Feeds.TickMarksEachFeedOnce` | internal/feeds/feeds.go:65-69 | the marks of a tick name the scraped feeds in batch order, each once |
| `Feeds.StampAllUntouched` | internal/feeds/feeds.go:81-86 | a feed that is not scraped keeps its last_fetched_at, whether NULL or a time |
| `Feeds.StampAllMarks` | internal/feeds/feeds.go:81-86 | a scraped feed whose mark succeeded ends the tick with the time its own scrape read, unless a later scrape in the same batch names the same feed |

## Left out

- `fetchFeed` (HTTP GET, reading the body, XML decoding) is an input: the decoded document, or None for any failure.
- The ticker, the endless loop, the goroutines and the `WaitGroup` are not modelled. One tick is a sequential loop over the batch. With real concurrency, the writes of different feeds interleave in no fixed order. A panicking goroutine ends the process at a moment the model does not fix.
- Feeds.Store.Tick: scrapes feeds one after another and stops at the first panic. It does not capture that, when one goroutine panics, other goroutines may already have written part of their work.
- Feeds.Batch: assumes a failed `GetNextFeedsToFetch` returns no rows; the generated query code that would confirm this is not part of this model.
- The choice of the batch (`GetNextFeedsToFetch`, its SQL ordering and its `amount` limit) is not part of this model. The batch is an input.
- `time.Now` is read once per scrape. The source reads it separately for updated_at, last_fetched_at and each post's timestamps. That last_fetched_at never moves backwards therefore depends on the clock, which is an input, and is not proved.
- `uuid.NewUUID` and `time.Parse(time.RFC1123Z, …)` are inputs: one UUID draw per item, and a parse function. The RFC1123Z layout is not checked structurally, because Go's parser also accepts forms a plain shape check would reject, such as fractional seconds.
- Logging is not modelled; the model only shows which errors are ignored.
- The posts table itself (uniqueness, what a failed insert leaves) is the database's business. The model records the calls made and the answers ignored.
- `middlewareAuth` (never registered as a route), routes.go, server.go and cmd/api/main.go are HTTP plumbing and are not part of this model. `StartScraping` is never called from main.go.
- JSON encoding of the error response: the response is modelled as a status and the error's text.
- Headers are byte strings, not Unicode text. Only the columns the code reads are kept for users and feeds.
