/** The feed scraper (package internal/feeds): one scrape of one feed applied
    to the store, and one tick of the scraping loop, run sequentially.

    Everything the scraper asks of the outside world is a parameter: the
    fetched and decoded document (None when fetching or decoding failed), the
    clock reading, the UUIDs drawn for the items (None when drawing failed),
    `time.Parse` with the RFC1123Z layout ("Mon, 02 Jan 2006 15:04:05 -0700"),
    and what the database answers to each write. */
module Feeds {
  import opened Wrappers

  /** A `time.Time` instant, taken as it comes; nothing here does calendar
      arithmetic. */
  type Time = int

  /** The RSS 2.0 document as `xml.Unmarshal` fills it in. */
  datatype RSSItem = RSSItem(title: string, link: string, description: string, pubDate: string)
  datatype Channel = Channel(title: string, link: string, description: string, language: string,
                             item: seq<RSSItem>)
  datatype RSSFeed = RSSFeed(channel: Channel)

  /** A row of the feeds table, with the columns the scraper reads. Its
      last_fetched_at column is kept by the store (Store.lastFetched). */
  datatype Feed = Feed(id: Uuid, url: string)

  /** The arguments of one `CreatePost` call. */
  datatype Post = Post(id: Uuid, createdAt: Time, updatedAt: Time, title: string, url: string,
                       description: string, publishedAt: Time, feedId: Uuid)

  /** An error answered by the database. */
  datatype DbError = DbError(message: string)

  /** A write the scraper issues to the store. A `lastFetchedAt` of None is
      SQL NULL (`sql.NullTime` with `Valid: false`). */
  datatype Call =
    | MarkFetchedCall(feedId: Uuid, updatedAt: Time, lastFetchedAt: Option<Time>)
    | CreatePostCall(post: Post)

  /** How a scrape ends: normally, or in the nil-pointer panic of reading the
      items of a document that was never fetched. */
  datatype ScrapeOutcome = Finished | Panicked

  // ---------------------------------------------------------------------
  // The item loop as a specification

  /** An item reaches `CreatePost` when its UUID was drawn and its pubDate
      parses. */
  predicate Survives(item: RSSItem, uuid: Option<Uuid>, parse: string -> Option<Time>)
  {
    uuid.Some? && parse(item.pubDate).Some?
  }

  /** The post built from a surviving item. */
  function NewPost(feedId: Uuid, item: RSSItem, id: Uuid, publishedAt: Time, now: Time): Post
  {
    Post(id, now, now, item.title, item.link, item.description, publishedAt, feedId)
  }

  /** The `CreatePost` arguments produced by the first n items, in order. */
  function PostsUpTo(feedId: Uuid, items: seq<RSSItem>, uuids: seq<Option<Uuid>>,
                     parse: string -> Option<Time>, now: Time, n: nat): (posts: seq<Post>)
    requires n <= |items| && n <= |uuids|
    ensures |posts| <= n
    ensures forall j | 0 <= j < |posts| :: posts[j].feedId == feedId
  {
    if n == 0 then
      []
    else
      var item, uuid := items[n - 1], uuids[n - 1];
      PostsUpTo(feedId, items, uuids, parse, now, n - 1) +
      (if Survives(item, uuid, parse)
       then [NewPost(feedId, item, uuid.value, parse(item.pubDate).value, now)]
       else [])
  }

  /** The positions, among the first n items, of those that survive. */
  function Origins(items: seq<RSSItem>, uuids: seq<Option<Uuid>>,
                   parse: string -> Option<Time>, n: nat): (o: seq<nat>)
    requires n <= |items| && n <= |uuids|
    ensures forall j | 0 <= j < |o| :: o[j] < n && Survives(items[o[j]], uuids[o[j]], parse)
    ensures forall j, k | 0 <= j < k < |o| :: o[j] < o[k]
    ensures forall i | 0 <= i < n && Survives(items[i], uuids[i], parse) :: i in o
  {
    if n == 0 then
      []
    else
      Origins(items, uuids, parse, n - 1) + (if Survives(items[n - 1], uuids[n - 1], parse) then [n - 1] else [])
  }

  /** The j-th post comes from the j-th surviving item, in document order,
      and copies its title, link and description, the drawn UUID and the
      parsed date; items that do not survive produce nothing. */
  lemma {:induction false} PostsFollowOrigins(feedId: Uuid, items: seq<RSSItem>, uuids: seq<Option<Uuid>>,
                                              parse: string -> Option<Time>, now: Time, n: nat)
    requires n <= |items| && n <= |uuids|
    ensures var posts, o := PostsUpTo(feedId, items, uuids, parse, now, n), Origins(items, uuids, parse, n);
            |posts| == |o| &&
            forall j | 0 <= j < |o| ::
              posts[j] == Post(uuids[o[j]].value, now, now, items[o[j]].title, items[o[j]].link,
                               items[o[j]].description, parse(items[o[j]].pubDate).value, feedId)
  {
    if n > 0 {
      PostsFollowOrigins(feedId, items, uuids, parse, now, n - 1);
    }
  }

  // ---------------------------------------------------------------------
  // Call logs

  /** One `CreatePost` call per post, in order. */
  function CreateCalls(posts: seq<Post>): (calls: seq<Call>)
  {
    if posts == [] then [] else CreateCalls(posts[..|posts| - 1]) + [CreatePostCall(posts[|posts| - 1])]
  }

  /** The feeds marked fetched, in call order. */
  function Marks(calls: seq<Call>): seq<Uuid>
  {
    if calls == [] then []
    else Marks(calls[..|calls| - 1]) +
         (match calls[|calls| - 1]
          case MarkFetchedCall(id, _, _) => [id]
          case CreatePostCall(_) => [])
  }

  /** The posts handed to `CreatePost`, in call order. */
  function Created(calls: seq<Call>): seq<Post>
  {
    if calls == [] then []
    else Created(calls[..|calls| - 1]) +
         (match calls[|calls| - 1]
          case MarkFetchedCall(_, _, _) => []
          case CreatePostCall(p) => [p])
  }

  lemma {:induction false} LogsAppend(a: seq<Call>, b: seq<Call>)
    ensures Marks(a + b) == Marks(a) + Marks(b)
    ensures Created(a + b) == Created(a) + Created(b)
  {
    if b == [] {
      assert a + b == a;
    } else {
      var init, last := b[..|b| - 1], b[|b| - 1];
      assert (a + b)[..|a + b| - 1] == a + init;
      assert (a + b)[|a + b| - 1] == last;
      LogsAppend(a, init);
    }
  }

  lemma {:induction false} CreateCallsLog(posts: seq<Post>)
    ensures |CreateCalls(posts)| == |posts|
    ensures Marks(CreateCalls(posts)) == []
    ensures Created(CreateCalls(posts)) == posts
  {
    if posts != [] {
      var init := posts[..|posts| - 1];
      CreateCallsLog(init);
      LogsAppend(CreateCalls(init), [CreatePostCall(posts[|posts| - 1])]);
    }
  }

  lemma CreateCallsSnoc(posts: seq<Post>, post: Post)
    ensures CreateCalls(posts + [post]) == CreateCalls(posts) + [CreatePostCall(post)]
  {
    assert (posts + [post])[..|posts|] == posts;
  }

  /** The writes of one scrape: the mark, then (when the document arrived)
      one `CreatePost` per surviving item. */
  function ScrapeCalls(feed: Feed, fetched: Option<RSSFeed>, now: Time, uuids: seq<Option<Uuid>>,
                       parse: string -> Option<Time>): seq<Call>
    requires fetched.Some? ==> |uuids| == |fetched.value.channel.item|
  {
    [MarkFetchedCall(feed.id, now, Some(now))] +
    match fetched
    case None => []
    case Some(doc) =>
      CreateCalls(PostsUpTo(feed.id, doc.channel.item, uuids, parse, now, |doc.channel.item|))
  }

  /** A scrape marks its feed exactly once, as its first write, with a
      non-null last_fetched_at; after it come the posts of the surviving
      items and nothing else. */
  lemma MarkOnceThenPosts(feed: Feed, fetched: Option<RSSFeed>, now: Time, uuids: seq<Option<Uuid>>,
                          parse: string -> Option<Time>)
    requires fetched.Some? ==> |uuids| == |fetched.value.channel.item|
    ensures var calls := ScrapeCalls(feed, fetched, now, uuids, parse);
            calls[0] == MarkFetchedCall(feed.id, now, Some(now)) &&
            Marks(calls) == [feed.id] &&
            Created(calls) == match fetched
                              case None => []
                              case Some(doc) =>
                                PostsUpTo(feed.id, doc.channel.item, uuids, parse, now, |doc.channel.item|)
  {
    var mark := [MarkFetchedCall(feed.id, now, Some(now))];
    assert Marks(mark) == [feed.id] && Created(mark) == [] by {
      assert mark[..0] == [];
    }
    match fetched
    case None =>
      assert ScrapeCalls(feed, fetched, now, uuids, parse) == mark;
    case Some(doc) =>
      var posts := PostsUpTo(feed.id, doc.channel.item, uuids, parse, now, |doc.channel.item|);
      CreateCallsLog(posts);
      LogsAppend(mark, CreateCalls(posts));
  }

  // ---------------------------------------------------------------------
  // One tick

  /** Everything the outside world contributes to one feed's scrape. */
  datatype FeedRun = FeedRun(fetched: Option<RSSFeed>, now: Time, markAnswer: Option<DbError>,
                             uuids: seq<Option<Uuid>>, insertAnswers: seq<Option<DbError>>)

  /** One UUID draw and one insert answer per item of the fetched document. */
  predicate Fits(run: FeedRun)
  {
    run.fetched.Some? ==>
      |run.uuids| == |run.fetched.value.channel.item| &&
      |run.insertAnswers| == |run.fetched.value.channel.item|
  }

  /** The feeds a tick works on: the selected rows, or none when the
      selection failed (the query then returns a nil slice). */
  function Batch(selection: Result<seq<Feed>, DbError>): (batch: seq<Feed>)
    ensures selection.Success? ==> batch == selection.value
    ensures selection.Failure? ==> batch == []
  {
    match selection
    case Success(feeds) => feeds
    case Failure(_) => []
  }

  /** How many feeds of the batch get scraped: all of them, unless one
      panics, which ends the process after that feed was marked. */
  function Applied(runs: seq<FeedRun>): (k: nat)
    ensures k <= |runs|
    ensures forall i | 0 <= i < k - 1 :: runs[i].fetched.Some?
    ensures k < |runs| ==> 0 < k && runs[k - 1].fetched.None?
    ensures (forall i | 0 <= i < |runs| :: runs[i].fetched.Some?) ==> k == |runs|
  {
    if runs == [] then 0
    else if runs[0].fetched.None? then 1
    else 1 + Applied(runs[1..])
  }

  /** The writes of the first n scrapes of a tick, one scrape after the
      other. */
  function TickCalls(batch: seq<Feed>, runs: seq<FeedRun>, parse: string -> Option<Time>, n: nat): seq<Call>
    requires n <= |batch| && n <= |runs|
    requires forall i | 0 <= i < |runs| :: Fits(runs[i])
  {
    if n == 0 then []
    else
      var run := runs[n - 1];
      TickCalls(batch, runs, parse, n - 1) + ScrapeCalls(batch[n - 1], run.fetched, run.now, run.uuids, parse)
  }

  /** The timestamp map after a successful or failed mark of feed `id`. */
  function Stamp(m: map<Uuid, Time>, id: Uuid, now: Time, answer: Option<DbError>): map<Uuid, Time>
  {
    if answer.None? then m[id := now] else m
  }

  /** The timestamp map after the marks of the first n scrapes. */
  function StampAll(m: map<Uuid, Time>, batch: seq<Feed>, runs: seq<FeedRun>, n: nat): map<Uuid, Time>
    requires n <= |batch| && n <= |runs|
  {
    if n == 0 then m
    else Stamp(StampAll(m, batch, runs, n - 1), batch[n - 1].id, runs[n - 1].now, runs[n - 1].markAnswer)
  }

  function Ids(feeds: seq<Feed>): seq<Uuid>
  {
    seq(|feeds|, i requires 0 <= i < |feeds| => feeds[i].id)
  }

  /** Each scraped feed of a tick is marked exactly once, in batch order. */
  lemma {:induction false} TickMarksEachFeedOnce(batch: seq<Feed>, runs: seq<FeedRun>,
                                                 parse: string -> Option<Time>, n: nat)
    requires n <= |batch| && n <= |runs|
    requires forall i | 0 <= i < |runs| :: Fits(runs[i])
    ensures Marks(TickCalls(batch, runs, parse, n)) == Ids(batch[..n])
  {
    if n > 0 {
      var run := runs[n - 1];
      assert Fits(run);
      var earlier := TickCalls(batch, runs, parse, n - 1);
      var latest := ScrapeCalls(batch[n - 1], run.fetched, run.now, run.uuids, parse);
      assert TickCalls(batch, runs, parse, n) == earlier + latest;
      TickMarksEachFeedOnce(batch, runs, parse, n - 1);
      MarkOnceThenPosts(batch[n - 1], run.fetched, run.now, run.uuids, parse);
      LogsAppend(earlier, latest);
      IdsSnoc(batch, n);
    }
  }

  lemma IdsSnoc(batch: seq<Feed>, n: nat)
    requires 0 < n <= |batch|
    ensures Ids(batch[..n]) == Ids(batch[..n - 1]) + [batch[n - 1].id]
  {
    assert batch[..n] == batch[..n - 1] + [batch[n - 1]];
  }

  /** A feed outside the first n of the batch keeps its timestamp (or its
      NULL). */
  lemma {:induction false} StampAllUntouched(m: map<Uuid, Time>, batch: seq<Feed>, runs: seq<FeedRun>,
                                             n: nat, id: Uuid)
    requires n <= |batch| && n <= |runs|
    requires forall i | 0 <= i < n :: batch[i].id != id
    ensures id in StampAll(m, batch, runs, n) <==> id in m
    ensures id in m ==> StampAll(m, batch, runs, n)[id] == m[id]
  {
    if n > 0 {
      StampAllUntouched(m, batch, runs, n - 1, id);
    }
  }

  /** A feed whose mark succeeded, and which is not selected again later in
      the batch, ends the tick with the time its own scrape read. */
  lemma {:induction false} StampAllMarks(m: map<Uuid, Time>, batch: seq<Feed>, runs: seq<FeedRun>,
                                         n: nat, i: nat)
    requires n <= |batch| && n <= |runs| && i < n
    requires runs[i].markAnswer.None?
    requires forall j | i < j < n :: batch[j].id != batch[i].id
    ensures batch[i].id in StampAll(m, batch, runs, n)
    ensures StampAll(m, batch, runs, n)[batch[i].id] == runs[i].now
  {
    if n - 1 > i {
      StampAllMarks(m, batch, runs, n - 1, i);
    }
  }

  // ---------------------------------------------------------------------
  // The store

  /** The feeds and posts tables as the scraper sees them: the
      last_fetched_at and updated_at columns of the feeds (a missing key is
      NULL), and the log of every write the store received. */
  class Store {
    var lastFetched: map<Uuid, Time>
    var updatedAt: map<Uuid, Time>
    ghost var calls: seq<Call>

    constructor (lastFetched: map<Uuid, Time>, updatedAt: map<Uuid, Time>)
      ensures this.lastFetched == lastFetched && this.updatedAt == updatedAt
      ensures calls == []
    {
      this.lastFetched := lastFetched;
      this.updatedAt := updatedAt;
      calls := [];
    }

    /** UPDATE feeds SET updated_at, last_fetched_at WHERE id; `answer` is
        what the database replies. A failed update changes nothing. */
    method MarkFeedFetched(id: Uuid, updatedAt: Time, lastFetchedAt: Option<Time>, answer: Option<DbError>)
      returns (err: Option<DbError>)
      modifies this
      ensures err == answer
      ensures calls == old(calls) + [MarkFetchedCall(id, updatedAt, lastFetchedAt)]
      ensures this.updatedAt == if answer.Some? then old(this.updatedAt) else old(this.updatedAt)[id := updatedAt]
      ensures lastFetched == if answer.Some? then old(lastFetched)
                             else match lastFetchedAt
                                  case Some(t) => old(lastFetched)[id := t]
                                  case None => old(lastFetched) - {id}
    {
      calls := calls + [MarkFetchedCall(id, updatedAt, lastFetchedAt)];
      err := answer;
      if answer.None? {
        this.updatedAt := this.updatedAt[id := updatedAt];
        lastFetched := match lastFetchedAt
                       case Some(t) => lastFetched[id := t]
                       case None => lastFetched - {id};
      }
    }

    /** INSERT INTO posts; `answer` is what the database replies (for
        instance a duplicate URL). The feeds columns do not change. */
    method CreatePost(post: Post, answer: Option<DbError>) returns (err: Option<DbError>)
      modifies this
      ensures err == answer
      ensures calls == old(calls) + [CreatePostCall(post)]
      ensures lastFetched == old(lastFetched) && updatedAt == old(updatedAt)
    {
      calls := calls + [CreatePostCall(post)];
      err := answer;
    }

    /** scrapeFeed: mark the feed fetched whatever the fetch gave, then build
        and insert one post per item whose UUID and date are available. No
        error stops it; a missing document makes it panic after the mark. */
    method ScrapeFeed(feed: Feed, fetched: Option<RSSFeed>, now: Time, markAnswer: Option<DbError>,
                      uuids: seq<Option<Uuid>>, parse: string -> Option<Time>,
                      insertAnswers: seq<Option<DbError>>)
      returns (outcome: ScrapeOutcome)
      requires Fits(FeedRun(fetched, now, markAnswer, uuids, insertAnswers))
      modifies this
      ensures outcome == if fetched.Some? then Finished else Panicked
      ensures calls == old(calls) + ScrapeCalls(feed, fetched, now, uuids, parse)
      ensures lastFetched == Stamp(old(lastFetched), feed.id, now, markAnswer)
      ensures updatedAt == Stamp(old(updatedAt), feed.id, now, markAnswer)
    {
      // the fetch error, if any, is only logged
      var markErr := MarkFeedFetched(feed.id, now, Some(now), markAnswer);
      // the mark error, if any, is only logged
      if fetched.None? {
        // feedData is nil: ranging over feedData.Channel.Item panics
        return Panicked;
      }
      var items := fetched.value.channel.item;
      ghost var marked := old(calls) + [MarkFetchedCall(feed.id, now, Some(now))];
      for i := 0 to |items|
        invariant calls == marked + CreateCalls(PostsUpTo(feed.id, items, uuids, parse, now, i))
        invariant lastFetched == Stamp(old(lastFetched), feed.id, now, markAnswer)
        invariant updatedAt == Stamp(old(updatedAt), feed.id, now, markAnswer)
      {
        var item := items[i];
        ghost var before := PostsUpTo(feed.id, items, uuids, parse, now, i);
        var newUuid := uuids[i];
        if newUuid.None? {
          assert PostsUpTo(feed.id, items, uuids, parse, now, i + 1) == before;
          continue;
        }
        var pubDate := parse(item.pubDate);
        if pubDate.None? {
          assert PostsUpTo(feed.id, items, uuids, parse, now, i + 1) == before;
          continue;
        }
        var post := Post(newUuid.value, now, now, item.title, item.link, item.description, pubDate.value, feed.id);
        assert PostsUpTo(feed.id, items, uuids, parse, now, i + 1) == before + [post];
        CreateCallsSnoc(before, post);
        // the insert's result is discarded
        var _ := CreatePost(post, insertAnswers[i]);
      }
      outcome := Finished;
    }

    /** One tick of StartScraping: select the batch (a failed selection
        leaves it empty), then scrape each feed of it once, in order. A
        panicking scrape ends the process, so the feeds after it are not
        scraped. */
    method Tick(selection: Result<seq<Feed>, DbError>, runs: seq<FeedRun>, parse: string -> Option<Time>)
      returns (crashed: bool)
      requires |runs| == |Batch(selection)|
      requires forall i | 0 <= i < |runs| :: Fits(runs[i])
      modifies this
      ensures crashed <==> exists i | 0 <= i < |runs| :: runs[i].fetched.None?
      ensures selection.Failure? ==> calls == old(calls) && lastFetched == old(lastFetched)
      ensures calls == old(calls) + TickCalls(Batch(selection), runs, parse, Applied(runs))
      ensures lastFetched == StampAll(old(lastFetched), Batch(selection), runs, Applied(runs))
      ensures updatedAt == StampAll(old(updatedAt), Batch(selection), runs, Applied(runs))
    {
      // a selection error is only logged
      var batch := Batch(selection);
      var i := 0;
      crashed := false;
      while i < |batch| && !crashed
        invariant 0 <= i <= |batch|
        invariant forall j | 0 <= j < i - 1 :: runs[j].fetched.Some?
        invariant crashed <==> 0 < i && runs[i - 1].fetched.None?
        invariant calls == old(calls) + TickCalls(batch, runs, parse, i)
        invariant lastFetched == StampAll(old(lastFetched), batch, runs, i)
        invariant updatedAt == StampAll(old(updatedAt), batch, runs, i)
      {
        var run := runs[i];
        assert Fits(run);
        var outcome := ScrapeFeed(batch[i], run.fetched, run.now, run.markAnswer, run.uuids, parse,
                                  run.insertAnswers);
        crashed := outcome == Panicked;
        i := i + 1;
      }
      AppliedIs(runs, i);
      assert selection.Failure? ==> i == 0;
    }
  }

  /** The count of scraped feeds is the only one that fits the stopping
      rule. */
  lemma AppliedIs(runs: seq<FeedRun>, k: nat)
    requires k <= |runs|
    requires forall j | 0 <= j < k - 1 :: runs[j].fetched.Some?
    requires k < |runs| ==> 0 < k && runs[k - 1].fetched.None?
    ensures Applied(runs) == k
  {
  }
}
