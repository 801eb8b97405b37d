/** The feed synthesizer of `src/rss.mjs`: the module-level `feed`, seeded
    from the `rss.xml` snapshot by `initializeFeed` and grown by `handleLink`,
    which scores a shared link with the model, gates it at 7, optionally asks
    for a description from the recent conversation, appends one item and
    saves the whole feed publicly.

    The scraper's answer is an input; the `rss` library's rendering and
    `xml2js`'s parsing are the functions of an `Xml` value. */
module Rss {
  import opened Js
  import opened Prompts
  import opened BagOfTricks
  import opened Relevance

  /** The key of the persisted feed. */
  const SnapshotKey: string := "rss.xml"

  datatype Channel = Channel(title: string, description: string, feedUrl: string, siteUrl: string, language: string)

  /** The channel metadata of lines 9-15. */
  const FeedChannel: Channel := Channel(
    "Believe in Serverless",
    "Find all the cool links shared from the Believe in Serverless community",
    "https://believeinserverless.com/rss",
    "https://believeinserverless.com",
    "en")

  /** The options of one `feed.item(...)` call. */
  datatype FeedItem = FeedItem(
    title: Option<string>,
    description: Option<string>,
    url: string,
    date: string,
    author: string,
    guid: string,
    categories: seq<string>)

  datatype Feed = Feed(channel: Channel, items: seq<FeedItem>)

  /** One `<item>` as `xml2js` hands it over: the first element of each child
      (`guid` read through its `_` text), `None` where the child is missing. */
  datatype ParsedItem = ParsedItem(
    title: Option<string>,
    description: Option<string>,
    link: Option<string>,
    pubDate: Option<string>,
    creator: Option<string>,
    guid: Option<string>,
    category: Option<string>)

  /** `feed.xml()` and `parseStringPromise(...).rss.channel[0].item`; `parse`
      gives `None` when the text does not parse or the channel has no item
      list (both throw). */
  datatype Xml = Xml(serialize: Feed -> string, parse: string -> Option<seq<ParsedItem>>)

  /** The part of open-graph-scraper's `result` that is read. */
  datatype OgResult = OgResult(
    ogTitle: Option<string>,
    ogDescription: Option<string>,
    ogType: Option<string>,
    ogUrl: Option<string>,
    ogSiteName: Option<string>)

  datatype Scrape = Scraped(result: OgResult) | ScrapeRejected

  /** The fields of the Discord message that become item fields:
      `createdAt.toISOString()`, `author.tag`, `channel.name`. */
  datatype DiscordMessage = DiscordMessage(createdAtIso: string, authorTag: string, channelName: string)

  /** What `handleLink` resolves to: `true`, `false`, or `undefined` after the
      catch-all logged the exception. */
  datatype LinkResult = Published | NotRelevant | Abandoned(cause: Error)

  /** The outcomes of the calls one `handleLink` makes: the scrape, the scoring
      chat, the enrichment chat and the save. */
  datatype LinkEnv = LinkEnv(scrape: Scrape, scoring: ChatEnv, enriching: ChatEnv, saving: SaveEnv)

  // ---------------------------------------------------------------------------
  // initializeFeed

  /** Lines 21-29 for one parsed item: a missing child throws a TypeError. */
  function ItemFromParsed(p: ParsedItem): (r: Result<FeedItem>)
    ensures r.Ok? <==> p.title.Some? && p.description.Some? && p.link.Some? && p.pubDate.Some?
                       && p.creator.Some? && p.guid.Some? && p.category.Some?
    ensures r.Err? ==> r.error == TypeError
  {
    if p.title.Some? && p.description.Some? && p.link.Some? && p.pubDate.Some?
       && p.creator.Some? && p.guid.Some? && p.category.Some?
    then Ok(FeedItem(p.title, p.description, p.link.value, p.pubDate.value, p.creator.value,
                     p.guid.value, [p.category.value]))
    else Err(TypeError)
  }

  /** The items the `.map` of line 20 appended and the exception that stopped it, if any. */
  datatype Hydration = Hydration(items: seq<FeedItem>, failure: Option<Error>)

  /** The parsed items converted in order up to the first one that throws. */
  function ReadItems(ps: seq<ParsedItem>): (h: Hydration)
    ensures |h.items| <= |ps|
    ensures forall k :: 0 <= k < |h.items| ==> ItemFromParsed(ps[k]) == Ok(h.items[k])
    ensures h.failure.None? ==> |h.items| == |ps|
    ensures h.failure.Some? ==> |h.items| < |ps| && ItemFromParsed(ps[|h.items|]) == Err(h.failure.value)
    decreases |ps|
  {
    if |ps| == 0 then Hydration([], None)
    else
      var h := ReadItems(ps[..|ps| - 1]);
      assert forall k :: 0 <= k < |ps| - 1 ==> ps[..|ps| - 1][k] == ps[k];
      if h.failure.Some? then h
      else match ItemFromParsed(ps[|ps| - 1])
        case Ok(item) => Hydration(h.items + [item], None)
        case Err(e) => Hydration(h.items, Some(e))
  }

  /** The feed after `initializeFeed` and how the call ended. */
  datatype Initialized = Initialized(feed: Feed, result: Result<()>)

  /** `initializeFeed`: a fresh feed with the channel metadata; a text load of
      the snapshot (which throws out of the call when S3 fails); nothing more
      for the empty string; otherwise the parsed items in order. */
  function InitializeOn(t: Tiers, codec: Codec, xml: Xml, env: LoadEnv): Initialized
  {
    var empty := Feed(FeedChannel, []);
    match LoadFrom(t, codec, SnapshotKey, Text, env)
    case Err(e) => Initialized(empty, Err(e))
    case Ok(loaded) =>
      if loaded.text == "" then Initialized(empty, Ok(()))
      else match xml.parse(loaded.text)
        case None => Initialized(empty, Err(SyntaxError))
        case Some(ps) =>
          var h := ReadItems(ps);
          Initialized(Feed(FeedChannel, h.items), if h.failure.Some? then Err(h.failure.value) else Ok(()))
  }

  /** When the snapshot loads as `''` the feed starts empty and the call succeeds. */
  lemma InitializeWithoutSnapshot(t: Tiers, codec: Codec, xml: Xml, env: LoadEnv)
    requires LoadFrom(t, codec, SnapshotKey, Text, env) == Ok(TextValue(""))
    ensures InitializeOn(t, codec, xml, env) == Initialized(Feed(FeedChannel, []), Ok(()))
  {
  }

  /** A missing snapshot (no cache hit, no object) loads as `''`. */
  lemma MissingSnapshotLoadsEmpty(t: Tiers, codec: Codec, env: LoadEnv)
    requires SnapshotKey !in t.store && env.storeGet == Succeeded
    requires SnapshotKey !in t.cache || env.cacheGet == Errored
    ensures LoadFrom(t, codec, SnapshotKey, Text, env) == Ok(TextValue(""))
  {
  }

  /** An item that `initializeFeed` can read back unchanged but for its date. */
  predicate Complete(item: FeedItem)
  {
    item.title.Some? && item.description.Some? && |item.categories| == 1
  }

  /** The model's assumption of what `xml2js` gives for an item the `rss`
      library wrote: every field as its own child, the date as `pubDate`
      renders it, and the first category. Neither library is modelled, so
      this shape is a hypothesis, not a proved fact about them. */
  function Rendered(item: FeedItem, pubDate: string -> string): ParsedItem
  {
    ParsedItem(item.title, item.description, Some(item.url), Some(pubDate(item.date)), Some(item.author),
               Some(item.guid), if |item.categories| > 0 then Some(item.categories[0]) else None)
  }

  /** A complete item in the shape `Rendered` assumes converts back to itself
      with its rendered date. In that shape, one without a title, a
      description or a category throws; of several categories only the first
      comes back. */
  lemma ItemFromRendered(item: FeedItem, pubDate: string -> string)
    ensures Complete(item) ==> ItemFromParsed(Rendered(item, pubDate)) == Ok(item.(date := pubDate(item.date)))
    ensures ItemFromParsed(Rendered(item, pubDate)).Ok?
            <==> item.title.Some? && item.description.Some? && |item.categories| > 0
    ensures ItemFromParsed(Rendered(item, pubDate)).Ok? ==>
              ItemFromParsed(Rendered(item, pubDate)).value.categories == [item.categories[0]]
  {
    if Complete(item) {
      assert [item.categories[0]] == item.categories;
    }
  }

  function RenderedAll(items: seq<FeedItem>, pubDate: string -> string): seq<ParsedItem>
  {
    seq(|items|, k requires 0 <= k < |items| => Rendered(items[k], pubDate))
  }

  function Redated(items: seq<FeedItem>, pubDate: string -> string): seq<FeedItem>
  {
    seq(|items|, k requires 0 <= k < |items| => items[k].(date := pubDate(items[k].date)))
  }

  /** With a snapshot that parses, the feed holds the parsed items converted in
      their order, up to the first that throws; the call succeeds exactly when
      none throws. */
  lemma InitializeFromSnapshot(t: Tiers, codec: Codec, xml: Xml, env: LoadEnv, text: string, ps: seq<ParsedItem>)
    requires LoadFrom(t, codec, SnapshotKey, Text, env) == Ok(TextValue(text))
    requires text != "" && xml.parse(text) == Some(ps)
    ensures var init := InitializeOn(t, codec, xml, env);
            init.feed.channel == FeedChannel && |init.feed.items| <= |ps|
            && (forall k :: 0 <= k < |init.feed.items| ==> ItemFromParsed(ps[k]) == Ok(init.feed.items[k]))
            && (init.result.Ok? <==> forall k :: 0 <= k < |ps| ==> ItemFromParsed(ps[k]).Ok?)
            && (init.result.Ok? ==> |init.feed.items| == |ps|)
  {
    var h := ReadItems(ps);
    if h.failure.Some? {
      assert !ItemFromParsed(ps[|h.items|]).Ok?;
    }
  }

  /** A saved feed reads back: when the `rss` library and `xml2js` agree on its
      items, a later `initializeFeed` rebuilds the same items in the same order,
      with the dates as the library rendered them, whether the snapshot comes
      from the cache or, after an eviction, from the bucket. */
  lemma SnapshotRoundTrip(t: Tiers, codec: Codec, xml: Xml, f: Feed, env: SaveEnv,
                          pubDate: string -> string, evicted: bool, cacheGet: CallStatus)
    requires env.storePut == Succeeded && (env.cacheSet == Succeeded || evicted)
    requires forall k :: 0 <= k < |f.items| ==> Complete(f.items[k])
    requires xml.serialize(f) != ""
    requires xml.parse(xml.serialize(f)) == Some(RenderedAll(f.items, pubDate))
    ensures var s := SaveOn(t, codec, SnapshotKey, JsString(xml.serialize(f)), true, env).tiers;
            var after := if evicted then s.(cache := s.cache - {SnapshotKey}) else s;
            InitializeOn(after, codec, xml, LoadEnv(cacheGet, Succeeded))
              == Initialized(Feed(FeedChannel, Redated(f.items, pubDate)), Ok(()))
  {
    var ps := RenderedAll(f.items, pubDate);
    SaveThenLoad(t, codec, SnapshotKey, JsString(xml.serialize(f)), true, env.cacheSet, evicted, cacheGet);
    forall k | 0 <= k < |ps| ensures ItemFromParsed(ps[k]) == Ok(f.items[k].(date := pubDate(f.items[k].date))) {
      ItemFromRendered(f.items[k], pubDate);
    }
    var h := ReadItems(ps);
    assert h.items == Redated(f.items, pubDate);
  }

  // ---------------------------------------------------------------------------
  // handleLink

  /** The `site` record of lines 37-44. */
  function SiteOf(link: string, og: OgResult): Site
  {
    Site(link, og.ogTitle, og.ogDescription, og.ogType, og.ogUrl, og.ogSiteName)
  }

  /** The item of lines 61-69. */
  function NewItem(site: Site, description: Option<string>, msg: DiscordMessage, id: string): FeedItem
  {
    FeedItem(site.ogTitle, description, site.url, msg.createdAtIso, msg.authorTag, id, [msg.channelName])
  }

  /** Lines 54-59: the scraped description, or, with more than one recent
      message, the model's answer to the context prompt on the same chat. */
  function Describe(t: Tiers, site: Site, id: string, recent: seq<RecentMessage>, env: ChatEnv): Step<Option<string>>
  {
    if NeedsContext(recent) then ChatOn(t, ContextPrompt(Transcript(recent)), Some(id), None, env)
    else Step(t, Ok(site.ogDescription))
  }

  /** The services, the feed and the result after one `handleLink`. */
  datatype LinkStep = LinkStep(tiers: Tiers, feed: Option<Feed>, result: LinkResult)

  /** Lines 71-72 for a feed grown by `item`: the item is in memory before
      the save is attempted, and stays there when the save throws. */
  function Publish(t: Tiers, f: Feed, codec: Codec, xml: Xml, item: FeedItem, env: SaveEnv): LinkStep
  {
    var grown := Feed(f.channel, f.items + [item]);
    var saved := SaveOn(t, codec, SnapshotKey, JsString(xml.serialize(grown)), true, env);
    LinkStep(saved.tiers, Some(grown), if saved.result.Ok? then Published else Abandoned(saved.result.error))
  }

  /** Lines 54-73 for an accepted link: the description, the item, the save. */
  function Accept(t: Tiers, feed: Option<Feed>, codec: Codec, xml: Xml, site: Site, id: string,
                  msg: DiscordMessage, recent: seq<RecentMessage>, env: LinkEnv): LinkStep
  {
    var described := Describe(t, site, id, recent, env.enriching);
    match described.result
    case Err(e) => LinkStep(described.tiers, feed, Abandoned(e))
    case Ok(description) =>
      if feed.None? then LinkStep(described.tiers, feed, Abandoned(TypeError))
      else Publish(described.tiers, feed.value, codec, xml, NewItem(site, description, msg, id), env.saving)
  }

  /** Lines 48-52 on the scoring chat's answer; `undefined.match` and `null[1]` throw. */
  function Gate(t: Tiers, feed: Option<Feed>, codec: Codec, xml: Xml, site: Site, id: string,
                msg: DiscordMessage, recent: seq<RecentMessage>, env: LinkEnv, answer: Option<string>): LinkStep
  {
    if answer.None? then LinkStep(t, feed, Abandoned(TypeError))
    else match Judge(answer.value)
      case Unmatched => LinkStep(t, feed, Abandoned(TypeError))
      case Rejected => LinkStep(t, feed, NotRelevant)
      case Accepted => Accept(t, feed, codec, xml, site, id, msg, recent, env)
  }

  /** `handleLink`: every exception ends in the catch with `undefined`. */
  function HandleLinkOn(t: Tiers, feed: Option<Feed>, codec: Codec, xml: Xml, id: string,
                        msg: DiscordMessage, link: string, recent: seq<RecentMessage>, env: LinkEnv): LinkStep
  {
    match env.scrape
    case ScrapeRejected => LinkStep(t, feed, Abandoned(ScrapeFailure))
    case Scraped(og) =>
      var site := SiteOf(link, og);
      var scored := ChatOn(t, RelevancePrompt(site), Some(id), None, env.scoring);
      match scored.result
      case Err(e) => LinkStep(scored.tiers, feed, Abandoned(e))
      case Ok(answer) => Gate(scored.tiers, feed, codec, xml, site, id, msg, recent, env, answer)
  }

  /** The save decides the result; a failed save leaves the services as they were. */
  lemma PublishOutcome(t: Tiers, f: Feed, codec: Codec, xml: Xml, item: FeedItem, env: SaveEnv)
    ensures var out := Publish(t, f, codec, xml, item, env);
            out.feed == Some(Feed(f.channel, f.items + [item]))
            && (out.result == Published <==> env.storePut == Succeeded)
            && (out.result != Published ==> out.tiers == t && out.result == Abandoned(StoreFailure))
            && (out.result == Published ==>
                  out.tiers.store == t.store[SnapshotKey := StoredObject(xml.serialize(out.feed.value), true)]
                  && out.tiers.lists == t.lists)
  {
  }

  /** An accepted link that is not published leaves the bucket and the cache
      as they were, and keeps the feed unless the save failed. */
  lemma AcceptUnpublished(t: Tiers, feed: Option<Feed>, codec: Codec, xml: Xml, site: Site, id: string,
                          msg: DiscordMessage, recent: seq<RecentMessage>, env: LinkEnv)
    ensures var out := Accept(t, feed, codec, xml, site, id, msg, recent, env);
            out.result != NotRelevant
            && (out.result != Published ==>
                  out.tiers.store == t.store && out.tiers.cache == t.cache
                  && (out.feed != feed ==> out.result == Abandoned(StoreFailure) && env.saving.storePut == Errored))
  {
    if NeedsContext(recent) {
      ChatKeepsCacheAndStore(t, ContextPrompt(Transcript(recent)), Some(id), None, env.enriching);
    }
    var described := Describe(t, site, id, recent, env.enriching);
    if described.result.Ok? && feed.Some? {
      PublishOutcome(described.tiers, feed.value, codec, xml, NewItem(site, described.result.value, msg, id), env.saving);
    }
  }

  /** An accepted link grows the feed by one item, built from the page and the
      message, exactly when it gets as far as `feed.item`; `true` follows
      only from a grown feed whose serialization is then the public snapshot. */
  lemma AcceptGrowth(t: Tiers, feed: Option<Feed>, codec: Codec, xml: Xml, site: Site, id: string,
                     msg: DiscordMessage, recent: seq<RecentMessage>, env: LinkEnv)
    ensures var out := Accept(t, feed, codec, xml, site, id, msg, recent, env);
            out.feed != feed ==>
              feed.Some? && out.feed.Some? && out.feed.value.channel == feed.value.channel
              && |out.feed.value.items| == |feed.value.items| + 1
              && out.feed.value.items[..|feed.value.items|] == feed.value.items
              && out.feed.value.items[|feed.value.items|]
                 == NewItem(site, out.feed.value.items[|feed.value.items|].description, msg, id)
    ensures var out := Accept(t, feed, codec, xml, site, id, msg, recent, env);
            out.result == Published ==>
              out.feed != feed && out.feed.Some? && SnapshotKey in out.tiers.store
              && out.tiers.store[SnapshotKey] == StoredObject(xml.serialize(out.feed.value), true)
  {
    var described := Describe(t, site, id, recent, env.enriching);
    if described.result.Ok? && feed.Some? {
      var item := NewItem(site, described.result.value, msg, id);
      PublishOutcome(described.tiers, feed.value, codec, xml, item, env.saving);
      var items := feed.value.items;
      assert (items + [item])[..|items|] == items;
      assert |items + [item]| != |items|;
    }
  }

  /** Either the link reaches lines 54-73 on the services the scoring chat
      left, or the call ends first with the feed, the bucket and the cache as
      they were. */
  lemma HandleLinkStages(t: Tiers, feed: Option<Feed>, codec: Codec, xml: Xml, id: string,
                         msg: DiscordMessage, link: string, recent: seq<RecentMessage>, env: LinkEnv)
    ensures var out := HandleLinkOn(t, feed, codec, xml, id, msg, link, recent, env);
            (env.scrape.Scraped?
             && var site := SiteOf(link, env.scrape.result);
                var scored := ChatOn(t, RelevancePrompt(site), Some(id), None, env.scoring);
                scored.result.Ok? && scored.result.value.Some? && Judge(scored.result.value.value) == Accepted
                && out == Accept(scored.tiers, feed, codec, xml, site, id, msg, recent, env))
            || (out.feed == feed && out.result != Published && out.tiers.store == t.store && out.tiers.cache == t.cache)
  {
    if env.scrape.Scraped? {
      ChatKeepsCacheAndStore(t, RelevancePrompt(SiteOf(link, env.scrape.result)), Some(id), None, env.scoring);
    }
  }

  /** The item an accepted link adds: its guid is the submission id, its url
      the link, its one category the channel name, its title the page's. */
  predicate ItemFor(item: FeedItem, link: string, og: OgResult, msg: DiscordMessage, id: string)
  {
    item.guid == id && item.url == link && item.categories == [msg.channelName]
    && item.title == og.ogTitle && item.author == msg.authorTag && item.date == msg.createdAtIso
  }

  /** The feed either stays as it was or gains exactly one item at its tail,
      the earlier items and the channel unchanged. */
  lemma HandleLinkAppendsAtMostOne(t: Tiers, feed: Option<Feed>, codec: Codec, xml: Xml, id: string,
                                   msg: DiscordMessage, link: string, recent: seq<RecentMessage>, env: LinkEnv)
    ensures var out := HandleLinkOn(t, feed, codec, xml, id, msg, link, recent, env);
            out.feed == feed
            || (feed.Some? && out.feed.Some? && env.scrape.Scraped?
                && out.feed.value.channel == feed.value.channel
                && |out.feed.value.items| == |feed.value.items| + 1
                && out.feed.value.items[..|feed.value.items|] == feed.value.items
                && ItemFor(out.feed.value.items[|feed.value.items|], link, env.scrape.result, msg, id))
  {
    HandleLinkStages(t, feed, codec, xml, id, msg, link, recent, env);
    if env.scrape.Scraped? {
      var site := SiteOf(link, env.scrape.result);
      var scored := ChatOn(t, RelevancePrompt(site), Some(id), None, env.scoring);
      AcceptGrowth(scored.tiers, feed, codec, xml, site, id, msg, recent, env);
    }
  }

  /** `true` means the item was appended and the whole feed, serialized, is the
      public `rss.xml` object. */
  lemma HandleLinkPublished(t: Tiers, feed: Option<Feed>, codec: Codec, xml: Xml, id: string,
                            msg: DiscordMessage, link: string, recent: seq<RecentMessage>, env: LinkEnv)
    requires HandleLinkOn(t, feed, codec, xml, id, msg, link, recent, env).result == Published
    ensures var out := HandleLinkOn(t, feed, codec, xml, id, msg, link, recent, env);
            feed.Some? && out.feed.Some? && env.scrape.Scraped?
            && |out.feed.value.items| == |feed.value.items| + 1
            && out.feed.value.items[..|feed.value.items|] == feed.value.items
            && ItemFor(out.feed.value.items[|feed.value.items|], link, env.scrape.result, msg, id)
            && SnapshotKey in out.tiers.store
            && out.tiers.store[SnapshotKey] == StoredObject(xml.serialize(out.feed.value), true)
  {
    HandleLinkStages(t, feed, codec, xml, id, msg, link, recent, env);
    if env.scrape.Scraped? {
      var site := SiteOf(link, env.scrape.result);
      var scored := ChatOn(t, RelevancePrompt(site), Some(id), None, env.scoring);
      AcceptGrowth(scored.tiers, feed, codec, xml, site, id, msg, recent, env);
    }
  }

  /** Whatever does not end in `true` leaves the bucket and the cache as they
      were; only a failed save leaves the appended item behind, and then the
      result is `undefined`. */
  lemma HandleLinkUnpublished(t: Tiers, feed: Option<Feed>, codec: Codec, xml: Xml, id: string,
                              msg: DiscordMessage, link: string, recent: seq<RecentMessage>, env: LinkEnv)
    requires HandleLinkOn(t, feed, codec, xml, id, msg, link, recent, env).result != Published
    ensures var out := HandleLinkOn(t, feed, codec, xml, id, msg, link, recent, env);
            out.tiers.store == t.store && out.tiers.cache == t.cache
            && (out.feed != feed ==> out.result == Abandoned(StoreFailure) && env.saving.storePut == Errored)
            && (out.result == NotRelevant ==> out.feed == feed)
  {
    HandleLinkStages(t, feed, codec, xml, id, msg, link, recent, env);
    if env.scrape.Scraped? {
      var site := SiteOf(link, env.scrape.result);
      var scored := ChatOn(t, RelevancePrompt(site), Some(id), None, env.scoring);
      AcceptUnpublished(scored.tiers, feed, codec, xml, site, id, msg, recent, env);
    }
  }

  /** Nothing deduplicates: a link published under an id the feed already
      carries leaves two items with that guid. */
  lemma HandleLinkKeepsDuplicates(t: Tiers, feed: Option<Feed>, codec: Codec, xml: Xml, id: string,
                                  msg: DiscordMessage, link: string, recent: seq<RecentMessage>, env: LinkEnv, j: nat)
    requires HandleLinkOn(t, feed, codec, xml, id, msg, link, recent, env).result == Published
    requires feed.Some? && j < |feed.value.items| && feed.value.items[j].guid == id
    ensures var items := HandleLinkOn(t, feed, codec, xml, id, msg, link, recent, env).feed.value.items;
            var n := |feed.value.items|;
            n < |items| && items[j].guid == id && items[n].guid == id && j != n
  {
    HandleLinkPublished(t, feed, codec, xml, id, msg, link, recent, env);
    var out := HandleLinkOn(t, feed, codec, xml, id, msg, link, recent, env);
    assert out.feed.value.items[..|feed.value.items|][j] == out.feed.value.items[j];
  }

  /** The model answered and its first content block is the text `reply`;
      `chat` reads nothing else (`answer.content[0].text`). */
  predicate Answers(answer: Invocation, reply: string)
  {
    answer.Invoked? && |answer.content| > 0 && answer.content[0] == TextBlock(reply)
  }

  /** A reply without a `<relevance>...</relevance>` match throws at the
      match: `undefined`, with the feed and the snapshot untouched. */
  lemma HandleLinkUnmatched(t: Tiers, feed: Option<Feed>, codec: Codec, xml: Xml, id: string,
                            msg: DiscordMessage, link: string, recent: seq<RecentMessage>, env: LinkEnv, reply: string)
    requires env.scrape.Scraped?
    requires Answers(env.scoring.model(ChatRequest(t, RelevancePrompt(SiteOf(link, env.scrape.result)), Some(id), None,
                                                   env.scoring.listFetch)), reply)
    requires forall p, k :: !MatchAt(reply, p, k)
    ensures var out := HandleLinkOn(t, feed, codec, xml, id, msg, link, recent, env);
            out.result == Abandoned(TypeError) && out.feed == feed
            && out.tiers.store == t.store && out.tiers.cache == t.cache
  {
    CaptureNoneIff(reply);
  }

  /** `false` comes from the gate alone: exactly when the scoring reply's
      capture is empty or an integer below 7. */
  lemma HandleLinkRejectedIff(t: Tiers, feed: Option<Feed>, codec: Codec, xml: Xml, id: string,
                              msg: DiscordMessage, link: string, recent: seq<RecentMessage>, env: LinkEnv, reply: string)
    requires env.scrape.Scraped?
    requires Answers(env.scoring.model(ChatRequest(t, RelevancePrompt(SiteOf(link, env.scrape.result)), Some(id), None,
                                                   env.scoring.listFetch)), reply)
    ensures (HandleLinkOn(t, feed, codec, xml, id, msg, link, recent, env).result == NotRelevant)
            <==> Judge(reply) == Rejected
  {
    var site := SiteOf(link, env.scrape.result);
    var scored := ChatOn(t, RelevancePrompt(site), Some(id), None, env.scoring);
    AcceptUnpublished(scored.tiers, feed, codec, xml, site, id, msg, recent, env);
  }

  /** The gate: a scoring reply `<relevance>n</relevance>` (after text
      without `<`) rejects the link exactly when n < 7. */
  lemma HandleLinkThreshold(t: Tiers, feed: Option<Feed>, codec: Codec, xml: Xml, id: string,
                            msg: DiscordMessage, link: string, recent: seq<RecentMessage>, env: LinkEnv,
                            before: string, n: nat, after: string)
    requires '<' !in before
    requires env.scrape.Scraped?
    requires env.scoring.model(ChatRequest(t, RelevancePrompt(SiteOf(link, env.scrape.result)), Some(id), None,
                                           env.scoring.listFetch))
             == Invoked([TextBlock(before + Open + DecimalString(n) + Close + after)])
    ensures (HandleLinkOn(t, feed, codec, xml, id, msg, link, recent, env).result == NotRelevant) <==> n < 7
  {
    HandleLinkRejectedIff(t, feed, codec, xml, id, msg, link, recent, env, before + Open + DecimalString(n) + Close + after);
    JudgeDecimal(before, n, after);
  }

  /** A score that `parseInt` reads as `NaN`, such as `high`, is not rejected. */
  lemma HandleLinkNotANumber(t: Tiers, feed: Option<Feed>, codec: Codec, xml: Xml, id: string,
                             msg: DiscordMessage, link: string, recent: seq<RecentMessage>, env: LinkEnv, d: string)
    requires '<' !in d && NoLineTerminator(d) && d != "" && ParseInt(d) == NaN
    requires env.scrape.Scraped?
    requires env.scoring.model(ChatRequest(t, RelevancePrompt(SiteOf(link, env.scrape.result)), Some(id), None,
                                           env.scoring.listFetch))
             == Invoked([TextBlock(Open + d + Close)])
    ensures HandleLinkOn(t, feed, codec, xml, id, msg, link, recent, env).result != NotRelevant
  {
    HandleLinkRejectedIff(t, feed, codec, xml, id, msg, link, recent, env, Open + d + Close);
    CaptureOfTag(d);
  }

  /** With at most one recent message the enrichment model is never called: the
      item keeps the scraped description and the enrichment outcomes do not matter. */
  lemma HandleLinkWithoutContext(t: Tiers, feed: Option<Feed>, codec: Codec, xml: Xml, id: string,
                                 msg: DiscordMessage, link: string, recent: seq<RecentMessage>, env: LinkEnv,
                                 enriching: ChatEnv)
    requires !NeedsContext(recent)
    ensures HandleLinkOn(t, feed, codec, xml, id, msg, link, recent, env)
         == HandleLinkOn(t, feed, codec, xml, id, msg, link, recent, env.(enriching := enriching))
    ensures var out := HandleLinkOn(t, feed, codec, xml, id, msg, link, recent, env);
            out.feed != feed ==>
              feed.Some? && out.feed.Some? && |out.feed.value.items| == |feed.value.items| + 1
              && out.feed.value.items[|feed.value.items|].description == env.scrape.result.ogDescription
  {
    HandleLinkStages(t, feed, codec, xml, id, msg, link, recent, env);
  }

  /** With more than one recent message the item's description is the text of
      the model's answer to the context prompt built from the transcript. */
  lemma HandleLinkWithContext(t: Tiers, feed: Option<Feed>, codec: Codec, xml: Xml, id: string,
                              msg: DiscordMessage, link: string, recent: seq<RecentMessage>, env: LinkEnv)
    requires NeedsContext(recent)
    requires HandleLinkOn(t, feed, codec, xml, id, msg, link, recent, env).feed != feed
    ensures var out := HandleLinkOn(t, feed, codec, xml, id, msg, link, recent, env);
            var scored := ChatOn(t, RelevancePrompt(SiteOf(link, env.scrape.result)), Some(id), None, env.scoring);
            var enriched := ChatOn(scored.tiers, ContextPrompt(Transcript(recent)), Some(id), None, env.enriching);
            feed.Some? && out.feed.Some? && |out.feed.value.items| == |feed.value.items| + 1
            && enriched.result.Ok?
            && out.feed.value.items[|feed.value.items|].description == enriched.result.value
  {
    HandleLinkStages(t, feed, codec, xml, id, msg, link, recent, env);
    var site := SiteOf(link, env.scrape.result);
    var scored := ChatOn(t, RelevancePrompt(site), Some(id), None, env.scoring);
    var described := Describe(scored.tiers, site, id, recent, env.enriching);
    if described.result.Ok? && feed.Some? {
      PublishOutcome(described.tiers, feed.value, codec, xml, NewItem(site, described.result.value, msg, id), env.saving);
    }
  }

  /** An accepted scoring reply hands the link, on the services the scoring
      chat left, to lines 54-73. */
  lemma HandleLinkAccepted(t: Tiers, feed: Option<Feed>, codec: Codec, xml: Xml, id: string,
                           msg: DiscordMessage, link: string, recent: seq<RecentMessage>, env: LinkEnv, reply: string)
    requires env.scrape.Scraped?
    requires Answers(env.scoring.model(ChatRequest(t, RelevancePrompt(SiteOf(link, env.scrape.result)), Some(id), None,
                                                   env.scoring.listFetch)), reply)
    requires Judge(reply) == Accepted
    ensures var site := SiteOf(link, env.scrape.result);
            var scored := ChatOn(t, RelevancePrompt(site), Some(id), None, env.scoring);
            HandleLinkOn(t, feed, codec, xml, id, msg, link, recent, env)
              == Accept(scored.tiers, feed, codec, xml, site, id, msg, recent, env)
  {
  }

  /** An accepted link whose description is available (no context is needed,
      or the enrichment chat answers) and whose save succeeds is published: the
      feed gains the new item at its tail and the snapshot holds the grown feed. */
  lemma HandleLinkAcceptedPublishes(t: Tiers, f: Feed, codec: Codec, xml: Xml, id: string, msg: DiscordMessage,
                                    link: string, recent: seq<RecentMessage>, env: LinkEnv, reply: string)
    requires env.scrape.Scraped?
    requires Answers(env.scoring.model(ChatRequest(t, RelevancePrompt(SiteOf(link, env.scrape.result)), Some(id), None,
                                                   env.scoring.listFetch)), reply)
    requires Judge(reply) == Accepted
    requires env.saving.storePut == Succeeded
    requires var scored := ChatOn(t, RelevancePrompt(SiteOf(link, env.scrape.result)), Some(id), None, env.scoring);
             !NeedsContext(recent)
             || ChatOn(scored.tiers, ContextPrompt(Transcript(recent)), Some(id), None, env.enriching).result.Ok?
    ensures var site := SiteOf(link, env.scrape.result);
            var scored := ChatOn(t, RelevancePrompt(site), Some(id), None, env.scoring);
            var description := if NeedsContext(recent)
                               then ChatOn(scored.tiers, ContextPrompt(Transcript(recent)), Some(id), None,
                                           env.enriching).result.value
                               else env.scrape.result.ogDescription;
            var out := HandleLinkOn(t, Some(f), codec, xml, id, msg, link, recent, env);
            out.result == Published
            && out.feed == Some(Feed(f.channel, f.items + [NewItem(site, description, msg, id)]))
            && SnapshotKey in out.tiers.store
            && out.tiers.store[SnapshotKey] == StoredObject(xml.serialize(out.feed.value), true)
  {
    var site := SiteOf(link, env.scrape.result);
    var scored := ChatOn(t, RelevancePrompt(site), Some(id), None, env.scoring);
    var described := Describe(scored.tiers, site, id, recent, env.enriching);
    HandleLinkAccepted(t, Some(f), codec, xml, id, msg, link, recent, env, reply);
    PublishOutcome(described.tiers, f, codec, xml, NewItem(site, described.result.value, msg, id), env.saving);
  }

  /** The end-to-end scenario: `https://example.com/a` scraped as title `A` and
      description `desc`, scored `<relevance>8</relevance>`, saved: one item
      `A`/`desc` is appended and the snapshot holds the grown feed. */
  lemma HandleLinkScenario(t: Tiers, f: Feed, codec: Codec, xml: Xml, id: string, msg: DiscordMessage, env: LinkEnv)
    requires env.scrape == Scraped(OgResult(Some("A"), Some("desc"), None, None, None))
    requires env.scoring.model(ChatRequest(t, RelevancePrompt(SiteOf("https://example.com/a", env.scrape.result)),
                                           Some(id), None, env.scoring.listFetch))
             == Invoked([TextBlock(Open + DecimalString(8) + Close)])
    requires env.saving.storePut == Succeeded
    ensures var out := HandleLinkOn(t, Some(f), codec, xml, id, msg, "https://example.com/a", [], env);
            var item := FeedItem(Some("A"), Some("desc"), "https://example.com/a", msg.createdAtIso, msg.authorTag,
                                 id, [msg.channelName]);
            out.result == Published && out.feed == Some(Feed(f.channel, f.items + [item]))
            && SnapshotKey in out.tiers.store
            && out.tiers.store[SnapshotKey] == StoredObject(xml.serialize(out.feed.value), true)
  {
    var link := "https://example.com/a";
    var site := SiteOf(link, env.scrape.result);
    var scored := ChatOn(t, RelevancePrompt(site), Some(id), None, env.scoring);
    JudgeEight();
    HandleLinkAccepted(t, Some(f), codec, xml, id, msg, link, [], env, Open + DecimalString(8) + Close);
    PublishOutcome(scored.tiers, f, codec, xml, NewItem(site, Some("desc"), msg, id), env.saving);
  }

  /** The rejection scenario: scored `<relevance>3</relevance>`, the link is
      rejected and neither the feed nor the snapshot changes. */
  lemma HandleLinkRejectionScenario(t: Tiers, f: Feed, codec: Codec, xml: Xml, id: string, msg: DiscordMessage,
                                    env: LinkEnv)
    requires env.scrape == Scraped(OgResult(Some("A"), Some("desc"), None, None, None))
    requires env.scoring.model(ChatRequest(t, RelevancePrompt(SiteOf("https://example.com/a", env.scrape.result)),
                                           Some(id), None, env.scoring.listFetch))
             == Invoked([TextBlock(Open + DecimalString(3) + Close)])
    ensures var out := HandleLinkOn(t, Some(f), codec, xml, id, msg, "https://example.com/a", [], env);
            out.result == NotRelevant && out.feed == Some(f)
            && out.tiers.store == t.store && out.tiers.cache == t.cache
  {
    JudgeThree();
  }

  // ---------------------------------------------------------------------------
  // the module state

  class FeedSynthesizer {
    /** The module-level `let feed`: `None` until `initializeFeed` ran. */
    var feed: Option<Feed>
    const storage: TieredStore
    const xml: Xml

    constructor (storage: TieredStore, xml: Xml)
      ensures feed == None && this.storage == storage
    {
      this.storage := storage;
      this.xml := xml;
      feed := None;
    }

    /** `initializeFeed` (lines 8-32). */
    method InitializeFeed(env: LoadEnv) returns (r: Result<()>)
      modifies this
      ensures var init := InitializeOn(storage.State(), storage.codec, xml, env);
              feed == Some(init.feed) && r == init.result
    {
      feed := Some(Feed(FeedChannel, []));
      var existing := storage.Load(SnapshotKey, Text, env);
      if existing.Err? {
        return Err(existing.error);
      }
      var text := existing.value.text;
      if text != "" {
        var parsed := xml.parse(text);
        if parsed.None? {
          return Err(SyntaxError);
        }
        var ps := parsed.value;
        var i := 0;
        while i < |ps|
          invariant 0 <= i <= |ps|
          invariant ReadItems(ps[..i]).failure.None?
          invariant feed == Some(Feed(FeedChannel, ReadItems(ps[..i]).items))
        {
          assert ps[..i + 1][..i] == ps[..i];
          var item := ItemFromParsed(ps[i]);
          if item.Err? {
            ReadItemsStopsAtFailure(ps, i + 1);
            return Err(item.error);
          }
          feed := Some(Feed(feed.value.channel, feed.value.items + [item.value]));
          i := i + 1;
        }
        assert ps[..|ps|] == ps;
      }
      return Ok(());
    }

    /** `handleLink` (lines 34-77). */
    method HandleLink(id: string, msg: DiscordMessage, link: string, recent: seq<RecentMessage>, env: LinkEnv)
      returns (r: LinkResult)
      modifies this, storage
      ensures var out := HandleLinkOn(old(storage.State()), old(feed), storage.codec, xml, id, msg, link, recent, env);
              storage.State() == out.tiers && feed == out.feed && r == out.result
    {
      if env.scrape.ScrapeRejected? {
        return Abandoned(ScrapeFailure);
      }
      var site := SiteOf(link, env.scrape.result);
      var prompt := RelevancePrompt(site);
      var answer := storage.Chat(prompt, Some(id), None, env.scoring);
      if answer.Err? {
        return Abandoned(answer.error);
      }
      assert HandleLinkOn(old(storage.State()), old(feed), storage.codec, xml, id, msg, link, recent, env)
          == Gate(storage.State(), feed, storage.codec, xml, site, id, msg, recent, env, answer.value);
      if answer.value.None? {
        return Abandoned(TypeError);   // `undefined.match`
      }
      JudgeSteps(answer.value.value);
      var captured := Capture(answer.value.value);
      if captured.None? {
        return Abandoned(TypeError);   // `null[1]`
      }
      var relevance := captured.value;
      if relevance == "" {
        return NotRelevant;            // `'' < 7`
      }
      var parsed := ParseInt(relevance);
      if parsed.Integer? && parsed.value < 7 {
        return NotRelevant;
      }
      r := AddAccepted(site, id, msg, recent, env);
    }

    /** Lines 54-73: describe the accepted link, append it, save the feed. */
    method AddAccepted(site: Site, id: string, msg: DiscordMessage, recent: seq<RecentMessage>, env: LinkEnv)
      returns (r: LinkResult)
      modifies this, storage
      ensures var out := Accept(old(storage.State()), old(feed), storage.codec, xml, site, id, msg, recent, env);
              storage.State() == out.tiers && feed == out.feed && r == out.result
    {
      var description := site.ogDescription;
      if NeedsContext(recent) {
        var contextPrompt := ContextPrompt(Transcript(recent));
        var enriched := storage.Chat(contextPrompt, Some(id), None, env.enriching);
        if enriched.Err? {
          return Abandoned(enriched.error);
        }
        description := enriched.value;
      }
      if feed.None? {
        return Abandoned(TypeError);   // `feed.item` before `initializeFeed`
      }
      feed := Some(Feed(feed.value.channel, feed.value.items + [NewItem(site, description, msg, id)]));
      var newFeed := xml.serialize(feed.value);
      var saved := storage.Save(SnapshotKey, JsString(newFeed), true, env.saving);
      if saved.Err? {
        return Abandoned(saved.error);
      }
      return Published;
    }
  }

  /** Once a parsed item throws, later items do not change what was read. */
  lemma {:induction false} ReadItemsStopsAtFailure(ps: seq<ParsedItem>, n: nat)
    requires 0 < n <= |ps|
    requires ReadItems(ps[..n - 1]).failure.None? && ItemFromParsed(ps[n - 1]).Err?
    ensures ReadItems(ps) == Hydration(ReadItems(ps[..n - 1]).items, Some(ItemFromParsed(ps[n - 1]).error))
    decreases |ps| - n
  {
    assert ps[..n][..n - 1] == ps[..n - 1];
    if n < |ps| {
      assert ps[..|ps|][..|ps| - 1] == ps[..|ps| - 1];
      ReadItemsPrefixFailure(ps, n);
    } else {
      assert ps[..n] == ps;
    }
  }

  lemma {:induction false} ReadItemsPrefixFailure(ps: seq<ParsedItem>, n: nat)
    requires 0 < n <= |ps|
    requires ReadItems(ps[..n]).failure.Some?
    ensures ReadItems(ps) == ReadItems(ps[..n])
    decreases |ps| - n
  {
    if n < |ps| {
      var m := n + 1;
      assert ps[..m][..m - 1] == ps[..n];
      ReadItemsPrefixFailure(ps, m);
    } else {
      assert ps[..n] == ps;
    }
  }
}
